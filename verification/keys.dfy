/** The two codecs of packet keys: the proof height inside a tracking key, and the base64 form in which
    a key is sent to be finalized. */
module Keys {
  import opened SdkCoins
  import opened Varint

  // ---------------------------------------------------------------- the proof height

  const SLASH: Byte := 0x2f

  /** The part of `s` before the first slash, and what follows that slash, if there is one. */
  function Cut(s: seq<Byte>): (r: (seq<Byte>, Option<seq<Byte>>))
    ensures SLASH !in r.0
    ensures s == if r.1.Some? then r.0 + [SLASH] + r.1.value else r.0
  {
    if s == [] then ([], None)
    else if s[0] == SLASH then ([], Some(s[1..]))
    else
      var (head, rest) := Cut(s[1..]);
      ([s[0]] + head, rest)
  }

  /** `strings.Split` on slashes. */
  function Split(s: seq<Byte>): seq<seq<Byte>>
    decreases |s|
  {
    var (head, rest) := Cut(s);
    match rest
    case None => [head]
    case Some(tail) => [head] + Split(tail)
  }

  function BigEndian(bs: seq<Byte>): nat {
    if bs == [] then 0 else BigEndian(bs[..|bs| - 1]) * 256 + bs[|bs| - 1]
  }

  /** The `n` low bytes of a number, high byte first. */
  function ToBigEndian(h: nat, n: nat): (bs: seq<Byte>)
    ensures |bs| == n
  {
    if n == 0 then [] else ToBigEndian(h / 256, n - 1) + [h % 256]
  }

  function Power256(n: nat): nat {
    if n == 0 then 1 else 256 * Power256(n - 1)
  }

  lemma {:induction false} BigEndianRoundTrip(h: nat, n: nat)
    requires h < Power256(n)
    ensures BigEndian(ToBigEndian(h, n)) == h
  {
    if n > 0 {
      BigEndianRoundTrip(h / 256, n - 1);
      var bs := ToBigEndian(h, n);
      assert bs[..n - 1] == ToBigEndian(h / 256, n - 1);
    }
  }

  /** Eight bytes, the highest first. */
  lemma EightBytesMean(h: nat)
    requires h < TWO_64
    ensures var b := ToBigEndian(h, 8);
            && |b| == 8
            && h == (b[0] as int) * 0x100_0000_0000_0000 + (b[1] as int) * 0x1_0000_0000_0000
                  + (b[2] as int) * 0x100_0000_0000 + (b[3] as int) * 0x1_0000_0000 + (b[4] as int) * 0x100_0000
                  + (b[5] as int) * 0x1_0000 + (b[6] as int) * 0x100 + b[7]
  {
    EightBytes();
    BigEndianRoundTrip(h, 8);
    EightDigits(ToBigEndian(h, 8));
  }

  lemma EightDigits(b: seq<Byte>)
    requires |b| == 8
    ensures BigEndian(b)
         == (b[0] as int) * 0x100_0000_0000_0000 + (b[1] as int) * 0x1_0000_0000_0000
          + (b[2] as int) * 0x100_0000_0000 + (b[3] as int) * 0x1_0000_0000 + (b[4] as int) * 0x100_0000
          + (b[5] as int) * 0x1_0000 + (b[6] as int) * 0x100 + b[7]
  {
    assert b[..8] == b;
    NextDigit(b, 7);
    NextDigit(b, 6);
    NextDigit(b, 5);
    NextDigit(b, 4);
    NextDigit(b, 3);
    NextDigit(b, 2);
    NextDigit(b, 1);
    NextDigit(b, 0);
    assert b[..0] == [] && BigEndian([]) == 0;
    hide BigEndian;
  }

  lemma NextDigit(b: seq<Byte>, k: nat)
    requires k < |b|
    ensures BigEndian(b[..k + 1]) == BigEndian(b[..k]) * 256 + b[k]
  {
    assert b[..k + 1][..k] == b[..k];
  }

  /** `BigEndianToUint64`: nothing is zero, fewer than eight bytes panic, and only eight are read. */
  function Uint64Of(bs: seq<Byte>): Option<nat> {
    if bs == [] then Some(0) else if |bs| < 8 then None else Some(BigEndian(bs[..8]))
  }

  /** `parseProofHeight`: a panic in the number is recovered, with result zero; one in the split is not. */
  function ParseProofHeight(key: seq<Byte>): Option<nat> {
    var parts := Split(key);
    if |parts| < 3 then None
    else
      match Uint64Of(parts[2])
      case None => Some(0)
      case Some(h) => Some(h)
  }

  lemma {:induction false} CutBeforeSlash(a: seq<Byte>, rest: seq<Byte>, s: seq<Byte>)
    requires SLASH !in a && s == a + [SLASH] + rest
    ensures Cut(s) == (a, Some(rest))
  {
    if a != [] {
      CutBeforeSlash(a[1..], rest, s[1..]);
      assert s[0] == a[0];
      assert a == [a[0]] + a[1..];
    } else {
      assert s[0] == SLASH && s[1..] == rest;
    }
  }

  lemma SplitAfterSlash(a: seq<Byte>, rest: seq<Byte>)
    requires SLASH !in a
    ensures Split(a + [SLASH] + rest) == [a] + Split(rest)
  {
    CutBeforeSlash(a, rest, a + [SLASH] + rest);
  }

  /** The key of an order's packet. */
  function TrackingKey(status: seq<Byte>, rollapp: seq<Byte>, h: nat, rest: seq<Byte>): seq<Byte> {
    status + [SLASH] + (rollapp + [SLASH] + (ToBigEndian(h, 8) + [SLASH] + rest))
  }

  /** The height comes back exactly when none of its bytes is a slash; otherwise zero comes back. */
  lemma ProofHeightParses(status: seq<Byte>, rollapp: seq<Byte>, h: nat, rest: seq<Byte>)
    requires SLASH !in status && SLASH !in rollapp && h < TWO_64
    ensures ParseProofHeight(TrackingKey(status, rollapp, h, rest))
         == Some(if SLASH in ToBigEndian(h, 8) then 0 else h)
  {
    hide ToBigEndian, Cut, Split, BigEndian;
    var tail := ToBigEndian(h, 8) + [SLASH] + rest;
    SplitAfterSlash(status, rollapp + [SLASH] + tail);
    SplitAfterSlash(rollapp, tail);
    SplitStarts(tail);
    HeightAhead(h, rest);
  }

  lemma SplitStarts(s: seq<Byte>)
    ensures |Split(s)| >= 1 && Split(s)[0] == Cut(s).0
  {}

  /** What stands before the first slash of the tail: the eight bytes, or fewer. */
  lemma HeightAhead(h: nat, rest: seq<Byte>)
    requires h < TWO_64
    ensures var head := Cut(ToBigEndian(h, 8) + [SLASH] + rest).0;
            if SLASH in ToBigEndian(h, 8) then Uint64Of(head) in {None, Some(0)} else Uint64Of(head) == Some(h)
  {
    hide ToBigEndian, Cut, BigEndian;
    var bytes := ToBigEndian(h, 8);
    var tail := bytes + [SLASH] + rest;
    if SLASH in bytes {
      var (head, after) := Cut(bytes);
      CutBeforeSlash(head, after.value + [SLASH] + rest, tail);
      assert |head| < 8;
    } else {
      CutBeforeSlash(bytes, rest, tail);
      assert bytes[..8] == bytes;
      EightBytes();
      BigEndianRoundTrip(h, 8);
    }
  }

  lemma EightBytes()
    ensures Power256(8) == TWO_64
  {
    assert Power256(4) == 0x1_0000_0000;
    assert Power256(8) == 256 * 256 * 256 * 256 * Power256(4);
  }

  // ---------------------------------------------------------------- base64

  /** Section 4 of RFC 4648. */
  function SymbolOf(v: int): char
    requires 0 <= v < 64
  {
    if v < 26 then 'A' + v as char
    else if v < 52 then 'a' + (v - 26) as char
    else if v < 62 then '0' + (v - 52) as char
    else if v == 62 then '+' else '/'
  }

  function ValueOf(c: char): (r: Option<int>)
    ensures r.Some? ==> 0 <= r.value < 64
  {
    if 'A' <= c <= 'Z' then Some(c as int - 'A' as int)
    else if 'a' <= c <= 'z' then Some(c as int - 'a' as int + 26)
    else if '0' <= c <= '9' then Some(c as int - '0' as int + 52)
    else if c == '+' then Some(62)
    else if c == '/' then Some(63)
    else None
  }

  lemma SymbolRoundTrip(v: int)
    requires 0 <= v < 64
    ensures ValueOf(SymbolOf(v)) == Some(v)
    ensures SymbolOf(v) !in {'=', '\r', '\n'}
  {}

  /** The alphabet of that section: capital letters from 0 on, small ones from 26, digits from 52, then two
      signs. */
  lemma SymbolsAreTheAlphabet()
    ensures SymbolOf(0) == 'A' && SymbolOf(26) == 'a' && SymbolOf(52) == '0'
    ensures SymbolOf(62) == '+' && SymbolOf(63) == '/'
    ensures forall v :: 0 <= v < 61 && v != 25 && v != 51 ==> SymbolOf(v + 1) as int == SymbolOf(v) as int + 1
  {}

  /** `EncodeToString`. */
  function Encode(k: seq<Byte>): string {
    if |k| == 0 then ""
    else if |k| == 1 then [SymbolOf(k[0] / 4), SymbolOf(k[0] % 4 * 16), '=', '=']
    else if |k| == 2 then
      [SymbolOf(k[0] / 4), SymbolOf(k[0] % 4 * 16 + k[1] / 16), SymbolOf(k[1] % 16 * 4), '=']
    else
      [SymbolOf(k[0] / 4), SymbolOf(k[0] % 4 * 16 + k[1] / 16),
       SymbolOf(k[1] % 16 * 4 + k[2] / 64), SymbolOf(k[2] % 64)] + Encode(k[3..])
  }

  /** Three bytes are 24 bits, and these are four symbols of six bits, the highest bits first. */
  lemma ThreeBytesMean(k: seq<Byte>)
    requires |k| >= 3
    ensures |Encode(k)| >= 4
    ensures var s := Encode(k);
            var (a, b, c, d) := (ValueOf(s[0]), ValueOf(s[1]), ValueOf(s[2]), ValueOf(s[3]));
            && a.Some? && b.Some? && c.Some? && d.Some?
            && (k[0] as int) * 0x1_0000 + (k[1] as int) * 0x100 + k[2]
                 == a.value * 0x4_0000 + b.value * 0x1000 + c.value * 0x40 + d.value
  {
    SymbolRoundTrip(k[0] / 4);
    SymbolRoundTrip(k[0] % 4 * 16 + k[1] / 16);
    SymbolRoundTrip(k[1] % 16 * 4 + k[2] / 64);
    SymbolRoundTrip(k[2] % 64);
    hide SymbolOf, ValueOf;
  }

  /** The test vectors of section 10 of RFC 4648: "f", "fo", "foo", "foob". */
  lemma TestVectors()
    ensures Encode([0x66]) == "Zg==" && Encode([0x66, 0x6f]) == "Zm8="
    ensures Encode([0x66, 0x6f, 0x6f]) == "Zm9v" && Encode([0x66, 0x6f, 0x6f, 0x62]) == "Zm9vYg=="
  {
    assert [0x66, 0x6f, 0x6f][3..] == [] && [0x66, 0x6f, 0x6f, 0x62][3..] == [0x62];
  }

  /** The decoder skips line ends. */
  function WithoutLineEnds(s: string): string {
    if s == "" then ""
    else if s[0] == '\r' || s[0] == '\n' then WithoutLineEnds(s[1..])
    else [s[0]] + WithoutLineEnds(s[1..])
  }

  /** Four symbols at a time; only the last four may end in one or two pads. Bits under a pad are dropped. */
  function DecodeSymbols(s: string): Option<seq<Byte>> {
    if s == "" then Some([])
    else if |s| < 4 then None
    else
      var (a, b, c, d) := (ValueOf(s[0]), ValueOf(s[1]), ValueOf(s[2]), ValueOf(s[3]));
      if a.None? || b.None? then None
      else if s[2] == '=' && s[3] == '=' && |s| == 4 then Some([a.value * 4 + b.value / 16])
      else if c.None? then None
      else if s[3] == '=' && |s| == 4 then
        Some([a.value * 4 + b.value / 16, b.value % 16 * 16 + c.value / 4])
      else if d.None? then None
      else
        match DecodeSymbols(s[4..])
        case None => None
        case Some(rest) =>
          Some([a.value * 4 + b.value / 16, b.value % 16 * 16 + c.value / 4, c.value % 4 * 64 + d.value] + rest)
  }

  /** The last two of the symbols may be pads. */
  predicate EndsWell(s: string)
    requires |s| >= 2
  {
    var (x, y) := (s[|s| - 2], s[|s| - 1]);
    (x == '=' && y == '=') || (ValueOf(x).Some? && (y == '=' || ValueOf(y).Some?))
  }

  /** What decodes: whole groups of four symbols of the alphabet, of which the last may end in one or two pads. */
  lemma {:induction false} DecodesExactly(s: string)
    ensures DecodeSymbols(s).Some?
       <==> |s| % 4 == 0 && (s == "" || ((forall i :: 0 <= i < |s| - 2 ==> ValueOf(s[i]).Some?) && EndsWell(s)))
    decreases |s|
  {
    hide ValueOf;
    NoPad();
    if |s| > 4 {
      DecodesExactly(s[4..]);
      forall i | 4 <= i < |s| ensures s[i] == s[4..][i - 4] {}
    }
  }

  lemma NoPad()
    ensures ValueOf('=') == None
  {}

  function Zeros(n: nat): seq<Byte> {
    seq(n, _ => 0)
  }

  /** `TrimRight` of zero bytes. */
  function TrimZeros(k: seq<Byte>): seq<Byte> {
    if k != [] && k[|k| - 1] == 0 then TrimZeros(k[..|k| - 1]) else k
  }

  /** `DecodedLen`: the buffer is allocated for the string as it stands. */
  function DecodedLen(s: string): nat {
    |s| / 4 * 3
  }

  /** `DecodePacketKey`: the decoded bytes lie at the front of a zeroed buffer, whose end is then trimmed. */
  function DecodePacketKey(s: string): Option<seq<Byte>> {
    match DecodeSymbols(WithoutLineEnds(s))
    case None => None
    case Some(k) =>
      if |k| <= DecodedLen(s) then Some(TrimZeros(k + Zeros(DecodedLen(s) - |k|))) else None
  }

  lemma {:induction false} EncodedHasNoLineEnds(k: seq<Byte>)
    ensures WithoutLineEnds(Encode(k)) == Encode(k)
    decreases |k|
  {
    var s := Encode(k);
    if |k| >= 3 {
      EncodedHasNoLineEnds(k[3..]);
      assert s[1..][1..][1..][1..] == Encode(k[3..]);
    }
    if |k| >= 1 {
      assert WithoutLineEnds(s) == [s[0], s[1], s[2], s[3]] + WithoutLineEnds(s[1..][1..][1..][1..]) by {
        SymbolsAreNoLineEnds(s);
      }
      assert |k| < 3 ==> s[1..][1..][1..][1..] == "";
    }
  }

  lemma SymbolsAreNoLineEnds(s: string)
    requires |s| >= 4 && forall i :: 0 <= i < 4 ==> s[i] != '\r' && s[i] != '\n'
    ensures WithoutLineEnds(s) == [s[0], s[1], s[2], s[3]] + WithoutLineEnds(s[1..][1..][1..][1..])
  {
    hide WithoutLineEnds;
    KeepSymbol(s);
    KeepSymbol(s[1..]);
    KeepSymbol(s[1..][1..]);
    KeepSymbol(s[1..][1..][1..]);
  }

  lemma KeepSymbol(s: string)
    requires s != "" && s[0] != '\r' && s[0] != '\n'
    ensures WithoutLineEnds(s) == [s[0]] + WithoutLineEnds(s[1..])
  {}

  lemma {:induction false} SymbolsRoundTrip(k: seq<Byte>)
    ensures DecodeSymbols(Encode(k)) == Some(k)
    decreases |k|
  {
    hide DecodeSymbols, SymbolOf;
    if |k| == 0 {
      NothingDecodes();
    } else if |k| == 1 {
      OneByteRoundTrip(k[0]);
      assert k == [k[0]];
    } else if |k| == 2 {
      TwoBytesRoundTrip(k[0], k[1]);
      assert k == [k[0], k[1]];
    } else {
      SymbolsRoundTrip(k[3..]);
      ThreeBytesRoundTrip(k[0], k[1], k[2], Encode(k[3..]), k[3..]);
      assert k == [k[0], k[1], k[2]] + k[3..];
    }
  }

  lemma NothingDecodes()
    ensures DecodeSymbols("") == Some([])
  {}

  lemma {:induction false} EncodedLength(k: seq<Byte>)
    ensures |k| <= DecodedLen(Encode(k)) <= |k| + 2 && |Encode(k)| % 4 == 0
    decreases |k|
  {
    if |k| >= 3 {
      EncodedLength(k[3..]);
      assert |Encode(k)| == 4 + |Encode(k[3..])|;
    }
  }

  lemma OneByteRoundTrip(a: Byte)
    ensures DecodeSymbols(Encode([a])) == Some([a])
  {
    SymbolRoundTrip(a / 4);
    SymbolRoundTrip(a % 4 * 16);
    hide SymbolOf, ValueOf;
    PairRoundTrip(a, 0);
  }

  lemma TwoBytesRoundTrip(a: Byte, b: Byte)
    ensures DecodeSymbols(Encode([a, b])) == Some([a, b])
  {
    PairRoundTrip(a, b);
    SymbolRoundTrip(a / 4);
    SymbolRoundTrip(a % 4 * 16 + b / 16);
    SymbolRoundTrip(b % 16 * 4);
    hide SymbolOf, ValueOf;
  }

  lemma ThreeBytesRoundTrip(a: Byte, b: Byte, c: Byte, more: string, rest: seq<Byte>)
    requires DecodeSymbols(more) == Some(rest)
    ensures 0 <= a % 4 * 16 + b / 16 < 64 && 0 <= b % 16 * 4 + c / 64 < 64
    ensures DecodeSymbols([SymbolOf(a / 4), SymbolOf(a % 4 * 16 + b / 16),
                           SymbolOf(b % 16 * 4 + c / 64), SymbolOf(c % 64)] + more) == Some([a, b, c] + rest)
  {
    PairRoundTrip(a, b);
    LastRoundTrip(b, c);
    var (p, q, r, t) := (a / 4, a % 4 * 16 + b / 16, b % 16 * 4 + c / 64, c % 64);
    ThreeBytesOf(a, b, c);
    hide DecodeSymbols;
    DecodeFour(p, q, r, t, more, rest);
  }

  lemma ThreeBytesOf(a: Byte, b: Byte, c: Byte)
    ensures var (p, q, r, t) := (a / 4, a % 4 * 16 + b / 16, b % 16 * 4 + c / 64, c % 64);
            p * 4 + q / 16 == a && q % 16 * 16 + r / 4 == b && r % 4 * 64 + t == c
  {}

  lemma DecodeFour(p: int, q: int, r: int, t: int, more: string, rest: seq<Byte>)
    requires 0 <= p < 64 && 0 <= q < 64 && 0 <= r < 64 && 0 <= t < 64 && DecodeSymbols(more) == Some(rest)
    ensures DecodeSymbols([SymbolOf(p), SymbolOf(q), SymbolOf(r), SymbolOf(t)] + more)
         == Some([p * 4 + q / 16, q % 16 * 16 + r / 4, r % 4 * 64 + t] + rest)
  {
    SymbolRoundTrip(p);
    SymbolRoundTrip(q);
    SymbolRoundTrip(r);
    SymbolRoundTrip(t);
    hide SymbolOf, ValueOf;
    var s := [SymbolOf(p), SymbolOf(q), SymbolOf(r), SymbolOf(t)] + more;
    assert s[4..] == more;
  }

  lemma PairRoundTrip(a: Byte, b: Byte)
    ensures a / 4 * 4 + (a % 4 * 16 + b / 16) / 16 == a
    ensures (a % 4 * 16 + b / 16) % 16 * 16 + (b % 16 * 4) / 4 == b
    ensures 0 <= a % 4 * 16 + b / 16 < 64
  {}

  lemma LastRoundTrip(b: Byte, c: Byte)
    ensures (b % 16 * 4 + c / 64) / 4 == b % 16
    ensures (b % 16 * 4 + c / 64) % 4 * 64 + c % 64 == c
    ensures 0 <= b % 16 * 4 + c / 64 < 64
  {}

  lemma {:induction false} TrimAppended(k: seq<Byte>, n: nat)
    ensures TrimZeros(k + Zeros(n)) == TrimZeros(k)
  {
    if n == 0 {
      assert k + Zeros(0) == k;
    } else {
      assert (k + Zeros(n))[..|k| + n - 1] == k + Zeros(n - 1);
      TrimAppended(k, n - 1);
    }
  }

  lemma {:induction false} TrimIsPrefix(k: seq<Byte>)
    ensures |TrimZeros(k)| <= |k| && TrimZeros(k) == k[..|TrimZeros(k)|]
    ensures forall i :: |TrimZeros(k)| <= i < |k| ==> k[i] == 0
    ensures TrimZeros(k) != [] ==> TrimZeros(k)[|TrimZeros(k)| - 1] != 0
  {
    if k != [] && k[|k| - 1] == 0 {
      TrimIsPrefix(k[..|k| - 1]);
    }
  }

  /** Decoding the encoded key strips its trailing zero bytes and nothing else, so the key comes back
      exactly when it does not end in a zero byte. The buffer has at most two bytes too many. */
  lemma {:induction false} PacketKeyRoundTrip(k: seq<Byte>)
    ensures DecodePacketKey(Encode(k)) == Some(TrimZeros(k))
    ensures DecodePacketKey(Encode(k)) == Some(k) <==> (k == [] || k[|k| - 1] != 0)
    ensures |k| <= DecodedLen(Encode(k)) <= |k| + 2
  {
    hide Encode, DecodeSymbols, WithoutLineEnds, DecodedLen;
    EncodedLength(k);
    EncodedHasNoLineEnds(k);
    SymbolsRoundTrip(k);
    TrimAppended(k, DecodedLen(Encode(k)) - |k|);
    TrimIsPrefix(k);
  }

  /** Line ends inside the string make the buffer larger, never too small, and change nothing. */
  lemma {:induction false} LineEndsAreHarmless(s: string)
    ensures DecodePacketKey(s).Some? <==> DecodeSymbols(WithoutLineEnds(s)).Some?
    ensures DecodePacketKey(s).Some? ==>
              DecodePacketKey(s).value == TrimZeros(DecodeSymbols(WithoutLineEnds(s)).value)
  {
    hide DecodeSymbols, WithoutLineEnds, TrimZeros;
    var clean := WithoutLineEnds(s);
    if DecodeSymbols(clean).Some? {
      LineEndsShorten(s);
      DecodedFits(clean);
      DividesMonotone(|clean|, |s|);
      TrimAppended(DecodeSymbols(clean).value, DecodedLen(s) - |DecodeSymbols(clean).value|);
    }
  }

  lemma DividesMonotone(a: nat, b: nat)
    requires a <= b
    ensures a / 4 * 3 <= b / 4 * 3
  {}

  lemma {:induction false} LineEndsShorten(s: string)
    ensures |WithoutLineEnds(s)| <= |s|
  {
    if s != "" {
      LineEndsShorten(s[1..]);
    }
  }

  lemma {:induction false} DecodedFits(s: string)
    requires DecodeSymbols(s).Some?
    ensures |DecodeSymbols(s).value| <= DecodedLen(s)
  {
    if |s| > 4 {
      DecodedFits(s[4..]);
    }
  }

  // ---------------------------------------------------------------- the finalize message

  /** `ValidateBasic`: the sender's address parses (a parameter here), and the key is there and decodes. */
  predicate ValidateBasic(senderParses: bool, packetKey: string) {
    senderParses && packetKey != "" && DecodePacketKey(packetKey).Some?
  }

  /** The message the finalizer builds from a tracking key is valid exactly when the sender is and the
      key is not empty. */
  lemma {:induction false} FinalizeMessageIsValid(senderParses: bool, k: seq<Byte>)
    ensures ValidateBasic(senderParses, Encode(k)) <==> senderParses && k != []
  {
    hide DecodePacketKey;
    PacketKeyRoundTrip(k);
    assert Encode(k) == "" <==> k == [];
  }
}
