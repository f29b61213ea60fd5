/** Skipping one field of an unknown number. The loop counts how deep it is in groups, and never compares
    the numbers on a group's two tags. So what it accepts is a looser grammar than that of the Protocol
    Buffers encoding specification (sections "Message Structure" and "Groups"); both are given here. */
module Skipper {
  import opened Varint

  // ---------------------------------------------------------------- the loop

  /** The end of one turn: a negative index is an error, and at depth zero the field is over. An index
      past the end of the data is noticed by the next turn, or by the caller. */
  function Turn(data: seq<Byte>, at: nat, i: nat, depth: nat): (r: Result<nat>)
    requires at < i && at < |data|
    ensures r.Ok? ==> at < r.value
    decreases |data| - at, 0
  {
    if i >= TWO_63 then Err(InvalidLength)
    else if depth == 0 then Ok(i)
    else SkipAt(data, i, depth)
  }

  /** `skipAuthz` and `skipDemandOrder` from one turn on. */
  function SkipAt(data: seq<Byte>, i: nat, depth: nat): (r: Result<nat>)
    ensures r.Ok? ==> i < r.value
    decreases |data| - i, 1
  {
    if i >= |data| then Err(UnexpectedEof)
    else
      match ReadAt(data, i)
      case Err(e) => Err(e)
      case Ok((wire, j)) =>
        match wire % 8
        case 0 =>
          (match ReadAt(data, j)
           case Err(e) => Err(e)
           case Ok((_, k)) => Turn(data, i, k, depth))
        case 1 => Turn(data, i, j + 8, depth)
        case 2 =>
          (match ReadAt(data, j)
           case Err(e) => Err(e)
           case Ok((length, k)) =>
             if length >= TWO_63 then Err(InvalidLength) else Turn(data, i, k + length, depth))
        case 3 => Turn(data, i, j, depth + 1)
        case 4 => if depth == 0 then Err(UnexpectedEndOfGroup) else Turn(data, i, j, depth - 1)
        case 5 => Turn(data, i, j + 4, depth)
        case _ => Err(IllegalWireType)
  }

  function Skip(data: seq<Byte>): (r: Result<nat>)
    ensures r.Ok? ==> r.value > 0
  {
    SkipAt(data, 0, 0)
  }

  /** The source's loop. */
  method SkipField(data: seq<Byte>) returns (r: Result<nat>)
    ensures r == Skip(data)
  {
    hide ReadAt;
    var i: nat, depth: nat := 0, 0;
    while i < |data|
      invariant SkipAt(data, 0, 0) == SkipAt(data, i, depth)
      decreases |data| - i
    {
      var tag := Read(data, i);
      if tag.Err? {
        return Err(tag.error);
      }
      var (wire, j) := tag.value;
      var next: nat := j;
      match wire % 8 {
        case 0 =>
          var v := Read(data, j);
          if v.Err? {
            return Err(v.error);
          }
          next := v.value.1;
        case 1 => next := j + 8;
        case 2 =>
          var n := Read(data, j);
          if n.Err? {
            return Err(n.error);
          }
          if n.value.0 >= TWO_63 {
            return Err(InvalidLength);
          }
          next := n.value.1 + n.value.0;
        case 3 => depth := depth + 1;
        case 4 =>
          if depth == 0 {
            return Err(UnexpectedEndOfGroup);
          }
          depth := depth - 1;
        case 5 => next := j + 4;
        case _ => return Err(IllegalWireType);
      }
      if next >= TWO_63 {
        return Err(InvalidLength);
      }
      if depth == 0 {
        return Ok(next);
      }
      i := next;
    }
    return Err(UnexpectedEof);
  }

  // ---------------------------------------------------------------- the grammar

  /** One field as it stands on the wire. Tags, values and lengths are any varints of at most ten
      groups, shortest or not. */
  datatype Field =
    | VarintField(tag: seq<Byte>, value: seq<Byte>)
    | Fixed64(tag: seq<Byte>, bytes: seq<Byte>)
    | Delimited(tag: seq<Byte>, length: seq<Byte>, content: seq<Byte>)
    | Group(tag: seq<Byte>, inner: Fields, end: seq<Byte>)
    | Fixed32(tag: seq<Byte>, bytes: seq<Byte>)

  datatype Fields = None | More(first: Field, rest: Fields)

  predicate IsVarint(bs: seq<Byte>) {
    ReadAt(bs, 0).Ok? && ReadAt(bs, 0).value.1 == |bs|
  }

  function ValueOf(bs: seq<Byte>): nat
    requires IsVarint(bs)
  {
    ReadAt(bs, 0).value.0
  }

  predicate IsTag(bs: seq<Byte>, wireType: nat) {
    IsVarint(bs) && ValueOf(bs) % 8 == wireType
  }

  /** Every start of a group has an end, whatever the numbers on them. */
  predicate Bracketed(f: Field) {
    match f
    case VarintField(tag, value) => IsTag(tag, 0) && IsVarint(value)
    case Fixed64(tag, bytes) => IsTag(tag, 1) && |bytes| == 8
    case Delimited(tag, length, content) => IsTag(tag, 2) && IsVarint(length) && ValueOf(length) == |content|
    case Group(tag, inner, end) => IsTag(tag, 3) && AllBracketed(inner) && IsTag(end, 4)
    case Fixed32(tag, bytes) => IsTag(tag, 5) && |bytes| == 4
  }

  predicate AllBracketed(fs: Fields) {
    fs.More? ==> Bracketed(fs.first) && AllBracketed(fs.rest)
  }

  function Wire(f: Field): seq<Byte> {
    match f
    case VarintField(tag, value) => tag + value
    case Fixed64(tag, bytes) => tag + bytes
    case Delimited(tag, length, content) => tag + length + content
    case Group(tag, inner, end) => tag + WireAll(inner) + end
    case Fixed32(tag, bytes) => tag + bytes
  }

  function WireAll(fs: Fields): seq<Byte> {
    if fs.None? then [] else Wire(fs.first) + WireAll(fs.rest)
  }

  /** `part` stands in `data` at `i`. */
  predicate StandsAt(data: seq<Byte>, i: nat, part: seq<Byte>) {
    i + |part| <= |data| && data[i..i + |part|] == part
  }

  lemma StandsInTwo(data: seq<Byte>, i: nat, a: seq<Byte>, b: seq<Byte>)
    ensures StandsAt(data, i, a + b) <==> StandsAt(data, i, a) && StandsAt(data, i + |a|, b)
  {
    if i + |a| + |b| <= |data| {
      assert data[i..i + |a| + |b|] == data[i..i + |a|] + data[i + |a|..i + |a| + |b|];
      assert (a + b)[..|a|] == a && (a + b)[|a|..] == b;
    }
  }

  lemma {:induction false} VarintStands(data: seq<Byte>, i: nat, bs: seq<Byte>)
    requires IsVarint(bs) && StandsAt(data, i, bs)
    ensures ReadAt(data, i) == Ok((ValueOf(bs), i + |bs|)) && |bs| > 0
  {
    ReadLocal(bs, 0, data, i);
  }

  lemma SkipsVarint(data: seq<Byte>, i: nat, depth: nat, tag: seq<Byte>, value: seq<Byte>)
    requires IsTag(tag, 0) && IsVarint(value) && StandsAt(data, i, tag + value)
    ensures i < |data| && SkipAt(data, i, depth) == Turn(data, i, i + |tag + value|, depth)
  {
    hide SkipAt, ReadAt, Turn;
    StandsInTwo(data, i, tag, value);
    VarintStands(data, i, tag);
    VarintStands(data, i + |tag|, value);
    VarintTurn(data, i, depth, i + |tag|);
  }

  lemma VarintTurn(data: seq<Byte>, i: nat, depth: nat, j: nat)
    requires i < |data| && ReadAt(data, i).Ok? && ReadAt(data, i).value.0 % 8 == 0 && ReadAt(data, i).value.1 == j
    requires ReadAt(data, j).Ok?
    ensures SkipAt(data, i, depth) == Turn(data, i, ReadAt(data, j).value.1, depth)
  {
    hide ReadAt, Turn;
  }

  lemma SkipsFixed(data: seq<Byte>, i: nat, depth: nat, tag: seq<Byte>, bytes: seq<Byte>)
    requires StandsAt(data, i, tag + bytes)
    requires (IsTag(tag, 1) && |bytes| == 8) || (IsTag(tag, 5) && |bytes| == 4)
    ensures i < |data| && SkipAt(data, i, depth) == Turn(data, i, i + |tag + bytes|, depth)
  {
    StandsInTwo(data, i, tag, bytes);
    VarintStands(data, i, tag);
  }

  lemma SkipsDelimited(data: seq<Byte>, i: nat, depth: nat, tag: seq<Byte>, length: seq<Byte>, content: seq<Byte>)
    requires IsTag(tag, 2) && IsVarint(length) && ValueOf(length) == |content| && |data| < TWO_63
    requires StandsAt(data, i, tag + length + content)
    ensures i < |data| && SkipAt(data, i, depth) == Turn(data, i, i + |tag + length + content|, depth)
  {
    hide SkipAt, ReadAt, Turn;
    StandsInTwo(data, i, tag + length, content);
    StandsInTwo(data, i, tag, length);
    VarintStands(data, i, tag);
    VarintStands(data, i + |tag|, length);
    DelimitedTurn(data, i, depth, i + |tag|, i + |tag| + |length|);
  }

  lemma DelimitedTurn(data: seq<Byte>, i: nat, depth: nat, j: nat, k: nat)
    requires i < |data| && ReadAt(data, i).Ok? && ReadAt(data, i).value.0 % 8 == 2 && ReadAt(data, i).value.1 == j
    requires ReadAt(data, j).Ok? && ReadAt(data, j).value.1 == k && ReadAt(data, j).value.0 < TWO_63
    ensures SkipAt(data, i, depth) == Turn(data, i, k + ReadAt(data, j).value.0, depth)
  {
    hide ReadAt, Turn;
  }

  lemma SkipsGroupTag(data: seq<Byte>, i: nat, depth: nat, tag: seq<Byte>)
    requires StandsAt(data, i, tag) && |data| < TWO_63
    requires IsTag(tag, 3) || (IsTag(tag, 4) && depth >= 1)
    ensures i < |data| && |tag| > 0
    ensures SkipAt(data, i, depth)
         == if IsTag(tag, 3) then SkipAt(data, i + |tag|, depth + 1) else Turn(data, i, i + |tag|, depth - 1)
  {
    VarintStands(data, i, tag);
  }

  /** A bracketed field takes the loop to its end, at the depth it started. */
  lemma {:induction false} SkipsField(data: seq<Byte>, i: nat, depth: nat, f: Field)
    requires Bracketed(f) && StandsAt(data, i, Wire(f)) && |data| < TWO_63
    ensures i < |data| && |Wire(f)| > 0 && SkipAt(data, i, depth) == Turn(data, i, i + |Wire(f)|, depth)
    decreases f
  {
    hide SkipAt, Turn, IsTag, IsVarint, StandsAt, ValueOf;
    match f
    case VarintField(tag, value) => SkipsVarint(data, i, depth, tag, value); TagsAreLong(tag);
    case Fixed64(tag, bytes) => SkipsFixed(data, i, depth, tag, bytes);
    case Delimited(tag, length, content) =>
      SkipsDelimited(data, i, depth, tag, length, content);
      TagsAreLong(tag);
    case Group(tag, inner, end) =>
      var (a, b) := (i + |tag|, i + |tag| + |WireAll(inner)|);
      StandsInTwo(data, i, tag + WireAll(inner), end);
      StandsInTwo(data, i, tag, WireAll(inner));
      SkipsGroupTag(data, i, depth, tag);
      NotBothTags(end);
      SkipsFields(data, a, depth + 1, inner);
      SkipsGroupTag(data, b, depth + 1, end);
      SameTurn(data, i, b, b + |end|, depth);
    case Fixed32(tag, bytes) => SkipsFixed(data, i, depth, tag, bytes);
  }

  lemma TagsAreLong(tag: seq<Byte>)
    ensures IsVarint(tag) ==> |tag| > 0
    ensures IsTag(tag, 0) || IsTag(tag, 2) ==> |tag| > 0
  {}

  lemma NotBothTags(tag: seq<Byte>)
    ensures !(IsTag(tag, 3) && IsTag(tag, 4))
  {}

  lemma SameTurn(data: seq<Byte>, a: nat, b: nat, i: nat, depth: nat)
    requires a < i && b < i && a < |data| && b < |data|
    ensures Turn(data, a, i, depth) == Turn(data, b, i, depth)
  {}

  lemma {:induction false} SkipsFields(data: seq<Byte>, i: nat, depth: nat, fs: Fields)
    requires AllBracketed(fs) && StandsAt(data, i, WireAll(fs)) && |data| < TWO_63 && depth >= 1
    ensures SkipAt(data, i, depth) == SkipAt(data, i + |WireAll(fs)|, depth)
    decreases fs
  {
    hide SkipAt, Turn, Bracketed, Wire, StandsAt;
    if fs.More? {
      StandsInTwo(data, i, Wire(fs.first), WireAll(fs.rest));
      SkipsField(data, i, depth, fs.first);
      TurnGoesOn(data, i, i + |Wire(fs.first)|, depth);
      Inside(data, i + |Wire(fs.first)|, WireAll(fs.rest));
      SkipsFields(data, i + |Wire(fs.first)|, depth, fs.rest);
    }
  }

  lemma TurnGoesOn(data: seq<Byte>, at: nat, i: nat, depth: nat)
    requires at < i && at < |data| && depth >= 1
    ensures i < TWO_63 ==> Turn(data, at, i, depth) == SkipAt(data, i, depth)
  {}

  lemma Inside(data: seq<Byte>, i: nat, part: seq<Byte>)
    requires StandsAt(data, i, part)
    ensures i + |part| <= |data|
  {}

  // ---------------------------------------------------------------- what the loop accepts

  /** The rest of one group that is open: more fields and its end tag. */
  datatype Level = Level(inner: Fields, end: seq<Byte>)

  predicate LevelsBracketed(ls: seq<Level>) {
    forall k :: 0 <= k < |ls| ==> AllBracketed(ls[k].inner) && IsTag(ls[k].end, 4)
  }

  /** The innermost group first. */
  function WireLevels(ls: seq<Level>): seq<Byte> {
    if ls == [] then [] else WireAll(ls[0].inner) + ls[0].end + WireLevels(ls[1..])
  }

  /** One more field in front of the innermost group. */
  function Prepend(f: Field, ls: seq<Level>): seq<Level>
    requires ls != []
  {
    [Level(More(f, ls[0].inner), ls[0].end)] + ls[1..]
  }

  lemma PrependWire(f: Field, ls: seq<Level>)
    requires ls != [] && Bracketed(f) && LevelsBracketed(ls)
    ensures LevelsBracketed(Prepend(f, ls)) && WireLevels(Prepend(f, ls)) == Wire(f) + WireLevels(ls)
  {
    hide Bracketed, IsTag, Wire;
    assert Prepend(f, ls)[1..] == ls[1..];
    assert WireAll(More(f, ls[0].inner)) == Wire(f) + WireAll(ls[0].inner);
  }

  /** A varint read in place is a varint. */
  lemma {:induction false} ReadIsVarint(data: seq<Byte>, i: nat)
    requires ReadAt(data, i).Ok?
    ensures var (v, j) := ReadAt(data, i).value; IsVarint(data[i..j]) && ValueOf(data[i..j]) == v
  {
    var j := ReadAt(data, i).value.1;
    ReadLocal(data, i, data[i..j], 0);
  }

  /** What one turn consumed when the next index is `k`: a field that is no group, or a group tag. */
  datatype Piece = Whole(f: Field) | Opens(tag: seq<Byte>) | Closes(tag: seq<Byte>)

  predicate PieceOk(p: Piece) {
    match p
    case Whole(f) => Bracketed(f)
    case Opens(tag) => IsTag(tag, 3)
    case Closes(tag) => IsTag(tag, 4)
  }

  function PieceWire(p: Piece): seq<Byte> {
    match p case Whole(f) => Wire(f) case Opens(tag) => tag case Closes(tag) => tag
  }

  function DepthAfter(p: Piece, depth: nat): int {
    match p case Whole(_) => depth case Opens(_) => depth + 1 case Closes(_) => depth - 1
  }

  /** One turn of a loop that ends well, taken apart. */
  lemma {:induction false} TakeTurn(data: seq<Byte>, i: nat, depth: nat) returns (p: Piece, k: nat)
    requires SkipAt(data, i, depth).Ok?
    ensures i < |data| && i < k && PieceOk(p) && DepthAfter(p, depth) >= 0
    ensures ReadAt(data, i).Ok? && ReadAt(data, i).value.1 <= k
    ensures SkipAt(data, i, depth) == Turn(data, i, k, DepthAfter(p, depth))
    ensures k <= |data| ==> PieceWire(p) == data[i..k]
  {
    hide IsVarint, Turn, ReadAt, ValueOf, IsTag, Bracketed, Wire;
    var (wire, j) := ReadAt(data, i).value;
    match wire % 8
    case 0 =>
      k := ReadAt(data, j).value.1;
      p := VarintPiece(data, i, j);
    case 1 =>
      k := j + 8;
      p := FixedPiece(data, i, j, k);
    case 2 =>
      k := ReadAt(data, j).value.1 + ReadAt(data, j).value.0;
      p := DelimitedPiece(data, i, j);
    case 3 =>
      TagAt(data, i);
      p, k := Opens(data[i..j]), j;
    case 4 =>
      TagAt(data, i);
      p, k := Closes(data[i..j]), j;
    case 5 =>
      k := j + 4;
      p := FixedPiece(data, i, j, k);
  }

  lemma TagAt(data: seq<Byte>, i: nat)
    requires ReadAt(data, i).Ok?
    ensures var (wire, j) := ReadAt(data, i).value; IsTag(data[i..j], wire % 8)
  {
    ReadIsVarint(data, i);
  }

  lemma VarintPiece(data: seq<Byte>, i: nat, j: nat) returns (p: Piece)
    requires ReadAt(data, i).Ok? && ReadAt(data, i).value.1 == j && ReadAt(data, i).value.0 % 8 == 0
    requires ReadAt(data, j).Ok?
    ensures p.Whole? && PieceOk(p) && PieceWire(p) == data[i..ReadAt(data, j).value.1]
  {
    TagAt(data, i);
    ReadIsVarint(data, j);
    p := Whole(VarintField(data[i..j], data[j..ReadAt(data, j).value.1]));
  }

  lemma DelimitedPiece(data: seq<Byte>, i: nat, j: nat) returns (p: Piece)
    requires ReadAt(data, i).Ok? && ReadAt(data, i).value.1 == j && ReadAt(data, i).value.0 % 8 == 2
    requires ReadAt(data, j).Ok?
    ensures p.Whole? && PieceOk(p)
    ensures var (length, c) := ReadAt(data, j).value; c + length <= |data| ==> PieceWire(p) == data[i..c + length]
  {
    hide ReadAt, IsTag, IsVarint, ValueOf;
    var (length, c) := ReadAt(data, j).value;
    TagAt(data, i);
    ReadIsVarint(data, j);
    var content := if c + length <= |data| then data[c..c + length] else seq(length, _ => 0);
    p := Whole(Delimited(data[i..j], data[j..c], content));
    if c + length <= |data| {
      ThreeParts(data, i, j, c, c + length);
    }
  }

  lemma ThreeParts(data: seq<Byte>, i: nat, j: nat, k: nat, n: nat)
    requires i <= j <= k <= n <= |data|
    ensures data[i..j] + data[j..k] + data[k..n] == data[i..n]
  {}

  lemma FixedPiece(data: seq<Byte>, i: nat, j: nat, k: nat) returns (p: Piece)
    requires ReadAt(data, i).Ok? && ReadAt(data, i).value.1 == j
    requires (ReadAt(data, i).value.0 % 8 == 1 && k == j + 8) || (ReadAt(data, i).value.0 % 8 == 5 && k == j + 4)
    ensures p.Whole? && PieceOk(p) && (k <= |data| ==> PieceWire(p) == data[i..k])
  {
    TagAt(data, i);
    hide ReadAt, IsTag;
    var bytes := if k <= |data| then data[j..k] else seq(k - j, _ => 0);
    p := Whole(if k == j + 8 then Fixed64(data[i..j], bytes) else Fixed32(data[i..j], bytes));
  }

  /** From inside `depth` groups, a loop that ends inside the data passed bracketed fields and closed
      the groups one by one. */
  lemma {:induction false} LoopIsGrammar(data: seq<Byte>, i: nat, depth: nat) returns (ls: seq<Level>)
    requires depth >= 1 && SkipAt(data, i, depth).Ok? && SkipAt(data, i, depth).value <= |data|
    ensures |ls| == depth && LevelsBracketed(ls) && i <= SkipAt(data, i, depth).value
    ensures WireLevels(ls) == data[i..SkipAt(data, i, depth).value]
    decreases |data| - i
  {
    hide SkipAt, Turn, IsTag, Bracketed, Wire;
    var p, k := TakeTurn(data, i, depth);
    var d: nat := DepthAfter(p, depth);
    var n := SkipAt(data, i, depth).value;
    TurnEnds(data, i, k, d);
    var more: seq<Level> := [];
    if d > 0 {
      more := LoopIsGrammar(data, k, d);
    }
    assert data[i..n] == data[i..k] + data[k..n];
    match p
    case Whole(f) =>
      ls := Prepend(f, more);
      PrependWire(f, more);
    case Closes(tag) =>
      ls := [Level(None, tag)] + more;
      ClosesWire(tag, more);
    case Opens(tag) =>
      var g := Group(tag, more[0].inner, more[0].end);
      GroupWire(tag, more);
      ls := Prepend(g, more[1..]);
      PrependWire(g, more[1..]);
  }

  lemma TurnEnds(data: seq<Byte>, i: nat, k: nat, d: nat)
    requires i < k && i < |data| && Turn(data, i, k, d).Ok? && Turn(data, i, k, d).value <= |data|
    ensures k <= Turn(data, i, k, d).value
    ensures d == 0 ==> Turn(data, i, k, d).value == k
    ensures d > 0 ==> Turn(data, i, k, d) == SkipAt(data, k, d)
  {}

  lemma ClosesWire(tag: seq<Byte>, more: seq<Level>)
    requires IsTag(tag, 4) && LevelsBracketed(more)
    ensures var ls := [Level(None, tag)] + more; LevelsBracketed(ls) && WireLevels(ls) == tag + WireLevels(more)
  {
    assert ([Level(None, tag)] + more)[1..] == more;
  }

  lemma GroupWire(tag: seq<Byte>, more: seq<Level>)
    requires IsTag(tag, 3) && LevelsBracketed(more) && more != []
    ensures var g := Group(tag, more[0].inner, more[0].end);
            Bracketed(g) && tag + WireLevels(more) == Wire(g) + WireLevels(more[1..])
  {
    hide IsTag, WireAll;
    var (inner, end, rest) := (WireAll(more[0].inner), more[0].end, WireLevels(more[1..]));
    assert tag + (inner + end + rest) == (tag + inner + end) + rest;
  }

  /** The skipper consumes `n` bytes exactly when the first `n` bytes are one bracketed field. */
  lemma {:induction false} SkipIsGrammar(data: seq<Byte>, n: nat)
    requires n <= |data| < TWO_63
    ensures Skip(data) == Ok(n) <==> exists f :: Bracketed(f) && Wire(f) == data[..n]
  {
    hide SkipAt, Turn, IsTag, Bracketed, Wire;
    if Skip(data) == Ok(n) {
      var p, k := TakeTurn(data, 0, 0);
      var d: nat := DepthAfter(p, 0);
      TurnEnds(data, 0, k, d);
      if p.Whole? {
        assert Wire(p.f) == data[..n];
      } else if p.Opens? {
        var more := LoopIsGrammar(data, k, d);
        GroupWire(p.tag, more);
        var g := Group(p.tag, more[0].inner, more[0].end);
        assert data[..n] == data[..k] + data[k..n];
        assert Bracketed(g) && Wire(g) == data[..n];
      }
    }
    if f :| Bracketed(f) && Wire(f) == data[..n] {
      assert data[0..n] == data[..n];
      SkipsField(data, 0, 0, f);
      TurnStops(data, 0, n);
    }
  }

  lemma TurnStops(data: seq<Byte>, at: nat, i: nat)
    requires at < i && at < |data| && i < TWO_63
    ensures Turn(data, at, i, 0) == Ok(i)
  {}

  /** The wire types by their numbers: a varint is 0, eight bytes 1, a length with its bytes 2, the two ends
      of a group 3 and 4, four bytes 5; 6 and 7 are none. Field number 15 in each case. */
  lemma {:induction false} WireTypes(v: nat, eight: seq<Byte>, bs: seq<Byte>, four: seq<Byte>)
    requires v < TWO_64 && |eight| == 8 && |four| == 4 && |[0x7a] + Encode(|bs|) + bs| < TWO_63
    ensures Skip([0x78] + Encode(v)) == Ok(1 + |Encode(v)|)
    ensures Skip([0x79] + eight) == Ok(9)
    ensures Skip([0x7a] + Encode(|bs|) + bs) == Ok(|[0x7a] + Encode(|bs|) + bs|)
    ensures Skip([0x7b, 0x7c]) == Ok(2) && Skip([0x7c]) == Err(UnexpectedEndOfGroup)
    ensures Skip([0x7d] + four) == Ok(5)
    ensures Skip([0x7e]) == Err(IllegalWireType) && Skip([0x7f]) == Err(IllegalWireType)
  {
    EncodeIsVarint(v);
    EncodeIsVarint(|bs|);
    OneByteTag(0x78);
    OneByteTag(0x79);
    OneByteTag(0x7a);
    OneByteTag(0x7b);
    OneByteTag(0x7c);
    OneByteTag(0x7d);
    AtMostTenGroups(v);
    SkipsAll(VarintField([0x78], Encode(v)));
    SkipsAll(Fixed64([0x79], eight));
    SkipsAll(Delimited([0x7a], Encode(|bs|), bs));
    SkipsAll(Fixed32([0x7d], four));
    SkipsAll(Group([0x7b], None, [0x7c]));
    assert [0x7b] + [] + [0x7c] == [0x7b, 0x7c];
    hide IsTag, Skip, Encode;
    BadTypes();
  }

  lemma {:induction false} EncodeIsVarint(v: nat)
    requires v < TWO_64
    ensures IsVarint(Encode(v)) && ValueOf(Encode(v)) == v
  {
    VarintRoundTrip([], v, []);
    assert [] + Encode(v) + [] == Encode(v);
  }

  lemma SkipsAll(f: Field)
    requires Bracketed(f) && |Wire(f)| < TWO_63
    ensures Skip(Wire(f)) == Ok(|Wire(f)|)
  {
    assert Wire(f)[..|Wire(f)|] == Wire(f);
    SkipIsGrammar(Wire(f), |Wire(f)|);
    hide Skip, Bracketed;
  }

  lemma BadTypes()
    ensures Skip([0x7c]) == Err(UnexpectedEndOfGroup)
    ensures Skip([0x7e]) == Err(IllegalWireType) && Skip([0x7f]) == Err(IllegalWireType)
  {
    assert ReadAt([0x7c], 0) == Ok((0x7c, 1));
    assert ReadAt([0x7e], 0) == Ok((0x7e, 1)) && ReadAt([0x7f], 0) == Ok((0x7f, 1));
  }

  lemma OneByteTag(b: Byte)
    requires b < 128
    ensures IsTag([b], b % 8) && ValueOf([b]) == b
  {}

  // ---------------------------------------------------------------- the specification's grammar

  const LARGEST_NUMBER: nat := 0x1fff_ffff

  function NumberOf(tag: seq<Byte>): nat
    requires IsVarint(tag)
  {
    ValueOf(tag) / 8
  }

  predicate LegalNumber(tag: seq<Byte>)
    requires IsVarint(tag)
  {
    1 <= NumberOf(tag) <= LARGEST_NUMBER
  }

  /** All numbers, those of nested fields included, are in the range the specification allows. */
  predicate LegalNumbers(f: Field)
    requires Bracketed(f)
  {
    LegalNumber(f.tag) && (f.Group? ==> AllLegal(f.inner) && LegalNumber(f.end))
  }

  predicate AllLegal(fs: Fields)
    requires AllBracketed(fs)
  {
    fs.More? ==> LegalNumbers(fs.first) && AllLegal(fs.rest)
  }

  /** Every group, nested ones included, ends with the number it started with. */
  predicate MatchedGroups(f: Field)
    requires Bracketed(f)
  {
    f.Group? ==> NumberOf(f.tag) == NumberOf(f.end) && AllMatched(f.inner)
  }

  predicate AllMatched(fs: Fields)
    requires AllBracketed(fs)
  {
    fs.More? ==> MatchedGroups(fs.first) && AllMatched(fs.rest)
  }

  /** A field of the specification. */
  predicate Standard(f: Field) {
    Bracketed(f) && LegalNumbers(f) && MatchedGroups(f)
  }

  lemma SameVarint(data: seq<Byte>, i: nat, a: seq<Byte>, b: seq<Byte>)
    requires IsVarint(a) && IsVarint(b) && StandsAt(data, i, a) && StandsAt(data, i, b)
    ensures a == b
  {
    hide ReadAt;
    VarintStands(data, i, a);
    VarintStands(data, i, b);
  }

  lemma TagStands(data: seq<Byte>, i: nat, f: Field)
    requires Bracketed(f) && StandsAt(data, i, Wire(f))
    ensures IsVarint(f.tag) && ValueOf(f.tag) % 8 != 4 && StandsAt(data, i, f.tag)
  {
    hide IsVarint, StandsAt, ValueOf;
    match f
    case VarintField(tag, value) => StandsInTwo(data, i, tag, value);
    case Fixed64(tag, bytes) => StandsInTwo(data, i, tag, bytes);
    case Delimited(tag, length, content) =>
      StandsInTwo(data, i, tag + length, content);
      StandsInTwo(data, i, tag, length);
    case Group(tag, inner, end) =>
      StandsInTwo(data, i, tag + WireAll(inner), end);
      StandsInTwo(data, i, tag, WireAll(inner));
    case Fixed32(tag, bytes) => StandsInTwo(data, i, tag, bytes);
  }

  lemma SameContent(data: seq<Byte>, i: nat, a: seq<Byte>, b: seq<Byte>)
    requires |a| == |b| && StandsAt(data, i, a) && StandsAt(data, i, b)
    ensures a == b
  {}

  /** The bytes determine the field: nothing can be read in two ways. */
  lemma {:induction false} FieldIsUnique(data: seq<Byte>, i: nat, f: Field, g: Field)
    requires Bracketed(f) && Bracketed(g) && StandsAt(data, i, Wire(f)) && StandsAt(data, i, Wire(g))
    ensures f == g
    decreases f
  {
    hide IsVarint, StandsAt, ValueOf;
    TagStands(data, i, f);
    TagStands(data, i, g);
    SameVarint(data, i, f.tag, g.tag);
    var tag := f.tag;
    match f
    case VarintField(_, value) =>
      StandsInTwo(data, i, tag, value);
      StandsInTwo(data, i, tag, g.value);
      SameVarint(data, i + |tag|, value, g.value);
    case Fixed64(_, bytes) =>
      StandsInTwo(data, i, tag, bytes);
      StandsInTwo(data, i, tag, g.bytes);
      SameContent(data, i + |tag|, bytes, g.bytes);
    case Delimited(_, length, content) =>
      DelimitedIsUnique(data, i, f, g);
    case Group(_, inner, end) =>
      GroupStands(data, i, tag, inner, end);
      GroupStands(data, i, tag, g.inner, g.end);
      FieldsAreUnique(data, i + |tag|, inner, end, g.inner, g.end);
    case Fixed32(_, bytes) =>
      StandsInTwo(data, i, tag, bytes);
      StandsInTwo(data, i, tag, g.bytes);
      SameContent(data, i + |tag|, bytes, g.bytes);
  }

  lemma DelimitedIsUnique(data: seq<Byte>, i: nat, f: Field, g: Field)
    requires Bracketed(f) && Bracketed(g) && StandsAt(data, i, Wire(f)) && StandsAt(data, i, Wire(g))
    requires f.Delimited? && g.Delimited? && f.tag == g.tag
    ensures f == g
  {
    hide IsVarint, StandsAt, ValueOf;
    StandsInTwo(data, i, f.tag + f.length, f.content);
    StandsInTwo(data, i, g.tag + g.length, g.content);
    StandsInTwo(data, i, f.tag, f.length);
    StandsInTwo(data, i, g.tag, g.length);
    SameVarint(data, i + |f.tag|, f.length, g.length);
    SameContent(data, i + |f.tag + f.length|, f.content, g.content);
  }

  lemma GroupStands(data: seq<Byte>, i: nat, tag: seq<Byte>, inner: Fields, end: seq<Byte>)
    requires StandsAt(data, i, tag + WireAll(inner) + end)
    ensures StandsAt(data, i + |tag|, WireAll(inner) + end)
  {
    assert tag + WireAll(inner) + end == tag + (WireAll(inner) + end);
    StandsInTwo(data, i, tag, WireAll(inner) + end);
    hide StandsAt, WireAll;
  }

  lemma {:induction false} FieldsAreUnique(data: seq<Byte>, i: nat, fs: Fields, end: seq<Byte>, gs: Fields,
                                           last: seq<Byte>)
    requires AllBracketed(fs) && IsTag(end, 4) && StandsAt(data, i, WireAll(fs) + end)
    requires AllBracketed(gs) && IsTag(last, 4) && StandsAt(data, i, WireAll(gs) + last)
    ensures fs == gs && end == last
    decreases fs
  {
    hide IsVarint, StandsAt, ValueOf, Bracketed, Wire;
    FieldsStand(data, i, fs, end);
    FieldsStand(data, i, gs, last);
    if fs.More? && gs.More? {
      FieldIsUnique(data, i, fs.first, gs.first);
      FieldsAreUnique(data, i + |Wire(fs.first)|, fs.rest, end, gs.rest, last);
    } else if fs.More? {
      TagStands(data, i, fs.first);
      SameVarint(data, i, fs.first.tag, last);
    } else if gs.More? {
      TagStands(data, i, gs.first);
      SameVarint(data, i, gs.first.tag, end);
    } else {
      SameVarint(data, i, end, last);
    }
  }

  lemma FieldsStand(data: seq<Byte>, i: nat, fs: Fields, end: seq<Byte>)
    requires StandsAt(data, i, WireAll(fs) + end)
    ensures fs.None? ==> StandsAt(data, i, end)
    ensures fs.More? ==> StandsAt(data, i, Wire(fs.first))
                         && StandsAt(data, i + |Wire(fs.first)|, WireAll(fs.rest) + end)
  {
    hide StandsAt, Wire;
    if fs.None? {
      assert WireAll(fs) + end == end;
    } else {
      assert WireAll(fs) + end == Wire(fs.first) + (WireAll(fs.rest) + end);
      StandsInTwo(data, i, Wire(fs.first), WireAll(fs.rest) + end);
    }
  }

  /** A field of the specification is skipped, whole. */
  lemma {:induction false} StandardIsSkipped(data: seq<Byte>, f: Field)
    requires Standard(f) && StandsAt(data, 0, Wire(f)) && |data| < TWO_63
    ensures Skip(data) == Ok(|Wire(f)|)
  {
    hide Wire, Skip, LegalNumbers, MatchedGroups, Bracketed;
    assert data[0..0 + |Wire(f)|] == data[..|Wire(f)|];
    SkipIsGrammar(data, |Wire(f)|);
  }

  /** What the skipper accepts can be read as one bracketed field only; it is a field of the specification
      exactly when all numbers in that are legal and each group ends with the number it started with. */
  lemma {:induction false} AcceptedIsStandardExactly(data: seq<Byte>, n: nat) returns (f: Field)
    requires n <= |data| < TWO_63 && Skip(data) == Ok(n)
    ensures Bracketed(f) && Wire(f) == data[..n]
    ensures forall g :: Bracketed(g) && Wire(g) == data[..n] ==> g == f
    ensures (exists g :: Standard(g) && Wire(g) == data[..n]) <==> LegalNumbers(f) && MatchedGroups(f)
  {
    hide Skip, Bracketed, LegalNumbers, MatchedGroups, Wire;
    SkipIsGrammar(data, n);
    f :| Bracketed(f) && Wire(f) == data[..n];
    forall g | Bracketed(g) && Wire(g) == data[..n] ensures g == f {
      assert data[..n][0..0 + |Wire(f)|] == data[..n];
      FieldIsUnique(data[..n], 0, f, g);
    }
    if LegalNumbers(f) && MatchedGroups(f) {
      assert Standard(f);
    }
  }

  /** Two bytes the skipper accepts and the specification does not: group 8 starts, group 7 ends. */
  lemma MismatchedGroupIsAccepted()
    ensures Skip([0x43, 0x3c]) == Ok(2)
    ensures forall f :: Wire(f) == [0x43, 0x3c] ==> !Standard(f)
  {
    var (start, end) := ([0x43], [0x3c]);
    var data := start + end;
    assert data == [0x43, 0x3c];
    OneByteTag(0x43);
    OneByteTag(0x3c);
    var f := Group(start, None, end);
    assert Wire(f) == data;
    assert data[..2] == data && data[0..2] == data;
    SkipIsGrammar(data, 2);
    forall g | Wire(g) == data ensures !Standard(g) {
      if Bracketed(g) {
        FieldIsUnique(data, 0, f, g);
      }
    }
  }
}
