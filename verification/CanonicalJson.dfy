/** The canonical text of a configuration (houseRollout.ts, stableStringify and the pre-image of contentHash).
Text is a sequence of UTF-16 code units, as in the source language; a number is its decimal text. */
module CanonicalJson {
  type Unit = n: int | 0 <= n < 0x10000

  type Text = seq<Unit>

  const NEWLINE: Unit := 10
  const QUOTE: Unit := 34
  const COMMA: Unit := 44
  const COLON: Unit := 58
  const BACKSLASH: Unit := 92
  const OPEN_LIST: Unit := 91
  const CLOSE_LIST: Unit := 93
  const OPEN_OBJECT: Unit := 123
  const CLOSE_OBJECT: Unit := 125

  datatype Json =
    | Undefined
    | Null
    | Bool(truth: bool)
    | Num(digits: Text)
    | Str(text: Text)
    | Arr(items: seq<Json>)
    | Obj(members: seq<Member>)

  datatype Member = Member(key: Text, value: Json)

  // ----- string literals -----

  predicate High(c: Unit) {
    0xD800 <= c < 0xDC00
  }

  predicate Low(c: Unit) {
    0xDC00 <= c < 0xE000
  }

  function HexDigit(d: int): Unit
    requires 0 <= d < 16
  {
    if d < 10 then 48 + d else 87 + d
  }

  function Hex4(c: Unit): Text {
    [HexDigit(c / 16 / 16 / 16), HexDigit(c / 16 / 16 % 16), HexDigit(c / 16 % 16), HexDigit(c % 16)]
  }

  function Escape(c: Unit): Text {
    if c == QUOTE || c == BACKSLASH then [BACKSLASH, c]
    else if c == 8 then [BACKSLASH, 98]
    else if c == 9 then [BACKSLASH, 116]
    else if c == NEWLINE then [BACKSLASH, 110]
    else if c == 12 then [BACKSLASH, 102]
    else if c == 13 then [BACKSLASH, 114]
    else if c < 32 || High(c) || Low(c) then [BACKSLASH, 117] + Hex4(c)
    else [c]
  }

  /** A surrogate pair is written as it is; a lone surrogate is escaped. */
  predicate Paired(s: Text) {
    |s| >= 2 && High(s[0]) && Low(s[1])
  }

  function Width(s: Text): (n: nat)
    requires s != []
    ensures 1 <= n <= |s|
  {
    if Paired(s) then 2 else 1
  }

  function Out(s: Text): Text
    requires s != []
  {
    if Paired(s) then s[..2] else Escape(s[0])
  }

  function Escaped(s: Text): Text {
    if s == [] then [] else Out(s) + Escaped(s[Width(s)..])
  }

  function Quoted(s: Text): Text {
    [QUOTE] + Escaped(s) + [QUOTE]
  }

  // ----- entries of an object -----

  function Defined(ms: seq<Member>): seq<Member> {
    if ms == [] then []
    else if ms[0].value == Undefined then Defined(ms[1..])
    else [ms[0]] + Defined(ms[1..])
  }

  /** The source language's `<` on strings. */
  predicate Less(a: Text, b: Text) {
    b != [] && (a == [] || a[0] < b[0] || (a[0] == b[0] && Less(a[1..], b[1..])))
  }

  function Insert(m: Member, s: seq<Member>): seq<Member> {
    if s != [] && Less(s[0].key, m.key) then [s[0]] + Insert(m, s[1..]) else [m] + s
  }

  function Sorted(ms: seq<Member>): seq<Member> {
    if ms == [] then [] else Insert(ms[0], Sorted(ms[1..]))
  }

  function Entries(ms: seq<Member>): seq<Member> {
    Sorted(Defined(ms))
  }

  // ----- the text -----

  function MaxOf(s: seq<nat>): (m: nat)
    ensures forall i :: 0 <= i < |s| ==> s[i] <= m
  {
    if s == [] then 0
    else
      var m := MaxOf(s[1..]);
      assert forall i :: 1 <= i < |s| ==> s[i] == s[1..][i - 1];
      if s[0] > m then s[0] else m
  }

  function Height(v: Json): nat {
    match v
    case Arr(items) => 1 + MaxOf(seq(|items|, i requires 0 <= i < |items| => Height(items[i])))
    case Obj(ms) => 1 + MaxOf(seq(|ms|, i requires 0 <= i < |ms| => Height(ms[i].value)))
    case _ => 0
  }

  lemma {:induction false} ItemLower(items: seq<Json>, i: nat)
    requires i < |items|
    ensures Height(items[i]) < Height(Arr(items))
  {
    var hs := seq(|items|, j requires 0 <= j < |items| => Height(items[j]));
    assert hs[i] <= MaxOf(hs);
  }

  lemma {:induction false} MemberLower(ms: seq<Member>, i: nat)
    requires i < |ms|
    ensures Height(ms[i].value) < Height(Obj(ms))
  {
    var hs := seq(|ms|, j requires 0 <= j < |ms| => Height(ms[j].value));
    assert hs[i] <= MaxOf(hs);
  }

  lemma {:induction false} DefinedExact(ms: seq<Member>)
    ensures forall m :: m in Defined(ms) <==> m in ms && m.value != Undefined
  {
    if ms != [] {
      DefinedExact(ms[1..]);
      assert ms == [ms[0]] + ms[1..];
    }
  }

  lemma {:induction false} InsertExact(m: Member, s: seq<Member>)
    ensures forall x :: x in Insert(m, s) <==> x == m || x in s
  {
    if s != [] && Less(s[0].key, m.key) {
      InsertExact(m, s[1..]);
      assert s == [s[0]] + s[1..];
    }
  }

  lemma {:induction false} SortedExact(ms: seq<Member>)
    ensures forall x :: x in Sorted(ms) <==> x in ms
  {
    if ms != [] {
      SortedExact(ms[1..]);
      InsertExact(ms[0], Sorted(ms[1..]));
      assert ms == [ms[0]] + ms[1..];
    }
  }

  lemma {:induction false} EntriesExact(ms: seq<Member>)
    ensures forall m :: m in Entries(ms) <==> m in ms && m.value != Undefined
  {
    DefinedExact(ms);
    SortedExact(Defined(ms));
  }

  lemma {:induction false} EntryLower(ms: seq<Member>, i: nat)
    requires i < |Entries(ms)|
    ensures Height(Entries(ms)[i].value) < Height(Obj(ms))
  {
    EntriesExact(ms);
    assert Entries(ms)[i] in ms;
    var k :| 0 <= k < |ms| && ms[k] == Entries(ms)[i];
    MemberLower(ms, k);
  }

  function Join(parts: seq<Text>): Text {
    if parts == [] then []
    else if |parts| == 1 then parts[0]
    else parts[0] + [COMMA] + Join(parts[1..])
  }

  /** An undefined array element joins as the empty text. */
  function Render(v: Json): Text
    decreases Height(v)
  {
    match v
    case Undefined => []
    case Null => [110, 117, 108, 108]
    case Bool(b) => if b then [116, 114, 117, 101] else [102, 97, 108, 115, 101]
    case Num(digits) => digits
    case Str(text) => Quoted(text)
    case Arr(items) =>
      [OPEN_LIST]
      + Join(seq(|items|, i requires 0 <= i < |items| => ItemLower(items, i); Render(items[i])))
      + [CLOSE_LIST]
    case Obj(ms) =>
      var es := Entries(ms);
      [OPEN_OBJECT]
      + Join(seq(|es|, i requires 0 <= i < |es| =>
          EntryLower(ms, i); Quoted(es[i].key) + [COLON] + Render(es[i].value)))
      + [CLOSE_OBJECT]
  }

  // ----- what a value is -----

  predicate NumberUnit(c: Unit) {
    48 <= c <= 57 || c == 43 || c == 45 || c == 46 || c == 101
  }

  predicate NumberText(s: Text) {
    s != [] && forall i :: 0 <= i < |s| ==> NumberUnit(s[i])
  }

  ghost predicate DistinctKeys(ms: seq<Member>) {
    forall i, j :: 0 <= i < j < |ms| ==> ms[i].key != ms[j].key
  }

  /** Numbers are written as decimals and the keys of an object differ. */
  ghost predicate WellFormed(v: Json)
    decreases Height(v)
  {
    match v
    case Num(digits) => NumberText(digits)
    case Arr(items) => forall i :: 0 <= i < |items| ==> (ItemLower(items, i); WellFormed(items[i]))
    case Obj(ms) => DistinctKeys(ms) && forall i :: 0 <= i < |ms| ==> (MemberLower(ms, i); WellFormed(ms[i].value))
    case _ => true
  }

  ghost function Keys(ms: seq<Member>): set<Text> {
    set i | 0 <= i < |ms| && ms[i].value != Undefined :: ms[i].key
  }

  /** The one array that is confused with another: `[undefined]` with `[]`. */
  function Items(x: seq<Json>): seq<Json> {
    if x == [Undefined] then [] else x
  }

  /** Equal up to the order of keys and up to undefined members. */
  ghost predicate Same(a: Json, b: Json)
    decreases Height(a)
  {
    if a.Arr? && b.Arr? then
      && |Items(a.items)| == |Items(b.items)|
      && forall i :: 0 <= i < |Items(a.items)| ==> (ItemLower(a.items, i); Same(Items(a.items)[i], Items(b.items)[i]))
    else if a.Obj? && b.Obj? then
      && Keys(a.members) == Keys(b.members)
      && forall i, j :: 0 <= i < |a.members| && 0 <= j < |b.members| && Matching(a.members[i], b.members[j]) ==>
                          (MemberLower(a.members, i); Same(a.members[i].value, b.members[j].value))
    else
      a == b
  }

  predicate Matching(m: Member, n: Member) {
    m.key == n.key && m.value != Undefined && n.value != Undefined
  }
}
