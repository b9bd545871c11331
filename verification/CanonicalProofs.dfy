/** The canonical text is exact: two values have the same text just when they are equal up to key order, undefined
members and the array `[undefined]`. */
module CanonicalProofs {
  import opened CanonicalJson

  /** What can follow a value inside a text: nothing, or a closing or separating character. */
  predicate Stops(x: Text) {
    x == [] || x[0] in {COMMA, CLOSE_LIST, CLOSE_OBJECT}
  }

  /** Neither text can be read for the other, whatever follows them. */
  ghost predicate Apart(p: Text, q: Text) {
    forall u: Text, v: Text :: Stops(u) && Stops(v) && p + u == q + v ==> p == q && u == v
  }

  // ----- string literals -----

  lemma {:induction false} HexInjective(c: Unit, d: Unit)
    requires Hex4(c) == Hex4(d)
    ensures c == d
  {
    assert Hex4(c)[0] == Hex4(d)[0] && Hex4(c)[1] == Hex4(d)[1] && Hex4(c)[2] == Hex4(d)[2] && Hex4(c)[3] == Hex4(d)[3];
    HexDigitInjective(c / 16 / 16 / 16, d / 16 / 16 / 16);
    HexDigitInjective(c / 16 / 16 % 16, d / 16 / 16 % 16);
    HexDigitInjective(c / 16 % 16, d / 16 % 16);
    HexDigitInjective(c % 16, d % 16);
    Nibble(c / 16 / 16, d / 16 / 16);
    Nibble(c / 16, d / 16);
    Nibble(c, d);
  }

  lemma {:induction false} Nibble(c: int, d: int)
    ensures c / 16 == d / 16 && c % 16 == d % 16 ==> c == d
  {
  }

  lemma {:induction false} HexDigitInjective(c: int, d: int)
    requires 0 <= c < 16 && 0 <= d < 16
    ensures HexDigit(c) == HexDigit(d) ==> c == d
  {
  }

  /** The first two units tell a short escape apart, and tell that an escape is a long one. */
  lemma {:induction false} EscapeHeads(c: Unit, d: Unit)
    requires Escape(c)[0] == Escape(d)[0]
    requires Escape(c)[0] == BACKSLASH ==> Escape(c)[1] == Escape(d)[1]
    ensures |Escape(c)| == |Escape(d)|
    ensures if |Escape(c)| == 6 then Escape(c)[2..] == Hex4(c) && Escape(d)[2..] == Hex4(d) else c == d
  {
  }

  lemma {:induction false} EscapeSplit(c: Unit, d: Unit, x: Text, y: Text)
    requires Escape(c) + x == Escape(d) + y
    ensures c == d && x == y
  {
    var e, f := Escape(c), Escape(d);
    var z := e + x;
    assert e[0] == z[0] == f[0];
    assert |e| > 1 && |f| > 1 ==> e[1] == z[1] == f[1];
    EscapeHeads(c, d);
    assert e == z[..|e|] && f == z[..|f|];
    if |e| == 6 { HexInjective(c, d); }
    assert x == z[|e|..] && y == (f + y)[|f|..];
  }

  lemma {:induction false} OutSplit(s: Text, t: Text, x: Text, y: Text)
    requires s != [] && t != [] && Out(s) + x == Out(t) + y
    ensures Width(s) == Width(t) && s[..Width(s)] == t[..Width(t)] && x == y
  {
    var z := Out(s) + x;
    assert z[0] == Out(s)[0] == Out(t)[0];
    if Paired(s) {
      assert Paired(t);
      assert z[1] == Out(s)[1] == Out(t)[1];
      assert x == z[2..] && y == z[2..];
    } else {
      assert !Paired(t);
      EscapeSplit(s[0], t[0], x, y);
    }
  }

  lemma {:induction false} OutNotQuote(s: Text)
    requires s != []
    ensures Out(s) != [] && Out(s)[0] != QUOTE
  {
  }

  lemma {:induction false} EscapedStep(s: Text, r: Text)
    requires s != []
    ensures Escaped(s) + r == Out(s) + (Escaped(s[Width(s)..]) + r)
  {
  }

  lemma {:induction false} EscapedEnds(s: Text, x: Text)
    ensures s == [] <==> (Escaped(s) + ([QUOTE] + x))[0] == QUOTE
  {
    if s != [] { OutNotQuote(s); }
  }

  lemma {:induction false} EscapedHeads(s: Text, t: Text, p: Text, q: Text)
    requires s != [] && t != [] && Escaped(s) + p == Escaped(t) + q
    ensures Width(s) == Width(t) && s[..Width(s)] == t[..Width(t)]
    ensures Escaped(s[Width(s)..]) + p == Escaped(t[Width(t)..]) + q
  {
    EscapedStep(s, p);
    EscapedStep(t, q);
    OutSplit(s, t, Escaped(s[Width(s)..]) + p, Escaped(t[Width(t)..]) + q);
  }

  lemma {:induction false} Rejoin(s: Text, t: Text, n: nat)
    requires n <= |s| && n <= |t| && s[..n] == t[..n] && s[n..] == t[n..]
    ensures s == t
  {
    assert s == s[..n] + s[n..] && t == t[..n] + t[n..];
  }

  lemma {:induction false} EscapedSplit(s: Text, t: Text, x: Text, y: Text)
    requires Escaped(s) + ([QUOTE] + x) == Escaped(t) + ([QUOTE] + y)
    ensures s == t && x == y
    decreases |s|
  {
    EscapedEnds(s, x);
    EscapedEnds(t, y);
    if s == [] {
      assert Escaped(s) + ([QUOTE] + x) == [QUOTE] + x && Escaped(t) + ([QUOTE] + y) == [QUOTE] + y;
      SamePrefix([QUOTE], x, y);
    } else {
      EscapedHeads(s, t, [QUOTE] + x, [QUOTE] + y);
      EscapedSplit(s[Width(s)..], t[Width(t)..], x, y);
      Rejoin(s, t, Width(s));
    }
  }

  lemma {:induction false} QuotedTail(s: Text, x: Text)
    ensures (Quoted(s) + x)[1..] == Escaped(s) + ([QUOTE] + x)
  {
  }

  /** A string literal ends where it says it ends: it is a prefix of no other. */
  lemma {:induction false} QuotedSplit(s: Text, t: Text, x: Text, y: Text)
    requires Quoted(s) + x == Quoted(t) + y
    ensures s == t && x == y
  {
    QuotedTail(s, x);
    QuotedTail(t, y);
    EscapedSplit(s, t, x, y);
  }

  // ----- numbers -----

  function NumberPrefix(z: Text): nat {
    if z == [] || !NumberUnit(z[0]) then 0 else 1 + NumberPrefix(z[1..])
  }

  lemma {:induction false} NumberEnds(s: Text, x: Text)
    requires forall i :: 0 <= i < |s| ==> NumberUnit(s[i])
    requires Stops(x)
    ensures NumberPrefix(s + x) == |s|
  {
    if s == [] {
      assert s + x == x;
    } else {
      NumberEnds(s[1..], x);
      assert (s + x)[1..] == s[1..] + x;
    }
  }

  lemma {:induction false} NumberSplit(s: Text, t: Text, x: Text, y: Text)
    requires forall i :: 0 <= i < |s| ==> NumberUnit(s[i])
    requires forall i :: 0 <= i < |t| ==> NumberUnit(t[i])
    requires Stops(x) && Stops(y) && s + x == t + y
    ensures s == t && x == y
  {
    NumberEnds(s, x);
    NumberEnds(t, y);
    assert s == (s + x)[..|s|] && t == (t + y)[..|t|];
    assert x == (s + x)[|s|..] && y == (t + y)[|t|..];
  }

  // ----- lists of parts -----

  predicate PartStart(p: Text) {
    p == [] || !Stops(p)
  }

  ghost predicate PartsApart(ps: seq<Text>, qs: seq<Text>) {
    && (forall i :: 0 <= i < |ps| ==> PartStart(ps[i]))
    && (forall i :: 0 <= i < |qs| ==> PartStart(qs[i]))
    && (forall i, j :: 0 <= i < |ps| && 0 <= j < |qs| ==> Apart(ps[i], qs[j]))
  }

  /** What follows the first part. */
  function Rest(ps: seq<Text>, end: Text): Text
    requires ps != []
  {
    if |ps| == 1 then end else [COMMA] + (Join(ps[1..]) + end)
  }

  lemma {:induction false} JoinRest(ps: seq<Text>, end: Text)
    requires ps != []
    ensures Join(ps) + end == ps[0] + Rest(ps, end)
  {
  }

  predicate Closing(end: Text) {
    end != [] && (end[0] == CLOSE_LIST || end[0] == CLOSE_OBJECT)
  }

  lemma {:induction false} EmptyStart(p: Text, r: Text)
    requires PartStart(p) && Stops(p + r)
    ensures p == []
  {
  }

  lemma {:induction false} JoinEmpty(qs: seq<Text>, e: Text, f: Text)
    requires Closing(e) && Closing(f) && qs != [] && PartStart(qs[0])
    requires e == Join(qs) + f
    ensures qs == [[]] && e == f
  {
    JoinRest(qs, f);
    assert e == qs[0] + Rest(qs, f);
    EmptyStart(qs[0], Rest(qs, f));
    assert e == Rest(qs, f);
  }

  lemma {:induction false} RestSplit(ps: seq<Text>, qs: seq<Text>, e: Text, f: Text)
    requires ps != [] && qs != [] && Closing(e) && Closing(f) && Rest(ps, e) == Rest(qs, f)
    ensures |ps| == 1 <==> |qs| == 1
    ensures if |ps| == 1 then e == f else Join(ps[1..]) + e == Join(qs[1..]) + f
  {
    assert Rest(ps, e)[0] == Rest(qs, f)[0];
    if |ps| > 1 {
      SamePrefix([COMMA], Join(ps[1..]) + e, Join(qs[1..]) + f);
    }
  }

  lemma {:induction false} TailsApart(ps: seq<Text>, qs: seq<Text>)
    requires PartsApart(ps, qs) && ps != [] && qs != []
    ensures PartsApart(ps[1..], qs[1..])
  {
    forall i, j | 0 <= i < |ps| - 1 && 0 <= j < |qs| - 1 ensures Apart(ps[1..][i], qs[1..][j]) {
      assert Apart(ps[i + 1], qs[j + 1]);
    }
  }

  lemma {:induction false} HeadsAlike(p: Text, q: Text, u: Text, v: Text)
    requires Apart(p, q) && Stops(u) && Stops(v) && p + u == q + v
    ensures p == q && u == v
  {
  }

  lemma {:induction false} JoinSplit(ps: seq<Text>, qs: seq<Text>, e: Text, f: Text)
    requires PartsApart(ps, qs) && Closing(e) && Closing(f) && ps != [] && qs != []
    requires Join(ps) + e == Join(qs) + f
    ensures ps == qs && e == f
    decreases |ps|
  {
    JoinRest(ps, e);
    JoinRest(qs, f);
    HeadsAlike(ps[0], qs[0], Rest(ps, e), Rest(qs, f));
    RestSplit(ps, qs, e, f);
    assert ps == [ps[0]] + ps[1..] && qs == [qs[0]] + qs[1..];
    if |ps| > 1 {
      TailsApart(ps, qs);
      JoinSplit(ps[1..], qs[1..], e, f);
    }
  }

  function Parts(ps: seq<Text>): seq<Text> {
    if ps == [[]] then [] else ps
  }

  /** Two joined lists are told apart, except that one empty part looks like none. */
  lemma {:induction false} ListSplit(ps: seq<Text>, qs: seq<Text>, e: Text, f: Text)
    requires PartsApart(ps, qs) && Closing(e) && Closing(f)
    requires Join(ps) + e == Join(qs) + f
    ensures Parts(ps) == Parts(qs) && Join(ps) == Join(qs) && e == f
  {
    if ps == [] && qs == [] {
      assert Join(ps) + e == e && Join(qs) + f == f;
    } else if ps == [] {
      assert Join(ps) + e == e;
      JoinEmpty(qs, e, f);
    } else if qs == [] {
      assert Join(qs) + f == f;
      JoinEmpty(ps, f, e);
    } else {
      JoinSplit(ps, qs, e, f);
    }
  }

  // ----- values -----

  function ItemTexts(items: seq<Json>): seq<Text> {
    seq(|items|, i requires 0 <= i < |items| => Render(items[i]))
  }

  function EntryText(m: Member): Text {
    Quoted(m.key) + [COLON] + Render(m.value)
  }

  function EntryTexts(es: seq<Member>): seq<Text> {
    seq(|es|, i requires 0 <= i < |es| => EntryText(es[i]))
  }

  lemma {:induction false} ArrText(items: seq<Json>)
    ensures Render(Arr(items)) == [OPEN_LIST] + Join(ItemTexts(items)) + [CLOSE_LIST]
  {
    var ps := seq(|items|, i requires 0 <= i < |items| => ItemLower(items, i); Render(items[i]));
    assert ps == ItemTexts(items);
  }

  lemma {:induction false} ObjText(ms: seq<Member>)
    ensures Render(Obj(ms)) == [OPEN_OBJECT] + Join(EntryTexts(Entries(ms))) + [CLOSE_OBJECT]
  {
    var es := Entries(ms);
    var ps := seq(|es|, i requires 0 <= i < |es| =>
        EntryLower(ms, i); Quoted(es[i].key) + [COLON] + Render(es[i].value));
    assert ps == EntryTexts(es);
  }

  /** The first unit tells the kind of value. */
  predicate StartsAs(v: Json, c: Unit) {
    match v
    case Undefined => false
    case Null => c == 110
    case Bool(b) => c == if b then 116 else 102
    case Num(_) => NumberUnit(c)
    case Str(_) => c == QUOTE
    case Arr(_) => c == OPEN_LIST
    case Obj(_) => c == OPEN_OBJECT
  }

  lemma {:induction false} Starts(v: Json)
    requires WellFormed(v)
    ensures v == Undefined <==> Render(v) == []
    ensures v != Undefined ==> StartsAs(v, Render(v)[0])
    ensures PartStart(Render(v))
  {
    if v.Arr? { ArrText(v.items); }
    if v.Obj? { ObjText(v.members); }
  }

  ghost predicate EntriesOk(es: seq<Member>, h: nat) {
    forall i :: 0 <= i < |es| ==> es[i].value != Undefined && WellFormed(es[i].value) && Height(es[i].value) < h
  }

  lemma {:induction false} EntriesAreOk(ms: seq<Member>)
    requires WellFormed(Obj(ms))
    ensures EntriesOk(Entries(ms), Height(Obj(ms)))
  {
    var es := Entries(ms);
    EntriesExact(ms);
    forall i | 0 <= i < |es|
      ensures es[i].value != Undefined && WellFormed(es[i].value) && Height(es[i].value) < Height(Obj(ms))
    {
      EntryLower(ms, i);
      assert es[i] in ms;
      var k :| 0 <= k < |ms| && ms[k] == es[i];
    }
  }

  lemma {:induction false} ValueApart(a: Json, b: Json)
    requires WellFormed(a) && WellFormed(b)
    ensures Apart(Render(a), Render(b))
    decreases Height(a), 3
  {
    forall u: Text, v: Text | Stops(u) && Stops(v) && Render(a) + u == Render(b) + v
      ensures Render(a) == Render(b) && u == v
    {
      ValueSplit(a, b, u, v);
    }
  }

  lemma {:induction false} ValueSplit(a: Json, b: Json, u: Text, v: Text)
    requires WellFormed(a) && WellFormed(b) && Stops(u) && Stops(v) && Render(a) + u == Render(b) + v
    ensures Render(a) == Render(b) && u == v
    decreases Height(a), 2
  {
    SameKind(a, b, u, v);
    match a
    case Undefined => assert Render(a) + u == u && Render(b) + v == v;
    case Null => SamePrefix(Render(a), u, v);
    case Bool(_) => SamePrefix(Render(a), u, v);
    case Num(_) => NumberSplit(a.digits, b.digits, u, v);
    case Str(_) => QuotedSplit(a.text, b.text, u, v);
    case Arr(_) => ArrSplit(a.items, b.items, u, v);
    case Obj(_) => ObjSplit(a.members, b.members, u, v);
  }

  lemma {:induction false} SamePrefix(p: Text, u: Text, v: Text)
    requires p + u == p + v
    ensures u == v
  {
    assert u == (p + u)[|p|..] && v == (p + v)[|p|..];
  }

  ghost predicate OneKind(a: Json, b: Json) {
    || a == b == Undefined || a == b == Null || (a.Bool? && a == b) || (a.Num? && b.Num?)
    || (a.Str? && b.Str?) || (a.Arr? && b.Arr?) || (a.Obj? && b.Obj?)
  }

  lemma {:induction false} SameKind(a: Json, b: Json, u: Text, v: Text)
    requires WellFormed(a) && WellFormed(b) && Stops(u) && Stops(v) && Render(a) + u == Render(b) + v
    ensures OneKind(a, b)
  {
    Starts(a);
    Starts(b);
    if a == Undefined {
      assert Render(a) + u == u;
      EmptyStart(Render(b), v);
    } else if b == Undefined {
      assert Render(b) + v == v;
      EmptyStart(Render(a), u);
    } else {
      assert Render(a)[0] == (Render(a) + u)[0] == Render(b)[0];
    }
  }

  lemma {:induction false} ItemsApart(x: seq<Json>, y: seq<Json>)
    requires WellFormed(Arr(x)) && WellFormed(Arr(y))
    ensures PartsApart(ItemTexts(x), ItemTexts(y))
    decreases Height(Arr(x)), 0
  {
    forall i, j | 0 <= i < |x| && 0 <= j < |y|
      ensures Apart(ItemTexts(x)[i], ItemTexts(y)[j])
    {
      ItemLower(x, i);
      ValueApart(x[i], y[j]);
    }
    forall i | 0 <= i < |x| ensures PartStart(ItemTexts(x)[i]) { Starts(x[i]); }
    forall j | 0 <= j < |y| ensures PartStart(ItemTexts(y)[j]) { Starts(y[j]); }
  }

  /** The brackets off both sides of an equation between texts. */
  lemma {:induction false} Unwrap(open: Unit, p: Text, q: Text, close: Unit, u: Text, v: Text)
    requires ([open] + p + [close]) + u == ([open] + q + [close]) + v
    ensures p + ([close] + u) == q + ([close] + v)
  {
    var z := ([open] + p + [close]) + u;
    assert z[1..] == p + ([close] + u);
    assert z == ([open] + q + [close]) + v;
    assert z[1..] == q + ([close] + v);
  }

  lemma {:induction false} ArrSplit(x: seq<Json>, y: seq<Json>, u: Text, v: Text)
    requires WellFormed(Arr(x)) && WellFormed(Arr(y)) && Render(Arr(x)) + u == Render(Arr(y)) + v
    ensures Parts(ItemTexts(x)) == Parts(ItemTexts(y)) && Render(Arr(x)) == Render(Arr(y)) && u == v
    decreases Height(Arr(x)), 1
  {
    var ps, qs := ItemTexts(x), ItemTexts(y);
    ArrText(x);
    ArrText(y);
    Unwrap(OPEN_LIST, Join(ps), Join(qs), CLOSE_LIST, u, v);
    ItemsApart(x, y);
    ListSplit(ps, qs, [CLOSE_LIST] + u, [CLOSE_LIST] + v);
    SamePrefix([CLOSE_LIST], u, v);
  }

  lemma {:induction false} Regroup(a: Text, b: Text, c: Text, d: Text)
    ensures (a + b + c) + d == a + (b + (c + d))
  {
  }

  lemma {:induction false} KeyedSplit(k: Text, l: Text, p: Text, q: Text, u: Text, v: Text)
    requires (Quoted(k) + [COLON] + p) + u == (Quoted(l) + [COLON] + q) + v
    ensures k == l && p + u == q + v
  {
    var x, y := [COLON] + (p + u), [COLON] + (q + v);
    Regroup(Quoted(k), [COLON], p, u);
    Regroup(Quoted(l), [COLON], q, v);
    QuotedSplit(k, l, x, y);
    SamePrefix([COLON], p + u, q + v);
  }

  lemma {:induction false} EntryApart(m: Member, n: Member)
    requires Apart(Render(m.value), Render(n.value))
    ensures Apart(EntryText(m), EntryText(n))
  {
    var p, q := Render(m.value), Render(n.value);
    forall u: Text, v: Text | Stops(u) && Stops(v) && EntryText(m) + u == EntryText(n) + v
      ensures EntryText(m) == EntryText(n) && u == v
    {
      KeyedSplit(m.key, n.key, p, q, u, v);
      assert p == q && u == v;
    }
  }

  lemma {:induction false} EntriesApart(es: seq<Member>, fs: seq<Member>, h: nat, k: nat)
    requires EntriesOk(es, h) && EntriesOk(fs, k)
    ensures PartsApart(EntryTexts(es), EntryTexts(fs))
    decreases h, 0
  {
    forall i, j | 0 <= i < |es| && 0 <= j < |fs|
      ensures Apart(EntryTexts(es)[i], EntryTexts(fs)[j])
    {
      ValueApart(es[i].value, fs[j].value);
      EntryApart(es[i], fs[j]);
    }
  }

  lemma {:induction false} ObjSplit(ms: seq<Member>, ns: seq<Member>, u: Text, v: Text)
    requires WellFormed(Obj(ms)) && WellFormed(Obj(ns)) && Render(Obj(ms)) + u == Render(Obj(ns)) + v
    ensures EntryTexts(Entries(ms)) == EntryTexts(Entries(ns)) && Render(Obj(ms)) == Render(Obj(ns)) && u == v
    decreases Height(Obj(ms)), 1
  {
    var ps, qs := EntryTexts(Entries(ms)), EntryTexts(Entries(ns));
    ObjText(ms);
    ObjText(ns);
    Unwrap(OPEN_OBJECT, Join(ps), Join(qs), CLOSE_OBJECT, u, v);
    EntriesAreOk(ms);
    EntriesAreOk(ns);
    EntriesApart(Entries(ms), Entries(ns), Height(Obj(ms)), Height(Obj(ns)));
    ListSplit(ps, qs, [CLOSE_OBJECT] + u, [CLOSE_OBJECT] + v);
    SamePrefix([CLOSE_OBJECT], u, v);
    assert ps == [[]] ==> ps[0] == EntryText(Entries(ms)[0]);
    assert qs == [[]] ==> qs[0] == EntryText(Entries(ns)[0]);
  }

  // ----- sorted entries -----

  predicate Ascending(es: seq<Member>) {
    forall i, j :: 0 <= i < j < |es| ==> Less(es[i].key, es[j].key)
  }

  lemma {:induction false} LessTrans(a: Text, b: Text, c: Text)
    requires Less(a, b) && Less(b, c)
    ensures Less(a, c)
  {
    if a != [] && a[0] == b[0] == c[0] {
      LessTrans(a[1..], b[1..], c[1..]);
    }
  }

  lemma {:induction false} LessTotal(a: Text, b: Text)
    ensures Less(a, b) || Less(b, a) || a == b
    ensures !(Less(a, b) && Less(b, a)) && !Less(a, a)
  {
    if a != [] && b != [] {
      LessTotal(a[1..], b[1..]);
      assert a == [a[0]] + a[1..] && b == [b[0]] + b[1..];
    }
    if a != [] {
      LessTotal(a[1..], a[1..]);
    }
  }

  lemma {:induction false} InsertAscends(m: Member, s: seq<Member>)
    requires Ascending(s) && forall x :: x in s ==> x.key != m.key
    ensures Ascending(Insert(m, s))
  {
    if s != [] {
      LessTotal(s[0].key, m.key);
      if Less(s[0].key, m.key) {
        InsertAscends(m, s[1..]);
        InsertExact(m, s[1..]);
        var t := Insert(m, s[1..]);
        forall j | 0 <= j < |t| ensures Less(s[0].key, t[j].key) {
          assert t[j] in t;
        }
      } else {
        assert s[0] in s;
        forall j | 0 <= j < |s| ensures Less(m.key, s[j].key) {
          if j > 0 { LessTrans(m.key, s[0].key, s[j].key); }
        }
      }
    }
  }

  lemma {:induction false} SortedAscends(ms: seq<Member>)
    requires DistinctKeys(ms)
    ensures Ascending(Sorted(ms))
  {
    if ms != [] {
      SortedAscends(ms[1..]);
      SortedExact(ms[1..]);
      InsertAscends(ms[0], Sorted(ms[1..]));
    }
  }

  lemma {:induction false} DefinedDistinct(ms: seq<Member>)
    requires DistinctKeys(ms)
    ensures DistinctKeys(Defined(ms))
  {
    if ms != [] {
      DefinedDistinct(ms[1..]);
      DefinedExact(ms[1..]);
      var d := Defined(ms[1..]);
      forall j | 0 <= j < |d| ensures d[j].key != ms[0].key {
        assert d[j] in d;
      }
    }
  }

  lemma {:induction false} EntriesAscend(ms: seq<Member>)
    requires DistinctKeys(ms)
    ensures Ascending(Entries(ms))
  {
    DefinedDistinct(ms);
    SortedAscends(Defined(ms));
  }

  function KeyList(es: seq<Member>): seq<Text> {
    seq(|es|, i requires 0 <= i < |es| => es[i].key)
  }

  lemma {:induction false} FirstListed(es: seq<Member>)
    ensures es != [] ==> es[0].key in KeyList(es)
  {
    assert es != [] ==> KeyList(es)[0] == es[0].key;
  }

  /** Ascending lists with the same keys list them alike. */
  lemma {:induction false} AscendingUnique(es: seq<Member>, fs: seq<Member>)
    requires Ascending(es) && Ascending(fs)
    requires forall k :: k in KeyList(es) <==> k in KeyList(fs)
    ensures KeyList(es) == KeyList(fs)
  {
    FirstListed(es);
    FirstListed(fs);
    if es != [] && fs != [] {
      FirstIsLeast(es, fs);
      FirstIsLeast(fs, es);
      LessTotal(es[0].key, fs[0].key);
      TailKeys(es);
      TailKeys(fs);
      AscendingUnique(es[1..], fs[1..]);
      assert KeyList(es) == [es[0].key] + KeyList(es[1..]);
      assert KeyList(fs) == [fs[0].key] + KeyList(fs[1..]);
    }
  }

  lemma {:induction false} FirstIsLeast(es: seq<Member>, fs: seq<Member>)
    requires Ascending(es) && es != [] && fs != []
    requires forall k :: k in KeyList(fs) ==> k in KeyList(es)
    ensures es[0].key == fs[0].key || Less(es[0].key, fs[0].key)
  {
    assert KeyList(fs)[0] in KeyList(fs);
    var i :| 0 <= i < |es| && KeyList(es)[i] == fs[0].key;
  }

  lemma {:induction false} TailKeys(es: seq<Member>)
    requires Ascending(es) && es != []
    ensures forall k :: k in KeyList(es[1..]) <==> k in KeyList(es) && k != es[0].key
  {
    var t := KeyList(es[1..]);
    assert KeyList(es) == [es[0].key] + t;
    forall k | k in t ensures k != es[0].key {
      var i :| 0 <= i < |t| && t[i] == k;
      LessTotal(es[0].key, es[i + 1].key);
    }
  }

  // ----- the theorem -----

  lemma {:induction false} KeysListed(ms: seq<Member>)
    ensures forall k :: k in Keys(ms) <==> k in KeyList(Entries(ms))
  {
    EntriesExact(ms);
    var es := Entries(ms);
    forall k | k in Keys(ms) ensures k in KeyList(es) {
      var i :| 0 <= i < |ms| && ms[i].value != Undefined && ms[i].key == k;
      assert ms[i] in es;
      var j :| 0 <= j < |es| && es[j] == ms[i];
      assert KeyList(es)[j] == k;
    }
    forall k | k in KeyList(es) ensures k in Keys(ms) {
      var j :| 0 <= j < |es| && KeyList(es)[j] == k;
      assert es[j] in ms;
    }
  }

  lemma {:induction false} NoHole(items: seq<Json>)
    requires WellFormed(Arr(items))
    ensures Parts(ItemTexts(items)) == ItemTexts(Items(items))
  {
    if items == [Undefined] {
      assert ItemTexts(items) == [[]];
    }
    if ItemTexts(items) == [[]] {
      assert Render(items[0]) == ItemTexts(items)[0];
      Starts(items[0]);
      assert items == [items[0]];
    }
  }

  lemma {:induction false} SameGivesText(a: Json, b: Json)
    requires WellFormed(a) && WellFormed(b) && Same(a, b)
    ensures Render(a) == Render(b)
    decreases Height(a)
  {
    if a.Arr? && b.Arr? {
      var p, q := Items(a.items), Items(b.items);
      forall i | 0 <= i < |p| ensures Render(p[i]) == Render(q[i]) {
        ItemLower(a.items, i);
        SameGivesText(p[i], q[i]);
      }
      assert ItemTexts(p) == ItemTexts(q);
      ArrSame(a.items, b.items);
    } else if a.Obj? && b.Obj? {
      ObjSame(a.members, b.members);
    }
  }

  lemma {:induction false} ArrSame(x: seq<Json>, y: seq<Json>)
    requires WellFormed(Arr(x)) && WellFormed(Arr(y))
    ensures ItemTexts(Items(x)) == ItemTexts(Items(y)) <==> Render(Arr(x)) == Render(Arr(y))
  {
    ArrText(x);
    ArrText(y);
    NoHole(x);
    NoHole(y);
    JoinParts(ItemTexts(x));
    JoinParts(ItemTexts(y));
    if Render(Arr(x)) == Render(Arr(y)) {
      assert Render(Arr(x)) + [] == Render(Arr(y)) + [];
      ArrSplit(x, y, [], []);
    }
  }

  lemma {:induction false} JoinParts(ps: seq<Text>)
    ensures Join(Parts(ps)) == Join(ps)
  {
  }

  lemma {:induction false} ObjSame(ms: seq<Member>, ns: seq<Member>)
    requires WellFormed(Obj(ms)) && WellFormed(Obj(ns)) && Same(Obj(ms), Obj(ns))
    ensures Render(Obj(ms)) == Render(Obj(ns))
    decreases Height(Obj(ms)), 0
  {
    var es, fs := Entries(ms), Entries(ns);
    SameKeyLists(ms, ns);
    forall i | 0 <= i < |es| ensures EntryText(es[i]) == EntryText(fs[i]) {
      EntryOf(ms, i);
      EntryOf(ns, i);
      var k :| 0 <= k < |ms| && ms[k] == es[i];
      var l :| 0 <= l < |ns| && ns[l] == fs[i];
      assert KeyList(es)[i] == KeyList(fs)[i];
      assert Matching(ms[k], ns[l]);
      MemberLower(ms, k);
      SameGivesText(ms[k].value, ns[l].value);
    }
    assert EntryTexts(es) == EntryTexts(fs);
    ObjText(ms);
    ObjText(ns);
  }

  lemma {:induction false} EntryOf(ms: seq<Member>, i: nat)
    requires i < |Entries(ms)|
    ensures Entries(ms)[i].value != Undefined
    ensures exists k :: 0 <= k < |ms| && ms[k] == Entries(ms)[i]
  {
    EntriesExact(ms);
    assert Entries(ms)[i] in Entries(ms);
  }

  lemma {:induction false} SameKeyLists(ms: seq<Member>, ns: seq<Member>)
    requires DistinctKeys(ms) && DistinctKeys(ns) && Keys(ms) == Keys(ns)
    ensures |Entries(ms)| == |Entries(ns)| && KeyList(Entries(ms)) == KeyList(Entries(ns))
  {
    EntriesAscend(ms);
    EntriesAscend(ns);
    KeysListed(ms);
    KeysListed(ns);
    AscendingUnique(Entries(ms), Entries(ns));
    assert |KeyList(Entries(ms))| == |Entries(ms)|;
  }

  lemma {:induction false} TextGivesSame(a: Json, b: Json)
    requires WellFormed(a) && WellFormed(b) && Render(a) == Render(b)
    ensures Same(a, b)
    decreases Height(a)
  {
    assert Render(a) + [] == Render(b) + [];
    SameKind(a, b, [], []);
    match a
    case Str(_) => QuotedSplit(a.text, b.text, [], []);
    case Arr(_) =>
      ArrSame(a.items, b.items);
      var p, q := Items(a.items), Items(b.items);
      assert |p| == |ItemTexts(p)| == |q|;
      forall i | 0 <= i < |p| ensures Same(p[i], q[i]) {
        assert ItemTexts(p)[i] == ItemTexts(q)[i];
        ItemLower(a.items, i);
        TextGivesSame(p[i], q[i]);
      }
    case Obj(_) => ObjTextGivesSame(a.members, b.members);
    case _ =>
  }

  lemma {:induction false} ObjTextGivesSame(ms: seq<Member>, ns: seq<Member>)
    requires WellFormed(Obj(ms)) && WellFormed(Obj(ns)) && Render(Obj(ms)) == Render(Obj(ns))
    ensures Same(Obj(ms), Obj(ns))
    decreases Height(Obj(ms)), 0
  {
    var es, fs := Entries(ms), Entries(ns);
    assert Render(Obj(ms)) + [] == Render(Obj(ns)) + [];
    ObjSplit(ms, ns, [], []);
    EntryTextsSplit(es, fs);
    KeysListed(ms);
    KeysListed(ns);
    assert Keys(ms) == Keys(ns);
    forall i, j | 0 <= i < |ms| && 0 <= j < |ns| && Matching(ms[i], ns[j])
      ensures Same(ms[i].value, ns[j].value)
    {
      MemberLower(ms, i);
      SameEntry(ms, ns, i, j);
      TextGivesSame(ms[i].value, ns[j].value);
    }
  }

  lemma {:induction false} EntryTextSplit(m: Member, n: Member)
    requires EntryText(m) == EntryText(n)
    ensures m.key == n.key && Render(m.value) == Render(n.value)
  {
    var p, q := Render(m.value), Render(n.value);
    assert EntryText(m) + [] == EntryText(n) + [];
    KeyedSplit(m.key, n.key, p, q, [], []);
    assert p + [] == p && q + [] == q;
  }

  lemma {:induction false} EntryTextsSplit(es: seq<Member>, fs: seq<Member>)
    requires EntryTexts(es) == EntryTexts(fs)
    ensures |es| == |fs| && KeyList(es) == KeyList(fs)
    ensures forall i :: 0 <= i < |es| ==> Render(es[i].value) == Render(fs[i].value)
  {
    assert |es| == |EntryTexts(es)| == |fs|;
    forall i | 0 <= i < |es|
      ensures es[i].key == fs[i].key && Render(es[i].value) == Render(fs[i].value)
    {
      assert EntryTexts(es)[i] == EntryTexts(fs)[i];
      EntryTextSplit(es[i], fs[i]);
    }
  }

  lemma {:induction false} EntryAt(ms: seq<Member>, i: nat) returns (k: nat)
    requires i < |ms| && ms[i].value != Undefined
    ensures k < |Entries(ms)| && Entries(ms)[k] == ms[i]
  {
    EntriesExact(ms);
    assert ms[i] in Entries(ms);
    k :| 0 <= k < |Entries(ms)| && Entries(ms)[k] == ms[i];
  }

  lemma {:induction false} OnePlace(es: seq<Member>, fs: seq<Member>, k: nat, l: nat)
    requires Ascending(fs) && |es| == |fs| && KeyList(es) == KeyList(fs)
    requires k < |es| && l < |fs| && es[k].key == fs[l].key
    ensures k == l
  {
    assert KeyList(es)[k] == KeyList(fs)[k];
    LessTotal(fs[k].key, fs[l].key);
  }

  /** Members with one key are at one place in both sorted lists. */
  lemma {:induction false} SameEntry(ms: seq<Member>, ns: seq<Member>, i: nat, j: nat)
    requires DistinctKeys(ms) && DistinctKeys(ns) && i < |ms| && j < |ns| && Matching(ms[i], ns[j])
    requires var es, fs := Entries(ms), Entries(ns);
             |es| == |fs| && KeyList(es) == KeyList(fs) && forall k :: 0 <= k < |es| ==>
                 Render(es[k].value) == Render(fs[k].value)
    ensures Render(ms[i].value) == Render(ns[j].value)
  {
    var k := EntryAt(ms, i);
    var l := EntryAt(ns, j);
    EntriesAscend(ns);
    OnePlace(Entries(ms), Entries(ns), k, l);
  }

  /** Two values have one text exactly when they are equal up to the order of keys, undefined members, and the array
      whose only element is undefined. */
  lemma {:induction false} TextIsExact(a: Json, b: Json)
    requires WellFormed(a) && WellFormed(b)
    ensures Render(a) == Render(b) <==> Same(a, b)
  {
    if Same(a, b) { SameGivesText(a, b); }
    if Render(a) == Render(b) { TextGivesSame(a, b); }
  }

  /** That array is the one exception: the texts agree and the values do not. */
  lemma {:induction false} UndefinedElementVanishes()
    ensures Render(Arr([Undefined])) == Render(Arr([])) == [OPEN_LIST, CLOSE_LIST]
  {
    ArrText([Undefined]);
    ArrText([]);
    assert ItemTexts([Undefined]) == [[]];
  }
}
