/** The IPv6 half of the address classifier: every text form of section 2.2 of RFC 4291 reads back as its groups, and
an embedded IPv4 address decides the verdict. */
module EgressV6 {
  import opened Common
  import opened PublicEgress
  import opened EgressV4

  // ----- the text forms -----

  predicate HexAnyCase(c: char) {
    IsHex(c) || 'A' <= c <= 'F'
  }

  /** One to four hexadecimal digits of either case. */
  predicate Field(t: Text) {
    1 <= |t| <= 4 && forall i :: 0 <= i < |t| ==> HexAnyCase(t[i])
  }

  function FieldValue(t: Text): int {
    NumeralValue(ToLower(t), 16)
  }

  /** Fields, or fields around `::`, and perhaps a dotted IPv4 address in the last two places. */
  datatype Form = Form(head: seq<Text>, gap: bool, tail: seq<Text>, dotted: Option<Octets>)

  function Size(f: Form): nat {
    |f.head| + |f.tail| + if f.dotted.Some? then 2 else 0
  }

  predicate ValidForm(f: Form) {
    && (forall i :: 0 <= i < |f.head| ==> Field(f.head[i]))
    && (forall i :: 0 <= i < |f.tail| ==> Field(f.tail[i]))
    && if f.gap then Size(f) <= 7 else Size(f) == 8 && f.tail == []
  }

  function Colons(ts: seq<Text>): Text {
    if ts == [] then [] else if |ts| == 1 then ts[0] else ts[0] + [':'] + Colons(ts[1..])
  }

  function Dots(f: Form): seq<Text> {
    if f.dotted.Some? then [V4Text(f.dotted.value)] else []
  }

  function Write(f: Form): Text {
    if f.gap then Colons(f.head) + [':', ':'] + Colons(f.tail + Dots(f)) else Colons(f.head + Dots(f))
  }

  function Values(ts: seq<Text>): seq<int> {
    seq(|ts|, i requires 0 <= i < |ts| => FieldValue(ts[i]))
  }

  function Zeros(n: nat): seq<int> {
    seq(n, _ => 0)
  }

  function DottedValues(f: Form): seq<int> {
    if f.dotted.Some?
    then [f.dotted.value[0] * 256 + f.dotted.value[1], f.dotted.value[2] * 256 + f.dotted.value[3]] else []
  }

  /** The groups a form stands for. */
  function Meaning(f: Form): seq<int>
    requires ValidForm(f)
  {
    Values(f.head) + Zeros(8 - Size(f)) + Values(f.tail) + DottedValues(f)
  }

  // ----- reading: lower case -----

  predicate LowField(t: Text) {
    t != [] && forall i :: 0 <= i < |t| ==> IsHex(t[i])
  }

  predicate AllLow(ts: seq<Text>) {
    forall i :: 0 <= i < |ts| ==> LowField(ts[i])
  }

  function LowAll(ts: seq<Text>): seq<Text> {
    seq(|ts|, i requires 0 <= i < |ts| => ToLower(ts[i]))
  }

  lemma {:induction false} ToLowerConcat(s: Text, t: Text)
    ensures ToLower(s + t) == ToLower(s) + ToLower(t)
  {
  }

  lemma {:induction false} ToLowerColons(ts: seq<Text>)
    ensures ToLower(Colons(ts)) == Colons(LowAll(ts))
  {
    if |ts| > 1 {
      ToLowerColons(ts[1..]);
      ToLowerConcat(ts[0] + [':'], Colons(ts[1..]));
      ToLowerConcat(ts[0], [':']);
      assert LowAll(ts)[1..] == LowAll(ts[1..]);
      assert ToLower([':']) == [':'];
    } else if |ts| == 1 {
      assert LowAll(ts) == [ToLower(ts[0])];
    }
  }

  lemma {:induction false} FieldLow(t: Text)
    requires Field(t)
    ensures LowField(ToLower(t)) && |ToLower(t)| <= 4
  {
  }

  lemma {:induction false} V4TextLow(o: Octets)
    ensures ToLower(V4Text(o)) == V4Text(o)
    ensures forall i :: 0 <= i < |V4Text(o)| ==> IsDigit(V4Text(o)[i]) || V4Text(o)[i] == '.'
  {
    NumeralDecimal(o[0]);
    NumeralDecimal(o[1]);
    NumeralDecimal(o[2]);
    NumeralDecimal(o[3]);
  }

  function LowForm(f: Form): Form {
    f.(head := LowAll(f.head), tail := LowAll(f.tail))
  }

  lemma {:induction false} WriteLow(f: Form)
    ensures ToLower(Write(f)) == Write(LowForm(f))
  {
    var dots := Dots(f);
    if f.dotted.Some? { V4TextLow(f.dotted.value); }
    assert LowAll(dots) == dots;
    ToLowerColons(f.head);
    assert LowAll(f.tail + dots) == LowAll(f.tail) + dots;
    assert LowAll(f.head + dots) == LowAll(f.head) + dots;
    ToLowerColons(f.tail + dots);
    ToLowerColons(f.head + dots);
    assert ToLower([':', ':']) == [':', ':'];
    ToLowerConcat(Colons(f.head) + [':', ':'], Colons(f.tail + dots));
    ToLowerConcat(Colons(f.head), [':', ':']);
  }

  // ----- reading: the dotted tail -----

  function Before(ts: seq<Text>): Text {
    if ts == [] then [] else Colons(ts) + [':']
  }

  lemma {:induction false} ColonsSnoc(ts: seq<Text>, t: Text)
    ensures Colons(ts + [t]) == Before(ts) + t
  {
    if ts == [] {
      assert ts + [t] == [t];
    } else {
      ColonsSnoc(ts[1..], t);
      assert (ts + [t])[1..] == ts[1..] + [t];
      assert Colons(ts + [t]) == ts[0] + [':'] + (Before(ts[1..]) + t);
    }
  }

  lemma {:induction false} TailFound(pre: Text, o: Octets)
    requires pre == [] || pre[|pre| - 1] == ':'
    ensures TailStart(pre + V4Text(o)) == |pre|
  {
    SplitV4(o);
    var s := pre + V4Text(o);
    if pre == [] {
      assert s == V4Text(o);
    } else {
      assert s[|pre| - 1] == ':';
      ColonNotDotted(s);
      TailFound(pre[1..], o);
      assert s[1..] == pre[1..] + V4Text(o);
    }
  }

  lemma {:induction false} SplitHolds(s: Text, sep: char, c: char)
    requires c in s && c != sep
    ensures exists i :: 0 <= i < |Split(s, sep)| && c in Split(s, sep)[i]
  {
    var rest := Split(s[1..], sep);
    if s[0] == c {
      assert c in Split(s, sep)[0];
    } else {
      assert s == [s[0]] + s[1..];
      SplitHolds(s[1..], sep, c);
      var i :| 0 <= i < |rest| && c in rest[i];
      if s[0] == sep {
        assert Split(s, sep)[i + 1] == rest[i];
      } else {
        assert i > 0 ==> Split(s, sep)[i] == rest[i];
        assert c in Split(s, sep)[i];
      }
    }
  }

  lemma {:induction false} ColonNotDotted(s: Text)
    requires ':' in s
    ensures !Dotted(s)
  {
    SplitHolds(s, '.', ':');
    var i :| 0 <= i < |Split(s, '.')| && ':' in Split(s, '.')[i];
    var part := Split(s, '.')[i];
    var j :| 0 <= j < |part| && part[j] == ':';
    assert !IsDigit(part[j]);
  }

  lemma {:induction false} TailAbsent(s: Text)
    requires '.' !in s
    ensures TailStart(s) == |s|
  {
    SplitNone(s, '.');
    if s != [] { TailAbsent(s[1..]); }
  }

  // ----- reading: the gap -----

  /** No two colons meet, and none is at an end. */
  predicate Plain(s: Text) {
    && (forall i :: 0 <= i < |s| - 1 ==> s[i] != ':' || s[i + 1] != ':')
    && (s != [] ==> s[0] != ':' && s[|s| - 1] != ':')
  }

  lemma {:induction false} ColonsPlain(ts: seq<Text>)
    requires AllLow(ts)
    ensures Plain(Colons(ts)) && (ts != [] <==> Colons(ts) != [])
    ensures forall i :: 0 <= i < |Colons(ts)| ==> IsHex(Colons(ts)[i]) || Colons(ts)[i] == ':'
  {
    if |ts| > 1 {
      ColonsPlain(ts[1..]);
      assert LowField(ts[0]);
    } else if |ts| == 1 {
      assert LowField(ts[0]);
    }
  }

  lemma {:induction false} NoGap(s: Text)
    requires forall i :: 0 <= i < |s| - 1 ==> s[i] != ':' || s[i + 1] != ':'
    ensures SplitDouble(s) == [s]
  {
    if s != [] {
      NoGap(s[1..]);
      assert [s[0]] + s[1..] == s;
    }
  }

  lemma {:induction false} GapFound(p: Text, r: Text)
    requires forall i :: 0 <= i < |p| - 1 ==> p[i] != ':' || p[i + 1] != ':'
    requires p != [] ==> p[|p| - 1] != ':'
    ensures SplitDouble(p + [':', ':'] + r) == [p] + SplitDouble(r)
  {
    var s := p + [':', ':'] + r;
    if p == [] {
      assert s[2..] == r;
    } else {
      assert s[1..] == p[1..] + [':', ':'] + r;
      GapFound(p[1..], r);
      assert [p[0]] + p[1..] == p;
    }
  }

  // ----- reading: the fields -----

  lemma {:induction false} SplitColons(ts: seq<Text>)
    requires AllLow(ts) && ts != []
    ensures Split(Colons(ts), ':') == ts
  {
    assert LowField(ts[0]);
    if |ts| == 1 {
      SplitNone(ts[0], ':');
    } else {
      SplitColons(ts[1..]);
      SplitFirst(ts[0], ':', Colons(ts[1..]));
    }
  }

  lemma {:induction false} FieldsBack(ts: seq<Text>)
    requires AllLow(ts)
    ensures Fields(Colons(ts)) == ts
  {
    ColonsPlain(ts);
    if ts != [] { SplitColons(ts); }
  }

  lemma {:induction false} HexPrefixAll(t: Text)
    requires forall i :: 0 <= i < |t| ==> IsHex(t[i])
    ensures HexPrefix(t) == t
  {
    if t != [] { HexPrefixAll(t[1..]); }
  }

  lemma {:induction false} ParseLow(t: Text)
    requires LowField(t)
    ensures ParseField(t) == Some(NumeralValue(t, 16))
  {
    HexPrefixAll(t);
  }

  lemma {:induction false} ValueBound(t: Text)
    requires forall i :: 0 <= i < |t| ==> IsHex(t[i])
    ensures 0 <= NumeralValue(t, 16) < Pow2(4 * |t|)
  {
    if t != [] {
      ValueBound(t[..|t| - 1]);
      PowAdd(4, 4 * (|t| - 1));
    }
  }

  function LowValues(ts: seq<Text>): seq<int> {
    seq(|ts|, i requires 0 <= i < |ts| => NumeralValue(ts[i], 16))
  }

  predicate SixteenBit(vs: seq<int>) {
    forall i :: 0 <= i < |vs| ==> 0 <= vs[i] <= 0xffff
  }

  lemma {:induction false} ParseAll(ts: seq<Text>)
    requires |ts| == 8 && AllLow(ts) && SixteenBit(LowValues(ts))
    ensures ParseGroups(ts) == Some(LowValues(ts))
  {
    var out := Parsed(ts);
    forall i | 0 <= i < 8 ensures out[i] == Some(LowValues(ts)[i]) {
      ParseLow(ts[i]);
    }
    assert ParseGroups(ts).Some?;
    assert ParseGroups(ts).value == LowValues(ts);
  }

  /** Without a gap: the eight fields are read one by one. */
  lemma {:induction false} ReadPlain(ts: seq<Text>)
    requires |ts| == 8 && AllLow(ts) && SixteenBit(LowValues(ts))
    ensures SplitDouble(Colons(ts)) == [Colons(ts)]
    ensures Expand([Colons(ts)]) == ts && ParseGroups(ts) == Some(LowValues(ts))
  {
    ColonsPlain(ts);
    NoGap(Colons(ts));
    FieldsBack(ts);
    ParseAll(ts);
  }

  function ZeroFields(n: nat): seq<Text> {
    seq(n, _ => "0")
  }

  lemma {:induction false} ExpandGap(hs: seq<Text>, ts: seq<Text>)
    requires |hs| + |ts| <= 7 && AllLow(hs) && AllLow(ts)
    ensures Expand([Colons(hs), Colons(ts)]) == hs + ZeroFields(8 - |hs| - |ts|) + ts
  {
    FieldsBack(hs);
    FieldsBack(ts);
  }

  lemma {:induction false} FilledValues(hs: seq<Text>, n: nat, ts: seq<Text>)
    requires AllLow(hs) && AllLow(ts) && SixteenBit(LowValues(hs)) && SixteenBit(LowValues(ts))
    ensures var all := hs + ZeroFields(n) + ts;
            && AllLow(all) && LowValues(all) == LowValues(hs) + Zeros(n) + LowValues(ts) && SixteenBit(LowValues(all))
  {
    var all := hs + ZeroFields(n) + ts;
    assert NumeralValue("0", 16) == 0 by { assert "0"[..0] == []; }
    assert LowField("0");
    assert forall i :: 0 <= i < n ==> ZeroFields(n)[i] == "0";
    var vs := LowValues(hs) + Zeros(n) + LowValues(ts);
    assert |LowValues(all)| == |vs|;
    forall i | 0 <= i < |all| ensures LowField(all[i]) && NumeralValue(all[i], 16) == vs[i] && 0 <= vs[i] <= 0xffff {
      if i < |hs| {
        assert all[i] == hs[i] && vs[i] == LowValues(hs)[i];
      } else if i < |hs| + n {
        assert all[i] == "0" && vs[i] == 0;
      } else {
        assert all[i] == ts[i - |hs| - n] && vs[i] == LowValues(ts)[i - |hs| - n];
      }
    }
    assert LowValues(all) == vs;
  }

  lemma {:induction false} GapSplit(hs: seq<Text>, ts: seq<Text>)
    requires AllLow(hs) && AllLow(ts)
    ensures SplitDouble(Colons(hs) + [':', ':'] + Colons(ts)) == [Colons(hs), Colons(ts)]
  {
    ColonsPlain(hs);
    ColonsPlain(ts);
    GapFound(Colons(hs), Colons(ts));
    NoGap(Colons(ts));
  }

  /** With a gap: the missing fields are zeros. */
  lemma {:induction false} ReadGap(hs: seq<Text>, ts: seq<Text>)
    requires |hs| + |ts| <= 7 && AllLow(hs) && AllLow(ts) && SixteenBit(LowValues(hs)) && SixteenBit(LowValues(ts))
    ensures var groups := Expand([Colons(hs), Colons(ts)]);
            |groups| == 8 && ParseGroups(groups) == Some(LowValues(hs) + Zeros(8 - |hs| - |ts|) + LowValues(ts))
  {
    var all := hs + ZeroFields(8 - |hs| - |ts|) + ts;
    ExpandGap(hs, ts);
    FilledValues(hs, 8 - |hs| - |ts|, ts);
    assert |all| == 8;
    ParseAll(all);
  }

  // ----- the round trip -----

  /** The hexadecimal fields that replace a dotted tail. */
  function HexDots(f: Form): seq<Text> {
    if f.dotted.Some?
    then [Numeral(Number(f.dotted.value) / 0x1_0000, 16), Numeral(Number(f.dotted.value) % 0x1_0000, 16)] else []
  }

  function WriteHex(f: Form): Text {
    if f.gap then Colons(f.head) + [':', ':'] + Colons(f.tail + HexDots(f)) else Colons(f.head + HexDots(f))
  }

  lemma {:induction false} ColonsTwo(ts: seq<Text>, a: Text, b: Text)
    ensures Colons(ts + [a, b]) == Before(ts) + a + [':'] + b
  {
    ColonsSnoc(ts + [a], b);
    ColonsSnoc(ts, a);
    assert ts + [a, b] == ts + [a] + [b];
  }

  /** What stands before the dotted tail. */
  function Prefix(f: Form): Text {
    if f.gap then Colons(f.head) + [':', ':'] + Before(f.tail) else Before(f.head)
  }

  lemma {:induction false} ReplaceAt(pre: Text, o: Octets)
    requires pre == [] || pre[|pre| - 1] == ':'
    ensures ReplaceTail(pre + V4Text(o)) == pre + Numeral(Number(o) / 0x1_0000, 16) + ":"
              + Numeral(Number(o) % 0x1_0000, 16)
  {
    var s := pre + V4Text(o);
    TailFound(pre, o);
    V4ToIntIsNumber(o);
    V4TextNotEmpty(o);
    assert s[|pre|..] == V4Text(o) && s[..|pre|] == pre;
  }

  lemma {:induction false} WrittenTail(f: Form)
    requires f.dotted.Some?
    ensures Write(f) == Prefix(f) + V4Text(f.dotted.value)
  {
    ColonsSnoc(if f.gap then f.tail else f.head, V4Text(f.dotted.value));
  }

  lemma {:induction false} WrittenHexTail(f: Form)
    requires f.dotted.Some?
    ensures WriteHex(f) == Prefix(f) + HexDots(f)[0] + [':'] + HexDots(f)[1]
  {
    ColonsTwo(if f.gap then f.tail else f.head, HexDots(f)[0], HexDots(f)[1]);
  }

  lemma {:induction false} TailReplaced(f: Form)
    requires f.dotted.Some?
    ensures ReplaceTail(Write(f)) == WriteHex(f)
  {
    WrittenTail(f);
    WrittenHexTail(f);
    ReplaceAt(Prefix(f), f.dotted.value);
  }

  lemma {:induction false} V4TextNotEmpty(o: Octets)
    ensures V4Text(o) != []
  {
  }

  lemma {:induction false} LowForms(ts: seq<Text>)
    requires forall i :: 0 <= i < |ts| ==> Field(ts[i])
    ensures AllLow(LowAll(ts)) && LowValues(LowAll(ts)) == Values(ts) && SixteenBit(Values(ts))
  {
    forall i | 0 <= i < |ts| ensures LowField(LowAll(ts)[i]) && 0 <= FieldValue(ts[i]) <= 0xffff {
      FieldLow(ts[i]);
      FieldRange(ts[i]);
    }
    assert LowValues(LowAll(ts)) == Values(ts);
  }

  lemma {:induction false} FieldRange(t: Text)
    requires Field(t)
    ensures 0 <= FieldValue(t) <= 0xffff
  {
    FieldLow(t);
    ValueBound(ToLower(t));
    Powers();
    assert Pow2(12) == 0x1000 by { PowAdd(4, 8); }
  }

  lemma {:induction false} HexDotsLow(f: Form)
    ensures AllLow(HexDots(f)) && LowValues(HexDots(f)) == DottedValues(f) && SixteenBit(DottedValues(f))
  {
    if f.dotted.Some? {
      var n := Number(f.dotted.value);
      NumeralHex(n / 0x1_0000, 16);
      NumeralHex(n % 0x1_0000, 16);
      NumeralRoundTrip(n / 0x1_0000, 16);
      NumeralRoundTrip(n % 0x1_0000, 16);
      NumberHalves(f.dotted.value);
      assert LowValues(HexDots(f)) == [n / 0x1_0000, n % 0x1_0000];
    }
  }

  lemma {:induction false} NumberHalves(o: Octets)
    ensures Number(o) / 0x1_0000 == o[0] * 256 + o[1] && Number(o) % 0x1_0000 == o[2] * 256 + o[3]
  {
  }

  lemma {:induction false} LowJoined(ts: seq<Text>, us: seq<Text>)
    requires AllLow(ts) && AllLow(us) && SixteenBit(LowValues(ts)) && SixteenBit(LowValues(us))
    ensures AllLow(ts + us) && LowValues(ts + us) == LowValues(ts) + LowValues(us) && SixteenBit(LowValues(ts + us))
  {
    var vs := LowValues(ts) + LowValues(us);
    forall i | 0 <= i < |ts + us|
      ensures LowField((ts + us)[i]) && LowValues(ts + us)[i] == vs[i] && 0 <= vs[i] <= 0xffff
    {
      if i < |ts| {
        assert vs[i] == LowValues(ts)[i];
      } else {
        assert vs[i] == LowValues(us)[i - |ts|];
      }
    }
    assert LowValues(ts + us) == vs;
  }

  lemma {:induction false} ColonsClean(ts: seq<Text>, c: char)
    requires c != ':' && forall i :: 0 <= i < |ts| ==> c !in ts[i]
    ensures c !in Colons(ts)
  {
    if |ts| > 1 { ColonsClean(ts[1..], c); }
  }

  lemma {:induction false} LowClean(ts: seq<Text>, c: char)
    requires AllLow(ts) && (c == '.' || c == '%')
    ensures c !in Colons(ts)
  {
    forall i | 0 <= i < |ts| ensures c !in ts[i] {
      assert LowField(ts[i]);
    }
    ColonsClean(ts, c);
  }

  lemma {:induction false} NothingReplaced(f: Form)
    requires f.dotted.None? && AllLow(f.head) && AllLow(f.tail)
    ensures ReplaceTail(Write(f)) == WriteHex(f)
  {
    LowClean(f.head, '.');
    LowClean(f.tail, '.');
    assert f.tail + Dots(f) == f.tail == f.tail + HexDots(f) && f.head + Dots(f) == f.head == f.head + HexDots(f);
    TailAbsent(Write(f));
  }

  lemma {:induction false} NoZone(f: Form)
    requires AllLow(f.head) && AllLow(f.tail)
    ensures '%' !in Write(f)
  {
    forall i | 0 <= i < |Dots(f)| ensures '%' !in Dots(f)[i] {
      V4TextLow(f.dotted.value);
    }
    forall ts | ts == f.head || ts == f.tail ensures '%' !in Colons(ts + Dots(f)) && '%' !in Colons(ts) {
      LowClean(ts, '%');
      forall i | 0 <= i < |ts + Dots(f)| ensures '%' !in (ts + Dots(f))[i] {
        assert i < |ts| ==> LowField(ts[i]);
      }
      ColonsClean(ts + Dots(f), '%');
    }
  }

  ghost predicate LowerForm(f: Form) {
    && AllLow(f.head) && AllLow(f.tail) && SixteenBit(LowValues(f.head)) && SixteenBit(LowValues(f.tail))
    && if f.gap then Size(f) <= 7 else Size(f) == 8 && f.tail == []
  }

  function LowMeaning(f: Form): seq<int>
    requires Size(f) <= 8
  {
    LowValues(f.head) + Zeros(8 - Size(f)) + LowValues(f.tail) + DottedValues(f)
  }

  lemma {:induction false} ReadsHexGap(f: Form)
    requires LowerForm(f) && f.gap
    ensures SplitDouble(WriteHex(f)) == [Colons(f.head), Colons(f.tail + HexDots(f))]
    ensures var groups := Expand([Colons(f.head), Colons(f.tail + HexDots(f))]);
            |groups| == 8 && ParseGroups(groups) == Some(LowMeaning(f))
  {
    HexDotsLow(f);
    LowJoined(f.tail, HexDots(f));
    GapSplit(f.head, f.tail + HexDots(f));
    ReadGap(f.head, f.tail + HexDots(f));
    assert LowMeaning(f) == LowValues(f.head) + Zeros(8 - Size(f)) + (LowValues(f.tail) + DottedValues(f));
  }

  lemma {:induction false} ReadsHexPlain(f: Form)
    requires LowerForm(f) && !f.gap
    ensures SplitDouble(WriteHex(f)) == [WriteHex(f)]
    ensures var groups := Expand([WriteHex(f)]);
            |groups| == 8 && ParseGroups(groups) == Some(LowMeaning(f))
  {
    HexDotsLow(f);
    LowJoined(f.head, HexDots(f));
    ReadPlain(f.head + HexDots(f));
    assert LowMeaning(f) == LowValues(f.head) + DottedValues(f);
  }

  lemma {:induction false} Halves(f: Form) returns (halves: seq<Text>)
    requires LowerForm(f)
    ensures 1 <= |halves| <= 2 && SplitDouble(WriteHex(f)) == halves
    ensures |Expand(halves)| == 8 && ParseGroups(Expand(halves)) == Some(LowMeaning(f))
  {
    if f.gap {
      ReadsHexGap(f);
      halves := [Colons(f.head), Colons(f.tail + HexDots(f))];
    } else {
      ReadsHexPlain(f);
      halves := [WriteHex(f)];
    }
  }

  lemma {:induction false} ReadsLow(f: Form, ip: Text)
    requires LowerForm(f) && ToLower(ip) == Write(f)
    ensures V6Groups(ip) == Some(LowMeaning(f))
  {
    NoZone(f);
    if f.dotted.Some? { TailReplaced(f); } else { NothingReplaced(f); }
    var halves := Halves(f);
  }

  lemma {:induction false} MeaningLow(f: Form)
    requires ValidForm(f)
    ensures LowerForm(LowForm(f)) && LowMeaning(LowForm(f)) == Meaning(f)
    ensures |Meaning(f)| == 8 && SixteenBit(Meaning(f))
  {
    LowForms(f.head);
    LowForms(f.tail);
    HexDotsLow(f);
    var m := Meaning(f);
    var h, z, t := |f.head|, 8 - Size(f), |f.tail|;
    assert |DottedValues(f)| == 8 - h - z - t;
    forall i | 0 <= i < 8 ensures 0 <= m[i] <= 0xffff {
      if i < h { assert m[i] == Values(f.head)[i]; }
      else if i < h + z { assert m[i] == 0; }
      else if i < h + z + t { assert m[i] == Values(f.tail)[i - h - z]; }
      else { assert m[i] == DottedValues(f)[i - h - z - t]; }
    }
  }

  /** Every text form of eight groups reads back as those groups: any spelling of the fields, `::` for any run of
      zeros, and a dotted IPv4 tail. */
  lemma {:induction false} ReadsBack(f: Form)
    requires ValidForm(f)
    ensures |Meaning(f)| == 8 && SixteenBit(Meaning(f))
    ensures V6Groups(Write(f)) == Some(Meaning(f))
  {
    MeaningLow(f);
    WriteLow(f);
    ReadsLow(LowForm(f), Write(f));
  }

  // ----- every address has these forms -----

  function Spelled(g: seq<int>): seq<Text>
    requires SixteenBit(g)
  {
    seq(|g|, i requires 0 <= i < |g| => Numeral(g[i], 16))
  }

  lemma {:induction false} NumeralShort(n: nat, k: nat)
    requires k > 0 && n < Pow2(4 * k)
    ensures |Numeral(n, 16)| <= k
  {
    if n >= 16 {
      PowAdd(4, 4 * (k - 1));
      assert Pow2(4) == 16;
      assert k > 1;
      NumeralShort(n / 16, k - 1);
    }
  }

  lemma {:induction false} SpelledFields(g: seq<int>)
    requires SixteenBit(g)
    ensures forall i :: 0 <= i < |g| ==> Field(Spelled(g)[i])
    ensures Values(Spelled(g)) == g
  {
    forall i | 0 <= i < |g| ensures Field(Spelled(g)[i]) && FieldValue(Spelled(g)[i]) == g[i] {
      Powers();
      NumeralShort(g[i], 4);
      NumeralHex(g[i], 16);
      NumeralRoundTrip(g[i], 16);
      LowIsLow(Numeral(g[i], 16));
    }
    assert Values(Spelled(g)) == g;
  }

  lemma {:induction false} LowIsLow(t: Text)
    requires forall i :: 0 <= i < |t| ==> IsHex(t[i])
    ensures ToLower(t) == t
  {
  }

  /** For any eight groups and any run of zeros in them, the compressed text reads back as the groups. */
  lemma {:induction false} AnyRunReadsBack(g: Groups, i: nat, j: nat)
    requires i < j <= 8 && ZeroFrom(g, i, j)
    ensures V6Groups(Write(Form(Spelled(g[..i]), true, Spelled(g[j..]), None))) == Some(g)
  {
    SpelledFields(g[..i]);
    SpelledFields(g[j..]);
    var f := Form(Spelled(g[..i]), true, Spelled(g[j..]), None);
    ReadsBack(f);
    assert Meaning(f) == g;
  }

  // ----- the verdict -----

  lemma {:induction false} GlobalUnicast(n: nat)
    requires n <= 0xffff
    ensures And(n, 0xe000) == 0x2000 <==> 0x2000 <= n < 0x4000
  {
    Powers();
    AndHighBits(n, 16, 13);
  }

  function LastOctets(g: Groups): Octets {
    [g[6] / 256, g[6] % 256, g[7] / 256, g[7] % 256]
  }

  /** Mapped, compatible and NAT64 addresses. */
  predicate Embeds(g: Groups) {
    || (ZeroFrom(g, 0, 5) && (g[5] == 0xffff || g[5] == 0))
    || (g[0] == 0x64 && g[1] == 0xff9b && ZeroFrom(g, 2, 6))
  }

  predicate Ordinary(g: Groups) {
    && 0x2000 <= g[0] < 0x4000 && g[0] != 0x2002
    && !(g[0] == 0x2001 && (g[1] < 0x0200 || g[1] == 0x0db8))
    && !(g[0] == 0x3fff && g[1] < 0x1000)
  }

  /** The verdict is the embedded address's where there is one, and otherwise that of the allowlist. The two special
      cases `::` and `::1` agree with the embedded verdict. */
  lemma {:induction false} V6Verdict(g: Groups)
    ensures PublicGroups(g) <==> if Embeds(g) then !Special(LastOctets(g)) else Ordinary(g)
  {
    V4Verdict(LastOctets(g));
    GlobalUnicast(g[0]);
    if ZeroFrom(g, 0, 7) {
      assert LastOctets(g)[0] == 0;
    }
  }

  lemma {:induction false} DottedLast(f: Form, o: Octets)
    requires ValidForm(f) && f.dotted == Some(o)
    ensures |Meaning(f)| == 8 && Meaning(f)[6] == o[0] * 256 + o[1] && Meaning(f)[7] == o[2] * 256 + o[3]
  {
    assert Meaning(f) == Values(f.head) + Zeros(8 - Size(f)) + Values(f.tail) + DottedValues(f);
    assert |DottedValues(f)| == 2;
  }

  lemma {:induction false} OctetsBack(g: Groups, o: Octets)
    requires g[6] == o[0] * 256 + o[1] && g[7] == o[2] * 256 + o[3]
    ensures LastOctets(g) == o
  {
  }

  /** An IPv4 address written inside a mapped, compatible or NAT64 address gets its own verdict. */
  lemma {:induction false} EmbeddedVerdict(f: Form, o: Octets, g: Groups)
    requires ValidForm(f) && f.dotted == Some(o) && g == Meaning(f) && Embeds(g)
    ensures IsPublicV6(Write(f)) <==> IsPublicV4(V4Text(o))
  {
    ReadsBack(f);
    DottedLast(f, o);
    OctetsBack(g, o);
    V6Verdict(g);
    V4Verdict(o);
  }
}
