/** The text whose digest names a configuration revision (houseRollout.ts, contentHash): five fields joined by
newlines. The digest itself is not modelled. */
module ContentHash {
  import opened CanonicalJson
  import opened CanonicalProofs

  /** `cadence` is the decimal text of the cadence in seconds. */
  datatype Config = Config(prose: Text, spec: Json, cadence: Text, provider: Text, model: Text)

  function Canonical(c: Config): Text {
    c.prose + [NEWLINE] + Render(c.spec) + [NEWLINE] + c.cadence + [NEWLINE] + c.provider + [NEWLINE] + c.model
  }

  ghost predicate Valid(c: Config) {
    c.spec.Obj? && WellFormed(c.spec) && NumberText(c.cadence)
  }

  predicate OneLine(s: Text) {
    NEWLINE !in s
  }

  ghost predicate SameConfig(c: Config, d: Config) {
    c.prose == d.prose && Same(c.spec, d.spec) && c.cadence == d.cadence && c.provider == d.provider
        && c.model == d.model
  }

  // ----- canonical text is one line -----

  lemma {:induction false} EscapedOneLine(s: Text)
    ensures OneLine(Escaped(s))
  {
    if s != [] {
      EscapedOneLine(s[Width(s)..]);
    }
  }

  lemma {:induction false} JoinOneLine(ps: seq<Text>)
    requires forall i :: 0 <= i < |ps| ==> OneLine(ps[i])
    ensures OneLine(Join(ps))
  {
    if |ps| > 1 {
      JoinOneLine(ps[1..]);
    }
  }

  /** Newlines inside strings are escaped, so the text of a value has none. */
  lemma {:induction false} RenderOneLine(v: Json)
    requires WellFormed(v)
    ensures OneLine(Render(v))
    decreases Height(v)
  {
    match v
    case Str(_) => EscapedOneLine(v.text);
    case Arr(items) =>
      ArrText(items);
      forall i | 0 <= i < |items| ensures OneLine(ItemTexts(items)[i]) {
        ItemLower(items, i);
        RenderOneLine(items[i]);
      }
      JoinOneLine(ItemTexts(items));
    case Obj(ms) =>
      ObjText(ms);
      EntriesAreOk(ms);
      var es := Entries(ms);
      forall i | 0 <= i < |es| ensures OneLine(EntryTexts(es)[i]) {
        EscapedOneLine(es[i].key);
        RenderOneLine(es[i].value);
      }
      JoinOneLine(EntryTexts(es));
    case _ =>
  }

  // ----- reading the fields back -----

  function LastLine(z: Text): Text {
    if z == [] || z[|z| - 1] == NEWLINE then [] else LastLine(z[..|z| - 1]) + [z[|z| - 1]]
  }

  lemma {:induction false} LastLineIs(a: Text, x: Text)
    requires OneLine(x)
    ensures LastLine(a + [NEWLINE] + x) == x
  {
    var z := a + [NEWLINE] + x;
    if x != [] {
      LastLineIs(a, x[..|x| - 1]);
      assert z[..|z| - 1] == a + [NEWLINE] + x[..|x| - 1];
    }
  }

  lemma {:induction false} LinesSplit(a: Text, b: Text, x: Text, y: Text)
    requires OneLine(x) && OneLine(y) && a + [NEWLINE] + x == b + [NEWLINE] + y
    ensures a == b && x == y
  {
    LastLineIs(a, x);
    LastLineIs(b, y);
    assert a == (a + [NEWLINE] + x)[..|a|] && b == (b + [NEWLINE] + y)[..|b|];
  }

  /** On configurations whose provider and model names hold no newline, the joined text identifies the configuration
      up to the order of keys in its spec. */
  lemma {:induction false} CanonicalIsExact(c: Config, d: Config)
    requires Valid(c) && Valid(d)
    requires OneLine(c.provider) && OneLine(c.model) && OneLine(d.provider) && OneLine(d.model)
    ensures Canonical(c) == Canonical(d) <==> SameConfig(c, d)
  {
    TextIsExact(c.spec, d.spec);
    if Canonical(c) == Canonical(d) {
      RenderOneLine(c.spec);
      RenderOneLine(d.spec);
      var c1, d1 := c.prose + [NEWLINE] + Render(c.spec), d.prose + [NEWLINE] + Render(d.spec);
      var c2, d2 := c1 + [NEWLINE] + c.cadence, d1 + [NEWLINE] + d.cadence;
      LinesSplit(c2 + [NEWLINE] + c.provider, d2 + [NEWLINE] + d.provider, c.model, d.model);
      LinesSplit(c2, d2, c.provider, d.provider);
      LinesSplit(c1, d1, c.cadence, d.cadence);
      LinesSplit(c.prose, d.prose, Render(c.spec), Render(d.spec));
    }
  }

  // ----- why the names must be one line -----

  ghost predicate Twin(c: Config, d: Config) {
    d != c && d.prose == c.prose && d.spec == c.spec && d.cadence == c.cadence && Canonical(d) == Canonical(c)
  }

  lemma {:induction false} SplitLine(s: Text) returns (a: Text, b: Text)
    requires !OneLine(s)
    ensures s == a + [NEWLINE] + b
  {
    if s[0] == NEWLINE {
      a, b := [], s[1..];
    } else {
      assert s == [s[0]] + s[1..];
      a, b := SplitLine(s[1..]);
      a := [s[0]] + a;
    }
  }

  function NamesText(c: Config): Text {
    c.provider + [NEWLINE] + c.model
  }

  lemma {:induction false} CanonicalNames(c: Config, d: Config)
    requires d.prose == c.prose && d.spec == c.spec && d.cadence == c.cadence
    ensures Canonical(c) == Canonical(d) <==> NamesText(c) == NamesText(d)
  {
    var p := c.prose + [NEWLINE] + Render(c.spec) + [NEWLINE] + c.cadence + [NEWLINE];
    assert Canonical(c) == p + NamesText(c) && Canonical(d) == p + NamesText(d);
    assert NamesText(c) == Canonical(c)[|p|..] && NamesText(d) == Canonical(d)[|p|..];
  }

  /** A configuration shares its text with one that differs only in the two names exactly when one of its names holds
      a newline. */
  lemma {:induction false} NewlineMakesTwins(c: Config)
    ensures (exists d :: Twin(c, d)) <==> !(OneLine(c.provider) && OneLine(c.model))
  {
    if !OneLine(c.provider) {
      var a, b := SplitLine(c.provider);
      var d := c.(provider := a, model := b + [NEWLINE] + c.model);
      assert NamesText(d) == NamesText(c);
      CanonicalNames(c, d);
      assert Twin(c, d);
    } else if !OneLine(c.model) {
      var a, b := SplitLine(c.model);
      var d := c.(provider := c.provider + [NEWLINE] + a, model := b);
      assert NamesText(d) == NamesText(c);
      CanonicalNames(c, d);
      assert Twin(c, d);
    } else {
      forall d ensures !Twin(c, d) {
        OneLineNames(c, d);
      }
    }
  }

  lemma {:induction false} OneLineNames(c: Config, d: Config)
    requires OneLine(c.provider) && OneLine(c.model)
    ensures !Twin(c, d)
  {
    if d.prose == c.prose && d.spec == c.spec && d.cadence == c.cadence && Canonical(d) == Canonical(c) {
      CanonicalNames(c, d);
      OneNewline(c.provider, c.model, d.provider, d.model);
    }
  }

  lemma {:induction false} OneNewline(a: Text, x: Text, b: Text, y: Text)
    requires OneLine(a) && OneLine(x) && a + [NEWLINE] + x == b + [NEWLINE] + y
    ensures a == b && x == y
  {
    var z := a + [NEWLINE] + x;
    assert forall k :: 0 <= k < |z| && z[k] == NEWLINE ==> k == |a|;
    assert (b + [NEWLINE] + y)[|b|] == NEWLINE;
    assert a == z[..|a|] && b == (b + [NEWLINE] + y)[..|b|];
    assert x == z[|a| + 1..] && y == (b + [NEWLINE] + y)[|b| + 1..];
  }
}
