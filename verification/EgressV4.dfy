/** The IPv4 half of the address classifier: the bitmask test is interval membership. */
module EgressV4 {
  import opened Common
  import opened PublicEgress

  // ----- bitwise and with a mask of high bits -----

  lemma {:induction false} DivModUnique(n: int, d: int, q: int, r: int)
    requires d > 0 && n == q * d + r && 0 <= r < d
    ensures n / d == q && n % d == r
  {
    var e := n / d - q;
    assert e * d == (n / d) * d - q * d;
    assert e > 0 ==> e * d >= d;
    assert e < 0 ==> e * d <= -d;
  }

  lemma {:induction false} ModDouble(n: nat, p: nat)
    requires p > 0
    ensures n % (2 * p) == 2 * (n / 2 % p) + n % 2
  {
    var q, r := n / 2 / p, n / 2 % p;
    assert q * (2 * p) == 2 * (q * p);
    DivModUnique(n, 2 * p, q, 2 * r + n % 2);
  }

  lemma {:induction false} AndOnes(n: nat, w: nat)
    requires n < Pow2(w)
    ensures And(n, Pow2(w) - 1) == n
  {
    if n != 0 {
      AndOnes(n / 2, w - 1);
    }
  }

  lemma {:induction false} PowersGrow(k: nat, w: nat)
    requires k <= w
    ensures Pow2(k) <= Pow2(w)
  {
    if k < w { PowersGrow(k, w - 1); }
  }

  /** Masking off the low `k` bits subtracts the remainder. */
  lemma {:induction false} AndHighBits(n: nat, w: nat, k: nat)
    requires k <= w && n < Pow2(w)
    ensures Pow2(w) >= Pow2(k)
    ensures And(n, Pow2(w) - Pow2(k)) == n - n % Pow2(k)
  {
    PowersGrow(k, w);
    if k == 0 {
      AndOnes(n, w);
    } else {
      AndHighBits(n / 2, w - 1, k - 1);
      AndDouble(n, Pow2(w - 1) - Pow2(k - 1));
      ModDouble(n, Pow2(k - 1));
    }
  }

  lemma {:induction false} AndDouble(n: nat, m: nat)
    ensures And(n, 2 * m) == 2 * And(n / 2, m)
  {
  }

  lemma {:induction false} Powers()
    ensures Pow2(4) == 16 && Pow2(8) == 256 && Pow2(13) == 0x2000 && Pow2(16) == 0x1_0000 && Pow2(17) == 0x2_0000
    ensures Pow2(20) == 0x10_0000 && Pow2(22) == 0x40_0000 && Pow2(24) == 0x100_0000
    ensures Pow2(28) == 0x1000_0000 && Pow2(32) == 0x1_0000_0000
  {
    assert Pow2(8) == 256;
    PowAdd(8, 8);
    PowAdd(8, 16);
    PowAdd(8, 24);
    PowAdd(1, 16);
    PowAdd(4, 16);
    PowAdd(6, 16);
    PowAdd(4, 24);
    PowAdd(5, 8);
  }

  lemma {:induction false} PowAdd(j: nat, k: nat)
    ensures Pow2(j + k) == Pow2(j) * Pow2(k)
  {
    if j > 0 {
      PowAdd(j - 1, k);
      assert Pow2(j) * Pow2(k) == 2 * (Pow2(j - 1) * Pow2(k));
    }
  }

  predicate Listed(bits: nat) {
    bits in {4, 8, 10, 12, 15, 16, 24}
  }

  lemma {:induction false} MaskIs(bits: nat)
    requires Listed(bits)
    ensures Pow2(32 - bits) < TWO_31 && Mask(bits) == TWO_32 - Pow2(32 - bits)
  {
    Powers();
  }

  lemma {:induction false} DivEqualModEqual(n: nat, m: nat, p: nat)
    requires p > 0
    ensures n - n % p == m - m % p <==> n / p == m / p
  {
    Quotient(n, p);
    Quotient(m, p);
    MulCancel(n / p, m / p, p);
  }

  lemma {:induction false} Quotient(n: nat, p: nat)
    requires p > 0
    ensures n - n % p == (n / p) * p
  {
  }

  lemma {:induction false} MulPositive(e: int, p: int)
    requires e > 0 && p > 0
    ensures e * p >= p
  {
  }

  lemma {:induction false} MulCancel(a: int, b: int, p: int)
    requires p > 0
    ensures a * p == b * p <==> a == b
  {
    if a > b {
      MulPositive(a - b, p);
      assert (a - b) * p == a * p - b * p;
    } else if a < b {
      MulPositive(b - a, p);
      assert (b - a) * p == b * p - a * p;
    }
  }

  /** The source's bitmask test compares high parts. */
  lemma {:induction false} MaskTest(n: nat, b: Block)
    requires n < TWO_32 && Listed(b.bits)
    ensures InBlock(n, b) <==> n / Pow2(32 - b.bits) == V4ToInt(V4Text(b.base)) / Pow2(32 - b.bits)
  {
    Powers();
    MaskIs(b.bits);
    AndHighBits(n, 32, 32 - b.bits);
    AndHighBits(V4ToInt(V4Text(b.base)), 32, 32 - b.bits);
    DivEqualModEqual(n, V4ToInt(V4Text(b.base)), Pow2(32 - b.bits));
  }

  // ----- dotted text -----

  lemma {:induction false} NumeralHex(n: nat, radix: nat)
    requires 2 <= radix <= 16
    ensures Numeral(n, radix) != [] && forall i :: 0 <= i < |Numeral(n, radix)| ==> IsHex(Numeral(n, radix)[i])
  {
    if n >= radix { NumeralHex(n / radix, radix); }
  }

  lemma {:induction false} NumeralDecimal(n: nat)
    ensures Numeral(n, 10) != [] && forall i :: 0 <= i < |Numeral(n, 10)| ==> IsDigit(Numeral(n, 10)[i])
  {
    if n >= 10 { NumeralDecimal(n / 10); }
  }

  /** Writing and reading a number in one radix is the identity. */
  lemma {:induction false} NumeralRoundTrip(n: nat, radix: nat)
    requires 2 <= radix <= 16
    ensures NumeralValue(Numeral(n, radix), radix) == n
  {
    var s := Numeral(n, radix);
    if n >= radix {
      NumeralRoundTrip(n / radix, radix);
      assert s[..|s| - 1] == Numeral(n / radix, radix);
      Quotient(n, radix);
    } else {
      assert s[..0] == [];
    }
  }

  lemma {:induction false} SplitNone(s: Text, sep: char)
    requires sep !in s
    ensures Split(s, sep) == [s]
  {
    if s != [] {
      SplitNone(s[1..], sep);
      assert [s[0]] + s[1..] == s;
    }
  }

  lemma {:induction false} SplitFirst(p: Text, sep: char, rest: Text)
    requires sep !in p
    ensures Split(p + [sep] + rest, sep) == [p] + Split(rest, sep)
  {
    var s := p + [sep] + rest;
    if p == [] {
      assert s[1..] == rest;
    } else {
      SplitFirst(p[1..], sep, rest);
      assert s[1..] == p[1..] + [sep] + rest;
      assert [p[0]] + p[1..] == p;
    }
  }

  function OctetTexts(o: Octets): seq<Text> {
    [Numeral(o[0], 10), Numeral(o[1], 10), Numeral(o[2], 10), Numeral(o[3], 10)]
  }

  lemma {:induction false} SplitDot(p: Text, rest: Text)
    requires forall i :: 0 <= i < |p| ==> IsDigit(p[i])
    ensures Split(Dot(p, rest), '.') == [p] + Split(rest, '.')
  {
    SplitFirst(p, '.', rest);
  }

  lemma {:induction false} SplitV4(o: Octets)
    ensures Split(V4Text(o), '.') == OctetTexts(o)
    ensures Dotted(V4Text(o))
  {
    var d0, d1, d2, d3 := Numeral(o[0], 10), Numeral(o[1], 10), Numeral(o[2], 10), Numeral(o[3], 10);
    NumeralDecimal(o[0]);
    NumeralDecimal(o[1]);
    NumeralDecimal(o[2]);
    NumeralDecimal(o[3]);
    SplitNone(d3, '.');
    SplitDot(d2, d3);
    SplitDot(d1, Dot(d2, d3));
    SplitDot(d0, Dot(d1, Dot(d2, d3)));
  }

  function Number(o: Octets): nat {
    ((o[0] * 256 + o[1]) * 256 + o[2]) * 256 + o[3]
  }

  function Shifted(acc: int, d: int): int {
    ToInt32(acc * 256) + d
  }

  lemma {:induction false} ShiftSmall(acc: int, d: int)
    requires 0 <= acc < 0x80_0000 && 0 <= d < 256
    ensures Shifted(acc, d) == acc * 256 + d
  {
  }

  lemma {:induction false} ShiftLast(acc: int, d: int)
    requires 0 <= acc < 0x100_0000 && 0 <= d < 256
    ensures ToUint32(Shifted(acc, d)) == acc * 256 + d
  {
  }

  lemma {:induction false} ShiftFour(o: Octets)
    ensures ToUint32(Shifted(Shifted(Shifted(Shifted(0, o[0]), o[1]), o[2]), o[3])) == Number(o)
  {
    ShiftSmall(0, o[0]);
    ShiftSmall(o[0], o[1]);
    ShiftSmall(o[0] * 256 + o[1], o[2]);
    ShiftLast((o[0] * 256 + o[1]) * 256 + o[2], o[3]);
  }

  lemma {:induction false} FoldFour(ts: seq<Text>, v: seq<int>)
    requires |ts| == |v| == 4 && forall i :: 0 <= i < 4 ==> NumeralValue(ts[i], 10) == v[i]
    ensures Fold(ts, 0) == Shifted(Shifted(Shifted(Shifted(0, v[0]), v[1]), v[2]), v[3])
  {
    var a1 := Shifted(0, v[0]);
    assert Fold(ts, 0) == Fold(ts[1..], a1);
    var a2 := Shifted(a1, v[1]);
    assert Fold(ts[1..], a1) == Fold(ts[1..][1..], a2);
    var a3 := Shifted(a2, v[2]);
    var last := ts[1..][1..][1..];
    assert Fold(ts[1..][1..], a2) == Fold(last, a3);
    assert Fold(last, a3) == Fold(last[1..], Shifted(a3, v[3])) && last[1..] == [];
  }

  /** The signed 32-bit shifts wrap and come back: the address reads as the number it stands for. */
  lemma {:induction false} V4ToIntIsNumber(o: Octets)
    ensures V4ToInt(V4Text(o)) == Number(o) < TWO_32
  {
    SplitV4(o);
    var ts := OctetTexts(o);
    forall i | 0 <= i < 4 ensures NumeralValue(ts[i], 10) == o[i] {
      NumeralRoundTrip(o[i], 10);
    }
    FoldFour(ts, o);
    ShiftFour(o);
  }

  // ----- the table -----

  lemma {:induction false} TableAligned(i: nat)
    requires i < BLOCKS
    ensures Listed(Blocked(i).bits) && Number(Blocked(i).base) % Pow2(32 - Blocked(i).bits) == 0
  {
    Powers();
  }

  lemma {:induction false} AlignedInterval(n: nat, base: nat, p: nat)
    requires p > 0 && base % p == 0
    ensures n / p == base / p <==> base <= n < base + p
  {
    Quotient(n, p);
    Quotient(base, p);
    var d := n / p - base / p;
    assert d * p == (n / p) * p - (base / p) * p;
    assert d > 0 ==> d * p >= p;
    assert d < 0 ==> d * p + p <= 0;
  }

  predicate Within(o: Octets, b: Block)
    requires b.bits <= 32
  {
    Number(b.base) <= Number(o) < Number(b.base) + Pow2(32 - b.bits)
  }

  /** Each listed block blocks exactly the addresses from its base on, as many as its free bits allow. */
  lemma {:induction false} BlockIsInterval(i: nat, o: Octets)
    requires i < BLOCKS
    ensures Blocked(i).bits <= 32
    ensures InBlock(V4ToInt(V4Text(o)), Blocked(i)) <==> Within(o, Blocked(i))
  {
    TableAligned(i);
    var b := Blocked(i);
    V4ToIntIsNumber(o);
    V4ToIntIsNumber(b.base);
    MaskTest(Number(o), b);
    AlignedInterval(Number(o), Number(b.base), Pow2(32 - b.bits));
  }

  /** The special-purpose addresses, octet by octet. */
  predicate Special(o: Octets) {
    || o[0] == 0 || o[0] == 10 || o[0] == 127 || o[0] >= 224
    || (o[0] == 100 && 64 <= o[1] < 128)
    || (o[0] == 169 && o[1] == 254)
    || (o[0] == 172 && 16 <= o[1] < 32)
    || (o[0] == 192 && (o[1] == 168 || (o[1] == 0 && (o[2] == 0 || o[2] == 2)) || (o[1] == 88 && o[2] == 99)))
    || (o[0] == 198 && (o[1] == 18 || o[1] == 19 || (o[1] == 51 && o[2] == 100)))
    || (o[0] == 203 && o[1] == 0 && o[2] == 113)
  }

  /** A dotted address is public exactly when it is not special-purpose. */
  lemma {:induction false} V4Verdict(o: Octets)
    ensures IsPublicV4(V4Text(o)) <==> !Special(o)
  {
    var n := V4ToInt(V4Text(o));
    if Special(o) {
      var i := SpecialBlock(o);
      BlockIsInterval(i, o);
      assert InBlock(n, Blocked(i));
    } else {
      forall i | 0 <= i < BLOCKS ensures !InBlock(n, Blocked(i)) {
        BlockIsInterval(i, o);
        OrdinaryOutside(i, o);
      }
    }
  }

  lemma {:induction false} OrdinaryOutside(i: nat, o: Octets)
    requires i < BLOCKS && !Special(o) && Blocked(i).bits <= 32
    ensures !Within(o, Blocked(i))
  {
    Powers();
  }

  lemma {:induction false} SpecialBlock(o: Octets) returns (i: nat)
    requires Special(o)
    ensures i < BLOCKS && Blocked(i).bits <= 32 && Within(o, Blocked(i))
  {
    Powers();
    i := if o[0] == 0 then 0 else if o[0] == 10 then 1 else if o[0] == 100 then 2 else if o[0] == 127 then 3
         else if o[0] == 169 then 4 else if o[0] == 172 then 5
         else if o[0] == 192 then (if o[1] == 168 then 9 else if o[1] == 88 then 8 else if o[2] == 0 then 6 else 7)
         else if o[0] == 198 then (if o[1] == 51 then 11 else 10) else if o[0] == 203 then 12
         else if o[0] < 240 then 13 else 14;
  }
}
