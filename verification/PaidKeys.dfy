/** Idempotency keys of the credit ledger (paidBrain.ts). */
module PaidKeys {
  import opened Common

  // ----- decimal text -----

  function Digit(d: nat): char
    requires d < 10
  {
    ['0', '1', '2', '3', '4', '5', '6', '7', '8', '9'][d]
  }

  predicate IsDigit(c: char) {
    '0' <= c <= '9'
  }

  function Decimal(n: nat): string {
    if n < 10 then [Digit(n)] else Decimal(n / 10) + [Digit(n % 10)]
  }

  lemma {:induction false} DecimalDigits(n: nat)
    ensures |Decimal(n)| > 0 && forall i :: 0 <= i < |Decimal(n)| ==> IsDigit(Decimal(n)[i])
  {
    if n >= 10 {
      DecimalDigits(n / 10);
    }
  }

  lemma {:induction false} DecimalInjective(m: nat, n: nat)
    requires Decimal(m) == Decimal(n)
    ensures m == n
  {
    var s := Decimal(m);
    if m >= 10 {
      DecimalDigits(m / 10);
      assert s[|s| - 1] == Digit(m % 10);
    }
    if n >= 10 {
      DecimalDigits(n / 10);
      assert s[|s| - 1] == Digit(n % 10);
    }
    if m >= 10 && n >= 10 {
      assert s[..|s| - 1] == Decimal(m / 10) == Decimal(n / 10);
      DecimalInjective(m / 10, n / 10);
    }
  }

  // ----- keys -----

  predicate CycleKeyChar(c: char) {
    'A' <= c <= 'Z' || 'a' <= c <= 'z' || IsDigit(c) || c == '-'
  }

  predicate IsCycleKey(s: string) {
    1 <= |s| <= 64 && forall i :: 0 <= i < |s| ==> CycleKeyChar(s[i])
  }

  function ReserveKeyFor(agentId: int, cycleKey: string): Result<string, ()> {
    if !IsSafeInteger(agentId) || agentId <= 0 || !IsCycleKey(cycleKey) then Err(())
    else Ok("reserve:" + Decimal(agentId) + ":" + cycleKey)
  }

  function ReleaseKeyFor(reserveKey: string): string {
    "release:" + reserveKey
  }

  function DebitKeyFor(reserveKey: string): string {
    "debit:" + reserveKey
  }

  /** The namespace of keys the scheduler writes for paid calls. */
  predicate IsReserveKey(key: string) {
    "reserve:" <= key
  }

  predicate IsCallKey(key: string) {
    "reserve:" <= key || "release:" <= key || "debit:" <= key
  }

  lemma {:induction false} PrefixChar(p: string, s: string, i: nat)
    requires p <= s && i < |p|
    ensures i < |s| && s[i] == p[i]
  {
  }

  /** The three kinds of key never meet, and each derived key determines its reservation. */
  lemma {:induction false} KeysAreDistinct(a: string, b: string)
    requires IsReserveKey(a) && IsReserveKey(b)
    ensures ReleaseKeyFor(a) != b && DebitKeyFor(a) != b && ReleaseKeyFor(a) != DebitKeyFor(b)
    ensures ReleaseKeyFor(a) == ReleaseKeyFor(b) <==> a == b
    ensures DebitKeyFor(a) == DebitKeyFor(b) <==> a == b
    ensures IsCallKey(a) && IsCallKey(ReleaseKeyFor(a)) && IsCallKey(DebitKeyFor(a))
  {
    PrefixChar("reserve:", b, 2);
    PrefixChar("release:", ReleaseKeyFor(a), 2);
    PrefixChar("reserve:", b, 0);
    PrefixChar("debit:", DebitKeyFor(a), 0);
    PrefixChar("debit:", DebitKeyFor(b), 0);
    PrefixChar("release:", ReleaseKeyFor(a), 0);
    assert ReleaseKeyFor(a)[8..] == a && ReleaseKeyFor(b)[8..] == b;
    assert DebitKeyFor(a)[6..] == a && DebitKeyFor(b)[6..] == b;
  }

  lemma {:induction false} SplitAtColon(p: string, q: string, x: string, y: string)
    requires p + ":" + x == q + ":" + y
    requires ':' !in p && ':' !in q
    ensures p == q && x == y
  {
    var s := p + ":" + x;
    var t := q + ":" + y;
    assert s[|p|] == ':' && t[|q|] == ':';
    assert forall i :: 0 <= i < |p| ==> s[i] == p[i];
    assert forall i :: 0 <= i < |q| ==> t[i] == q[i];
    assert |p| == |q|;
    assert p == s[..|p|] == t[..|q|] == q;
    assert x == s[|p| + 1..] == t[|q| + 1..] == y;
  }

  /** A reservation key names one agent and one cycle. */
  lemma {:induction false} ReserveKeyInjective(agentA: int, cycleA: string, agentB: int, cycleB: string)
    requires ReserveKeyFor(agentA, cycleA).Ok? && ReserveKeyFor(agentA, cycleA) == ReserveKeyFor(agentB, cycleB)
    ensures agentA == agentB && cycleA == cycleB
    ensures IsReserveKey(ReserveKeyFor(agentA, cycleA).value)
  {
    var p, q := Decimal(agentA), Decimal(agentB);
    DecimalDigits(agentA);
    DecimalDigits(agentB);
    var a, b := ReserveKeyFor(agentA, cycleA).value, ReserveKeyFor(agentB, cycleB).value;
    assert a[8..] == p + ":" + cycleA && b[8..] == q + ":" + cycleB;
    SplitAtColon(p, q, cycleA, cycleB);
    DecimalInjective(agentA, agentB);
  }
}
