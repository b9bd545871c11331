/** The phase grid on which an agent's next cycle lands (db.ts, phaseOffsetSeconds and nextRunAtSql). Database time is
a real number of seconds; slots and phases are whole seconds. */
module PhaseGrid {
  import opened Common

  const HASH_MULTIPLIER := 2654435769
  const WORD := 0x1_0000_0000

  /** The multiplier's inverse modulo 2^32, which exists because it is odd. */
  const HASH_INVERSE := 340573321

  function Ceil(x: real): int {
    -((-x).Floor)
  }

  /** Seconds until the next cycle: agents on the shared key also wait for their turn in the pool. */
  function NextCadence(cadence: int, shared: bool, activeShared: nat, targetPerMinute: real): int
    requires targetPerMinute > 0.0
  {
    Max(cadence, if shared then Ceil((activeShared as real * 60.0) / targetPerMinute) else 0)
  }

  function Slot(cadence: int): (secs: int)
    ensures secs >= 1
  {
    Max(cadence, 1)
  }

  function Hashed(id: nat): nat {
    id * HASH_MULTIPLIER % WORD
  }

  function Phase(id: nat, secs: int): int
    requires secs >= 1
  {
    Hashed(id) * secs / WORD
  }

  function NextRunOnGrid(now: real, secs: int, phase: int): real
    requires secs >= 1
  {
    (((now - phase as real) / secs as real).Floor + 1) as real * secs as real + phase as real
  }

  function NextRun(now: real, id: nat, cadence: int, grid: bool): real {
    if grid then NextRunOnGrid(now, Slot(cadence), Phase(id, Slot(cadence))) else now + cadence as real
  }

  // ----- the hash -----

  const HASH_QUOTIENT := 210485888

  lemma {:induction false} InverseIsInverse()
    ensures HASH_MULTIPLIER * HASH_INVERSE == HASH_QUOTIENT * WORD + 1
  {
  }

  lemma {:induction false} WholeWords(k: int, n: int)
    ensures (k * WORD + n) % WORD == n % WORD
  {
  }

  lemma {:induction false} Regroup(id: int, q: int, h: int)
    requires id * HASH_MULTIPLIER == q * WORD + h
    ensures h * HASH_INVERSE == (id * HASH_QUOTIENT - q * HASH_INVERSE) * WORD + id
  {
    InverseIsInverse();
    assert (q * WORD + h) * HASH_INVERSE == id * (HASH_MULTIPLIER * HASH_INVERSE);
    assert id * (HASH_QUOTIENT * WORD + 1) == id * HASH_QUOTIENT * WORD + id;
  }

  /** Undoing the multiplication recovers the low 32 bits of the id. */
  lemma {:induction false} HashUndone(id: nat)
    ensures Hashed(id) * HASH_INVERSE % WORD == id % WORD
  {
    var q := id * HASH_MULTIPLIER / WORD;
    Regroup(id, q, Hashed(id));
    WholeWords(id * HASH_QUOTIENT - q * HASH_INVERSE, id);
  }

  /** Two ids hash alike exactly when they agree modulo 2^32; ids below 2^32 only when they are the same. */
  lemma {:induction false} HashInjective(a: nat, b: nat)
    ensures Hashed(a) == Hashed(b) <==> a % WORD == b % WORD
    ensures a < WORD && b < WORD && Hashed(a) == Hashed(b) ==> a == b
  {
    HashUndone(a);
    HashUndone(b);
    if a % WORD == b % WORD {
      var d := a / WORD - b / WORD;
      assert a == d * WORD + b;
      assert a * HASH_MULTIPLIER == (d * HASH_MULTIPLIER) * WORD + b * HASH_MULTIPLIER;
      WholeWords(d * HASH_MULTIPLIER, b * HASH_MULTIPLIER);
    }
  }

  /** Agents on one cadence share a phase only when their hashes are within one second's worth of each other. */
  lemma {:induction false} PhaseSpread(a: nat, b: nat, secs: int)
    requires secs >= 1
    ensures 0 <= Phase(a, secs) < secs
    ensures Phase(a, secs) == Phase(b, secs) ==> -WORD < (Hashed(a) - Hashed(b)) * secs < WORD
  {
    PhaseBounds(Hashed(a), secs);
    PhaseBounds(Hashed(b), secs);
    assert (Hashed(a) - Hashed(b)) * secs == Hashed(a) * secs - Hashed(b) * secs;
  }

  lemma {:induction false} PhaseBounds(h: nat, secs: int)
    requires secs >= 1 && h < WORD
    ensures (h * secs / WORD) * WORD <= h * secs < (h * secs / WORD) * WORD + WORD
    ensures 0 <= h * secs / WORD < secs
  {
    var n := h * secs;
    MulAtMost(h, WORD - 1, secs);
    assert (WORD - 1) * secs < WORD * secs;
    WordBounds(n);
  }

  lemma {:induction false} WordBounds(n: nat)
    ensures (n / WORD) * WORD <= n < (n / WORD) * WORD + WORD
  {
  }

  lemma {:induction false} MulAtMost(h: nat, c: nat, s: nat)
    requires h <= c
    ensures 0 <= h * s <= c * s
  {
  }

  // ----- the grid -----

  /** The instants of an agent's grid. */
  ghost predicate OnGrid(t: real, secs: int, phase: int) {
    exists k: int :: t == GridPoint(k, secs, phase)
  }

  function GridPoint(k: int, secs: int, phase: int): real {
    k as real * secs as real + phase as real
  }

  lemma {:induction false} MulMonotone(a: real, b: real, s: real)
    requires s > 0.0
    ensures a <= b <==> a * s <= b * s
  {
    assert (b - a) * s == b * s - a * s;
    assert b - a > 0.0 ==> (b - a) * s > 0.0;
    assert a - b > 0.0 ==> (a - b) * s > 0.0;
  }

  lemma {:induction false} Bracket(f: real, q: real, e: real, s: real)
    requires s > 0.0 && f <= q < e
    ensures f * s <= q * s < e * s
  {
    assert (q - f) * s >= 0.0;
    assert (e - q) * s > 0.0;
  }

  lemma {:induction false} SlotOf(x: real, s: real)
    requires s > 0.0
    ensures (x / s).Floor as real * s <= x < ((x / s).Floor + 1) as real * s
  {
    var q := x / s;
    var f, e := q.Floor as real, (q.Floor + 1) as real;
    Bracket(f, q, e, s);
    assert q * s == x;
    assert f * s <= x;
    assert x < e * s;
  }

  lemma {:induction false} SlotIndex(now: real, secs: int, phase: int) returns (f: int)
    requires secs >= 1
    ensures GridPoint(f, secs, phase) <= now < GridPoint(f + 1, secs, phase)
    ensures NextRunOnGrid(now, secs, phase) == GridPoint(f + 1, secs, phase)
  {
    var s := secs as real;
    var x := now - phase as real;
    f := (x / s).Floor;
    SlotOf(x, s);
    var e := (f + 1) as real;
    assert NextRunOnGrid(now, secs, phase) == e * s + phase as real == GridPoint(f + 1, secs, phase);
  }

  /** The next due time is the least instant of the grid after now, and at most one slot away. */
  lemma {:induction false} NextRunIsLeast(now: real, secs: int, phase: int)
    requires secs >= 1
    ensures var next := NextRunOnGrid(now, secs, phase);
            && OnGrid(next, secs, phase) && now < next <= now + secs as real
            && forall k: int :: GridPoint(k, secs, phase) > now ==> GridPoint(k, secs, phase) >= next
  {
    var f := SlotIndex(now, secs, phase);
    GridStep(f, secs, phase);
    forall k: int | GridPoint(k, secs, phase) > now
      ensures GridPoint(k, secs, phase) >= GridPoint(f + 1, secs, phase)
    {
      GridOrder(f, k, secs, phase);
      GridOrder(k, f + 1, secs, phase);
    }
  }

  /** On the grid or off it, a cycle that ends is due again after now and at most one cadence away (one second for a
      cadence below that). */
  lemma {:induction false} NextRunInOneCadence(now: real, id: nat, cadence: int, grid: bool)
    requires grid || cadence >= 1
    ensures now < NextRun(now, id, cadence, grid) <= now + Slot(cadence) as real
  {
    if grid { NextRunIsLeast(now, Slot(cadence), Phase(id, Slot(cadence))); }
  }

  /** Consecutive due times of an agent whose cycle ends before its next slot are exactly one slot apart. */
  lemma {:induction false} SlotsAreApart(now: real, secs: int, phase: int, later: real)
    requires secs >= 1
    requires NextRunOnGrid(now, secs, phase) <= later < NextRunOnGrid(now, secs, phase) + secs as real
    ensures NextRunOnGrid(later, secs, phase) == NextRunOnGrid(now, secs, phase) + secs as real
  {
    NextRunIsLeast(now, secs, phase);
    NextRunIsLeast(later, secs, phase);
    var k: int :| NextRunOnGrid(now, secs, phase) == GridPoint(k, secs, phase);
    var l: int :| NextRunOnGrid(later, secs, phase) == GridPoint(l, secs, phase);
    GridStep(k, secs, phase);
    GridOrder(k, l, secs, phase);
  }

  lemma {:induction false} GridStep(k: int, secs: int, phase: int)
    ensures GridPoint(k + 1, secs, phase) == GridPoint(k, secs, phase) + secs as real
  {
    assert (k + 1) as real * secs as real == k as real * secs as real + secs as real;
  }

  lemma {:induction false} GridOrder(k: int, l: int, secs: int, phase: int)
    requires secs >= 1
    ensures GridPoint(k, secs, phase) < GridPoint(l, secs, phase) <==> k < l
  {
    MulMonotone(l as real, k as real, secs as real);
  }

  // ----- the shared pool -----

  /** The floor keeps the whole shared pool at or below its target rate, however many agents share it. */
  lemma {:induction false} PoolAtTarget(activeShared: nat, targetPerMinute: real, cadence: int)
    requires targetPerMinute > 0.0
    ensures activeShared as real * 60.0
              <= NextCadence(cadence, true, activeShared, targetPerMinute) as real * targetPerMinute
  {
    var need := (activeShared as real * 60.0) / targetPerMinute;
    assert need * targetPerMinute == activeShared as real * 60.0;
    var secs := NextCadence(cadence, true, activeShared, targetPerMinute);
    assert need <= Ceil(need) as real <= secs as real;
    MulMonotone(need, secs as real, targetPerMinute);
  }
}
