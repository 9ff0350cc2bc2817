/**
 The circuit breaker, once as the object a worker keeps and once as the UPDATE of
 its row in the portal's table.

 The object counts its deadline on a clock that starts anywhere and reads the wall
 clock for the copy it persists. Both clocks run alike, so a process is described by
 the difference between them, and every event by its wall time.
 */
module Breaker {
  import opened Basics

  const DEFAULT_THRESHOLD: nat := 10
  const DEFAULT_BASE_COOLDOWN: real := 5.0
  const DEFAULT_MAX_COOLDOWN: real := 300.0

  datatype Tuning = Tuning(threshold: nat, base: real, max: real)

  const DEFAULTS := Tuning(DEFAULT_THRESHOLD, DEFAULT_BASE_COOLDOWN, DEFAULT_MAX_COOLDOWN)

  /** A persisted breaker: the row of the table, and what a restart restores. */
  datatype BreakerState = BreakerState(consecutive: nat, level: nat, openUntil: Option<real>)

  const CLOSED := BreakerState(0, 0, None)

  function Min(a: real, b: real): real {
    if a <= b then a else b
  }

  function Max(a: real, b: real): real {
    if a <= b then b else a
  }

  function Power2(n: nat): real {
    if n == 0 then 1.0 else 2.0 * Power2(n - 1)
  }

  /** The cooldown of the trip that leaves level `n` behind. */
  function Cooldown(tuning: Tuning, n: nat): real {
    Min(tuning.max, tuning.base * Power2(n))
  }

  datatype Outcome = Outcome(healthy: bool, at: real)

  // ---------------------------------------------------------------- the row's UPDATE

  function RowAfter(row: BreakerState, outcome: Outcome, tuning: Tuning): BreakerState {
    if outcome.healthy then CLOSED
    else if row.consecutive + 1 < tuning.threshold then row.(consecutive := row.consecutive + 1)
    else BreakerState(0, row.level + 1, Some(outcome.at + Cooldown(tuning, row.level)))
  }

  class PostgresCircuitBreakers {
    var rows: map<(string, string), BreakerState>

    constructor ()
      ensures rows == map[]
    {
      rows := map[];
    }

    /** A missing row is inserted closed; then one UPDATE computes the transition. */
    method RecordOutcome(source: string, provider: string, healthy: bool, now: real)
      modifies this
      ensures var key := (source, provider);
        rows == old(rows)[key :=
          RowAfter(if key in old(rows) then old(rows)[key] else CLOSED, Outcome(healthy, now), DEFAULTS)]
    {
      var key := (source, provider);
      if key !in rows {
        rows := rows[key := CLOSED];
      }
      var row := rows[key];
      var count, level, until := row.consecutive, row.level, row.openUntil;
      if healthy {
        count, level, until := 0, 0, None;
      } else if row.consecutive + 1 < DEFAULT_THRESHOLD {
        count := row.consecutive + 1;
      } else {
        count, level := 0, row.level + 1;
        until := Some(now + Min(DEFAULT_MAX_COOLDOWN, DEFAULT_BASE_COOLDOWN * Power2(row.level)));
      }
      rows := rows[key := BreakerState(count, level, until)];
    }
  }

  // --------------------------------------------------------------------- the object

  /** The object's fields; a zero deadline stands for none. */
  datatype Gate = Gate(consecutive: nat, level: nat, openUntil: real, openUntilAt: Option<real>)

  function Restored(initial: Option<BreakerState>, wall: real, offset: real): Gate {
    if initial.None? then Gate(0, 0, 0.0, None)
    else
      var state := initial.value;
      Gate(state.consecutive, state.level,
           if state.openUntil.None? then 0.0 else wall - offset + Max(0.0, state.openUntil.value - wall),
           state.openUntil)
  }

  function GateAfter(gate: Gate, outcome: Outcome, offset: real, tuning: Tuning): Gate {
    if outcome.healthy then
      if gate.openUntil == 0.0 then gate.(consecutive := 0) else Gate(0, 0, 0.0, None)
    else if gate.consecutive + 1 < tuning.threshold then gate.(consecutive := gate.consecutive + 1)
    else
      var cooldown := Cooldown(tuning, gate.level);
      Gate(0, gate.level + 1, outcome.at - offset + cooldown, Some(outcome.at + cooldown))
  }

  predicate IsOpen(gate: Gate, wall: real, offset: real) {
    gate.openUntil > wall - offset
  }

  function Persisted(gate: Gate): BreakerState {
    BreakerState(gate.consecutive, gate.level, gate.openUntilAt)
  }

  class CircuitBreaker {
    const tuning: Tuning
    const offset: real
    var consecutive: nat
    var level: nat
    var openUntil: real
    var openUntilAt: Option<real>
    var saved: Option<BreakerState>

    ghost function Fields(): Gate
      reads this
    {
      Gate(consecutive, level, openUntil, openUntilAt)
    }

    constructor (tuning: Tuning, initial: Option<BreakerState>, wall: real, offset: real)
      ensures Fields() == Restored(initial, wall, offset)
      ensures this.tuning == tuning && this.offset == offset && saved == None
    {
      this.tuning := tuning;
      this.offset := offset;
      saved := None;
      consecutive, level, openUntil, openUntilAt := 0, 0, 0.0, None;
      if initial.Some? {
        consecutive, level, openUntilAt := initial.value.consecutive, initial.value.level, initial.value.openUntil;
        if initial.value.openUntil.Some? {
          openUntil := wall - offset + Max(0.0, initial.value.openUntil.value - wall);
        }
      }
    }

    method RecordSuccess()
      modifies this
      ensures forall at: real :: Fields() == GateAfter(old(Fields()), Outcome(true, at), offset, tuning)
      ensures saved == Some(Persisted(Fields()))
    {
      consecutive := 0;
      if openUntil == 0.0 {
        Notify();
        return;
      }
      openUntil, level, openUntilAt := 0.0, 0, None;
      Notify();
    }

    method RecordFailure(wall: real)
      modifies this
      ensures Fields() == GateAfter(old(Fields()), Outcome(false, wall), offset, tuning)
      ensures saved == Some(Persisted(Fields()))
    {
      consecutive := consecutive + 1;
      if consecutive < tuning.threshold {
        Notify();
        return;
      }
      consecutive, level := 0, level + 1;
      var cooldown := Min(tuning.max, tuning.base * Power2(level - 1));
      openUntil, openUntilAt := wall - offset + cooldown, Some(wall + cooldown);
      Notify();
    }

    method Notify()
      modifies `saved
      ensures saved == Some(Persisted(Fields()))
    {
      saved := Some(BreakerState(consecutive, level, openUntilAt));
    }
  }

  // ------------------------------------------------------------ the two forms agree

  /** A process clock that shows a positive time from `since` on. */
  predicate Ticking(since: real, offset: real) {
    offset < since
  }

  predicate Timely(outcomes: seq<Outcome>, since: real) {
    && (forall n :: 0 <= n < |outcomes| ==> since <= outcomes[n].at)
    && (forall n, m :: 0 <= n < m < |outcomes| ==> outcomes[n].at <= outcomes[m].at)
  }

  predicate Sensible(tuning: Tuning) {
    0.0 < tuning.base <= tuning.max
  }

  function RowRun(row: BreakerState, outcomes: seq<Outcome>, tuning: Tuning): BreakerState
    decreases |outcomes|
  {
    if outcomes == [] then row else RowRun(RowAfter(row, outcomes[0], tuning), outcomes[1..], tuning)
  }

  function GateRun(gate: Gate, outcomes: seq<Outcome>, offset: real, tuning: Tuning): Gate
    decreases |outcomes|
  {
    if outcomes == [] then gate
    else GateRun(GateAfter(gate, outcomes[0], offset, tuning), outcomes[1..], offset, tuning)
  }

  /** The two deadlines of an object tell the same from `since` on. */
  predicate Agrees(gate: Gate, since: real, offset: real) {
    && (gate.openUntilAt.None? <==> gate.openUntil == 0.0)
    && (gate.openUntilAt.Some? ==>
          gate.openUntil <= since - offset || gate.openUntil == gate.openUntilAt.value - offset)
    && (gate.openUntilAt.Some? && gate.openUntil <= since - offset ==> gate.openUntilAt.value <= since)
  }

  /** A row that counts trips without a deadline, which no run from a closed breaker reaches. */
  predicate Stranded(row: BreakerState) {
    row.openUntil.None? && 0 < row.level
  }

  lemma RestoredAgrees(initial: Option<BreakerState>, wall: real, offset: real)
    requires Ticking(wall, offset)
    ensures Agrees(Restored(initial, wall, offset), wall, offset)
  {
  }

  lemma {:induction false} PowerIsPositive(n: nat)
    ensures 1.0 <= Power2(n)
  {
    if n > 0 {
      PowerIsPositive(n - 1);
    }
  }

  /** Every cooldown lies between the base and the maximum. */
  lemma CooldownInRange(tuning: Tuning, n: nat)
    requires Sensible(tuning)
    ensures tuning.base <= Cooldown(tuning, n) <= tuning.max
  {
    PowerIsPositive(n);
    ProductGrows(tuning.base, 1.0, Power2(n));
  }

  /** The first cooldown is the base, and each one is twice the last, up to the maximum. */
  lemma CooldownDoubles(tuning: Tuning, n: nat)
    requires 0.0 <= tuning.max
    ensures Cooldown(tuning, 0) == if tuning.max <= tuning.base then tuning.max else tuning.base
    ensures Cooldown(tuning, n + 1) ==
      if tuning.max <= 2.0 * Cooldown(tuning, n) then tuning.max else 2.0 * Cooldown(tuning, n)
  {
    var x := Power2(n);
    assert Power2(n + 1) == 2.0 * x;
    assert tuning.base * (2.0 * x) == 2.0 * (tuning.base * x);
  }

  /** With the default tuning the cooldowns are 5, 10, 20, 40, 80 and 160 seconds, and 300 from then on. */
  lemma DefaultCooldowns(n: nat)
    ensures Cooldown(DEFAULTS, 0) == 5.0 && Cooldown(DEFAULTS, 1) == 10.0 && Cooldown(DEFAULTS, 2) == 20.0
    ensures Cooldown(DEFAULTS, 3) == 40.0 && Cooldown(DEFAULTS, 4) == 80.0 && Cooldown(DEFAULTS, 5) == 160.0
    ensures n >= 6 ==> Cooldown(DEFAULTS, n) == 300.0
    ensures DEFAULTS.threshold == 10
  {
    hide Cooldown;
    CooldownDoubles(DEFAULTS, 0);
    CooldownDoubles(DEFAULTS, 1);
    CooldownDoubles(DEFAULTS, 2);
    CooldownDoubles(DEFAULTS, 3);
    CooldownDoubles(DEFAULTS, 4);
    CooldownDoubles(DEFAULTS, 5);
    if n >= 6 {
      CooldownGrows(DEFAULTS, 6, n);
      CooldownInRange(DEFAULTS, n);
    }
  }

  lemma ProductGrows(a: real, x: real, y: real)
    requires 0.0 <= a && x <= y
    ensures a * x <= a * y
  {
    assert 0.0 <= a * (y - x);
  }

  lemma CooldownStep(tuning: Tuning, n: nat)
    requires Sensible(tuning)
    ensures Cooldown(tuning, n) <= Cooldown(tuning, n + 1)
  {
    PowerIsPositive(n);
    var x, y := Power2(n), Power2(n + 1);
    assert y == 2.0 * x;
    ProductGrows(tuning.base, x, y);
    MinGrows(tuning.max, tuning.base * x, tuning.base * y);
  }

  lemma MinGrows(limit: real, x: real, y: real)
    requires x <= y
    ensures Min(limit, x) <= Min(limit, y)
  {
  }

  lemma {:induction false} CooldownGrows(tuning: Tuning, n: nat, m: nat)
    requires Sensible(tuning) && n <= m
    ensures Cooldown(tuning, n) <= Cooldown(tuning, m)
    decreases m - n
  {
    hide Power2, Cooldown;
    if n < m {
      CooldownGrows(tuning, n, m - 1);
      CooldownStep(tuning, m - 1);
    }
  }

  lemma StepAgrees(gate: Gate, outcome: Outcome, since: real, offset: real, tuning: Tuning)
    requires Sensible(tuning) && Ticking(since, offset) && since <= outcome.at
    requires Agrees(gate, since, offset)
    ensures Agrees(GateAfter(gate, outcome, offset, tuning), since, offset)
    ensures !Stranded(Persisted(gate)) ==>
      && Persisted(GateAfter(gate, outcome, offset, tuning)) == RowAfter(Persisted(gate), outcome, tuning)
      && !Stranded(RowAfter(Persisted(gate), outcome, tuning))
  {
    CooldownInRange(tuning, gate.level);
  }

  lemma {:induction false} RunAgrees(gate: Gate, outcomes: seq<Outcome>, since: real, offset: real, tuning: Tuning)
    requires Sensible(tuning) && Ticking(since, offset) && Timely(outcomes, since)
    requires Agrees(gate, since, offset) && !Stranded(Persisted(gate))
    ensures Persisted(GateRun(gate, outcomes, offset, tuning)) == RowRun(Persisted(gate), outcomes, tuning)
    ensures Agrees(GateRun(gate, outcomes, offset, tuning), since, offset)
    decreases |outcomes|
  {
    if outcomes != [] {
      StepAgrees(gate, outcomes[0], since, offset, tuning);
      RunAgrees(GateAfter(gate, outcomes[0], offset, tuning), outcomes[1..], since, offset, tuning);
    }
  }

  /**
   Object and row compute the same state for every outcome sequence, exactly when the
   state they start from does not count trips without a deadline.
   */
  lemma ObjectMatchesRowExactlyWhen(start: BreakerState, since: real, offset: real, tuning: Tuning)
    requires Sensible(tuning) && Ticking(since, offset)
    ensures (forall outcomes :: Timely(outcomes, since) ==>
               Persisted(GateRun(Restored(Some(start), since, offset), outcomes, offset, tuning)) ==
                 RowRun(start, outcomes, tuning))
       <==> !Stranded(start)
  {
    var gate := Restored(Some(start), since, offset);
    if Stranded(start) {
      var outcomes := [Outcome(true, since)];
      assert Timely(outcomes, since) && outcomes[1..] == [];
      assert GateRun(gate, outcomes, offset, tuning) == GateAfter(gate, outcomes[0], offset, tuning);
      assert RowRun(start, outcomes, tuning) == CLOSED;
    } else {
      RestoredAgrees(Some(start), since, offset);
      forall outcomes | Timely(outcomes, since)
        ensures Persisted(GateRun(gate, outcomes, offset, tuning)) == RowRun(start, outcomes, tuning)
      {
        RunAgrees(gate, outcomes, since, offset, tuning);
      }
    }
  }

  // ------------------------------------------------------------- a streak of failures

  predicate AllFail(outcomes: seq<Outcome>) {
    forall n :: 0 <= n < |outcomes| ==> !outcomes[n].healthy
  }

  /** The count of n failures, and the deadline the last trip among them set. */
  predicate Streak(row: BreakerState, outcomes: seq<Outcome>, tuning: Tuning)
    requires 0 < tuning.threshold
  {
    var n, t := |outcomes|, tuning.threshold;
    && row.consecutive == n % t
    && row.level == n / t
    && row.openUntil == if n / t == 0 then None else Some(outcomes[LastTrip(n, t)].at + Cooldown(tuning, n / t - 1))
  }

  lemma OneMoreFailure(row: BreakerState, outcomes: seq<Outcome>, last: Outcome, tuning: Tuning)
    requires 0 < tuning.threshold && Streak(row, outcomes, tuning) && !last.healthy
    ensures Streak(RowAfter(row, last, tuning), outcomes + [last], tuning)
  {
    hide Cooldown;
    var n, t := |outcomes|, tuning.threshold;
    NextQuotient(n, t);
    if n % t + 1 < t {
      SameTrip(n, t);
    }
  }

  lemma SameTrip(n: nat, t: nat)
    requires 0 < t && (n + 1) / t == n / t
    ensures 0 < n / t ==> LastTrip(n + 1, t) == LastTrip(n, t)
  {
  }

  /**
   After n failures since the last success the row counts n modulo the threshold and
   has tripped n div threshold times; the last trip set the deadline.
   */
  lemma {:induction false} StreakCounts(outcomes: seq<Outcome>, tuning: Tuning)
    requires 0 < tuning.threshold && AllFail(outcomes)
    ensures Streak(RowRun(CLOSED, outcomes, tuning), outcomes, tuning)
    decreases |outcomes|
  {
    if outcomes != [] {
      var before, last := outcomes[..|outcomes| - 1], outcomes[|outcomes| - 1];
      hide Streak, RowAfter;
      StreakCounts(before, tuning);
      assert outcomes == before + [last];
      RunAppends(CLOSED, before, last, tuning);
      OneMoreFailure(RowRun(CLOSED, before, tuning), before, last, tuning);
    } else {
      NoFailure(tuning.threshold);
    }
  }

  lemma NoFailure(t: nat)
    requires 0 < t
    ensures 0 % t == 0 && 0 / t == 0
  {
  }

  function LastTrip(n: nat, threshold: nat): (k: nat)
    requires 0 < threshold && 0 < n / threshold
    ensures k < n
  {
    QuotientBelow(n, threshold);
    n / threshold * threshold - 1
  }

  lemma QuotientBelow(n: nat, t: nat)
    requires 0 < t && 0 < n / t
    ensures 0 < n / t * t <= n
  {
    assert n == n / t * t + n % t;
  }

  lemma NextQuotient(n: nat, t: nat)
    requires 0 < t
    ensures n % t + 1 < t ==> (n + 1) / t == n / t && (n + 1) % t == n % t + 1
    ensures n % t + 1 == t ==> (n + 1) / t == n / t + 1 && (n + 1) % t == 0 && (n + 1) / t * t == n + 1
  {
    var q, r := n / t, n % t;
    assert n == q * t + r;
    if r + 1 < t {
      Unique(n + 1, t, q, r + 1);
    } else {
      assert n + 1 == (q + 1) * t;
      Unique(n + 1, t, q + 1, 0);
    }
  }

  lemma Unique(n: nat, t: nat, q: nat, r: nat)
    requires 0 < t && r < t && n == q * t + r
    ensures n / t == q && n % t == r
  {
    var d := n / t - q;
    assert n == n / t * t + n % t;
    assert d * t == r - n % t;
    Multiple(d, t);
  }

  lemma Multiple(d: int, t: int)
    requires 0 < t && -t < d * t < t
    ensures d == 0
  {
  }

  lemma {:induction false} RunAppends(row: BreakerState, outcomes: seq<Outcome>, last: Outcome, tuning: Tuning)
    ensures RowRun(row, outcomes + [last], tuning) == RowAfter(RowRun(row, outcomes, tuning), last, tuning)
    decreases |outcomes|
  {
    if outcomes == [] {
      assert ([] + [last])[1..] == [];
    } else {
      assert (outcomes + [last])[1..] == outcomes[1..] + [last];
      RunAppends(RowAfter(row, outcomes[0], tuning), outcomes[1..], last, tuning);
    }
  }

  /** Inside a streak a later trip never sets an earlier deadline. */
  lemma DeadlinesAdvance(outcomes: seq<Outcome>, n: nat, since: real, tuning: Tuning)
    requires Sensible(tuning) && 0 < tuning.threshold
    requires AllFail(outcomes) && Timely(outcomes, since) && n <= |outcomes|
    ensures var early, late := RowRun(CLOSED, outcomes[..n], tuning), RowRun(CLOSED, outcomes, tuning);
      early.openUntil.Some? ==> late.openUntil.Some? && early.openUntil.value <= late.openUntil.value
  {
    var t := tuning.threshold;
    StreakCounts(outcomes[..n], tuning);
    StreakCounts(outcomes, tuning);
    if 0 < n / t {
      QuotientGrows(n, |outcomes|, t);
      CooldownGrows(tuning, n / t - 1, |outcomes| / t - 1);
      assert outcomes[..n][LastTrip(n, t)] == outcomes[LastTrip(n, t)];
      assert LastTrip(n, t) <= LastTrip(|outcomes|, t);
    }
  }

  lemma QuotientGrows(n: nat, m: nat, t: nat)
    requires 0 < t && n <= m
    ensures n / t <= m / t && n / t * t <= m / t * t
  {
    var q, p := n / t, m / t;
    assert n == q * t + n % t && m == p * t + m % t;
    Ordered(q, p, t, n % t, m % t);
  }

  lemma Ordered(q: nat, p: nat, t: nat, r: nat, u: nat)
    requires q * t + r <= p * t + u && u < t
    ensures q <= p && q * t <= p * t
  {
    if p < q {
      Scale(p + 1, q, t);
    } else {
      Scale(q, p, t);
    }
  }

  lemma Scale(a: nat, b: nat, t: nat)
    requires a <= b
    ensures a * t <= b * t
  {
    assert (b - a) * t >= 0;
  }

  // ---------------------------------------------------------------------- a restart

  /** Two objects that behave alike from `since` on, each on its own process clock. */
  predicate Alike(a: Gate, b: Gate, since: real, offsetA: real, offsetB: real) {
    Persisted(a) == Persisted(b) && Agrees(a, since, offsetA) && Agrees(b, since, offsetB)
  }

  lemma AlikeOpen(a: Gate, b: Gate, since: real, offsetA: real, offsetB: real, wall: real)
    requires Alike(a, b, since, offsetA, offsetB) && since <= wall
    requires Ticking(since, offsetA) && Ticking(since, offsetB)
    ensures IsOpen(a, wall, offsetA) <==> IsOpen(b, wall, offsetB)
    ensures IsOpen(a, wall, offsetA) <==> Persisted(a).openUntil.Some? && wall < Persisted(a).openUntil.value
  {
  }

  lemma Later(gate: Gate, since: real, now: real, offset: real)
    requires Agrees(gate, since, offset) && since <= now
    ensures Agrees(gate, now, offset)
  {
  }

  lemma {:induction false} AlikeForever(a: Gate, b: Gate, outcomes: seq<Outcome>, since: real, offsetA: real,
      offsetB: real, tuning: Tuning)
    requires Sensible(tuning) && Timely(outcomes, since) && Ticking(since, offsetA) && Ticking(since, offsetB)
    requires Alike(a, b, since, offsetA, offsetB)
    ensures Alike(GateRun(a, outcomes, offsetA, tuning), GateRun(b, outcomes, offsetB, tuning), since, offsetA, offsetB)
    decreases |outcomes|
  {
    if outcomes != [] {
      StepAgrees(a, outcomes[0], since, offsetA, tuning);
      StepAgrees(b, outcomes[0], since, offsetB, tuning);
      AlikeForever(GateAfter(a, outcomes[0], offsetA, tuning), GateAfter(b, outcomes[0], offsetB, tuning),
                   outcomes[1..], since, offsetA, offsetB, tuning);
    }
  }

  /**
   A process that stops and another that restores the persisted state, at any later
   time and on any clock, behave like one process that never stopped.
   */
  lemma RestartIsUnnoticed(
      initial: Option<BreakerState>, before: seq<Outcome>, after: seq<Outcome>,
      start: real, restart: real, wall: real, offset: real, newOffset: real, tuning: Tuning)
    requires Sensible(tuning) && Ticking(start, offset) && Ticking(restart, newOffset)
    requires start <= restart <= wall && Timely(before, start) && Timely(after, restart)
    ensures var stopped := GateRun(Restored(initial, start, offset), before, offset, tuning);
      var kept := GateRun(stopped, after, offset, tuning);
      var renewed := GateRun(Restored(Some(Persisted(stopped)), restart, newOffset), after, newOffset, tuning);
      && Persisted(kept) == Persisted(renewed)
      && (IsOpen(kept, wall, offset) <==> IsOpen(renewed, wall, newOffset))
  {
    var first := Restored(initial, start, offset);
    var stopped := GateRun(first, before, offset, tuning);
    RestoredAgrees(initial, start, offset);
    AlikeForever(first, first, before, start, offset, offset, tuning);
    Later(stopped, start, restart, offset);
    var restored := Restored(Some(Persisted(stopped)), restart, newOffset);
    RestoredAgrees(Some(Persisted(stopped)), restart, newOffset);
    AlikeForever(stopped, restored, after, restart, offset, newOffset, tuning);
    AlikeOpen(GateRun(stopped, after, offset, tuning), GateRun(restored, after, newOffset, tuning), restart, offset,
      newOffset, wall);
  }
}
