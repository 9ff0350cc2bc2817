/**
 Runs of the queue: any interleaving of admissions, cancellations, claims and
 publications, from the empty database. The invariant of `QueueInvariant` holds
 throughout, rows only advance, and jobs start in the order they were admitted.
 */
module QueueRuns {
  import opened Basics
  import opened JobTables
  import opened ClaimQuery
  import opened QueueInvariant

  // ---------------------------------------------------------------- transactions

  /** One claim transaction with the choices the database made in it. */
  datatype ClaimTx = ClaimTx(
    worker: string,
    sources: seq<string>,
    limit: nat,
    affinity: Option<(string, nat)>,
    now: int,
    barred: Barred,
    visited: seq<nat>,        // touched jobs, in the order the sweep visits them
    swept: Tables,
    kin: set<nat>,            // rows of the affinity query
    rest: multiset<nat>)      // rows of the general query

  function Support(pick: multiset<nat>): set<nat> {
    set i | i in pick
  }

  /** The affinity rows are a legal answer over what the sweep left. */
  ghost predicate KinPick(c: ClaimTx) {
    if c.affinity.Some? then
      var (source, credential) := c.affinity.value;
      IsTop(c.swept.items, multiset(Kin(c.swept, c.barred, source, credential)), c.limit, multiset(c.kin))
    else c.kin == {}
  }

  function Kindred(c: ClaimTx): Tables
    requires RowsInRange(c.swept)
  {
    Claimed(c.swept, c.kin, c.worker, c.now)
  }

  /** The other rows are a legal answer for what is left of the limit. */
  ghost predicate RestPick(c: ClaimTx) {
    && RowsInRange(c.swept)
    && if |c.kin| < c.limit then NestedPick(Kindred(c), c.barred, c.sources, c.limit - |c.kin|, c.rest)
       else c.rest == multiset{}
  }

  /** Sweep, then the affinity query, then the general query for what is left of the limit. */
  ghost predicate ClaimMakes(t: Tables, c: ClaimTx, r: Tables) {
    && SweepMakes(t, c.now, c.barred.locked, c.visited, c.swept)
    && KinPick(c)
    && RestPick(c)
    && r == Claimed(Kindred(c), Support(c.rest), c.worker, c.now)
  }

  function Taken(c: ClaimTx): set<nat> {
    c.kin + Support(c.rest)
  }

  /** Every reusable answer is an entry this team already holds for that pair. */
  ghost predicate ReuseKnown(t: Tables, s: Submission, reusable: Reusable) {
    forall pair :: pair in reusable ==> Holds(t.items, s.team, pair, reusable[pair])
  }

  ghost predicate Holds(items: seq<Item>, team: nat, pair: (string, string), entry: nat) {
    exists i :: 0 <= i < |items| && HeldBy(items[i], team, pair, entry)
  }

  predicate HeldBy(item: Item, team: nat, pair: (string, string), entry: nat) {
    && item.team == team
    && item.state.Published?
    && item.document == pair.0
    && item.source == Some(pair.1)
    && item.entry == Some(entry)
  }

  datatype Action =
    | Admit(s: Submission, reusable: Reusable)
    | Cancel(job: nat, team: nat)
    | Claim(c: ClaimTx)
    | Publish(p: Publication, now: int)

  /** Committed transactions; one that raises leaves no state behind and is no step. */
  ghost predicate Step(t: Tables, a: Action, r: Tables) {
    match a
    case Admit(s, reusable) => ReuseKnown(t, s, reusable) && r == AdmitTx(t, s, reusable)
    case Cancel(j, team) => r == CancelTx(t, j, team)
    case Claim(c) => ClaimMakes(t, c, r)
    case Publish(p, now) => p.item < |t.items| && r == PublishTx(t, p, now)
  }

  ghost predicate Run(states: seq<Tables>, actions: seq<Action>) {
    && |states| == |actions| + 1
    && states[0] == EMPTY
    && forall n :: 0 <= n < |actions| ==> Step(states[n], actions[n], states[n + 1])
  }

  // ------------------------------------------------------------ claims are sound

  lemma KinClaimable(t: Tables, b: Barred, source: string, credential: nat, k: nat, kin: set<nat>)
    requires IsTop(t.items, multiset(Kin(t, b, source, credential)), k, multiset(kin))
    ensures kin <= Kin(t, b, source, credential) && |kin| <= k
  {
    assert forall i :: i in kin ==> i in multiset(kin);
    assert |multiset(kin)| == |kin|;
  }

  lemma NestedClaimable(t: Tables, b: Barred, sources: seq<string>, k: nat, pick: multiset<nat>)
    requires NestedPick(t, b, sources, k, pick)
    ensures forall i :: i in pick ==> Claimable(t, b, i) && t.items[i].source.value in sources
    ensures |Support(pick)| <= |pick| <= k
  {
    NestedIsBagTop(t, b, sources, k, pick);
    forall i | i in pick ensures Claimable(t, b, i) && t.items[i].source.value in sources {
      BagAt(t, b, sources, i);
    }
    SupportSmall(pick);
  }

  lemma {:induction false} SupportSmall(pick: multiset<nat>)
    ensures |Support(pick)| <= |pick|
    decreases |pick|
  {
    if |pick| > 0 {
      var x :| x in pick;
      var less := pick - multiset{x};
      SupportSmall(less);
      assert Support(pick) == Support(less) + {x};
    } else {
      assert Support(pick) == {};
    }
  }

  /** Claiming twice in one transaction is claiming the union. */
  lemma ClaimsCompose(t: Tables, a: set<nat>, b: set<nat>, worker: string, now: int)
    requires RowsInRange(t) && a !! b
    ensures RowsInRange(Claimed(t, a, worker, now))
    ensures Claimed(Claimed(t, a, worker, now), b, worker, now) == Claimed(t, a + b, worker, now)
  {
    assert Claimed(Claimed(t, a, worker, now), b, worker, now).items == Claimed(t, a + b, worker, now).items;
  }

  lemma ClaimableAfterClaim(t: Tables, barred: Barred, taken: set<nat>, worker: string, now: int, i: nat)
    requires RowsInRange(t) && Claimable(Claimed(t, taken, worker, now), barred, i)
    ensures i !in taken && Claimable(t, barred, i)
  {
  }

  lemma KinTaken(c: ClaimTx)
    requires KinPick(c)
    ensures |c.kin| <= c.limit && forall i :: i in c.kin ==> Claimable(c.swept, c.barred, i)
  {
    if c.affinity.Some? {
      KinClaimable(c.swept, c.barred, c.affinity.value.0, c.affinity.value.1, c.limit, c.kin);
    }
  }

  lemma RestTaken(c: ClaimTx)
    requires RestPick(c) && |c.kin| <= c.limit
    ensures c.kin !! Support(c.rest) && |Support(c.rest)| <= c.limit - |c.kin|
    ensures forall i :: i in Support(c.rest) ==> Claimable(c.swept, c.barred, i)
  {
    hide NestedPick;
    if |c.kin| < c.limit {
      NestedClaimable(Kindred(c), c.barred, c.sources, c.limit - |c.kin|, c.rest);
      forall i | i in Support(c.rest) ensures i !in c.kin && Claimable(c.swept, c.barred, i) {
        ClaimableAfterClaim(c.swept, c.barred, c.kin, c.worker, c.now, i);
      }
    } else {
      assert Support(c.rest) == {};
    }
  }

  /** A claim takes rows that were free after its own sweep, each once, and never more than the limit. */
  lemma ClaimTakes(t: Tables, c: ClaimTx, r: Tables)
    requires ClaimMakes(t, c, r)
    ensures c.kin !! Support(c.rest) && |Taken(c)| <= c.limit
    ensures forall i :: i in Taken(c) ==> Claimable(c.swept, c.barred, i)
    ensures r == Claimed(c.swept, Taken(c), c.worker, c.now)
  {
    KinTaken(c);
    RestTaken(c);
    ClaimsCompose(c.swept, c.kin, Support(c.rest), c.worker, c.now);
  }

  /** What is left for the general query once the affinity rows are taken. */
  function LeftFor(c: ClaimTx): set<nat>
    requires RowsInRange(c.swept)
  {
    Eligible(Kindred(c), c.barred, c.sources)
  }

  /** A legal answer over distinct rows, as a set. */
  lemma FlatFront(items: seq<Item>, pool: set<nat>, k: nat, pick: multiset<nat>)
    requires IsTop(items, multiset(pool), k, pick)
    ensures Support(pick) <= pool && |Support(pick)| == Min(k, |pool|)
    ensures forall x, y :: x in Support(pick) && y in pool - Support(pick) ==> NotAfter(items, x, y)
  {
    DistinctSupport(pool, pick);
    forall x, y | x in Support(pick) && y in pool - Support(pick) ensures NotAfter(items, x, y) {
      assert x in pick && y in multiset(pool) - pick;
    }
  }

  lemma RestIsFront(c: ClaimTx)
    requires RestPick(c) && NoDuplicates(c.sources) && |c.kin| <= c.limit
    ensures Support(c.rest) <= LeftFor(c) && |Support(c.rest)| == Min(c.limit - |c.kin|, |LeftFor(c)|)
    ensures forall x, y :: x in Support(c.rest) && y in LeftFor(c) - Support(c.rest) ==>
      NotAfter(Kindred(c).items, x, y)
  {
    hide NestedPick, IsTop, Eligible, Claimable, NotAfter, Support;
    if |c.kin| < c.limit {
      NestedIsFlat(Kindred(c), c.barred, c.sources, c.limit - |c.kin|, c.rest);
      FlatFront(Kindred(c).items, LeftFor(c), c.limit - |c.kin|, c.rest);
    } else {
      NoSupport(c.rest);
    }
  }

  lemma NoSupport(pick: multiset<nat>)
    requires pick == multiset{}
    ensures Support(pick) == {}
  {
  }

  lemma FrontOfSwept(c: ClaimTx)
    requires RestPick(c) && NoDuplicates(c.sources) && |c.kin| <= c.limit
    ensures forall x, y :: x in Support(c.rest) && y in LeftFor(c) - Support(c.rest) ==> NotAfter(c.swept.items, x, y)
  {
    RestIsFront(c);
    var kept := Kindred(c).items;
    forall x, y | x in Support(c.rest) && y in LeftFor(c) - Support(c.rest) ensures NotAfter(c.swept.items, x, y) {
      assert NotAfter(kept, x, y);
      assert Rank(kept, x) == Rank(c.swept.items, x) && Rank(kept, y) == Rank(c.swept.items, y);
    }
  }

  lemma ClaimSize(c: ClaimTx)
    requires KinPick(c) && RestPick(c) && NoDuplicates(c.sources)
    ensures |Taken(c)| == Min(c.limit, |c.kin| + |LeftFor(c)|) && Support(c.rest) <= LeftFor(c)
  {
    hide KinPick, RestPick, NotAfter, LeftFor, Claimable;
    KinTaken(c);
    RestTaken(c);
    RestIsFront(c);
    assert |Taken(c)| == |c.kin| + |Support(c.rest)|;
  }

  /**
   With distinct sources a claim takes the affinity rows first and then exactly the
   front of the queue: as many of the remaining eligible rows as fit, none behind
   a row it leaves.
   */
  lemma ClaimTakesFront(t: Tables, c: ClaimTx, r: Tables)
    requires ClaimMakes(t, c, r) && NoDuplicates(c.sources)
    ensures |Taken(c)| == Min(c.limit, |c.kin| + |LeftFor(c)|) && Support(c.rest) <= LeftFor(c)
    ensures forall x, y :: x in Support(c.rest) && y in LeftFor(c) - Support(c.rest) ==> NotAfter(c.swept.items, x, y)
  {
    KinTaken(c);
    ClaimSize(c);
    FrontOfSwept(c);
  }

  lemma DistinctSupport(pool: set<nat>, pick: multiset<nat>)
    requires pick <= multiset(pool)
    ensures Support(pick) <= pool && |Support(pick)| == |pick|
  {
    assert pick == multiset(Support(pick));
  }

  // ----------------------------------------------------------- rows only advance

  /** What any transaction may do to a job row. */
  predicate JobAdvances(x: Job, y: Job) {
    && y.team == x.team && y.credential == x.credential && y.provider == x.provider
    && (Terminal(x.state) ==> y == x)
    && (y.state.Queued? ==> y == x)
    && x.fence <= y.fence
    && (!y.state.Cancelled? ==> y.fence == x.fence)
  }

  predicate JobsAdvance(t: Tables, r: Tables) {
    |t.jobs| <= |r.jobs| && forall j :: 0 <= j < |t.jobs| ==> JobAdvances(t.jobs[j], r.jobs[j])
  }

  lemma PromoteLockedAdvances(t: Tables)
    ensures JobsAdvance(t, PromoteLocked(t))
  {
    var active := ActiveCount(t.jobs);
    PromoteOnlyStarts(t, if active >= MAX_ACTIVE_JOBS then 0 else MAX_ACTIVE_JOBS - active);
  }

  lemma EndJobAdvances(t: Tables, j: nat, row: Job)
    requires j < |t.jobs| && JobAdvances(t.jobs[j], row)
    ensures JobsAdvance(t, EndJob(t, j, row))
    ensures Terminal(row.state) ==> EndJob(t, j, row).jobs[j] == row
  {
    PromoteLockedAdvances(TerminalIntents(t.(jobs := t.jobs[j := row]), j, row.state));
  }

  lemma FinishAdvances(t: Tables, j: nat)
    requires j < |t.jobs|
    ensures JobsAdvance(t, FinishIfDrained(t, j))
  {
    if t.jobs[j].state.Running? && !HasLive(t.items, j) {
      EndJobAdvances(t, j, Drained(t, j));
    }
  }

  lemma {:induction false} FinishAllAdvances(t: Tables, visited: seq<nat>)
    requires forall k :: 0 <= k < |visited| ==> visited[k] < |t.jobs|
    ensures JobsAdvance(t, FinishAll(t, visited))
    decreases |visited|
  {
    if visited != [] {
      FinishAdvances(t, visited[0]);
      FinishAllAdvances(FinishIfDrained(t, visited[0]), visited[1..]);
    }
  }

  lemma StepAdvancesJobs(t: Tables, a: Action, r: Tables)
    requires Inv(t) && Step(t, a, r)
    ensures JobsAdvance(t, r)
  {
    hide Inv, JobsAdvance, ClaimMakes, CancelTx, AdmitTx, PublishTx;
    match a
    case Admit(s, reusable) => AdmitAdvancesJobs(t, s, reusable);
    case Cancel(j, team) => CancelAdvancesJobs(t, j, team);
    case Claim(c) => ClaimAdvancesJobs(t, c, r);
    case Publish(p, now) => PublishAdvancesJobs(t, p, now);
  }

  lemma AdmitAdvancesJobs(t: Tables, s: Submission, reusable: Reusable)
    ensures JobsAdvance(t, AdmitTx(t, s, reusable))
  {
    hide ToFetch, ActiveCount, NewItems;
  }

  lemma CancelAdvancesJobs(t: Tables, j: nat, team: nat)
    requires Inv(t)
    ensures JobsAdvance(t, CancelTx(t, j, team))
  {
    hide Inv;
    if Cancellable(t, j, team) {
      CancelJobRow(t, j, team);
    }
  }

  lemma ClaimAdvancesJobs(t: Tables, c: ClaimTx, r: Tables)
    requires ClaimMakes(t, c, r)
    ensures JobsAdvance(t, r)
  {
    hide JobsAdvance, IsTop, NestedPick, Claimable, FinishAll, Enumerates;
    ClaimTakes(t, c, r);
    var swept := t.(items := SweptItems(t.items, ExpiredItems(t, c.now, c.barred.locked)));
    FinishAllAdvances(swept, c.visited);
    SameJobs(t, swept, c.swept, r);
  }

  /** Whether jobs advance is read off the job tables alone. */
  lemma SameJobs(t: Tables, swept: Tables, after: Tables, r: Tables)
    requires t.jobs == swept.jobs && after.jobs == r.jobs && JobsAdvance(swept, after)
    ensures JobsAdvance(t, r)
  {
  }

  lemma PublishAdvancesJobs(t: Tables, p: Publication, now: int)
    requires p.item < |t.items|
    ensures JobsAdvance(t, PublishTx(t, p, now))
  {
    hide FinishIfDrained, UpsertedEntry;
    if FenceHolds(t, p) {
      var row := PublishedRow(t.items[p.item], UpsertedEntry(t, p, now).id, p.resultObject);
      FinishAdvances(Observed(t, p, now).(items := t.items[p.item := row]), t.items[p.item].job);
    }
  }

  /** A cancelled job ends with its fence moved past every lease taken while it ran. */
  lemma CancelJobRow(t: Tables, j: nat, team: nat)
    requires Inv(t) && Cancellable(t, j, team)
    ensures JobsAdvance(t, CancelTx(t, j, team))
    ensures CancelTx(t, j, team).jobs[j].state.Cancelled?
    ensures t.jobs[j].state.Running? ==> CancelTx(t, j, team).jobs[j].fence == t.jobs[j].fence + 1
  {
    hide Backed, ItemsOk, Fifo, Announced, GateFull, CancelledItems, PromoteLocked;
    assert JobOk(t, j);
    var before := t.jobs[j];
    var asked := if before.state.Running? then
        WithEvent(t.(jobs := t.jobs[j := before.(state := JobState.Cancelling, fence := before.fence + 1)]), j,
          CancellationRequested)
      else t;
    var row := asked.jobs[j].(state := JobState.Cancelled);
    var closed :=
      TerminalIntents(asked.(items := CancelledItems(t.items, j), jobs := asked.jobs[j := row]), j, row.state);
    assert closed.jobs == t.jobs[j := row];
    PromoteLockedAdvances(closed);
    assert CancelTx(t, j, team) == PromoteLocked(closed);
  }

  /** What any transaction may do to an item row. */
  predicate ItemAdvances(x: Item, y: Item) {
    && y.job == x.job && y.team == x.team && y.ordinal == x.ordinal && y.document == x.document && y.source == x.source
    && (!Live(x) ==> y == x)
    && x.attempts <= y.attempts
  }

  predicate ItemsAdvance(t: Tables, r: Tables) {
    |t.items| <= |r.items| && forall i :: 0 <= i < |t.items| ==> ItemAdvances(t.items[i], r.items[i])
  }

  /** The item table after a sweep: the jobs it finishes do not touch it. */
  lemma SweptTable(t: Tables, now: int, locked: set<nat>, visited: seq<nat>, r: Tables)
    requires SweepMakes(t, now, locked, visited, r)
    ensures r.items == SweptItems(t.items, ExpiredItems(t, now, locked))
  {
  }

  lemma ClaimAdvancesItems(t: Tables, c: ClaimTx, r: Tables)
    requires ClaimMakes(t, c, r)
    ensures ItemsAdvance(t, r)
  {
    SweptTable(t, c.now, c.barred.locked, c.visited, c.swept);
    ClaimTakes(t, c, r);
    SweepThenClaimAdvances(t.items, ExpiredItems(t, c.now, c.barred.locked), c.swept, Taken(c), c.worker, c.now);
  }

  lemma SweepThenClaimAdvances(items: seq<Item>, ids: set<nat>, swept: Tables, taken: set<nat>, worker: string,
      now: int)
    requires swept.items == SweptItems(items, ids) && RowsInRange(swept)
    requires forall i :: i in ids && i < |items| ==> Live(items[i])
    requires forall i :: i in taken ==> i < |items| && Live(swept.items[i])
    ensures forall i :: 0 <= i < |items| ==> ItemAdvances(items[i], Claimed(swept, taken, worker, now).items[i])
  {
  }

  lemma StepAdvancesItems(t: Tables, a: Action, r: Tables)
    requires Step(t, a, r)
    ensures ItemsAdvance(t, r)
  {
    hide ClaimMakes, PublishTx, FenceHolds, NewItems, UpsertedEntry, EndJob;
    match a
    case Admit(s, reusable) =>
    case Cancel(j, team) =>
    case Claim(c) => ClaimAdvancesItems(t, c, r);
    case Publish(p, now) => PublishAdvancesItems(t, p, now);
  }

  lemma PublishAdvancesItems(t: Tables, p: Publication, now: int)
    requires p.item < |t.items|
    ensures ItemsAdvance(t, PublishTx(t, p, now))
  {
    hide UpsertedEntry, PublishTx;
    PublishedItems(t, p, now);
  }

  /** The item table after a publish. */
  lemma PublishedItems(t: Tables, p: Publication, now: int)
    requires p.item < |t.items|
    ensures PublishTx(t, p, now).items ==
      if FenceHolds(t, p) then
        t.items[p.item := PublishedRow(t.items[p.item], UpsertedEntry(t, p, now).id, p.resultObject)]
      else t.items
  {
  }

  lemma StepKeepsInv(t: Tables, a: Action, r: Tables)
    requires Inv(t) && Step(t, a, r)
    ensures Inv(r)
  {
    hide Inv, ClaimMakes, AdmitTx, CancelTx, PublishTx;
    match a
    case Admit(s, reusable) => AdmittedKeeps(t, s, reusable);
    case Cancel(j, team) => CancelKeeps(t, j, team);
    case Claim(c) => ClaimKeeps(t, c, r);
    case Publish(p, now) => PublishedKeeps(t, p, now);
  }

  lemma ClaimKeeps(t: Tables, c: ClaimTx, r: Tables)
    requires Inv(t) && ClaimMakes(t, c, r)
    ensures Inv(r)
  {
    hide Inv, SweepMakes, KinPick, RestPick, Claimed, Kindred, RowsInRange;
    SweepKeeps(t, c.now, c.barred.locked, c.visited, c.swept);
    ClaimTakes(t, c, r);
    ClaimedKeeps(c.swept, Taken(c), c.worker, c.now);
  }

  // ------------------------------------------------------------------ whole runs

  /** The invariant holds in every state of every run. */
  lemma {:induction false} RunKeepsInv(states: seq<Tables>, actions: seq<Action>, n: nat)
    requires Run(states, actions) && n < |states|
    ensures Inv(states[n])
  {
    hide Step, Inv;
    if n == 0 {
      EmptyInv();
    } else {
      RunKeepsInv(states, actions, n - 1);
      StepKeepsInv(states[n - 1], actions[n - 1], states[n]);
    }
  }

  lemma {:induction false} RunAdvances(states: seq<Tables>, actions: seq<Action>, m: nat, n: nat)
    requires Run(states, actions) && m <= n < |states|
    ensures JobsAdvance(states[m], states[n]) && ItemsAdvance(states[m], states[n])
    decreases n - m
  {
    hide Step, Inv;
    if m < n {
      RunAdvances(states, actions, m, n - 1);
      RunKeepsInv(states, actions, n - 1);
      StepAdvancesJobs(states[n - 1], actions[n - 1], states[n]);
      StepAdvancesItems(states[n - 1], actions[n - 1], states[n]);
    }
  }

  /**
   Admission to the gate: never more than five active jobs, none waiting beside a
   free place, and every job seen running at any earlier moment was admitted before
   every job still waiting.
   */
  lemma GateThroughoutRun(states: seq<Tables>, actions: seq<Action>, m: nat, n: nat)
    requires Run(states, actions) && m <= n < |states|
    ensures |set j | 0 <= j < |states[n].jobs| && states[n].jobs[j].state.Running?| <= 5
    ensures (exists q :: 0 <= q < |states[n].jobs| && states[n].jobs[q].state.Queued?) ==>
      |set j | 0 <= j < |states[n].jobs| && states[n].jobs[j].state.Running?| == 5
    ensures forall r, q ::
      0 <= r < |states[m].jobs| && states[m].jobs[r].state.Running? ==>
        0 <= q < |states[n].jobs| && states[n].jobs[q].state.Queued? ==> r < q
  {
    RunKeepsInv(states, actions, m);
    RunKeepsInv(states, actions, n);
    RunAdvances(states, actions, m, n);
    GateOfRunning(states[n]);
    forall r, q | 0 <= r < |states[m].jobs| && 0 <= q < |states[n].jobs| &&
      states[m].jobs[r].state.Running? && states[n].jobs[q].state.Queued? ensures r < q
    {
      if q < |states[m].jobs| {
        assert JobAdvances(states[m].jobs[q], states[n].jobs[q]);
      }
    }
  }

  /** In a committed state the active jobs are the running ones. */
  lemma GateOfRunning(t: Tables)
    requires Inv(t)
    ensures |set j | 0 <= j < |t.jobs| && t.jobs[j].state.Running?| <= 5
    ensures (exists q :: 0 <= q < |t.jobs| && t.jobs[q].state.Queued?) ==>
      |set j | 0 <= j < |t.jobs| && t.jobs[j].state.Running?| == 5
  {
    ActiveAreCounted(t.jobs);
    forall j | 0 <= j < |t.jobs| ensures !t.jobs[j].state.Cancelling? {
      NeverCancelling(t, j);
    }
    assert (set j | 0 <= j < |t.jobs| && t.jobs[j].state.Running?) ==
           (set j | 0 <= j < |t.jobs| && (t.jobs[j].state.Running? || t.jobs[j].state.Cancelling?));
  }

  predicate EndedJob(job: Job) {
    job.state in {JobState.Completed, JobState.Failed, JobState.Cancelled}
  }

  predicate EndedItem(item: Item) {
    item.state in {ItemState.Published, ItemState.Excluded, ItemState.Failed, ItemState.Cancelled}
  }

  /** Terminal jobs and items never change again. */
  lemma TerminalRowsFrozen(states: seq<Tables>, actions: seq<Action>, m: nat, n: nat)
    requires Run(states, actions) && m <= n < |states|
    ensures forall j :: 0 <= j < |states[m].jobs| && EndedJob(states[m].jobs[j]) ==>
      j < |states[n].jobs| && states[n].jobs[j] == states[m].jobs[j]
    ensures forall i :: 0 <= i < |states[m].items| && EndedItem(states[m].items[i]) ==>
      i < |states[n].items| && states[n].items[i] == states[m].items[i]
  {
    hide Step;
    RunAdvances(states, actions, m, n);
  }

  /** What is read as reusable at one moment of a run is known at every later one, also to an admission. */
  lemma ReuseLasts(states: seq<Tables>, actions: seq<Action>, m: nat, n: nat, s: Submission, reusable: Reusable)
    requires Run(states, actions) && m <= n < |states| && ReuseKnown(states[m], s, reusable)
    ensures ReuseKnown(states[n], s, reusable)
  {
    hide Run, HeldBy;
    TerminalRowsFrozen(states, actions, m, n);
    forall pair | pair in reusable ensures Holds(states[n].items, s.team, pair, reusable[pair]) {
      assert Holds(states[m].items, s.team, pair, reusable[pair]);
      var i :| 0 <= i < |states[m].items| && HeldBy(states[m].items[i], s.team, pair, reusable[pair]);
      HeldIsDone(states[m].items[i], s.team, pair, reusable[pair]);
      assert states[n].items[i] == states[m].items[i];
    }
  }

  lemma HeldIsDone(item: Item, team: nat, pair: (string, string), entry: nat)
    requires HeldBy(item, team, pair, entry)
    ensures EndedItem(item)
  {
  }

  /** A notice is for the one terminal event of a job that has ended, and names the state it ended in. */
  predicate TellsOfEnd(t: Tables, notice: Notice, j: nat)
    requires j < |t.jobs|
  {
    Terminal(t.jobs[j].state) && notice.state == t.jobs[j].state && TerminalEvents(t.events, j) == [notice.event]
  }

  lemma NoticesTellOfEnds(t: Tables, k: nat)
    requires Announced(t) && k < |t.outbox|
    ensures t.outbox[k].job < |t.jobs| && TellsOfEnd(t, t.outbox[k], t.outbox[k].job)
  {
    var notice := t.outbox[k];
    assert NoticeOk(t.events, notice);
    assert t.events[notice.event].job == notice.job;
    assert AnnouncedJob(t, notice.job);
    AmongTerminalEvents(t.events, notice.job, notice.event);
  }

  lemma {:induction false} AmongTerminalEvents(events: seq<Event>, j: nat, e: nat)
    requires e < |events| && events[e].job == j && TerminalEvent(events[e])
    ensures e in TerminalEvents(events, j)
  {
    if e < |events| - 1 {
      AmongTerminalEvents(events[..|events| - 1], j, e);
    }
  }

  /** What an outside reader may rely on about every job of every reachable state. */
  lemma JobsTellTheTruth(states: seq<Tables>, actions: seq<Action>, n: nat, j: nat)
    requires Run(states, actions) && n < |states| && j < |states[n].jobs|
    ensures var t := states[n]; var state := t.jobs[j].state;
      && !state.Cancelling?
      && (state.Queued? || state.Running? <==> HasLive(t.items, j))
      && (state.Failed? ==> !HasPublished(t.items, j) && t.jobs[j].reason == Some("no_results"))
      && (state.Completed? ==> HasPublished(t.items, j) || t.jobs[j].reason == Some("all_records_excluded"))
      && (state.Completed? || state.Failed? || state.Cancelled? ==>
            && |TerminalEvents(t.events, j)| == 1
            && ChannelsOf(t.outbox, TerminalEvents(t.events, j)[0]) == [InApp, Email, KapsoWhatsapp])
      && (state.Queued? || state.Running? ==> TerminalEvents(t.events, j) == [])
    ensures forall k :: 0 <= k < |states[n].outbox| && states[n].outbox[k].job == j ==>
      TellsOfEnd(states[n], states[n].outbox[k], j)
    ensures forall k :: 0 <= k < |states[n].outbox| ==> states[n].outbox[k].job < |states[n].jobs|
  {
    RunKeepsInv(states, actions, n);
    var t := states[n];
    assert JobOk(t, j) && AnnouncedJob(t, j);
    forall k | 0 <= k < |t.outbox| ensures t.outbox[k].job < |t.jobs| && TellsOfEnd(t, t.outbox[k], t.outbox[k].job) {
      NoticesTellOfEnds(t, k);
    }
    if HasLive(t.items, j) {
      var i :| 0 <= i < |t.items| && t.items[i].job == j && Live(t.items[i]);
      assert ItemOk(t.jobs, t.items[i]);
    }
  }
}
