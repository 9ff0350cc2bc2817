/**
 The history behind an item's lease: who may publish it, how often it can change
 hands, and where a reused answer comes from. All statements are over whole runs.
 */
module LeaseHistory {
  import opened Basics
  import opened JobTables
  import opened ClaimQuery
  import opened QueueInvariant
  import opened QueueRuns

  ghost predicate Claims(a: Action, i: nat) {
    a.Claim? && i in Taken(a.c)
  }

  predicate Sweeps(t: Tables, a: Action, i: nat) {
    a.Claim? && i in ExpiredItems(t, a.c.now, a.c.barred.locked)
  }

  predicate Accepts(t: Tables, a: Action, i: nat) {
    a.Publish? && a.p.item == i && FenceHolds(t, a.p)
  }

  predicate Cancels(t: Tables, a: Action, i: nat) {
    a.Cancel? && Cancellable(t, a.job, a.team) && i < |t.items| && t.items[i].job == a.job
  }

  // ------------------------------------------------------- one step of one item

  /** The row of item `i` when a claim transaction has swept. */
  function AfterSweep(t: Tables, a: Action, i: nat): Item
    requires i < |t.items|
  {
    if Sweeps(t, a, i) then SweptRow(t.items[i]) else t.items[i]
  }

  /** How one step treats one item, without saying how the rows were chosen. */
  ghost predicate ItemMoves(t: Tables, a: Action, i: nat, row: Item)
    requires i < |t.items|
  {
    match a
    case Admit(_, _) => row == t.items[i]
    case Cancel(_, _) =>
      row == if Cancels(t, a, i) && Live(t.items[i]) then t.items[i].(state := ItemState.Cancelled) else t.items[i]
    case Publish(p, _) =>
      if Accepts(t, a, i) then row.state.Published? && row.attempts == t.items[i].attempts else row == t.items[i]
    case Claim(c) =>
      if Claims(a, i) then
        && AfterSweep(t, a, i).state.Pending?
        && row.state.Running? && row.owner == Some(c.worker) && row.attempts == t.items[i].attempts + 1
      else row == AfterSweep(t, a, i)
  }

  ghost predicate Moved(t: Tables, a: Action, r: Tables) {
    && |t.items| <= |r.items|
    && (forall i :: 0 <= i < |t.items| ==> ItemMoves(t, a, i, r.items[i]))
    && (forall i :: |t.items| <= i < |r.items| ==> !r.items[i].state.Running?)
    && (forall i: nat :: Claims(a, i) ==> i < |t.items|)
  }

  lemma ClaimMoved(t: Tables, c: ClaimTx, r: Tables)
    requires ClaimMakes(t, c, r)
    ensures Moved(t, Claim(c), r)
  {
    SweptTable(t, c.now, c.barred.locked, c.visited, c.swept);
    ClaimTakes(t, c, r);
    ClaimRowsMoved(t, c, r);
  }

  lemma ClaimRowsMoved(t: Tables, c: ClaimTx, r: Tables)
    requires RowsInRange(c.swept) && r == Claimed(c.swept, Taken(c), c.worker, c.now)
    requires c.swept.items == SweptItems(t.items, ExpiredItems(t, c.now, c.barred.locked))
    requires forall i :: i in Taken(c) ==> Claimable(c.swept, c.barred, i)
    ensures Moved(t, Claim(c), r)
  {
    forall i | 0 <= i < |t.items| ensures ItemMoves(t, Claim(c), i, r.items[i]) {
      assert c.swept.items[i] == AfterSweep(t, Claim(c), i);
    }
  }

  lemma NewItemsIdle(j: nat, s: Submission, reusable: Reusable)
    ensures forall k :: 0 <= k < |NewItems(j, s, reusable)| ==> !NewItems(j, s, reusable)[k].state.Running?
  {
  }

  lemma StepMoved(t: Tables, a: Action, r: Tables)
    requires Step(t, a, r)
    ensures Moved(t, a, r)
  {
    hide Moved, ClaimMakes, AdmitTx, CancelTx, PublishTx;
    match a
    case Admit(s, reusable) => AdmitMoved(t, s, reusable);
    case Cancel(j, team) => CancelMoved(t, j, team);
    case Claim(c) => ClaimMoved(t, c, r);
    case Publish(p, now) => PublishMoved(t, p, now);
  }

  lemma AdmitMoved(t: Tables, s: Submission, reusable: Reusable)
    ensures Moved(t, Admit(s, reusable), AdmitTx(t, s, reusable))
  {
    hide NewItems, AdmittedJob;
    NewItemsIdle(|t.jobs|, s, reusable);
  }

  lemma CancelMoved(t: Tables, j: nat, team: nat)
    ensures Moved(t, Cancel(j, team), CancelTx(t, j, team))
  {
    hide EndJob;
  }

  lemma PublishMoved(t: Tables, p: Publication, now: int)
    requires p.item < |t.items|
    ensures Moved(t, Publish(p, now), PublishTx(t, p, now))
  {
    hide PublishTx, UpsertedEntry;
    PublishedItems(t, p, now);
  }

  /** A run, seen as the moves of its items. */
  ghost predicate Moves(states: seq<Tables>, actions: seq<Action>) {
    |states| == |actions| + 1 && forall n :: 0 <= n < |actions| ==> Moved(states[n], actions[n], states[n + 1])
  }

  lemma RunMoves(states: seq<Tables>, actions: seq<Action>)
    requires Run(states, actions)
    ensures Moves(states, actions) && states[0].items == []
  {
    forall n | 0 <= n < |actions| ensures Moved(states[n], actions[n], states[n + 1]) {
      StepMoved(states[n], actions[n], states[n + 1]);
    }
  }

  // ----------------------------------------------------------- who may publish

  /** Nothing has touched the item since its claim. */
  ghost predicate HeldSince(states: seq<Tables>, actions: seq<Action>, c: nat, n: nat, i: nat)
    requires c <= n < |states| && n <= |actions|
  {
    && (forall k :: c < k <= n ==>
          i < |states[k].items| && i < |states[n].items| && states[k].items[i] == states[n].items[i])
    && (forall k :: c < k < n ==>
          && !Claims(actions[k], i) && !Sweeps(states[k], actions[k], i)
          && !Accepts(states[k], actions[k], i) && !Cancels(states[k], actions[k], i))
  }

  /** Every running item has a claim it is still held under. */
  lemma {:induction false} RunningHasClaim(states: seq<Tables>, actions: seq<Action>, n: nat, i: nat) returns (c: nat)
    requires Moves(states, actions) && states[0].items == []
    requires n < |states| && i < |states[n].items| && states[n].items[i].state.Running?
    ensures c < n && Claims(actions[c], i) && states[n].items[i].owner == Some(actions[c].c.worker)
    ensures HeldSince(states, actions, c, n, i)
  {
    var t, a := states[n - 1], actions[n - 1];
    assert Moved(t, a, states[n]);
    assert ItemMoves(t, a, i, states[n].items[i]);
    if Claims(a, i) {
      c := n - 1;
    } else {
      c := RunningHasClaim(states, actions, n - 1, i);
    }
  }

  /**
   An accepted publish comes from the worker of the item's latest claim; since that
   claim the item was not swept, claimed again or published, and its job was running
   and not cancelled throughout.
   */
  lemma AcceptedByLatestClaimer(states: seq<Tables>, actions: seq<Action>, n: nat) returns (c: nat)
    requires Run(states, actions) && n < |actions| && actions[n].Publish?
    requires FenceHolds(states[n], actions[n].p)
    ensures c < n && Claims(actions[c], actions[n].p.item) && actions[c].c.worker == actions[n].p.worker
    ensures HeldSince(states, actions, c, n, actions[n].p.item)
    ensures forall k :: c < k <= n ==>
      states[k].items[actions[n].p.item].job < |states[k].jobs| &&
        states[k].jobs[states[k].items[actions[n].p.item].job].state.Running?
  {
    var i := actions[n].p.item;
    RunMoves(states, actions);
    c := RunningHasClaim(states, actions, n, i);
    forall k | c < k <= n
      ensures states[k].items[i].job < |states[k].jobs| && states[k].jobs[states[k].items[i].job].state.Running?
    {
      RunKeepsInv(states, actions, k);
      assert ItemOk(states[k].jobs, states[k].items[i]);
    }
  }

  /** No item is published twice. */
  lemma PublishedOnce(states: seq<Tables>, actions: seq<Action>, m: nat, n: nat, i: nat)
    requires Run(states, actions) && m < |actions| && n < |actions|
    requires Accepts(states[m], actions[m], i) && Accepts(states[n], actions[n], i)
    ensures m == n
  {
    if m < n {
      PublishedItems(states[m], actions[m].p, actions[m].now);
      TerminalRowsFrozen(states, actions, m + 1, n);
    } else if n < m {
      PublishedItems(states[n], actions[n].p, actions[n].now);
      TerminalRowsFrozen(states, actions, n + 1, m);
    }
  }

  /** A rejected publish still records what was observed, and nothing else. */
  lemma RejectedStillObserves(t: Tables, p: Publication, now: int)
    requires p.item < |t.items| && !FenceHolds(t, p)
    ensures var r := PublishTx(t, p, now);
      && r.jobs == t.jobs && r.items == t.items && r.events == t.events && r.outbox == t.outbox
      && (p.document, p.source) in r.entries
      && r.entries[(p.document, p.source)].status == p.status
      && r.entries[(p.document, p.source)].confirmedAt == now
      && |r.ledger| == |t.ledger| + |p.attempts|
      && r.ledger[..|t.ledger|] == t.ledger
      && forall k :: 0 <= k < |p.attempts| ==> r.ledger[|t.ledger| + k].attempt == p.attempts[k]
  {
  }

  // ------------------------------------------------ a late lane of the same worker

  /** Only claims raise the attempt counter, so it numbers an item's leases. */
  lemma {:induction false} AttemptsCountClaims(states: seq<Tables>, actions: seq<Action>, m: nat, n: nat, i: nat)
    requires Moves(states, actions) && m <= n < |states| && i < |states[m].items|
    ensures i < |states[n].items| && states[m].items[i].attempts <= states[n].items[i].attempts
    ensures states[m].items[i].attempts == states[n].items[i].attempts <==>
      (forall k :: m <= k < n ==> !Claims(actions[k], i))
    decreases n - m
  {
    if m < n {
      AttemptsCountClaims(states, actions, m, n - 1, i);
      assert Moved(states[n - 1], actions[n - 1], states[n]);
      assert ItemMoves(states[n - 1], actions[n - 1], i, states[n].items[i]);
    }
  }

  /** The lease a lane got from claim `c0` is the item's current one. */
  ghost predicate LeaseCurrent(states: seq<Tables>, actions: seq<Action>, c0: nat, n: nat, i: nat)
    requires c0 < n < |states| && n <= |actions|
  {
    && i < |states[n].items|
    && states[n].items[i].state.Running?
    && forall k :: c0 < k < n ==> !Claims(actions[k], i)
  }

  /**
   A lane that publishes with the lease of claim `c0` is accepted exactly when its
   worker owns the item's running lease. That is its own lease, or a later one the
   same worker took: the fence only moves on cancellation, so it does not tell two
   leases of one worker apart.
   */
  lemma LateLaneAcceptedExactlyWhen(states: seq<Tables>, actions: seq<Action>, c0: nat, n: nat, p: Publication)
    requires Run(states, actions) && c0 < n < |states|
    requires Claims(actions[c0], p.item) && p.worker == actions[c0].c.worker
    requires p.item < |states[c0 + 1].items| && p.fence == states[c0 + 1].items[p.item].fence
    ensures p.item < |states[n].items|
    ensures FenceHolds(states[n], p) <==>
      states[n].items[p.item].state.Running? && states[n].items[p.item].owner == Some(p.worker)
    ensures FenceHolds(states[n], p) && !LeaseCurrent(states, actions, c0, n, p.item) <==>
      && states[n].items[p.item].state.Running?
      && states[n].items[p.item].owner == Some(p.worker)
      && exists k :: c0 < k < n && Claims(actions[k], p.item)
  {
    hide Step, Inv, Moved;
    var i := p.item;
    RunAdvances(states, actions, c0 + 1, n);
    var first, now := states[c0 + 1], states[n];
    ItemOkInRun(states, actions, c0 + 1, i);
    ItemOkInRun(states, actions, n, i);
    StepMoved(states[c0], actions[c0], first);
    JustClaimed(states[c0], actions[c0], first, i);
    assert ItemAdvances(first.items[i], now.items[i]);
    assert JobAdvances(first.jobs[first.items[i].job], now.jobs[now.items[i].job]);
  }

  lemma ItemOkInRun(states: seq<Tables>, actions: seq<Action>, n: nat, i: nat)
    requires Run(states, actions) && n < |states| && i < |states[n].items|
    ensures ItemOk(states[n].jobs, states[n].items[i])
  {
    RunKeepsInv(states, actions, n);
  }

  lemma JustClaimed(t: Tables, a: Action, r: Tables, i: nat)
    requires Moved(t, a, r) && Claims(a, i)
    ensures i < |t.items| && i < |r.items| && r.items[i].state.Running? && r.items[i].owner == Some(a.c.worker)
  {
    assert ItemMoves(t, a, i, r.items[i]);
  }

  /** One worker, one document: claimed, expired, claimed again by another lane. */
  const SAMPLE := Submission(0, 0, "geonode", SubmissionPlan([PlannedItem(1, "10412345678", "osiptel")], []))

  const LATE := Publication(0, "w", 0, "10412345678", "osiptel", "geonode", LookupStatus.Ok, "", None, 0, 0, [])

  lemma OnlyRowPicked(t: Tables) returns (pick: multiset<nat>)
    requires |t.items| == 1 && Claimable(t, Barred({}, {}), 0) && t.items[0].source == Some("osiptel")
    ensures NestedPick(t, Barred({}, {}), ["osiptel"], 1, pick) && Support(pick) == {0}
  {
    pick := NestedPickExists(t, Barred({}, {}), ["osiptel"], 1);
    NestedIsFlat(t, Barred({}, {}), ["osiptel"], 1, pick);
    assert Eligible(t, Barred({}, {}), ["osiptel"]) == {0};
    FlatFront(t.items, {0}, 1, pick);
    assert |{0}| == 1;
    OnlyMember(Support(pick), 0);
  }

  lemma OnlyMember(s: set<nat>, x: nat)
    requires s <= {x} && |s| == 1
    ensures s == {x}
  {
    var y :| y in s;
  }

  /** A claim by worker "w" that finds the sample's single item free after its sweep. */
  lemma SampleClaim(t: Tables, now: int, visited: seq<nat>, swept: Tables) returns (c: ClaimTx, r: Tables)
    requires SweepMakes(t, now, {}, visited, swept) && RowsInRange(swept)
    requires |swept.items| == 1 && Claimable(swept, Barred({}, {}), 0) && swept.items[0].source == Some("osiptel")
    ensures Step(t, Claim(c), r) && Claims(Claim(c), 0) && c.worker == "w"
    ensures r == Claimed(swept, {0}, "w", now)
  {
    hide NestedPick, SweepMakes, Claimed, RowsInRange, Claimable, Support, Kindred;
    var pick := OnlyRowPicked(swept);
    c, r := WholeClaim(t, "w", ["osiptel"], 1, now, visited, swept, pick);
  }

  /** Nothing is locked and no breaker is open. */
  const NOTHING: Barred := Barred({}, {})

  /** A claim without affinity that takes a legal pick of what its sweep left. */
  lemma WholeClaim(t: Tables, worker: string, sources: seq<string>, k: nat, now: int, visited: seq<nat>, swept: Tables,
      pick: multiset<nat>)
    returns (c: ClaimTx, r: Tables)
    requires RowsInRange(swept) && SweepMakes(t, now, {}, visited, swept) && k > 0
    requires NestedPick(swept, NOTHING, sources, k, pick)
    ensures Step(t, Claim(c), r) && Taken(c) == Support(pick) && r == Claimed(swept, Support(pick), worker, now)
    ensures c.worker == worker && c.sources == sources && c.limit == k && c.barred == NOTHING
    ensures c.affinity == None && c.swept == swept
  {
    hide NestedPick, SweepMakes, Claimed, RowsInRange, Support, Kindred;
    c := ClaimTx(worker, sources, k, None, now, NOTHING, visited, swept, {}, pick);
    KindredOfNone(c);
    r := Claimed(swept, Support(pick), worker, now);
    assert ClaimMakes(t, c, r);
    assert Taken(c) == Support(pick);
  }

  lemma KindredOfNone(c: ClaimTx)
    requires RowsInRange(c.swept) && c.kin == {}
    ensures Kindred(c) == c.swept
  {
    assert Kindred(c).items == c.swept.items;
  }

  lemma ExtendRun(states: seq<Tables>, actions: seq<Action>, a: Action, r: Tables)
    requires Run(states, actions) && Step(states[|actions|], a, r)
    ensures Run(states + [r], actions + [a])
  {
    hide Step;
    var more, does := states + [r], actions + [a];
    forall n | 0 <= n < |does| ensures Step(more[n], does[n], more[n + 1]) {
      if n < |actions| {
        assert more[n] == states[n] && more[n + 1] == states[n + 1];
      }
    }
  }

  /** Reassignment to another lane of the same worker does not stop the first lane from publishing. */
  lemma LateLaneAccepted() returns (states: seq<Tables>, actions: seq<Action>)
    ensures Run(states, actions) && |actions| == 3
    ensures Claims(actions[1], 0) && Claims(actions[2], 0) && actions[1].c.worker == LATE.worker
    ensures |states[2].items| == 1 && states[2].items[0].fence == LATE.fence
    ensures FenceHolds(states[3], LATE) && !LeaseCurrent(states, actions, 1, 3, 0)
  {
    hide Run, Step, ClaimMakes, FenceHolds, LeaseCurrent, SweepMakes, AdmitTx, Claimed;
    var t1 := AdmitTx(EMPTY, SAMPLE, map[]);
    SampleAdmitted(t1);
    var c1, t2 := SampleClaim(t1, 0, [], t1);
    var c2, t3 := SampleReclaim(t1, t2);
    SampleRun(t1, c1, t2, c2, t3);
    states := [EMPTY] + [t1] + [t2] + [t3];
    actions := [] + [Admit(SAMPLE, map[])] + [Claim(c1)] + [Claim(c2)];
    SecondClaimHides(states, actions);
  }

  lemma SampleReclaim(t1: Tables, t2: Tables) returns (c: ClaimTx, r: Tables)
    requires RowsInRange(t1) && t2 == Claimed(t1, {0}, "w", 0)
    requires t1.items == [PendingRow(0, 0, PlannedItem(1, "10412345678", "osiptel"))]
    requires t1.jobs == [Job(0, 0, "geonode", JobState.Running, 0, None)]
    ensures Step(t2, Claim(c), r) && Claims(Claim(c), 0)
    ensures |t2.items| == 1 && t2.items[0].fence == LATE.fence
    ensures FenceHolds(r, LATE)
  {
    var swept := t2.(items := SweptItems(t2.items, {0}));
    SampleSwept(t2, swept);
    c, r := SampleClaim(t2, 301, [0], swept);
  }

  lemma SecondClaimHides(states: seq<Tables>, actions: seq<Action>)
    requires |states| == 4 && |actions| == 3 && Claims(actions[2], 0)
    ensures !LeaseCurrent(states, actions, 1, 3, 0)
  {
  }

  lemma SampleRun(t1: Tables, c1: ClaimTx, t2: Tables, c2: ClaimTx, t3: Tables)
    requires Step(EMPTY, Admit(SAMPLE, map[]), t1) && Step(t1, Claim(c1), t2) && Step(t2, Claim(c2), t3)
    ensures Run([EMPTY] + [t1] + [t2] + [t3], [] + [Admit(SAMPLE, map[])] + [Claim(c1)] + [Claim(c2)])
  {
    ExtendRun([EMPTY], [], Admit(SAMPLE, map[]), t1);
    ExtendRun([EMPTY] + [t1], [] + [Admit(SAMPLE, map[])], Claim(c1), t2);
    ExtendRun([EMPTY] + [t1] + [t2], [] + [Admit(SAMPLE, map[])] + [Claim(c1)], Claim(c2), t3);
  }

  lemma SampleAdmitted(t: Tables)
    requires t == AdmitTx(EMPTY, SAMPLE, map[])
    ensures t.items == [PendingRow(0, 0, PlannedItem(1, "10412345678", "osiptel"))]
    ensures t.jobs == [Job(0, 0, "geonode", JobState.Running, 0, None)]
    ensures SweepMakes(t, 0, {}, [], t) && RowsInRange(t)
  {
    var p := SAMPLE.plan.items;
    assert p[1..] == [];
    assert ToFetch(p, map[]) == [p[0]] && Reused(p, map[]) == [];
    assert t.items == [PendingRow(0, 0, p[0])];
    assert ExpiredItems(t, 0, {}) == {};
    assert JobsOf(t.items, {}) == {};
    assert t.(items := SweptItems(t.items, {})) == t;
  }

  lemma SampleSwept(t: Tables, swept: Tables)
    requires |t.items| == 1 && t.jobs == [Job(0, 0, "geonode", JobState.Running, 0, None)]
    requires t.items[0].job == 0 && t.items[0].state.Running? && t.items[0].attempts == 1
    requires t.items[0].expires == Some(300)
    requires swept == t.(items := SweptItems(t.items, {0}))
    ensures SweepMakes(t, 301, {}, [0], swept)
    ensures swept.items == [SweptRow(t.items[0])]
  {
    assert ExpiredItems(t, 301, {}) == {0};
    assert JobsOf(t.items, {0}) == {0};
    assert swept.items[0].job == 0 && Live(swept.items[0]);
    assert HasLive(swept.items, 0);
    assert FinishAll(swept, [0]) == swept;
  }
}
