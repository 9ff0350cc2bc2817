/**
 How much work an admitted item can cause, and which lookup a reused answer came
 from.
 */
module LeaseBounds {
  import opened Basics
  import opened JobTables
  import opened ClaimQuery
  import opened QueueInvariant
  import opened QueueRuns
  import opened LeaseHistory
  import opened QueueColumns

  // -------------------------------------------------------- a bound on transitions

  /** Transitions an item can still make; each lease costs a claim and an expiry. */
  function Remaining(item: Item): nat {
    var leases := if item.attempts <= MAX_LEASE_ATTEMPTS then MAX_LEASE_ATTEMPTS - item.attempts else 0;
    match item.state
    case Pending => 2 * leases
    case Running => 2 * leases + 1
    case _ => 0
  }

  function Potential(items: seq<Item>): nat {
    if |items| == 0 then 0 else Potential(items[..|items| - 1]) + Remaining(items[|items| - 1])
  }

  function LiveItems(items: seq<Item>, j: nat): set<nat> {
    set i | 0 <= i < |items| && items[i].job == j && Live(items[i])
  }

  /** Item transitions one step makes; a claim transaction first expires, then claims. */
  ghost function Transitions(t: Tables, a: Action): nat {
    match a
    case Admit(_, _) => 0
    case Cancel(j, team) => if Cancellable(t, j, team) then |LiveItems(t.items, j)| else 0
    case Claim(c) => |ExpiredItems(t, c.now, c.barred.locked)| + |Taken(c)|
    case Publish(p, _) => if FenceHolds(t, p) then 1 else 0
  }

  function Admissions(a: Action): nat {
    match a
    case Admit(s, reusable) => |ToFetch(s.plan.items, reusable)|
    case _ => 0
  }

  lemma {:induction false} PotentialDrops(items: seq<Item>, r: seq<Item>, changed: set<nat>)
    requires |items| == |r|
    requires forall i :: i in changed ==> i < |items|
    requires forall i :: 0 <= i < |items| ==> Remaining(r[i]) + (if i in changed then 1 else 0) <= Remaining(items[i])
    ensures Potential(r) + |changed| <= Potential(items)
  {
    if |items| == 0 {
      assert changed == {};
    } else {
      var last := |items| - 1;
      PotentialDrops(items[..last], r[..last], changed - {last});
    }
  }

  lemma {:induction false} PotentialAppends(items: seq<Item>, more: seq<Item>)
    ensures Potential(items + more) == Potential(items) + Potential(more)
  {
    if |more| == 0 {
      assert items + more == items;
    } else {
      var last := |more| - 1;
      PotentialAppends(items, more[..last]);
      assert (items + more)[..|items + more| - 1] == items + more[..last];
    }
  }

  lemma {:induction false} FreshPotential(items: seq<Item>, each: nat)
    requires forall i :: 0 <= i < |items| ==> Remaining(items[i]) == each
    ensures Potential(items) == each * |items|
  {
    if |items| > 0 {
      FreshPotential(items[..|items| - 1], each);
    }
  }

  lemma NewItemsPotential(j: nat, s: Submission, reusable: Reusable)
    ensures Potential(NewItems(j, s, reusable)) == 8 * |ToFetch(s.plan.items, reusable)|
  {
    hide Potential, ToFetch, Reused;
    var a := PendingRows(j, s.team, ToFetch(s.plan.items, reusable));
    var b := ReusedRows(j, s.team, Reused(s.plan.items, reusable), reusable);
    var c := ExcludedRows(j, s.team, s.plan.exclusions);
    FreshPotential(a, 8);
    FreshPotential(b, 0);
    FreshPotential(c, 0);
    PotentialAppends(a, b);
    PotentialAppends(a + b, c);
  }

  lemma SweepSpends(items: seq<Item>, ids: set<nat>)
    requires forall i :: i in ids ==> i < |items| && items[i].state.Running?
    ensures Potential(SweptItems(items, ids)) + |ids| <= Potential(items)
  {
    PotentialDrops(items, SweptItems(items, ids), ids);
  }

  lemma ClaimSpends(t: Tables, ids: set<nat>, worker: string, now: int)
    requires RowsInRange(t)
    requires forall i :: i in ids ==>
      i < |t.items| && t.items[i].state.Pending? && t.items[i].attempts < MAX_LEASE_ATTEMPTS
    ensures Potential(Claimed(t, ids, worker, now).items) + |ids| <= Potential(t.items)
  {
    PotentialDrops(t.items, Claimed(t, ids, worker, now).items, ids);
  }

  /** Every step pays for its transitions out of what admissions brought in. */
  lemma StepSpends(t: Tables, a: Action, r: Tables)
    requires Inv(t) && Step(t, a, r)
    ensures Potential(r.items) + Transitions(t, a) <= Potential(t.items) + 8 * Admissions(a)
  {
    hide Inv, Potential, ClaimMakes, CancelTx, PublishTx, NewItems, ToFetch, FenceHolds, Cancellable, LiveItems;
    match a
    case Admit(s, reusable) =>
      PotentialAppends(t.items, NewItems(|t.jobs|, s, reusable));
      NewItemsPotential(|t.jobs|, s, reusable);
    case Cancel(j, team) => CancelSpends(t, j, team);
    case Claim(c) => ClaimTxSpends(t, c, r);
    case Publish(p, now) => PublishSpends(t, p, now);
  }

  lemma CancelSpends(t: Tables, j: nat, team: nat)
    requires Inv(t)
    ensures Potential(CancelTx(t, j, team).items) + Transitions(t, Cancel(j, team)) <= Potential(t.items)
  {
    hide Potential, EndJob;
    if Cancellable(t, j, team) {
      forall i | 0 <= i < |t.items| ensures Live(t.items[i]) ==> Remaining(t.items[i]) > 0 {
        assert ItemOk(t.jobs, t.items[i]);
      }
      PotentialDrops(t.items, CancelledItems(t.items, j), LiveItems(t.items, j));
    }
  }

  lemma PublishSpends(t: Tables, p: Publication, now: int)
    requires p.item < |t.items|
    ensures Potential(PublishTx(t, p, now).items) + Transitions(t, Publish(p, now)) <= Potential(t.items)
  {
    hide Potential, PublishTx, UpsertedEntry;
    PublishedItems(t, p, now);
    PotentialDrops(t.items, PublishTx(t, p, now).items, if FenceHolds(t, p) then {p.item} else {});
  }

  lemma ClaimTxSpends(t: Tables, c: ClaimTx, r: Tables)
    requires Inv(t) && ClaimMakes(t, c, r)
    ensures Potential(r.items) + |ExpiredItems(t, c.now, c.barred.locked)| + |Taken(c)| <= Potential(t.items)
  {
    SweptTable(t, c.now, c.barred.locked, c.visited, c.swept);
    SweepKeeps(t, c.now, c.barred.locked, c.visited, c.swept);
    ClaimTakes(t, c, r);
    SweepSpends(t.items, ExpiredItems(t, c.now, c.barred.locked));
    forall i | i in Taken(c)
      ensures i < |c.swept.items| && c.swept.items[i].state.Pending? && c.swept.items[i].attempts < MAX_LEASE_ATTEMPTS
    {
      assert Claimable(c.swept, c.barred, i);
      assert ItemOk(c.swept.jobs, c.swept.items[i]);
    }
    ClaimSpends(c.swept, Taken(c), c.worker, c.now);
  }

  ghost function TotalTransitions(states: seq<Tables>, actions: seq<Action>, n: nat): nat
    requires n <= |actions| < |states|
  {
    if n == 0 then 0 else TotalTransitions(states, actions, n - 1) + Transitions(states[n - 1], actions[n - 1])
  }

  function TotalAdmissions(actions: seq<Action>, n: nat): nat
    requires n <= |actions|
  {
    if n == 0 then 0 else TotalAdmissions(actions, n - 1) + Admissions(actions[n - 1])
  }

  /** Any run makes at most eight item transitions for each item admitted to be fetched. */
  lemma {:induction false} TransitionsBounded(states: seq<Tables>, actions: seq<Action>, n: nat)
    requires Run(states, actions) && n <= |actions|
    ensures TotalTransitions(states, actions, n) + Potential(states[n].items) <= 8 * TotalAdmissions(actions, n)
  {
    hide Step, Inv, Transitions, Admissions;
    assert EMPTY.items == [];
    if n > 0 {
      TransitionsBounded(states, actions, n - 1);
      RunKeepsInv(states, actions, n - 1);
      StepSpends(states[n - 1], actions[n - 1], states[n]);
    }
  }

  /** The rows of `t` that are not as they were, and the rows that are new and wait to be fetched. */
  function ChangedRows(t: Tables, r: Tables): set<nat> {
    set i | 0 <= i < |t.items| && i < |r.items| && r.items[i] != t.items[i]
  }

  function NewPending(t: Tables, r: Tables): set<nat> {
    set i | |t.items| <= i < |r.items| && r.items[i].state.Pending?
  }

  lemma ChangesAreTransitions(t: Tables, a: Action, r: Tables)
    requires Step(t, a, r)
    ensures |ChangedRows(t, r)| <= Transitions(t, a)
  {
    hide ClaimMakes, CancelTx, PublishTx, AdmitTx, FenceHolds, LiveItems;
    StepMoved(t, a, r);
    hide Step;
    match a
    case Admit(s, reusable) =>
      OnlyChanged(t, a, r, {});
    case Cancel(j, team) =>
      CancelChanges(t, j, team, r);
    case Claim(c) =>
      OnlyChanged(t, a, r, ExpiredItems(t, c.now, c.barred.locked) + Taken(c));
      assert |ExpiredItems(t, c.now, c.barred.locked) + Taken(c)| <= Transitions(t, a);
    case Publish(p, now) =>
      OnlyChanged(t, a, r, if FenceHolds(t, p) then {p.item} else {});
  }

  lemma OnlyChanged(t: Tables, a: Action, r: Tables, some: set<nat>)
    requires Moved(t, a, r)
    requires match a
      case Admit(_, _) => true
      case Cancel(j, team) => Cancellable(t, j, team) ==> LiveItems(t.items, j) <= some
      case Claim(c) => ExpiredItems(t, c.now, c.barred.locked) + Taken(c) <= some
      case Publish(p, _) => FenceHolds(t, p) ==> p.item in some
    ensures |ChangedRows(t, r)| <= |some|
  {
    hide FenceHolds, Cancellable, ExpiredItems, Taken, SweptRow;
    forall i | i in ChangedRows(t, r) ensures i in some {
      assert ItemMoves(t, a, i, r.items[i]);
    }
    Fewer(ChangedRows(t, r), some);
  }

  lemma CancelChanges(t: Tables, j: nat, team: nat, r: Tables)
    requires Moved(t, Cancel(j, team), r)
    ensures |ChangedRows(t, r)| <= Transitions(t, Cancel(j, team))
  {
    OnlyChanged(t, Cancel(j, team), r, if Cancellable(t, j, team) then LiveItems(t.items, j) else {});
  }

  lemma ArrivalsAreAdmissions(t: Tables, a: Action, r: Tables)
    requires Step(t, a, r)
    ensures |NewPending(t, r)| == Admissions(a)
  {
    hide ClaimMakes, CancelTx, PublishTx, ToFetch;
    if a.Admit? {
      var more := NewItems(|t.jobs|, a.s, a.reusable);
      var fetch := ToFetch(a.s.plan.items, a.reusable);
      RowsInOrder(|t.jobs|, a.s, a.reusable);
      assert r.items == t.items + more;
      hide NewItems;
      var order := seq(|fetch|, k requires 0 <= k < |fetch| => |t.items| + k);
      forall k | 0 <= k < |more| ensures more[k].state.Pending? <==> k < |fetch| {
        if |fetch| <= k < |fetch| + |Reused(a.s.plan.items, a.reusable)| {
          assert more[|fetch| + (k - |fetch|)].state.Published?;
        } else if |fetch| <= k {
          var gone := |fetch| + |Reused(a.s.plan.items, a.reusable)|;
          assert more[gone + (k - gone)].state.Excluded?;
        }
      }
      forall i ensures i in order <==> i in NewPending(t, r) {
        if i in NewPending(t, r) {
          assert order[i - |t.items|] == i;
        }
      }
      EnumerationSize(order, NewPending(t, r));
    } else {
      NothingArrives(t, a, r);
      assert NewPending(t, r) == {};
    }
  }

  lemma NothingArrives(t: Tables, a: Action, r: Tables)
    requires Step(t, a, r) && !a.Admit?
    ensures |r.items| == |t.items|
  {
    hide UpsertedEntry, FenceHolds;
    match a
    case Cancel(_, _) =>
    case Claim(c) =>
      SweptTable(t, c.now, c.barred.locked, c.visited, c.swept);
      ClaimTakes(t, c, r);
    case Publish(p, now) =>
      PublishedItems(t, p, now);
  }

  function RowChanges(states: seq<Tables>, n: nat): nat
    requires n < |states|
  {
    if n == 0 then 0 else RowChanges(states, n - 1) + |ChangedRows(states[n - 1], states[n])|
  }

  function Arrivals(states: seq<Tables>, n: nat): nat
    requires n < |states|
  {
    if n == 0 then 0 else Arrivals(states, n - 1) + |NewPending(states[n - 1], states[n])|
  }

  lemma {:induction false} ChangesCounted(states: seq<Tables>, actions: seq<Action>, n: nat)
    requires Run(states, actions) && n <= |actions|
    ensures RowChanges(states, n) <= TotalTransitions(states, actions, n)
    ensures Arrivals(states, n) == TotalAdmissions(actions, n)
  {
    hide Step, Transitions, Admissions, ChangedRows, NewPending;
    if n > 0 {
      ChangesCounted(states, actions, n - 1);
      ChangesAreTransitions(states[n - 1], actions[n - 1], states[n]);
      ArrivalsAreAdmissions(states[n - 1], actions[n - 1], states[n]);
    }
  }

  /** So over any run item rows change at most eight times for each row that came in to be fetched. */
  lemma RowChangesBounded(states: seq<Tables>, actions: seq<Action>, n: nat)
    requires Run(states, actions) && n <= |actions|
    ensures RowChanges(states, n) <= 8 * Arrivals(states, n)
  {
    TransitionsBounded(states, actions, n);
    ChangesCounted(states, actions, n);
  }

  // --------------------------------------------------------- where an answer came from

  /**
   Every published item, reused or fetched, goes back to an accepted publish of the
   same team's item for the same document and source, with the same entry.
   */
  lemma {:induction false} AnswerHasSource(states: seq<Tables>, actions: seq<Action>, n: nat, x: nat)
    returns (m: nat, y: nat)
    requires Run(states, actions) && n < |states|
    requires x < |states[n].items| && states[n].items[x].state.Published?
    ensures m < n && Accepts(states[m], actions[m], y) && y < |states[m + 1].items|
    ensures SameAnswer(states[m + 1].items[y], states[n].items[x])
    ensures var was, row := states[m + 1].items[y], states[n].items[x];
      && was.state.Published? && was.team == row.team && was.document == row.document
      && was.source == row.source && was.entry == row.entry
  {
    hide Step;
    var t, a, r := states[n - 1], actions[n - 1], states[n];
    assert Step(t, a, r);
    var found := PublishedBefore(t, a, r, x);
    if found.None? {
      m, y := n - 1, x;
      PublishedItems(t, a.p, a.now);
    } else {
      m, y := AnswerHasSource(states, actions, n - 1, found.value);
    }
  }

  predicate SameAnswer(a: Item, b: Item) {
    && a.state.Published? && b.state.Published?
    && a.team == b.team && a.document == b.document && a.source == b.source && a.entry == b.entry
  }

  /** A published row after a step was accepted in it, or repeats a row published before it. */
  lemma PublishedBefore(t: Tables, a: Action, r: Tables, x: nat) returns (y: Option<nat>)
    requires Step(t, a, r) && x < |r.items| && r.items[x].state.Published?
    ensures y.None? ==> Accepts(t, a, x)
    ensures y.Some? ==> y.value < |t.items| && SameAnswer(t.items[y.value], r.items[x])
  {
    if x < |t.items| {
      StepMoved(t, a, r);
      y := KeptAnswer(t, a, r, x);
    } else {
      NothingInserted(t, a, r);
      var i := InsertedAnswer(t, a.s, a.reusable, x - |t.items|);
      y := Some(i);
    }
  }

  lemma KeptAnswer(t: Tables, a: Action, r: Tables, x: nat) returns (y: Option<nat>)
    requires Moved(t, a, r) && x < |t.items| && r.items[x].state.Published?
    ensures y.None? ==> Accepts(t, a, x)
    ensures y.Some? ==> y.value < |t.items| && SameAnswer(t.items[y.value], r.items[x])
  {
    assert ItemMoves(t, a, x, r.items[x]);
    y := if Accepts(t, a, x) then None else Some(x);
  }

  lemma InsertedAnswer(t: Tables, s: Submission, reusable: Reusable, k: nat) returns (y: nat)
    requires ReuseKnown(t, s, reusable)
    requires k < |NewItems(|t.jobs|, s, reusable)| && NewItems(|t.jobs|, s, reusable)[k].state.Published?
    ensures y < |t.items| && SameAnswer(t.items[y], NewItems(|t.jobs|, s, reusable)[k])
  {
    var p := ReusedSource(s, |t.jobs|, reusable, k);
    assert Holds(t.items, s.team, PairOf(p), reusable[PairOf(p)]);
    y :| 0 <= y < |t.items| && HeldBy(t.items[y], s.team, PairOf(p), reusable[PairOf(p)]);
  }

  lemma NothingInserted(t: Tables, a: Action, r: Tables)
    requires Step(t, a, r) && |t.items| < |r.items|
    ensures a.Admit? && r.items == t.items + NewItems(|t.jobs|, a.s, a.reusable)
  {
    match a
    case Admit(s, reusable) =>
    case Cancel(j, team) =>
    case Claim(c) =>
      SweptTable(t, c.now, c.barred.locked, c.visited, c.swept);
      ClaimTakes(t, c, r);
    case Publish(p, now) => PublishedItems(t, p, now);
  }

  /** A published row among the inserted ones is a reused planned item. */
  lemma ReusedSource(s: Submission, j: nat, reusable: Reusable, k: nat) returns (p: PlannedItem)
    requires k < |NewItems(j, s, reusable)| && NewItems(j, s, reusable)[k].state.Published?
    ensures PairOf(p) in reusable && NewItems(j, s, reusable)[k] == ReusedRow(j, s.team, p, reusable[PairOf(p)])
  {
    p := Reused(s.plan.items, reusable)[k - |ToFetch(s.plan.items, reusable)|];
  }

  // -------------------------------------------------- an entry is for its own pair

  /** Entry ids are handed out in order, so no two pairs share one. */
  ghost predicate EntriesOk(t: Tables) {
    && (forall pair :: pair in t.entries ==> t.entries[pair].id < |t.entries|)
    && (forall a, b :: a in t.entries && b in t.entries && a != b ==> t.entries[a].id != t.entries[b].id)
  }

  predicate OwnEntry(t: Tables, item: Item) {
    item.state.Published? ==>
      && item.source.Some? && item.entry.Some?
      && (item.document, item.source.value) in t.entries
      && t.entries[(item.document, item.source.value)].id == item.entry.value
  }

  lemma ObservedEntries(t: Tables, p: Publication, now: int)
    requires EntriesOk(t) && p.item < |t.items|
    ensures EntriesOk(Observed(t, p, now))
    ensures forall pair :: pair in t.entries ==>
      pair in Observed(t, p, now).entries && Observed(t, p, now).entries[pair].id == t.entries[pair].id
    ensures (p.document, p.source) in Observed(t, p, now).entries
  {
    EntriesGrow(t.entries, (p.document, p.source), UpsertedEntry(t, p, now));
  }

  /** An upsert adds at most the one row. */
  lemma EntriesGrow(entries: map<(string, string), Entry>, pair: (string, string), row: Entry)
    ensures |entries[pair := row]| == |entries| + if pair in entries then 0 else 1
  {
    var r := entries[pair := row];
    assert r.Keys == entries.Keys + {pair};
    if pair in entries {
      assert r.Keys == entries.Keys;
    }
    assert |r| == |r.Keys| && |entries| == |entries.Keys|;
  }

  /** FinishIfDrained does not touch the entries. */
  lemma {:induction false} PromoteKeepsEntries(t: Tables, slots: nat)
    ensures Promote(t, slots).entries == t.entries
    decreases slots
  {
    var q := FirstQueued(t.jobs);
    if slots != 0 && q != |t.jobs| {
      PromoteKeepsEntries(StartJob(t, q), slots - 1);
    }
  }

  lemma FinishKeepsEntries(t: Tables, j: nat)
    requires j < |t.jobs|
    ensures FinishIfDrained(t, j).entries == t.entries
  {
    if t.jobs[j].state.Running? && !HasLive(t.items, j) {
      EndKeepsEntries(t, j, Drained(t, j));
    }
  }

  lemma EndKeepsEntries(t: Tables, j: nat, row: Job)
    requires j < |t.jobs|
    ensures EndJob(t, j, row).entries == t.entries
  {
    var closed := TerminalIntents(t.(jobs := t.jobs[j := row]), j, row.state);
    var active := ActiveCount(closed.jobs);
    PromoteKeepsEntries(closed, if active >= MAX_ACTIVE_JOBS then 0 else MAX_ACTIVE_JOBS - active);
  }

  lemma {:induction false} FinishAllKeepsEntries(t: Tables, visited: seq<nat>)
    requires forall k :: 0 <= k < |visited| ==> visited[k] < |t.jobs|
    ensures FinishAll(t, visited).entries == t.entries
    decreases |visited|
  {
    if visited != [] {
      FinishKeepsEntries(t, visited[0]);
      FinishAllKeepsEntries(FinishIfDrained(t, visited[0]), visited[1..]);
    }
  }

  lemma PublishedEntries(t: Tables, p: Publication, now: int)
    requires p.item < |t.items|
    ensures PublishTx(t, p, now).entries == Observed(t, p, now).entries
  {
    if FenceHolds(t, p) {
      var row := PublishedRow(t.items[p.item], UpsertedEntry(t, p, now).id, p.resultObject);
      FinishKeepsEntries(Observed(t, p, now).(items := t.items[p.item := row]), t.items[p.item].job);
    }
  }

  /** Which entry an accepted publish attaches. */
  lemma PublishAttaches(t: Tables, p: Publication, now: int)
    requires EntriesOk(t) && FenceHolds(t, p) && t.items[p.item].source.Some?
    ensures p.item < |PublishTx(t, p, now).items| && PublishTx(t, p, now).items[p.item].state.Published?
    ensures OwnEntry(PublishTx(t, p, now), PublishTx(t, p, now).items[p.item]) <==>
      p.document == t.items[p.item].document && Some(p.source) == t.items[p.item].source
  {
    PublishedItems(t, p, now);
    PublishedEntries(t, p, now);
    ObservedEntries(t, p, now);
  }

  /** A publish names the document and source of its own lease. */
  predicate Honest(t: Tables, a: Action) {
    a.Publish? && a.p.item < |t.items| ==>
      a.p.document == t.items[a.p.item].document && Some(a.p.source) == t.items[a.p.item].source
  }

  ghost predicate EntriesOwned(t: Tables) {
    EntriesOk(t) && forall i :: 0 <= i < |t.items| ==> OwnEntry(t, t.items[i])
  }

  lemma OwnEntryKept(t: Tables, r: Tables, item: Item)
    requires OwnEntry(t, item)
    requires forall pair :: pair in t.entries ==> pair in r.entries && r.entries[pair].id == t.entries[pair].id
    ensures OwnEntry(r, item)
  {
  }

  lemma StepKeepsEntries(t: Tables, a: Action, r: Tables)
    requires Step(t, a, r) && !a.Publish?
    ensures r.entries == t.entries
  {
    match a
    case Admit(s, reusable) =>
    case Cancel(j, team) =>
      if Cancellable(t, j, team) {
        var asked := if t.jobs[j].state.Running? then
            WithEvent(t.(jobs := t.jobs[j := t.jobs[j].(state := JobState.Cancelling, fence := t.jobs[j].fence + 1)]),
              j, CancellationRequested)
          else t;
        EndKeepsEntries(asked.(items := CancelledItems(t.items, j)), j, asked.jobs[j].(state := JobState.Cancelled));
      }
    case Claim(c) =>
      FinishAllKeepsEntries(t.(items := SweptItems(t.items, ExpiredItems(t, c.now, c.barred.locked))), c.visited);
  }

  lemma StepKeepsEntriesOk(t: Tables, a: Action, r: Tables)
    requires EntriesOk(t) && Step(t, a, r)
    ensures EntriesOk(r)
  {
    hide EntriesOk;
    if a.Publish? {
      PublishedEntries(t, a.p, a.now);
      ObservedEntries(t, a.p, a.now);
      SameEntries(Observed(t, a.p, a.now), r);
    } else {
      StepKeepsEntries(t, a, r);
      SameEntries(t, r);
    }
  }

  lemma SameEntries(t: Tables, r: Tables)
    requires EntriesOk(t) && r.entries == t.entries
    ensures EntriesOk(r)
  {
  }

  /** In every run, whoever publishes what, no two pairs share an entry. */
  lemma {:induction false} EntriesOkInRun(states: seq<Tables>, actions: seq<Action>, n: nat)
    requires Run(states, actions) && n < |states|
    ensures EntriesOk(states[n])
    ensures var entries := states[n].entries;
      forall a, b :: a in entries && b in entries && entries[a].id == entries[b].id ==> a == b
  {
    hide Step;
    if n > 0 {
      EntriesOkInRun(states, actions, n - 1);
      StepKeepsEntriesOk(states[n - 1], actions[n - 1], states[n]);
    }
  }

  /**
   The publish takes the document and source from the request, not from the item. In
   every run the entry an accepted publish attaches is the item's own exactly when the
   two agree.
   */
  lemma AttachesOwnEntryExactlyWhen(states: seq<Tables>, actions: seq<Action>, n: nat)
    requires Run(states, actions) && n < |actions| && actions[n].Publish? && FenceHolds(states[n], actions[n].p)
    ensures var p, t, r := actions[n].p, states[n], states[n + 1];
      && p.item < |r.items| && r.items[p.item].state.Published?
      && (OwnEntry(r, r.items[p.item]) <==>
            p.document == t.items[p.item].document && Some(p.source) == t.items[p.item].source)
  {
    var p := actions[n].p;
    EntriesOkInRun(states, actions, n);
    ItemOkInRun(states, actions, n, p.item);
    assert Step(states[n], actions[n], states[n + 1]);
    hide EntriesOk, OwnEntry, Run;
    PublishAttaches(states[n], p, actions[n].now);
  }

  lemma StepKeepsOwnership(t: Tables, a: Action, r: Tables)
    requires EntriesOwned(t) && Inv(t) && Step(t, a, r) && Honest(t, a)
    ensures EntriesOwned(r)
  {
    if a.Publish? {
      PublishedEntries(t, a.p, a.now);
      ObservedEntries(t, a.p, a.now);
      PublishedItems(t, a.p, a.now);
    } else {
      StepKeepsEntries(t, a, r);
    }
    forall x | 0 <= x < |r.items| ensures OwnEntry(r, r.items[x]) {
      if r.items[x].state.Published? {
        var y := PublishedBefore(t, a, r, x);
        if y.None? {
          PublishAttaches(t, a.p, a.now);
        } else {
          OwnEntryKept(t, r, t.items[y.value]);
        }
      }
    }
  }

  /** When workers publish what they leased, every published item shows its own pair's entry. */
  lemma {:induction false} HonestRunsOwnEntries(states: seq<Tables>, actions: seq<Action>, n: nat)
    requires Run(states, actions) && n < |states|
    requires forall k :: 0 <= k < n ==> Honest(states[k], actions[k])
    ensures EntriesOwned(states[n])
    ensures var t := states[n];
      forall i :: 0 <= i < |t.items| && t.items[i].state.Published? ==>
        && t.items[i].source.Some?
        && var pair := (t.items[i].document, t.items[i].source.value);
        && pair in t.entries && t.items[i].entry == Some(t.entries[pair].id)
  {
    hide Step, Inv, Honest;
    if n > 0 {
      HonestRunsOwnEntries(states, actions, n - 1);
      RunKeepsInv(states, actions, n - 1);
      StepKeepsOwnership(states[n - 1], actions[n - 1], states[n]);
    }
  }
}
