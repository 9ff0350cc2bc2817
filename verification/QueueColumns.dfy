/**
 What the queue's transactions do, said of the columns of the tables alone.
 */
module QueueColumns {
  import opened Basics
  import opened JobTables
  import opened ClaimQuery
  import opened QueueInvariant
  import opened QueueRuns

  // ---------------------------------------------------------------------- claims

  /** A pending row of a running job that a claim for the sources may take. */
  predicate Free(t: Tables, barred: Barred, sources: seq<string>, y: nat) {
    && y < |t.items| && t.items[y].job < |t.jobs|
    && t.items[y].state.Pending? && t.jobs[t.items[y].job].state.Running?
    && t.items[y].source.Some? && t.items[y].source.value in sources
    && y !in barred.locked
    && (t.items[y].source.value, t.jobs[t.items[y].job].provider) !in barred.open
  }

  lemma FreeIsEligible(t: Tables, barred: Barred, sources: seq<string>, y: nat)
    ensures Free(t, barred, sources, y) <==> y in Eligible(t, barred, sources)
  {
  }

  /** Every row a claim takes was free: its affinity rows for their source, the others for one of the sources. */
  lemma ClaimTakesFree(t: Tables, c: ClaimTx, r: Tables, x: nat)
    requires ClaimMakes(t, c, r) && x in Taken(c)
    ensures RowsInRange(c.swept)
    ensures x in c.kin ==>
      c.affinity.Some? && Free(c.swept, c.barred, [c.affinity.value.0], x) &&
      c.swept.jobs[c.swept.items[x].job].credential == c.affinity.value.1
    ensures x !in c.kin ==> Free(c.swept, c.barred, c.sources, x)
  {
    hide ClaimMakes, KinPick, RestPick, Claimable, Claimed, Kin, Free;
    ClaimParts(t, c, r);
    if x in c.kin {
      KinIsKindred(c, x);
    } else {
      RestIsFree(c, x);
    }
  }

  lemma ClaimParts(t: Tables, c: ClaimTx, r: Tables)
    requires ClaimMakes(t, c, r)
    ensures KinPick(c) && RestPick(c) && RowsInRange(c.swept)
  {
  }

  lemma RestIsFree(c: ClaimTx, x: nat)
    requires KinPick(c) && RestPick(c) && x in Support(c.rest)
    ensures Free(c.swept, c.barred, c.sources, x)
  {
    hide NestedPick, KinPick, Claimable, Claimed, Free;
    NestedClaimable(Kindred(c), c.barred, c.sources, c.limit - |c.kin|, c.rest);
    RestWasFree(c, x);
  }

  lemma KinIsKindred(c: ClaimTx, x: nat)
    requires KinPick(c) && x in c.kin
    ensures c.affinity.Some? && x in Kin(c.swept, c.barred, c.affinity.value.0, c.affinity.value.1)
    ensures Free(c.swept, c.barred, [c.affinity.value.0], x)
    ensures c.swept.jobs[c.swept.items[x].job].credential == c.affinity.value.1
  {
    hide IsTop;
    KinClaimable(c.swept, c.barred, c.affinity.value.0, c.affinity.value.1, c.limit, c.kin);
  }

  lemma RestWasFree(c: ClaimTx, x: nat)
    requires RowsInRange(c.swept) && Claimable(Kindred(c), c.barred, x)
    requires Kindred(c).items[x].source.value in c.sources
    ensures Free(c.swept, c.barred, c.sources, x)
  {
    ClaimableAfterClaim(c.swept, c.barred, c.kin, c.worker, c.now, x);
  }

  /**
   Beyond its affinity rows a claim takes the oldest job's rows first, and within a job the
   lowest ordinals, whatever sources it lists: nothing it leaves is before anything it takes.
   */
  lemma ClaimTakesOldest(t: Tables, c: ClaimTx, r: Tables, x: nat, y: nat)
    requires ClaimMakes(t, c, r) && x in Taken(c) && x !in c.kin
    requires y !in Taken(c) && Free(c.swept, c.barred, c.sources, y)
    ensures x < |c.swept.items|
    ensures
      || c.swept.items[x].job < c.swept.items[y].job
      || (c.swept.items[x].job == c.swept.items[y].job && c.swept.items[x].ordinal <= c.swept.items[y].ordinal)
  {
    hide IsTop, NestedPick, SweepMakes, KinPick;
    ClaimTakesFree(t, c, r, x);
    var kept := Kindred(c);
    NestedIsBagTop(kept, c.barred, c.sources, c.limit - |c.kin|, c.rest);
    BagAt(kept, c.barred, c.sources, y);
    LeftIsNotBefore(kept.items, Sum(JobBags(kept, c.barred, c.sources)), c.limit - |c.kin|, c.rest, x, y);
  }

  lemma LeftIsNotBefore(items: seq<Item>, bag: multiset<nat>, k: nat, pick: multiset<nat>, x: nat, y: nat)
    requires IsTop(items, bag, k, pick) && x in pick && y in bag && y !in pick && x < |items| && y < |items|
    ensures items[x].job < items[y].job || (items[x].job == items[y].job && items[x].ordinal <= items[y].ordinal)
  {
    assert y in bag - pick;
  }

  /** The affinity rows are the oldest of theirs as well. */
  lemma KinTakesOldest(t: Tables, c: ClaimTx, r: Tables, x: nat, y: nat)
    requires ClaimMakes(t, c, r) && c.affinity.Some? && x in c.kin && y !in c.kin
    requires Free(c.swept, c.barred, [c.affinity.value.0], y)
    requires c.swept.jobs[c.swept.items[y].job].credential == c.affinity.value.1
    ensures x < |c.swept.items|
    ensures
      || c.swept.items[x].job < c.swept.items[y].job
      || (c.swept.items[x].job == c.swept.items[y].job && c.swept.items[x].ordinal <= c.swept.items[y].ordinal)
  {
    hide IsTop, NestedPick, SweepMakes, Claimed;
    KinIsKindred(c, x);
    var pool := Kin(c.swept, c.barred, c.affinity.value.0, c.affinity.value.1);
    LeftIsNotBefore(c.swept.items, multiset(pool), c.limit, multiset(c.kin), x, y);
  }

  /** A claim that stays below its limit leaves nothing it could take, unless it lists a source twice. */
  lemma ClaimLeavesNothing(t: Tables, c: ClaimTx, r: Tables, y: nat)
    requires ClaimMakes(t, c, r) && NoDuplicates(c.sources) && |Taken(c)| < c.limit
    requires Free(c.swept, c.barred, c.sources, y)
    ensures y in Taken(c)
  {
    hide ClaimMakes, KinPick, RestPick, NoDuplicates, LeftFor, NotAfter, Support;
    ClaimParts(t, c, r);
    ClaimTakesFront(t, c, r);
    ClaimTakes(t, c, r);
    if y !in c.kin {
      FreeIsLeft(c, y);
      assert |Taken(c)| == |c.kin| + |Support(c.rest)|;
      Fewer(Support(c.rest), LeftFor(c));
      SameWhenAsMany(Support(c.rest), LeftFor(c));
    }
  }

  lemma FreeIsLeft(c: ClaimTx, y: nat)
    requires RowsInRange(c.swept) && y !in c.kin && Free(c.swept, c.barred, c.sources, y)
    ensures y in LeftFor(c)
  {
  }

  lemma SameWhenAsMany(a: set<nat>, b: set<nat>)
    requires a <= b && |b| <= |a|
    ensures a == b
  {
    assert b == a + (b - a);
    assert |b - a| == 0;
  }

  lemma KinLeavesNothing(t: Tables, c: ClaimTx, r: Tables, y: nat)
    requires ClaimMakes(t, c, r) && c.affinity.Some? && |c.kin| < c.limit
    requires Free(c.swept, c.barred, [c.affinity.value.0], y)
    requires c.swept.jobs[c.swept.items[y].job].credential == c.affinity.value.1
    ensures y in c.kin
  {
    hide NestedPick, SweepMakes, Claimed;
    var pool := Kin(c.swept, c.barred, c.affinity.value.0, c.affinity.value.1);
    KinClaimable(c.swept, c.barred, c.affinity.value.0, c.affinity.value.1, c.limit, c.kin);
    assert y in pool;
    SameWhenAsMany(c.kin, pool);
  }

  /** A leased row, column by column: the worker's for five minutes, under the fence its running job has now. */
  predicate LeasedColumns(was: Item, row: Item, jobs: seq<Job>, worker: string, now: int) {
    && row.state == ItemState.Running && row.owner == Some(worker) && row.expires == Some(now + 300)
    && row.attempts == was.attempts + 1
    && row.job == was.job < |jobs| && row.fence == jobs[was.job].fence && jobs[was.job].state.Running?
    && row.team == was.team && row.ordinal == was.ordinal
    && row.document == was.document && row.source == was.source && row.source.Some?
    && row.reason == was.reason && row.entry == was.entry && row.resultObject == was.resultObject
  }

  lemma ClaimedColumns(t: Tables, c: ClaimTx, r: Tables, x: nat)
    requires ClaimMakes(t, c, r) && x < |c.swept.items|
    ensures |r.items| == |c.swept.items| && r == c.swept.(items := r.items)
    ensures x !in Taken(c) ==> r.items[x] == c.swept.items[x]
    ensures x in Taken(c) ==> LeasedColumns(c.swept.items[x], r.items[x], r.jobs, c.worker, c.now)
  {
    hide ClaimMakes, KinPick, RestPick, Taken, Kindred, Claimed, Claimable, LeasedColumns, RowsInRange;
    ClaimParts(t, c, r);
    ClaimTakes(t, c, r);
    LeasedByClaim(c.swept, c.barred, Taken(c), c.worker, c.now, x);
  }

  lemma LeasedByClaim(t: Tables, barred: Barred, ids: set<nat>, worker: string, now: int, x: nat)
    requires RowsInRange(t) && x < |t.items| && (x in ids ==> Claimable(t, barred, x))
    ensures var r := Claimed(t, ids, worker, now);
      && |r.items| == |t.items| && r == t.(items := r.items)
      && (x !in ids ==> r.items[x] == t.items[x])
      && (x in ids ==> LeasedColumns(t.items[x], r.items[x], r.jobs, worker, now))
  {
  }

  // --------------------------------------------------------------------- sweeping

  /** A sweep gives back the rows whose lease is over, and retires those that had four. */
  predicate SweptColumns(t: Tables, now: int, locked: set<nat>, i: nat, row: Item)
    requires i < |t.items|
  {
    var was := t.items[i];
    if was.state.Running? && was.expires.Some? && was.expires.value < now && i !in locked &&
       was.job < |t.jobs| && t.jobs[was.job].state.Running?
    then
      && row.owner == None && row.expires == None
      && row.job == was.job && row.team == was.team && row.ordinal == was.ordinal && row.document == was.document
      && row.source == was.source && row.attempts == was.attempts && row.fence == was.fence
      && row.entry == was.entry && row.resultObject == was.resultObject
      && (was.attempts >= 4 ==> row.state == ItemState.Failed && row.reason == Some("lease_expired"))
      && (was.attempts < 4 ==> row.state == ItemState.Pending && row.reason == was.reason)
    else row == was
  }

  ghost predicate SweptTo(t: Tables, now: int, locked: set<nat>, items: seq<Item>) {
    |items| == |t.items| && forall i :: 0 <= i < |t.items| ==> SweptColumns(t, now, locked, i, items[i])
  }

  lemma SweepColumns(t: Tables, now: int, locked: set<nat>, visited: seq<nat>, r: Tables)
    requires SweepMakes(t, now, locked, visited, r)
    ensures SweptTo(t, now, locked, r.items)
  {
    SweptTable(t, now, locked, visited, r);
  }

  // -------------------------------------------------------------------- cancelling

  /** A request for an unknown job, another team's or an ended one changes nothing. */
  lemma CancelRefused(t: Tables, j: nat, team: nat)
    requires
      || j >= |t.jobs| || t.jobs[j].team != team
      || t.jobs[j].state.Completed? || t.jobs[j].state.Failed? || t.jobs[j].state.Cancelled?
    ensures CancelTx(t, j, team) == t
  {
  }

  /** What a cancellation that is carried out leaves, column by column. */
  ghost predicate CancelledColumns(t: Tables, j: nat, r: Tables)
    requires j < |t.jobs|
  {
    && |r.jobs| == |t.jobs| && |r.items| == |t.items| && r.entries == t.entries && r.ledger == t.ledger
    && r.jobs[j] == t.jobs[j].(state := JobState.Cancelled,
                               fence := t.jobs[j].fence + (if t.jobs[j].state.Running? then 1 else 0))
    && (forall k :: 0 <= k < |t.jobs| && k != j ==>
          r.jobs[k] == t.jobs[k] || (t.jobs[k].state.Queued? && r.jobs[k] == t.jobs[k].(state := JobState.Running)))
    && (forall i :: 0 <= i < |t.items| ==>
          r.items[i] ==
            if t.items[i].job == j && (t.items[i].state.Pending? || t.items[i].state.Running?)
            then t.items[i].(state := ItemState.Cancelled) else t.items[i])
    && (forall i :: 0 <= i < |r.items| && r.items[i].job == j ==>
          !r.items[i].state.Pending? && !r.items[i].state.Running?)
  }

  lemma CancelColumns(t: Tables, j: nat, team: nat)
    requires j < |t.jobs| && t.jobs[j].team == team
    requires t.jobs[j].state.Queued? || t.jobs[j].state.Running? || t.jobs[j].state.Cancelling?
    ensures CancelledColumns(t, j, CancelTx(t, j, team))
  {
    hide PromoteLocked, TerminalIntents;
    var was := t.jobs[j];
    var row := was.(state := JobState.Cancelled, fence := was.fence + (if was.state.Running? then 1 else 0));
    var r := CancelTx(t, j, team);
    var asked := if was.state.Running? then
        WithEvent(t.(jobs := t.jobs[j := was.(state := JobState.Cancelling, fence := was.fence + 1)]), j,
                  CancellationRequested)
      else t;
    var emptied := asked.(items := CancelledItems(t.items, j));
    assert r == EndJob(emptied, j, row);
    EndJobColumns(emptied, j, row);
  }

  lemma EndJobColumns(t: Tables, j: nat, row: Job)
    requires j < |t.jobs| && !row.state.Queued?
    ensures var r := EndJob(t, j, row);
      && |r.jobs| == |t.jobs| && r.items == t.items && r.entries == t.entries && r.ledger == t.ledger
      && r.jobs[j] == row
      && forall k :: 0 <= k < |t.jobs| && k != j ==>
           r.jobs[k] == t.jobs[k] || (t.jobs[k].state.Queued? && r.jobs[k] == t.jobs[k].(state := JobState.Running))
  {
    hide ActiveCount, FirstQueued, Promote;
    var closed := TerminalIntents(t.(jobs := t.jobs[j := row]), j, row.state);
    var active := ActiveCount(closed.jobs);
    PromoteOnlyStarts(closed, if active >= MAX_ACTIVE_JOBS then 0 else MAX_ACTIVE_JOBS - active);
    PromoteKeepsOthers(closed, if active >= MAX_ACTIVE_JOBS then 0 else MAX_ACTIVE_JOBS - active);
    PromoteOfNone(closed);
  }

  lemma PromoteOfNone(t: Tables)
    ensures Promote(t, 0) == t
  {
  }

  lemma {:induction false} PromoteKeepsOthers(t: Tables, slots: nat)
    ensures Promote(t, slots).entries == t.entries && Promote(t, slots).ledger == t.ledger
    decreases slots
  {
    var q := FirstQueued(t.jobs);
    if slots != 0 && q != |t.jobs| {
      PromoteKeepsOthers(StartJob(t, q), slots - 1);
    }
  }

  /** In every run a cancellation ends the job of its own team and nobody else's. */
  lemma CancelInRun(states: seq<Tables>, actions: seq<Action>, n: nat)
    requires Run(states, actions) && n < |actions| && actions[n].Cancel?
    ensures var t, r, j := states[n], states[n + 1], actions[n].job;
      if j < |t.jobs| && t.jobs[j].team == actions[n].team && (t.jobs[j].state.Queued? || t.jobs[j].state.Running?)
      then CancelledColumns(t, j, r) else r == t
  {
    var t, j, team := states[n], actions[n].job, actions[n].team;
    RunKeepsInv(states, actions, n);
    assert Step(t, actions[n], states[n + 1]);
    hide Run, CancelledColumns, CancelTx;
    if j < |t.jobs| && t.jobs[j].team == team && (t.jobs[j].state.Queued? || t.jobs[j].state.Running?) {
      CancelColumns(t, j, team);
    } else {
      NeverCancelling(t, j);
      CancelRefused(t, j, team);
    }
  }

  // ----------------------------------------------------------- promotion and finishing

  /** Nothing but queued jobs that start, the oldest first, as many as five leave room for. */
  ghost predicate PromotedColumns(t: Tables, r: Tables) {
    && |r.jobs| == |t.jobs| && r == t.(jobs := r.jobs, events := r.events)
    && (forall k :: 0 <= k < |t.jobs| ==>
          r.jobs[k] == t.jobs[k] || (t.jobs[k].state.Queued? && r.jobs[k] == t.jobs[k].(state := JobState.Running)))
    && (forall k, q :: 0 <= k < |t.jobs| && 0 <= q < |t.jobs| && r.jobs[k] != t.jobs[k] && r.jobs[q].state.Queued? ==>
          k < q)
    && var active := |set k | 0 <= k < |r.jobs| && (r.jobs[k].state.Running? || r.jobs[k].state.Cancelling?)|;
      && ((exists k :: 0 <= k < |r.jobs| && r.jobs[k] != t.jobs[k]) ==> active <= 5)
      && ((exists k :: 0 <= k < |r.jobs| && r.jobs[k].state.Queued?) ==> active >= 5)
  }

  ghost predicate Started(t: Tables, r: Tables, slots: nat) {
    && |r.jobs| == |t.jobs| && r == t.(jobs := r.jobs, events := r.events)
    && (forall k :: 0 <= k < |t.jobs| ==>
          r.jobs[k] == t.jobs[k] || (t.jobs[k].state.Queued? && r.jobs[k] == t.jobs[k].(state := JobState.Running)))
    && (forall k, q :: 0 <= k < |t.jobs| && 0 <= q < |t.jobs| && r.jobs[k] != t.jobs[k] && r.jobs[q].state.Queued? ==>
          k < q)
    && ActiveCount(r.jobs) <= ActiveCount(t.jobs) + slots
    && ((exists k :: 0 <= k < |r.jobs| && r.jobs[k].state.Queued?) ==>
          ActiveCount(r.jobs) == ActiveCount(t.jobs) + slots)
  }

  lemma {:induction false} PromoteStarts(t: Tables, slots: nat)
    ensures Started(t, Promote(t, slots), slots)
    decreases slots
  {
    hide ActiveCount;
    var q := FirstQueued(t.jobs);
    if slots != 0 && q != |t.jobs| {
      PromoteStarts(StartJob(t, q), slots - 1);
      ActiveCountUpdate(t.jobs, q, t.jobs[q].(state := JobState.Running));
    }
  }

  lemma PromoteColumns(t: Tables)
    ensures PromotedColumns(t, PromoteLocked(t))
  {
    hide ActiveCount, Promote;
    var active := ActiveCount(t.jobs);
    PromoteStarts(t, if active >= MAX_ACTIVE_JOBS then 0 else MAX_ACTIVE_JOBS - active);
    PromoteOfNone(t);
    ActiveAreCounted(PromoteLocked(t).jobs);
  }

  /** A running job without live items ends, completed if something was published and else failed. */
  ghost predicate FinishedColumns(t: Tables, j: nat, r: Tables)
    requires j < |t.jobs|
  {
    if t.jobs[j].state.Running? &&
       forall i :: 0 <= i < |t.items| && t.items[i].job == j ==>
         !t.items[i].state.Pending? && !t.items[i].state.Running?
    then
      && |r.jobs| == |t.jobs| && r.items == t.items && r.entries == t.entries && r.ledger == t.ledger
      && (forall k :: 0 <= k < |t.jobs| && k != j ==>
            r.jobs[k] == t.jobs[k] || (t.jobs[k].state.Queued? && r.jobs[k] == t.jobs[k].(state := JobState.Running)))
      && if exists i :: 0 <= i < |t.items| && t.items[i].job == j && t.items[i].state.Published?
         then r.jobs[j] == t.jobs[j].(state := JobState.Completed)
         else r.jobs[j] == t.jobs[j].(state := JobState.Failed, reason := Some("no_results"))
    else r == t
  }

  lemma FinishColumns(t: Tables, j: nat)
    requires j < |t.jobs|
    ensures FinishedColumns(t, j, FinishIfDrained(t, j))
  {
    hide EndJob;
    if t.jobs[j].state.Running? && !HasLive(t.items, j) {
      EndJobColumns(t, j, Drained(t, j));
    }
  }

  // -------------------------------------------------------------------- publishing

  /** What every publish records of its lookup, accepted or not. */
  ghost predicate ObservedColumns(t: Tables, p: Publication, now: int, r: Tables)
    requires p.item < |t.items|
  {
    var pair := (p.document, p.source);
    && pair in r.entries && r.entries.Keys == t.entries.Keys + {pair}
    && (forall other :: other in t.entries && other != pair ==> r.entries[other] == t.entries[other])
    && (pair in t.entries ==> r.entries[pair].id == t.entries[pair].id)
    && r.entries[pair].status == p.status && r.entries[pair].content == p.content
    && r.entries[pair].errorCode == p.errorCode && r.entries[pair].confirmedAt == now
    && r.entries[pair].lastJob == t.items[p.item].job
    && |r.ledger| == |t.ledger| + |p.attempts| && r.ledger[..|t.ledger|] == t.ledger
    && (forall k :: 0 <= k < |p.attempts| ==>
          r.ledger[|t.ledger| + k] == LedgerRow(p.item, p.source, p.provider, p.worker, p.lane, p.attempts[k]))
  }

  /** The items after a publish that is accepted exactly for the holder of the item's lease and fence. */
  ghost predicate PublishedColumns(t: Tables, p: Publication, r: Tables, accepted: bool)
    requires p.item < |t.items|
  {
    var item := t.items[p.item];
    && (accepted <==>
          && item.state.Running? && item.owner == Some(p.worker) && item.fence == p.fence
          && item.job < |t.jobs| && t.jobs[item.job].state.Running? && t.jobs[item.job].fence == p.fence)
    && |r.items| == |t.items|
    && (forall i :: 0 <= i < |t.items| && (i != p.item || !accepted) ==> r.items[i] == t.items[i])
    && (accepted ==>
          && (p.document, p.source) in r.entries
          && r.items[p.item] == item.(state := ItemState.Published, entry := Some(r.entries[(p.document, p.source)].id),
                                      resultObject := Some(p.resultObject), owner := None, expires := None))
    && (!accepted ==> r.jobs == t.jobs && r.events == t.events && r.outbox == t.outbox)
  }

  lemma PublishColumns(t: Tables, p: Publication, now: int)
    requires p.item < |t.items|
    ensures ObservedColumns(t, p, now, PublishTx(t, p, now))
    ensures PublishedColumns(t, p, PublishTx(t, p, now), FenceHolds(t, p))
  {
    hide ObservedColumns, PublishedColumns, FenceHolds, UpsertedEntry;
    PublishLeaves(t, p, now);
    ObservedSaid(t, p, now, PublishTx(t, p, now));
    PublishedSaid(t, p, now);
  }

  lemma PublishLeaves(t: Tables, p: Publication, now: int)
    requires p.item < |t.items|
    ensures var r, seen := PublishTx(t, p, now), Observed(t, p, now);
      && r.entries == seen.entries && r.ledger == seen.ledger
      && (!FenceHolds(t, p) ==> r == seen)
      && r.items == if !FenceHolds(t, p) then t.items
                    else t.items[p.item := PublishedRow(t.items[p.item], UpsertedEntry(t, p, now).id, p.resultObject)]
  {
    hide FinishIfDrained, UpsertedEntry;
    if FenceHolds(t, p) {
      var row := PublishedRow(t.items[p.item], UpsertedEntry(t, p, now).id, p.resultObject);
      FinishKeepsOthers(Observed(t, p, now).(items := t.items[p.item := row]), t.items[p.item].job);
    }
  }

  lemma ObservedSaid(t: Tables, p: Publication, now: int, r: Tables)
    requires p.item < |t.items|
    requires r.entries == Observed(t, p, now).entries && r.ledger == Observed(t, p, now).ledger
    ensures ObservedColumns(t, p, now, r)
  {
  }

  lemma PublishedSaid(t: Tables, p: Publication, now: int)
    requires p.item < |t.items|
    ensures PublishedColumns(t, p, PublishTx(t, p, now), FenceHolds(t, p))
  {
    PublishLeaves(t, p, now);
    hide PublishTx;
  }

  lemma FinishKeepsOthers(t: Tables, j: nat)
    requires j < |t.jobs|
    ensures var r := FinishIfDrained(t, j); r.items == t.items && r.entries == t.entries && r.ledger == t.ledger
  {
    hide EndJob;
    if t.jobs[j].state.Running? && !HasLive(t.items, j) {
      EndJobColumns(t, j, Drained(t, j));
    }
  }

  // ------------------------------------------------------------ admission keeps the plan

  lemma HeadFirst(head: PlannedItem, rest: seq<PlannedItem>)
    ensures multiset([head] + rest) == multiset{head} + multiset(rest)
  {
  }

  lemma {:induction false} SplitIsPlan(items: seq<PlannedItem>, reusable: Reusable)
    ensures multiset(items) == multiset(ToFetch(items, reusable)) + multiset(Reused(items, reusable))
  {
    hide ToFetch, Reused, PairOf;
    if items == [] {
      SplitNothing(reusable);
    } else {
      var head, rest := items[0], items[1..];
      var fetch, reuse := ToFetch(rest, reusable), Reused(rest, reusable);
      SplitIsPlan(rest, reusable);
      SplitStep(items, reusable);
      assert items == [head] + rest;
      HeadFirst(head, rest);
      if PairOf(head) in reusable {
        HeadFirst(head, reuse);
      } else {
        HeadFirst(head, fetch);
      }
    }
  }

  lemma SplitNothing(reusable: Reusable)
    ensures ToFetch([], reusable) == [] && Reused([], reusable) == []
  {
  }

  lemma SplitStep(items: seq<PlannedItem>, reusable: Reusable)
    requires items != []
    ensures PairOf(items[0]) in reusable ==>
      ToFetch(items, reusable) == ToFetch(items[1..], reusable) &&
        Reused(items, reusable) == [items[0]] + Reused(items[1..], reusable)
    ensures PairOf(items[0]) !in reusable ==>
      ToFetch(items, reusable) == [items[0]] + ToFetch(items[1..], reusable) &&
        Reused(items, reusable) == Reused(items[1..], reusable)
  {
    hide PairOf;
  }

  lemma {:induction false} FetchedIsUnknown(items: seq<PlannedItem>, reusable: Reusable)
    ensures forall p :: p in ToFetch(items, reusable) ==> PairOf(p) !in reusable
  {
    if items != [] {
      FetchedIsUnknown(items[1..], reusable);
    }
  }

  /** The planned items that stored rows stand for. */
  function StandFor(rows: seq<Item>): seq<PlannedItem>
    requires forall k :: 0 <= k < |rows| ==> rows[k].source.Some?
  {
    seq(|rows|, k requires 0 <= k < |rows| => PlannedItem(rows[k].ordinal, rows[k].document, rows[k].source.value))
  }

  /** A stored row waits to be fetched exactly when its pair has no known answer. */
  predicate StoredFor(row: Item, reusable: Reusable) {
    && row.source.Some?
    && var pair := (row.document, row.source.value);
    if pair in reusable then row.state.Published? && row.entry == Some(reusable[pair])
    else row.state.Pending? && row.attempts == 0
  }

  lemma RowsInParts(j: nat, s: Submission, reusable: Reusable)
    ensures NewItems(j, s, reusable) ==
      PendingRows(j, s.team, ToFetch(s.plan.items, reusable))
      + ReusedRows(j, s.team, Reused(s.plan.items, reusable), reusable)
      + ExcludedRows(j, s.team, s.plan.exclusions)
  {
  }

  lemma RowsInOrder(j: nat, s: Submission, reusable: Reusable)
    ensures var rows := NewItems(j, s, reusable);
      var fetch, reuse, out := ToFetch(s.plan.items, reusable), Reused(s.plan.items, reusable), s.plan.exclusions;
      && |rows| == |fetch| + |reuse| + |out|
      && (forall k :: 0 <= k < |fetch| ==> rows[k] == PendingRow(j, s.team, fetch[k]))
      && (forall k :: 0 <= k < |reuse| ==>
            rows[|fetch| + k] == ReusedRow(j, s.team, reuse[k], reusable[PairOf(reuse[k])]))
      && (forall k :: 0 <= k < |out| ==> rows[|fetch| + |reuse| + k] == ExcludedRow(j, s.team, out[k]))
  {
    hide *;
    RowsInParts(j, s, reusable);
    var fetch, reuse, out := ToFetch(s.plan.items, reusable), Reused(s.plan.items, reusable), s.plan.exclusions;
    var a, b, c := PendingRows(j, s.team, fetch), ReusedRows(j, s.team, reuse, reusable), ExcludedRows(j, s.team, out);
    ThreeParts(a, b, c);
    forall k | 0 <= k < |reuse|
      ensures (a + b + c)[|fetch| + k] == ReusedRow(j, s.team, reuse[k], reusable[PairOf(reuse[k])])
    {
      assert (a + b + c)[|a| + k] == b[k];
    }
    forall k | 0 <= k < |out| ensures (a + b + c)[|fetch| + |reuse| + k] == ExcludedRow(j, s.team, out[k]) {
      assert (a + b + c)[|a| + |b| + k] == c[k];
    }
  }

  lemma ThreeParts<T>(a: seq<T>, b: seq<T>, c: seq<T>)
    ensures |a + b + c| == |a| + |b| + |c|
    ensures forall k :: 0 <= k < |a| ==> (a + b + c)[k] == a[k]
    ensures forall k :: 0 <= k < |b| ==> (a + b + c)[|a| + k] == b[k]
    ensures forall k :: 0 <= k < |c| ==> (a + b + c)[|a| + |b| + k] == c[k]
  {
  }

  /** The k-th row of those an admission inserts for planned items, and the item it stands for. */
  lemma RowStored(j: nat, s: Submission, reusable: Reusable, k: nat)
    requires k < |ToFetch(s.plan.items, reusable)| + |Reused(s.plan.items, reusable)|
    ensures k < |NewItems(j, s, reusable)|
    ensures var row := NewItems(j, s, reusable)[k];
      var p := (ToFetch(s.plan.items, reusable) + Reused(s.plan.items, reusable))[k];
      StoredFor(row, reusable) && PlannedItem(row.ordinal, row.document, row.source.value) == p
  {
    hide ToFetch, Reused, NewItems;
    var fetch, reuse := ToFetch(s.plan.items, reusable), Reused(s.plan.items, reusable);
    RowsInOrder(j, s, reusable);
    FetchedIsUnknown(s.plan.items, reusable);
    if k < |fetch| {
      assert fetch[k] in fetch;
    } else {
      var m := k - |fetch|;
      assert NewItems(j, s, reusable)[|fetch| + m] == ReusedRow(j, s.team, reuse[m], reusable[PairOf(reuse[m])]);
    }
  }

  lemma ExclusionsLast(j: nat, s: Submission, reusable: Reusable)
    ensures var rows, n := NewItems(j, s, reusable), |s.plan.items|;
      && |rows| == n + |s.plan.exclusions|
      && |ToFetch(s.plan.items, reusable)| + |Reused(s.plan.items, reusable)| == n
      && forall k :: 0 <= k < |s.plan.exclusions| ==> rows[n + k] == ExcludedRow(j, s.team, s.plan.exclusions[k])
  {
    hide ToFetch, Reused, NewItems, PairOf, ExcludedRow, PendingRow, ReusedRow;
    PlanSplits(s.plan.items, reusable);
    RowsInOrder(j, s, reusable);
  }

  /** Admission stores every planned item in exactly one row, pending or already answered, and every exclusion. */
  lemma PlanIsStored(j: nat, s: Submission, reusable: Reusable)
    ensures var rows := NewItems(j, s, reusable); var n := |s.plan.items|;
      && |rows| == n + |s.plan.exclusions|
      && (forall k :: 0 <= k < n ==> StoredFor(rows[k], reusable))
      && multiset(StandFor(rows[..n])) == multiset(s.plan.items)
      && (forall k :: 0 <= k < |s.plan.exclusions| ==> rows[n + k] == ExcludedRow(j, s.team, s.plan.exclusions[k]))
  {
    hide ToFetch, Reused, NewItems, PairOf, ExcludedRow, PendingRow, ReusedRow;
    var rows, n := NewItems(j, s, reusable), |s.plan.items|;
    var fetch, reuse := ToFetch(s.plan.items, reusable), Reused(s.plan.items, reusable);
    ExclusionsLast(j, s, reusable);
    SplitIsPlan(s.plan.items, reusable);
    forall k | 0 <= k < n
      ensures StoredFor(rows[k], reusable)
      ensures PlannedItem(rows[k].ordinal, rows[k].document, rows[k].source.value) == (fetch + reuse)[k]
    {
      RowStored(j, s, reusable, k);
    }
    assert StandFor(rows[..n]) == fetch + reuse;
  }

  /** The job an admission inserts and the rows it adds, column by column; old rows are as they were. */
  ghost predicate AdmittedColumns(t: Tables, s: Submission, reusable: Reusable, r: Tables) {
    var n, m, planned := |t.jobs|, |t.items|, |s.plan.items|;
    && |r.jobs| == n + 1 && r.jobs[..n] == t.jobs
    && |r.items| == m + planned + |s.plan.exclusions| && r.items[..m] == t.items
    && r.entries == t.entries && r.ledger == t.ledger
    && r.jobs[n].team == s.team && r.jobs[n].credential == s.credential && r.jobs[n].provider == s.provider
    && r.jobs[n].fence == 0
    && r.jobs[n].reason == (if s.plan.items == [] then Some("all_records_excluded") else None)
    && (forall i :: m <= i < |r.items| ==> NewColumns(r.items[i], n, s.team))
    && (forall i :: m <= i < m + planned ==> StoredFor(r.items[i], reusable))
    && multiset(StandFor(r.items[m..m + planned])) == multiset(s.plan.items)
    && (forall k :: 0 <= k < |s.plan.exclusions| ==>
          ExcludedColumns(r.items[m + planned + k], s.plan.exclusions[k]))
    && StartedIfFree(t.jobs, r.jobs[n].state, forall p :: p in s.plan.items ==> (p.document, p.source) in reusable)
  }

  /** A job with nothing to fetch is completed; another runs when fewer than five do, and else waits. */
  predicate StartedIfFree(jobs: seq<Job>, state: JobState, nothingToFetch: bool) {
    if nothingToFetch then state == JobState.Completed
    else if |set k | 0 <= k < |jobs| && (jobs[k].state.Running? || jobs[k].state.Cancelling?)| < 5
    then state == JobState.Running else state == JobState.Queued
  }

  predicate NewColumns(item: Item, j: nat, team: nat) {
    && item.job == j && item.team == team
    && item.attempts == 0 && item.fence == 0 && item.owner == None && item.expires == None
    && item.resultObject == None && (!item.state.Excluded? ==> item.reason == None)
    && (!item.state.Published? ==> item.entry == None)
  }

  predicate ExcludedColumns(item: Item, x: ExcludedInput) {
    && item.state == ItemState.Excluded && item.source == None
    && item.ordinal == x.ordinal && item.document == x.value && item.reason == Some(x.reason)
  }

  lemma {:induction false} NothingToFetch(items: seq<PlannedItem>, reusable: Reusable)
    ensures ToFetch(items, reusable) == [] <==> forall p :: p in items ==> (p.document, p.source) in reusable
  {
    if items != [] {
      NothingToFetch(items[1..], reusable);
      assert forall p :: p in items <==> p == items[0] || p in items[1..];
    }
  }

  lemma NewRowsColumns(j: nat, s: Submission, reusable: Reusable)
    ensures forall k :: 0 <= k < |NewItems(j, s, reusable)| ==> NewColumns(NewItems(j, s, reusable)[k], j, s.team)
  {
    hide ToFetch, Reused;
  }

  lemma AdmitColumns(t: Tables, s: Submission, reusable: Reusable)
    ensures AdmittedColumns(t, s, reusable, AdmitTx(t, s, reusable))
  {
    hide NewItems, ToFetch, StoredFor, StandFor, NewColumns, ExcludedColumns, ActiveCount;
    AdmittedRowsColumns(t, s, reusable);
    NothingToFetch(s.plan.items, reusable);
    ActiveAreCounted(t.jobs);
  }

  lemma AdmittedRowsColumns(t: Tables, s: Submission, reusable: Reusable)
    ensures var r, m, planned := AdmitTx(t, s, reusable), |t.items|, |s.plan.items|;
      && |r.items| == m + planned + |s.plan.exclusions| && r.items[..m] == t.items
      && (forall i :: m <= i < |r.items| ==> NewColumns(r.items[i], |t.jobs|, s.team))
      && (forall i :: m <= i < m + planned ==> StoredFor(r.items[i], reusable))
      && multiset(StandFor(r.items[m..m + planned])) == multiset(s.plan.items)
      && (forall k :: 0 <= k < |s.plan.exclusions| ==>
            ExcludedColumns(r.items[m + planned + k], s.plan.exclusions[k]))
  {
    hide NewItems, ToFetch, StoredFor, StandFor, NewColumns, AdmittedState;
    var rows := NewItems(|t.jobs|, s, reusable);
    var r := AdmitTx(t, s, reusable);
    NewRowsColumns(|t.jobs|, s, reusable);
    PlanIsStored(|t.jobs|, s, reusable);
    assert r.items == t.items + rows;
    hide AdmitTx;
    assert r.items[|t.items|..|t.items| + |s.plan.items|] == rows[..|s.plan.items|];
  }
}
