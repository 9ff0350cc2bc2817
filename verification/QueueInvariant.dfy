/**
 What every committed state of the job tables satisfies, and the proof that each
 transaction keeps it.
 */
module QueueInvariant {
  import opened Basics
  import opened JobTables

  // -------------------------------------------------------------- the invariant

  predicate ItemOk(jobs: seq<Job>, item: Item) {
    && item.job < |jobs|
    && item.team == jobs[item.job].team
    && item.attempts <= MAX_LEASE_ATTEMPTS
    && (item.state.Pending? ==>
          && item.attempts < MAX_LEASE_ATTEMPTS
          && item.owner.None?
          && (jobs[item.job].state.Queued? || jobs[item.job].state.Running?))
    && (item.state.Running? ==>
          && 1 <= item.attempts
          && item.owner.Some?
          && item.expires.Some?
          && jobs[item.job].state.Running?
          && item.fence == jobs[item.job].fence)
    && (item.state.Published? <==> item.entry.Some?)
    && (item.state.Excluded? <==> item.source.None?)
  }

  predicate ItemsOk(t: Tables) {
    forall i :: 0 <= i < |t.items| ==> ItemOk(t.jobs, t.items[i])
  }

  /** Every unfinished job outside `due` has work left; `due` holds unfinished jobs about to be closed. */
  predicate Backed(t: Tables, due: set<nat>) {
    && (forall j :: j in due ==> j < |t.jobs| && !Terminal(t.jobs[j].state))
    && (forall j :: 0 <= j < |t.jobs| && j !in due && !Terminal(t.jobs[j].state) ==> HasLive(t.items, j))
  }

  predicate JobOk(t: Tables, j: nat)
    requires j < |t.jobs|
  {
    && !t.jobs[j].state.Cancelling?
    && (t.jobs[j].state.Failed? ==> !HasPublished(t.items, j) && t.jobs[j].reason == Some("no_results"))
    && (t.jobs[j].state.Completed? ==>
          HasPublished(t.items, j) || t.jobs[j].reason == Some("all_records_excluded"))
  }

  predicate JobsOk(t: Tables) {
    forall j :: 0 <= j < |t.jobs| ==> JobOk(t, j)
  }

  predicate Fifo(jobs: seq<Job>) {
    forall r, q :: 0 <= r < |jobs| && 0 <= q < |jobs| && jobs[r].state.Running? && jobs[q].state.Queued? ==> r < q
  }

  predicate GateFull(jobs: seq<Job>) {
    && ActiveCount(jobs) <= MAX_ACTIVE_JOBS
    && (forall q :: 0 <= q < |jobs| && jobs[q].state.Queued? ==> ActiveCount(jobs) == MAX_ACTIVE_JOBS)
  }

  predicate TerminalEvent(e: Event) {
    e.kind.StateEvent? && Terminal(e.kind.state)
  }

  /** Positions of the terminal events of a job. */
  function TerminalEvents(events: seq<Event>, j: nat): (r: seq<nat>)
    ensures forall k :: 0 <= k < |r| ==> r[k] < |events| && events[r[k]].job == j && TerminalEvent(events[r[k]])
  {
    if |events| == 0 then []
    else
      var last := |events| - 1;
      TerminalEvents(events[..last], j) + if events[last].job == j && TerminalEvent(events[last]) then [last] else []
  }

  /** Channels an event is queued for, in insertion order. */
  function ChannelsOf(outbox: seq<Notice>, e: nat): seq<Channel> {
    if |outbox| == 0 then []
    else
      var last := |outbox| - 1;
      ChannelsOf(outbox[..last], e) + if outbox[last].event == e then [outbox[last].channel] else []
  }

  predicate AnnouncedJob(t: Tables, j: nat)
    requires j < |t.jobs|
  {
    var told := TerminalEvents(t.events, j);
    if Terminal(t.jobs[j].state) then
      && |told| == 1
      && t.events[told[0]] == Event(j, StateEvent(t.jobs[j].state))
      && ChannelsOf(t.outbox, told[0]) == CHANNELS
    else told == []
  }

  predicate NoticeOk(events: seq<Event>, n: Notice) {
    && n.event < |events|
    && events[n.event] == Event(n.job, StateEvent(n.state))
    && Terminal(n.state)
  }

  predicate Announced(t: Tables) {
    && (forall j :: 0 <= j < |t.jobs| ==> AnnouncedJob(t, j))
    && (forall e :: 0 <= e < |t.events| ==> t.events[e].job < |t.jobs|)
    && (forall n :: 0 <= n < |t.outbox| ==> NoticeOk(t.events, t.outbox[n]))
  }

  predicate Core(t: Tables, due: set<nat>) {
    ItemsOk(t) && Backed(t, due) && JobsOk(t) && Fifo(t.jobs) && Announced(t)
  }

  predicate Inv(t: Tables) {
    Core(t, {}) && GateFull(t.jobs)
  }

  // ---------------------------------------------------------- counting and logs

  lemma {:induction false} ActiveCountUpdate(jobs: seq<Job>, j: nat, row: Job)
    requires j < |jobs|
    ensures ActiveCount(jobs[j := row]) ==
            ActiveCount(jobs) - (if Active(jobs[j]) then 1 else 0) + (if Active(row) then 1 else 0)
  {
    var last := |jobs| - 1;
    if j == last {
      assert jobs[j := row][..last] == jobs[..last];
    } else {
      ActiveCountUpdate(jobs[..last], j, row);
      assert jobs[j := row][..last] == jobs[..last][j := row];
    }
  }

  lemma {:induction false} ActiveAreCounted(jobs: seq<Job>)
    ensures ActiveCount(jobs) == |set k | 0 <= k < |jobs| && (jobs[k].state.Running? || jobs[k].state.Cancelling?)|
  {
    var all := set k | 0 <= k < |jobs| && (jobs[k].state.Running? || jobs[k].state.Cancelling?);
    if |jobs| > 0 {
      var last := |jobs| - 1;
      var before := jobs[..last];
      ActiveAreCounted(before);
      var some := set k | 0 <= k < |before| && (before[k].state.Running? || before[k].state.Cancelling?);
      assert all == if Active(jobs[last]) then some + {last} else some;
    }
  }

  lemma ActiveCountAppend(jobs: seq<Job>, row: Job)
    ensures ActiveCount(jobs + [row]) == ActiveCount(jobs) + if Active(row) then 1 else 0
  {
    assert (jobs + [row])[..|jobs|] == jobs;
  }

  lemma EventAppended(events: seq<Event>, e: Event, j: nat)
    ensures TerminalEvents(events + [e], j) ==
            TerminalEvents(events, j) + if e.job == j && TerminalEvent(e) then [|events|] else []
  {
    assert (events + [e])[..|events|] == events;
  }

  lemma {:induction false} NoChannelsBeyond(outbox: seq<Notice>, e: nat)
    requires forall n :: 0 <= n < |outbox| ==> outbox[n].event != e
    ensures ChannelsOf(outbox, e) == []
  {
    if |outbox| > 0 {
      NoChannelsBeyond(outbox[..|outbox| - 1], e);
    }
  }

  lemma ChannelAppended(outbox: seq<Notice>, n: Notice, e: nat)
    ensures ChannelsOf(outbox + [n], e) == ChannelsOf(outbox, e) + if n.event == e then [n.channel] else []
  {
    assert (outbox + [n])[..|outbox|] == outbox;
  }

  lemma ChannelsAppended(outbox: seq<Notice>, event: nat, j: nat, state: JobState, e: nat)
    ensures ChannelsOf(outbox + NoticesFor(event, j, state), e) ==
            ChannelsOf(outbox, e) + if e == event then CHANNELS else []
  {
    var n := NoticesFor(event, j, state);
    ChannelAppended(outbox, n[0], e);
    ChannelAppended(outbox + [n[0]], n[1], e);
    ChannelAppended(outbox + [n[0]] + [n[1]], n[2], e);
    assert outbox + n == outbox + [n[0]] + [n[1]] + [n[2]];
  }

  /** No terminal event can name a job that has not been inserted yet. */
  lemma {:induction false} UnknownJobUnannounced(events: seq<Event>, j: nat)
    requires forall e :: 0 <= e < |events| ==> events[e].job < j
    ensures TerminalEvents(events, j) == []
  {
    if |events| > 0 {
      UnknownJobUnannounced(events[..|events| - 1], j);
    }
  }

  // --------------------------------------------------- announcements per building block

  /** A non-terminal event for a job whose row stays non-terminal. */
  lemma PlainEventAnnounced(t: Tables, j: nat, row: Job, kind: EventKind)
    requires Announced(t) && j < |t.jobs|
    requires !Terminal(t.jobs[j].state) && !Terminal(row.state)
    requires kind.StateEvent? ==> !Terminal(kind.state)
    ensures Announced(WithEvent(t.(jobs := t.jobs[j := row]), j, kind))
  {
    var r := WithEvent(t.(jobs := t.jobs[j := row]), j, kind);
    forall k | 0 <= k < |r.jobs| ensures AnnouncedJob(r, k) {
      assert AnnouncedJob(t, k);
      EventAppended(t.events, Event(j, kind), k);
    }
  }

  /** A terminal event recorded in the step that makes the job's row terminal. */
  lemma TerminalIntentsAnnounced(t: Tables, j: nat, row: Job)
    requires Announced(t) && j < |t.jobs|
    requires !Terminal(t.jobs[j].state) && Terminal(row.state)
    ensures Announced(TerminalIntents(t.(jobs := t.jobs[j := row]), j, row.state))
  {
    hide TerminalEvents, ChannelsOf;
    var r := TerminalIntents(t.(jobs := t.jobs[j := row]), j, row.state);
    forall k | 0 <= k < |r.jobs| ensures AnnouncedJob(r, k) {
      JobAnnounced(t, j, row, k);
    }
    forall n | 0 <= n < |r.outbox| ensures NoticeOk(r.events, r.outbox[n]) {
      if n < |t.outbox| {
        assert NoticeOk(t.events, t.outbox[n]);
      }
    }
  }

  /** The ended job is announced, and every other job as it was before. */
  lemma JobAnnounced(t: Tables, j: nat, row: Job, k: nat)
    requires Announced(t) && j < |t.jobs| && k < |t.jobs|
    requires !Terminal(t.jobs[j].state) && Terminal(row.state)
    ensures AnnouncedJob(TerminalIntents(t.(jobs := t.jobs[j := row]), j, row.state), k)
  {
    hide TerminalEvents, ChannelsOf;
    var e := |t.events|;
    assert AnnouncedJob(t, k);
    EventAppended(t.events, Event(j, StateEvent(row.state)), k);
    var told := TerminalEvents(t.events, k);
    if k == j {
      assert forall n :: 0 <= n < |t.outbox| ==> NoticeOk(t.events, t.outbox[n]);
      NoChannelsBeyond(t.outbox, e);
      ChannelsAppended(t.outbox, e, j, row.state, e);
    } else if |told| == 1 {
      ChannelsAppended(t.outbox, e, j, row.state, told[0]);
    }
  }

  // ------------------------------------------------------------ promotion and ending

  lemma StartJobKeeps(t: Tables, q: nat, due: set<nat>)
    requires Core(t, due) && q < |t.jobs| && q == FirstQueued(t.jobs)
    ensures Core(StartJob(t, q), due)
    ensures ActiveCount(StartJob(t, q).jobs) == ActiveCount(t.jobs) + 1
  {
    var row := t.jobs[q].(state := JobState.Running);
    var r := StartJob(t, q);
    ActiveCountUpdate(t.jobs, q, row);
    PlainEventAnnounced(t, q, row, StateEvent(JobState.Running));
    forall i | 0 <= i < |r.items| ensures ItemOk(r.jobs, r.items[i]) {
      assert ItemOk(t.jobs, t.items[i]);
    }
    forall j | 0 <= j < |r.jobs| ensures JobOk(r, j) {
      assert JobOk(t, j);
    }
    assert Backed(r, due);
  }

  lemma FullOrEmptied(jobs: seq<Job>, slots: nat)
    requires ActiveCount(jobs) + slots == MAX_ACTIVE_JOBS
    requires slots == 0 || FirstQueued(jobs) == |jobs|
    ensures GateFull(jobs)
  {
  }

  /** Filling the free places leaves the gate full or the queue empty. */
  lemma {:induction false} PromoteKeeps(t: Tables, slots: nat, due: set<nat>)
    requires Core(t, due) && ActiveCount(t.jobs) + slots == MAX_ACTIVE_JOBS
    ensures Core(Promote(t, slots), due) && GateFull(Promote(t, slots).jobs)
    decreases slots
  {
    hide Core, GateFull, ActiveCount, StartJob, FirstQueued;
    var q := FirstQueued(t.jobs);
    if slots == 0 || q == |t.jobs| {
      FullOrEmptied(t.jobs, slots);
    } else {
      StartJobKeeps(t, q, due);
      PromoteKeeps(StartJob(t, q), slots - 1, due);
    }
  }

  /** Closing a job: its terminal row, its intents, then promotion. */
  lemma EndJobKeeps(t: Tables, j: nat, row: Job, due: set<nat>)
    requires Core(t, due) && ActiveCount(t.jobs) <= MAX_ACTIVE_JOBS
    requires j in due && !HasLive(t.items, j)
    requires Terminal(row.state) && row.team == t.jobs[j].team
    requires row.state.Failed? ==> !HasPublished(t.items, j) && row.reason == Some("no_results")
    requires row.state.Completed? ==> HasPublished(t.items, j) || row.reason == Some("all_records_excluded")
    ensures Core(EndJob(t, j, row), due - {j}) && GateFull(EndJob(t, j, row).jobs)
  {
    hide Announced, HasPublished, ActiveCount, Promote;
    var closed := TerminalIntents(t.(jobs := t.jobs[j := row]), j, row.state);
    ActiveCountUpdate(t.jobs, j, row);
    TerminalIntentsAnnounced(t, j, row);
    forall i | 0 <= i < |closed.items| ensures ItemOk(closed.jobs, closed.items[i]) {
      assert ItemOk(t.jobs, t.items[i]);
    }
    forall k | 0 <= k < |closed.jobs| ensures JobOk(closed, k) {
      assert JobOk(t, k);
    }
    PromoteKeeps(closed, MAX_ACTIVE_JOBS - ActiveCount(closed.jobs), due - {j});
  }

  lemma FinishIfDrainedKeeps(t: Tables, j: nat, due: set<nat>)
    requires Core(t, due) && GateFull(t.jobs) && j in due && t.jobs[j].state.Running?
    ensures Core(FinishIfDrained(t, j), due - {j}) && GateFull(FinishIfDrained(t, j).jobs)
    ensures StaysRunning(t, FinishIfDrained(t, j), j)
  {
    FinishKeepsOthersRunning(t, j);
    if !HasLive(t.items, j) {
      EndJobKeeps(t, j, Drained(t, j), due);
    }
  }

  /** Jobs other than `j` that were running still are. */
  predicate StaysRunning(t: Tables, r: Tables, j: nat) {
    |r.jobs| == |t.jobs| && forall k :: 0 <= k < |t.jobs| && k != j && t.jobs[k].state.Running? ==>
      r.jobs[k].state.Running?
  }

  lemma {:induction false} PromoteOnlyStarts(t: Tables, slots: nat)
    ensures forall k :: 0 <= k < |t.jobs| ==>
      var r := Promote(t, slots);
      r.jobs[k] == t.jobs[k] || (t.jobs[k].state.Queued? && r.jobs[k] == t.jobs[k].(state := JobState.Running))
    decreases slots
  {
    var q := FirstQueued(t.jobs);
    if slots != 0 && q != |t.jobs| {
      PromoteOnlyStarts(StartJob(t, q), slots - 1);
    }
  }

  lemma FinishKeepsOthersRunning(t: Tables, j: nat)
    requires j < |t.jobs|
    ensures StaysRunning(t, FinishIfDrained(t, j), j)
  {
    if t.jobs[j].state.Running? && !HasLive(t.items, j) {
      var row := Drained(t, j);
      var closed := TerminalIntents(t.(jobs := t.jobs[j := row]), j, row.state);
      var active := ActiveCount(closed.jobs);
      PromoteOnlyStarts(closed, if active >= MAX_ACTIVE_JOBS then 0 else MAX_ACTIVE_JOBS - active);
    }
  }

  lemma {:induction false} FinishAllKeeps(t: Tables, order: seq<nat>, due: set<nat>)
    requires Core(t, due) && GateFull(t.jobs)
    requires Enumerates(order, due)
    requires forall k :: 0 <= k < |order| ==> order[k] < |t.jobs| && t.jobs[order[k]].state.Running?
    ensures Inv(FinishAll(t, order))
    decreases |order|
  {
    if order == [] {
      assert due == {};
    } else {
      var j := order[0];
      assert j in (set x | x in order);
      FinishIfDrainedKeeps(t, j, due);
      assert (set x | x in order[1..]) == due - {j};
      FinishAllKeeps(FinishIfDrained(t, j), order[1..], due - {j});
    }
  }

  // ----------------------------------------------------------------- the transactions

  /** Jobs whose rows are untouched keep their announcements. */
  lemma AnnouncedFrame(t: Tables, r: Tables)
    requires Announced(t) && r.jobs == t.jobs && r.events == t.events && r.outbox == t.outbox
    ensures Announced(r)
  {
    forall j | 0 <= j < |r.jobs| ensures AnnouncedJob(r, j) {
      assert AnnouncedJob(t, j);
    }
  }

  /** A swept row suits the job it belongs to, which is still running. */
  lemma SweptRowsOk(t: Tables, ids: set<nat>)
    requires ItemsOk(t) && forall i :: i in ids ==> i < |t.items| && t.items[i].state.Running?
    ensures ItemsOk(t.(items := SweptItems(t.items, ids)))
  {
    var swept := t.(items := SweptItems(t.items, ids));
    forall i | 0 <= i < |swept.items| ensures ItemOk(swept.jobs, swept.items[i]) {
      assert ItemOk(t.jobs, t.items[i]);
    }
  }

  /** Only the jobs of swept rows can have run out of work. */
  lemma SweptBacked(t: Tables, ids: set<nat>)
    requires Backed(t, {})
    requires forall i :: i in ids ==>
      i < |t.items| && t.items[i].job < |t.jobs| && t.jobs[t.items[i].job].state.Running?
    ensures Backed(t.(items := SweptItems(t.items, ids)), JobsOf(t.items, ids))
  {
    hide SweptRow;
    var due := JobsOf(t.items, ids);
    var swept := t.(items := SweptItems(t.items, ids));
    forall j | 0 <= j < |t.jobs| && j !in due && !Terminal(t.jobs[j].state) ensures HasLive(swept.items, j) {
      assert HasLive(t.items, j);
      var i :| 0 <= i < |t.items| && t.items[i].job == j && Live(t.items[i]);
      assert i !in ids;
      assert swept.items[i] == t.items[i];
    }
  }

  lemma SweptJobsOk(t: Tables, ids: set<nat>)
    requires JobsOk(t) && forall i :: i in ids ==> i < |t.items| && t.items[i].state.Running?
    ensures JobsOk(t.(items := SweptItems(t.items, ids)))
  {
    hide HasPublished;
    var swept := t.(items := SweptItems(t.items, ids));
    PublishedUnmoved(t.items, swept.items);
    forall j | 0 <= j < |t.jobs| ensures JobOk(swept, j) {
      assert JobOk(t, j);
    }
  }

  /** The sweep's update leaves the touched jobs to be closed. */
  lemma SweptCore(t: Tables, now: int, locked: set<nat>)
    requires Inv(t)
    ensures var ids := ExpiredItems(t, now, locked);
      Core(t.(items := SweptItems(t.items, ids)), JobsOf(t.items, ids))
  {
    hide Announced, Fifo, GateFull, ItemsOk, Backed, JobsOk, SweptItems, JobsOf;
    var ids := ExpiredItems(t, now, locked);
    SweptRowsOk(t, ids);
    SweptBacked(t, ids);
    SweptJobsOk(t, ids);
    AnnouncedFrame(t, t.(items := SweptItems(t.items, ids)));
  }

  lemma SweepKeeps(t: Tables, now: int, locked: set<nat>, order: seq<nat>, r: Tables)
    requires Inv(t) && SweepMakes(t, now, locked, order, r)
    ensures Inv(r)
  {
    hide Core, Enumerates;
    var ids := ExpiredItems(t, now, locked);
    var due := JobsOf(t.items, ids);
    SweptCore(t, now, locked);
    forall k | 0 <= k < |order| ensures t.jobs[order[k]].state.Running? {
      EnumeratedIn(order, due, k);
    }
    FinishAllKeeps(t.(items := SweptItems(t.items, ids)), order, due);
  }

  lemma EnumeratedIn(order: seq<nat>, due: set<nat>, k: nat)
    requires Enumerates(order, due) && k < |order|
    ensures order[k] in due
  {
    assert order[k] in (set x | x in order);
  }

  /** Updates that neither publish an item nor undo a publication leave `HasPublished` alone. */
  lemma PublishedUnmoved(items: seq<Item>, r: seq<Item>)
    requires |items| == |r|
    requires forall i :: 0 <= i < |items| ==>
      items[i].job == r[i].job && (items[i].state.Published? <==> r[i].state.Published?)
    ensures forall j :: HasPublished(items, j) == HasPublished(r, j)
  {
    forall j ensures HasPublished(items, j) == HasPublished(r, j) {
      if HasPublished(items, j) {
        var i :| 0 <= i < |items| && items[i].job == j && items[i].state.Published?;
        assert r[i].job == j && r[i].state.Published?;
      }
      if HasPublished(r, j) {
        var i :| 0 <= i < |r| && r[i].job == j && r[i].state.Published?;
        assert items[i].job == j && items[i].state.Published?;
      }
    }
  }

  lemma ClaimedKeeps(t: Tables, ids: set<nat>, worker: string, now: int)
    requires Inv(t)
    requires forall i :: i in ids ==>
      i < |t.items| && t.items[i].state.Pending? && t.items[i].job < |t.jobs| && t.jobs[t.items[i].job].state.Running?
    ensures RowsInRange(t) && Inv(Claimed(t, ids, worker, now))
  {
    forall i | 0 <= i < |t.items| ensures t.items[i].job < |t.jobs| {
      assert ItemOk(t.jobs, t.items[i]);
    }
    var r := Claimed(t, ids, worker, now);
    forall i | 0 <= i < |r.items| ensures ItemOk(r.jobs, r.items[i]) {
      assert ItemOk(t.jobs, t.items[i]);
    }
    forall j | 0 <= j < |t.jobs| && !Terminal(t.jobs[j].state) ensures HasLive(r.items, j) {
      assert HasLive(t.items, j);
      var i :| 0 <= i < |t.items| && t.items[i].job == j && Live(t.items[i]);
      assert r.items[i].job == j && Live(r.items[i]);
    }
    PublishedUnmoved(t.items, r.items);
    forall j | 0 <= j < |t.jobs| ensures JobOk(r, j) {
      assert JobOk(t, j);
    }
    AnnouncedFrame(t, r);
  }

  lemma PublishedKeeps(t: Tables, p: Publication, now: int)
    requires Inv(t) && p.item < |t.items|
    ensures Inv(PublishTx(t, p, now))
  {
    var seen := Observed(t, p, now);
    AnnouncedFrame(t, seen);
    assert Inv(seen) by {
      forall j | 0 <= j < |t.jobs| ensures JobOk(seen, j) && (!Terminal(t.jobs[j].state) ==> HasLive(seen.items, j)) {
        assert JobOk(t, j);
      }
    }
    if FenceHolds(t, p) {
      var j := t.items[p.item].job;
      var moved :=
        seen.(items := t.items[p.item := PublishedRow(t.items[p.item], UpsertedEntry(t, p, now).id, p.resultObject)]);
      ItemPublishedKeeps(seen, p.item, UpsertedEntry(t, p, now).id, p.resultObject);
      FinishIfDrainedKeeps(moved, j, {j});
      assert {j} - {j} == {};
    }
  }

  lemma ItemPublishedKeeps(t: Tables, i: nat, entry: nat, resultObject: nat)
    requires Inv(t) && i < |t.items| && t.items[i].state.Running?
    ensures t.items[i].job < |t.jobs| && t.jobs[t.items[i].job].state.Running?
    ensures Core(t.(items := t.items[i := PublishedRow(t.items[i], entry, resultObject)]), {t.items[i].job})
  {
    assert ItemOk(t.jobs, t.items[i]);
    var j := t.items[i].job;
    var r := t.(items := t.items[i := PublishedRow(t.items[i], entry, resultObject)]);
    forall k | 0 <= k < |r.items| ensures ItemOk(r.jobs, r.items[k]) {
      assert ItemOk(t.jobs, t.items[k]);
    }
    forall k | 0 <= k < |t.jobs| && k != j ensures HasLive(r.items, k) == HasLive(t.items, k) &&
                                                   HasPublished(r.items, k) == HasPublished(t.items, k) {
      OtherJobUnmoved(t.items, i, r.items[i], k);
    }
    forall k | 0 <= k < |t.jobs| ensures JobOk(r, k) {
      assert JobOk(t, k);
    }
    AnnouncedFrame(t, r);
  }

  lemma OtherJobUnmoved(items: seq<Item>, i: nat, row: Item, k: nat)
    requires i < |items| && items[i].job == row.job != k
    ensures HasLive(items[i := row], k) == HasLive(items, k)
    ensures HasPublished(items[i := row], k) == HasPublished(items, k)
  {
    var r := items[i := row];
    assert forall x :: 0 <= x < |items| && items[x].job == k ==> r[x] == items[x];
    assert forall x :: 0 <= x < |r| && r[x].job == k ==> r[x] == items[x];
  }

  lemma CancelKeeps(t: Tables, j: nat, team: nat)
    requires Inv(t)
    ensures Inv(CancelTx(t, j, team))
  {
    hide Announced, HasPublished, HasLive, ActiveCount, CancelledItems;
    if Cancellable(t, j, team) {
      assert JobOk(t, j);
      var items := CancelledItems(t.items, j);
      var emptied := t.(items := items);
      CancelledItemsCore(t, j);
      var running := t.jobs[j].state.Running?;
      var told :=
        if running then WithEvent(emptied.(jobs := t.jobs[j := t.jobs[j]]), j, CancellationRequested) else emptied;
      if running {
        assert t.jobs[j := t.jobs[j]] == t.jobs;
        PlainEventAnnounced(emptied, j, t.jobs[j], CancellationRequested);
        assert forall k :: 0 <= k < |t.jobs| ==> JobOk(emptied, k) ==> JobOk(told, k);
        assert Backed(emptied, {j}) ==> Backed(told, {j});
      }
      var fenced := if running then t.jobs[j].(fence := t.jobs[j].fence + 1) else t.jobs[j];
      var row := fenced.(state := JobState.Cancelled);
      EndJobKeeps(told, j, row, {j});
      assert {j} - {j} == {};
      var asked := t.jobs[j := t.jobs[j].(state := JobState.Cancelling, fence := t.jobs[j].fence + 1)];
      assert asked[j := row] == t.jobs[j := row];
      assert CancelTx(t, j, team) == EndJob(told, j, row);
    }
  }

  lemma CancelledItemsCore(t: Tables, j: nat)
    requires Inv(t) && j < |t.jobs| && !Terminal(t.jobs[j].state)
    ensures Core(t.(items := CancelledItems(t.items, j)), {j})
    ensures !HasLive(CancelledItems(t.items, j), j)
  {
    var r := t.(items := CancelledItems(t.items, j));
    forall i | 0 <= i < |r.items| ensures ItemOk(r.jobs, r.items[i]) {
      assert ItemOk(t.jobs, t.items[i]);
    }
    forall k | 0 <= k < |t.jobs| && k != j && !Terminal(t.jobs[k].state) ensures HasLive(r.items, k) {
      assert HasLive(t.items, k);
      var i :| 0 <= i < |t.items| && t.items[i].job == k && Live(t.items[i]);
      assert r.items[i] == t.items[i];
    }
    PublishedUnmoved(t.items, r.items);
    forall k | 0 <= k < |t.jobs| ensures JobOk(r, k) {
      assert JobOk(t, k);
    }
    AnnouncedFrame(t, r);
  }

  // ------------------------------------------------------------------- admission

  lemma {:induction false} PlanSplits(items: seq<PlannedItem>, reusable: Reusable)
    ensures |ToFetch(items, reusable)| + |Reused(items, reusable)| == |items|
  {
    if items != [] {
      PlanSplits(items[1..], reusable);
    }
  }

  lemma NewItemsOk(j: nat, s: Submission, reusable: Reusable, jobs: seq<Job>)
    requires j < |jobs| && jobs[j].team == s.team
    requires ToFetch(s.plan.items, reusable) != [] ==> jobs[j].state.Queued? || jobs[j].state.Running?
    ensures forall k :: 0 <= k < |NewItems(j, s, reusable)| ==>
      ItemOk(jobs, NewItems(j, s, reusable)[k]) && NewItems(j, s, reusable)[k].job == j
    ensures HasLive(NewItems(j, s, reusable), j) <==> ToFetch(s.plan.items, reusable) != []
    ensures HasPublished(NewItems(j, s, reusable), j) <==> Reused(s.plan.items, reusable) != []
  {
    hide ToFetch, Reused, PairOf;
    var rows := NewItems(j, s, reusable);
    var fetch := ToFetch(s.plan.items, reusable);
    var reuse := Reused(s.plan.items, reusable);
    if fetch != [] {
      assert rows[0] == PendingRow(j, s.team, fetch[0]);
    }
    if reuse != [] {
      assert rows[|fetch|] == ReusedRow(j, s.team, reuse[0], reusable[PairOf(reuse[0])]);
    }
  }

  lemma AppendedItems(items: seq<Item>, more: seq<Item>, j: nat)
    requires forall i :: 0 <= i < |items| ==> items[i].job < j
    requires forall i :: 0 <= i < |more| ==> more[i].job == j
    ensures HasLive(items + more, j) == HasLive(more, j)
    ensures HasPublished(items + more, j) == HasPublished(more, j)
    ensures forall k :: 0 <= k < j ==> HasLive(items + more, k) == HasLive(items, k)
    ensures forall k :: 0 <= k < j ==> HasPublished(items + more, k) == HasPublished(items, k)
  {
    var all := items + more;
    assert forall x :: 0 <= x < |items| ==> all[x] == items[x];
    assert forall x :: 0 <= x < |more| ==> all[|items| + x] == more[x];
    assert forall x :: |items| <= x < |all| ==> all[x] == more[x - |items|];
  }

  /** Inserting a job with its items, before its event is recorded. */
  lemma InsertedRows(t: Tables, row: Job, more: seq<Item>)
    requires Inv(t)
    requires forall k :: 0 <= k < |more| ==> more[k].job == |t.jobs| && ItemOk(t.jobs + [row], more[k])
    requires !Terminal(row.state) ==> HasLive(more, |t.jobs|)
    requires !row.state.Cancelling? && !row.state.Failed?
    requires row.state.Completed? ==> HasPublished(more, |t.jobs|) || row.reason == Some("all_records_excluded")
    ensures ItemsOk(Inserted(t, row, more)) && Backed(Inserted(t, row, more), {}) && JobsOk(Inserted(t, row, more))
  {
    hide HasLive, HasPublished, Announced, Fifo, GateFull, ActiveCount;
    var j := |t.jobs|;
    var r := Inserted(t, row, more);
    forall i | 0 <= i < |t.items| ensures ItemOk(r.jobs, t.items[i]) && t.items[i].job < j {
      assert ItemOk(t.jobs, t.items[i]);
    }
    AppendedItems(t.items, more, j);
    forall k | 0 <= k < |r.jobs| ensures JobOk(r, k) && (!Terminal(r.jobs[k].state) ==> HasLive(r.items, k)) {
      if k < j {
        assert JobOk(t, k);
        assert r.jobs[k] == t.jobs[k];
      }
    }
  }

  /** A job that starts running takes a free place; one that waits finds none. */
  lemma AdmittedGate(jobs: seq<Job>, row: Job)
    requires Fifo(jobs) && GateFull(jobs) && !row.state.Cancelling?
    requires row.state.Running? ==> ActiveCount(jobs) < MAX_ACTIVE_JOBS
    requires row.state.Queued? ==> ActiveCount(jobs) >= MAX_ACTIVE_JOBS
    ensures Fifo(jobs + [row]) && GateFull(jobs + [row])
  {
    ActiveCountAppend(jobs, row);
  }

  /** What an admission inserts fits the new job. */
  lemma AdmittedRows(t: Tables, s: Submission, reusable: Reusable)
    requires Inv(t)
    ensures var r := Inserted(t, AdmittedJob(t, s, reusable), NewItems(|t.jobs|, s, reusable));
      ItemsOk(r) && Backed(r, {}) && JobsOk(r)
  {
    hide Inv, ItemOk, NewItems, ToFetch, Reused, HasLive, HasPublished, ActiveCount, ItemsOk, Backed, JobsOk, Inserted;
    var row := AdmittedJob(t, s, reusable);
    NewItemsOk(|t.jobs|, s, reusable, t.jobs + [row]);
    PlanSplits(s.plan.items, reusable);
    InsertedRows(t, row, NewItems(|t.jobs|, s, reusable));
  }

  lemma AdmittedKeeps(t: Tables, s: Submission, reusable: Reusable)
    requires Inv(t)
    ensures Inv(AdmitTx(t, s, reusable))
  {
    hide Announced, NewItems, ToFetch, ItemsOk, Backed, JobsOk, Fifo, GateFull, ActiveCount;
    var row, more := AdmittedJob(t, s, reusable), NewItems(|t.jobs|, s, reusable);
    AdmittedRows(t, s, reusable);
    AdmittedGate(t.jobs, row);
    AdmissionAnnounced(t, row, more);
    EventsOnly(Inserted(t, row, more), AdmitTx(t, s, reusable));
  }

  /** The item and job clauses do not read the event tables. */
  lemma EventsOnly(t: Tables, r: Tables)
    requires r.jobs == t.jobs && r.items == t.items
    requires ItemsOk(t) && Backed(t, {}) && JobsOk(t)
    ensures ItemsOk(r) && Backed(r, {}) && JobsOk(r)
  {
    forall j | 0 <= j < |r.jobs| ensures JobOk(r, j) {
      assert JobOk(t, j);
    }
  }

  /** A waiting job nothing has been said about yet. */
  lemma QueuedUnannounced(t: Tables, row: Job, more: seq<Item>)
    requires Announced(t) && row.state.Queued?
    ensures Announced(Inserted(t, row, more))
  {
    hide TerminalEvents, ChannelsOf, NoticeOk;
    var r := Inserted(t, row, more);
    UnknownJobUnannounced(t.events, |t.jobs|);
    forall k | 0 <= k < |r.jobs| ensures AnnouncedJob(r, k) {
      if k < |t.jobs| {
        assert AnnouncedJob(t, k);
      }
    }
  }

  lemma AdmissionAnnounced(t: Tables, row: Job, more: seq<Item>)
    requires Announced(t)
    ensures var r := Inserted(t, row, more);
      Announced(if Terminal(row.state) then TerminalIntents(r, |t.jobs|, row.state)
                else WithEvent(r, |t.jobs|, StateEvent(row.state)))
  {
    hide Announced;
    var j := |t.jobs|;
    var waiting := row.(state := JobState.Queued);
    QueuedUnannounced(t, waiting, more);
    var open := Inserted(t, waiting, more);
    assert open.jobs[j := row] == t.jobs + [row];
    if Terminal(row.state) {
      TerminalIntentsAnnounced(open, j, row);
    } else {
      PlainEventAnnounced(open, j, row, StateEvent(row.state));
    }
  }

  lemma NeverCancelling(t: Tables, j: nat)
    requires Inv(t)
    ensures j < |t.jobs| ==> !t.jobs[j].state.Cancelling?
  {
    if j < |t.jobs| {
      assert JobOk(t, j);
    }
  }

  lemma EmptyInv()
    ensures Inv(EMPTY)
  {
  }
}
