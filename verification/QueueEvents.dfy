/**
 The event log tells each job's life: its states in order, the present one last, and one
 request for each running job that was cancelled.
 */
module QueueEvents {
  import opened Basics
  import opened JobTables
  import opened ClaimQuery
  import opened QueueInvariant
  import opened QueueRuns

  /** The states the log tells of a job, in order. */
  function StatesTold(events: seq<Event>, j: nat): seq<JobState> {
    if events == [] then []
    else
      var before, last := StatesTold(events[..|events| - 1], j), events[|events| - 1];
      if last.job == j && last.kind.StateEvent? then before + [last.kind.state] else before
  }

  function RequestsTold(events: seq<Event>, j: nat): nat {
    if events == [] then 0
    else
      var last := events[|events| - 1];
      RequestsTold(events[..|events| - 1], j) + if last.job == j && last.kind.CancellationRequested? then 1 else 0
  }

  /** A job waits at most once, then runs at most once, then ends. */
  predicate IsLife(states: seq<JobState>) {
    match |states|
    case 1 => states[0].Queued? || states[0].Running? || states[0].Completed?
    case 2 => (states[0].Queued? && (states[1].Running? || states[1].Cancelled?)) ||
              (states[0].Running? && (states[1].Completed? || states[1].Failed? || states[1].Cancelled?))
    case 3 => states[0].Queued? && states[1].Running? &&
              (states[2].Completed? || states[2].Failed? || states[2].Cancelled?)
    case _ => false
  }

  predicate LifeTold(t: Tables, j: nat)
    requires j < |t.jobs|
  {
    var told := StatesTold(t.events, j);
    && IsLife(told) && told[|told| - 1] == t.jobs[j].state
    && RequestsTold(t.events, j) == if t.jobs[j].state.Cancelled? && JobState.Running in told then 1 else 0
  }

  ghost predicate LivesTold(t: Tables) {
    && (forall j :: 0 <= j < |t.jobs| ==> LifeTold(t, j))
    && (forall e :: 0 <= e < |t.events| ==> t.events[e].job < |t.jobs|)
  }

  lemma EventTold(events: seq<Event>, e: Event, j: nat)
    ensures StatesTold(events + [e], j) ==
            StatesTold(events, j) + if e.job == j && e.kind.StateEvent? then [e.kind.state] else []
    ensures RequestsTold(events + [e], j) ==
            RequestsTold(events, j) + if e.job == j && e.kind.CancellationRequested? then 1 else 0
  {
    assert (events + [e])[..|events|] == events;
  }

  /** What may follow a state, and be told. */
  predicate Follows(was: JobState, now: JobState) {
    || (was.Queued? && (now.Running? || now.Cancelled?))
    || (was.Running? && (now.Completed? || now.Failed?))
  }

  /** A change of state that is told keeps the log truthful. */
  lemma ChangeTold(t: Tables, j: nat, row: Job)
    requires LivesTold(t) && j < |t.jobs| && Follows(t.jobs[j].state, row.state)
    ensures LivesTold(WithEvent(t.(jobs := t.jobs[j := row]), j, StateEvent(row.state)))
  {
    hide StatesTold, RequestsTold;
    var r := WithEvent(t.(jobs := t.jobs[j := row]), j, StateEvent(row.state));
    forall k | 0 <= k < |r.jobs| ensures LifeTold(r, k) {
      assert LifeTold(t, k);
      EventTold(t.events, Event(j, StateEvent(row.state)), k);
    }
  }

  /** A running job is cancelled: the request and the end are told. */
  lemma CancelTold(t: Tables, j: nat, row: Job)
    requires LivesTold(t) && j < |t.jobs| && t.jobs[j].state.Running? && row.state.Cancelled?
    ensures LivesTold(WithEvent(WithEvent(t.(jobs := t.jobs[j := row]), j, CancellationRequested), j,
                                StateEvent(row.state)))
  {
    hide StatesTold, RequestsTold;
    var r := WithEvent(WithEvent(t.(jobs := t.jobs[j := row]), j, CancellationRequested), j, StateEvent(row.state));
    forall k | 0 <= k < |r.jobs| ensures LifeTold(r, k) {
      assert LifeTold(t, k);
      EventTold(t.events, Event(j, CancellationRequested), k);
      EventTold(t.events + [Event(j, CancellationRequested)], Event(j, StateEvent(row.state)), k);
    }
  }

  /** Whether the lives are told is read off the jobs and the events. */
  lemma SameLives(t: Tables, r: Tables)
    requires LivesTold(t) && r.jobs == t.jobs && r.events == t.events
    ensures LivesTold(r)
  {
    forall j | 0 <= j < |r.jobs| ensures LifeTold(r, j) {
      assert LifeTold(t, j);
    }
  }

  lemma {:induction false} PromoteTold(t: Tables, slots: nat)
    requires LivesTold(t)
    ensures LivesTold(Promote(t, slots))
    decreases slots
  {
    hide LivesTold;
    var q := FirstQueued(t.jobs);
    if slots != 0 && q != |t.jobs| {
      ChangeTold(t, q, t.jobs[q].(state := JobState.Running));
      PromoteTold(StartJob(t, q), slots - 1);
    }
  }

  lemma PromoteLockedTold(t: Tables)
    requires LivesTold(t)
    ensures LivesTold(PromoteLocked(t))
  {
    hide LivesTold, ActiveCount, Promote;
    var active := ActiveCount(t.jobs);
    if active < MAX_ACTIVE_JOBS {
      PromoteTold(t, MAX_ACTIVE_JOBS - active);
    }
  }

  lemma EndTold(t: Tables, j: nat, row: Job)
    requires LivesTold(t) && j < |t.jobs| && Follows(t.jobs[j].state, row.state)
    ensures LivesTold(EndJob(t, j, row))
  {
    hide LivesTold, PromoteLocked;
    ChangeTold(t, j, row);
    var closed := TerminalIntents(t.(jobs := t.jobs[j := row]), j, row.state);
    SameLives(WithEvent(t.(jobs := t.jobs[j := row]), j, StateEvent(row.state)), closed);
    PromoteLockedTold(closed);
  }

  lemma FinishTold(t: Tables, j: nat)
    requires LivesTold(t) && j < |t.jobs|
    ensures LivesTold(FinishIfDrained(t, j))
  {
    hide LivesTold, EndJob, HasLive, HasPublished;
    if t.jobs[j].state.Running? && !HasLive(t.items, j) {
      EndTold(t, j, Drained(t, j));
    }
  }

  lemma {:induction false} FinishAllTold(t: Tables, order: seq<nat>)
    requires LivesTold(t) && forall k :: 0 <= k < |order| ==> order[k] < |t.jobs|
    ensures LivesTold(FinishAll(t, order))
    decreases |order|
  {
    hide LivesTold, FinishIfDrained;
    if order != [] {
      FinishTold(t, order[0]);
      FinishAllTold(FinishIfDrained(t, order[0]), order[1..]);
    }
  }

  lemma ClaimTold(t: Tables, c: ClaimTx, r: Tables)
    requires LivesTold(t) && ClaimMakes(t, c, r)
    ensures LivesTold(r)
  {
    hide LivesTold, IsTop, NestedPick, Claimable, FinishAll, Enumerates;
    ClaimTakes(t, c, r);
    var swept := t.(items := SweptItems(t.items, ExpiredItems(t, c.now, c.barred.locked)));
    SameLives(t, swept);
    FinishAllTold(swept, c.visited);
    SameLives(c.swept, r);
  }

  lemma PublishTold(t: Tables, p: Publication, now: int)
    requires LivesTold(t) && p.item < |t.items|
    ensures LivesTold(PublishTx(t, p, now))
  {
    hide LivesTold, FinishIfDrained, UpsertedEntry;
    SameLives(t, Observed(t, p, now));
    if FenceHolds(t, p) {
      var row := PublishedRow(t.items[p.item], UpsertedEntry(t, p, now).id, p.resultObject);
      var moved := Observed(t, p, now).(items := t.items[p.item := row]);
      SameLives(t, moved);
      FinishTold(moved, t.items[p.item].job);
    }
  }

  lemma CancelTxTold(t: Tables, j: nat, team: nat)
    requires LivesTold(t) && (j < |t.jobs| ==> !t.jobs[j].state.Cancelling?)
    ensures LivesTold(CancelTx(t, j, team))
  {
    hide LivesTold, PromoteLocked;
    if Cancellable(t, j, team) {
      var was := t.jobs[j];
      var emptied := t.(items := CancelledItems(t.items, j));
      SameLives(t, emptied);
      if was.state.Running? {
        var row := was.(state := JobState.Cancelled, fence := was.fence + 1);
        CancelTold(emptied, j, row);
        var asked := t.jobs[j := was.(state := JobState.Cancelling, fence := was.fence + 1)];
        assert asked[j := row] == t.jobs[j := row];
        var told := WithEvent(emptied.(jobs := t.jobs[j := row]), j, CancellationRequested);
        var closed := TerminalIntents(told, j, row.state);
        SameLives(WithEvent(told, j, StateEvent(row.state)), closed);
        PromoteLockedTold(closed);
        assert CancelTx(t, j, team) == PromoteLocked(closed);
      } else {
        EndTold(emptied, j, was.(state := JobState.Cancelled));
      }
    }
  }

  lemma {:induction false} NothingTold(events: seq<Event>, j: nat)
    requires forall e :: 0 <= e < |events| ==> events[e].job < j
    ensures StatesTold(events, j) == [] && RequestsTold(events, j) == 0
  {
    if events != [] {
      NothingTold(events[..|events| - 1], j);
    }
  }

  lemma AdmitTold(t: Tables, s: Submission, reusable: Reusable)
    requires LivesTold(t)
    ensures LivesTold(AdmitTx(t, s, reusable))
  {
    hide StatesTold, RequestsTold, NewItems, ToFetch, ActiveCount;
    var r := AdmitTx(t, s, reusable);
    var j, e := |t.jobs|, Event(|t.jobs|, StateEvent(AdmittedState(t, s, reusable)));
    assert r.events == t.events + [e];
    NothingTold(t.events, j);
    forall k | 0 <= k < |r.jobs| ensures LifeTold(r, k) {
      EventTold(t.events, e, k);
      if k < j {
        assert LifeTold(t, k);
      }
    }
  }

  lemma StepTold(t: Tables, a: Action, r: Tables)
    requires LivesTold(t) && Inv(t) && Step(t, a, r)
    ensures LivesTold(r)
  {
    hide LivesTold, Inv, AdmitTx, CancelTx, ClaimMakes, PublishTx;
    match a
    case Admit(s, reusable) => AdmitTold(t, s, reusable);
    case Cancel(j, team) =>
      NeverCancelling(t, j);
      CancelTxTold(t, j, team);
    case Claim(c) => ClaimTold(t, c, r);
    case Publish(p, now) => PublishTold(t, p, now);
  }

  /**
   In every state of every run the log tells each job's states in order, each once and the
   present one last, with one cancellation request exactly for a job cancelled while it ran.
   */
  lemma {:induction false} LivesToldInRun(states: seq<Tables>, actions: seq<Action>, n: nat)
    requires Run(states, actions) && n < |states|
    ensures LivesTold(states[n])
  {
    hide Step, Inv;
    if n > 0 {
      hide LivesTold;
      LivesToldInRun(states, actions, n - 1);
      RunKeepsInv(states, actions, n - 1);
      StepTold(states[n - 1], actions[n - 1], states[n]);
    }
  }
}
