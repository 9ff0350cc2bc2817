/**
 The lanes of one worker and their loops, step by step, with what the dispatcher does to
 them: it puts items on queues and counts polls.
 */
module LaneLoops {
  import opened Basics

  const IDLE_SESSION_CLOSE_AFTER: nat := 5

  datatype Key = Key(source: string, credential: nat)

  datatype Work = Work(item: nat, key: Key)

  datatype Phase = NotStarted | Closing | Waiting | Working(work: Work)

  datatype Lane = Lane(phase: Phase, key: Option<Key>, hasProvider: bool, idlePolls: nat)

  datatype Agent = Agent(lanes: seq<Lane>, queues: seq<seq<Work>>, idle: set<nat>)

  const NEW_LANE := Lane(NotStarted, None, false, 0)

  // --------------------------------------------------------------------- lane loops

  datatype LaneStep =
    | Loops(i: nat)      // starts over: idle again, and closing its session if idle for long
    | Closes(i: nat)     // the session is closed
    | Gets(i: nat)       // takes the item from its queue
    | Adopts(i: nat)     // has a session for the item

  predicate CanStep(a: Agent, s: LaneStep) {
    && s.i < |a.lanes| == |a.queues|
    && match s
       case Loops(i) => a.lanes[i].phase.NotStarted? || a.lanes[i].phase.Working?
       case Closes(i) => a.lanes[i].phase.Closing?
       case Gets(i) => a.lanes[i].phase.Waiting? && a.queues[i] != []
       case Adopts(i) => a.lanes[i].phase.Working?
  }

  function LaneNext(a: Agent, s: LaneStep): Agent {
    if !CanStep(a, s) then a
    else
      var lane := a.lanes[s.i];
      match s
      case Loops(i) =>
        var phase := if lane.hasProvider && lane.idlePolls >= IDLE_SESSION_CLOSE_AFTER then Closing else Waiting;
        a.(lanes := a.lanes[i := lane.(phase := phase)], idle := a.idle + {i})
      case Closes(i) => a.(lanes := a.lanes[i := lane.(phase := Waiting, hasProvider := false, key := None)])
      case Gets(i) =>
        a.(lanes := a.lanes[i := lane.(phase := Working(a.queues[i][0]))], queues := a.queues[i := a.queues[i][1..]])
      case Adopts(i) =>
        a.(lanes := a.lanes[i := lane.(key := Some(lane.phase.work.key), hasProvider := true, idlePolls := 0)])
  }

  function LanesRun(a: Agent, steps: seq<LaneStep>): Agent
    decreases |steps|
  {
    if steps == [] then a else LanesRun(LaneNext(a, steps[0]), steps[1..])
  }

  /**
   An idle lane waits with an empty queue; a lane that waits without being idle has one item coming;
   others have none.
   */
  predicate LaneSound(a: Agent, i: nat)
    requires i < |a.lanes| == |a.queues|
  {
    && |a.queues[i]| == (if i !in a.idle && (a.lanes[i].phase.Closing? || a.lanes[i].phase.Waiting?) then 1 else 0)
    && (i in a.idle ==> a.lanes[i].phase.Closing? || a.lanes[i].phase.Waiting?)
  }

  ghost predicate Sound(a: Agent) {
    && |a.lanes| == |a.queues|
    && (forall i :: i in a.idle ==> i < |a.lanes|)
    && (forall i: nat :: i < |a.lanes| ==> LaneSound(a, i))
  }

  /** What the dispatcher may rely on across an await: idle lanes stay idle, and nobody else counts polls up. */
  ghost predicate Rely(a: Agent, b: Agent) {
    && |a.lanes| == |a.queues| == |b.lanes| == |b.queues|
    && a.idle <= b.idle
    && (forall i :: i in a.idle && i < |a.lanes| ==>
          b.lanes[i].idlePolls == a.lanes[i].idlePolls && b.queues[i] == a.queues[i])
    && (forall i: nat :: i < |a.lanes| ==> b.lanes[i].idlePolls == a.lanes[i].idlePolls || b.lanes[i].idlePolls == 0)
  }

  lemma StepIsSafe(a: Agent, s: LaneStep)
    requires Sound(a)
    ensures Sound(LaneNext(a, s)) && Rely(a, LaneNext(a, s))
  {
    var b := LaneNext(a, s);
    forall i: nat | i < |b.lanes|
      ensures LaneSound(b, i)
      ensures i in a.idle ==> b.lanes[i].idlePolls == a.lanes[i].idlePolls && b.queues[i] == a.queues[i]
    {
      assert LaneSound(a, i);
    }
  }

  lemma {:induction false} LanesAreSafe(a: Agent, steps: seq<LaneStep>)
    requires Sound(a)
    ensures Sound(LanesRun(a, steps)) && Rely(a, LanesRun(a, steps))
    decreases |steps|
  {
    if steps != [] {
      StepIsSafe(a, steps[0]);
      LanesAreSafe(LaneNext(a, steps[0]), steps[1..]);
    }
  }

  /** The items lane `i` takes from its queue, in order. */
  function TakenBy(a: Agent, steps: seq<LaneStep>, i: nat): seq<Work>
    decreases |steps|
  {
    if steps == [] then []
    else TakesNow(a, steps[0], i) + TakenBy(LaneNext(a, steps[0]), steps[1..], i)
  }

  function TakesNow(a: Agent, s: LaneStep, i: nat): seq<Work> {
    if s == Gets(i) && CanStep(a, s) then [a.queues[i][0]] else []
  }

  lemma StepTakesFront(a: Agent, s: LaneStep, i: nat)
    requires i < |a.lanes| == |a.queues|
    ensures |LaneNext(a, s).lanes| == |LaneNext(a, s).queues| == |a.queues|
    ensures TakesNow(a, s, i) + LaneNext(a, s).queues[i] == a.queues[i]
  {
  }

  /** What a lane takes it works on. */
  lemma WorksOnFront(a: Agent, i: nat)
    requires CanStep(a, Gets(i))
    ensures TakesNow(a, Gets(i), i) == [a.queues[i][0]]
    ensures |LaneNext(a, Gets(i)).lanes| == |a.lanes|
    ensures LaneNext(a, Gets(i)).lanes[i].phase == Working(a.queues[i][0])
  {
  }

  /** Lane loops put nothing on a queue and take from the front of their own only: the rest stays the same. */
  lemma {:induction false} QueuesStayPut(a: Agent, steps: seq<LaneStep>, i: nat)
    requires i < |a.lanes| == |a.queues|
    ensures |LanesRun(a, steps).queues| == |a.queues|
    ensures TakenBy(a, steps, i) + LanesRun(a, steps).queues[i] == a.queues[i]
    decreases |steps|
  {
    if steps != [] {
      hide LaneNext, TakesNow;
      StepTakesFront(a, steps[0], i);
      QueuesStayPut(LaneNext(a, steps[0]), steps[1..], i);
    }
  }

  // --------------------------------------------------------------- no lane ever closes

  /** All that ever happens to the lanes: their own steps, and the dispatcher's on idle ones. */
  datatype Move =
    | Runs(step: LaneStep)
    | Puts(i: nat, work: Work)     // assigned an item
    | Polls(i: nat)                // left without one by a round

  function MoveNext(a: Agent, m: Move): Agent {
    match m
    case Runs(step) => LaneNext(a, step)
    case Puts(i, work) =>
      if i !in a.idle || i >= |a.lanes| || i >= |a.queues| then a
      else Agent(a.lanes[i := a.lanes[i].(idlePolls := 0)], a.queues[i := a.queues[i] + [work]], a.idle - {i})
    case Polls(i) =>
      if i !in a.idle || i >= |a.lanes| then a
      else a.(lanes := a.lanes[i := a.lanes[i].(idlePolls := a.lanes[i].idlePolls + 1)])
  }

  function NewAgent(concurrency: nat): Agent {
    Agent(seq(concurrency, _ => NEW_LANE), seq(concurrency, _ => []), {})
  }

  /** A worker's lanes after a history of moves. */
  function Played(concurrency: nat, moves: seq<Move>): Agent {
    if moves == [] then NewAgent(concurrency)
    else MoveNext(Played(concurrency, moves[..|moves| - 1]), moves[|moves| - 1])
  }

  /** No lane is closing its session, and only idle lanes have counted a poll. */
  ghost predicate NobodyCloses(a: Agent) {
    forall i: nat :: i < |a.lanes| ==> !a.lanes[i].phase.Closing? && (i !in a.idle ==> a.lanes[i].idlePolls == 0)
  }

  lemma MoveIsSound(a: Agent, m: Move)
    requires Sound(a)
    ensures Sound(MoveNext(a, m)) && |MoveNext(a, m).lanes| == |a.lanes|
  {
    if m.Runs? {
      StepIsSafe(a, m.step);
    } else {
      var b := MoveNext(a, m);
      forall j: nat | j < |b.lanes| ensures LaneSound(b, j) {
        assert LaneSound(a, j);
      }
    }
  }

  lemma MoveClosesNobody(a: Agent, m: Move)
    requires Sound(a) && NobodyCloses(a)
    ensures NobodyCloses(MoveNext(a, m))
  {
    var b := MoveNext(a, m);
    forall i: nat | i < |b.lanes| ensures !b.lanes[i].phase.Closing? && (i !in b.idle ==> b.lanes[i].idlePolls == 0) {
      assert LaneSound(a, i);
      assert !a.lanes[i].phase.Closing? && (i !in a.idle ==> a.lanes[i].idlePolls == 0);
    }
  }

  lemma NewAgentIsSound(concurrency: nat)
    ensures Sound(NewAgent(concurrency)) && NobodyCloses(NewAgent(concurrency))
  {
  }

  lemma {:induction false} HistoryIsSound(concurrency: nat, moves: seq<Move>)
    ensures Sound(Played(concurrency, moves)) && |Played(concurrency, moves).lanes| == concurrency
  {
    hide Sound, MoveNext;
    if moves == [] {
      NewAgentIsSound(concurrency);
    } else {
      HistoryIsSound(concurrency, moves[..|moves| - 1]);
      MoveIsSound(Played(concurrency, moves[..|moves| - 1]), moves[|moves| - 1]);
    }
  }

  /**
   A lane counts polls only while it is idle, and is assigned an item before it is not; a lane
   that looks at its polls has just worked. So however rounds and lane steps interleave, no lane
   closes its session for having been idle.
   */
  lemma {:induction false} NoLaneEverCloses(concurrency: nat, moves: seq<Move>)
    ensures NobodyCloses(Played(concurrency, moves))
  {
    hide Sound, NobodyCloses, MoveNext;
    if moves == [] {
      NewAgentIsSound(concurrency);
    } else {
      var before := moves[..|moves| - 1];
      HistoryIsSound(concurrency, before);
      NoLaneEverCloses(concurrency, before);
      MoveClosesNobody(Played(concurrency, before), moves[|moves| - 1]);
    }
  }

  /** A lane that does close forgets its key along with its session. */
  lemma ClosedLaneForgets(a: Agent, i: nat)
    requires CanStep(a, Closes(i))
    ensures var b := LaneNext(a, Closes(i));
      |b.lanes| == |a.lanes| && b.lanes[i].key == None && !b.lanes[i].hasProvider && b.lanes[i].phase.Waiting?
  {
  }

  /** So a lane keeps its key and its session until it has adopted another item. */
  lemma SessionKeptUntilAdoption(concurrency: nat, moves: seq<Move>, m: Move, i: nat)
    requires m != Runs(Adopts(i))
    ensures var a, b := Played(concurrency, moves), Played(concurrency, moves + [m]);
      |b.lanes| == |a.lanes| && (i < |a.lanes| ==>
        b.lanes[i].key == a.lanes[i].key && b.lanes[i].hasProvider == a.lanes[i].hasProvider)
  {
    NoLaneEverCloses(concurrency, moves);
    PlayedMore(concurrency, moves, m);
  }

  /** Whatever a lane has on its queue, is working on or keeps a session for was put there by the dispatcher. */
  ghost predicate WasPut(a: Agent, i: nat, moves: seq<Move>) {
    i < |a.lanes| && i < |a.queues| ==>
      && (forall w :: w in a.queues[i] ==> Puts(i, w) in moves)
      && (a.lanes[i].phase.Working? ==> Puts(i, a.lanes[i].phase.work) in moves)
      && (a.lanes[i].hasProvider <==> a.lanes[i].key.Some?)
      && (a.lanes[i].key.Some? ==> exists w :: Puts(i, w) in moves && w.key == a.lanes[i].key.value)
  }

  lemma MoveKeepsPut(a: Agent, m: Move, i: nat, moves: seq<Move>)
    requires WasPut(a, i, moves) && Sound(a)
    ensures WasPut(MoveNext(a, m), i, moves + [m])
  {
    var b, all := MoveNext(a, m), moves + [m];
    assert forall x :: x in moves ==> x in all;
    assert all[|moves|] == m;
    if i < |a.lanes| && a.lanes[i].key.Some? {
      var w :| Puts(i, w) in moves && w.key == a.lanes[i].key.value;
      assert Puts(i, w) in all;
    }
    if m == Runs(Adopts(i)) && i < |a.lanes| && a.lanes[i].phase.Working? {
      assert Puts(i, a.lanes[i].phase.work) in all;
    }
  }

  lemma {:induction false} AllWasPut(concurrency: nat, moves: seq<Move>, i: nat)
    ensures WasPut(Played(concurrency, moves), i, moves)
  {
    hide Sound, MoveNext, WasPut;
    if moves == [] {
      NewLaneHasNothing(concurrency, i);
    } else {
      var before := moves[..|moves| - 1];
      HistoryIsSound(concurrency, before);
      AllWasPut(concurrency, before, i);
      MoveKeepsPut(Played(concurrency, before), moves[|moves| - 1], i, before);
      assert moves == before + [moves[|moves| - 1]];
    }
  }

  lemma NewLaneHasNothing(concurrency: nat, i: nat)
    ensures WasPut(NewAgent(concurrency), i, [])
  {
  }

  /**
   A lane that adopts an item, which the dispatcher had put on its queue, keeps its session for that
   item's key from then on; its polls start at zero again.
   */
  lemma AdoptionFollowsItem(concurrency: nat, moves: seq<Move>, i: nat)
    requires i < concurrency && i < |Played(concurrency, moves).lanes|
    requires Played(concurrency, moves).lanes[i].phase.Working?
    ensures var a, b := Played(concurrency, moves), Played(concurrency, moves + [Runs(Adopts(i))]);
      && |b.lanes| == |a.lanes|
      && Puts(i, a.lanes[i].phase.work) in moves
      && b.lanes[i].key == Some(a.lanes[i].phase.work.key) && b.lanes[i].hasProvider && b.lanes[i].idlePolls == 0
  {
    AllWasPut(concurrency, moves, i);
    HistoryIsSound(concurrency, moves);
    PlayedMore(concurrency, moves, Runs(Adopts(i)));
  }

  lemma PlayedMore(concurrency: nat, moves: seq<Move>, m: Move)
    ensures Played(concurrency, moves + [m]) == MoveNext(Played(concurrency, moves), m)
  {
    assert (moves + [m])[..|moves|] == moves;
  }

  /** At every moment of a history. */
  ghost predicate NeverClosing(concurrency: nat, moves: seq<Move>) {
    forall k :: 0 <= k <= |moves| ==> NobodyCloses(Played(concurrency, moves[..k]))
  }

  lemma HistoryNeverCloses(concurrency: nat, moves: seq<Move>)
    ensures NeverClosing(concurrency, moves)
  {
    forall k | 0 <= k <= |moves| ensures NobodyCloses(Played(concurrency, moves[..k])) {
      NoLaneEverCloses(concurrency, moves[..k]);
    }
  }
}
