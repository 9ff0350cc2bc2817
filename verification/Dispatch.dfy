/**
 One worker's dispatcher.

 It hands claimed items to idle lanes; at every await the lane loops run on.
 What they do there is given as a list of lane steps, and what a query answers as any
 list of items.
 */
module Dispatch {
  import opened Basics
  import opened LaneLoops

  // -------------------------------------------------------------------- the dispatcher

  /** A claim query's answer, and what the lanes do meanwhile. */
  datatype Reply = Claims(work: seq<Work>, meanwhile: seq<LaneStep>) | Raises(meanwhile: seq<LaneStep>)

  /** A query that was answered: for which key, if any, how many items it asked for, and what it got. */
  datatype Query = Query(key: Option<Key>, limit: nat, answer: seq<Work>)

  /** What a non-strict zip with `limit` lanes takes of an answer. */
  function Zipped(limit: nat, answer: seq<Work>): (r: seq<Work>)
    ensures |r| <= limit && r <= answer
    ensures r == answer <==> |answer| <= limit
  {
    if |answer| <= limit then answer else answer[..limit]
  }

  /** Everything the queries answered. */
  function Answered(queries: seq<Query>): seq<Work> {
    if queries == [] then [] else Answered(queries[..|queries| - 1]) + queries[|queries| - 1].answer
  }

  /** What of it the zips take. */
  function HandedOut(queries: seq<Query>): seq<Work> {
    if queries == [] then []
    else HandedOut(queries[..|queries| - 1]) + Zipped(queries[|queries| - 1].limit, queries[|queries| - 1].answer)
  }

  /** No answer is longer than its query asked for; a claim never hands out more than its limit. */
  predicate WithinLimits(queries: seq<Query>) {
    forall n :: 0 <= n < |queries| ==> |queries[n].answer| <= queries[n].limit
  }

  lemma {:induction false} HandedOutIsFewer(queries: seq<Query>)
    ensures |HandedOut(queries)| <= |Answered(queries)|
    ensures |HandedOut(queries)| == |Answered(queries)| <==> WithinLimits(queries)
  {
    if queries != [] {
      var before, last := queries[..|queries| - 1], queries[|queries| - 1];
      assert queries == before + [last];
      HandedOutIsFewer(before);
      WithinLimitsMore(before, last);
      hide WithinLimits;
    }
  }

  lemma WithinLimitsMore(queries: seq<Query>, q: Query)
    ensures WithinLimits(queries + [q]) <==> WithinLimits(queries) && |q.answer| <= q.limit
  {
    assert forall n :: 0 <= n < |queries| ==> (queries + [q])[n] == queries[n];
    assert (queries + [q])[|queries|] == q;
  }

  /** An item is dropped exactly when some answer is longer than its query asked for. */
  lemma {:induction false} NothingDroppedExactlyWhen(queries: seq<Query>)
    ensures HandedOut(queries) == Answered(queries) <==> WithinLimits(queries)
  {
    HandedOutIsFewer(queries);
    if queries != [] && WithinLimits(queries) {
      var before, last := queries[..|queries| - 1], queries[|queries| - 1];
      assert queries == before + [last];
      NothingDroppedExactlyWhen(before);
      WithinLimitsMore(before, last);
      hide WithinLimits;
    }
  }

  lemma NothingHandedOut()
    ensures HandedOut([]) == []
  {
  }

  lemma {:induction false} HandedOutAppend(a: seq<Query>, b: seq<Query>)
    ensures HandedOut(a + b) == HandedOut(a) + HandedOut(b)
  {
    hide HandedOut, Zipped;
    if b == [] {
      assert a + b == a;
      NothingHandedOut();
    } else {
      var before, last := b[..|b| - 1], b[|b| - 1];
      assert a + b == (a + before) + [last] && b == before + [last];
      HandedOutAppend(a, before);
      HandedOutMore(a + before, last);
      HandedOutMore(before, last);
    }
  }

  type Put = (nat, Work)

  function Zip(lanes: seq<nat>, work: seq<Work>): (r: seq<Put>)
    requires |work| <= |lanes|
    ensures |r| == |work| && forall n :: 0 <= n < |r| ==> r[n] == (lanes[n], work[n])
  {
    seq(|work|, n requires 0 <= n < |work| => (lanes[n], work[n]))
  }

  function LanesOf(puts: seq<Put>): (r: set<nat>)
    ensures forall n :: 0 <= n < |puts| ==> puts[n].0 in r
  {
    set n | 0 <= n < |puts| :: puts[n].0
  }

  function WorkOf(puts: seq<Put>): seq<Work> {
    seq(|puts|, n requires 0 <= n < |puts| => puts[n].1)
  }

  /** The lanes of one key, in order. */
  function WithKey(lanes: seq<Lane>, order: seq<nat>, key: Option<Key>): (r: seq<nat>)
    ensures forall i :: i in r <==> i in order && i < |lanes| && lanes[i].key == key
    ensures NoDuplicates(order) ==> NoDuplicates(r)
    ensures |r| <= |order|
  {
    if order == [] then []
    else
      var before, i := WithKey(lanes, order[..|order| - 1], key), order[|order| - 1];
      assert order == order[..|order| - 1] + [i];
      if i < |lanes| && lanes[i].key == key then before + [i] else before
  }

  /** `order` names exactly the idle lanes. */
  ghost predicate Names(order: seq<nat>, idle: set<nat>) {
    forall i :: i in order <==> i in idle
  }

  ghost predicate AllIdle(a: Agent, lanes: seq<nat>) {
    forall n :: 0 <= n < |lanes| ==> lanes[n] in a.idle
  }

  class WorkerAgent {
    var lanes: seq<Lane>
    var queues: seq<seq<Work>>
    var idle: set<nat>
    ghost var queries: seq<Query>    // every claim query that was answered
    ghost var puts: seq<Put>         // everything put on a queue, and which
    ghost var moves: seq<Move>       // everything that happened to the lanes

    ghost function State(): Agent
      reads this
    {
      Agent(lanes, queues, idle)
    }

    /** The lanes are where their history leads, and sound. */
    ghost predicate Running()
      reads this
    {
      Sound(State()) && State() == Played(|lanes|, moves)
    }

    /** Every item the zips took was put on exactly one queue, in the order it was claimed. */
    ghost predicate Valid()
      reads this
    {
      Running() && WorkOf(puts) == HandedOut(queries)
    }

    constructor (concurrency: nat)
      ensures State() == NewAgent(concurrency) && Valid() && queries == [] && moves == []
    {
      lanes, queues, idle := seq(concurrency, _ => NEW_LANE), seq(concurrency, _ => []), {};
      queries, puts, moves := [], [], [];
    }

    /** The lane loops run while the dispatcher waits. */
    method Await(steps: seq<LaneStep>)
      requires Valid()
      modifies `lanes, `queues, `idle, `moves
      ensures State() == LanesRun(old(State()), steps)
      ensures Valid() && |lanes| == old(|lanes|) && Rely(old(State()), State())
      ensures old(moves) <= moves && NeverClosing(|lanes|, moves)
    {
      hide LaneNext, Played, Sound, Rely, HandedOut, WorkOf, NeverClosing;
      ghost var before := State();
      LanesAreSafe(before, steps);
      for n := 0 to |steps|
        invariant Running() && |lanes| == |before.lanes| && old(moves) <= moves
        invariant LanesRun(before, steps) == LanesRun(State(), steps[n..])
      {
        var after := LaneNext(Agent(lanes, queues, idle), steps[n]);
        MoveIsSound(State(), Runs(steps[n]));
        PlayedMore(|lanes|, moves, Runs(steps[n]));
        lanes, queues, idle := after.lanes, after.queues, after.idle;
        moves := moves + [Runs(steps[n])];
      }
      HistoryNeverCloses(|lanes|, moves);
    }

    /**
     Hands each item to one idle lane, in order, and returns the lanes left without. Items
     beyond the last lane are dropped.
     */
    method Assign(indices: seq<nat>, work: seq<Work>) returns (rest: seq<nat>)
      requires Running() && AllIdle(State(), indices) && NoDuplicates(indices)
      modifies `lanes, `queues, `idle, `puts, `moves
      ensures Running() && |lanes| == old(|lanes|) && old(moves) <= moves
      ensures var taken := Zipped(|indices|, work);
        && rest == indices[|taken|..] && puts == old(puts) + Zip(indices, taken)
        && (WorkOf(Zip(indices, taken)) == work <==> |work| <= |indices|)
        && Assigned(old(State()), State(), indices, taken)
    {
      hide Played, Zipped, WorkOf;
      var taken := Zipped(|indices|, work);
      for n := 0 to |taken|
        invariant Running() && |lanes| == old(|lanes|) && old(moves) <= moves
        invariant puts == old(puts) + Zip(indices, taken[..n])
        invariant Assigned(old(State()), State(), indices, taken[..n])
      {
        var i := indices[n];
        assert LaneSound(State(), i);
        assert queues[i] == [];               // so putting without waiting cannot overflow
        MoveIsSound(State(), Puts(i, taken[n]));
        PlayedMore(|lanes|, moves, Puts(i, taken[n]));
        AssignsOne(old(State()), State(), indices, taken, n);
        queues := queues[i := queues[i] + [taken[n]]];
        idle := idle - {i};
        lanes := lanes[i := lanes[i].(idlePolls := 0)];
        assert [] + [taken[n]] == [taken[n]];
        moves := moves + [Puts(i, taken[n])];
        puts := puts + [(i, taken[n])];
        assert Zip(indices, taken[..n + 1]) == Zip(indices, taken[..n]) + [(i, taken[n])];
      }
      assert taken[..|taken|] == taken;
      ZipKeepsWork(indices, taken);
      rest := indices[|taken|..];
    }

    /** One query for as many items as there are lanes, and the hand-out of whatever it answers. */
    method Serve(key: Option<Key>, indices: seq<nat>, reply: Reply)
      returns (raised: bool, count: nat, rest: seq<nat>, ghost work: seq<Work>)
      requires Valid() && AllIdle(State(), indices) && NoDuplicates(indices)
      modifies this
      ensures Valid() && |lanes| == old(|lanes|) && old(moves) <= moves
      ensures !raised <==> reply.Claims?
      ensures raised ==> work == [] && queries == old(queries)
      ensures !raised ==> var q := Query(key, |indices|, reply.work);
        work == Zipped(q.limit, q.answer) && queries == old(queries) + [q] && count == |reply.work|
      ensures |work| <= |indices| && rest == indices[|work|..] && puts == old(puts) + Zip(indices, work)
      ensures StillIdle(old(State()), State(), indices[..|work|])
      ensures NoMorePolls(old(State()), State())
      ensures forall n :: 0 <= n < |work| ==> indices[n] < |lanes| && lanes[indices[n]].idlePolls == 0
    {
      hide LanesRun, LaneSound, HandedOut, Answered, Zipped, WorkOf, Rely, Assigned, StillIdle, NoMorePolls, Played,
           NeverClosing;
      ghost var start := State();
      work := [];
      Await(reply.meanwhile);
      RelyKeepsIdle(start, State(), indices);
      if reply.Raises? {
        return true, 0, indices, [];
      }
      ghost var before := State();
      ghost var q := Query(key, |indices|, reply.work);
      HandedOutMore(queries, q);
      queries := queries + [q];
      PutsMore(puts, indices, Zipped(q.limit, q.answer));
      rest := Assign(indices, reply.work);
      work := Zipped(q.limit, q.answer);
      ServedState(start, before, State(), indices, work);
      raised, count := false, |reply.work|;
    }

    /** The keys of the idle lanes in order of appearance, each with its lanes. */
    method GroupByKey(order: seq<nat>) returns (keys: seq<Option<Key>>, groups: map<Option<Key>, seq<nat>>)
      requires forall i :: i in order ==> i < |lanes|
      ensures Grouped(lanes, order, keys) && keys == KeysOf(lanes, order)
      ensures forall k :: k in keys ==> k in groups && groups[k] == WithKey(lanes, order, k)
    {
      hide GroupedSoFar;
      keys, groups := [], map[];
      NoGroups(lanes, order);
      for n := 0 to |order|
        invariant GroupedSoFar(lanes, order[..n], keys, groups)
      {
        assert order[n] in order;
        var key := lanes[order[n]].key;
        GroupsGrow(lanes, order, n, keys, groups);
        if key !in groups {
          var none: seq<nat> := [];
          assert none + [order[n]] == [order[n]];
          assert groups[key := none][key := [order[n]]] == groups[key := [order[n]]];
          keys := keys + [key];
          groups := groups[key := none];
        }
        groups := groups[key := groups[key] + [order[n]]];
      }
      assert order[..|order|] == order;
      GroupsComplete(lanes, order, keys, groups);
    }

    /**
     One round: for each key the items the affinity query answers for its lanes, then for
     the lanes left over whatever else there is. None when a query raises.
     */
    method DispatchOnce(order: seq<nat>, replies: seq<Reply>) returns (total: Option<nat>)
      requires Valid() && Enumerates(order, idle) && |order| < |replies|
      modifies this
      ensures Valid() && |lanes| == old(|lanes|) && old(puts) <= puts && old(queries) <= queries
      ensures var asked, round := queries[|old(queries)|..], puts[|old(puts)|..];
        && RoundAsks(old(State()), order, replies, asked, total.Some?)
        && (WorkOf(round) == Answered(asked) <==> WithinLimits(asked))
        && (total.Some? ==> total.value == |Answered(asked)|)
        && OnePerLane(round, old(idle)) && Fits(old(lanes), round, asked)
        && PollsCounted(old(State()), State(), LanesOf(round), total.Some?)
      ensures var asked := queries[|old(queries)|..];
        && (forall k :: 0 <= k < |asked| - 1 ==> asked[k].key.Some?)
        && (forall k, l :: 0 <= k < l < |asked| ==> asked[k].key != asked[l].key)
      ensures old(moves) <= moves && NeverClosing(|lanes|, moves)
    {
      HistoryNeverCloses(|lanes|, moves);
      IdleLanesExist(State(), order);
      if order == [] {
        NothingDroppedExactlyWhen([]);
        assert puts[|old(puts)|..] == [] && queries[|old(queries)|..] == [];
        return Some(0);
      }
      hide PollsCounted, LanesOf, OnePerLane, RoundAsks, WithinLimits, Answered, HandedOut, WorkOf, Sound, Played;
      ghost var round, asked;
      total, round, asked := DispatchTo(order, replies);
      RoundConserves(old(puts), round, old(queries), asked);
      OneQueryPerKey(old(State()), order, replies, asked, total.Some?);
      HistoryNeverCloses(|lanes|, moves);
      assert puts[|old(puts)|..] == round && queries[|old(queries)|..] == asked;
    }

    /** The round over some idle lanes, with what it put and asked. */
    method DispatchTo(order: seq<nat>, replies: seq<Reply>)
      returns (total: Option<nat>, ghost round: seq<Put>, ghost asked: seq<Query>)
      requires Valid() && Enumerates(order, idle) && |order| < |replies|
      requires Names(order, idle) && forall i :: i in order ==> i < |lanes|
      modifies this
      ensures Valid() && |lanes| == old(|lanes|) && old(moves) <= moves
      ensures puts == old(puts) + round && queries == old(queries) + asked
      ensures RoundAsks(old(State()), order, replies, asked, total.Some?)
      ensures total.Some? ==> total.value == |Answered(asked)|
      ensures OnePerLane(round, old(idle)) && Fits(old(lanes), round, asked)
      ensures PollsCounted(old(State()), State(), LanesOf(round), total.Some?)
    {
      hide WithKey, Sound, StillIdle, NoMorePolls, PollsCounted, LanesOf, OnePerLane, Handing, AskedGroups, RoundAsks,
           Answered, HandedOut, WorkOf, Played, KeysOf, Keyed, Grouped, Fits;
      ghost var before := State();
      var keys, groups := GroupByKey(order);
      var raised, count, remaining, used;
      raised, count, used, remaining, round, asked := ServeGroups(order, keys, groups, replies);
      if raised {
        AskedUntilRaised(before, order, replies, asked);
        return None, round, asked;
      }
      RoundConserves(old(puts), round, old(queries), asked);
      LanesLeft(before, State(), order, keys, remaining, round);
      if remaining == [] {
        NobodyLeft(before, State(), order, keys, round);
        AskedGroupsOnly(before, order, replies, asked);
        return Some(count), round, asked;
      }
      var failed, more, work := ServeLeft(before, order, keys, remaining, round, replies[used]);
      if failed {
        ZipNothing(round, remaining);
        AskedUntilRaised(before, order, replies, asked);
        return None, round, asked;
      }
      ghost var q := Query(None, |remaining|, replies[used].work);
      FitsMore(before.lanes, round, asked, q, remaining, work);
      round := round + Zip(remaining, work);
      HandedOutMore(asked, q);
      AskedForRest(before, order, replies, asked, q);
      return Some(count + more), round, asked + [q];
    }

    /** A query without affinity for the lanes left over; those it leaves count a poll in vain. */
    method ServeLeft(ghost before: Agent, ghost order: seq<nat>, ghost keys: seq<Option<Key>>,
                     remaining: seq<nat>, ghost round: seq<Put>, reply: Reply)
      returns (raised: bool, count: nat, ghost work: seq<Work>)
      requires Valid() && |before.lanes| == |lanes| && Grouped(before.lanes, order, keys)
      requires Names(order, before.idle)
      requires Handing(before, State(), order, keys, |keys|, remaining, round)
      modifies this
      ensures Valid() && |lanes| == old(|lanes|) && old(moves) <= moves
      ensures !raised <==> reply.Claims?
      ensures raised ==> work == [] && queries == old(queries)
      ensures !raised ==> queries == old(queries) + [Query(None, |remaining|, reply.work)] && count == |reply.work|
      ensures !raised ==> work <= reply.work
      ensures |work| <= |remaining| && puts == old(puts) + Zip(remaining, work)
      ensures OnePerLane(round + Zip(remaining, work), before.idle)
      ensures PollsCounted(before, State(), LanesOf(round + Zip(remaining, work)), !raised)
    {
      ghost var now := State();
      hide Grouped, Sound, StillIdle, NoMorePolls, PollsCounted, LanesOf, OnePerLane, Handing, HandedOut, Answered,
           Zipped, WorkOf, Names, Polled, LeftOver, NoDuplicates, Zip, AllIdle, Played;
      LeftAreIdle(before, now, order, keys, |keys|, remaining, round);
      var rest;
      raised, count, rest, work := Serve(None, remaining, reply);
      if raised {
        NothingServed(before, now, State(), order, keys, |keys|, remaining, round, remaining);
        ZipNothing(round, remaining);
        return;
      }
      ghost var served := State();
      ServesRest(before, now, served, order, keys, remaining, round, work);
      LeftOverExist(before, served, LanesOf(round + Zip(remaining, work)), rest);
      CountPolls(rest);
      PollsAreCounted(before, served, State(), LanesOf(round + Zip(remaining, work)), rest);
    }

    /** An affinity query for each key's lanes; lanes without a key wait for the rest of the round. */
    method ServeGroups(order: seq<nat>, keys: seq<Option<Key>>, groups: map<Option<Key>, seq<nat>>, replies: seq<Reply>)
      returns (raised: bool, count: nat, used: nat, remaining: seq<nat>, ghost round: seq<Put>, ghost asked: seq<Query>)
      requires Valid() && Enumerates(order, idle) && |keys| < |replies| && Grouped(lanes, order, keys)
      requires forall k :: k in keys ==> k in groups && groups[k] == WithKey(lanes, order, k)
      modifies this
      ensures Valid() && |lanes| == old(|lanes|) && old(moves) <= moves
      ensures count == |Answered(asked)| && used == |asked| < |replies|
      ensures puts == old(puts) + round && queries == old(queries) + asked
      ensures AskedGroups(old(lanes), order, Keyed(keys), asked, replies)
      ensures if raised then |asked| < |Keyed(keys)| && replies[used].Raises? else |asked| == |Keyed(keys)|
      ensures OnePerLane(round, old(idle)) && Fits(old(lanes), round, asked)
      ensures raised ==> PollsCounted(old(State()), State(), LanesOf(round), false)
      ensures !raised ==> Handing(old(State()), State(), order, keys, |keys|, remaining, round)
    {
      hide WithKey, Grouped, Sound, StillIdle, NoMorePolls, PollsCounted, LanesOf, Answered, HandedOut, AskedGroups,
           Fits, Keyed, Played, Handing, OnePerLane, WorkOf, AllIdle, Zip, Names, NoDuplicates;
      ghost var before := State();
      IdleLanesExist(before, order);
      BeforeHanding(before, order, keys);
      count, used, remaining, round, asked := 0, 0, [], [], [];
      NothingAsked(before.lanes, order, keys, replies);
      FitsNothing(before.lanes);
      for n := 0 to |keys|
        invariant Valid() && |lanes| == |before.lanes| && old(moves) <= moves
        invariant count == |Answered(asked)| && used == |asked| == |Keyed(keys[..n])| <= n
        invariant puts == old(puts) + round && queries == old(queries) + asked
        invariant AskedGroups(before.lanes, order, Keyed(keys), asked, replies)
        invariant Handing(before, State(), order, keys, n, remaining, round) && Fits(before.lanes, round, asked)
      {
        ghost var now := State();
        KeyedAt(keys, n);
        if keys[n].None? {
          LeavesGroup(before, now, order, keys, n, remaining, round);
          remaining := remaining + groups[None];
          continue;
        }
        GroupIsIdle(before, now, order, keys, n, remaining, round);
        var failed, more, rest, work := Serve(keys[n], groups[keys[n]], replies[used]);
        if failed {
          LeftAreIdle(before, now, order, keys, n, remaining, round);
          NothingServed(before, now, State(), order, keys, n, remaining, round, groups[keys[n]]);
          return true, count, used, remaining, round, asked;
        }
        ServesGroup(before, now, State(), order, keys, n, remaining, round, work);
        ghost var q := Query(keys[n], |groups[keys[n]]|, replies[used].work);
        HandedOutMore(asked, q);
        AsksNext(before.lanes, order, Keyed(keys), asked, q, replies);
        FitsMore(before.lanes, round, asked, q, groups[keys[n]], work);
        asked := asked + [q];
        round := round + Zip(groups[keys[n]], work);
        count, used := count + more, used + 1;
        remaining := remaining + rest;
      }
      assert keys[..|keys|] == keys;
      LeftAreIdle(before, State(), order, keys, |keys|, remaining, round);
      raised := false;
    }

    /** A lane left without an item has been polled once more in vain. */
    method CountPolls(rest: seq<nat>)
      requires Valid() && NoDuplicates(rest) && forall i :: i in rest ==> i < |lanes| && i in idle
      modifies `lanes, `moves
      ensures Valid() && Polled(old(State()), State(), rest) && old(moves) <= moves
    {
      hide Played, HandedOut, WorkOf;
      for n := 0 to |rest|
        invariant Valid() && |lanes| == old(|lanes|) && old(moves) <= moves
        invariant forall i: nat :: i < |lanes| ==>
          lanes[i].idlePolls == old(lanes)[i].idlePolls + (if i in rest[..n] then 1 else 0)
      {
        assert rest[n] in rest;
        MoveIsSound(State(), Polls(rest[n]));
        PlayedMore(|lanes|, moves, Polls(rest[n]));
        assert rest[n] !in rest[..n];
        lanes := lanes[rest[n] := lanes[rest[n]].(idlePolls := lanes[rest[n]].idlePolls + 1)];
        moves := moves + [Polls(rest[n])];
        assert rest[..n + 1] == rest[..n] + [rest[n]];
      }
      assert rest[..|rest|] == rest;
    }
  }

  /** The n-th lane has the n-th item alone on its queue and is idle no more; no other lane changed. */
  ghost predicate Assigned(a: Agent, b: Agent, indices: seq<nat>, work: seq<Work>)
    requires |work| <= |indices| && |a.lanes| == |a.queues| == |b.lanes| == |b.queues|
  {
    && (forall i :: i in b.idle <==> i in a.idle && i !in indices[..|work|])
    && (forall n :: 0 <= n < |work| ==>
          indices[n] < |b.lanes| && b.queues[indices[n]] == [work[n]] && b.lanes[indices[n]].idlePolls == 0)
    && (forall i: nat :: i < |a.lanes| && i !in indices[..|work|] ==>
          b.lanes[i] == a.lanes[i] && b.queues[i] == a.queues[i])
  }

  lemma AssignsOne(a: Agent, b: Agent, indices: seq<nat>, work: seq<Work>, n: nat)
    requires n < |work| <= |indices| && |a.lanes| == |a.queues| == |b.lanes| == |b.queues|
    requires NoDuplicates(indices) && indices[n] < |b.lanes| && Assigned(a, b, indices, work[..n])
    ensures var i := indices[n];
      var c := Agent(b.lanes[i := b.lanes[i].(idlePolls := 0)], b.queues[i := [work[n]]], b.idle - {i});
      Assigned(a, c, indices, work[..n + 1])
  {
    assert indices[..n + 1] == indices[..n] + [indices[n]];
  }

  /** Across an await nothing happens to the lanes that were idle. */
  lemma RelyKeepsIdle(a: Agent, b: Agent, indices: seq<nat>)
    requires Rely(a, b) && AllIdle(a, indices)
    ensures AllIdle(b, indices) && |b.lanes| == |a.lanes|
    ensures StillIdle(a, b, indices[..0]) && NoMorePolls(a, b)
  {
  }

  lemma ServedState(a: Agent, b: Agent, c: Agent, indices: seq<nat>, work: seq<Work>)
    requires |work| <= |indices| && Rely(a, b) && |b.lanes| == |b.queues| == |c.lanes| == |c.queues|
    requires Assigned(b, c, indices, work)
    ensures StillIdle(a, c, indices[..|work|]) && NoMorePolls(a, c)
    ensures forall n :: 0 <= n < |work| ==> indices[n] < |c.lanes| && c.lanes[indices[n]].idlePolls == 0
  {
    forall i: nat | i < |a.lanes| && i < |c.lanes|
      ensures c.lanes[i].idlePolls == a.lanes[i].idlePolls || c.lanes[i].idlePolls == 0
    {
      if i in indices[..|work|] {
        var n :| 0 <= n < |work| && indices[n] == i;
      }
    }
  }

  lemma PutsMore(puts: seq<Put>, lanes: seq<nat>, work: seq<Work>)
    requires |work| <= |lanes|
    ensures WorkOf(puts + Zip(lanes, work)) == WorkOf(puts) + work
  {
  }

  lemma ZipKeepsWork(lanes: seq<nat>, work: seq<Work>)
    requires |work| <= |lanes|
    ensures WorkOf(Zip(lanes, work)) == work
  {
  }

  lemma HandedOutMore(queries: seq<Query>, q: Query)
    ensures HandedOut(queries + [q]) == HandedOut(queries) + Zipped(q.limit, q.answer)
    ensures Answered(queries + [q]) == Answered(queries) + q.answer
  {
    assert (queries + [q])[..|queries|] == queries;
  }

  /** A query was answered in full by the reply. */
  predicate AnsweredBy(q: Query, reply: Reply) {
    reply.Claims? && reply.work == q.answer
  }

  /** The affinity queries so far: one for each key in turn, for as many items as the key has lanes. */
  ghost predicate AskedGroups(lanes: seq<Lane>, order: seq<nat>, keyed: seq<Option<Key>>, asked: seq<Query>,
      replies: seq<Reply>)
  {
    && |asked| <= |keyed| && |asked| <= |replies|
    && forall k :: 0 <= k < |asked| ==>
         && AnsweredBy(asked[k], replies[k]) && asked[k].key == keyed[k]
         && asked[k].limit == |WithKey(lanes, order, keyed[k])|
  }

  /**
   The queries of a round and the replies to them, one each and in order: for every key of the
   idle lanes an affinity query for as many items as it has lanes, then, if lanes are left over,
   one query for as many as there are. The round ends early exactly when a reply raises.
   */
  ghost predicate RoundAsks(a: Agent, order: seq<nat>, replies: seq<Reply>, asked: seq<Query>, ended: bool) {
    var keyed := Keyed(KeysOf(a.lanes, order));
    var groups := if |asked| <= |keyed| then asked else asked[..|keyed|];
    && AskedGroups(a.lanes, order, keyed, groups, replies)
    && |asked| <= |keyed| + 1
    && (|asked| > |keyed| ==>
          |asked| <= |replies| && AnsweredBy(asked[|keyed|], replies[|keyed|]) && ended &&
          asked[|keyed|].key == None && 0 < asked[|keyed|].limit == |order| - |HandedOut(groups)|)
    && (|asked| == |keyed| ==> (ended <==> |HandedOut(asked)| == |order|))
    && (|asked| < |keyed| ==> !ended)
    && (!ended ==> |asked| < |replies| && replies[|asked|].Raises?)
  }

  /** What was put was answered by the query; an affinity query's answers go to lanes of its key. */
  predicate GivenBy(lanes: seq<Lane>, put: Put, q: Query) {
    put.1 in q.answer && (q.key.Some? ==> put.0 < |lanes| && lanes[put.0].key == q.key)
  }

  predicate Given(lanes: seq<Lane>, put: Put, asked: seq<Query>) {
    exists k :: 0 <= k < |asked| && GivenBy(lanes, put, asked[k])
  }

  predicate Fits(lanes: seq<Lane>, round: seq<Put>, asked: seq<Query>) {
    forall n :: 0 <= n < |round| ==> Given(lanes, round[n], asked)
  }

  lemma FitsMore(lanes: seq<Lane>, round: seq<Put>, asked: seq<Query>, q: Query, indices: seq<nat>, work: seq<Work>)
    requires Fits(lanes, round, asked) && |work| <= |indices| && work <= q.answer
    requires q.key.Some? ==> forall i :: i in indices ==> i < |lanes| && lanes[i].key == q.key
    ensures Fits(lanes, round + Zip(indices, work), asked + [q])
  {
    var all, more := round + Zip(indices, work), asked + [q];
    forall n | 0 <= n < |all| ensures Given(lanes, all[n], more) {
      if n < |round| {
        assert Given(lanes, round[n], asked);
        var k :| 0 <= k < |asked| && GivenBy(lanes, round[n], asked[k]);
        assert GivenBy(lanes, all[n], more[k]);
      } else {
        var m := n - |round|;
        assert all[n] == (indices[m], work[m]) && indices[m] in indices && work[m] == q.answer[m];
        assert work[m] in q.answer;
        assert GivenBy(lanes, all[n], more[|asked|]);
      }
    }
  }

  lemma FitsNothing(lanes: seq<Lane>)
    ensures Fits(lanes, [], [])
  {
  }

  /** No key is asked for twice in a round, and only its last query may be for none. */
  lemma OneQueryPerKey(a: Agent, order: seq<nat>, replies: seq<Reply>, asked: seq<Query>, ended: bool)
    requires RoundAsks(a, order, replies, asked, ended)
    ensures forall k :: 0 <= k < |asked| - 1 ==> asked[k].key.Some?
    ensures forall k, l :: 0 <= k < l < |asked| ==> asked[k].key != asked[l].key
  {
    var keyed := Keyed(KeysOf(a.lanes, order));
    hide KeysOf, Keyed, HandedOut, WithKey;
    forall k | 0 <= k < |asked| && k < |keyed| ensures asked[k].key == keyed[k] && keyed[k].Some? {
      var groups := if |asked| <= |keyed| then asked else asked[..|keyed|];
      assert groups[k] == asked[k] && keyed[k] in keyed;
    }
  }

  lemma NothingAsked(lanes: seq<Lane>, order: seq<nat>, keys: seq<Option<Key>>, replies: seq<Reply>)
    ensures AskedGroups(lanes, order, Keyed(keys), [], replies)
    ensures |Answered([])| == |Keyed(keys[..0])| == 0
  {
  }

  lemma AsksNext(lanes: seq<Lane>, order: seq<nat>, keyed: seq<Option<Key>>, asked: seq<Query>, q: Query,
      replies: seq<Reply>)
    requires AskedGroups(lanes, order, keyed, asked, replies) && |asked| < |keyed| && |asked| < |replies|
    requires AnsweredBy(q, replies[|asked|]) && q.key == keyed[|asked|]
    requires q.limit == |WithKey(lanes, order, keyed[|asked|])|
    ensures AskedGroups(lanes, order, keyed, asked + [q], replies)
  {
    hide WithKey;
  }

  /** A round that a reply cut short, before or at the query for the lanes left over. */
  lemma AskedUntilRaised(a: Agent, order: seq<nat>, replies: seq<Reply>, asked: seq<Query>)
    requires var keyed := Keyed(KeysOf(a.lanes, order));
      AskedGroups(a.lanes, order, keyed, asked, replies) && (|asked| == |keyed| ==> |HandedOut(asked)| < |order|)
    requires |asked| < |replies| && replies[|asked|].Raises?
    ensures RoundAsks(a, order, replies, asked, false)
  {
    hide KeysOf, Keyed, HandedOut, WithKey;
  }

  lemma AskedGroupsOnly(a: Agent, order: seq<nat>, replies: seq<Reply>, asked: seq<Query>)
    requires var keyed := Keyed(KeysOf(a.lanes, order));
      AskedGroups(a.lanes, order, keyed, asked, replies) && |asked| == |keyed|
    requires |HandedOut(asked)| == |order|
    ensures RoundAsks(a, order, replies, asked, true)
  {
    hide KeysOf, Keyed, HandedOut, WithKey;
  }

  lemma AskedForRest(a: Agent, order: seq<nat>, replies: seq<Reply>, asked: seq<Query>, q: Query)
    requires var keyed := Keyed(KeysOf(a.lanes, order));
      AskedGroups(a.lanes, order, keyed, asked, replies) && |asked| == |keyed|
    requires |asked| < |replies| && AnsweredBy(q, replies[|asked|])
    requires q.key == None && 0 < q.limit == |order| - |HandedOut(asked)|
    ensures RoundAsks(a, order, replies, asked + [q], true)
  {
    hide KeysOf, Keyed, HandedOut, WithKey;
    assert (asked + [q])[..|asked|] == asked;
  }

  /** The keys of the lanes, in the order in which they first appear. */
  function KeysOf(lanes: seq<Lane>, order: seq<nat>): (r: seq<Option<Key>>)
    ensures NoDuplicates(r) && |r| <= |order|
    ensures forall k :: k in r <==> exists i :: i in order && i < |lanes| && lanes[i].key == k
  {
    if order == [] then []
    else
      var before, i := KeysOf(lanes, order[..|order| - 1]), order[|order| - 1];
      assert order == order[..|order| - 1] + [i];
      if i >= |lanes| || lanes[i].key in before then before else before + [lanes[i].key]
  }

  /** The keys there is an affinity query for. */
  function Keyed(keys: seq<Option<Key>>): (r: seq<Option<Key>>)
    ensures forall k :: k in r <==> k in keys && k.Some?
    ensures NoDuplicates(keys) ==> NoDuplicates(r)
  {
    if keys == [] then []
    else
      assert keys == keys[..|keys| - 1] + [keys[|keys| - 1]];
      var before, last := Keyed(keys[..|keys| - 1]), keys[|keys| - 1];
      if last.None? then before else before + [last]
  }

  lemma {:induction false} KeyedPrefix(keys: seq<Option<Key>>, n: nat)
    requires n <= |keys|
    ensures Keyed(keys[..n]) <= Keyed(keys) && |Keyed(keys[..n])| <= n
    decreases |keys|
  {
    if n == |keys| {
      assert keys[..n] == keys;
      if n > 0 {
        KeyedPrefix(keys[..n - 1], n - 1);
        assert keys[..n - 1][..n - 1] == keys[..n - 1];
      }
    } else {
      var before := keys[..|keys| - 1];
      KeyedPrefix(before, n);
      assert before[..n] == keys[..n];
    }
  }

  lemma KeyedAt(keys: seq<Option<Key>>, n: nat)
    requires n < |keys|
    ensures Keyed(keys[..n + 1]) == Keyed(keys[..n]) + (if keys[n].None? then [] else [keys[n]])
    ensures |Keyed(keys[..n])| <= n
    ensures keys[n].Some? ==>
      |Keyed(keys[..n])| < |Keyed(keys)| && Keyed(keys)[|Keyed(keys[..n])|] == keys[n]
  {
    assert keys[..n + 1][..n] == keys[..n];
    KeyedPrefix(keys, n + 1);
    KeyedPrefix(keys, n);
  }

  /** What a round puts is what its queries hand out. */
  lemma RoundConserves(puts: seq<Put>, round: seq<Put>, queries: seq<Query>, asked: seq<Query>)
    requires WorkOf(puts) == HandedOut(queries) && WorkOf(puts + round) == HandedOut(queries + asked)
    ensures WorkOf(round) == Answered(asked) <==> WithinLimits(asked)
    ensures |round| == |HandedOut(asked)|
  {
    HandedOutAppend(queries, asked);
    assert WorkOf(puts + round) == WorkOf(puts) + WorkOf(round);
    assert WorkOf(round) == WorkOf(puts + round)[|puts|..];
    assert HandedOut(asked) == HandedOut(queries + asked)[|HandedOut(queries)|..];
    NothingDroppedExactlyWhen(asked);
  }

  /** The idle lanes without an item, each once. */
  ghost predicate LeftOver(a: Agent, served: set<nat>, rest: seq<nat>) {
    && NoDuplicates(rest)
    && (forall i :: i in rest ==> i in a.idle && i < |a.lanes|)
    && (forall i :: i in a.idle ==> (i in rest <==> i !in served))
  }

  /** Exactly the lanes left over counted a poll. */
  ghost predicate Polled(a: Agent, b: Agent, rest: seq<nat>) {
    && |a.lanes| == |b.lanes| && a.idle == b.idle
    && forall i: nat :: i < |a.lanes| ==> b.lanes[i].idlePolls == a.lanes[i].idlePolls + (if i in rest then 1 else 0)
  }

  /** Every lane idle before, apart from those served, still is, having counted no poll. */
  ghost predicate StillIdle(a: Agent, b: Agent, served: seq<nat>) {
    forall i :: i in a.idle && i !in served && i < |a.lanes| ==>
      i in b.idle && i < |b.lanes| && b.lanes[i].idlePolls == a.lanes[i].idlePolls
  }

  ghost predicate NoMorePolls(a: Agent, b: Agent) {
    forall i: nat :: i < |a.lanes| && i < |b.lanes| ==>
      b.lanes[i].idlePolls == a.lanes[i].idlePolls || b.lanes[i].idlePolls == 0
  }

  lemma IdleLanesExist(a: Agent, order: seq<nat>)
    requires Sound(a) && Enumerates(order, a.idle)
    ensures Names(order, a.idle)
    ensures forall i :: i in order ==> i < |a.lanes|
  {
    assert forall i :: i in order <==> i in (set x | x in order);
  }

  // --------------------------------------------------------------- a round in progress

  ghost predicate Grouped(lanes: seq<Lane>, order: seq<nat>, keys: seq<Option<Key>>) {
    && NoDuplicates(keys)
    && (forall i :: i in order ==> i < |lanes| && lanes[i].key in keys)
  }

  /** The lanes looked at so far, by key in order of appearance. */
  ghost predicate GroupedSoFar(lanes: seq<Lane>, order: seq<nat>, keys: seq<Option<Key>>,
      groups: map<Option<Key>, seq<nat>>)
  {
    && keys == KeysOf(lanes, order)
    && (forall k :: k in keys <==> k in groups)
    && (forall k :: k in keys ==> groups[k] == WithKey(lanes, order, k))
  }

  lemma NoGroups(lanes: seq<Lane>, order: seq<nat>)
    ensures GroupedSoFar(lanes, order[..0], [], map[])
  {
  }

  lemma GroupsGrow(lanes: seq<Lane>, order: seq<nat>, n: nat, keys: seq<Option<Key>>,
      groups: map<Option<Key>, seq<nat>>)
    requires n < |order| && order[n] < |lanes| && GroupedSoFar(lanes, order[..n], keys, groups)
    ensures var key := lanes[order[n]].key;
      if key in groups then GroupedSoFar(lanes, order[..n + 1], keys, groups[key := groups[key] + [order[n]]])
      else GroupedSoFar(lanes, order[..n + 1], keys + [key], groups[key := [order[n]]])
  {
    hide KeysOf, WithKey;
    var key := lanes[order[n]].key;
    Regroup(lanes, order, n);
    if key !in groups {
      NoLanes(lanes, order[..n], key);
    }
  }

  lemma GroupsComplete(lanes: seq<Lane>, order: seq<nat>, keys: seq<Option<Key>>, groups: map<Option<Key>, seq<nat>>)
    requires GroupedSoFar(lanes, order, keys, groups) && forall i :: i in order ==> i < |lanes|
    ensures Grouped(lanes, order, keys) && keys == KeysOf(lanes, order)
    ensures forall k :: k in keys ==> k in groups && groups[k] == WithKey(lanes, order, k)
  {
    hide KeysOf, WithKey;
  }

  lemma Regroup(lanes: seq<Lane>, order: seq<nat>, n: nat)
    requires n < |order| && order[n] < |lanes|
    ensures var before, key := KeysOf(lanes, order[..n]), lanes[order[n]].key;
      KeysOf(lanes, order[..n + 1]) == if key in before then before else before + [key]
    ensures forall k ::
      WithKey(lanes, order[..n + 1], k) ==
      WithKey(lanes, order[..n], k) + (if lanes[order[n]].key == k then [order[n]] else [])
  {
    assert order[..n + 1][..n] == order[..n];
  }

  /** A key of no lane has no lanes. */
  lemma NoLanes(lanes: seq<Lane>, order: seq<nat>, k: Option<Key>)
    requires forall i :: i in order && i < |lanes| ==> lanes[i].key != k
    ensures WithKey(lanes, order, k) == []
  {
    var r := WithKey(lanes, order, k);
    assert forall n :: 0 <= n < |r| ==> r[n] in r;
  }

  /** Each item went to a lane of its own, idle when the round began. */
  ghost predicate OnePerLane(puts: seq<Put>, idle: set<nat>) {
    && (forall n :: 0 <= n < |puts| ==> puts[n].0 in idle)
    && (forall n, m :: 0 <= n < m < |puts| ==> puts[n].0 != puts[m].0)
  }

  /**
   Of the lanes idle at the start, those left without an item are idle and counted one poll, if the
   round ended; no other lane did.
   */
  ghost predicate PollsCounted(a: Agent, b: Agent, served: set<nat>, ended: bool) {
    && |a.lanes| == |b.lanes|
    && (forall i :: i in a.idle && i !in served && i < |a.lanes| ==>
          i in b.idle && b.lanes[i].idlePolls == a.lanes[i].idlePolls + (if ended then 1 else 0))
    && (forall i: nat :: i < |a.lanes| && (i !in a.idle || i in served) ==>
          b.lanes[i].idlePolls == a.lanes[i].idlePolls || b.lanes[i].idlePolls == 0)
  }

  /** Between two queries: every lane of the keys done so far has an item or is left over, the others are untouched. */
  ghost predicate Handing(a: Agent, b: Agent, order: seq<nat>, keys: seq<Option<Key>>, n: nat, remaining: seq<nat>,
      puts: seq<Put>)
  {
    && n <= |keys|
    && Booked(a, order, keys[..n], remaining, LanesOf(puts))
    && OnePerLane(puts, a.idle)
    && Untouched(a, b, LanesOf(puts))
  }

  /** The lanes of the keys done are those left over and, apart from them, those served. */
  ghost predicate Booked(a: Agent, order: seq<nat>, done: seq<Option<Key>>, remaining: seq<nat>, served: set<nat>) {
    && NoDuplicates(remaining)
    && (forall i :: i in remaining ==> OfKeys(a, order, done, i) && i !in served)
    && (forall i :: i in served ==> OfKeys(a, order, done, i))
    && (forall i :: OfKeys(a, order, done, i) ==> i in remaining || i in served)
  }

  predicate OfKeys(a: Agent, order: seq<nat>, keys: seq<Option<Key>>, i: nat) {
    i in order && i < |a.lanes| && a.lanes[i].key in keys
  }

  ghost predicate Untouched(a: Agent, b: Agent, served: set<nat>) {
    |a.lanes| == |b.lanes| && StillIdleExcept(a, b, served) && NoMorePolls(a, b)
  }

  ghost predicate StillIdleExcept(a: Agent, b: Agent, served: set<nat>) {
    forall i :: i in a.idle && i !in served && i < |a.lanes| ==>
      i in b.idle && i < |b.lanes| && b.lanes[i].idlePolls == a.lanes[i].idlePolls
  }

  lemma LanesAppend(a: seq<Put>, lanes: seq<nat>, work: seq<Work>)
    requires |work| <= |lanes|
    ensures forall i :: i in LanesOf(a + Zip(lanes, work)) <==> i in LanesOf(a) || i in lanes[..|work|]
  {
    var all := a + Zip(lanes, work);
    forall i | i in LanesOf(a) ensures i in LanesOf(all) {
      var n :| 0 <= n < |a| && a[n].0 == i;
      assert all[n].0 == i;
    }
    forall i | i in lanes[..|work|] ensures i in LanesOf(all) {
      var n :| 0 <= n < |work| && lanes[n] == i;
      assert all[|a| + n].0 == i;
    }
  }

  lemma PutsAppend(a: seq<Put>, lanes: seq<nat>, work: seq<Work>, idle: set<nat>)
    requires |work| <= |lanes| && NoDuplicates(lanes) && OnePerLane(a, idle)
    requires forall i :: i in lanes ==> i in idle && i !in LanesOf(a)
    ensures OnePerLane(a + Zip(lanes, work), idle)
  {
    var all := a + Zip(lanes, work);
    forall n, m | 0 <= n < m < |all| ensures all[n].0 != all[m].0 {
      if n < |a| <= m {
        assert all[n].0 in LanesOf(a) && all[m].0 == lanes[m - |a|];
      }
    }
  }

  /** The lanes of the next key, untouched so far. */
  lemma GroupIsIdle(a: Agent, b: Agent, order: seq<nat>, keys: seq<Option<Key>>, n: nat, remaining: seq<nat>,
      puts: seq<Put>)
    requires Handing(a, b, order, keys, n, remaining, puts) && n < |keys| && Grouped(a.lanes, order, keys)
    requires Names(order, a.idle)
    ensures AllIdle(b, WithKey(a.lanes, order, keys[n]))
  {
    hide LanesOf, OnePerLane;
    NextGroup(a, order, keys, n, remaining, LanesOf(puts));
    var group := WithKey(a.lanes, order, keys[n]);
    assert forall m :: 0 <= m < |group| ==> group[m] in group;
    hide Booked, WithKey, Grouped, NoMorePolls;
  }

  lemma NextGroup(a: Agent, order: seq<nat>, keys: seq<Option<Key>>, n: nat, remaining: seq<nat>, served: set<nat>)
    requires n < |keys| && Grouped(a.lanes, order, keys) && Booked(a, order, keys[..n], remaining, served)
    ensures forall i :: i in WithKey(a.lanes, order, keys[n]) ==>
      i in order && i < |a.lanes| && i !in remaining && i !in served
  {
    assert keys[n] !in keys[..n];
    hide WithKey;
  }

  lemma LeavesGroup(a: Agent, b: Agent, order: seq<nat>, keys: seq<Option<Key>>, n: nat, remaining: seq<nat>,
      puts: seq<Put>)
    requires Handing(a, b, order, keys, n, remaining, puts) && n < |keys| && Grouped(a.lanes, order, keys)
    requires NoDuplicates(order)
    ensures Handing(a, b, order, keys, n + 1, remaining + WithKey(a.lanes, order, keys[n]), puts)
  {
    hide Booked, OnePerLane, LanesOf, WithKey, Grouped, Untouched, NoDuplicates;
    BooksGroup(a, order, keys, n, remaining, LanesOf(puts));
  }

  lemma BooksGroup(a: Agent, order: seq<nat>, keys: seq<Option<Key>>, n: nat, remaining: seq<nat>, served: set<nat>)
    requires n < |keys| && Grouped(a.lanes, order, keys) && Booked(a, order, keys[..n], remaining, served)
    requires NoDuplicates(order)
    ensures Booked(a, order, keys[..n + 1], remaining + WithKey(a.lanes, order, keys[n]), served)
  {
    var group := WithKey(a.lanes, order, keys[n]);
    NextGroup(a, order, keys, n, remaining, served);
    JoinDistinct(remaining, group);
    OfOneMoreKey(a, order, keys, n);
    assert forall i :: i in remaining + group <==> i in remaining || i in group;
    hide WithKey, Grouped, NoDuplicates, OfKeys;
  }

  lemma OfOneMoreKey(a: Agent, order: seq<nat>, keys: seq<Option<Key>>, n: nat)
    requires n < |keys|
    ensures forall i :: OfKeys(a, order, keys[..n + 1], i) <==>
      OfKeys(a, order, keys[..n], i) || i in WithKey(a.lanes, order, keys[n])
  {
    assert keys[..n + 1] == keys[..n] + [keys[n]];
    hide WithKey;
  }

  lemma JoinDistinct(a: seq<nat>, b: seq<nat>)
    requires NoDuplicates(a) && NoDuplicates(b) && forall i :: i in b ==> i !in a
    ensures NoDuplicates(a + b)
  {
    forall n, m | 0 <= n < m < |a + b| ensures (a + b)[n] != (a + b)[m] {
      if n < |a| <= m {
        assert (a + b)[m] in b;
      }
    }
  }

  /** The lanes served grow by a list of lanes. */
  ghost predicate Grows(before: set<nat>, lanes: seq<nat>, after: set<nat>) {
    forall i :: i in after <==> i in before || i in lanes
  }

  lemma BooksServed(a: Agent, order: seq<nat>, done: seq<Option<Key>>, left: seq<nat>, served: seq<nat>, rest: seq<nat>,
                    before: set<nat>, after: set<nat>)
    requires Booked(a, order, done, left + (served + rest), before) && Grows(before, served, after)
    ensures Booked(a, order, done, left + rest, after)
    ensures NoDuplicates(served) && forall i :: i in served ==> i in order && i !in before
  {
    Pieces(left, served, rest);
    assert forall i :: i in left + (served + rest) <==> i in left + rest || i in served;
    assert forall i :: i in served ==> OfKeys(a, order, done, i);
    hide NoDuplicates;
  }

  lemma StaysUntouched(a: Agent, b: Agent, c: Agent, served: seq<nat>, before: set<nat>, after: set<nat>)
    requires Untouched(a, b, before) && Grows(before, served, after)
    requires |c.lanes| == |b.lanes| && StillIdle(b, c, served) && NoMorePolls(b, c)
    ensures Untouched(a, c, after)
  {
  }

  /** Some of the lanes left over get an item after all. */
  lemma ServesSome(a: Agent, b: Agent, c: Agent, order: seq<nat>, keys: seq<Option<Key>>, n: nat,
                   left: seq<nat>, served: seq<nat>, rest: seq<nat>, puts: seq<Put>, work: seq<Work>)
    requires Handing(a, b, order, keys, n, left + (served + rest), puts) && Names(order, a.idle)
    requires |work| == |served| && |c.lanes| == |b.lanes| && StillIdle(b, c, served) && NoMorePolls(b, c)
    ensures Handing(a, c, order, keys, n, left + rest, puts + Zip(served, work))
  {
    hide Booked, Untouched, OnePerLane, LanesOf, Zip, StillIdle, NoMorePolls, NoDuplicates;
    assert served[..|work|] == served;
    var after := LanesOf(puts + Zip(served, work));
    LanesAppend(puts, served, work);
    assert Grows(LanesOf(puts), served, after);
    BooksServed(a, order, keys[..n], left, served, rest, LanesOf(puts), after);
    StaysUntouched(a, b, c, served, LanesOf(puts), after);
    PutsAppend(puts, served, work, a.idle);
  }

  lemma Pieces(left: seq<nat>, served: seq<nat>, rest: seq<nat>)
    requires NoDuplicates(left + (served + rest))
    ensures NoDuplicates(served) && NoDuplicates(left + rest)
    ensures forall i :: i in served ==> i !in left + rest
  {
    var all := left + (served + rest);
    forall k, m | 0 <= k < m < |served| ensures served[k] != served[m] {
      assert all[|left| + k] == served[k] && all[|left| + m] == served[m];
    }
    forall k, m | 0 <= k < m < |left + rest| ensures (left + rest)[k] != (left + rest)[m] {
      assert all[if k < |left| then k else k + |served|] == (left + rest)[k];
      assert all[if m < |left| then m else m + |served|] == (left + rest)[m];
    }
    forall k, m | 0 <= k < |served| && 0 <= m < |left + rest| ensures served[k] != (left + rest)[m] {
      assert all[|left| + k] == served[k];
      assert all[if m < |left| then m else m + |served|] == (left + rest)[m];
    }
  }

  lemma ServesGroup(a: Agent, b: Agent, c: Agent, order: seq<nat>, keys: seq<Option<Key>>, n: nat, remaining: seq<nat>,
      puts: seq<Put>, work: seq<Work>)
    requires Handing(a, b, order, keys, n, remaining, puts) && n < |keys| && Grouped(a.lanes, order, keys)
    requires NoDuplicates(order) && Names(order, a.idle)
    requires var group := WithKey(a.lanes, order, keys[n]);
      |work| <= |group| && |c.lanes| == |b.lanes| && StillIdle(b, c, group[..|work|]) && NoMorePolls(b, c)
    ensures var group := WithKey(a.lanes, order, keys[n]);
      Handing(a, c, order, keys, n + 1, remaining + group[|work|..], puts + Zip(group, work))
  {
    LeavesGroup(a, b, order, keys, n, remaining, puts);
    hide Handing, WithKey, Grouped, StillIdle, NoMorePolls, Zip, NoDuplicates;
    var group := WithKey(a.lanes, order, keys[n]);
    assert group == group[..|work|] + group[|work|..];
    ServesSome(a, b, c, order, keys, n + 1, remaining, group[..|work|], group[|work|..], puts, work);
    ZipPrefix(group, work);
  }

  lemma ZipNothing(puts: seq<Put>, lanes: seq<nat>)
    ensures puts + Zip(lanes, []) == puts
  {
  }

  lemma ZipPrefix(lanes: seq<nat>, work: seq<Work>)
    requires |work| <= |lanes|
    ensures Zip(lanes, work) == Zip(lanes[..|work|], work)
  {
  }

  /** A query that raises leaves everybody as they were. */
  lemma NothingServed(a: Agent, b: Agent, c: Agent, order: seq<nat>, keys: seq<Option<Key>>, n: nat,
      remaining: seq<nat>, puts: seq<Put>, indices: seq<nat>)
    requires Handing(a, b, order, keys, n, remaining, puts)
    requires |c.lanes| == |b.lanes| && StillIdle(b, c, indices[..0]) && NoMorePolls(b, c)
    ensures PollsCounted(a, c, LanesOf(puts), false)
  {
    hide LanesOf, Booked, OnePerLane;
    StaysUntouched(a, b, c, indices[..0], LanesOf(puts), LanesOf(puts));
  }

  /** After the last query the lanes without an item are exactly those it left over. */
  lemma ServesRest(a: Agent, b: Agent, c: Agent, order: seq<nat>, keys: seq<Option<Key>>, remaining: seq<nat>,
      puts: seq<Put>, work: seq<Work>)
    requires Handing(a, b, order, keys, |keys|, remaining, puts) && Grouped(a.lanes, order, keys)
    requires Names(order, a.idle)
    requires |work| <= |remaining| && |c.lanes| == |b.lanes| && StillIdle(b, c, remaining[..|work|])
    requires NoMorePolls(b, c)
    ensures OnePerLane(puts + Zip(remaining, work), a.idle)
    ensures PollsCounted(a, c, LanesOf(puts + Zip(remaining, work)), false)
    ensures LeftOver(a, LanesOf(puts + Zip(remaining, work)), remaining[|work|..])
  {
    hide Booked, Untouched, OnePerLane, LanesOf, Zip, StillIdle, NoMorePolls, NoDuplicates, PollsCounted, LeftOver,
         Grouped;
    var served, rest := remaining[..|work|], remaining[|work|..];
    assert remaining == [] + (served + rest) && [] + rest == rest;
    ServesSome(a, b, c, order, keys, |keys|, [], served, rest, puts, work);
    ZipPrefix(remaining, work);
    EndOfRound(a, c, order, keys, rest, LanesOf(puts + Zip(remaining, work)));
  }

  lemma EndOfRound(a: Agent, b: Agent, order: seq<nat>, keys: seq<Option<Key>>, rest: seq<nat>, served: set<nat>)
    requires Booked(a, order, keys[..|keys|], rest, served) && Untouched(a, b, served)
    requires Grouped(a.lanes, order, keys) && Names(order, a.idle)
    ensures PollsCounted(a, b, served, false) && LeftOver(a, served, rest)
  {
    assert keys[..|keys|] == keys;
    assert forall i :: i in order <==> OfKeys(a, order, keys, i);
    hide NoDuplicates;
  }

  lemma BeforeHanding(a: Agent, order: seq<nat>, keys: seq<Option<Key>>)
    requires Sound(a)
    ensures Handing(a, a, order, keys, 0, [], [])
  {
  }

  lemma NobodyLeft(a: Agent, b: Agent, order: seq<nat>, keys: seq<Option<Key>>, puts: seq<Put>)
    requires Handing(a, b, order, keys, |keys|, [], puts) && Grouped(a.lanes, order, keys)
    requires Names(order, a.idle)
    ensures PollsCounted(a, b, LanesOf(puts), true)
  {
    hide LanesOf, OnePerLane;
    EndOfRound(a, b, order, keys, [], LanesOf(puts));
    hide Booked, Untouched, Grouped;
  }

  /** When the keys are done, the lanes that were put no item are left over. */
  lemma LanesLeft(a: Agent, b: Agent, order: seq<nat>, keys: seq<Option<Key>>, remaining: seq<nat>, puts: seq<Put>)
    requires Handing(a, b, order, keys, |keys|, remaining, puts) && Grouped(a.lanes, order, keys) && NoDuplicates(order)
    ensures |remaining| == |order| - |puts|
  {
    hide Untouched;
    assert keys[..|keys|] == keys;
    var served := seq(|puts|, n requires 0 <= n < |puts| => puts[n].0);
    forall i ensures i in served <==> i in LanesOf(puts) {
      if i in LanesOf(puts) {
        var n :| 0 <= n < |puts| && puts[n].0 == i;
        assert served[n] == i;
      }
    }
    hide LanesOf;
    JoinDistinct(served, remaining);
    forall i ensures i in order <==> i in served + remaining {
      if i in order {
        assert OfKeys(a, order, keys, i);
      }
    }
    var all := set i | i in order;
    assert (set i | i in served + remaining) == all;
    EnumerationSize(served + remaining, all);
    EnumerationSize(order, all);
  }

  lemma LeftAreIdle(a: Agent, b: Agent, order: seq<nat>, keys: seq<Option<Key>>, n: nat, remaining: seq<nat>,
      puts: seq<Put>)
    requires Handing(a, b, order, keys, n, remaining, puts)
    requires Names(order, a.idle)
    ensures AllIdle(b, remaining) && NoDuplicates(remaining) && OnePerLane(puts, a.idle)
  {
    assert forall k :: 0 <= k < |remaining| ==> remaining[k] in remaining;
    hide LanesOf, OnePerLane, NoDuplicates, NoMorePolls;
  }

  lemma LeftOverExist(a: Agent, b: Agent, served: set<nat>, rest: seq<nat>)
    requires LeftOver(a, served, rest) && PollsCounted(a, b, served, false)
    ensures NoDuplicates(rest) && forall i :: i in rest ==> i < |b.lanes| && i in b.idle
  {
  }

  lemma PollsAreCounted(a: Agent, b: Agent, c: Agent, served: set<nat>, rest: seq<nat>)
    requires PollsCounted(a, b, served, false) && Polled(b, c, rest) && LeftOver(a, served, rest)
    ensures PollsCounted(a, c, served, true)
  {
  }
}
