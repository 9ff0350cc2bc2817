/**
 Neither assumption of the fleet's safety theorem can be dropped: without a timely
 renewal, or with a release whose answer is lost, two workers use one slot.
 */
module FleetLimits {
  import opened Basics
  import opened ProxySlots
  import opened Fleet

  /** Where a list of actions leads, if each of them can happen when its turn comes. */
  function After(f: Fleet, actions: seq<Action>, providers: Providers): Option<Fleet>
    decreases |actions|
  {
    if actions == [] then Some(f)
    else if Enabled(f, actions[0], providers) then After(Next(f, actions[0], providers), actions[1..], providers)
    else None
  }

  /** States the actions can lead through, one after the other. */
  ghost predicate Path(states: seq<Fleet>, actions: seq<Action>, providers: Providers) {
    && |states| == |actions| + 1
    && forall n :: 0 <= n < |actions| ==>
         Enabled(states[n], actions[n], providers) && states[n + 1] == Next(states[n], actions[n], providers)
  }

  lemma PathFrom(f: Fleet, a: Action, rest: seq<Fleet>, actions: seq<Action>, providers: Providers)
    requires Enabled(f, a, providers) && Path(rest, actions, providers) && rest[0] == Next(f, a, providers)
    ensures Path([f] + rest, [a] + actions, providers)
  {
    hide Enabled, Next;
    var states, all := [f] + rest, [a] + actions;
    forall n | 0 <= n < |all|
      ensures Enabled(states[n], all[n], providers) && states[n + 1] == Next(states[n], all[n], providers)
    {
      if n > 0 {
        assert all[n] == actions[n - 1] && states[n] == rest[n - 1];
      }
    }
  }

  /** From a fresh fleet that is a run. */
  lemma {:induction false} AfterIsRun(f: Fleet, actions: seq<Action>, providers: Providers) returns (states: seq<Fleet>)
    requires After(f, actions, providers).Some?
    ensures Path(states, actions, providers) && states[0] == f
    ensures Some(states[|actions|]) == After(f, actions, providers)
    ensures (forall id :: id in f.lanes ==> f.lanes[id] == NEW_LANE) ==> Run(states, actions, providers)
    decreases |actions|
  {
    hide Enabled, Next;
    if actions == [] {
      states := [f];
    } else {
      var rest := AfterIsRun(Next(f, actions[0], providers), actions[1..], providers);
      PathFrom(f, actions[0], rest, actions[1..], providers);
      assert [actions[0]] + actions[1..] == actions;
      states := [f] + rest;
    }
  }

  lemma {:induction false} AfterAppend(f: Fleet, a: seq<Action>, b: seq<Action>, providers: Providers)
    requires After(f, a, providers).Some?
    ensures After(f, a + b, providers) == After(After(f, a, providers).value, b, providers)
    decreases |a|
  {
    if a == [] {
      assert a + b == b;
    } else {
      assert (a + b)[1..] == a[1..] + b;
      AfterAppend(Next(f, a[0], providers), a[1..], b, providers);
    }
  }

  lemma TwoActions(f: Fleet, a: Action, b: Action, f1: Fleet, f2: Fleet, providers: Providers)
    requires Enabled(f, a, providers) && Next(f, a, providers) == f1
    requires Enabled(f1, b, providers) && Next(f1, b, providers) == f2
    ensures After(f, [a, b], providers) == Some(f2)
  {
    hide Next, Enabled;
    assert After(f2, [], providers) == Some(f2);
    assert [b][1..] == [];
    assert After(f1, [b], providers) == Some(f2);
    assert [a, b][1..] == [b];
  }

  const KEY := Key("source", 1)

  /** Another source under the same credential. */
  const OTHER := Key("other source", 1)

  /** A lane gets a slot and fetches with it; it changes sources, loses the answer to its release and fetches on. */
  function Grab(id: LaneId): seq<Action> {
    [Take(id, KEY), RevealReturns(id)] + [ClaimReaches(id, {}), ClaimReturns(id)]
  }

  function LoseReply(id: LaneId): seq<Action> {
    [FetchEnds(id), Take(id, OTHER)] + [ReleaseReaches(id), ReleaseRaises(id)] + [RevealReturns(id)]
  }

  /** Two lanes of different workers and one slot, held by nobody or by `id`. */
  function Pair(id: LaneId, lane: Lane, other: Lane, now: int, row: Option<Holder>): Fleet {
    if id == ("left", 0) then Fleet(now, [row], map[("left", 0) := lane, ("right", 0) := other])
    else Fleet(now, [row], map[("left", 0) := other, ("right", 0) := lane])
  }

  function RowOf(id: LaneId, now: int): Option<Holder> {
    Some(Holder(id.0, id.1, now + LEASE_TTL))
  }

  function Grabbed(place: Place, now: int): Lane {
    Lane(place, Some(KEY), Some(POOLED), Some(Held(POOLED, 1)), now)
  }

  const FETCHING_ON := Lane(Fetching, Some(OTHER), Some(POOLED), Some(Held(POOLED, 1)), 0)

  const FRESH := Pair(("left", 0), NEW_LANE, NEW_LANE, 0, None)

  lemma AsksForSlot(id: LaneId, other: Lane, now: int, row: Option<Holder>, providers: Providers)
    requires id == ("left", 0) || id == ("right", 0)
    ensures After(Pair(id, NEW_LANE, other, now, row), [Take(id, KEY), RevealReturns(id)], providers)
         == Some(Pair(id, NEW_LANE.(place := Claiming(KEY, None)), other, now, row))
  {
    var f := Pair(id, NEW_LANE, other, now, row);
    var f1 := Pair(id, NEW_LANE.(place := Revealing(KEY)), other, now, row);
    var f2 := Pair(id, NEW_LANE.(place := Claiming(KEY, None)), other, now, row);
    TwoActions(f, Take(id, KEY), RevealReturns(id), f1, f2, providers);
  }

  lemma ClaimWins(id: LaneId, other: Lane, now: int, row: Option<Holder>, providers: Providers)
    requires providers(KEY.credential) == POOLED && Free(row, now)
    requires id == ("left", 0) || id == ("right", 0)
    ensures var f := Pair(id, NEW_LANE.(place := Claiming(KEY, None)), other, now, row);
      && Enabled(f, ClaimReaches(id, {}), providers)
      && Next(f, ClaimReaches(id, {}), providers) ==
           Pair(id, NEW_LANE.(place := Claiming(KEY, Some(1)), renewed := now), other, now, RowOf(id, now))
  {
    var f := Pair(id, NEW_LANE.(place := Claiming(KEY, None)), other, now, row);
    assert Granted(f.rows, POOLED, now, {}) == Some(1);
  }

  lemma ClaimAnswers(id: LaneId, other: Lane, now: int, providers: Providers)
    requires providers(KEY.credential) == POOLED
    requires id == ("left", 0) || id == ("right", 0)
    ensures var f := Pair(id, NEW_LANE.(place := Claiming(KEY, Some(1)), renewed := now), other, now, RowOf(id, now));
      && Enabled(f, ClaimReturns(id), providers)
      && Next(f, ClaimReturns(id), providers) == Pair(id, Grabbed(Fetching, now), other, now, RowOf(id, now))
  {
  }

  lemma GetsSlot(id: LaneId, other: Lane, now: int, row: Option<Holder>, providers: Providers)
    requires providers(KEY.credential) == POOLED && Free(row, now)
    requires id == ("left", 0) || id == ("right", 0)
    ensures After(Pair(id, NEW_LANE.(place := Claiming(KEY, None)), other, now, row),
      [ClaimReaches(id, {}), ClaimReturns(id)], providers)
         == Some(Pair(id, Grabbed(Fetching, now), other, now, RowOf(id, now)))
  {
    hide After, Enabled, Next, Pair, RowOf, Grabbed;
    ClaimWins(id, other, now, row, providers);
    ClaimAnswers(id, other, now, providers);
    TwoActions(Pair(id, NEW_LANE.(place := Claiming(KEY, None)), other, now, row),
               ClaimReaches(id, {}), ClaimReturns(id),
               Pair(id, NEW_LANE.(place := Claiming(KEY, Some(1)), renewed := now), other, now, RowOf(id, now)),
               Pair(id, Grabbed(Fetching, now), other, now, RowOf(id, now)), providers);
  }

  lemma GrabWorks(id: LaneId, other: Lane, now: int, row: Option<Holder>, providers: Providers)
    requires providers(KEY.credential) == POOLED && Free(row, now)
    requires id == ("left", 0) || id == ("right", 0)
    ensures After(Pair(id, NEW_LANE, other, now, row), Grab(id), providers)
         == Some(Pair(id, Grabbed(Fetching, now), other, now, RowOf(id, now)))
  {
    hide After, Pair;
    AsksForSlot(id, other, now, row, providers);
    GetsSlot(id, other, now, row, providers);
    AfterAppend(Pair(id, NEW_LANE, other, now, row), [Take(id, KEY), RevealReturns(id)],
      [ClaimReaches(id, {}), ClaimReturns(id)], providers);
  }

  lemma ChangesSource(id: LaneId, other: Lane, providers: Providers)
    requires id == ("left", 0)
    ensures After(Pair(id, Grabbed(Fetching, 0), other, 0, RowOf(id, 0)), [FetchEnds(id), Take(id, OTHER)], providers)
         == Some(Pair(id, Grabbed(Freeing(Adopt(OTHER), false), 0), other, 0, RowOf(id, 0)))
  {
    var f := Pair(id, Grabbed(Fetching, 0), other, 0, RowOf(id, 0));
    var f1 := Pair(id, Grabbed(Resting, 0), other, 0, RowOf(id, 0));
    var f2 := Pair(id, Grabbed(Freeing(Adopt(OTHER), false), 0), other, 0, RowOf(id, 0));
    TwoActions(f, FetchEnds(id), Take(id, OTHER), f1, f2, providers);
  }

  lemma LosesReply(id: LaneId, other: Lane, providers: Providers)
    requires id == ("left", 0)
    ensures After(Pair(id, Grabbed(Freeing(Adopt(OTHER), false), 0), other, 0, RowOf(id, 0)),
                  [ReleaseReaches(id), ReleaseRaises(id)], providers)
         == Some(Pair(id, Grabbed(Revealing(OTHER), 0), other, 0, None))
  {
    var f := Pair(id, Grabbed(Freeing(Adopt(OTHER), false), 0), other, 0, RowOf(id, 0));
    var f1 := Pair(id, Grabbed(Freeing(Adopt(OTHER), true), 0), other, 0, None);
    var f2 := Pair(id, Grabbed(Revealing(OTHER), 0), other, 0, None);
    TwoActions(f, ReleaseReaches(id), ReleaseRaises(id), f1, f2, providers);
  }

  lemma FetchesOn(id: LaneId, other: Lane, providers: Providers)
    requires id == ("left", 0) && providers(KEY.credential) == POOLED
    ensures After(Pair(id, Grabbed(Revealing(OTHER), 0), other, 0, None), [RevealReturns(id)], providers)
         == Some(Pair(id, FETCHING_ON, other, 0, None))
  {
    var f := Pair(id, FETCHING_ON, other, 0, None);
    assert Next(Pair(id, Grabbed(Revealing(OTHER), 0), other, 0, None), RevealReturns(id), providers) == f;
    assert After(f, [], providers) == Some(f);
    assert [RevealReturns(id)][1..] == [];
  }

  /** After a release that took effect but raised, the lane fetches with a slot it no longer has. */
  lemma LoseReplyWorks(id: LaneId, other: Lane, providers: Providers)
    requires id == ("left", 0) && providers(KEY.credential) == POOLED
    ensures After(Pair(id, Grabbed(Fetching, 0), other, 0, RowOf(id, 0)), LoseReply(id), providers)
         == Some(Pair(id, FETCHING_ON, other, 0, None))
  {
    hide After, Pair, RowOf, Grabbed;
    ChangesSource(id, other, providers);
    LosesReply(id, other, providers);
    FetchesOn(id, other, providers);
    var f := Pair(id, Grabbed(Fetching, 0), other, 0, RowOf(id, 0));
    AfterAppend(f, [FetchEnds(id), Take(id, OTHER)], [ReleaseReaches(id), ReleaseRaises(id)], providers);
    AfterAppend(f, [FetchEnds(id), Take(id, OTHER)] + [ReleaseReaches(id), ReleaseRaises(id)], [RevealReturns(id)],
                providers);
  }

  /** Two lanes use one slot. */
  ghost predicate Shared(f: Fleet, providers: Providers) {
    exists a, b :: a in f.lanes && b in f.lanes && a != b
                   && InUse(f.lanes[a], providers).Some? && InUse(f.lanes[a], providers) == InUse(f.lanes[b], providers)
  }

  lemma BothUse(left: Lane, now: int, row: Option<Holder>, providers: Providers)
    requires providers(KEY.credential) == POOLED && Free(row, now)
    requires InUse(left, providers) == Some(1)
    ensures After(Pair(("right", 0), NEW_LANE, left, now, row), Grab(("right", 0)), providers).Some?
    ensures Shared(After(Pair(("right", 0), NEW_LANE, left, now, row), Grab(("right", 0)), providers).value, providers)
  {
    GrabWorks(("right", 0), left, now, row, providers);
    var f := Pair(("right", 0), Grabbed(Fetching, now), left, now, RowOf(("right", 0), now));
    assert InUse(f.lanes[("left", 0)], providers) == Some(1) == InUse(f.lanes[("right", 0)], providers);
  }

  function Late(): seq<Action> { [Tick(LEASE_TTL + 1)] }

  lemma TimePasses(left: Lane, row: Option<Holder>, providers: Providers)
    ensures After(Pair(("left", 0), left, NEW_LANE, 0, row), Late(), providers)
         == Some(Pair(("right", 0), NEW_LANE, left, LEASE_TTL + 1, row))
  {
    var f := Pair(("right", 0), NEW_LANE, left, LEASE_TTL + 1, row);
    assert After(f, [], providers) == Some(f);
    assert Late()[1..] == [];
  }

  /** A renewal that comes too late, and no release at all: another worker takes the slot as well. */
  lemma LateRenewalShares(providers: Providers)
    requires providers(KEY.credential) == POOLED
    ensures After(FRESH, Grab(("left", 0)) + Late() + Grab(("right", 0)), providers).Some?
    ensures Shared(After(FRESH, Grab(("left", 0)) + Late() + Grab(("right", 0)), providers).value, providers)
  {
    hide After, Pair, Grab, Late, Shared;
    GrabWorks(("left", 0), NEW_LANE, 0, None, providers);
    var held := RowOf(("left", 0), 0);
    TimePasses(Grabbed(Fetching, 0), held, providers);
    AfterAppend(FRESH, Grab(("left", 0)), Late(), providers);
    BothUse(Grabbed(Fetching, 0), LEASE_TTL + 1, held, providers);
    AfterAppend(FRESH, Grab(("left", 0)) + Late(), Grab(("right", 0)), providers);
  }

  /** A release that took effect but raised, with the clock standing still, does the same. */
  lemma LostReplyShares(providers: Providers)
    requires providers(KEY.credential) == POOLED
    ensures After(FRESH, Grab(("left", 0)) + LoseReply(("left", 0)) + Grab(("right", 0)), providers).Some?
    ensures Shared(After(FRESH, Grab(("left", 0)) + LoseReply(("left", 0)) + Grab(("right", 0)), providers).value,
      providers)
  {
    hide After, Pair, Grab, LoseReply, Shared;
    var left := ("left", 0);
    GrabWorks(left, NEW_LANE, 0, None, providers);
    LoseReplyWorks(left, NEW_LANE, providers);
    AfterAppend(FRESH, Grab(left), LoseReply(left), providers);
    SwapPair(FETCHING_ON);
    BothUse(FETCHING_ON, 0, None, providers);
    AfterAppend(FRESH, Grab(left) + LoseReply(left), Grab(("right", 0)), providers);
  }

  lemma SwapPair(left: Lane)
    ensures Pair(("right", 0), NEW_LANE, left, 0, None) == Pair(("left", 0), left, NEW_LANE, 0, None)
  {
  }
}
