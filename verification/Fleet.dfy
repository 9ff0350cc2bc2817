/**
 Every lane of every worker sharing the provider slots, step by step.

 A lane's calls are split where the lane waits: a claim or release takes effect in
 the table first and is answered later, and other lanes, other workers, the
 heartbeats and the clock move in between.
 */
module Fleet {
  import opened Basics
  import opened ProxySlots

  /** The affinity a lane keeps its session for. */
  datatype Key = Key(source: string, credential: nat)

  datatype Held = Held(provider: string, slot: nat)

  /** Why a lane gives its slot up, hence what it does next. */
  datatype Reason = GoIdle | Adopt(key: Key)

  datatype Place =
    | Resting
    | Freeing(why: Reason, effective: bool)       // release sent; whether it has reached the table
    | Revealing(key: Key)
    | Claiming(key: Key, granted: Option<nat>)    // claim sent; the slot it took, once it has
    | Fetching

  datatype Lane = Lane(
    place: Place,
    key: Option<Key>,
    provider: Option<string>,
    held: Option<Held>,
    renewed: int)           // when the slot in use was last claimed or renewed

  const NEW_LANE := Lane(Resting, None, None, None, 0)

  type LaneId = (string, nat)

  /** The provider of each credential version, which never changes. */
  type Providers = nat -> string

  datatype Fleet = Fleet(now: int, rows: Rows, lanes: map<LaneId, Lane>)

  // --------------------------------------------------------------------- one lane

  /** What the lane does once its release is over. */
  function Resume(lane: Lane, why: Reason): Lane {
    match why
    case GoIdle => lane.(place := Resting, provider := None, key := None)
    case Adopt(key) => lane.(place := Revealing(key))
  }

  /** A lane that stops keeping its slot asks for its release first, if it has one. */
  function Leave(lane: Lane, why: Reason): Lane {
    if lane.held.Some? then lane.(place := Freeing(why, false)) else Resume(lane, why)
  }

  function TakeWork(lane: Lane, key: Key): Lane {
    if lane.key.Some? && lane.key.value != key then Leave(lane, Adopt(key)) else lane.(place := Revealing(key))
  }

  function StartFetch(lane: Lane, key: Key, providers: Providers): Lane {
    lane.(place := Fetching, key := Some(key), provider := Some(providers(key.credential)))
  }

  /** The pooled slot a lane may be using: granted to it, or held and not yet released. */
  function InUse(lane: Lane, providers: Providers): Option<nat> {
    match lane.place
    case Claiming(key, Some(slot)) => if providers(key.credential) == POOLED then Some(slot) else None
    case Freeing(_, true) => None
    case _ => if lane.held.Some? && lane.held.value.provider == POOLED then Some(lane.held.value.slot) else None
  }

  // ------------------------------------------------------------------------- steps

  datatype Action =
    | Tick(to: int)
    | Heartbeat(worker: string, held: seq<(string, nat)>)   // any list a worker may once have collected
    | IdleClose(id: LaneId)                                 // never happens, see LaneLoops.NoLaneEverCloses
    | Take(id: LaneId, key: Key)
    | ReleaseReaches(id: LaneId)
    | ReleaseReturns(id: LaneId)
    | ReleaseRaises(id: LaneId)
    | RevealFails(id: LaneId)
    | RevealReturns(id: LaneId)
    | ClaimReaches(id: LaneId, hidden: set<nat>)
    | ClaimReturns(id: LaneId)
    | ClaimRaises(id: LaneId)
    | FetchEnds(id: LaneId)

  /** Renewals a heartbeat makes, as seen by the lanes whose slot it lists. */
  function Renewed(lanes: map<LaneId, Lane>, worker: string, held: seq<(string, nat)>, now: int,
      providers: Providers): map<LaneId, Lane>
  {
    map id | id in lanes ::
      if id.0 == worker && InUse(lanes[id], providers).Some? && (POOLED, InUse(lanes[id], providers).value) in held
      then lanes[id].(renewed := now) else lanes[id]
  }

  predicate Enabled(f: Fleet, a: Action, providers: Providers) {
    match a
    case Tick(to) => f.now <= to
    case Heartbeat(_, _) => true
    case IdleClose(id) => id in f.lanes && f.lanes[id].place.Resting? && f.lanes[id].provider.Some?
    case Take(id, _) => id in f.lanes && f.lanes[id].place.Resting?
    case ReleaseReaches(id) =>
      id in f.lanes && f.lanes[id].place.Freeing? && !f.lanes[id].place.effective && f.lanes[id].held.Some?
    case ReleaseReturns(id) => id in f.lanes && f.lanes[id].place.Freeing? && f.lanes[id].place.effective
    case ReleaseRaises(id) =>
      // Only the pooled provider's release leaves the process.
      id in f.lanes && f.lanes[id].place.Freeing? && f.lanes[id].held.Some? && f.lanes[id].held.value.provider == POOLED
    case RevealFails(id) => id in f.lanes && f.lanes[id].place.Revealing?
    case RevealReturns(id) => id in f.lanes && f.lanes[id].place.Revealing?
    case ClaimReaches(id, _) => id in f.lanes && f.lanes[id].place.Claiming? && f.lanes[id].place.granted.None?
    case ClaimReturns(id) => id in f.lanes && f.lanes[id].place.Claiming? && f.lanes[id].place.granted.Some?
    case ClaimRaises(id) =>
      id in f.lanes && f.lanes[id].place.Claiming? && providers(f.lanes[id].place.key.credential) == POOLED
    case FetchEnds(id) => id in f.lanes && f.lanes[id].place.Fetching?
  }

  function WithLane(f: Fleet, id: LaneId, lane: Lane): Fleet {
    f.(lanes := f.lanes[id := lane])
  }

  /** The claim statement reaching the table; an unpooled provider numbers its lanes from 1. */
  function ClaimEffect(f: Fleet, id: LaneId, hidden: set<nat>, providers: Providers): Fleet
    requires id in f.lanes && f.lanes[id].place.Claiming?
  {
    var lane := f.lanes[id];
    var provider := providers(lane.place.key.credential);
    if provider != POOLED then WithLane(f, id, lane.(place := lane.place.(granted := Some(id.1 + 1))))
    else
      var slot := Granted(f.rows, provider, f.now, hidden);
      if slot.None? then f
      else WithLane(f, id, lane.(place := lane.place.(granted := slot), renewed := f.now))
             .(rows := AfterClaim(f.rows, provider, id.0, id.1, f.now, hidden))
  }

  function Next(f: Fleet, a: Action, providers: Providers): Fleet
    requires Enabled(f, a, providers)
  {
    match a
    case Tick(to) => f.(now := to)
    case Heartbeat(worker, held) =>
      f.(rows := AfterRenew(f.rows, worker, held, f.now), lanes := Renewed(f.lanes, worker, held, f.now, providers))
    case IdleClose(id) => WithLane(f, id, Leave(f.lanes[id], GoIdle))
    case Take(id, key) => WithLane(f, id, TakeWork(f.lanes[id], key))
    case ReleaseReaches(id) =>
      var lane := f.lanes[id];
      WithLane(f, id, lane.(place := lane.place.(effective := true)))
        .(rows := AfterRelease(f.rows, lane.held.value.provider, lane.held.value.slot, id.0))
    case ReleaseReturns(id) => WithLane(f, id, Resume(f.lanes[id].(held := None), f.lanes[id].place.why))
    case ReleaseRaises(id) => WithLane(f, id, Resume(f.lanes[id], f.lanes[id].place.why))
    case RevealFails(id) => WithLane(f, id, f.lanes[id].(place := Resting))
    case RevealReturns(id) =>
      var lane := f.lanes[id];
      WithLane(f, id,
        if lane.held.None? then lane.(place := Claiming(lane.place.key, None))
        else StartFetch(lane, lane.place.key, providers))
    case ClaimReaches(id, hidden) => ClaimEffect(f, id, hidden, providers)
    case ClaimReturns(id) =>
      var lane := f.lanes[id];
      var key := lane.place.key;
      WithLane(f, id,
        StartFetch(lane.(held := Some(Held(providers(key.credential), lane.place.granted.value))), key, providers))
    case ClaimRaises(id) => WithLane(f, id, f.lanes[id].(place := Resting))
    case FetchEnds(id) => WithLane(f, id, f.lanes[id].(place := Resting))
  }

  // --------------------------------------------------------------- the assumptions

  /** At time `to`, every slot in use was claimed or renewed no longer than the lease ago. */
  ghost predicate RenewedInTime(f: Fleet, to: int, providers: Providers) {
    forall id :: id in f.lanes && InUse(f.lanes[id], providers).Some? ==> to <= f.lanes[id].renewed + LEASE_TTL
  }

  /** The clock does not outrun a renewal, and a release that raises did not reach the table. */
  ghost predicate Punctual(f: Fleet, a: Action, providers: Providers) {
    match a
    case Tick(to) => RenewedInTime(f, to, providers)
    case ReleaseRaises(id) => id in f.lanes && f.lanes[id].place.Freeing? ==> !f.lanes[id].place.effective
    case _ => true
  }

  ghost predicate Run(states: seq<Fleet>, actions: seq<Action>, providers: Providers) {
    && |states| == |actions| + 1
    && (forall id :: id in states[0].lanes ==> states[0].lanes[id] == NEW_LANE)
    && (forall n :: 0 <= n < |actions| ==>
          Enabled(states[n], actions[n], providers) && states[n + 1] == Next(states[n], actions[n], providers))
  }

  // ------------------------------------------------------------------ the invariant

  /** A slot from an unpooled provider is kept only for the key it was taken for. */
  predicate LaneOk(lane: Lane, providers: Providers) {
    && (lane.place.Claiming? ==> lane.held.None?)
    && (lane.place.Freeing? ==> lane.held.Some?)
    && (lane.place.Fetching? ==>
          lane.held.Some? && lane.key.Some? && lane.provider == Some(providers(lane.key.value.credential)))
    && (lane.held.Some? && lane.held.value.provider != POOLED ==>
          && lane.key.Some?
          && providers(lane.key.value.credential) != POOLED
          && (lane.place.Revealing? ==> lane.place.key == lane.key.value))
  }

  predicate RowIsFor(rows: Rows, slot: nat, id: LaneId, until: int) {
    && 1 <= slot <= |rows|
    && rows[slot - 1].Some?
    && rows[slot - 1].value.worker == id.0
    && rows[slot - 1].value.lane == id.1
    && until <= rows[slot - 1].value.expires
  }

  /** The table backs what the lane is using. */
  predicate Backed(f: Fleet, id: LaneId, providers: Providers)
    requires id in f.lanes
  {
    var slot := InUse(f.lanes[id], providers);
    slot.Some? ==>
      RowIsFor(f.rows, slot.value, id, f.lanes[id].renewed + LEASE_TTL) && f.now <= f.lanes[id].renewed + LEASE_TTL
  }

  ghost predicate Inv(f: Fleet, providers: Providers) {
    forall id :: id in f.lanes ==> LaneOk(f.lanes[id], providers) && Backed(f, id, providers)
  }

  /** Only one lane changes, and its new slot, if any, is backed. */
  lemma OneLaneMoves(f: Fleet, id: LaneId, lane: Lane, providers: Providers)
    requires Inv(f, providers) && id in f.lanes && LaneOk(lane, providers)
    requires InUse(lane, providers).Some? ==>
      InUse(lane, providers) == InUse(f.lanes[id], providers) && lane.renewed == f.lanes[id].renewed
    ensures Inv(WithLane(f, id, lane), providers)
  {
    var r := WithLane(f, id, lane);
    forall x | x in r.lanes ensures LaneOk(r.lanes[x], providers) && Backed(r, x, providers) {
      assert Backed(f, x, providers);
    }
  }

  lemma HeartbeatKeeps(f: Fleet, worker: string, held: seq<(string, nat)>, providers: Providers)
    requires Inv(f, providers)
    ensures Inv(Next(f, Heartbeat(worker, held), providers), providers)
  {
    var r := Next(f, Heartbeat(worker, held), providers);
    forall id | id in r.lanes ensures LaneOk(r.lanes[id], providers) && Backed(r, id, providers) {
      assert LaneOk(f.lanes[id], providers) && Backed(f, id, providers);
      assert InUse(r.lanes[id], providers) == InUse(f.lanes[id], providers);
    }
  }

  lemma ReleaseKeeps(f: Fleet, id: LaneId, providers: Providers)
    requires Inv(f, providers) && Enabled(f, ReleaseReaches(id), providers)
    ensures Inv(Next(f, ReleaseReaches(id), providers), providers)
  {
    var lane := f.lanes[id];
    var r := Next(f, ReleaseReaches(id), providers);
    assert Backed(f, id, providers);
    forall x | x in r.lanes ensures LaneOk(r.lanes[x], providers) && Backed(r, x, providers) {
      assert LaneOk(f.lanes[x], providers) && Backed(f, x, providers);
      if x != id && InUse(f.lanes[x], providers).Some? && lane.held.value.provider == POOLED {
        assert InUse(lane, providers) == Some(lane.held.value.slot);
        SlotsDiffer(f, id, x, providers);
      }
    }
  }

  /** Two lanes never use one slot. */
  lemma SlotsDiffer(f: Fleet, a: LaneId, b: LaneId, providers: Providers)
    requires Inv(f, providers) && a in f.lanes && b in f.lanes && a != b
    ensures InUse(f.lanes[a], providers).Some? ==> InUse(f.lanes[a], providers) != InUse(f.lanes[b], providers)
  {
    assert Backed(f, a, providers) && Backed(f, b, providers);
  }

  lemma ClaimKeeps(f: Fleet, id: LaneId, hidden: set<nat>, providers: Providers)
    requires Inv(f, providers) && Enabled(f, ClaimReaches(id, hidden), providers)
    ensures Inv(Next(f, ClaimReaches(id, hidden), providers), providers)
  {
    var r := Next(f, ClaimReaches(id, hidden), providers);
    var k := FirstFree(f.rows, f.now, hidden);
    forall x | x in r.lanes ensures LaneOk(r.lanes[x], providers) && Backed(r, x, providers) {
      assert LaneOk(f.lanes[x], providers) && Backed(f, x, providers);
    }
  }

  lemma StepKeeps(f: Fleet, a: Action, providers: Providers)
    requires Inv(f, providers) && Enabled(f, a, providers) && Punctual(f, a, providers)
    ensures Inv(Next(f, a, providers), providers)
  {
    match a
    case Tick(to) =>
      var r := f.(now := to);
      forall id | id in r.lanes ensures LaneOk(r.lanes[id], providers) && Backed(r, id, providers) {
        assert Backed(f, id, providers);
      }
    case Heartbeat(worker, held) => HeartbeatKeeps(f, worker, held, providers);
    case IdleClose(id) => OneLaneMoves(f, id, Leave(f.lanes[id], GoIdle), providers);
    case Take(id, key) => OneLaneMoves(f, id, TakeWork(f.lanes[id], key), providers);
    case ReleaseReaches(id) => ReleaseKeeps(f, id, providers);
    case ReleaseReturns(id) => OneLaneMoves(f, id, Next(f, a, providers).lanes[id], providers);
    case ReleaseRaises(id) => OneLaneMoves(f, id, Next(f, a, providers).lanes[id], providers);
    case RevealFails(id) => OneLaneMoves(f, id, Next(f, a, providers).lanes[id], providers);
    case RevealReturns(id) => OneLaneMoves(f, id, Next(f, a, providers).lanes[id], providers);
    case ClaimReaches(id, hidden) => ClaimKeeps(f, id, hidden, providers);
    case ClaimReturns(id) => OneLaneMoves(f, id, Next(f, a, providers).lanes[id], providers);
    case ClaimRaises(id) => OneLaneMoves(f, id, Next(f, a, providers).lanes[id], providers);
    case FetchEnds(id) => OneLaneMoves(f, id, Next(f, a, providers).lanes[id], providers);
  }

  lemma {:induction false} RunKeepsInv(states: seq<Fleet>, actions: seq<Action>, providers: Providers, n: nat)
    requires Run(states, actions, providers) && n < |states|
    requires forall k :: 0 <= k < n ==> Punctual(states[k], actions[k], providers)
    ensures Inv(states[n], providers)
  {
    if n > 0 {
      RunKeepsInv(states, actions, providers, n - 1);
      StepKeeps(states[n - 1], actions[n - 1], providers);
    }
  }

  // ------------------------------------------------------------------- the theorems

  /** In a punctual run no two lanes of any workers ever use the same slot. */
  lemma SlotsAreExclusive(states: seq<Fleet>, actions: seq<Action>, providers: Providers, n: nat, a: LaneId, b: LaneId)
    requires Run(states, actions, providers) && n < |states|
    requires forall k :: 0 <= k < n ==> Punctual(states[k], actions[k], providers)
    requires a in states[n].lanes && b in states[n].lanes && a != b
    ensures InUse(states[n].lanes[a], providers).Some? ==>
      InUse(states[n].lanes[a], providers) != InUse(states[n].lanes[b], providers)
  {
    RunKeepsInv(states, actions, providers, n);
    SlotsDiffer(states[n], a, b, providers);
  }

  /**
   A lane keeps its claim until its release is answered. Two lanes may hold one pooled
   slot only in that window: one of them has a release that took effect and did not return.
   */
  lemma HeldSlotsMeetOnlyWhileFreed(states: seq<Fleet>, actions: seq<Action>, providers: Providers, n: nat, a: LaneId,
      b: LaneId)
    requires Run(states, actions, providers) && n < |states|
    requires forall k :: 0 <= k < n ==> Punctual(states[k], actions[k], providers)
    requires a in states[n].lanes && b in states[n].lanes && a != b
    requires states[n].lanes[a].held.Some? && states[n].lanes[a].held == states[n].lanes[b].held
    requires states[n].lanes[a].held.value.provider == POOLED
    ensures Freed(states[n].lanes[a]) || Freed(states[n].lanes[b])
  {
    RunKeepsInv(states, actions, providers, n);
    assert LaneOk(states[n].lanes[a], providers) && LaneOk(states[n].lanes[b], providers);
    SlotsDiffer(states[n], a, b, providers);
  }

  predicate Freed(lane: Lane) {
    lane.place.Freeing? && lane.place.effective
  }

  /** In a punctual run a lane that fetches through the pooled provider is using one of its slots. */
  lemma PooledFetchHoldsSlot(states: seq<Fleet>, actions: seq<Action>, providers: Providers, n: nat, id: LaneId)
    requires Run(states, actions, providers) && n < |states|
    requires forall k :: 0 <= k < n ==> Punctual(states[k], actions[k], providers)
    requires id in states[n].lanes && states[n].lanes[id].place.Fetching?
    requires states[n].lanes[id].provider == Some(POOLED)
    ensures states[n].lanes[id].held.Some? && states[n].lanes[id].held.value.provider == POOLED
    ensures InUse(states[n].lanes[id], providers) == Some(states[n].lanes[id].held.value.slot)
    ensures RowIsFor(states[n].rows, states[n].lanes[id].held.value.slot, id, states[n].now)
  {
    RunKeepsInv(states, actions, providers, n);
    assert LaneOk(states[n].lanes[id], providers) && Backed(states[n], id, providers);
  }

  /** In a punctual run two lanes that fetch through the pooled provider do it with different slots. */
  lemma FetchesUseDifferentSlots(states: seq<Fleet>, actions: seq<Action>, providers: Providers, n: nat, a: LaneId,
      b: LaneId)
    requires Run(states, actions, providers) && n < |states|
    requires forall k :: 0 <= k < n ==> Punctual(states[k], actions[k], providers)
    requires a in states[n].lanes && states[n].lanes[a].place.Fetching?
    requires b in states[n].lanes && states[n].lanes[b].place.Fetching?
    requires states[n].lanes[a].provider == states[n].lanes[b].provider == Some("geonode") && a != b
    ensures states[n].lanes[a].held.Some? && states[n].lanes[b].held.Some?
    ensures states[n].lanes[a].held.value.slot != states[n].lanes[b].held.value.slot
  {
    hide Run, Punctual, InUse, RowIsFor;
    PooledFetchHoldsSlot(states, actions, providers, n, a);
    PooledFetchHoldsSlot(states, actions, providers, n, b);
    SlotsAreExclusive(states, actions, providers, n, a, b);
  }

  /** Whatever slot a lane holds is of the provider its key's credential asks for. */
  predicate HoldsItsOwn(lane: Lane, providers: Providers) {
    && (lane.place.Claiming? ==> lane.held.None?)
    && (lane.held.Some? ==>
          && lane.key.Some? && lane.held.value.provider == providers(lane.key.value.credential)
          && (lane.place.Revealing? ==> lane.place.key == lane.key.value))
  }

  lemma StepHoldsItsOwn(f: Fleet, a: Action, providers: Providers, id: LaneId)
    requires Enabled(f, a, providers) && a != ReleaseRaises(id)
    requires id in f.lanes && HoldsItsOwn(f.lanes[id], providers)
    ensures id in Next(f, a, providers).lanes && HoldsItsOwn(Next(f, a, providers).lanes[id], providers)
  {
    hide AfterRenew, AfterRelease, AfterClaim, Granted;
  }

  lemma {:induction false} RunHoldsItsOwn(states: seq<Fleet>, actions: seq<Action>, providers: Providers, n: nat,
      id: LaneId)
    requires Run(states, actions, providers) && n < |states| && id in states[0].lanes
    requires forall k :: 0 <= k < n ==> actions[k] != ReleaseRaises(id)
    ensures id in states[n].lanes && HoldsItsOwn(states[n].lanes[id], providers)
  {
    hide Enabled, Next, HoldsItsOwn;
    if n > 0 {
      RunHoldsItsOwn(states, actions, providers, n - 1, id);
      StepHoldsItsOwn(states[n - 1], actions[n - 1], providers, id);
    } else {
      NewLaneHoldsNothing(providers);
    }
  }

  lemma NewLaneHoldsNothing(providers: Providers)
    ensures HoldsItsOwn(NEW_LANE, providers)
  {
  }

  /** A lane none of whose releases raised fetches with a slot of the provider its item's credential asks for. */
  lemma FetchesThroughItsProvider(states: seq<Fleet>, actions: seq<Action>, providers: Providers, n: nat, id: LaneId)
    requires Run(states, actions, providers) && n < |states| && id in states[0].lanes
    requires forall k :: 0 <= k < n ==> actions[k] != ReleaseRaises(id)
    requires id in states[n].lanes && states[n].lanes[id].place.Fetching?
    requires forall k :: 0 <= k < n ==> Punctual(states[k], actions[k], providers)
    ensures var lane := states[n].lanes[id];
      && lane.key.Some? && lane.held.Some?
      && lane.provider == Some(providers(lane.key.value.credential))
      && lane.held.value.provider == providers(lane.key.value.credential)
  {
    RunHoldsItsOwn(states, actions, providers, n, id);
    RunKeepsInv(states, actions, providers, n);
    assert LaneOk(states[n].lanes[id], providers);
  }

  /** The lane holds the slot for items of the key, whether it has one in hand or rests. */
  predicate Keeps(lane: Lane, key: Key, slot: nat) {
    && lane.held == Some(Held(POOLED, slot)) && lane.key == Some(key)
    && (lane.place.Resting? || lane.place.Fetching? || lane.place == Revealing(key))
  }

  /** The lane is given items of that key only, and does not close for being idle, which it never does. */
  predicate StaysWith(a: Action, id: LaneId, key: Key) {
    a != IdleClose(id) && (a.Take? && a.id == id ==> a.key == key)
  }

  lemma StepKeepsSlot(f: Fleet, a: Action, providers: Providers, id: LaneId, key: Key, slot: nat)
    requires Enabled(f, a, providers) && StaysWith(a, id, key)
    requires id in f.lanes && Keeps(f.lanes[id], key, slot)
    ensures id in Next(f, a, providers).lanes && Keeps(Next(f, a, providers).lanes[id], key, slot)
  {
    hide AfterRenew, AfterRelease, AfterClaim, Granted;
  }

  /**
   A lane keeps its slot, resting or not and however long, until it gets an item of another
   key; in a punctual run the table has the row in its name all the while.
   */
  lemma {:induction false} SlotKeptUntilOtherKey(states: seq<Fleet>, actions: seq<Action>, providers: Providers, m: nat,
      n: nat, id: LaneId, key: Key, slot: nat)
    requires Run(states, actions, providers) && m <= n < |states|
    requires forall k :: 0 <= k < n ==> Punctual(states[k], actions[k], providers)
    requires forall k :: m <= k < n ==> StaysWith(actions[k], id, key)
    requires id in states[m].lanes && Keeps(states[m].lanes[id], key, slot)
    ensures id in states[n].lanes && Keeps(states[n].lanes[id], key, slot)
    ensures RowIsFor(states[n].rows, slot, id, states[n].now)
    decreases n - m
  {
    hide Enabled, Next, StaysWith, Punctual, Inv, Keeps, RowIsFor;
    if m < n {
      SlotKeptUntilOtherKey(states, actions, providers, m, n - 1, id, key, slot);
      StepKeepsSlot(states[n - 1], actions[n - 1], providers, id, key, slot);
    }
    RunKeepsInv(states, actions, providers, n);
    KeptRow(states[n], providers, id, key, slot);
  }

  lemma KeptRow(f: Fleet, providers: Providers, id: LaneId, key: Key, slot: nat)
    requires Inv(f, providers) && id in f.lanes && Keeps(f.lanes[id], key, slot)
    ensures RowIsFor(f.rows, slot, id, f.now)
  {
    assert Backed(f, id, providers);
  }
}
