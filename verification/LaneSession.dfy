/**
 The session a lane keeps, as the worker's code changes it. With nobody in between,
 its methods do what the fleet's steps of that lane do.
 */
module LaneSessions {
  import opened Basics
  import opened ProxySlots
  import opened Fleet
  import opened FleetLimits
  import F = Fetch

  /** How a release sent to the slot table turns out. */
  datatype Reply = Answered | AnswerLost | NeverSent

  /** One attempt to claim a slot. */
  datatype Poll = Poll(at: int, hidden: set<nat>)

  datatype Outcome = Adopted | NoCredential | StillWaiting

  /** Where an adoption leaves the lane. */
  function PlaceAfter(outcome: Outcome, next: Key): Place {
    match outcome
    case Adopted => Fetching
    case NoCredential => Resting
    case StillWaiting => Claiming(next, None)
  }

  /** `f` reaches `g` by these actions. */
  ghost predicate Leads(f: Fleet, trace: seq<Action>, g: Fleet, providers: Providers) {
    After(f, trace, providers) == Some(g)
  }

  lemma LeadsOn(f: Fleet, trace: seq<Action>, g: Fleet, a: Action, providers: Providers)
    requires Leads(f, trace, g, providers) && Enabled(g, a, providers)
    ensures Leads(f, trace + [a], Next(g, a, providers), providers)
  {
    hide Enabled, Next;
    AfterAppend(f, trace, [a], providers);
    assert [a][1..] == [];
    assert After(Next(g, a, providers), [], providers) == Some(Next(g, a, providers));
  }

  class LaneSession {
    const id: LaneId
    const state: F.WorkerState   // the proxy session
    var key: Option<Key>
    var provider: Option<string>
    var held: Option<Held>
    ghost var renewed: int

    constructor (id: LaneId, state: F.WorkerState)
      ensures this.id == id && this.state == state && AsLane(Resting) == NEW_LANE
    {
      this.id, this.state := id, state;
      key, provider, held, renewed := None, None, None, 0;
    }

    ghost function AsLane(place: Place): Lane
      reads this
    {
      Lane(place, key, provider, held, renewed)
    }

    /** The fleet in which this lane stands at `place`. */
    ghost predicate Stands(f: Fleet, place: Place, slots: PostgresProxySlots)
      reads this, slots
    {
      f.rows == slots.rows && id in f.lanes && f.lanes[id] == AsLane(place)
    }

    /** Closes the proxy session, whatever that raises. */
    method EndSession(closing: F.Closing, cfg: F.Config)
      requires state.Valid(cfg)
      modifies state
      ensures state.Valid(cfg)
      ensures state.session == if provider.Some? then None else old(state.session)
      ensures provider.None? || old(state.session).None? || !closing.ClientRaises? ==>
        state.ledger.stuck == old(state.ledger.stuck)
    {
      if provider.Some? {
        var _ := state.CloseSession(closing, cfg);
      }
    }

    /** Gives the slot up; a release that raises keeps the claim, so that a later one can retry. */
    method ReleaseSlot(slots: PostgresProxySlots, reply: Reply, ghost f: Fleet, ghost why: Reason,
        ghost providers: Providers)
      returns (ghost g: Fleet, ghost trace: seq<Action>)
      requires held.Some? ==> Stands(f, Freeing(why, false), slots)
      modifies this`held, slots
      ensures old(held).None? ==> held == None && slots.rows == old(slots.rows) && g == f && trace == []
      ensures old(held).Some? ==> Leads(f, trace, g, providers) && g.now == f.now
      ensures old(held).Some? ==> g == WithLane(f, id, Resume(AsLane(Freeing(why, false)), why)).(rows := slots.rows)
      ensures held ==
        if old(held).Some? && old(held).value.provider == POOLED && !reply.Answered? then old(held) else None
    {
      g, trace := f, [];
      if held.None? {
        return;
      }
      if held.value.provider == POOLED && reply.NeverSent? {
        LeadsOn(f, [], f, ReleaseRaises(id), providers);
        g, trace := Next(f, ReleaseRaises(id), providers), [] + [ReleaseRaises(id)];
        return;
      }
      slots.Release(held.value.provider, held.value.slot, id.0);
      LeadsOn(f, [], f, ReleaseReaches(id), providers);
      g, trace := Next(f, ReleaseReaches(id), providers), [] + [ReleaseReaches(id)];
      if held.value.provider == POOLED && reply.AnswerLost? {
        LeadsOn(f, trace, g, ReleaseRaises(id), providers);
        g, trace := Next(g, ReleaseRaises(id), providers), trace + [ReleaseRaises(id)];
      } else {
        held := None;
        LeadsOn(f, trace, g, ReleaseReturns(id), providers);
        g, trace := Next(g, ReleaseReturns(id), providers), trace + [ReleaseReturns(id)];
      }
      assert g.lanes == f.lanes[id := g.lanes[id]];
    }

    /**
     Closes the proxy session, whatever that raises, and gives the slot up; a release that
     raises keeps the claim, so that a later one can retry.
     */
    method CloseAndRelease(slots: PostgresProxySlots, closing: F.Closing, reply: Reply, cfg: F.Config,
                           ghost f: Fleet, ghost why: Reason, ghost providers: Providers)
      returns (ghost g: Fleet, ghost trace: seq<Action>)
      requires state.Valid(cfg)
      requires held.Some? ==> Stands(f, Freeing(why, false), slots)
      modifies this`held, slots, state
      ensures state.Valid(cfg)
      ensures state.session == if provider.Some? then None else old(state.session)
      ensures provider.None? || old(state.session).None? || !closing.ClientRaises? ==>
        state.ledger.stuck == old(state.ledger.stuck)
      ensures old(held).None? ==> held == None && slots.rows == old(slots.rows) && g == f && trace == []
      ensures old(held).Some? ==> Leads(f, trace, g, providers) && g.now == f.now
      ensures old(held).Some? ==> g == WithLane(f, id, Resume(AsLane(Freeing(why, false)), why)).(rows := slots.rows)
      ensures held ==
        if old(held).Some? && old(held).value.provider == POOLED && !reply.Answered? then old(held) else None
    {
      EndSession(closing, cfg);
      g, trace := ReleaseSlot(slots, reply, f, why, providers);
    }

    /** Polls for a slot of the pooled provider; others number their lanes from one. */
    method ClaimSlot(slots: PostgresProxySlots, next: Key, polls: seq<Poll>, ghost f: Fleet, providers: Providers)
      returns (slot: Option<nat>, ghost g: Fleet, ghost trace: seq<Action>)
      requires Stands(f, Claiming(next, None), slots) && held.None?
      requires forall n :: 0 <= n < |polls| ==> f.now <= polls[n].at
      requires forall n, m :: 0 <= n < m < |polls| ==> polls[n].at <= polls[m].at
      modifies this`renewed, slots
      ensures Leads(f, trace, g, providers) && Stands(g, Claiming(next, slot), slots)
      ensures g.lanes == f.lanes[id := g.lanes[id]]
      ensures providers(next.credential) != POOLED ==> slot == Some(id.1 + 1) && slots.rows == old(slots.rows)
    {
      g, trace := f, [];
      if providers(next.credential) != POOLED {
        LeadsOn(f, [], f, ClaimReaches(id, {}), providers);
        g, trace := Next(f, ClaimReaches(id, {}), providers), [] + [ClaimReaches(id, {})];
        return Some(id.1 + 1), g, trace;
      }
      slot := None;
      var n := 0;
      while n < |polls| && slot.None?
        invariant 0 <= n <= |polls| && Leads(f, trace, g, providers) && Stands(g, Claiming(next, slot), slots)
        invariant g.lanes == f.lanes[id := g.lanes[id]] && held.None?
        invariant n < |polls| ==> g.now <= polls[n].at
        decreases |polls| - n
      {
        LeadsOn(f, trace, g, Tick(polls[n].at), providers);
        g, trace := Next(g, Tick(polls[n].at), providers), trace + [Tick(polls[n].at)];
        slot := slots.Claim(providers(next.credential), id.0, id.1, polls[n].at, polls[n].hidden);
        LeadsOn(f, trace, g, ClaimReaches(id, polls[n].hidden), providers);
        if slot.Some? {
          renewed := polls[n].at;
        }
        ghost var before := g;
        g, trace := Next(g, ClaimReaches(id, polls[n].hidden), providers), trace + [ClaimReaches(id, polls[n].hidden)];
        assert g.lanes == before.lanes[id := g.lanes[id]];
        n := n + 1;
      }
    }

    /** Another key's slot goes before the next item. */
    method LeaveOther(slots: PostgresProxySlots, next: Key, closing: F.Closing, reply: Reply, cfg: F.Config,
                      ghost f: Fleet, ghost providers: Providers)
      returns (ghost g: Fleet, ghost trace: seq<Action>)
      requires Stands(f, Resting, slots) && state.Valid(cfg)
      modifies this`held, slots, state
      ensures state.Valid(cfg)
      ensures key.Some? && key.value != next && provider.Some? ==> state.session == None
      ensures key.None? || key.value == next ==> state.session == old(state.session)
      ensures Leads(f, trace, g, providers) && Stands(g, Revealing(next), slots) && g.now == f.now
      ensures key.None? || key.value == next ==> held == old(held) && slots.rows == old(slots.rows)
      ensures key.Some? && key.value != next ==>
        held == if old(held).Some? && old(held).value.provider == POOLED && !reply.Answered? then old(held) else None
    {
      hide Leads;
      NoStep(f, providers);
      LeadsOn(f, [], f, Take(id, next), providers);
      g, trace := Next(f, Take(id, next), providers), [] + [Take(id, next)];
      if key.Some? && key.value != next {
        ghost var released, steps := CloseAndRelease(slots, closing, reply, cfg, g, Reason.Adopt(next), providers);
        LeadsFurther(f, trace, g, steps, released, providers);
        g, trace := released, trace + steps;
      }
    }

    /** Makes the session fit the next item: another key's slot goes, and a slot is claimed if none is held. */
    method Adopt(slots: PostgresProxySlots, next: Key, closing: F.Closing, reply: Reply, cfg: F.Config, revealed: bool,
                 polls: seq<Poll>, ghost f: Fleet, providers: Providers)
      returns (outcome: Outcome, ghost g: Fleet, ghost trace: seq<Action>)
      requires Stands(f, Resting, slots) && state.Valid(cfg)
      requires forall n :: 0 <= n < |polls| ==> f.now <= polls[n].at
      requires forall n, m :: 0 <= n < m < |polls| ==> polls[n].at <= polls[m].at
      modifies this, slots, state
      ensures state.Valid(cfg)
      ensures old(key) != Some(next) && old(key).Some? && old(provider).Some? ==> state.session == None
      ensures Leads(f, trace, g, providers)
      ensures Stands(g, PlaceAfter(outcome, next), slots)
      ensures outcome == Adopted ==> held.Some? && key == Some(next) && provider == Some(providers(next.credential))
      ensures old(key) == Some(next) ==> state.session == old(state.session)
      ensures old(key) == Some(next) && old(held).Some? ==> held == old(held) && slots.rows == old(slots.rows)
      ensures old(key).Some? && old(key) != Some(next) && reply.Answered? && held.Some? ==>
        held.value.provider == providers(next.credential) && outcome == Adopted
      ensures outcome != Adopted ==> key == old(key) && provider == old(provider)
      ensures outcome == NoCredential <==> !revealed
    {
      hide Leads, F.WorkerState.Valid, Granted, AfterClaim, AfterRelease, AfterRenew, ClaimEffect, Renewed;
      g, trace := LeaveOther(slots, next, closing, reply, cfg, f, providers);
      if !revealed {
        LeadsOn(f, trace, g, RevealFails(id), providers);
        g, trace := Next(g, RevealFails(id), providers), trace + [RevealFails(id)];
        return NoCredential, g, trace;
      }
      LeadsOn(f, trace, g, RevealReturns(id), providers);
      g, trace := Next(g, RevealReturns(id), providers), trace + [RevealReturns(id)];
      if held.None? {
        var slot;
        ghost var claimed, steps;
        slot, claimed, steps := ClaimSlot(slots, next, polls, g, providers);
        LeadsFurther(f, trace, g, steps, claimed, providers);
        g, trace := claimed, trace + steps;
        if slot.None? {
          return StillWaiting, g, trace;
        }
        held := Some(Held(providers(next.credential), slot.value));
        LeadsOn(f, trace, g, ClaimReturns(id), providers);
        g, trace := Next(g, ClaimReturns(id), providers), trace + [ClaimReturns(id)];
      }
      key, provider := Some(next), Some(providers(next.credential));
      return Adopted, g, trace;
    }
  }

  lemma NoStep(f: Fleet, providers: Providers)
    ensures Leads(f, [], f, providers)
  {
  }

  lemma LeadsFurther(f: Fleet, trace: seq<Action>, g: Fleet, steps: seq<Action>, h: Fleet, providers: Providers)
    requires Leads(f, trace, g, providers) && (Leads(g, steps, h, providers) || (steps == [] && h == g))
    ensures Leads(f, trace + steps, h, providers)
  {
    if steps == [] && h == g {
      assert trace + steps == trace;
    } else {
      AfterAppend(f, trace, steps, providers);
    }
  }
}
