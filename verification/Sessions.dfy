/**
 Cookie sessions and single-use tokens on the ephemeral store.

 `load` and `mark_step_up_verified` read the store, decide, and write it later; other
 requests and the clock come between. The store's clock and the server's are one.
 */
module Sessions {
  import opened Basics
  import opened Ephemeral

  const SESSION_IDLE: int := 43200
  const SESSION_LIFETIME: int := 604800

  datatype Record = Record(user: nat, csrf: nat, created: int, stamp: Option<int>)

  datatype Session = Session(user: nat, csrf: nat, stamp: Option<int>)

  function SessionOf(record: Record): Session {
    Session(record.user, record.csrf, record.stamp)
  }

  // -------------------------------------------------------- requests one after another

  type Store = Ephemeral.EphemeralStore<Record>

  class BrowserSessions {
    const store: Store

    constructor (store: Store)
      ensures this.store == store
    {
      this.store := store;
    }

    /** A new key gets the record; `created` is read just before the statement. */
    method Mint(key: string, user: nat, csrf: nat, stamp: Option<int>, created: int, now: int)
      modifies store
      ensures store.rows ==
        RowsAfter(old(store.rows), PutNew(key, Other(Record(user, csrf, created, stamp)), SESSION_IDLE), now)
      ensures key !in old(store.rows) ==>
        store.rows == old(store.rows)[key := Entry(Other(Record(user, csrf, created, stamp)), now + 43_200)]
    {
      var _ := store.Put(key, Other(Record(user, csrf, created, stamp)), SESSION_IDLE, now);
    }

    /** Succeeds exactly for a live session young enough whose user is active, and then extends it. */
    method Load(key: string, active: set<nat>, readAt: int, checkedAt: int, writtenAt: int)
      returns (session: Option<Session>)
      requires IsLive(store.rows, key, readAt) ==> store.rows[key].value.Other?
      requires readAt <= checkedAt <= writtenAt
      modifies store
      ensures session.Some? <==>
        && IsLive(old(store.rows), key, writtenAt)
        && checkedAt - old(store.rows)[key].value.value.created <= SESSION_LIFETIME
        && old(store.rows)[key].value.value.user in active
      ensures session.Some? ==>
        && session.value == SessionOf(old(store.rows)[key].value.value)
        && store.rows == RowsAfter(old(store.rows), Replace(key, old(store.rows)[key].value, SESSION_IDLE), writtenAt)
      ensures session.None? ==> store.rows == old(store.rows) || store.rows == old(store.rows) - {key}
      ensures var was := old(store.rows);
        session.Some? <==>
          && key in was && writtenAt < was[key].expires
          && checkedAt - was[key].value.value.created <= 604_800 && was[key].value.value.user in active
      ensures var was := old(store.rows);
        session.Some? ==> store.rows == was[key := Entry(was[key].value, writtenAt + 43_200)]
      ensures var was := old(store.rows);
        && (key in was && writtenAt < was[key].expires && session.None? ==> store.rows == was - {key})
        && (key in was && readAt < was[key].expires && checkedAt - was[key].value.value.created > 604_800 ==>
              store.rows == was - {key})
        && (key !in was || was[key].expires <= readAt ==> store.rows == was)
    {
      var found := store.Get(key, readAt);
      if found.None? {
        return None;
      }
      var record := found.value.value;
      if checkedAt - record.created > SESSION_LIFETIME {
        store.Drop(key);
        assert store.rows == RowsAfter(old(store.rows), Discard(key), checkedAt);
        return None;
      }
      var extended := store.Overwrite(key, found.value, SESSION_IDLE, writtenAt);
      if !extended {
        return None;
      }
      if record.user !in active {
        ghost var kept := store.rows;
        store.Drop(key);
        assert store.rows == RowsAfter(kept, Discard(key), writtenAt);
        return None;
      }
      return Some(SessionOf(record));
    }

    method MarkStepUpVerified(key: string, readAt: int, stampedAt: int, writtenAt: int) returns (marked: bool)
      requires IsLive(store.rows, key, readAt) ==> store.rows[key].value.Other?
      requires readAt <= stampedAt <= writtenAt
      modifies store
      ensures marked <==> IsLive(old(store.rows), key, writtenAt)
      ensures marked <==> key in old(store.rows) && writtenAt < old(store.rows)[key].expires
      ensures store.rows == if !marked then old(store.rows)
        else old(store.rows)[key :=
          Entry(Other(old(store.rows)[key].value.value.(stamp := Some(stampedAt))), writtenAt + 43_200)]
    {
      var found := store.Get(key, readAt);
      if found.None? {
        return false;
      }
      var record := found.value.value.(stamp := Some(stampedAt));
      marked := store.Overwrite(key, Other(record), SESSION_IDLE, writtenAt);
    }

    method Destroy(key: Option<string>)
      modifies store
      ensures store.rows == if key.Some? then old(store.rows) - {key.value} else old(store.rows)
    {
      if key.Some? {
        store.Drop(key.value);
        assert store.rows == RowsAfter(old(store.rows), Discard(key.value), 0);
      }
    }
  }

  /** Tokens spent on first use; `hash` stands for the hash of the random token. */
  class OneTimeTokens {
    const store: Ephemeral.EphemeralStore<string>

    constructor (store: Ephemeral.EphemeralStore<string>)
      ensures this.store == store
    {
      this.store := store;
    }

    method Issue(purpose: string, hash: string, payload: string, ttl: int, now: int)
      modifies store
      ensures store.rows == RowsAfter(old(store.rows), PutNew(purpose + ":" + hash, Other(payload), ttl), now)
    {
      var _ := store.Put(purpose + ":" + hash, Other(payload), ttl, now);
    }

    method Consume(purpose: string, hash: Option<string>, now: int) returns (payload: Option<Value<string>>)
      modifies store
      ensures hash.None? ==> payload == None && store.rows == old(store.rows)
      ensures hash.Some? ==> var op := Take(purpose + ":" + hash.value);
        Found(payload) == AnswerTo(old(store.rows), op, now) && store.rows == RowsAfter(old(store.rows), op, now)
      ensures hash.Some? ==> var key, was := purpose + ":" + hash.value, old(store.rows);
        && payload == (if key in was && now < was[key].expires then Some(was[key].value) else None)
        && store.rows == if payload.Some? then was - {key} else was
    {
      if hash.None? {
        return None;
      }
      payload := store.Spend(purpose + ":" + hash.value, now);
    }

    method Peek(purpose: string, hash: Option<string>, now: int) returns (payload: Option<Value<string>>)
      ensures payload == if hash.None? then None else AnswerTo(store.rows, Read(purpose + ":" + hash.value), now).found
    {
      if hash.None? {
        return None;
      }
      payload := store.Get(purpose + ":" + hash.value, now);
    }
  }

  // ------------------------------------------------------------------ requests at once

  /** A request between its statements. */
  datatype Request =
    | Loading(key: string, record: Record, readAt: int)
    | Expelling(key: string)                              // too old, or the user is gone
    | Extending(key: string, record: Record, readAt: int)
    | Admitting(key: string, record: Record, readAt: int) // extended; the user is looked up
    | Marking(key: string, record: Record)
    | Marked(key: string, record: Record)                 // stamped, not yet written

  /** A load that succeeded: what it read, when, and when it was answered. */
  datatype Loaded = Loaded(key: string, record: Record, readAt: int, at: int)

  /** How a key began, and every stamp that a mint or a mark set for it. */
  datatype Origin = Origin(created: int, stamps: set<Option<int>>)

  datatype State = State(
    now: int,
    rows: Rows<Record>,
    requests: map<nat, Request>,
    minted: map<string, Origin>,
    loads: seq<Loaded>)

  datatype Step =
    | Tick(to: int)
    | Sweeps
    | Mint(key: string, user: nat, csrf: nat, stamp: Option<int>)
    | Destroy(key: string)
    | LoadReads(id: nat, key: string)
    | LoadChecks(id: nat)
    | LoadExtends(id: nat)
    | LoadExpels(id: nat)
    | LoadAnswers(id: nat, active: bool)
    | MarkReads(id: nat, key: string)
    | MarkStamps(id: nat)
    | MarkWrites(id: nat)

  predicate Enabled(s: State, a: Step) {
    match a
    case Tick(to) => s.now <= to
    case Sweeps => true
    case Mint(key, _, _, _) => key !in s.minted              // a fresh random cookie
    case Destroy(_) => true
    case LoadReads(id, _) => id !in s.requests
    case MarkReads(id, _) => id !in s.requests
    case LoadChecks(id) => id in s.requests && s.requests[id].Loading?
    case LoadExtends(id) => id in s.requests && s.requests[id].Extending?
    case LoadExpels(id) => id in s.requests && s.requests[id].Expelling?
    case LoadAnswers(id, _) => id in s.requests && s.requests[id].Admitting?
    case MarkStamps(id) => id in s.requests && s.requests[id].Marking?
    case MarkWrites(id) => id in s.requests && s.requests[id].Marked?
  }

  function Stored(s: State, key: string): Option<Record> {
    if IsLive(s.rows, key, s.now) && s.rows[key].value.Other? then Some(s.rows[key].value.value) else None
  }

  function After(s: State, op: Op<Record>): State {
    s.(rows := RowsAfter(s.rows, op, s.now))
  }

  function Next(s: State, a: Step): State
    requires Enabled(s, a)
  {
    match a
    case Tick(to) => s.(now := to)
    case Sweeps => After(s, Sweep)
    case Mint(key, user, csrf, stamp) =>
      After(s, PutNew(key, Other(Record(user, csrf, s.now, stamp)), SESSION_IDLE))
        .(minted := s.minted[key := Origin(s.now, {stamp})])
    case Destroy(key) => After(s, Discard(key))
    case LoadReads(id, key) =>
      if Stored(s, key).None? then s else s.(requests := s.requests[id := Loading(key, Stored(s, key).value, s.now)])
    case LoadChecks(id) =>
      var r := s.requests[id];
      var next := if s.now - r.record.created > SESSION_LIFETIME then Expelling(r.key)
                  else Extending(r.key, r.record, r.readAt);
      s.(requests := s.requests[id := next])
    case LoadExpels(id) => After(s, Discard(s.requests[id].key)).(requests := s.requests - {id})
    case LoadExtends(id) =>
      var r := s.requests[id];
      if IsLive(s.rows, r.key, s.now)
      then
        After(s, Replace(r.key, Other(r.record), SESSION_IDLE))
          .(requests := s.requests[id := Admitting(r.key, r.record, r.readAt)])
      else s.(requests := s.requests - {id})
    case LoadAnswers(id, active) =>
      var r := s.requests[id];
      if active then s.(requests := s.requests - {id}, loads := s.loads + [Loaded(r.key, r.record, r.readAt, s.now)])
      else s.(requests := s.requests[id := Expelling(r.key)])
    case MarkReads(id, key) =>
      if Stored(s, key).None? then s else s.(requests := s.requests[id := Marking(key, Stored(s, key).value)])
    case MarkStamps(id) =>
      var r := s.requests[id];
      s.(requests := s.requests[id := Marked(r.key, r.record.(stamp := Some(s.now)))],
         minted :=
           if r.key in s.minted then
             s.minted[r.key := s.minted[r.key].(stamps := s.minted[r.key].stamps + {Some(s.now)})]
           else s.minted)
    case MarkWrites(id) =>
      After(s, Replace(s.requests[id].key, Other(s.requests[id].record), SESSION_IDLE)).(requests := s.requests - {id})
  }

  ghost predicate Run(states: seq<State>, steps: seq<Step>) {
    && |states| == |steps| + 1
    && states[0].rows == map[] && states[0].requests == map[] && states[0].minted == map[] && states[0].loads == []
    && (forall n :: 0 <= n < |steps| ==> Enabled(states[n], steps[n]) && states[n + 1] == Next(states[n], steps[n]))
  }

  // ------------------------------------------------------- the steps, one after the other

  /** The steps of one load at the three times it looks at a clock, with nothing in between. */
  function QuietLoad(s: State, id: nat, key: string, checkedAt: int, writtenAt: int, active: bool): State
    requires id !in s.requests && s.now <= checkedAt <= writtenAt
  {
    var read := Next(s, LoadReads(id, key));
    if id !in read.requests then read
    else
      var checked := Next(Next(read, Tick(checkedAt)), LoadChecks(id));
      if checked.requests[id].Expelling? then Next(checked, LoadExpels(id))
      else Extended(Next(checked, Tick(writtenAt)), id, active)
  }

  /** From the extension on. */
  function Extended(s: State, id: nat, active: bool): State
    requires id in s.requests && s.requests[id].Extending?
  {
    var extended := Next(s, LoadExtends(id));
    if id !in extended.requests then extended
    else
      var answered := Next(extended, LoadAnswers(id, active));
      if id in answered.requests then Next(answered, LoadExpels(id)) else answered
  }

  lemma ExtendedIs(s: State, id: nat, key: string, record: Record, readAt: int, active: bool)
    requires id in s.requests && s.requests[id] == Extending(key, record, readAt)
    ensures var r, live := Extended(s, id, active), key in s.rows && s.now < s.rows[key].expires;
      && r.minted == s.minted && r.requests == s.requests - {id}
      && r.rows == (if !live then s.rows
                    else if active then s.rows[key := Entry(Other(record), s.now + 43_200)] else s.rows - {key})
      && r.loads == if live && active then s.loads + [Loaded(key, record, readAt, s.now)] else s.loads
  {
    var r := Extended(s, id, active);
    assert r.requests == s.requests - {id};
    if key in s.rows && s.now < s.rows[key].expires && !active {
      assert s.rows[key := Entry(Other(record), s.now + 43_200)] - {key} == s.rows - {key};
    }
  }

  /** They do what `BrowserSessions.Load` does to the store, and answer what it answers. */
  lemma QuietLoadIsLoad(s: State, id: nat, key: string, checkedAt: int, writtenAt: int, active: bool)
    requires id !in s.requests && s.now <= checkedAt <= writtenAt
    requires key in s.rows ==> s.rows[key].value.Other?
    ensures var r, was := QuietLoad(s, id, key, checkedAt, writtenAt, active), s.rows;
      var fits := key in was && writtenAt < was[key].expires && active
                  && checkedAt - was[key].value.value.created <= 604_800;
      && r.requests == s.requests && r.minted == s.minted
      && r.loads == (if fits then s.loads + [Loaded(key, was[key].value.value, s.now, writtenAt)] else s.loads)
      && (fits ==> r.rows == was[key := Entry(was[key].value, writtenAt + 43_200)])
      && (key in was && writtenAt < was[key].expires && !fits ==> r.rows == was - {key})
      && (key in was && s.now < was[key].expires && checkedAt - was[key].value.value.created > 604_800 ==>
            r.rows == was - {key})
      && (key !in was || was[key].expires <= s.now ==> r.rows == was)
      && (r.rows != was && !fits ==> r.rows == was - {key})
  {
    hide Extended;
    if key in s.rows && s.now < s.rows[key].expires {
      var record := s.rows[key].value.value;
      var checked := Next(Next(Next(s, LoadReads(id, key)), Tick(checkedAt)), LoadChecks(id));
      if checkedAt - record.created > 604_800 {
        assert checked.requests == s.requests[id := Expelling(key)];
        assert s.requests[id := Expelling(key)] - {id} == s.requests;
      } else {
        assert checked.requests == s.requests[id := Extending(key, record, s.now)];
        assert s.requests[id := Extending(key, record, s.now)] - {id} == s.requests;
        ExtendedIs(Next(checked, Tick(writtenAt)), id, key, record, s.now, active);
      }
    }
  }

  function QuietMark(s: State, id: nat, key: string, stampedAt: int, writtenAt: int): State
    requires id !in s.requests && s.now <= stampedAt <= writtenAt
  {
    var read := Next(s, MarkReads(id, key));
    if id !in read.requests then read
    else Next(Next(Next(Next(read, Tick(stampedAt)), MarkStamps(id)), Tick(writtenAt)), MarkWrites(id))
  }

  /** And the steps of a mark do what `BrowserSessions.MarkStepUpVerified` does. */
  lemma QuietMarkIsMark(s: State, id: nat, key: string, stampedAt: int, writtenAt: int)
    requires id !in s.requests && s.now <= stampedAt <= writtenAt
    requires key in s.rows ==> s.rows[key].value.Other?
    ensures var r, was := QuietMark(s, id, key, stampedAt, writtenAt), s.rows;
      && r.requests == s.requests && r.loads == s.loads
      && r.rows ==
           if key in was && writtenAt < was[key].expires then
             was[key := Entry(Other(was[key].value.value.(stamp := Some(stampedAt))), writtenAt + 43_200)]
           else was
  {
    assert QuietMark(s, id, key, stampedAt, writtenAt).requests == s.requests;
  }

  // -------------------------------------------------------------------- the invariant

  /** A record of the key: minted with it, stamped by a mint or a mark of it. */
  predicate Genuine(s: State, key: string, record: Record) {
    key in s.minted && record.created == s.minted[key].created && record.stamp in s.minted[key].stamps
  }

  predicate RowOk(s: State, key: string)
    requires key in s.rows
  {
    && s.rows[key].value.Other?
    && Genuine(s, key, s.rows[key].value.value)
  }

  predicate RequestOk(s: State, r: Request) {
    match r
    case Expelling(_) => true
    case Loading(key, record, readAt) => Genuine(s, key, record) && readAt <= s.now
    case Extending(key, record, readAt) =>
      Genuine(s, key, record) && readAt <= s.now && readAt - record.created <= SESSION_LIFETIME
    case Admitting(key, record, readAt) =>
      Genuine(s, key, record) && readAt <= s.now && readAt - record.created <= SESSION_LIFETIME
    case Marking(key, record) => Genuine(s, key, record)
    case Marked(key, record) => Genuine(s, key, record)
  }

  predicate LoadOk(s: State, l: Loaded) {
    Genuine(s, l.key, l.record) && l.readAt - l.record.created <= SESSION_LIFETIME
  }

  ghost predicate Inv(s: State) {
    && (forall key :: key in s.rows ==> RowOk(s, key))
    && (forall id :: id in s.requests ==> RequestOk(s, s.requests[id]))
    && (forall n :: 0 <= n < |s.loads| ==> LoadOk(s, s.loads[n]))
  }

  /** What was genuine stays so: origins are never rewritten and stamps only added. */
  lemma GenuineStays(s: State, a: Step, key: string, record: Record)
    requires Enabled(s, a) && Genuine(s, key, record)
    ensures Genuine(Next(s, a), key, record)
  {
  }

  lemma RowsStayOk(s: State, a: Step)
    requires Inv(s) && Enabled(s, a)
    ensures forall key :: key in Next(s, a).rows ==> RowOk(Next(s, a), key)
  {
    var r := Next(s, a);
    forall key | key in r.rows ensures RowOk(r, key) {
      if key in s.rows && r.rows[key].value == s.rows[key].value {
        GenuineStays(s, a, key, s.rows[key].value.value);
      } else if a.LoadExtends? || a.MarkWrites? {
        assert RequestOk(s, s.requests[a.id]);
      }
    }
  }

  lemma RequestsStayOk(s: State, a: Step)
    requires Inv(s) && Enabled(s, a)
    ensures forall id :: id in Next(s, a).requests ==> RequestOk(Next(s, a), Next(s, a).requests[id])
  {
    var r := Next(s, a);
    forall id | id in r.requests ensures RequestOk(r, r.requests[id]) {
      if id in s.requests {
        assert RequestOk(s, s.requests[id]);
        if !s.requests[id].Expelling? {
          GenuineStays(s, a, s.requests[id].key, s.requests[id].record);
        }
      } else {
        assert RowOk(s, a.key);
      }
    }
  }

  lemma LoadsStayOk(s: State, a: Step)
    requires Inv(s) && Enabled(s, a)
    ensures forall n :: 0 <= n < |Next(s, a).loads| ==> LoadOk(Next(s, a), Next(s, a).loads[n])
  {
    var r := Next(s, a);
    forall n | 0 <= n < |r.loads| ensures LoadOk(r, r.loads[n]) {
      if n < |s.loads| {
        assert LoadOk(s, s.loads[n]);
        GenuineStays(s, a, s.loads[n].key, s.loads[n].record);
      } else {
        assert RequestOk(s, s.requests[a.id]);
      }
    }
  }

  lemma StepOfRun(states: seq<State>, steps: seq<Step>, k: nat)
    requires Run(states, steps) && k < |steps|
    ensures k + 1 < |states| && Enabled(states[k], steps[k]) && states[k + 1] == Next(states[k], steps[k])
  {
    hide Enabled, Next;
  }

  lemma StartOfRun(states: seq<State>, steps: seq<Step>)
    requires Run(states, steps)
    ensures |states| == |steps| + 1 && Inv(states[0])
  {
    hide Enabled, Next;
  }

  lemma {:induction false} RunKeepsInv(states: seq<State>, steps: seq<Step>, n: nat)
    requires Run(states, steps) && n < |states|
    ensures Inv(states[n])
  {
    hide Run, Enabled, Next, RowOk, RequestOk, LoadOk;
    StartOfRun(states, steps);
    if n > 0 {
      RunKeepsInv(states, steps, n - 1);
      StepOfRun(states, steps, n - 1);
      RowsStayOk(states[n - 1], steps[n - 1]);
      RequestsStayOk(states[n - 1], steps[n - 1]);
      LoadsStayOk(states[n - 1], steps[n - 1]);
    }
  }

  lemma OriginStays(s: State, a: Step, key: string)
    requires Enabled(s, a) && key in s.minted
    ensures key in Next(s, a).minted && Next(s, a).minted[key].created == s.minted[key].created
    ensures s.now <= Next(s, a).now
  {
  }

  lemma {:induction false} OriginsLast(states: seq<State>, steps: seq<Step>, n: nat, m: nat, key: string)
    requires Run(states, steps) && n <= m < |states| && key in states[n].minted
    ensures key in states[m].minted && states[m].minted[key].created == states[n].minted[key].created
    ensures states[n].now <= states[m].now
    decreases m
  {
    hide Run, Enabled, Next, Inv;
    StartOfRun(states, steps);
    if n < m {
      OriginsLast(states, steps, n, m - 1, key);
      StepOfRun(states, steps, m - 1);
      OriginStays(states[m - 1], steps[m - 1], key);
    }
  }

  // -------------------------------------------------------------------- the theorems

  predicate SessionLive(s: State, key: string) {
    IsLive(s.rows, key, s.now)
  }

  lemma DeadStaysDead(s: State, a: Step, key: string)
    requires Enabled(s, a) && key in s.minted && !SessionLive(s, key)
    ensures !SessionLive(Next(s, a), key)
  {
  }

  /** A session destroyed, expelled or left to expire is never live again, whatever is still in flight. */
  lemma {:induction false} EndedSessionsStayEnded(states: seq<State>, steps: seq<Step>, n: nat, m: nat, key: string)
    requires Run(states, steps) && n <= m < |states|
    requires key in states[n].minted && !SessionLive(states[n], key)
    ensures !SessionLive(states[m], key)
    decreases m
  {
    hide Run, Enabled, Next, Inv, SessionLive;
    StartOfRun(states, steps);
    if n < m {
      EndedSessionsStayEnded(states, steps, n, m - 1, key);
      OriginsLast(states, steps, n, m - 1, key);
      StepOfRun(states, steps, m - 1);
      DeadStaysDead(states[m - 1], steps[m - 1], key);
    }
  }

  /** So a destroyed session is gone at once and for good. */
  lemma DestroyedStaysDestroyed(states: seq<State>, steps: seq<Step>, n: nat, m: nat, key: string)
    requires Run(states, steps) && n < m < |states|
    requires steps[n] == Destroy(key) && key in states[n].minted
    ensures !SessionLive(states[m], key)
  {
    assert states[n + 1] == Next(states[n], steps[n]);
    EndedSessionsStayEnded(states, steps, n + 1, m, key);
  }

  /**
   Every load that ever succeeded read its session no later than its lifetime after it
   was minted, and read a stamp that a mint or a mark of that session set. What a live
   session stores is of the same kind, and when it was created never changes.
   */
  lemma LoadsAreHonest(states: seq<State>, steps: seq<Step>, n: nat)
    requires Run(states, steps) && n < |states|
    ensures forall k :: 0 <= k < |states[n].loads| ==>
      var l := states[n].loads[k];
      && Genuine(states[n], l.key, l.record)
      && l.readAt - states[n].minted[l.key].created <= 604_800
    ensures forall key :: key in states[n].rows ==>
      states[n].rows[key].value.Other? && Genuine(states[n], key, states[n].rows[key].value.value)
  {
    RunKeepsInv(states, steps, n);
    forall key | key in states[n].rows
      ensures states[n].rows[key].value.Other? && Genuine(states[n], key, states[n].rows[key].value.value)
    {
      assert RowOk(states[n], key);
    }
    forall k | 0 <= k < |states[n].loads|
      ensures Genuine(states[n], states[n].loads[k].key, states[n].loads[k].record)
              && states[n].loads[k].readAt - states[n].minted[states[n].loads[k].key].created <= SESSION_LIFETIME
    {
      assert LoadOk(states[n], states[n].loads[k]);
    }
  }

  lemma CreatedNeverChanges(states: seq<State>, steps: seq<Step>, n: nat, m: nat, key: string)
    requires Run(states, steps) && n <= m < |states|
    requires key in states[n].rows && key in states[m].rows
    ensures states[n].rows[key].value.Other? && states[m].rows[key].value.Other?
    ensures states[n].rows[key].value.value.created == states[m].rows[key].value.value.created
  {
    LoadsAreHonest(states, steps, n);
    LoadsAreHonest(states, steps, m);
    OriginsLast(states, steps, n, m, key);
  }

  // ------------------------------------------------------------------ the lost stamp

  /** A load that has read the session and not written it back yet. */
  predicate InFlight(s: State, id: nat, key: string) {
    id in s.requests && (s.requests[id].Loading? || s.requests[id].Extending?) && s.requests[id].key == key
  }

  /** Such a load that read something else than the record. */
  predicate Stale(s: State, id: nat, key: string, record: Record) {
    InFlight(s, id, key) && s.requests[id].record != record
  }

  ghost predicate InFlightThrough(states: seq<State>, n: nat, m: nat, id: nat, key: string)
    requires n <= m < |states|
  {
    forall k :: n <= k <= m ==> InFlight(states[k], id, key)
  }

  ghost predicate NoMarkFrom(states: seq<State>, steps: seq<Step>, n: nat, key: string)
    requires |states| == |steps| + 1
  {
    forall k :: n <= k < |steps| && steps[k].MarkWrites? && steps[k].id in states[k].requests ==>
      states[k].requests[steps[k].id].key != key
  }

  /** The session is live with the record, or it is not live at all. */
  predicate Keeps(s: State, key: string, record: Record) {
    SessionLive(s, key) ==> s.rows[key].value == Other(record)
  }

  /** A load in flight at `n` that read something else extends the live session at `m`. */
  ghost predicate WritesBack(states: seq<State>, steps: seq<Step>, n: nat, m: nat, id: nat, key: string, record: Record)
    requires |states| == |steps| + 1 && n <= m < |steps|
  {
    && Stale(states[n], id, key, record)
    && InFlightThrough(states, n, m, id, key)
    && steps[m] == LoadExtends(id)
    && SessionLive(states[m], key)
  }

  lemma SameRecord(s: State, a: Step, id: nat, key: string)
    requires Enabled(s, a) && InFlight(s, id, key) && InFlight(Next(s, a), id, key)
    ensures Next(s, a).requests[id].record == s.requests[id].record
  {
    hide RowsAfter;
  }

  lemma Through(states: seq<State>, n: nat, m: nat, k: nat, id: nat, key: string)
    requires n <= k <= m < |states| && InFlightThrough(states, n, m, id, key)
    ensures InFlight(states[k], id, key) && InFlightThrough(states, n, k, id, key)
  {
    hide InFlight;
  }

  lemma {:induction false} RecordTravels(states: seq<State>, steps: seq<Step>, n: nat, m: nat, id: nat, key: string)
    requires Run(states, steps) && n <= m < |states| && InFlightThrough(states, n, m, id, key)
    ensures InFlight(states[n], id, key) && InFlight(states[m], id, key)
    ensures states[m].requests[id].record == states[n].requests[id].record
    decreases m
  {
    hide InFlightThrough, Run, Enabled, Next, Inv;
    StartOfRun(states, steps);
    Through(states, n, m, m, id, key);
    if n < m {
      Through(states, n, m, m - 1, id, key);
      RecordTravels(states, steps, n, m - 1, id, key);
      StepOfRun(states, steps, m - 1);
      SameRecord(states[m - 1], steps[m - 1], id, key);
    }
  }

  /** Every load that is stale now was stale when the record was written. */
  ghost predicate StaleSince(states: seq<State>, n: nat, m: nat, key: string, record: Record)
    requires n <= m < |states|
  {
    forall id :: Stale(states[m], id, key, record) ==>
      Stale(states[n], id, key, record) && InFlightThrough(states, n, m, id, key)
  }

  lemma StepKeepsRecord(s: State, a: Step, key: string, record: Record)
    requires Inv(s) && Enabled(s, a) && key in s.minted && Keeps(s, key, record)
    requires a.MarkWrites? ==> s.requests[a.id].key != key
    requires a.LoadExtends? ==> !(Stale(s, a.id, key, record) && SessionLive(s, key))
    ensures Keeps(Next(s, a), key, record)
    ensures forall id :: Stale(Next(s, a), id, key, record) ==> Stale(s, id, key, record)
  {
  }

  ghost predicate NoneWritesBack(states: seq<State>, steps: seq<Step>, n: nat, m: nat, key: string, record: Record)
    requires |states| == |steps| + 1 && n <= m <= |steps|
  {
    forall k, id :: n <= k < m ==> !WritesBack(states, steps, n, k, id, key, record)
  }

  lemma StepKeepsStaleSince(states: seq<State>, n: nat, m: nat, key: string, record: Record)
    requires n < m < |states| && StaleSince(states, n, m - 1, key, record)
    requires forall id :: Stale(states[m], id, key, record) ==> Stale(states[m - 1], id, key, record)
    ensures StaleSince(states, n, m, key, record)
  {
    forall id | Stale(states[m], id, key, record)
      ensures Stale(states[n], id, key, record) && InFlightThrough(states, n, m, id, key)
    {
      assert Stale(states[m - 1], id, key, record);
      assert InFlight(states[m], id, key);
    }
  }

  /** The step that might write something older back does not. */
  lemma MayStep(states: seq<State>, steps: seq<Step>, n: nat, m: nat, key: string, record: Record)
    requires |states| == |steps| + 1 && n <= m < |steps| && Enabled(states[m], steps[m])
    requires NoMarkFrom(states, steps, n, key) && NoneWritesBack(states, steps, n, m + 1, key, record)
    requires StaleSince(states, n, m, key, record)
    ensures steps[m].MarkWrites? ==> states[m].requests[steps[m].id].key != key
    ensures steps[m].LoadExtends? ==> !(Stale(states[m], steps[m].id, key, record) && SessionLive(states[m], key))
  {
    hide InFlightThrough, Stale, SessionLive;
    if steps[m].LoadExtends? {
      assert !WritesBack(states, steps, n, m, steps[m].id, key, record);
    }
  }

  lemma StaleNow(states: seq<State>, n: nat, key: string, record: Record)
    requires n < |states|
    ensures StaleSince(states, n, n, key, record)
  {
  }

  lemma NoneBefore(states: seq<State>, steps: seq<Step>, n: nat, m: nat, key: string, record: Record)
    requires |states| == |steps| + 1 && n < m <= |steps| && NoneWritesBack(states, steps, n, m, key, record)
    ensures NoneWritesBack(states, steps, n, m - 1, key, record)
  {
    hide WritesBack;
  }

  lemma {:induction false} RecordStays(states: seq<State>, steps: seq<Step>, n: nat, m: nat, key: string,
      record: Record)
    requires Run(states, steps) && n <= m < |states|
    requires key in states[n].minted && Keeps(states[n], key, record) && NoMarkFrom(states, steps, n, key)
    requires NoneWritesBack(states, steps, n, m, key, record)
    ensures Keeps(states[m], key, record) && StaleSince(states, n, m, key, record)
    decreases m
  {
    hide Run, Keeps, NoMarkFrom, Enabled, Next, Inv, NoneWritesBack, StaleSince, Stale, SessionLive;
    StartOfRun(states, steps);
    if n == m {
      StaleNow(states, n, key, record);
    } else {
      NoneBefore(states, steps, n, m, key, record);
      RecordStays(states, steps, n, m - 1, key, record);
      RunKeepsInv(states, steps, m - 1);
      OriginsLast(states, steps, n, m - 1, key);
      StepOfRun(states, steps, m - 1);
      MayStep(states, steps, n, m - 1, key, record);
      StepKeepsRecord(states[m - 1], steps[m - 1], key, record);
      StepKeepsStaleSince(states, n, m, key, record);
    }
  }

  /**
   After a mark wrote its record, and until another mark writes, the session keeps the
   new stamp for as long as it lives exactly when no load that had read the session
   before then extends it afterwards. Otherwise the older stamp comes back.
   */
  lemma StampKeptExactlyWhen(states: seq<State>, steps: seq<Step>, n: nat, key: string, record: Record)
    requires Run(states, steps) && n < |states|
    requires SessionLive(states[n], key) && Keeps(states[n], key, record) && NoMarkFrom(states, steps, n, key)
    ensures (forall m :: n <= m < |states| ==> Keeps(states[m], key, record))
       <==> !(exists m, id :: n <= m < |steps| && WritesBack(states, steps, n, m, id, key, record))
  {
    LoadsAreHonest(states, steps, n);
    if m, id :| n <= m < |steps| && WritesBack(states, steps, n, m, id, key, record) {
      RecordTravels(states, steps, n, m, id, key);
      assert states[m + 1] == Next(states[m], steps[m]);
      assert !Keeps(states[m + 1], key, record);
    } else {
      forall m | n <= m < |states| ensures Keeps(states[m], key, record) {
        RecordStays(states, steps, n, m, key, record);
      }
    }
  }

  /** A load and a mark of one session, both between reading and writing. */
  predicate Overlap(s: State, load: nat, mark: nat, key: string, read: Record, marked: Record) {
    && load in s.requests && s.requests[load].Loading? && s.requests[load].key == key && s.requests[load].record == read
    && mark in s.requests && s.requests[mark] == Marked(key, marked) && load != mark
    && SessionLive(s, key) && s.now - read.created <= SESSION_LIFETIME
  }

  /** Any live session of a quiet server gets there. */
  lemma OverlapHappens(s: State, load: nat, mark: nat, key: string, record: Record, at: int)
    requires Stored(s, key) == Some(record) && s.requests == map[] && load != mark
    requires s.now <= at < s.rows[key].expires && at - record.created <= SESSION_LIFETIME
    ensures var read := Next(Next(Next(s, LoadReads(load, key)), MarkReads(mark, key)), Tick(at));
      Enabled(read, MarkStamps(mark)) &&
        Overlap(Next(read, MarkStamps(mark)), load, mark, key, record, record.(stamp := Some(at)))
  {
    var read := Next(Next(Next(s, LoadReads(load, key)), MarkReads(mark, key)), Tick(at));
    assert read.requests == map[load := Loading(key, record, s.now), mark := Marking(key, record)];
    hide RowsAfter;
  }

  /** And if the mark then writes first, the load brings what it read back. */
  lemma LoadLosesStamp(s: State, load: nat, mark: nat, key: string, read: Record, marked: Record)
    requires Overlap(s, load, mark, key, read, marked)
    ensures var written := Next(s, MarkWrites(mark));
      && Stored(written, key) == Some(marked)
      && Enabled(written, LoadChecks(load))
      && Enabled(Next(written, LoadChecks(load)), LoadExtends(load))
      && Stored(Next(Next(written, LoadChecks(load)), LoadExtends(load)), key) == Some(read)
  {
    LoadIsStored(Next(s, MarkWrites(mark)), load, key, read);
  }

  lemma LoadIsStored(s: State, id: nat, key: string, record: Record)
    requires id in s.requests && s.requests[id].Loading? && s.requests[id].key == key && s.requests[id].record == record
    requires SessionLive(s, key) && s.now - record.created <= SESSION_LIFETIME
    ensures Stored(Next(Next(s, LoadChecks(id)), LoadExtends(id)), key) == Some(record)
  {
  }
}
