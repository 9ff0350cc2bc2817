/**
 One document's retry loop and the proxy session a lane keeps across documents.

 What the outside does to an attempt (opening a session, the lookup, closing the
 session, the other lanes that record on the same breaker) is given as data. Times
 are readings of the process clock.
 */
module Fetch {
  import opened Basics
  import opened Breaker

  const MAX_ATTEMPTS: nat := 4

  datatype Status = Ok | NotFound | Failed

  /** The exception classes the retry policy tells apart. */
  datatype Fault = BanSignal | UpstreamNotReady | Parse | ProviderSchema | Transport | OtherFetch | Unforeseen

  function ErrorCode(fault: Fault): string {
    match fault
    case BanSignal => "ban_signal"
    case UpstreamNotReady => "upstream_not_ready"
    case Parse => "parse_error"
    case ProviderSchema => "provider_schema_error"
    case Transport => "transport_error"
    case OtherFetch => "provider_error"
    case Unforeseen => "unknown_error"
  }

  function CooldownFor(fault: Fault, cfg: Config): real {
    if fault.BanSignal? then cfg.banCooldown else 0.0
  }

  datatype Config = Config(sessionBudget: int, banCooldown: real)

  datatype Site = Site(name: string, allowsEmpty: bool)

  datatype Session = Session(id: string, proxy: string)

  datatype AttemptOutcome = AttemptOutcome(attempt: nat, status: Status, errorCode: string)

  datatype FetchResult = FetchResult(
    site: string,
    doc: string,
    status: Status,
    rows: seq<string>,
    errorCode: string,
    healthy: bool,
    session: string,
    proxy: string,
    attempt: nat,
    attempts: seq<AttemptOutcome>)

  // ------------------------------------------------------------- the outside's part

  datatype Opening =
    | Opens(session: Session)
    | NoProxy(fault: Fault)                          // no session could be had at all
    | Unbuilt(fault: Fault)                          // had, but no client could be built for it
    | Unusable(fault: Fault, closeRaises: bool)      // had, but the site or the egress check failed

  datatype Lookup = Finds(rows: seq<string>) | Misses | Raises(fault: Fault)

  datatype Closing = Closes | ReleaseRaises | ClientRaises

  /** `opening` matters only without a session, `closing` only if one gets closed. */
  datatype Try = Try(
    opening: Opening,
    lookup: Lookup,
    closing: Closing,
    earlier: seq<Outcome>,   // what other lanes record before this attempt records
    later: seq<Outcome>,     // and before the attempt is over
    started: real,           // when a session was asked for
    ended: real,
    closed: real)

  /** A client is built for every session, and none fails to close. */
  predicate Clean(t: Try) {
    !t.closing.ClientRaises? && !t.opening.Unbuilt? && !(t.opening.Unusable? && t.opening.closeRaises)
  }

  ghost predicate AllClean(tries: nat -> Try) {
    forall n :: Clean(tries(n))
  }

  /** How an attempt ends for the loop. */
  datatype Ending = Completed(status: Status, rows: seq<string>) | Faulted(fault: Fault)

  function OpeningFault(opening: Opening): Fault
    requires !opening.Opens?
  {
    if opening.Unusable? && opening.closeRaises then Unforeseen else opening.fault
  }

  function EndingOf(t: Try, held: bool, site: Site): Ending {
    if !held && !t.opening.Opens? then Faulted(OpeningFault(t.opening))
    else
      match t.lookup
      case Finds(rows) => if rows != [] || site.allowsEmpty then Completed(Ok, rows) else Faulted(ProviderSchema)
      case Misses => Completed(NotFound, [])
      case Raises(fault) => Faulted(fault)
  }

  /** The attempt has a session, held or opened, and its lookup finds rows or an empty answer the site allows. */
  predicate Answers(t: Try, held: bool, site: Site) {
    (held || t.opening.Opens?) && t.lookup.Finds? && (t.lookup.rows != [] || site.allowsEmpty)
  }

  /** The attempt has a session and its lookup says that there is no such document. */
  predicate Denies(t: Try, held: bool) {
    (held || t.opening.Opens?) && t.lookup.Misses?
  }

  /** What raised in an attempt that neither answers nor denies. */
  predicate FailsWith(t: Try, held: bool, fault: Fault) {
    && (!held && t.opening.Unusable? && t.opening.closeRaises ==> fault == Unforeseen)
    && (!held && t.opening.Unusable? && !t.opening.closeRaises ==> fault == t.opening.fault)
    && (!held && (t.opening.NoProxy? || t.opening.Unbuilt?) ==> fault == t.opening.fault)
    && (held || t.opening.Opens? ==> fault == if t.lookup.Raises? then t.lookup.fault else ProviderSchema)
  }

  /** How an attempt ends, said of what happened in it. */
  predicate EndsAs(e: Ending, t: Try, held: bool, site: Site) {
    && (Answers(t, held, site) ==> e == Completed(Ok, t.lookup.rows))
    && (Denies(t, held) ==> e == Completed(NotFound, []))
    && (!Answers(t, held, site) && !Denies(t, held) ==> e.Faulted? && FailsWith(t, held, e.fault))
  }

  /** The code a failure is recorded under names what raised. */
  predicate CodeFor(code: string, fault: Fault) {
    && (fault.BanSignal? ==> code == "ban_signal") && (fault.UpstreamNotReady? ==> code == "upstream_not_ready")
    && (fault.Parse? ==> code == "parse_error") && (fault.ProviderSchema? ==> code == "provider_schema_error")
    && (fault.Transport? ==> code == "transport_error") && (fault.OtherFetch? ==> code == "provider_error")
    && (fault.Unforeseen? ==> code == "unknown_error")
  }

  // ----------------------------------------------------------------- the lane's state

  /** A session starting, or a cooldown after a ban: no session before `until`. */
  datatype Mark = Starts(at: real) | Bans(until: real)

  /** The sessions a lane opened: how many were released or never will be, and what each served; and the marks. */
  datatype Ledger = Ledger(released: nat, stuck: nat, served: seq<nat>, marks: seq<Mark>)

  /** No session starts during the cooldown of an earlier ban. */
  predicate Heeded(marks: seq<Mark>) {
    forall i, j :: 0 <= i < j < |marks| && marks[i].Bans? && marks[j].Starts? ==> marks[i].until <= marks[j].at
  }

  function StartCount(marks: seq<Mark>): nat {
    if marks == [] then 0 else StartCount(marks[..|marks| - 1]) + (if marks[|marks| - 1].Starts? then 1 else 0)
  }

  function BansOf(marks: seq<Mark>): seq<real> {
    if marks == [] then []
    else
      var last := marks[|marks| - 1];
      BansOf(marks[..|marks| - 1]) + (if last.Bans? then [last.until] else [])
  }

  lemma OneMoreMark(marks: seq<Mark>, last: Mark)
    ensures StartCount(marks + [last]) == StartCount(marks) + (if last.Starts? then 1 else 0)
    ensures BansOf(marks + [last]) == BansOf(marks) + (if last.Bans? then [last.until] else [])
  {
    assert (marks + [last])[..|marks|] == marks;
  }

  /** All bans so far are over by `now`. */
  predicate BansOver(marks: seq<Mark>, now: real) {
    forall i :: 0 <= i < |marks| && marks[i].Bans? ==> marks[i].until <= now
  }

  /** A lane that waits for its cooldown heeds the bans behind it. */
  lemma HeedsMark(marks: seq<Mark>, last: Mark, cooldownUntil: real, later: real)
    requires Heeded(marks) && BansOver(marks, cooldownUntil)
    requires last.Starts? ==> cooldownUntil <= last.at
    requires cooldownUntil <= later && (last.Bans? ==> last.until <= later)
    ensures Heeded(marks + [last]) && BansOver(marks + [last], later)
  {
  }

  /** When a lane that asks for a session at `now` opens it. */
  function StartTime(now: real, cooldownUntil: real): real {
    var remaining := cooldownUntil - now;
    if remaining > 0.0 then now + remaining else now
  }

  /** The ledger after a session was asked for that had none. */
  function Opened(ledger: Ledger, opening: Opening, at: real): Ledger {
    var more := ledger.(served := ledger.served + [0], marks := ledger.marks + [Starts(at)]);
    match opening
    case Opens(_) => more
    case NoProxy(_) => ledger
    case Unbuilt(_) => more.(stuck := ledger.stuck + 1)
    case Unusable(_, true) => more.(stuck := ledger.stuck + 1)
    case Unusable(_, false) => more.(released := ledger.released + 1)
  }

  function Limit(cfg: Config): nat {
    if cfg.sessionBudget < 1 then 1 else cfg.sessionBudget
  }

  class WorkerState {
    var session: Option<Session>
    var cooldownUntil: real
    var uses: nat
    var lastProxy: string
    ghost var ledger: Ledger

    /**
     Opened is released plus stuck plus the one held; none serves more than the budget or starts
     during the cooldown of a ban.
     */
    ghost predicate Valid(cfg: Config)
      reads this
    {
      && |ledger.served| == ledger.released + ledger.stuck + (if session.Some? then 1 else 0)
      && (forall n :: 0 <= n < |ledger.served| ==> ledger.served[n] <= Limit(cfg))
      && StartCount(ledger.marks) == |ledger.served|
      && Heeded(ledger.marks) && BansOver(ledger.marks, cooldownUntil)
      && (session.Some? ==> ledger.served[|ledger.served| - 1] == uses < Limit(cfg))
    }

    constructor ()
      ensures session == None && cooldownUntil == 0.0 && uses == 0 && lastProxy == ""
      ensures ledger == Ledger(0, 0, [], []) && (forall cfg :: Valid(cfg))
    {
      session, cooldownUntil, uses, lastProxy := None, 0.0, 0, "";
      ledger := Ledger(0, 0, [], []);
    }

    /** Keeps the session, or opens one after waiting for the cooldown; a failed opening leaves none behind. */
    method EnsureSession(opening: Opening, now: real, cfg: Config) returns (raised: Option<Fault>)
      requires Valid(cfg)
      modifies this
      ensures Valid(cfg)
      ensures raised.Some? <==> old(session).None? && !opening.Opens?
      ensures raised.Some? ==> raised.value == OpeningFault(opening) && session.None?
      ensures raised.None? ==> session == if old(session).Some? then old(session) else Some(opening.session)
      ensures old(session).Some? ==> ledger == old(ledger) && uses == old(uses)
      ensures old(session).None? ==> ledger == Opened(old(ledger), opening, StartTime(now, cooldownUntil))
      ensures cooldownUntil == old(cooldownUntil) && lastProxy == old(lastProxy)
    {
      if session.Some? {
        return None;
      }
      ghost var at := StartTime(now, cooldownUntil);
      OneMoreMark(ledger.marks, Starts(at));
      HeedsMark(ledger.marks, Starts(at), cooldownUntil, cooldownUntil);
      ledger := Opened(ledger, opening, at);
      match opening {
        case NoProxy(fault) =>
          return Some(fault);
        case Unbuilt(fault) =>
          return Some(fault);
        case Unusable(fault, closeRaises) =>
          return Some(if closeRaises then Unforeseen else fault);
        case Opens(got) =>
          session, uses := Some(got), 0;
          return None;
      }
    }

    /** Gives the session up even when closing it raises; a client that fails to close leaves its proxy unreleased. */
    method CloseSession(closing: Closing, cfg: Config) returns (raised: bool)
      requires session.Some? ==> |ledger.served| == ledger.released + ledger.stuck + 1
      modifies this
      ensures session == None && uses == old(uses) && cooldownUntil == old(cooldownUntil) && lastProxy == old(lastProxy)
      ensures raised <==> old(session).Some? && !closing.Closes?
      ensures ledger == if old(session).None? then old(ledger)
                        else if closing.ClientRaises? then old(ledger).(stuck := old(ledger).stuck + 1)
                        else old(ledger).(released := old(ledger).released + 1)
    {
      if session.None? {
        return false;
      }
      session := None;
      if closing.ClientRaises? {
        ledger := ledger.(stuck := ledger.stuck + 1);
        return true;
      }
      ledger := ledger.(released := ledger.released + 1);
      return closing.ReleaseRaises?;
    }

    /** Counts a completed lookup and closes a session that has used its budget up. */
    method AfterSuccess(closing: Closing, cfg: Config)
      requires Valid(cfg)
      modifies this
      ensures Valid(cfg)
      ensures session == if old(session).Some? && old(uses) + 1 < cfg.sessionBudget then old(session) else None
      ensures cooldownUntil == old(cooldownUntil) && lastProxy == old(lastProxy)
      ensures old(session).Some? ==>
        ledger.served == old(ledger).served[|old(ledger).served| - 1 := old(uses) + 1]
      ensures ledger.marks == old(ledger).marks
      ensures old(session).None? ==> ledger == old(ledger)
      ensures !closing.ClientRaises? ==> ledger.stuck == old(ledger).stuck
    {
      if session.None? {
        return;
      }
      uses := uses + 1;
      ledger := ledger.(served := ledger.served[|ledger.served| - 1 := uses]);
      if uses >= cfg.sessionBudget {
        var _ := CloseSession(closing, cfg);
      }
    }

    /** After a failure the session goes; a cooldown is added only when closing it did not raise. */
    method RotateSession(closing: Closing, cooldown: real, now: real, cfg: Config)
      requires Valid(cfg)
      modifies this
      ensures Valid(cfg)
      ensures session == None && old(cooldownUntil) <= cooldownUntil && ledger.served == old(ledger).served
      ensures ledger.marks == old(ledger).marks +
        if cooldown <= 0.0 || (old(session).Some? && !closing.Closes?) then [] else [Bans(now + cooldown)]
      ensures lastProxy == if old(session).Some? then old(session).value.proxy else old(lastProxy)
      ensures cooldownUntil == if cooldown <= 0.0 || (old(session).Some? && !closing.Closes?) then old(cooldownUntil)
                               else Max(old(cooldownUntil), now + cooldown)
      ensures !closing.ClientRaises? ==> ledger.stuck == old(ledger).stuck
    {
      if session.Some? {
        lastProxy := session.value.proxy;
      }
      var raised := CloseSession(closing, cfg);
      if !raised && cooldown > 0.0 {
        OneMoreMark(ledger.marks, Bans(now + cooldown));
        HeedsMark(ledger.marks, Bans(now + cooldown), cooldownUntil, Max(cooldownUntil, now + cooldown));
        cooldownUntil := Max(cooldownUntil, now + cooldown);
        ledger := ledger.(marks := ledger.marks + [Bans(now + cooldown)]);
      }
    }
  }

  // ------------------------------------------------------------------- the retry loop

  /** Whether attempt `n` finds a session: only the first can, every failure gives it up. */
  predicate HeldAt(n: nat, heldAtStart: bool) {
    n == 0 && heldAtStart
  }

  function EndingAt(tries: nat -> Try, n: nat, held: bool, site: Site): Ending {
    EndingOf(tries(n), HeldAt(n, held), site)
  }

  function StatusOf(e: Ending): Status {
    if e.Completed? then e.status else Failed
  }

  /** The entry of attempt number `n` in the trace. */
  function OutcomeOf(n: nat, e: Ending): AttemptOutcome {
    AttemptOutcome(n, StatusOf(e), if e.Faulted? then ErrorCode(e.fault) else "")
  }

  /** What the breaker is told during an attempt: the lane's one record between those of the others. */
  function ToldOnce(t: Try, held: bool, site: Site, offset: real): seq<Outcome> {
    t.earlier + [Outcome(EndingOf(t, held, site).Completed?, t.ended + offset)] + t.later
  }

  function Told(tries: nat -> Try, n: nat, held: bool, site: Site, offset: real): seq<Outcome> {
    if n == 0 then []
    else Told(tries, n - 1, held, site, offset) + ToldOnce(tries(n - 1), HeldAt(n - 1, held), site, offset)
  }

  /** The trace of `n` attempts: numbered from one, the last as it ended and all before it failed. */
  predicate IsTrace(attempts: seq<AttemptOutcome>, tries: nat -> Try, held: bool, site: Site) {
    forall n :: 0 <= n < |attempts| ==>
      && attempts[n] == OutcomeOf(n + 1, EndingAt(tries, n, held, site))
      && (n < |attempts| - 1 ==> attempts[n].status == Failed)
  }

  /** A trace the loop may end with. */
  predicate Final(attempts: seq<AttemptOutcome>, tries: nat -> Try, held: bool, site: Site) {
    && 1 <= |attempts| <= MAX_ATTEMPTS
    && IsTrace(attempts, tries, held, site)
    && (attempts[|attempts| - 1].status == Failed ==> |attempts| == MAX_ATTEMPTS)
  }

  method Hear(breaker: CircuitBreaker, others: seq<Outcome>)
    modifies breaker
    ensures breaker.Fields() == GateRun(old(breaker.Fields()), others, breaker.offset, breaker.tuning)
  {
    var n := 0;
    while n < |others|
      invariant 0 <= n <= |others|
      invariant breaker.Fields() == GateRun(old(breaker.Fields()), others[..n], breaker.offset, breaker.tuning)
    {
      GateAppends(old(breaker.Fields()), others[..n], [others[n]], breaker.offset, breaker.tuning);
      assert others[..n + 1] == others[..n] + [others[n]];
      if others[n].healthy {
        breaker.RecordSuccess();
        assert others[n] == Outcome(true, others[n].at);
      } else {
        breaker.RecordFailure(others[n].at);
      }
      n := n + 1;
    }
    assert others[..n] == others;
  }

  lemma {:induction false} GateAppends(gate: Gate, a: seq<Outcome>, b: seq<Outcome>, offset: real, tuning: Tuning)
    ensures GateRun(gate, a + b, offset, tuning) == GateRun(GateRun(gate, a, offset, tuning), b, offset, tuning)
    decreases |a|
  {
    if a == [] {
      assert a + b == b;
    } else {
      assert (a + b)[1..] == a[1..] + b;
      GateAppends(GateAfter(gate, a[0], offset, tuning), a[1..], b, offset, tuning);
    }
  }

  lemma OneGate(gate: Gate, outcome: Outcome, offset: real, tuning: Tuning)
    ensures GateRun(gate, [outcome], offset, tuning) == GateAfter(gate, outcome, offset, tuning)
  {
  }

  /** The session an attempt opens, if it has none, after the cooldown. */
  function StartMarks(t: Try, held: bool, cooldownUntil: real): seq<Mark> {
    if held || t.opening.NoProxy? then [] else [Starts(StartTime(t.started, cooldownUntil))]
  }

  /** The ban an attempt ends in: it counts unless closing its session raised. */
  function BanMarks(t: Try, held: bool, site: Site, cfg: Config): seq<Mark> {
    if EndingOf(t, held, site) == Faulted(BanSignal) && cfg.banCooldown > 0.0 &&
       ((!held && !t.opening.Opens?) || t.closing.Closes?) then [Bans(t.closed + cfg.banCooldown)]
    else []
  }

  /** The bans of the first `n` attempts. */
  function BansIn(tries: nat -> Try, n: nat, held: bool, site: Site, cfg: Config): seq<real> {
    if n == 0 then []
    else BansIn(tries, n - 1, held, site, cfg) + BansOf(BanMarks(tries(n - 1), HeldAt(n - 1, held), site, cfg))
  }

  lemma MoreBans(marks: seq<Mark>, t: Try, held: bool, cooldownUntil: real, site: Site, cfg: Config)
    ensures BansOf(marks + StartMarks(t, held, cooldownUntil) + BanMarks(t, held, site, cfg)) ==
            BansOf(marks) + BansOf(BanMarks(t, held, site, cfg))
  {
    hide BansOf, EndingOf, StartTime;
    var starts, bans := StartMarks(t, held, cooldownUntil), BanMarks(t, held, site, cfg);
    NoBans();
    assert marks + starts + [] == marks + starts && marks + [] == marks;
    if starts != [] {
      OneMoreMark(marks, starts[0]);
    }
    if bans != [] {
      OneMoreMark(marks + starts, bans[0]);
      OneMoreMark([], bans[0]);
      assert [] + bans == bans;
    }
  }

  lemma NoBans()
    ensures BansOf([]) == []
  {
  }

  /** The part of an attempt that may raise: a session, the lookup, and the check for an empty answer. */
  method LookUp(site: Site, state: WorkerState, t: Try, cfg: Config) returns (ending: Ending)
    requires state.Valid(cfg)
    modifies state
    ensures state.Valid(cfg)
    ensures ending == EndingOf(t, old(state.session).Some?, site)
    ensures EndsAs(ending, t, old(state.session).Some?, site)
    ensures ending.Completed? ==> state.session.Some?
    ensures old(state.session).Some? ==> state.session.Some?
    ensures ending.Faulted? && state.session.None? <==> old(state.session).None? && !t.opening.Opens?
    ensures state.cooldownUntil == old(state.cooldownUntil) && state.lastProxy == old(state.lastProxy)
    ensures state.ledger.marks ==
      old(state.ledger).marks + StartMarks(t, old(state.session).Some?, state.cooldownUntil)
    ensures Clean(t) ==> state.ledger.stuck == old(state.ledger.stuck)
  {
    hide StartTime;
    var raised := state.EnsureSession(t.opening, t.started, cfg);
    if raised.Some? {
      return Faulted(raised.value);
    }
    match t.lookup {
      case Finds(rows) =>
        return if rows != [] || site.allowsEmpty then Completed(Ok, rows) else Faulted(ProviderSchema);
      case Misses =>
        return Completed(NotFound, []);
      case Raises(fault) =>
        return Faulted(fault);
    }
  }

  /** One round of the loop: look up, record on the breaker, and keep or give up the session. */
  method Attempt(site: Site, state: WorkerState, breaker: CircuitBreaker, cfg: Config, t: Try)
    returns (ending: Ending, session: string, proxy: string)
    requires state.Valid(cfg)
    modifies state, breaker
    ensures state.Valid(cfg)
    ensures ending == EndingOf(t, old(state.session).Some?, site)
    ensures EndsAs(ending, t, old(state.session).Some?, site)
    ensures ending.Faulted? ==> state.session == None
    ensures ending.Completed? ==> ending.status == Ok || (ending.status == NotFound && ending.rows == [])
    ensures breaker.Fields() ==
      GateRun(old(breaker.Fields()), ToldOnce(t, old(state.session).Some?, site, breaker.offset),
              breaker.offset, breaker.tuning)
    ensures old(state.cooldownUntil) <= state.cooldownUntil
    ensures ending != Faulted(BanSignal) ==> state.cooldownUntil == old(state.cooldownUntil)
    ensures ending == Faulted(BanSignal) && cfg.banCooldown > 0.0 && t.closing.Closes? ==>
      t.closed + cfg.banCooldown <= state.cooldownUntil
    ensures state.ledger.marks == old(state.ledger).marks
      + StartMarks(t, old(state.session).Some?, old(state.cooldownUntil))
      + BanMarks(t, old(state.session).Some?, site, cfg)
    ensures Clean(t) ==> state.ledger.stuck == old(state.ledger.stuck)
  {
    hide GateRun, WorkerState.Valid, StartMarks, EndsAs;
    Hear(breaker, t.earlier);
    ending := LookUp(site, state, t, cfg);
    session, proxy := "", state.lastProxy;
    if state.session.Some? {
      session, proxy := state.session.value.id, state.session.value.proxy;
    }
    OneGate(breaker.Fields(), Outcome(ending.Completed?, t.ended + breaker.offset), breaker.offset, breaker.tuning);
    ghost var mine := Outcome(ending.Completed?, t.ended + breaker.offset);
    GateAppends(old(breaker.Fields()), t.earlier, [mine], breaker.offset, breaker.tuning);
    GateAppends(old(breaker.Fields()), t.earlier + [mine], t.later, breaker.offset, breaker.tuning);
    match ending {
      case Completed(_, _) =>
        breaker.RecordSuccess();
        state.AfterSuccess(t.closing, cfg);
      case Faulted(fault) =>
        breaker.RecordFailure(t.ended + breaker.offset);
        state.RotateSession(t.closing, CooldownFor(fault, cfg), t.closed, cfg);
    }
    Hear(breaker, t.later);
  }

  /** A result as its trace tells it: the last attempt is the outcome, and only a fourth failure is a failure. */
  predicate Reports(r: FetchResult, site: Site, doc: string, tries: nat -> Try, held: bool) {
    && r.site == site.name && r.doc == doc
    && r.attempt == |r.attempts| && Final(r.attempts, tries, held, site)
    && r.status == r.attempts[r.attempt - 1].status && r.errorCode == r.attempts[r.attempt - 1].errorCode
    && (r.status == Failed ==> r.attempt == MAX_ATTEMPTS)
    && (r.status == Ok ==> r.rows == EndingAt(tries, r.attempt - 1, held, site).rows)
    && (r.status != Ok ==> r.rows == [])
  }

  /**
   What the attempts say the result must be: the first that answers or denies decides, within the
   first four; when none does, the document failed with the code of the fourth's fault.
   */
  predicate Decided(r: FetchResult, tries: nat -> Try, held: bool, site: Site) {
    && 1 <= r.attempt <= 4
    && (forall n :: 0 <= n < r.attempt - 1 ==> !Answers(tries(n), n == 0 && held, site))
    && (forall n :: 0 <= n < r.attempt - 1 ==> !Denies(tries(n), n == 0 && held))
    && var last, first := tries(r.attempt - 1), r.attempt == 1 && held;
    && (r.status == Ok <==> Answers(last, first, site))
    && (r.status == NotFound <==> Denies(last, first))
    && (r.status == Ok ==> r.rows == last.lookup.rows)
    && (r.status != Ok ==> r.rows == [])
    && (r.status != Failed ==> r.errorCode == "")
    && (r.status == Failed ==> r.attempt == 4 && Blames(r.errorCode, last, first))
  }

  predicate Blames(code: string, t: Try, held: bool) {
    exists fault :: FailsWith(t, held, fault) && CodeFor(code, fault)
  }

  lemma EndingBlames(tries: nat -> Try, n: nat, held: bool, site: Site)
    ensures EndsAs(EndingAt(tries, n, held, site), tries(n), n == 0 && held, site)
    ensures var e := EndingAt(tries, n, held, site);
      e.Faulted? ==> Blames(ErrorCode(e.fault), tries(n), n == 0 && held)
  {
    var e := EndingAt(tries, n, held, site);
    if e.Faulted? {
      assert FailsWith(tries(n), n == 0 && held, e.fault) && CodeFor(ErrorCode(e.fault), e.fault);
    }
  }

  lemma ReportsDecide(r: FetchResult, site: Site, doc: string, tries: nat -> Try, held: bool)
    requires Reports(r, site, doc, tries, held)
    ensures Decided(r, tries, held, site)
  {
    hide EndingAt, ErrorCode, Blames;
    forall n | 0 <= n < r.attempt
      ensures EndsAs(EndingAt(tries, n, held, site), tries(n), n == 0 && held, site)
      ensures var e := EndingAt(tries, n, held, site);
        e.Faulted? ==> Blames(ErrorCode(e.fault), tries(n), n == 0 && held)
    {
      EndingBlames(tries, n, held, site);
    }
    assert r.attempts[r.attempt - 1] == OutcomeOf(r.attempt, EndingAt(tries, r.attempt - 1, held, site));
    forall n | 0 <= n < r.attempt - 1
      ensures !Answers(tries(n), n == 0 && held, site) && !Denies(tries(n), n == 0 && held)
    {
      assert r.attempts[n] == OutcomeOf(n + 1, EndingAt(tries, n, held, site));
    }
  }

  /**
   What the breaker hears in `attempts` attempts, up to the `n`th: of each attempt a failure, but of
   the last whether it completed, between what the other lanes record.
   */
  function Heard(tries: nat -> Try, n: nat, attempts: nat, completed: bool, offset: real): seq<Outcome> {
    if n == 0 then []
    else
      var t := tries(n - 1);
      Heard(tries, n - 1, attempts, completed, offset)
      + t.earlier + [Outcome(n == attempts && completed, t.ended + offset)] + t.later
  }

  lemma {:induction false} ToldIsHeard(r: FetchResult, n: nat, site: Site, tries: nat -> Try, held: bool, offset: real)
    requires Decided(r, tries, held, site) && n <= r.attempt
    ensures Told(tries, n, held, site, offset) == Heard(tries, n, r.attempt, r.status != Failed, offset)
  {
    hide Decided, EndingOf;
    if n > 0 {
      ToldIsHeard(r, n - 1, site, tries, held, offset);
      CompletesLast(r, n - 1, site, tries, held);
    }
  }

  lemma CompletesLast(r: FetchResult, n: nat, site: Site, tries: nat -> Try, held: bool)
    requires Decided(r, tries, held, site) && n < r.attempt
    ensures EndingOf(tries(n), HeldAt(n, held), site).Completed? <==> n + 1 == r.attempt && r.status != Failed
  {
    hide Blames;
  }

  lemma CompletionReported(r: FetchResult, site: Site, doc: string, tries: nat -> Try, held: bool, ending: Ending)
    requires 1 <= |r.attempts| == r.attempt <= MAX_ATTEMPTS && IsTrace(r.attempts, tries, held, site)
    requires ending == EndingAt(tries, r.attempt - 1, held, site) && ending.Completed? && ending.status != Failed
    requires ending.status == NotFound ==> ending.rows == []
    requires r.site == site.name && r.doc == doc && r.status == ending.status && r.rows == ending.rows
    requires r.errorCode == ""
    ensures Reports(r, site, doc, tries, held)
  {
    hide EndingAt;
  }

  lemma FailureReported(r: FetchResult, site: Site, doc: string, tries: nat -> Try, held: bool, ending: Ending)
    requires |r.attempts| == r.attempt == MAX_ATTEMPTS && IsTrace(r.attempts, tries, held, site)
    requires ending == EndingAt(tries, r.attempt - 1, held, site) && ending.Faulted?
    requires r.site == site.name && r.doc == doc && r.status == Failed && r.rows == []
    requires r.errorCode == ErrorCode(ending.fault)
    ensures Reports(r, site, doc, tries, held)
  {
    hide EndingAt;
  }

  method FetchOne(site: Site, doc: string, state: WorkerState, breaker: CircuitBreaker, cfg: Config, tries: nat -> Try)
    returns (r: FetchResult)
    requires state.Valid(cfg)
    modifies state, breaker
    ensures state.Valid(cfg)
    ensures Reports(r, site, doc, tries, old(state.session).Some?)
    ensures Decided(r, tries, old(state.session).Some?, site)
    ensures r.status == Failed ==> state.session == None
    ensures breaker.Fields() ==
      GateRun(old(breaker.Fields()), Heard(tries, r.attempt, r.attempt, r.status != Failed, breaker.offset),
              breaker.offset, breaker.tuning)
    ensures r.healthy ==
      (r.status != Failed || !IsOpen(breaker.Fields(), tries(r.attempt - 1).closed + breaker.offset, breaker.offset))
    ensures old(state.cooldownUntil) <= state.cooldownUntil && old(state.ledger).marks <= state.ledger.marks
    ensures BansOf(state.ledger.marks) ==
      BansOf(old(state.ledger).marks) + BansIn(tries, r.attempt, old(state.session).Some?, site, cfg)
    ensures AllClean(tries) ==> state.ledger.stuck == old(state.ledger.stuck)
  {
    hide AllClean, AllFailed, EndingAt, OutcomeOf, IsOpen, GateRun, Told, ToldOnce, IsTrace, EndingOf, Clean, Final,
         Reports, Decided, Heard;
    hide WorkerState.Valid, BansOf, BansIn, StartMarks, BanMarks, HeldAt, StatusOf, ErrorCode;
    var attempt, attempts := 0, [];
    ghost var held, gate, offset, tuning := state.session.Some?, breaker.Fields(), breaker.offset, breaker.tuning;
    ghost var marks := state.ledger.marks;
    GateNothing(gate, offset, tuning);
    NothingYet(tries, held, site, offset, cfg);
    while true
      invariant attempt == |attempts| < MAX_ATTEMPTS
      invariant state.Valid(cfg) && old(state.cooldownUntil) <= state.cooldownUntil
      invariant state.session.Some? == HeldAt(attempt, held)
      invariant IsTrace(attempts, tries, held, site) && AllFailed(attempts)
      invariant marks <= state.ledger.marks
      invariant BansOf(state.ledger.marks) == BansOf(marks) + BansIn(tries, attempt, held, site, cfg)
      invariant AllClean(tries) ==> state.ledger.stuck == old(state.ledger.stuck)
      invariant breaker.Fields() == GateRun(gate, Told(tries, attempt, held, site, offset), offset, tuning)
      decreases MAX_ATTEMPTS - attempt
    {
      var t := tries(attempt);
      CleanAt(tries, attempt);
      OneMoreTold(tries, attempt, held, site, gate, offset, tuning);
      MoreBans(state.ledger.marks, t, HeldAt(attempt, held), state.cooldownUntil, site, cfg);
      OneMoreBan(tries, attempt, held, site, cfg);
      var ending, session, proxy := Attempt(site, state, breaker, cfg, t);
      EndedAs(tries, attempt, held, site, ending);
      attempt := attempt + 1;
      var outcome := OutcomeOf(attempt, ending);
      OneMore(attempts, outcome, tries, held, site);
      attempts := attempts + [outcome];
      if ending.Completed? {
        r := FetchResult(site.name, doc, ending.status, ending.rows, "", true, session, proxy, attempt, attempts);
        CompletionReported(r, site, doc, tries, held, ending);
        ReportsDecide(r, site, doc, tries, held);
        ToldIsHeard(r, attempt, site, tries, held, offset);
        return;
      }
      if attempt >= MAX_ATTEMPTS {
        var open := breaker.openUntil > t.closed;
        OpenNow(breaker.Fields(), t.closed, breaker.offset);
        r := FetchResult(site.name, doc, Failed, [], ErrorCode(ending.fault), !open, session, proxy, attempt, attempts);
        FailureReported(r, site, doc, tries, held, ending);
        ReportsDecide(r, site, doc, tries, held);
        ToldIsHeard(r, attempt, site, tries, held, offset);
        return;
      }
    }
  }

  lemma CleanAt(tries: nat -> Try, n: nat)
    ensures AllClean(tries) ==> Clean(tries(n))
  {
  }

  lemma EndedAs(tries: nat -> Try, n: nat, held: bool, site: Site, ending: Ending)
    requires ending == EndingOf(tries(n), HeldAt(n, held), site)
    ensures ending == EndingAt(tries, n, held, site)
    ensures OutcomeOf(n + 1, ending).status == if ending.Faulted? then Failed else ending.status
    ensures OutcomeOf(n + 1, ending).errorCode == if ending.Faulted? then ErrorCode(ending.fault) else ""
  {
  }

  lemma OpenNow(gate: Gate, now: real, offset: real)
    ensures IsOpen(gate, now + offset, offset) <==> gate.openUntil > now
  {
  }

  predicate AllFailed(attempts: seq<AttemptOutcome>) {
    forall n :: 0 <= n < |attempts| ==> attempts[n].status == Failed
  }

  lemma NothingYet(tries: nat -> Try, held: bool, site: Site, offset: real, cfg: Config)
    ensures IsTrace([], tries, held, site) && AllFailed([]) && Told(tries, 0, held, site, offset) == []
    ensures BansIn(tries, 0, held, site, cfg) == [] && HeldAt(0, held) == held
  {
  }

  lemma OneMoreBan(tries: nat -> Try, n: nat, held: bool, site: Site, cfg: Config)
    ensures BansIn(tries, n + 1, held, site, cfg) ==
            BansIn(tries, n, held, site, cfg) + BansOf(BanMarks(tries(n), HeldAt(n, held), site, cfg))
    ensures !HeldAt(n + 1, held)
  {
  }

  lemma OneMore(attempts: seq<AttemptOutcome>, last: AttemptOutcome, tries: nat -> Try, held: bool, site: Site)
    requires IsTrace(attempts, tries, held, site) && AllFailed(attempts)
    requires last == OutcomeOf(|attempts| + 1, EndingAt(tries, |attempts|, held, site))
    ensures IsTrace(attempts + [last], tries, held, site)
    ensures last.status == Failed ==> AllFailed(attempts + [last])
  {
    hide EndingAt;
  }

  lemma OneMoreTold(tries: nat -> Try, n: nat, held: bool, site: Site, gate: Gate, offset: real, tuning: Tuning)
    ensures GateRun(gate, Told(tries, n + 1, held, site, offset), offset, tuning) ==
      GateRun(GateRun(gate, Told(tries, n, held, site, offset), offset, tuning),
              ToldOnce(tries(n), HeldAt(n, held), site, offset), offset, tuning)
  {
    hide ToldOnce, GateRun;
    GateAppends(gate, Told(tries, n, held, site, offset), ToldOnce(tries(n), HeldAt(n, held), site, offset), offset,
      tuning);
  }

  lemma GateNothing(gate: Gate, offset: real, tuning: Tuning)
    ensures GateRun(gate, [], offset, tuning) == gate
  {
  }

  /** What is promised of the trace leaves no choice: the first attempt that completes is the last, or the fourth is. */
  lemma TraceIsDetermined(a: seq<AttemptOutcome>, b: seq<AttemptOutcome>, tries: nat -> Try, held: bool, site: Site)
    requires Final(a, tries, held, site) && Final(b, tries, held, site)
    ensures a == b
  {
    SameLength(a, b, tries, held, site);
    SameLength(b, a, tries, held, site);
    forall n | 0 <= n < |a| ensures a[n] == b[n] {
      var _ := EndingAt(tries, n, held, site);
    }
  }

  lemma SameStatus(a: seq<AttemptOutcome>, b: seq<AttemptOutcome>, n: nat, tries: nat -> Try, held: bool, site: Site)
    requires n < |a| && n < |b| && IsTrace(a, tries, held, site) && IsTrace(b, tries, held, site)
    ensures a[n].status == b[n].status
  {
  }

  lemma SameLength(a: seq<AttemptOutcome>, b: seq<AttemptOutcome>, tries: nat -> Try, held: bool, site: Site)
    requires Final(a, tries, held, site) && Final(b, tries, held, site)
    ensures |b| <= |a|
  {
    SameStatus(a, b, if |a| < |b| then |a| - 1 else |b| - 1, tries, held, site);
  }

  // ---------------------------------------------------------------- a worker's life

  datatype Totals = Totals(processed: nat, succeeded: nat, notFound: nat, failed: nat)

  function Counted(results: seq<FetchResult>, status: Status): nat {
    if results == [] then 0
    else Counted(results[..|results| - 1], status) + (if results[|results| - 1].status == status then 1 else 0)
  }

  lemma NoneCounted()
    ensures forall s :: Counted([], s) == 0
  {
  }

  lemma OneMoreCounted(results: seq<FetchResult>, r: FetchResult)
    ensures forall s :: Counted(results + [r], s) == Counted(results, s) + (if r.status == s then 1 else 0)
  {
    assert (results + [r])[..|results|] == results;
  }

  /** The bans of the results, in order; `helds` says which documents found a session. */
  function AllBans(tries: nat -> nat -> Try, results: seq<FetchResult>, helds: seq<bool>, site: Site,
      cfg: Config): seq<real>
    requires |helds| == |results|
  {
    if results == [] then []
    else
      var d := |results| - 1;
      AllBans(tries, results[..d], helds[..d], site, cfg) + BansIn(tries(d), results[d].attempt, helds[d], site, cfg)
  }

  lemma NoBansYet(tries: nat -> nat -> Try, site: Site, cfg: Config)
    ensures AllBans(tries, [], [], site, cfg) == []
  {
  }

  lemma AllBansMore(tries: nat -> nat -> Try, results: seq<FetchResult>, r: FetchResult, helds: seq<bool>, held: bool,
      site: Site, cfg: Config)
    requires |helds| == |results|
    ensures AllBans(tries, results + [r], helds + [held], site, cfg) ==
            AllBans(tries, results, helds, site, cfg) + BansIn(tries(|results|), r.attempt, held, site, cfg)
  {
    assert (results + [r])[..|results|] == results && (helds + [held])[..|helds|] == helds;
  }

  /**
   A lane works through the documents it gets from the queue and closes its session in the
   end: every session it opened is released, or had no client that closed. After every ban
   no session starts before the cooldown is over.
   */
  method RunWorker(site: Site, docs: seq<string>, breaker: CircuitBreaker, cfg: Config, tries: nat -> nat -> Try,
      closing: Closing)
    returns (results: seq<FetchResult>, totals: Totals, ghost ledger: Ledger, ghost helds: seq<bool>)
    modifies breaker
    ensures |results| == |docs|
    ensures forall n :: 0 <= n < |docs| ==>
      results[n].site == site.name && results[n].doc == docs[n] &&
        (results[n].status == Failed ==> results[n].attempt == MAX_ATTEMPTS)
    ensures totals == Totals(|docs|, Counted(results, Ok), Counted(results, NotFound), Counted(results, Failed))
    ensures totals.processed == totals.succeeded + totals.notFound + totals.failed
    ensures |ledger.served| == ledger.released + ledger.stuck
    ensures forall n :: 0 <= n < |ledger.served| ==>
      ledger.served[n] <= if cfg.sessionBudget < 1 then 1 else cfg.sessionBudget
    ensures StartCount(ledger.marks) == |ledger.served| && Heeded(ledger.marks)
    ensures |helds| == |docs| && BansOf(ledger.marks) == AllBans(tries, results, helds, site, cfg)
    ensures forall n :: 0 <= n < |docs| ==> Decided(results[n], tries(n), helds[n], site)
    ensures (forall d :: AllClean(tries(d))) && !closing.ClientRaises? ==> |ledger.served| == ledger.released
  {
    hide GateRun, Heard, Decided, Final, EndingAt, IsOpen, AllClean, Counted, BansOf, BansIn, AllBans, Heeded,
         StartCount;
    var state := new WorkerState();
    results, helds := [], [];
    NoBans();
    NoBansYet(tries, site, cfg);
    totals := Totals(0, 0, 0, 0);
    NoneCounted();
    while |results| < |docs|
      invariant |results| <= |docs| && fresh(state) && state.Valid(cfg)
      invariant forall n :: 0 <= n < |results| ==>
        results[n].site == site.name && results[n].doc == docs[n] &&
          (results[n].status == Failed ==> results[n].attempt == MAX_ATTEMPTS)
      invariant totals == Totals(|results|, Counted(results, Ok), Counted(results, NotFound), Counted(results, Failed))
      invariant totals.processed == totals.succeeded + totals.notFound + totals.failed
      invariant |helds| == |results| && BansOf(state.ledger.marks) == AllBans(tries, results, helds, site, cfg)
      invariant forall n :: 0 <= n < |results| ==> Decided(results[n], tries(n), helds[n], site)
      invariant (forall d :: AllClean(tries(d))) ==> state.ledger.stuck == 0
      decreases |docs| - |results|
    {
      ghost var held := state.session.Some?;
      var r := FetchOne(site, docs[|results|], state, breaker, cfg, tries(|results|));
      OneMoreCounted(results, r);
      AllBansMore(tries, results, r, helds, held, site, cfg);
      helds := helds + [held];
      results := results + [r];
      match r.status {
        case Ok => totals := totals.(succeeded := totals.succeeded + 1);
        case NotFound => totals := totals.(notFound := totals.notFound + 1);
        case Failed => totals := totals.(failed := totals.failed + 1);
      }
      totals := totals.(processed := totals.processed + 1);
    }
    var _ := state.CloseSession(closing, cfg);
    ledger := state.ledger;
  }
}
