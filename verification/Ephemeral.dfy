/**
 The keyed store whose values expire on their own. Every operation is one statement
 at the database's time; expired rows stay until something overwrites or sweeps them.
 */
module Ephemeral {
  import opened Basics

  /** A counter, or whatever else a caller stores. */
  datatype Value<T> = Count(n: nat) | Other(value: T)

  datatype Entry<T> = Entry(value: Value<T>, expires: int)

  type Rows<T> = map<string, Entry<T>>

  datatype Op<T> =
    | PutNew(key: string, value: Value<T>, ttl: int)
    | Replace(key: string, value: Value<T>, ttl: int)
    | Read(key: string)
    | Take(key: string)
    | Increment(key: string, ttl: int)
    | Discard(key: string)
    | Sweep

  /** What a call answers; counting a live value that is no counter raises. */
  datatype Answer<T> = Stored(ok: bool) | Found(found: Option<Value<T>>) | Counted(count: nat) | NotACounter | Nothing

  predicate IsLive<T>(rows: Rows<T>, key: string, now: int) {
    key in rows && rows[key].expires > now
  }

  function LiveRows<T>(rows: Rows<T>, now: int): Rows<T> {
    map key | key in rows && rows[key].expires > now :: rows[key]
  }

  // ------------------------------------------------------------ what a statement does

  function RowsAfter<T>(rows: Rows<T>, op: Op<T>, now: int): Rows<T> {
    match op
    case PutNew(key, value, ttl) => if IsLive(rows, key, now) then rows else rows[key := Entry(value, now + ttl)]
    case Replace(key, value, ttl) => if IsLive(rows, key, now) then rows[key := Entry(value, now + ttl)] else rows
    case Read(_) => rows
    case Take(key) => if IsLive(rows, key, now) then rows - {key} else rows
    case Increment(key, ttl) =>
      if !IsLive(rows, key, now) then rows[key := Entry(Count(1), now + ttl)]
      else if rows[key].value.Count? then rows[key := Entry(Count(rows[key].value.n + 1), rows[key].expires)]
      else rows
    case Discard(key) => rows - {key}
    case Sweep => LiveRows(rows, now)
  }

  function AnswerTo<T>(rows: Rows<T>, op: Op<T>, now: int): Answer<T> {
    match op
    case PutNew(key, _, _) => Stored(!IsLive(rows, key, now))
    case Replace(key, _, _) => Stored(IsLive(rows, key, now))
    case Read(key) => Found(if IsLive(rows, key, now) then Some(rows[key].value) else None)
    case Take(key) => Found(if IsLive(rows, key, now) then Some(rows[key].value) else None)
    case Increment(key, _) =>
      if !IsLive(rows, key, now) then Counted(1)
      else if rows[key].value.Count? then Counted(rows[key].value.n + 1) else NotACounter
    case Discard(_) => Nothing
    case Sweep => Nothing
  }

  /** Counting a key up: a new window opens at one, a live counter goes up by one and ends when it would have. */
  predicate CountsUp<T(==)>(was: Rows<T>, rows: Rows<T>, key: string, ttl: int, now: int, r: Option<nat>) {
    if key !in was || was[key].expires <= now then r == Some(1) && rows == was[key := Entry(Count(1), now + ttl)]
    else if was[key].value.Count? then
      r == Some(was[key].value.n + 1) && rows == was[key := Entry(Count(was[key].value.n + 1), was[key].expires)]
    else r == None && rows == was
  }

  class EphemeralStore<T(==)> {
    var rows: Rows<T>

    constructor ()
      ensures rows == map[]
    {
      rows := map[];
    }

    method Put(key: string, value: Value<T>, ttl: int, now: int) returns (stored: bool)
      modifies this
      ensures rows == RowsAfter(old(rows), PutNew(key, value, ttl), now)
      ensures Stored(stored) == AnswerTo(old(rows), PutNew(key, value, ttl), now)
      ensures stored <==> key !in old(rows) || old(rows)[key].expires <= now
      ensures rows == if stored then old(rows)[key := Entry(value, now + ttl)] else old(rows)
    {
      stored := key !in rows || rows[key].expires <= now;
      if stored {
        rows := rows[key := Entry(value, now + ttl)];
      }
    }

    method Overwrite(key: string, value: Value<T>, ttl: int, now: int) returns (stored: bool)
      modifies this
      ensures rows == RowsAfter(old(rows), Replace(key, value, ttl), now)
      ensures Stored(stored) == AnswerTo(old(rows), Replace(key, value, ttl), now)
      ensures stored <==> key in old(rows) && now < old(rows)[key].expires
      ensures rows == if stored then old(rows)[key := Entry(value, now + ttl)] else old(rows)
    {
      stored := key in rows && rows[key].expires > now;
      if stored {
        rows := rows[key := Entry(value, now + ttl)];
      }
    }

    method Get(key: string, now: int) returns (found: Option<Value<T>>)
      ensures Found(found) == AnswerTo(rows, Read(key), now)
      ensures found == if key in rows && now < rows[key].expires then Some(rows[key].value) else None
    {
      found := if key in rows && rows[key].expires > now then Some(rows[key].value) else None;
    }

    method Spend(key: string, now: int) returns (found: Option<Value<T>>)
      modifies this
      ensures rows == RowsAfter(old(rows), Take(key), now)
      ensures Found(found) == AnswerTo(old(rows), Take(key), now)
      ensures found == if key in old(rows) && now < old(rows)[key].expires then Some(old(rows)[key].value) else None
      ensures rows == if found.Some? then old(rows) - {key} else old(rows)
    {
      found := None;
      if key in rows && rows[key].expires > now {
        found := Some(rows[key].value);
        rows := rows - {key};
      }
    }

    method CountUp(key: string, ttl: int, now: int) returns (r: Option<nat>)
      modifies this
      ensures rows == RowsAfter(old(rows), Increment(key, ttl), now)
      ensures (if r.Some? then Counted(r.value) else NotACounter) == AnswerTo(old(rows), Increment(key, ttl), now)
      ensures CountsUp(old(rows), rows, key, ttl, now, r)
    {
      if key !in rows || rows[key].expires <= now {
        rows := rows[key := Entry(Count(1), now + ttl)];
        return Some(1);
      }
      if !rows[key].value.Count? {
        return None;
      }
      var count := rows[key].value.n + 1;
      rows := rows[key := rows[key].(value := Count(count))];
      return Some(count);
    }

    method Drop(key: string)
      modifies this
      ensures forall now :: rows == RowsAfter(old(rows), Discard(key), now)
      ensures rows == old(rows) - {key}
    {
      rows := rows - {key};
    }

    method Reclaim(now: int) returns (deleted: nat)
      modifies this
      ensures rows == RowsAfter(old(rows), Sweep, now)
      ensures deleted == |old(rows)| - |rows|
      ensures forall key :: key in rows <==> key in old(rows) && now < old(rows)[key].expires
      ensures forall key :: key in rows ==> rows[key] == old(rows)[key]
    {
      ghost var before := rows;
      deleted := 0;
      var unseen := rows.Keys;
      while unseen != {}
        invariant unseen <= rows.Keys <= before.Keys && deleted == |before| - |rows|
        invariant forall key :: key in rows ==> rows[key] == before[key]
        invariant forall key :: key in before && (key in unseen || before[key].expires > now) ==> key in rows
        invariant forall key :: key in rows && key !in unseen ==> rows[key].expires > now
        decreases |unseen|
      {
        var key :| key in unseen;
        unseen := unseen - {key};
        if rows[key].expires <= now {
          assert rows.Keys == (rows - {key}).Keys + {key};
          assert |rows.Keys| == |(rows - {key}).Keys| + 1;
          rows := rows - {key};
          deleted := deleted + 1;
        }
      }
      assert rows == LiveRows(before, now);
    }
  }

  // ------------------------------------------------------------ a map of live keys only

  /** What the operation means for someone who only ever sees live keys. */
  function LiveAfter<T>(live: Rows<T>, op: Op<T>, now: int): Rows<T> {
    match op
    case PutNew(key, value, ttl) => if key !in live && ttl > 0 then live[key := Entry(value, now + ttl)] else live
    case Replace(key, value, ttl) =>
      if key !in live then live else if ttl > 0 then live[key := Entry(value, now + ttl)] else live - {key}
    case Read(_) => live
    case Take(key) => live - {key}
    case Increment(key, ttl) =>
      if key in live then
        if live[key].value.Count? then live[key := Entry(Count(live[key].value.n + 1), live[key].expires)] else live
      else if ttl > 0 then live[key := Entry(Count(1), now + ttl)] else live
    case Discard(key) => live - {key}
    case Sweep => live
  }

  function LiveAnswer<T>(live: Rows<T>, op: Op<T>): Answer<T> {
    match op
    case PutNew(key, _, _) => Stored(key !in live)
    case Replace(key, _, _) => Stored(key in live)
    case Read(key) => Found(if key in live then Some(live[key].value) else None)
    case Take(key) => Found(if key in live then Some(live[key].value) else None)
    case Increment(key, _) =>
      if key !in live then Counted(1)
      else if live[key].value.Count? then Counted(live[key].value.n + 1) else NotACounter
    case Discard(_) => Nothing
    case Sweep => Nothing
  }

  lemma StepMatches<T>(rows: Rows<T>, op: Op<T>, now: int)
    ensures LiveRows(RowsAfter(rows, op, now), now) == LiveAfter(LiveRows(rows, now), op, now)
    ensures AnswerTo(rows, op, now) == LiveAnswer(LiveRows(rows, now), op)
  {
  }

  lemma LiveLater<T>(rows: Rows<T>, early: int, late: int)
    requires early <= late
    ensures LiveRows(LiveRows(rows, early), late) == LiveRows(rows, late)
  {
  }

  // --------------------------------------------------------------------- whole runs

  datatype Event<T> = Event(op: Op<T>, at: int)

  predicate Timely<T>(events: seq<Event<T>>, since: int) {
    && (forall n :: 0 <= n < |events| ==> since <= events[n].at)
    && (forall n, m :: 0 <= n < m < |events| ==> events[n].at <= events[m].at)
  }

  function Play<T>(rows: Rows<T>, events: seq<Event<T>>): Rows<T>
    decreases |events|
  {
    if events == [] then rows else Play(RowsAfter(rows, events[0].op, events[0].at), events[1..])
  }

  /** The answers to everything but sweeps. */
  function Answers<T>(rows: Rows<T>, events: seq<Event<T>>): seq<Answer<T>>
    decreases |events|
  {
    if events == [] then []
    else
      (if events[0].op.Sweep? then [] else [AnswerTo(rows, events[0].op, events[0].at)])
        + Answers(RowsAfter(rows, events[0].op, events[0].at), events[1..])
  }

  /** The same, played on live keys alone. */
  function LiveAnswers<T>(live: Rows<T>, events: seq<Event<T>>): seq<Answer<T>>
    decreases |events|
  {
    if events == [] then []
    else
      var seen := LiveRows(live, events[0].at);
      [LiveAnswer(seen, events[0].op)] + LiveAnswers(LiveAfter(seen, events[0].op, events[0].at), events[1..])
  }

  function WithoutSweeps<T>(events: seq<Event<T>>): (r: seq<Event<T>>)
    ensures forall e :: e in r ==> e in events
  {
    if events == [] then []
    else (if events[0].op.Sweep? then [] else [events[0]]) + WithoutSweeps(events[1..])
  }

  lemma ForgetExpired<T>(live: Rows<T>, now: int, events: seq<Event<T>>)
    requires forall e :: e in events ==> now <= e.at
    ensures LiveAnswers(LiveRows(live, now), events) == LiveAnswers(live, events)
  {
    if events != [] {
      LiveLater(live, now, events[0].at);
    }
  }

  lemma {:induction false} RunMatches<T>(rows: Rows<T>, events: seq<Event<T>>, since: int)
    requires Timely(events, since)
    ensures Answers(rows, events) == LiveAnswers(LiveRows(rows, since), WithoutSweeps(events))
    decreases |events|
  {
    if events != [] {
      var e, rest := events[0], events[1..];
      var next := RowsAfter(rows, e.op, e.at);
      RunMatches(next, rest, e.at);
      StepMatches(rows, e.op, e.at);
      LiveLater(rows, since, e.at);
      if e.op.Sweep? {
        ForgetExpired(LiveRows(rows, since), e.at, WithoutSweeps(rest));
        assert WithoutSweeps(events) == WithoutSweeps(rest);
      } else {
        assert WithoutSweeps(events)[1..] == WithoutSweeps(rest);
      }
    }
  }

  /** Sweeps inserted anywhere, into stores that agree on the live keys, change no other answer. */
  lemma SweepsAreUnobservable<T>(a: Rows<T>, b: Rows<T>, left: seq<Event<T>>, right: seq<Event<T>>, since: int)
    requires LiveRows(a, since) == LiveRows(b, since)
    requires Timely(left, since) && Timely(right, since) && WithoutSweeps(left) == WithoutSweeps(right)
    ensures Answers(a, left) == Answers(b, right)
  {
    RunMatches(a, left, since);
    RunMatches(b, right, since);
  }

  // -------------------------------------------------------------------- one key's life

  /** The rows before event `n`. */
  function Before<T>(rows: Rows<T>, events: seq<Event<T>>, n: nat): Rows<T>
    requires n <= |events|
  {
    if n == 0 then rows else RowsAfter(Before(rows, events, n - 1), events[n - 1].op, events[n - 1].at)
  }

  function OpKey<T>(op: Op<T>): Option<string> {
    if op.Sweep? then None else Some(op.key)
  }

  /** An operation on another key leaves this one as live as it was. */
  lemma OtherKeys<T>(rows: Rows<T>, op: Op<T>, key: string, at: int, now: int)
    requires OpKey(op) != Some(key) && at <= now
    ensures IsLive(RowsAfter(rows, op, at), key, now) <==> IsLive(rows, key, now)
    ensures IsLive(rows, key, now) ==> RowsAfter(rows, op, at)[key] == rows[key]
  {
  }

  // ------------------------------------------------------------------ single-use tokens

  /** Once issued, a token's key is only peeked at, consumed or discarded. */
  predicate OnlySpends<T>(events: seq<Event<T>>, key: string) {
    forall n :: 0 <= n < |events| && OpKey(events[n].op) == Some(key) ==>
      events[n].op.Read? || events[n].op.Take? || events[n].op.Discard?
  }

  predicate Spends<T>(e: Event<T>, key: string) {
    e.op == Take(key) || e.op == Discard(key)
  }

  /** The token is live exactly until its deadline or the first event that spends it. */
  lemma {:induction false} TokenLife<T>(rows: Rows<T>, events: seq<Event<T>>, key: string, token: Entry<T>, issued: int,
      n: nat, now: int)
    requires key in rows && rows[key] == token && Timely(events, issued) && OnlySpends(events, key)
    requires n <= |events| && forall m :: 0 <= m < n ==> events[m].at <= now
    ensures IsLive(Before(rows, events, n), key, now)
       <==> now < token.expires && forall m :: 0 <= m < n ==> !Spends(events[m], key)
    ensures IsLive(Before(rows, events, n), key, now) ==> Before(rows, events, n)[key] == token
  {
    if n > 0 {
      TokenLife(rows, events, key, token, issued, n - 1, now);
      var e, before := events[n - 1], Before(rows, events, n - 1);
      if OpKey(e.op) == Some(key) {
        if e.op == Take(key) && key in before && before[key].expires <= e.at {
          assert IsLive(RowsAfter(before, e.op, e.at), key, now) <==> IsLive(before, key, now);
        }
      } else {
        OtherKeys(before, e.op, key, e.at, now);
      }
    }
  }

  /**
   A consume gets the token exactly when it comes before the deadline and nothing spent
   the token before. So at most one consume ever gets it.
   */
  lemma ConsumedExactlyWhen<T>(rows: Rows<T>, events: seq<Event<T>>, key: string, token: Entry<T>, issued: int, n: nat)
    requires key in rows && rows[key] == token && Timely(events, issued) && OnlySpends(events, key)
    requires n < |events| && events[n].op == Take(key)
    ensures AnswerTo(Before(rows, events, n), Take(key), events[n].at)
         == Found(if events[n].at < token.expires && forall m :: 0 <= m < n ==> !Spends(events[m], key)
                  then Some(token.value) else None)
  {
    TokenLife(rows, events, key, token, issued, n, events[n].at);
  }

  lemma ConsumedOnce<T>(rows: Rows<T>, events: seq<Event<T>>, key: string, token: Entry<T>, issued: int, n: nat, m: nat)
    requires key in rows && rows[key] == token && Timely(events, issued) && OnlySpends(events, key)
    requires n < m < |events| && events[n].op == events[m].op == Take(key)
    ensures AnswerTo(Before(rows, events, m), Take(key), events[m].at) == Found(None)
    ensures AnswerTo(Before(rows, events, m), Read(key), events[m].at) == Found(None)
  {
    ConsumedExactlyWhen(rows, events, key, token, issued, m);
    assert Spends(events[n], key);
  }
}
