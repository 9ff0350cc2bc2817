/**
 Fixed-window counters in the ephemeral store: the per-actor cap on changes and the
 login lock.
 */
module Throttle {
  import opened Basics
  import opened Ephemeral

  const LOGIN_WINDOW: int := 300
  const LOGIN_ATTEMPT_LIMIT: nat := 5

  const MUTATION_WINDOW: int := 60
  const MUTATION_LIMIT: nat := 30

  type Store = Ephemeral.EphemeralStore<string>

  class MutationThrottle {
    const store: Store

    constructor (store: Store)
      ensures this.store == store
    {
      this.store := store;
    }

    /** Counts the request; none when the key holds something else than a counter. */
    method Admit(actor: string, routeClass: string, now: int) returns (admitted: Option<bool>)
      modifies store
      ensures var op := Increment("mutate:" + actor + ":" + routeClass, MUTATION_WINDOW);
        && store.rows == RowsAfter(old(store.rows), op, now)
        && admitted == match AnswerTo(old(store.rows), op, now)
                       case Counted(used) => Some(used <= MUTATION_LIMIT)
                       case _ => None
      ensures exists used ::
        CountsUp(old(store.rows), store.rows, "mutate:" + actor + ":" + routeClass, 60, now, used) &&
          admitted == if used.Some? then Some(used.value <= 30) else None
    {
      var used := store.CountUp("mutate:" + actor + ":" + routeClass, MUTATION_WINDOW, now);
      return if used.Some? then Some(used.value <= MUTATION_LIMIT) else None;
    }
  }

  function LoginKeys(account: string, source: string): seq<string> {
    ["login_fail:account:" + account, "login_fail:source:" + source]
  }

  predicate Locked(rows: Rows<string>, key: string, now: int) {
    IsLive(rows, key, now) && rows[key].value.Count? && rows[key].value.n >= LOGIN_ATTEMPT_LIMIT
  }

  predicate Counter(rows: Rows<string>, key: string, now: int) {
    IsLive(rows, key, now) ==> rows[key].value.Count?
  }

  /** The key's failures lock it: a counter in force that says at least five. */
  predicate HasFive(rows: Rows<string>, key: string, now: int) {
    key in rows && now < rows[key].expires && rows[key].value.Count? && rows[key].value.n >= 5
  }

  /** One more failure of the account and of the source, each in its own window of five minutes; nothing else. */
  ghost predicate FailureCounted(was: Rows<string>, rows: Rows<string>, account: string, source: string, now: int) {
    exists between, a, b ::
      && CountsUp(was, between, "login_fail:account:" + account, 300, now, a)
      && CountsUp(between, rows, "login_fail:source:" + source, 300, now, b)
  }

  class LoginThrottle {
    const store: Store

    constructor (store: Store)
      ensures this.store == store
    {
      this.store := store;
    }

    /** None when a key turns out to hold something else than a counter. */
    method Allows(account: string, source: string, now: int) returns (allowed: Option<bool>)
      ensures (forall key :: key in LoginKeys(account, source) ==> Counter(store.rows, key, now)) ==>
        allowed == Some(forall key :: key in LoginKeys(account, source) ==> !Locked(store.rows, key, now))
      ensures allowed == Some(true) ==>
        forall key :: key in LoginKeys(account, source) ==>
          Counter(store.rows, key, now) && !Locked(store.rows, key, now)
      ensures allowed == Some(false) ==> exists key :: key in LoginKeys(account, source) && Locked(store.rows, key, now)
      ensures var a, b := "login_fail:account:" + account, "login_fail:source:" + source;
        && (allowed == Some(true) ==> !HasFive(store.rows, a, now) && !HasFive(store.rows, b, now))
        && (allowed == Some(false) ==> HasFive(store.rows, a, now) || HasFive(store.rows, b, now))
    {
      var keys := LoginKeys(account, source);
      for n := 0 to |keys|
        invariant forall m :: 0 <= m < n ==> Counter(store.rows, keys[m], now) && !Locked(store.rows, keys[m], now)
      {
        assert keys[n] in keys;
        var counted := store.Get(keys[n], now);
        if counted.Some? && counted.value.Other? {
          return None;
        }
        if counted.Some? && counted.value.n >= LOGIN_ATTEMPT_LIMIT {
          return Some(false);
        }
      }
      assert !Locked(store.rows, keys[0], now) && !Locked(store.rows, keys[1], now);
      return Some(true);
    }

    method RecordFailure(account: string, source: string, now: int)
      modifies store
      ensures var keys := LoginKeys(account, source);
        store.rows == Play(old(store.rows), [Event(Increment(keys[0], LOGIN_WINDOW), now),
                                             Event(Increment(keys[1], LOGIN_WINDOW), now)])
      ensures FailureCounted(old(store.rows), store.rows, account, source, now)
    {
      hide FailureCounted;
      var keys := LoginKeys(account, source);
      BothCounted(store.rows, account, source, now);
      ghost var before := store.rows;
      var done: seq<Event<string>> := [];
      for n := 0 to |keys|
        invariant done == (seq(n, k requires 0 <= k < n => Event(Increment(keys[k], LOGIN_WINDOW), now)))
        invariant store.rows == Play(before, done)
      {
        var _ := store.CountUp(keys[n], LOGIN_WINDOW, now);
        PlayMore(before, done, Event(Increment(keys[n], LOGIN_WINDOW), now));
        done := done + [Event(Increment(keys[n], LOGIN_WINDOW), now)];
      }
      assert done == [Event(Increment(keys[0], LOGIN_WINDOW), now), Event(Increment(keys[1], LOGIN_WINDOW), now)];
    }

    method Clear(account: string, source: string)
      modifies store
      ensures store.rows == old(store.rows) - {"login_fail:account:" + account, "login_fail:source:" + source}
      ensures store.rows == old(store.rows) - (set key | key in LoginKeys(account, source))
    {
      var keys := LoginKeys(account, source);
      for n := 0 to |keys|
        invariant store.rows == old(store.rows) - (set key | key in keys[..n])
      {
        store.Drop(keys[n]);
        assert store.rows == old(store.rows) - (set key | key in keys[..n]) - {keys[n]} by {
          assert store.rows == RowsAfter(old(store.rows) - (set key | key in keys[..n]), Discard(keys[n]), 0);
        }
      }
      assert keys[..|keys|] == keys;
      assert (set key | key in keys) == {keys[0], keys[1]};
    }
  }

  lemma BothCounted(rows: Rows<string>, account: string, source: string, now: int)
    ensures var keys := LoginKeys(account, source);
      FailureCounted(rows, Play(rows, [Event(Increment(keys[0], LOGIN_WINDOW), now),
                                       Event(Increment(keys[1], LOGIN_WINDOW), now)]), account, source, now)
  {
    var keys := LoginKeys(account, source);
    var first, last := Event(Increment(keys[0], LOGIN_WINDOW), now), Event(Increment(keys[1], LOGIN_WINDOW), now);
    var between := RowsAfter(rows, first.op, now);
    PlayMore(rows, [first], last);
    PlayMore(rows, [], first);
    assert [] + [first] == [first] && [first] + [last] == [first, last];
    CountsAsSaid(rows, keys[0], LOGIN_WINDOW, now);
    CountsAsSaid(between, keys[1], LOGIN_WINDOW, now);
  }

  lemma CountsAsSaid<T>(rows: Rows<T>, key: string, ttl: int, now: int)
    ensures exists r :: CountsUp(rows, RowsAfter(rows, Increment(key, ttl), now), key, ttl, now, r)
  {
    var r := match AnswerTo(rows, Increment(key, ttl), now) case Counted(n) => Some(n) case _ => None;
    assert CountsUp(rows, RowsAfter(rows, Increment(key, ttl), now), key, ttl, now, r);
  }

  lemma {:induction false} PlayMore<T>(rows: Rows<T>, events: seq<Event<T>>, last: Event<T>)
    ensures Play(rows, events + [last]) == RowsAfter(Play(rows, events), last.op, last.at)
    decreases |events|
  {
    if events == [] {
      assert [last][1..] == [];
    } else {
      assert (events + [last])[1..] == events[1..] + [last];
      PlayMore(RowsAfter(rows, events[0].op, events[0].at), events[1..], last);
    }
  }

  // -------------------------------------------------------------------- one counter

  /** The key of a counter is only counted up, read and discarded. */
  predicate OnlyCounts<T>(events: seq<Event<T>>, key: string, window: int) {
    forall n :: 0 <= n < |events| && OpKey(events[n].op) == Some(key) ==>
      events[n].op == Increment(key, window) || events[n].op == Read(key) || events[n].op == Discard(key)
  }

  /** The event that opened the window in force, and how many it counts. */
  datatype Window = Window(first: nat, count: nat)

  function WindowAt<T(==)>(events: seq<Event<T>>, key: string, window: int, n: nat): (w: Option<Window>)
    requires n <= |events|
    ensures w.Some? ==> w.value.first < n
  {
    if n == 0 then None
    else
      var before, e := WindowAt(events, key, window, n - 1), events[n - 1];
      if e.op == Increment(key, window) then
        if before.Some? && e.at < events[before.value.first].at + window then
          Some(Window(before.value.first, before.value.count + 1))
        else Some(Window(n - 1, 1))
      else if e.op == Discard(key) then None
      else before
  }

  /** What counting up leaves: one more in the window in force, or a new window. */
  lemma CountedRow<T>(rows: Rows<T>, key: string, window: int, at: int, now: int)
    requires IsLive(rows, key, at) ==> rows[key].value.Count?
    ensures var r := RowsAfter(rows, Increment(key, window), at);
      && key in r
      && (IsLive(rows, key, at) ==> r[key] == Entry(Count(rows[key].value.n + 1), rows[key].expires))
      && (!IsLive(rows, key, at) ==> r[key] == Entry(Count(1), at + window))
      && (IsLive(r, key, now) <==> now < r[key].expires)
  {
  }

  lemma LastSoFar<T>(events: seq<Event<T>>, since: int, n: nat)
    requires Timely(events, since) && n < |events|
    ensures since <= events[n].at && forall m :: 0 <= m <= n ==> events[m].at <= events[n].at
  {
  }

  lemma ReadOrDropped<T>(rows: Rows<T>, key: string, at: int, now: int)
    ensures RowsAfter(rows, Read(key), at) == rows
    ensures !IsLive(RowsAfter(rows, Discard(key), at), key, now)
  {
  }

  /** Until its deadline a counter's row says what its window says. */
  lemma {:induction false} RowIsWindow<T>(rows: Rows<T>, events: seq<Event<T>>, key: string, window: int, since: int,
      n: nat, now: int)
    requires !IsLive(rows, key, since) && 0 < window
    requires Timely(events, since) && OnlyCounts(events, key, window)
    requires n <= |events| && since <= now && forall m :: 0 <= m < n ==> events[m].at <= now
    ensures var w, r := WindowAt(events, key, window, n), Before(rows, events, n);
      && (IsLive(r, key, now) <==> w.Some? && now < events[w.value.first].at + window)
      && (IsLive(r, key, now) ==> r[key] == Entry(Count(w.value.count), events[w.value.first].at + window))
  {
    hide RowsAfter, Timely;
    if n > 0 {
      LastSoFar(events, since, n - 1);
      var e, before := events[n - 1], Before(rows, events, n - 1);
      RowIsWindow(rows, events, key, window, since, n - 1, now);
      if e.op == Increment(key, window) {
        RowIsWindow(rows, events, key, window, since, n - 1, e.at);
        CountedRow(before, key, window, e.at, now);
      } else if OpKey(e.op) != Some(key) {
        OtherKeys(before, e.op, key, e.at, now);
      } else {
        ReadOrDropped(before, key, e.at, now);
      }
    }
  }

  function Increments<T(==)>(events: seq<Event<T>>, key: string, window: int, first: nat, end: nat): nat
    requires first <= end <= |events|
    decreases end
  {
    if first == end then 0
    else
      Increments(events, key, window, first, end - 1) + (if events[end - 1].op == Increment(key, window) then 1 else 0)
  }

  /**
   A window counts every event since the one that opened it; none of them came after its deadline,
   none cleared it.
   */
  lemma {:induction false} WindowCounts<T>(events: seq<Event<T>>, key: string, window: int, n: nat)
    requires n <= |events| && WindowAt(events, key, window, n).Some? && 0 < window
    ensures var w := WindowAt(events, key, window, n).value;
      && events[w.first].op == Increment(key, window)
      && w.count == Increments(events, key, window, w.first, n)
      && (forall m :: w.first <= m < n && events[m].op == Increment(key, window) ==>
            events[m].at < events[w.first].at + window)
      && (forall m :: w.first <= m < n ==> events[m].op != Discard(key))
  {
    var e := events[n - 1];
    var w := WindowAt(events, key, window, n).value;
    if w.first == n - 1 && e.op == Increment(key, window) {
      assert Increments(events, key, window, n - 1, n - 1) == 0;
    } else {
      WindowCounts(events, key, window, n - 1);
    }
  }

  /**
   A login is locked at `now` only while the failure that opened the window is less than
   a window old, with the limit of failures recorded since and nothing cleared: the
   failures that follow never move the deadline.
   */
  lemma LockedExactlyWhen(rows: Rows<string>, events: seq<Event<string>>, key: string, since: int, n: nat, now: int)
    requires !IsLive(rows, key, since) && Timely(events, since) && OnlyCounts(events, key, LOGIN_WINDOW)
    requires n <= |events| && since <= now && forall m :: 0 <= m < n ==> events[m].at <= now
    ensures HasFive(Before(rows, events, n), key, now) <==>
      var w := WindowAt(events, key, 300, n);
      && w.Some?
      && now < events[w.value.first].at + 300
      && Increments(events, key, 300, w.value.first, n) >= 5
    ensures HasFive(Before(rows, events, n), key, now) ==>
      exists i: nat :: i < n && events[i].op == Increment(key, 300) && events[i].at <= now < events[i].at + 300
                       && Increments(events, key, 300, i, n) >= 5
  {
    RowIsWindow(rows, events, key, LOGIN_WINDOW, since, n, now);
    if WindowAt(events, key, LOGIN_WINDOW, n).Some? {
      WindowCounts(events, key, LOGIN_WINDOW, n);
    }
  }

  // ------------------------------------------------------------- the sliding-window bound

  predicate NeverCleared<T>(events: seq<Event<T>>, key: string) {
    forall n :: 0 <= n < |events| ==> events[n].op != Discard(key)
  }

  /** The count a request is answered with. */
  function CountOf<T(==)>(events: seq<Event<T>>, key: string, window: int, n: nat): nat
    requires n < |events| && events[n].op == Increment(key, window)
  {
    WindowAt(events, key, window, n + 1).value.count
  }

  function Opening<T(==)>(events: seq<Event<T>>, key: string, window: int, n: nat): (first: nat)
    requires n < |events| && events[n].op == Increment(key, window)
    ensures first <= n
  {
    WindowAt(events, key, window, n + 1).value.first
  }

  lemma CountIsAnswer<T>(rows: Rows<T>, events: seq<Event<T>>, key: string, window: int, since: int, n: nat)
    requires !IsLive(rows, key, since) && 0 < window
    requires Timely(events, since) && OnlyCounts(events, key, window)
    requires n < |events| && events[n].op == Increment(key, window)
    ensures AnswerTo(Before(rows, events, n), events[n].op, events[n].at) == Counted(CountOf(events, key, window, n))
  {
    RowIsWindow(rows, events, key, window, since, n, events[n].at);
  }

  /** Later counts are higher within a window, and windows open at least a window apart. */
  lemma {:induction false} WindowsApart<T>(events: seq<Event<T>>, key: string, window: int, n: nat, m: nat)
    requires 0 < window && NeverCleared(events, key) && 0 < n <= m <= |events| && WindowAt(events, key, window, n).Some?
    ensures var a, b := WindowAt(events, key, window, n), WindowAt(events, key, window, m);
      && b.Some?
      && a.value.first <= b.value.first
      && (a.value.first == b.value.first ==>
            a.value.count <= b.value.count &&
              (n < m && events[m - 1].op == Increment(key, window) ==> a.value.count < b.value.count))
      && (a.value.first != b.value.first ==> events[a.value.first].at + window <= events[b.value.first].at)
    decreases m - n
  {
    if n < m {
      WindowsApart(events, key, window, n, m - 1);
    }
  }

  ghost function AdmittedIn<T>(events: seq<Event<T>>, key: string, window: int, limit: nat, from: int): set<nat> {
    set n: nat | n < |events| && events[n].op == Increment(key, window) && from <= events[n].at < from + window
                 && CountOf(events, key, window, n) <= limit
  }

  /** Where an admitted request stands: its count, after the limit if its window is not the interval's first. */
  function Rank<T(==)>(events: seq<Event<T>>, key: string, window: int, limit: nat, first: nat, n: nat): int
    requires n < |events| && events[n].op == Increment(key, window)
  {
    CountOf(events, key, window, n) - 1 + (if Opening(events, key, window, n) == first then 0 else limit)
  }

  lemma IncrementOpens<T>(events: seq<Event<T>>, key: string, window: int, n: nat)
    requires n < |events| && events[n].op == Increment(key, window)
    ensures WindowAt(events, key, window, n + 1).Some?
  {
  }

  lemma RanksDiffer<T>(events: seq<Event<T>>, key: string, window: int, limit: nat, from: int, since: int, least: nat,
      n: nat, m: nat)
    requires 0 < window && NeverCleared(events, key) && Timely(events, since)
    requires var all := AdmittedIn(events, key, window, limit, from);
      least in all && n in all && m in all && least <= n < m
    ensures var first := Opening(events, key, window, least);
      Rank(events, key, window, limit, first, n) != Rank(events, key, window, limit, first, m)
  {
    hide WindowAt, Increments;
    IncrementOpens(events, key, window, least);
    IncrementOpens(events, key, window, n);
    IncrementOpens(events, key, window, m);
    WindowCounts(events, key, window, least + 1);
    WindowCounts(events, key, window, n + 1);
    WindowCounts(events, key, window, m + 1);
    WindowsApart(events, key, window, least + 1, n + 1);
    WindowsApart(events, key, window, n + 1, m + 1);
    WindowsApart(events, key, window, least + 1, m + 1);
    CountIsPositive(events, key, window, n + 1);
    CountIsPositive(events, key, window, m + 1);
  }

  lemma RankInRange<T>(events: seq<Event<T>>, key: string, window: int, limit: nat, from: int, first: nat, n: nat)
    requires n in AdmittedIn(events, key, window, limit, from)
    ensures 0 <= Rank(events, key, window, limit, first, n) < 2 * limit
  {
    hide WindowAt;
    IncrementOpens(events, key, window, n);
    CountIsPositive(events, key, window, n + 1);
  }

  lemma {:induction false} CountIsPositive<T>(events: seq<Event<T>>, key: string, window: int, n: nat)
    requires n <= |events| && WindowAt(events, key, window, n).Some?
    ensures 1 <= WindowAt(events, key, window, n).value.count
  {
    if events[n - 1].op != Increment(key, window) {
      CountIsPositive(events, key, window, n - 1);
    }
  }

  lemma {:induction false} Least(all: set<nat>) returns (least: nat)
    requires all != {}
    ensures least in all && forall n :: n in all ==> least <= n
  {
    var some :| some in all;
    least := some;
    if all != {some} {
      var other := Least(all - {some});
      assert forall n :: n in all ==> n == some || n in all - {some};
      if other < some {
        least := other;
      }
    }
  }

  /** Numbers below `bound` that differ are at most `bound` many. */
  lemma {:induction false} Pigeonhole(all: set<nat>, rank: map<nat, int>, bound: nat)
    requires all <= rank.Keys
    requires forall n :: n in all ==> 0 <= rank[n] < bound
    requires forall n, m :: n in all && m in all && n != m ==> rank[n] != rank[m]
    ensures |all| <= bound
    decreases bound
  {
    if bound == 0 {
      assert all == {};
    } else if top :| top in all && rank[top] == bound - 1 {
      Pigeonhole(all - {top}, rank, bound - 1);
    } else {
      Pigeonhole(all, rank, bound - 1);
    }
  }

  /**
   Any half-open interval of one window length contains at most twice the limit of
   admitted requests, wherever it starts.
   */
  lemma SlidingWindowBound<T>(events: seq<Event<T>>, key: string, window: int, limit: nat, from: int, since: int)
    requires 0 < window && Timely(events, since) && NeverCleared(events, key)
    ensures |AdmittedIn(events, key, window, limit, from)| <= 2 * limit
  {
    hide Rank, Opening, CountOf, NeverCleared, Timely;
    var all := AdmittedIn(events, key, window, limit, from);
    if all != {} {
      var least := Least(all);
      var first := Opening(events, key, window, least);
      var rank := map n | n in all :: Rank(events, key, window, limit, first, n);
      forall n, m | n in all && m in all && n < m
        ensures rank[n] != rank[m]
      {
        RanksDiffer(events, key, window, limit, from, since, least, n, m);
      }
      forall n | n in all ensures 0 <= rank[n] < 2 * limit {
        RankInRange(events, key, window, limit, from, first, n);
      }
      Pigeonhole(all, rank, 2 * limit);
    }
  }

  /** The requests of an interval that `Admit` answers with yes. */
  ghost function AdmittedRequests(rows: Rows<string>, events: seq<Event<string>>, key: string, from: int): set<nat> {
    set n: nat | n < |events| && events[n].op == Increment(key, 60) && from <= events[n].at < from + 60
                 && WithinCap(AnswerTo(Before(rows, events, n), events[n].op, events[n].at))
  }

  predicate WithinCap(answer: Answer<string>) {
    answer.Counted? && answer.count <= 30
  }

  /** So an actor gets at most sixty changes of one kind admitted within any minute. */
  lemma MutationsBounded(rows: Rows<string>, events: seq<Event<string>>, key: string, from: int, since: int)
    requires !IsLive(rows, key, since) && Timely(events, since)
    requires OnlyCounts(events, key, 60) && NeverCleared(events, key)
    ensures |AdmittedRequests(rows, events, key, from)| <= 60
  {
    SlidingWindowBound(events, key, MUTATION_WINDOW, MUTATION_LIMIT, from, since);
    var counted := AdmittedIn(events, key, MUTATION_WINDOW, MUTATION_LIMIT, from);
    forall n | n in AdmittedRequests(rows, events, key, from) ensures n in counted {
      CountIsAnswer(rows, events, key, MUTATION_WINDOW, since, n);
    }
    Fewer(AdmittedRequests(rows, events, key, from), counted);
  }
}
