/**
 The outcome table of one state database: three guarded upserts, keyed by source and
 document. Its finish time, its provider column and the free text of an error
 (`error_detail`) are left out.
 */
module Outcomes {
  import opened Basics
  import opened Fetch

  /** Failures that count retire a document at this many attempts. */
  const MAX_TOTAL_ATTEMPTS: nat := 12

  type Pair = (string, string)

  datatype Row = Row(
    status: Status,
    payload: seq<string>,
    errorCode: string,
    attempts: nat,
    session: string,
    proxy: string)

  type Table = map<Pair, Row>

  function PairOf(r: FetchResult): Pair {
    (r.site, r.doc)
  }

  /** Attempts blocked by an open breaker do not count toward retirement. */
  function Increment(r: FetchResult): nat {
    if r.healthy then r.attempt else 0
  }

  /** What one record makes of a pair's row. */
  function Upserted(row: Option<Row>, r: FetchResult): Option<Row> {
    match r.status
    case Ok =>
      Some(Row(Ok, r.rows, "", if row.Some? then row.value.attempts else 0, r.session, r.proxy))
    case NotFound =>
      if row.Some? && row.value.status == Ok then row
      else Some(Row(NotFound, [], "", if row.Some? then row.value.attempts else 0, r.session, r.proxy))
    case Failed =>
      if row.None? then Some(Row(Failed, [], r.errorCode, Increment(r), r.session, r.proxy))
      else if row.value.status != Failed then row
      else Some(Row(Failed, row.value.payload, r.errorCode, row.value.attempts + Increment(r), r.session, r.proxy))
  }

  function At<K, V>(m: map<K, V>, k: K): Option<V> {
    if k in m then Some(m[k]) else None
  }

  function Recorded(table: Table, r: FetchResult): Table {
    table[PairOf(r) := Upserted(At(table, PairOf(r)), r).value]
  }

  /** A pair the next run skips. */
  predicate Done(row: Row) {
    row.status != Failed || row.attempts >= MAX_TOTAL_ATTEMPTS
  }

  datatype Counts = Counts(succeeded: nat, notFound: nat, terminalFailed: nat, retryable: nat)

  function Having(table: Table, site: string, status: Status, capped: bool): set<Pair> {
    set p | p in table && p.0 == site && table[p].status == status &&
      (status == Failed ==> (table[p].attempts >= MAX_TOTAL_ATTEMPTS) == capped)
  }

  class OutcomeStore {
    var rows: Table

    constructor ()
      ensures rows == map[]
    {
      rows := map[];
    }

    method RecordSuccess(r: FetchResult)
      requires r.status == Ok
      modifies this
      ensures rows == Recorded(old(rows), r)
    {
      var key := (r.site, r.doc);
      if key in rows {
        rows := rows[key :=
          rows[key].(status := Ok, payload := r.rows, errorCode := "", session := r.session, proxy := r.proxy)];
      } else {
        rows := rows[key := Row(Ok, r.rows, "", 0, r.session, r.proxy)];
      }
    }

    method RecordNotFound(r: FetchResult)
      requires r.status == NotFound
      modifies this
      ensures rows == Recorded(old(rows), r)
    {
      var key := (r.site, r.doc);
      if key !in rows {
        rows := rows[key := Row(NotFound, [], "", 0, r.session, r.proxy)];
      } else if rows[key].status != Ok {
        rows := rows[key :=
          rows[key].(status := NotFound, payload := [], errorCode := "", session := r.session, proxy := r.proxy)];
      } else {
        assert rows == rows[key := rows[key]];
      }
    }

    method RecordFailure(r: FetchResult)
      requires r.status == Failed
      modifies this
      ensures rows == Recorded(old(rows), r)
      ensures var key, was := (r.site, r.doc), old(rows);
        key in was && was[key].status != Failed ==> rows == was
      ensures var key, was := (r.site, r.doc), old(rows);
        key in was && was[key].status == Failed ==>
          rows == was[key := Row(Failed, was[key].payload, r.errorCode,
                                 was[key].attempts + (if r.healthy then r.attempt else 0), r.session, r.proxy)]
    {
      var key := (r.site, r.doc);
      var increment := if r.healthy then r.attempt else 0;
      if key !in rows {
        rows := rows[key := Row(Failed, [], r.errorCode, increment, r.session, r.proxy)];
      } else if rows[key].status !in {Ok, NotFound} {
        rows := rows[key := rows[key].(errorCode := r.errorCode, attempts := rows[key].attempts + increment,
                                       session := r.session, proxy := r.proxy)];
      } else {
        assert rows == rows[key := rows[key]];
      }
    }

    /** How a worker routes a result. */
    method Record(r: FetchResult)
      modifies this
      ensures rows == Recorded(old(rows), r)
    {
      match r.status {
        case Ok => RecordSuccess(r);
        case NotFound => RecordNotFound(r);
        case Failed => RecordFailure(r);
      }
    }

    /** A merge copies rows as they are; a second row for a pair violates the primary key. */
    method RecordSnapshot(pair: Pair, row: Row) returns (inserted: bool)
      modifies this
      ensures inserted <==> pair !in old(rows)
      ensures rows == if inserted then old(rows)[pair := row] else old(rows)
    {
      inserted := pair !in rows;
      if inserted {
        rows := rows[pair := row];
      }
    }

    /** The terminal predicate over the whole table. */
    method DonePairs() returns (done: set<Pair>)
      ensures done == DoneIn(rows)
      ensures forall p :: p in done <==> p in rows && (rows[p].status in {Ok, NotFound} || rows[p].attempts >= 12)
    {
      done := {};
      var rest := rows.Keys;
      while rest != {}
        invariant rest <= rows.Keys
        invariant done == set p | p in rows && p !in rest && Done(rows[p])
        decreases |rest|
      {
        var p :| p in rest;
        rest := rest - {p};
        if rows[p].status in {Ok, NotFound} || rows[p].attempts >= MAX_TOTAL_ATTEMPTS {
          done := done + {p};
        }
      }
    }
  }

  function DoneIn(table: Table): set<Pair> {
    set p | p in table && Done(table[p])
  }

  function OfSite(table: Table, site: string): set<Pair> {
    set p | p in table && p.0 == site
  }

  /** The four counts of a site add up to its rows, and the retryable ones are those not done. */
  lemma CountsPartition(table: Table, site: string)
    ensures OfSite(table, site) == Having(table, site, Ok, false) + Having(table, site, NotFound, false)
                                   + Having(table, site, Failed, true) + Having(table, site, Failed, false)
    ensures |OfSite(table, site)| == |Having(table, site, Ok, false)| + |Having(table, site, NotFound, false)|
                                     + |Having(table, site, Failed, true)| + |Having(table, site, Failed, false)|
    ensures Having(table, site, Failed, false) == OfSite(table, site) - DoneIn(table)
  {
    CountsCover(table, site);
    CountsApart(table, site);
    hide Having, OfSite, DoneIn;
    Sizes(Having(table, site, Ok, false), Having(table, site, NotFound, false),
          Having(table, site, Failed, true), Having(table, site, Failed, false));
  }

  lemma CountsCover(table: Table, site: string)
    ensures OfSite(table, site) == Having(table, site, Ok, false) + Having(table, site, NotFound, false)
                                   + Having(table, site, Failed, true) + Having(table, site, Failed, false)
    ensures Having(table, site, Failed, false) == OfSite(table, site) - DoneIn(table)
  {
    var ok, missing := Having(table, site, Ok, false), Having(table, site, NotFound, false);
    var capped, retryable := Having(table, site, Failed, true), Having(table, site, Failed, false);
    forall p ensures p in OfSite(table, site) <==> p in ok || p in missing || p in capped || p in retryable {
    }
    forall p ensures p in retryable <==> p in OfSite(table, site) && p !in DoneIn(table) {
    }
    hide Having, OfSite, DoneIn;
  }

  lemma CountsApart(table: Table, site: string)
    ensures Having(table, site, Ok, false) !! Having(table, site, NotFound, false)
    ensures (Having(table, site, Ok, false) + Having(table, site, NotFound, false)) !! Having(table, site, Failed, true)
    ensures (Having(table, site, Ok, false) + Having(table, site, NotFound, false) + Having(table, site, Failed, true))
            !! Having(table, site, Failed, false)
  {
  }

  lemma Sizes<T>(a: set<T>, b: set<T>, c: set<T>, d: set<T>)
    requires a !! b && (a + b) !! c && (a + b + c) !! d
    ensures |a + b + c + d| == |a| + |b| + |c| + |d|
  {
  }

  // ------------------------------------------------------- a row is a fold over its pair

  function Fed(table: Table, results: seq<FetchResult>): Table
    decreases |results|
  {
    if results == [] then table else Fed(Recorded(table, results[0]), results[1..])
  }

  function RowFed(row: Option<Row>, results: seq<FetchResult>): Option<Row>
    decreases |results|
  {
    if results == [] then row else RowFed(Upserted(row, results[0]), results[1..])
  }

  /** The results about one pair, in order. */
  function About(results: seq<FetchResult>, pair: Pair): (r: seq<FetchResult>)
    ensures forall x :: x in r ==> x in results && PairOf(x) == pair
  {
    if results == [] then []
    else if PairOf(results[0]) == pair then [results[0]] + About(results[1..], pair)
    else About(results[1..], pair)
  }

  lemma {:induction false} RowIsFold(table: Table, results: seq<FetchResult>, pair: Pair)
    ensures At(Fed(table, results), pair) == RowFed(At(table, pair), About(results, pair))
    decreases |results|
  {
    if results != [] {
      var next := Recorded(table, results[0]);
      RowIsFold(next, results[1..], pair);
      if PairOf(results[0]) == pair {
        assert About(results, pair)[1..] == About(results[1..], pair);
        assert At(next, pair) == Upserted(At(table, pair), results[0]);
      } else {
        assert At(next, pair) == At(table, pair);
      }
    }
  }

  /** Only the order within each pair matters: every interleaving of lanes leaves the same table. */
  lemma InterleavingsAgree(table: Table, a: seq<FetchResult>, b: seq<FetchResult>)
    requires forall pair :: About(a, pair) == About(b, pair)
    ensures Fed(table, a) == Fed(table, b)
  {
    var left, right := Fed(table, a), Fed(table, b);
    forall pair ensures At(left, pair) == At(right, pair) {
      RowIsFold(table, a, pair);
      RowIsFold(table, b, pair);
    }
    assert forall p :: p in left <==> At(left, p).Some?;
    assert forall p :: p in right <==> At(right, p).Some?;
    assert forall p :: p in left ==> p in right && At(left, p) == At(right, p);
  }

  lemma {:induction false} FedAppend(table: Table, a: seq<FetchResult>, b: seq<FetchResult>)
    ensures Fed(table, a + b) == Fed(Fed(table, a), b)
    decreases |a|
  {
    if a == [] {
      assert a + b == b;
    } else {
      assert (a + b)[1..] == a[1..] + b;
      FedAppend(Recorded(table, a[0]), a[1..], b);
    }
  }

  lemma {:induction false} AboutAppend(a: seq<FetchResult>, b: seq<FetchResult>, pair: Pair)
    ensures About(a + b, pair) == About(a, pair) + About(b, pair)
    decreases |a|
  {
    if a == [] {
      assert a + b == b;
    } else {
      assert (a + b)[1..] == a[1..] + b;
      AboutAppend(a[1..], b, pair);
    }
  }

  // ------------------------------------------------------------------ what a row says

  predicate Ever(results: seq<FetchResult>, status: Status) {
    exists n :: 0 <= n < |results| && results[n].status == status
  }

  function Last(results: seq<FetchResult>, status: Status): (r: FetchResult)
    requires Ever(results, status)
    ensures r.status == status && r in results
  {
    if results[|results| - 1].status == status then results[|results| - 1] else Last(results[..|results| - 1], status)
  }

  /** Attempts of the failures that came before anything else. */
  function AttemptsFirst(results: seq<FetchResult>): nat {
    if results == [] || results[0].status != Failed then 0
    else (if results[0].healthy then results[0].attempt else 0) + AttemptsFirst(results[1..])
  }

  lemma {:induction false} AttemptsFirstAppend(results: seq<FetchResult>, last: FetchResult)
    ensures AttemptsFirst(results + [last])
         == AttemptsFirst(results) +
           (if last.status == Failed && !Ever(results, Ok) && !Ever(results, NotFound) then Increment(last) else 0)
  {
    var all := results + [last];
    if results != [] {
      var rest := results[1..];
      AttemptsFirstAppend(rest, last);
      assert all[1..] == rest + [last];
      EverTail(results, Ok);
      EverTail(results, NotFound);
    } else {
      assert AttemptsFirst(all[1..]) == 0;
    }
  }

  lemma EverTail(results: seq<FetchResult>, status: Status)
    requires results != []
    ensures Ever(results, status) <==> results[0].status == status || Ever(results[1..], status)
  {
    if n :| 0 <= n < |results| && results[n].status == status {
      if n > 0 {
        assert results[1..][n - 1].status == status;
      }
    }
    if m :| 0 <= m < |results[1..]| && results[1..][m].status == status {
      assert results[m + 1].status == status;
    }
  }

  lemma EverSnoc(results: seq<FetchResult>, last: FetchResult, status: Status)
    ensures Ever(results + [last], status) <==> Ever(results, status) || last.status == status
    ensures Ever(results + [last], status) ==>
      Last(results + [last], status) == if last.status == status then last else Last(results, status)
  {
    var all := results + [last];
    assert all[..|all| - 1] == results && all[|all| - 1] == last;
    if n :| 0 <= n < |results| && results[n].status == status {
      assert all[n].status == status;
    }
    assert all[|results|] == last;
  }

  /** The row of a pair, without replaying its records. */
  predicate Says(row: Row, results: seq<FetchResult>)
    requires results != []
  {
    && row.attempts == AttemptsFirst(results)
    && if Ever(results, Ok) then
         var r := Last(results, Ok); row == Row(Ok, r.rows, "", row.attempts, r.session, r.proxy)
       else if Ever(results, NotFound) then
         var r := Last(results, NotFound); row == Row(NotFound, [], "", row.attempts, r.session, r.proxy)
       else
         var r := results[|results| - 1]; row == Row(Failed, [], r.errorCode, row.attempts, r.session, r.proxy)
  }

  /** What one more record makes of a row that says what its records say. */
  lemma SaysFirst(last: FetchResult)
    ensures Upserted(None, last).Some? && Says(Upserted(None, last).value, [last])
  {
    assert [] + [last] == [last];
    EverSnoc([], last, Ok);
    EverSnoc([], last, NotFound);
    AttemptsFirstAppend([], last);
    assert !Ever([], Ok) && !Ever([], NotFound) && AttemptsFirst([]) == 0;
    hide Ever, Last, AttemptsFirst;
  }

  lemma SaysNext(row: Row, before: seq<FetchResult>, last: FetchResult)
    requires before != [] && Says(row, before)
    ensures Upserted(Some(row), last).Some? && Says(Upserted(Some(row), last).value, before + [last])
  {
    AttemptsFirstAppend(before, last);
    EverSnoc(before, last, Ok);
    EverSnoc(before, last, NotFound);
    EverSomething(before);
    hide AttemptsFirst, Ever, Last;
  }

  /**
   A row shows the last success if there ever was one, else the last not-found answer,
   else the last failure; its attempts are those of the failures before either.
   */
  lemma {:induction false} RowSays(results: seq<FetchResult>)
    requires results != []
    ensures RowFed(None, results).Some? && Says(RowFed(None, results).value, results)
  {
    var before, last := results[..|results| - 1], results[|results| - 1];
    assert results == before + [last];
    RowFedSnoc(None, before, last);
    if before == [] {
      NothingFed();
      hide RowFed, Says, Upserted;
      assert results == [last];
      SaysFirst(last);
    } else {
      hide RowFed, Says, Upserted;
      RowSays(before);
      SaysNext(RowFed(None, before).value, before, last);
    }
  }

  lemma NothingFed()
    ensures RowFed(None, []) == None
  {
  }

  /** If a pair only ever failed, so did its last record. */
  lemma EverSomething(results: seq<FetchResult>)
    requires results != []
    ensures !Ever(results, Ok) && !Ever(results, NotFound) ==> results[|results| - 1].status == Failed
  {
  }

  lemma {:induction false} RowFedSnoc(row: Option<Row>, results: seq<FetchResult>, last: FetchResult)
    ensures RowFed(row, results + [last]) == Upserted(RowFed(row, results), last)
    decreases |results|
  {
    if results == [] {
      assert ([] + [last])[1..] == [];
    } else {
      assert (results + [last])[1..] == results[1..] + [last];
      RowFedSnoc(Upserted(row, results[0]), results[1..], last);
    }
  }

  // ----------------------------------------------------------------- rows only improve

  function Rank(row: Option<Row>): nat {
    if row.None? then 0 else match row.value.status case Failed => 1 case NotFound => 2 case Ok => 3
  }

  /** One record never lowers the status, never takes attempts away and never undoes a done pair. */
  lemma RecordImproves(row: Option<Row>, r: FetchResult)
    ensures var next := Upserted(row, r);
      && next.Some? && Rank(row) <= Rank(next)
      && (row.Some? ==> row.value.attempts <= next.value.attempts)
      && (row.Some? && Done(row.value) ==> Done(next.value))
      && (row.Some? && row.value.status == Ok ==> next.value.status == Ok && (r.status != Ok ==> next == row))
  {
  }

  lemma {:induction false} RowImproves(row: Option<Row>, results: seq<FetchResult>)
    ensures var last := RowFed(row, results);
      && Rank(row) <= Rank(last)
      && (row.Some? ==> last.Some? && row.value.attempts <= last.value.attempts)
      && (row.Some? && Done(row.value) ==> Done(last.value))
    decreases |results|
  {
    if results != [] {
      RecordImproves(row, results[0]);
      RowImproves(Upserted(row, results[0]), results[1..]);
    }
  }

  /** Over any run of records statuses never fall and the done set only grows. */
  lemma TableImproves(table: Table, results: seq<FetchResult>)
    ensures table.Keys <= Fed(table, results).Keys
    ensures DoneIn(table) <= DoneIn(Fed(table, results))
    ensures forall p :: p in table ==> Rank(Some(table[p])) <= Rank(Some(Fed(table, results)[p]))
  {
    forall p | p in table
      ensures p in Fed(table, results) && Rank(Some(table[p])) <= Rank(Some(Fed(table, results)[p]))
      ensures Done(table[p]) ==> Done(Fed(table, results)[p])
    {
      RowIsFold(table, results, p);
      RowImproves(Some(table[p]), About(results, p));
    }
  }
}
