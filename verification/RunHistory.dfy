/**
 Lanes that share a queue per source, and what repeated runs make of one state
 database: no document is handed out twice, and no pair fails more than three times
 in a way that counts.
 */
module RunHistory {
  import opened Basics
  import opened Documents
  import opened Fetch
  import opened Outcomes
  import opened Resume

  // ---------------------------------------------------------------- draining the queues

  /** A result and the place in its source's queue it is for. */
  datatype Entry = Entry(site: string, index: nat, result: FetchResult)

  /** How far each queue is emptied, what each lane is fetching, and what is recorded so far. */
  datatype Pool = Pool(next: map<string, nat>, busy: map<nat, nat>, recorded: seq<Entry>, table: Table)

  datatype Act = Get(lane: nat) | Finish(lane: nat, result: FetchResult)

  datatype Work = Work(tasks: seq<LaneTask>, pending: map<string, seq<string>>) {
    ghost predicate Valid() { forall n :: 0 <= n < |tasks| ==> tasks[n].site in pending }
  }

  /** What a lane may record for a document: `FetchOne` fails only at its last attempt. */
  predicate Fetched(r: FetchResult, site: string, doc: string) {
    r.site == site && r.doc == doc && (r.status == Failed ==> r.attempt == MAX_ATTEMPTS)
  }

  ghost predicate Enabled(w: Work, p: Pool, a: Act)
    requires w.Valid()
  {
    && a.lane < |w.tasks|
    && var site := w.tasks[a.lane].site;
    && site in p.next
    && match a
       case Get(lane) => lane !in p.busy && p.next[site] < |w.pending[site]|
       case Finish(lane, r) =>
         lane in p.busy && p.busy[lane] < |w.pending[site]| && Fetched(r, site, w.pending[site][p.busy[lane]])
  }

  ghost function Next(w: Work, p: Pool, a: Act): Pool
    requires w.Valid() && Enabled(w, p, a)
  {
    var site := w.tasks[a.lane].site;
    match a
    case Get(lane) => p.(next := p.next[site := p.next[site] + 1], busy := p.busy[lane := p.next[site]])
    case Finish(lane, r) =>
      p.(busy := p.busy - {lane},
         recorded := p.recorded + [Entry(site, p.busy[lane], r)],
         table := Recorded(p.table, r))
  }

  ghost predicate Drain(w: Work, table: Table, states: seq<Pool>, acts: seq<Act>) {
    && w.Valid()
    && |states| == |acts| + 1
    && states[0] == Pool(map s | s in w.pending :: 0, map[], [], table)
    && (forall n :: 0 <= n < |acts| ==> Enabled(w, states[n], acts[n]) && states[n + 1] == Next(w, states[n], acts[n]))
  }

  function ResultsOf(entries: seq<Entry>): seq<FetchResult> {
    seq(|entries|, n requires 0 <= n < |entries| => entries[n].result)
  }

  ghost predicate IsBusy(w: Work, p: Pool, site: string, index: nat) {
    exists lane :: lane in p.busy && lane < |w.tasks| && w.tasks[lane].site == site && p.busy[lane] == index
  }

  ghost predicate IsRecorded(entries: seq<Entry>, site: string, index: nat) {
    exists n :: 0 <= n < |entries| && entries[n].site == site && entries[n].index == index
  }

  /** Lanes that are fetching have different documents in hand, none of them recorded. */
  ghost predicate InHand(w: Work, p: Pool)
    requires w.Valid()
  {
    && (forall lane :: lane in p.busy ==>
          lane < |w.tasks| && w.tasks[lane].site in p.next && p.busy[lane] < p.next[w.tasks[lane].site])
    && (forall a, b :: a in p.busy && b in p.busy && a != b && w.tasks[a].site == w.tasks[b].site ==>
          p.busy[a] != p.busy[b])
    && (forall lane :: lane in p.busy ==> !IsRecorded(p.recorded, w.tasks[lane].site, p.busy[lane]))
  }

  ghost predicate RecordedOnce(w: Work, p: Pool) {
    && p.next.Keys == w.pending.Keys
    && (forall s :: s in p.next ==> p.next[s] <= |w.pending[s]|)
    && (forall n :: 0 <= n < |p.recorded| ==>
          && p.recorded[n].site in p.next
          && p.recorded[n].index < p.next[p.recorded[n].site]
          && Fetched(p.recorded[n].result, p.recorded[n].site, w.pending[p.recorded[n].site][p.recorded[n].index]))
    && (forall n, m :: 0 <= n < m < |p.recorded| ==>
          p.recorded[n].site != p.recorded[m].site || p.recorded[n].index != p.recorded[m].index)
  }

  /** Whatever left the queue is in hand or recorded. */
  ghost predicate NothingLost(w: Work, p: Pool) {
    forall s, i: nat :: s in p.next && i < p.next[s] ==> IsBusy(w, p, s, i) || IsRecorded(p.recorded, s, i)
  }

  ghost predicate Inv(w: Work, p: Pool, table: Table)
    requires w.Valid()
  {
    InHand(w, p) && RecordedOnce(w, p) && NothingLost(w, p) && p.table == Fed(table, ResultsOf(p.recorded))
  }

  lemma NotYetRecorded(w: Work, p: Pool, site: string)
    requires RecordedOnce(w, p) && site in p.next
    ensures !IsRecorded(p.recorded, site, p.next[site])
  {
  }

  lemma GetKeepsHand(w: Work, p: Pool, lane: nat)
    requires w.Valid() && InHand(w, p) && RecordedOnce(w, p) && Enabled(w, p, Get(lane))
    ensures InHand(w, Next(w, p, Get(lane)))
  {
    NotYetRecorded(w, p, w.tasks[lane].site);
    hide RecordedOnce, IsRecorded;
  }

  lemma GetLosesNothing(w: Work, p: Pool, lane: nat)
    requires w.Valid() && NothingLost(w, p) && Enabled(w, p, Get(lane))
    ensures NothingLost(w, Next(w, p, Get(lane)))
  {
    hide IsRecorded;
    var site := w.tasks[lane].site;
    var r := Next(w, p, Get(lane));
    forall s, i: nat | s in r.next && i < r.next[s] ensures IsBusy(w, r, s, i) || IsRecorded(r.recorded, s, i) {
      if s == site && i == p.next[site] {
        assert r.busy[lane] == i;
      } else if IsBusy(w, p, s, i) {
        var other :| other in p.busy && other < |w.tasks| && w.tasks[other].site == s && p.busy[other] == i;
        assert r.busy[other] == i;
      } else {
        assert IsRecorded(p.recorded, s, i);
      }
    }
  }

  lemma GetKeeps(w: Work, p: Pool, lane: nat, table: Table)
    requires w.Valid() && Inv(w, p, table) && Enabled(w, p, Get(lane))
    ensures Inv(w, Next(w, p, Get(lane)), table)
  {
    GetKeepsHand(w, p, lane);
    GetLosesNothing(w, p, lane);
    hide Fed, Fetched, IsRecorded, InHand, NothingLost;
  }

  lemma RecordsGrow(entries: seq<Entry>, last: Entry, s: string, i: nat)
    ensures IsRecorded(entries + [last], s, i) <==> IsRecorded(entries, s, i) || (last.site == s && last.index == i)
  {
    var all := entries + [last];
    if IsRecorded(entries, s, i) {
      var n :| 0 <= n < |entries| && entries[n].site == s && entries[n].index == i;
      assert all[n] == entries[n];
    }
    assert all[|entries|] == last;
  }

  lemma FinishKeepsHand(w: Work, p: Pool, lane: nat, result: FetchResult)
    requires w.Valid() && InHand(w, p) && Enabled(w, p, Finish(lane, result))
    ensures InHand(w, Next(w, p, Finish(lane, result)))
  {
    hide Fetched, Recorded, IsRecorded;
    var r := Next(w, p, Finish(lane, result));
    forall other | other in r.busy ensures !IsRecorded(r.recorded, w.tasks[other].site, r.busy[other]) {
      RecordsGrow(p.recorded, Entry(w.tasks[lane].site, p.busy[lane], result), w.tasks[other].site, r.busy[other]);
    }
  }

  lemma FinishLosesNothing(w: Work, p: Pool, lane: nat, result: FetchResult)
    requires w.Valid() && NothingLost(w, p) && Enabled(w, p, Finish(lane, result))
    ensures NothingLost(w, Next(w, p, Finish(lane, result)))
  {
    hide Fetched, Recorded, IsRecorded;
    var r := Next(w, p, Finish(lane, result));
    forall s, i: nat | s in r.next && i < r.next[s] ensures IsBusy(w, r, s, i) || IsRecorded(r.recorded, s, i) {
      RecordsGrow(p.recorded, Entry(w.tasks[lane].site, p.busy[lane], result), s, i);
      if IsBusy(w, p, s, i) {
        var other :| other in p.busy && other < |w.tasks| && w.tasks[other].site == s && p.busy[other] == i;
        if other != lane {
          assert r.busy[other] == i;
        }
      }
    }
  }

  lemma FinishKeepsRecords(w: Work, p: Pool, lane: nat, result: FetchResult)
    requires w.Valid() && InHand(w, p) && RecordedOnce(w, p) && Enabled(w, p, Finish(lane, result))
    ensures RecordedOnce(w, Next(w, p, Finish(lane, result)))
  {
    hide Fetched, Recorded;
    assert !IsRecorded(p.recorded, w.tasks[lane].site, p.busy[lane]);
  }

  lemma FinishKeeps(w: Work, p: Pool, lane: nat, result: FetchResult, table: Table)
    requires w.Valid() && Inv(w, p, table) && Enabled(w, p, Finish(lane, result))
    ensures Inv(w, Next(w, p, Finish(lane, result)), table)
  {
    hide Fed, NothingLost, Recorded, InHand, RecordedOnce;
    FinishKeepsHand(w, p, lane, result);
    FinishLosesNothing(w, p, lane, result);
    FinishKeepsRecords(w, p, lane, result);
    assert ResultsOf(Next(w, p, Finish(lane, result)).recorded) == ResultsOf(p.recorded) + [result];
    FedAppend(table, ResultsOf(p.recorded), [result]);
    FedOne(p.table, result);
  }

  lemma FedOne(table: Table, r: FetchResult)
    ensures Fed(table, [r]) == Recorded(table, r)
  {
    assert [r][1..] == [];
    assert Fed(Recorded(table, r), []) == Recorded(table, r);
  }

  lemma DrainStarts(w: Work, table: Table)
    requires w.Valid()
    ensures Inv(w, Pool(map s | s in w.pending :: 0, map[], [], table), table)
  {
    assert ResultsOf([]) == [];
  }

  lemma {:induction false} DrainKeeps(w: Work, table: Table, states: seq<Pool>, acts: seq<Act>, n: nat)
    requires Drain(w, table, states, acts) && n < |states|
    ensures Inv(w, states[n], table)
  {
    hide Inv;
    if n == 0 {
      DrainStarts(w, table);
    } else {
      DrainKeeps(w, table, states, acts, n - 1);
      hide Enabled, Next;
      match acts[n - 1]
      case Get(lane) => GetKeeps(w, states[n - 1], lane, table);
      case Finish(lane, r) => FinishKeeps(w, states[n - 1], lane, r, table);
    }
  }

  ghost predicate IsFor(w: Work, e: Entry) {
    e.site in w.pending && e.index < |w.pending[e.site]| && Fetched(e.result, e.site, w.pending[e.site][e.index])
  }

  /**
   However the lanes interleave, a place of a queue is recorded at most once, and
   exactly once when the queues are empty and no lane is fetching. The table is the
   starting one fed the results in the order they were recorded.
   */
  lemma EachDocumentOnce(w: Work, table: Table, states: seq<Pool>, acts: seq<Act>, n: nat)
    requires Drain(w, table, states, acts) && n < |states|
    ensures var p := states[n];
      && (forall a, b :: 0 <= a < b < |p.recorded| ==>
            p.recorded[a].site != p.recorded[b].site || p.recorded[a].index != p.recorded[b].index)
      && (forall a :: 0 <= a < |p.recorded| ==> IsFor(w, p.recorded[a]))
      && p.table == Fed(table, ResultsOf(p.recorded))
      && (p.busy == map[] && p.next == (map s | s in w.pending :: |w.pending[s]|) ==>
            forall s, i: nat :: s in w.pending && i < |w.pending[s]| ==> IsRecorded(p.recorded, s, i))
  {
    DrainKeeps(w, table, states, acts, n);
  }

  // ------------------------------------------------------------------ repeated runs

  /** A run's imports, then what its lanes record. */
  datatype RunRecord = RunRecord(imports: seq<FetchResult>, results: seq<FetchResult>)

  predicate Distinct(results: seq<FetchResult>) {
    forall n, m :: 0 <= n < m < |results| ==> PairOf(results[n]) != PairOf(results[m])
  }

  /** A run on deduplicated documents, finished or interrupted: imports succeed, results are for pairs not done then. */
  ghost predicate DedupedRun(table: Table, run: RunRecord) {
    && (forall n :: 0 <= n < |run.imports| ==> run.imports[n].status == Ok)
    && Distinct(run.results)
    && (forall n :: 0 <= n < |run.results| ==>
          && PairOf(run.results[n]) !in DoneIn(Fed(table, run.imports))
          && (run.results[n].status == Failed ==> run.results[n].attempt == MAX_ATTEMPTS))
  }

  /** What planning without duplicates and draining make of it is such a run. */
  lemma DrainIsDedupedRun(table: Table, imports: seq<FetchResult>, docs: seq<string>, accepts: Accepts, w: Work,
      states: seq<Pool>, acts: seq<Act>, n: nat)
    requires forall k :: 0 <= k < |imports| ==> imports[k].status == Ok
    requires NoDuplicates(docs)
    requires forall s :: s in w.pending ==> w.pending[s] == PlanPending(docs, s, accepts, DoneIn(Fed(table, imports)))
    requires Drain(w, Fed(table, imports), states, acts) && n < |states|
    ensures DedupedRun(table, RunRecord(imports, ResultsOf(states[n].recorded)))
    ensures states[n].table == Fed(table, imports + ResultsOf(states[n].recorded))
  {
    hide Fed, Drain, DoneIn, PlanPending, NoDuplicates;
    EachDocumentOnce(w, Fed(table, imports), states, acts, n);
    FedAppend(table, imports, ResultsOf(states[n].recorded));
    var entries := states[n].recorded;
    forall a, b | 0 <= a < b < |entries| ensures PairOf(entries[a].result) != PairOf(entries[b].result) {
      if entries[a].site == entries[b].site {
        PlacesDiffer(w.pending[entries[a].site], entries[a].index, entries[b].index);
      }
    }
    forall a | 0 <= a < |entries| ensures PairOf(entries[a].result) !in DoneIn(Fed(table, imports)) {
      assert IsFor(w, entries[a]);
      assert entries[a].result.doc in w.pending[entries[a].site];
    }
  }

  lemma PlacesDiffer(docs: seq<string>, i: nat, j: nat)
    requires NoDuplicates(docs) && i < |docs| && j < |docs| && i != j
    ensures docs[i] != docs[j]
  {
  }

  /** Everything recorded in the first `n` runs. */
  function Log(runs: seq<RunRecord>, n: nat): seq<FetchResult>
    requires n <= |runs|
  {
    if n == 0 then [] else Log(runs, n - 1) + (runs[n - 1].imports + runs[n - 1].results)
  }

  ghost predicate DedupedHistory(runs: seq<RunRecord>) {
    forall n :: 0 <= n < |runs| ==> DedupedRun(Fed(map[], Log(runs, n)), runs[n])
  }

  /** A failure that counts. */
  predicate Counts(r: FetchResult) {
    r.status == Failed && r.healthy
  }

  function CountedFailures(results: seq<FetchResult>): nat {
    if results == [] then 0 else (if Counts(results[0]) then 1 else 0) + CountedFailures(results[1..])
  }

  lemma {:induction false} CountedAppend(a: seq<FetchResult>, b: seq<FetchResult>)
    ensures CountedFailures(a + b) == CountedFailures(a) + CountedFailures(b)
  {
    if a == [] {
      assert a + b == b;
    } else {
      assert (a + b)[1..] == a[1..] + b;
      CountedAppend(a[1..], b);
    }
  }

  lemma {:induction false} AboutDistinct(results: seq<FetchResult>, pair: Pair)
    requires Distinct(results)
    ensures |About(results, pair)| <= 1
  {
    if results != [] {
      AboutDistinct(results[1..], pair);
      if PairOf(results[0]) == pair {
        NoneAbout(results[1..], pair);
      }
    }
  }

  lemma {:induction false} NoneAbout(results: seq<FetchResult>, pair: Pair)
    requires forall n :: 0 <= n < |results| ==> PairOf(results[n]) != pair
    ensures About(results, pair) == []
  {
    if results != [] {
      NoneAbout(results[1..], pair);
    }
  }

  /** The attempts of a row so far: four for each failure that counted. */
  predicate Quantized(row: Option<Row>, counted: nat) {
    counted <= 3 && (if row.Some? then row.value.attempts else 0) == MAX_ATTEMPTS * counted
  }

  lemma {:induction false} ImportsKeep(row: Option<Row>, imports: seq<FetchResult>, counted: nat)
    requires forall n :: 0 <= n < |imports| ==> imports[n].status == Ok
    requires Quantized(row, counted)
    ensures Quantized(RowFed(row, imports), counted) && CountedFailures(imports) == 0
    decreases |imports|
  {
    if imports != [] {
      ImportsKeep(Upserted(row, imports[0]), imports[1..], counted);
    }
  }

  lemma {:induction false} AboutKeepsOk(results: seq<FetchResult>, pair: Pair)
    requires forall n :: 0 <= n < |results| ==> results[n].status == Ok
    ensures forall n :: 0 <= n < |About(results, pair)| ==> About(results, pair)[n].status == Ok
  {
    forall n | 0 <= n < |About(results, pair)| ensures About(results, pair)[n].status == Ok {
      assert About(results, pair)[n] in results;
    }
  }

  lemma OneResultKeeps(row: Option<Row>, r: FetchResult, counted: nat)
    requires Quantized(row, counted) && (row.Some? ==> !Done(row.value))
    requires r.status == Failed ==> r.attempt == MAX_ATTEMPTS
    ensures Quantized(Upserted(row, r), counted + CountedFailures([r]))
  {
    assert [r][1..] == [];
    assert CountedFailures([r]) == if Counts(r) then 1 else 0;
  }

  lemma RunKeepsQuantized(table: Table, run: RunRecord, pair: Pair, counted: nat)
    requires DedupedRun(table, run) && Quantized(At(table, pair), counted)
    ensures var about := About(run.imports + run.results, pair);
      Quantized(RowFed(At(table, pair), about), counted + CountedFailures(about))
  {
    var imports, results := About(run.imports, pair), About(run.results, pair);
    AboutAppend(run.imports, run.results, pair);
    AboutKeepsOk(run.imports, pair);
    ImportsKeep(At(table, pair), imports, counted);
    CountedAppend(imports, results);
    RowFedAppend(At(table, pair), imports, results);
    AboutDistinct(run.results, pair);
    RowIsFold(table, run.imports, pair);
    if results != [] {
      var r := results[0];
      assert results == [r] && r in run.results && PairOf(r) == pair;
      assert pair !in DoneIn(Fed(table, run.imports));
      OneResultKeeps(RowFed(At(table, pair), imports), r, counted);
      assert results[1..] == [];
      assert RowFed(RowFed(At(table, pair), imports), results) == Upserted(RowFed(At(table, pair), imports), r);
    }
  }

  lemma {:induction false} RowFedAppend(row: Option<Row>, a: seq<FetchResult>, b: seq<FetchResult>)
    ensures RowFed(row, a + b) == RowFed(RowFed(row, a), b)
    decreases |a|
  {
    if a == [] {
      assert a + b == b;
    } else {
      assert (a + b)[1..] == a[1..] + b;
      RowFedAppend(Upserted(row, a[0]), a[1..], b);
    }
  }

  /**
   Over any number of deduplicated runs a pair has at most three failures that count,
   and its row has four attempts for each: none, 4, 8 or 12.
   */
  lemma {:induction false} ThreeCountedFailures(runs: seq<RunRecord>, n: nat, pair: Pair)
    requires DedupedHistory(runs) && n <= |runs|
    ensures var about := About(Log(runs, n), pair);
      && CountedFailures(about) <= 3
      && (pair in Fed(map[], Log(runs, n)) ==>
            Fed(map[], Log(runs, n))[pair].attempts == 4 * CountedFailures(about))
  {
    AttemptsFollowLog(runs, n, pair);
    RowIsFold(map[], Log(runs, n), pair);
  }

  /** The row the log makes of a pair has four attempts for each counted failure in the log. */
  predicate Follows(log: seq<FetchResult>, pair: Pair) {
    Quantized(RowFed(None, About(log, pair)), CountedFailures(About(log, pair)))
  }

  lemma RunFollows(log: seq<FetchResult>, run: RunRecord, pair: Pair)
    requires Follows(log, pair) && DedupedRun(Fed(map[], log), run)
    ensures Follows(log + (run.imports + run.results), pair)
  {
    hide Quantized, RowFed, Fed, CountedFailures, DedupedRun;
    var last := run.imports + run.results;
    RowIsFold(map[], log, pair);
    AboutAppend(log, last, pair);
    RowFedAppend(None, About(log, pair), About(last, pair));
    CountedAppend(About(log, pair), About(last, pair));
    RunKeepsQuantized(Fed(map[], log), run, pair, CountedFailures(About(log, pair)));
  }

  lemma RunIsDeduped(runs: seq<RunRecord>, n: nat)
    requires DedupedHistory(runs) && n < |runs|
    ensures DedupedRun(Fed(map[], Log(runs, n)), runs[n])
  {
    hide Log, DedupedRun, Fed;
  }

  lemma {:induction false} AttemptsFollowLog(runs: seq<RunRecord>, n: nat, pair: Pair)
    requires DedupedHistory(runs) && n <= |runs|
    ensures Follows(Log(runs, n), pair)
  {
    hide DedupedHistory;
    if n == 0 {
      assert About([], pair) == [];
    } else {
      AttemptsFollowLog(runs, n - 1, pair);
      hide Follows;
      RunIsDeduped(runs, n - 1);
      RunFollows(Log(runs, n - 1), runs[n - 1], pair);
    }
  }

  /** From run to run statuses never fall and the done set only grows. */
  lemma RunsImprove(runs: seq<RunRecord>, n: nat, pair: Pair)
    requires n < |runs|
    ensures var before, after := Fed(map[], Log(runs, n)), Fed(map[], Log(runs, n + 1));
      DoneIn(before) <= DoneIn(after) && Rank(At(before, pair)) <= Rank(At(after, pair))
  {
    var last := runs[n].imports + runs[n].results;
    FedAppend(map[], Log(runs, n), last);
    TableImproves(Fed(map[], Log(runs, n)), last);
  }

  // --------------------------------------------------- input with repeated documents

  function Attempts(row: Option<Row>): nat {
    if row.Some? then row.value.attempts else 0
  }

  /** Results a single run may record for one pair whose document is in the input `m` times. */
  predicate ForPair(results: seq<FetchResult>, pair: Pair, m: nat) {
    && |results| == m
    && (forall n :: 0 <= n < m ==>
          PairOf(results[n]) == pair && (results[n].status == Failed ==> results[n].attempt == MAX_ATTEMPTS))
  }

  function CountedFailure(pair: Pair): FetchResult {
    FetchResult(pair.0, pair.1, Failed, [], "", true, "", "", MAX_ATTEMPTS, [])
  }

  lemma {:induction false} AttemptsAtMost(row: Option<Row>, results: seq<FetchResult>, pair: Pair)
    requires ForPair(results, pair, |results|)
    ensures Attempts(RowFed(row, results)) <= Attempts(row) + MAX_ATTEMPTS * |results|
    decreases |results|
  {
    if results != [] {
      AttemptsAtMost(Upserted(row, results[0]), results[1..], pair);
    }
  }

  lemma {:induction false} AllCounted(row: Option<Row>, pair: Pair, m: nat)
    requires row.Some? ==> row.value.status == Failed
    ensures Attempts(RowFed(row, seq(m, _ => CountedFailure(pair)))) == Attempts(row) + MAX_ATTEMPTS * m
    decreases m
  {
    if m > 0 {
      var all := seq(m, _ => CountedFailure(pair));
      assert all[1..] == seq(m - 1, _ => CountedFailure(pair));
      AllCounted(Upserted(row, all[0]), pair, m - 1);
    }
  }

  /**
   Whatever m results are recorded of a pair, they respect the cap exactly when there is room for
   four attempts each.
   */
  lemma ResultsRespectCapExactlyWhen(row: Option<Row>, pair: Pair, m: nat)
    requires row.Some? ==> !Done(row.value)
    ensures (forall results :: ForPair(results, pair, m) ==> Attempts(RowFed(row, results)) <= 12)
       <==> Attempts(row) + 4 * m <= 12
  {
    if Attempts(row) + MAX_ATTEMPTS * m <= MAX_TOTAL_ATTEMPTS {
      forall results | ForPair(results, pair, m) ensures Attempts(RowFed(row, results)) <= MAX_TOTAL_ATTEMPTS {
        AttemptsAtMost(row, results, pair);
      }
    } else {
      var all := seq(m, _ => CountedFailure(pair));
      assert ForPair(all, pair, m);
      AllCounted(row, pair, m);
    }
  }
}
