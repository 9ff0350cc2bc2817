/**
 Runs with deduplication off: a document that is in the input m times is fetched m times
 in one run, and every failure that counts adds four attempts to its row.
 */
module UndedupedRuns {
  import opened Basics
  import opened Documents
  import opened Fetch
  import opened Outcomes
  import opened Resume
  import opened RunHistory

  /** Lanes draining what was planned from the documents, repetitions and all. */
  ghost predicate PlannedDrain(docs: seq<string>, accepts: Accepts, table: Table, w: Work, states: seq<Pool>,
      acts: seq<Act>)
  {
    && Drain(w, table, states, acts)
    && (forall s :: s in w.pending ==> w.pending[s] == PlanPending(docs, s, accepts, DoneIn(table)))
  }

  /** A document that is not done is pending as often as it was read. */
  lemma {:induction false} PendingOccurrences(docs: seq<string>, site: string, accepts: Accepts, done: set<Pair>,
      doc: string)
    ensures multiset(PlanPending(docs, site, accepts, done))[doc]
         == if accepts(site, doc) && (site, doc) !in done then multiset(docs)[doc] else 0
  {
    if docs != [] {
      assert docs == [docs[0]] + docs[1..];
      PendingOccurrences(docs[1..], site, accepts, done, doc);
    }
  }

  // ------------------------------------------------------------- at most m results

  /** The places of a queue whose results are about the pair. */
  function PlacesOf(entries: seq<Entry>, pair: Pair): set<nat> {
    set n | 0 <= n < |entries| && PairOf(entries[n].result) == pair :: entries[n].index
  }

  /** Entries about the pair come from different places. */
  predicate PlacesApart(entries: seq<Entry>, pair: Pair) {
    forall n, m :: 0 <= n < m < |entries| && PairOf(entries[n].result) == pair == PairOf(entries[m].result) ==>
      entries[n].index != entries[m].index
  }

  lemma PlacesOfTail(entries: seq<Entry>, pair: Pair)
    requires entries != [] && PlacesApart(entries, pair)
    ensures PlacesApart(entries[1..], pair)
    ensures PairOf(entries[0].result) != pair ==> PlacesOf(entries, pair) == PlacesOf(entries[1..], pair)
    ensures PairOf(entries[0].result) == pair ==>
      PlacesOf(entries, pair) == PlacesOf(entries[1..], pair) + {entries[0].index} &&
        entries[0].index !in PlacesOf(entries[1..], pair)
  {
    var rest := entries[1..];
    assert forall n :: 0 <= n < |rest| ==> rest[n] == entries[n + 1];
    forall p | p in PlacesOf(entries, pair)
      ensures p in PlacesOf(rest, pair) || (PairOf(entries[0].result) == pair && p == entries[0].index)
    {
      var n :| 0 <= n < |entries| && PairOf(entries[n].result) == pair && entries[n].index == p;
      if n > 0 {
        assert rest[n - 1] == entries[n];
      }
    }
  }

  lemma {:induction false} ResultsHavePlaces(entries: seq<Entry>, pair: Pair)
    requires PlacesApart(entries, pair)
    ensures |About(ResultsOf(entries), pair)| == |PlacesOf(entries, pair)|
  {
    if entries != [] {
      PlacesOfTail(entries, pair);
      ResultsHavePlaces(entries[1..], pair);
      assert ResultsOf(entries)[1..] == ResultsOf(entries[1..]);
      hide PlacesOf, PlacesApart;
    }
  }

  function PlacesWith(docs: seq<string>, doc: string): set<nat> {
    set i: nat | i < |docs| && docs[i] == doc
  }

  lemma {:induction false} PlacesAreOccurrences(docs: seq<string>, doc: string)
    ensures |PlacesWith(docs, doc)| == multiset(docs)[doc]
  {
    if docs != [] {
      var last := |docs| - 1;
      assert docs == docs[..last] + [docs[last]];
      PlacesAreOccurrences(docs[..last], doc);
      if docs[last] == doc {
        assert PlacesWith(docs, doc) == PlacesWith(docs[..last], doc) + {last};
      } else {
        assert PlacesWith(docs, doc) == PlacesWith(docs[..last], doc);
      }
    }
  }

  lemma ResultsPerOccurrence(w: Work, p: Pool, pair: Pair)
    requires RecordedOnce(w, p) && pair.0 in w.pending
    ensures |About(ResultsOf(p.recorded), pair)| <= multiset(w.pending[pair.0])[pair.1]
  {
    ResultsHavePlaces(p.recorded, pair);
    PlacesAreOccurrences(w.pending[pair.0], pair.1);
    assert PlacesOf(p.recorded, pair) <= PlacesWith(w.pending[pair.0], pair.1);
    Fewer(PlacesOf(p.recorded, pair), PlacesWith(w.pending[pair.0], pair.1));
  }

  lemma ResultsAreForPair(w: Work, p: Pool, pair: Pair)
    requires RecordedOnce(w, p)
    ensures var results := About(ResultsOf(p.recorded), pair); ForPair(results, pair, |results|)
  {
    var results := About(ResultsOf(p.recorded), pair);
    forall n | 0 <= n < |results|
      ensures PairOf(results[n]) == pair && (results[n].status == Failed ==> results[n].attempt == MAX_ATTEMPTS)
    {
      assert results[n] in results;
      var k :| 0 <= k < |p.recorded| && ResultsOf(p.recorded)[k] == results[n];
      assert Fetched(p.recorded[k].result, p.recorded[k].site, w.pending[p.recorded[k].site][p.recorded[k].index]);
    }
  }

  /** No run adds more than four attempts to a row for each time its document was read. */
  lemma AttemptsPerOccurrence(docs: seq<string>, accepts: Accepts, table: Table, w: Work, states: seq<Pool>,
      acts: seq<Act>, n: nat, pair: Pair)
    requires PlannedDrain(docs, accepts, table, w, states, acts) && n < |states| && pair.0 in w.pending
    ensures Attempts(At(states[n].table, pair)) <= Attempts(At(table, pair)) + 4 * multiset(docs)[pair.1]
  {
    hide Fed, RowFed, At;
    var p := states[n];
    DrainKeeps(w, table, states, acts, n);
    hide Drain, InHand, NothingLost;
    RowIsFold(table, ResultsOf(p.recorded), pair);
    ResultsPerOccurrence(w, p, pair);
    ResultsAreForPair(w, p, pair);
    AttemptsAtMost(At(table, pair), About(ResultsOf(p.recorded), pair), pair);
    PendingOccurrences(docs, pair.0, accepts, DoneIn(table), pair.1);
  }

  // --------------------------------------------------------- and as many as that

  /** One lane that fetches a source's documents one after the other, all failing in a way that counts. */
  function OneLane(site: string, pending: seq<string>): Work {
    Work([LaneTask(site, "provider", 1, 1)], map[site := pending])
  }

  function Failures(site: string, pending: seq<string>, k: nat): seq<Entry>
    requires k <= |pending|
  {
    seq(k, i requires 0 <= i < k => Entry(site, i, CountedFailure((site, pending[i]))))
  }

  /** After `n` of its steps. */
  function Halfway(site: string, pending: seq<string>, table: Table, n: nat): Pool
    requires n <= 2 * |pending|
  {
    var entries := Failures(site, pending, n / 2);
    if n % 2 == 0 then Pool(map[site := n / 2], map[], entries, Fed(table, ResultsOf(entries)))
    else Pool(map[site := n / 2 + 1], map[0 := n / 2], entries, Fed(table, ResultsOf(entries)))
  }

  function LaneAct(site: string, pending: seq<string>, n: nat): Act
    requires n < 2 * |pending|
  {
    if n % 2 == 0 then Get(0) else Finish(0, CountedFailure((site, pending[n / 2])))
  }

  lemma GetsNext(site: string, pending: seq<string>, table: Table, k: nat)
    requires k < |pending|
    ensures var w, p := OneLane(site, pending), Halfway(site, pending, table, 2 * k);
      Enabled(w, p, Get(0)) && Next(w, p, Get(0)) == Halfway(site, pending, table, 2 * k + 1)
  {
    hide Fed, ResultsOf, Failures;
    assert (2 * k) / 2 == k && (2 * k + 1) / 2 == k;
  }

  lemma OneMoreFailure(site: string, pending: seq<string>, table: Table, k: nat)
    requires k < |pending|
    ensures var last := CountedFailure((site, pending[k]));
      && Failures(site, pending, k + 1) == Failures(site, pending, k) + [Entry(site, k, last)]
      && Fed(table, ResultsOf(Failures(site, pending, k + 1))) ==
           Recorded(Fed(table, ResultsOf(Failures(site, pending, k))), last)
  {
    hide Fed, Recorded, CountedFailure;
    var entries := Failures(site, pending, k);
    var last := CountedFailure((site, pending[k]));
    assert Failures(site, pending, k + 1) == entries + [Entry(site, k, last)];
    assert ResultsOf(entries + [Entry(site, k, last)]) == ResultsOf(entries) + [last];
    FedAppend(table, ResultsOf(entries), [last]);
    FedOne(Fed(table, ResultsOf(entries)), last);
  }

  lemma FinishesNext(site: string, pending: seq<string>, table: Table, k: nat)
    requires k < |pending|
    ensures var w, p := OneLane(site, pending), Halfway(site, pending, table, 2 * k + 1);
      var act := Finish(0, CountedFailure((site, pending[k])));
      Enabled(w, p, act) && Next(w, p, act) == Halfway(site, pending, table, 2 * k + 2)
  {
    hide Fed, Recorded, ResultsOf, Failures;
    assert (2 * k + 1) / 2 == k && (2 * k + 2) / 2 == k + 1;
    OneMoreFailure(site, pending, table, k);
  }

  lemma OneLaneSteps(site: string, pending: seq<string>, table: Table, n: nat)
    requires n < 2 * |pending|
    ensures var w := OneLane(site, pending);
      && Enabled(w, Halfway(site, pending, table, n), LaneAct(site, pending, n))
      && Next(w, Halfway(site, pending, table, n), LaneAct(site, pending, n)) == Halfway(site, pending, table, n + 1)
  {
    hide Enabled, Next, Halfway, CountedFailure;
    if n % 2 == 0 {
      GetsNext(site, pending, table, n / 2);
    } else {
      FinishesNext(site, pending, table, n / 2);
    }
  }

  lemma OneLaneStarts(site: string, pending: seq<string>, table: Table)
    ensures Halfway(site, pending, table, 0)
         == Pool(map s | s in OneLane(site, pending).pending :: 0, map[], [], table)
  {
    assert ResultsOf(Failures(site, pending, 0)) == [];
    assert (map s | s in OneLane(site, pending).pending :: 0) == map[site := 0];
  }

  lemma OneLaneDrains(site: string, pending: seq<string>, table: Table) returns (states: seq<Pool>, acts: seq<Act>)
    ensures Drain(OneLane(site, pending), table, states, acts) && |acts| == 2 * |pending|
    ensures states[|acts|] == Halfway(site, pending, table, 2 * |pending|)
  {
    hide Halfway, LaneAct, Enabled, Next;
    var m := 2 * |pending|;
    states := seq(m + 1, n requires 0 <= n <= m => Halfway(site, pending, table, n));
    acts := seq(m, n requires 0 <= n < m => LaneAct(site, pending, n));
    OneLaneStarts(site, pending, table);
    forall n | 0 <= n < |acts|
      ensures Enabled(OneLane(site, pending), states[n], acts[n])
      ensures states[n + 1] == Next(OneLane(site, pending), states[n], acts[n])
    {
      OneLaneSteps(site, pending, table, n);
    }
  }

  lemma {:induction false} FailuresAbout(site: string, pending: seq<string>, k: nat, doc: string)
    requires k <= |pending|
    ensures About(ResultsOf(Failures(site, pending, k)), (site, doc)) ==
      seq(multiset(pending[..k])[doc], _ => CountedFailure((site, doc)))
    decreases k
  {
    if k > 0 {
      FailuresAbout(site, pending, k - 1, doc);
      var before := Failures(site, pending, k - 1);
      var last := CountedFailure((site, pending[k - 1]));
      assert ResultsOf(Failures(site, pending, k)) == ResultsOf(before) + [last];
      assert pending[..k] == pending[..k - 1] + [pending[k - 1]];
      AboutAppend(ResultsOf(before), [last], (site, doc));
      assert About([last], (site, doc)) == if pending[k - 1] == doc then [last] else [] by {
        assert [last][1..] == [];
      }
    }
  }

  /** A run that adds exactly four attempts to the row for each time its document was read. */
  lemma FailingRun(docs: seq<string>, accepts: Accepts, table: Table, pair: Pair)
    returns (w: Work, states: seq<Pool>, acts: seq<Act>)
    requires accepts(pair.0, pair.1) && pair !in DoneIn(table)
    ensures PlannedDrain(docs, accepts, table, w, states, acts) && pair.0 in w.pending
    ensures Attempts(At(states[|acts|].table, pair)) ==
      Attempts(At(table, pair)) + MAX_ATTEMPTS * multiset(docs)[pair.1]
  {
    var pending := PlanPending(docs, pair.0, accepts, DoneIn(table));
    w := OneLane(pair.0, pending);
    states, acts := OneLaneDrains(pair.0, pending, table);
    hide Drain, PlanPending, Halfway, DoneIn;
    AllFail(docs, accepts, table, pair);
  }

  lemma AllFail(docs: seq<string>, accepts: Accepts, table: Table, pair: Pair)
    requires accepts(pair.0, pair.1) && pair !in DoneIn(table)
    ensures var pending := PlanPending(docs, pair.0, accepts, DoneIn(table));
      Attempts(At(Halfway(pair.0, pending, table, 2 * |pending|).table, pair)) ==
        Attempts(At(table, pair)) + MAX_ATTEMPTS * multiset(docs)[pair.1]
  {
    var pending := PlanPending(docs, pair.0, accepts, DoneIn(table));
    var results := ResultsOf(Failures(pair.0, pending, |pending|));
    assert Halfway(pair.0, pending, table, 2 * |pending|).table == Fed(table, results);
    hide Halfway, Fed, RowFed, PlanPending, Failures;
    assert pending[..|pending|] == pending;
    PendingOccurrences(docs, pair.0, accepts, DoneIn(table), pair.1);
    FailuresAbout(pair.0, pending, |pending|, pair.1);
    RowIsFold(table, results, pair);
    AllCounted(At(table, pair), pair, multiset(docs)[pair.1]);
  }

  // -------------------------------------------------------------------- the cap

  /** A planned run after which the pair's row is over the cap. */
  ghost predicate Overshoots(docs: seq<string>, accepts: Accepts, table: Table, w: Work, states: seq<Pool>,
      acts: seq<Act>, n: nat, pair: Pair)
  {
    && PlannedDrain(docs, accepts, table, w, states, acts) && n < |states| && pair.0 in w.pending
    && Attempts(At(states[n].table, pair)) > 12
  }

  /**
   The cap of twelve holds in every run over the documents, finished or not, exactly when
   the attempts so far leave room for four more each time the pair's document was read.
   */
  lemma CapHoldsExactlyWhen(docs: seq<string>, accepts: Accepts, table: Table, pair: Pair)
    requires accepts(pair.0, pair.1) && pair !in DoneIn(table)
    ensures (forall w, states, acts, n :: !Overshoots(docs, accepts, table, w, states, acts, n, pair))
       <==> Attempts(At(table, pair)) + 4 * multiset(docs)[pair.1] <= 12
  {
    hide PlannedDrain, At, Attempts, DoneIn;
    if Attempts(At(table, pair)) + MAX_ATTEMPTS * multiset(docs)[pair.1] <= MAX_TOTAL_ATTEMPTS {
      forall w, states, acts, n ensures !Overshoots(docs, accepts, table, w, states, acts, n, pair) {
        if Overshoots(docs, accepts, table, w, states, acts, n, pair) {
          AttemptsPerOccurrence(docs, accepts, table, w, states, acts, n, pair);
        }
      }
    } else {
      var w, states, acts := FailingRun(docs, accepts, table, pair);
      DrainLength(docs, accepts, table, w, states, acts);
      assert Overshoots(docs, accepts, table, w, states, acts, |acts|, pair);
    }
  }

  lemma DrainLength(docs: seq<string>, accepts: Accepts, table: Table, w: Work, states: seq<Pool>, acts: seq<Act>)
    requires PlannedDrain(docs, accepts, table, w, states, acts)
    ensures |states| == |acts| + 1
  {
  }

  const SITE := "osiptel"

  const DOC := "10412345678"

  /** Two runs that fail, one after the other. */
  const TWO_FAILURES := [RunRecord([], [CountedFailure((SITE, DOC))]), RunRecord([], [CountedFailure((SITE, DOC))])]

  /** What the first and both of them leave behind. */
  const ONCE: Row := Row(Failed, [], "", 4, "", "")

  const TWICE: Row := Row(Failed, [], "", 8, "", "")

  lemma LogOfTwo()
    ensures var f := CountedFailure((SITE, DOC));
      Log(TWO_FAILURES, 0) == [] && Log(TWO_FAILURES, 1) == [f] && Log(TWO_FAILURES, 2) == [f, f]
  {
    var f := CountedFailure((SITE, DOC));
    assert Log(TWO_FAILURES, 1) == Log(TWO_FAILURES, 0) + ([] + [f]);
    assert Log(TWO_FAILURES, 2) == Log(TWO_FAILURES, 1) + ([] + [f]);
    assert [] + ([] + [f]) == [f] && [f] + ([] + [f]) == [f, f];
  }

  lemma FedTwice()
    ensures var f := CountedFailure((SITE, DOC));
      Fed(map[], []) == map[] && Fed(map[], [f]) == map[(SITE, DOC) := ONCE] &&
        Fed(map[], [f, f]) == map[(SITE, DOC) := TWICE]
  {
    var f := CountedFailure((SITE, DOC));
    var empty: Table := map[];
    assert [f, f] == [f] + [f];
    FedOne(empty, f);
    FedAppend(empty, [f], [f]);
    FedOne(map[(SITE, DOC) := ONCE], f);
    assert Fed(empty, []) == empty;
    hide Fed;
    assert Recorded(empty, f) == map[(SITE, DOC) := ONCE];
    assert Recorded(map[(SITE, DOC) := ONCE], f) == map[(SITE, DOC) := TWICE];
  }

  lemma FailureIsDedupedRun(table: Table)
    requires (SITE, DOC) !in DoneIn(table)
    ensures DedupedRun(table, RunRecord([], [CountedFailure((SITE, DOC))]))
  {
    assert Fed(table, []) == table;
  }

  lemma TwoFailuresMakeEight()
    ensures DedupedHistory(TWO_FAILURES)
    ensures Fed(map[], Log(TWO_FAILURES, 2)) == map[(SITE, DOC) := TWICE]
  {
    LogOfTwo();
    FedTwice();
    FailureIsDedupedRun(map[]);
    FailureIsDedupedRun(map[(SITE, DOC) := ONCE]);
    hide Log, Fed, DedupedRun;
    forall n | 0 <= n < |TWO_FAILURES| ensures DedupedRun(Fed(map[], Log(TWO_FAILURES, n)), TWO_FAILURES[n]) {
    }
  }

  /** After two deduplicated runs that failed, a run over an input that names the document twice reaches sixteen. */
  lemma EightAndTwiceIsSixteen(accepts: Accepts) returns (w: Work, states: seq<Pool>, acts: seq<Act>)
    requires accepts(SITE, DOC)
    ensures DedupedHistory(TWO_FAILURES)
    ensures PlannedDrain(DocsOf([[DOC], [DOC]], false), accepts, Fed(map[], Log(TWO_FAILURES, 2)), w, states, acts)
    ensures Attempts(At(states[|acts|].table, (SITE, DOC))) == 16
  {
    TwoFailuresMakeEight();
    ReadTwice();
    w, states, acts :=
      FailingRun(DocsOf([[DOC], [DOC]], false), accepts, Fed(map[], Log(TWO_FAILURES, 2)), (SITE, DOC));
  }

  lemma ReadTwice()
    ensures DocsOf([[DOC], [DOC]], false) == [DOC, DOC]
  {
    StripKeeps(DOC);
    assert RowDocument([DOC]) == Some(DOC);
    var rows := [[DOC], [DOC]];
    assert rows[..1] == [[DOC]] && [[DOC]][..0] == [];
    assert DocsOf([], false) == [];
    assert DocsOf([[DOC]], false) == [DOC];
  }
}
