/**
 Planning a submission: which input lines become items, which are excluded, and
 which pairs the team already has an answer for.
 */
module Planning {
  import opened Basics
  import opened Documents
  import opened JobTables
  import opened QueueColumns
  import opened QueueRuns

  datatype InputLine = InputLine(ordinal: nat, value: string)

  datatype SourceError = SourceRequired | SourceDuplicated | SourceNotEnabled(invalid: set<string>)

  // -------------------------------------------------------------- one input line

  function Accepting(sources: seq<string>, accepts: Accepts, document: string): (r: seq<string>)
    ensures forall s :: s in r <==> s in sources && accepts(s, document)
    ensures NoDuplicates(sources) ==> NoDuplicates(r)
  {
    if sources == [] then []
    else (if accepts(sources[0], document) then [sources[0]] else []) + Accepting(sources[1..], accepts, document)
  }

  predicate SeenBefore(lines: seq<InputLine>, n: nat, document: string)
    requires n <= |lines|
  {
    exists m :: 0 <= m < n && Document(lines[m].value) == Some(document)
  }

  function LineExclusions(lines: seq<InputLine>, n: nat, sources: seq<string>, accepts: Accepts): seq<ExcludedInput>
    requires n < |lines|
  {
    var line := lines[n];
    match Document(line.value)
    case None => [ExcludedInput(line.ordinal, line.value, "invalid_document")]
    case Some(doc) =>
      if SeenBefore(lines, n, doc) then [ExcludedInput(line.ordinal, doc, "duplicate_document")]
      else if Accepting(sources, accepts, doc) == [] then [ExcludedInput(line.ordinal, doc, "no_compatible_source")]
      else []
  }

  function PlannedFor(ordinal: nat, document: string, sources: seq<string>): seq<PlannedItem> {
    seq(|sources|, k requires 0 <= k < |sources| => PlannedItem(ordinal, document, sources[k]))
  }

  function LineItems(lines: seq<InputLine>, n: nat, sources: seq<string>, accepts: Accepts): seq<PlannedItem>
    requires n < |lines|
  {
    match Document(lines[n].value)
    case None => []
    case Some(doc) =>
      if SeenBefore(lines, n, doc) then [] else PlannedFor(lines[n].ordinal, doc, Accepting(sources, accepts, doc))
  }

  function PlanOf(lines: seq<InputLine>, n: nat, sources: seq<string>, accepts: Accepts): SubmissionPlan
    requires n <= |lines|
  {
    if n == 0 then SubmissionPlan([], [])
    else
      var before := PlanOf(lines, n - 1, sources, accepts);
      SubmissionPlan(before.items + LineItems(lines, n - 1, sources, accepts),
                     before.exclusions + LineExclusions(lines, n - 1, sources, accepts))
  }

  /** A line is excluded once, or planned once for each source that accepts it. */
  lemma LineIsExcludedOrPlanned(lines: seq<InputLine>, n: nat, sources: seq<string>, accepts: Accepts)
    requires n < |lines|
    ensures |LineExclusions(lines, n, sources, accepts)| +
      (if LineItems(lines, n, sources, accepts) == [] then 0 else 1) == 1
    ensures forall p :: p in LineItems(lines, n, sources, accepts) ==>
      && p.ordinal == lines[n].ordinal && Document(lines[n].value) == Some(p.document)
      && p.source in sources && accepts(p.source, p.document)
    ensures LineExclusions(lines, n, sources, accepts) == [] ==>
      forall s :: s in sources && accepts(s, Document(lines[n].value).value) ==>
        PlannedItem(lines[n].ordinal, Document(lines[n].value).value, s) in LineItems(lines, n, sources, accepts)
  {
    if LineExclusions(lines, n, sources, accepts) == [] {
      var doc := Document(lines[n].value).value;
      var chosen := Accepting(sources, accepts, doc);
      var items := LineItems(lines, n, sources, accepts);
      forall s | s in sources && accepts(s, doc) ensures PlannedItem(lines[n].ordinal, doc, s) in items {
        var k :| 0 <= k < |chosen| && chosen[k] == s;
        assert items[k] == PlannedItem(lines[n].ordinal, doc, s);
      }
    }
  }

  predicate PairsDistinct(items: seq<PlannedItem>) {
    forall a, b :: 0 <= a < b < |items| ==> PairOf(items[a]) != PairOf(items[b])
  }

  lemma NothingPlannedYet(lines: seq<InputLine>, sources: seq<string>, accepts: Accepts)
    ensures PlanOf(lines, 0, sources, accepts).items == [] && PairsDistinct(PlanOf(lines, 0, sources, accepts).items)
  {
  }

  lemma PlanStep(lines: seq<InputLine>, n: nat, sources: seq<string>, accepts: Accepts)
    requires 0 < n <= |lines|
    ensures PlanOf(lines, n, sources, accepts).items ==
      PlanOf(lines, n - 1, sources, accepts).items + LineItems(lines, n - 1, sources, accepts)
  {
    hide LineItems, LineExclusions;
  }

  lemma LineWasSeen(lines: seq<InputLine>, n: nat, sources: seq<string>, accepts: Accepts)
    requires n < |lines|
    ensures forall p :: p in LineItems(lines, n, sources, accepts) ==> SeenBefore(lines, n + 1, p.document)
    ensures forall d :: SeenBefore(lines, n, d) ==> SeenBefore(lines, n + 1, d)
  {
    hide Document;
    forall p | p in LineItems(lines, n, sources, accepts) ensures SeenBefore(lines, n + 1, p.document) {
      assert Document(lines[n].value) == Some(p.document);
    }
  }

  /** Every planned document comes from some earlier line. */
  lemma {:induction false} PlannedWasSeen(lines: seq<InputLine>, n: nat, sources: seq<string>, accepts: Accepts)
    requires n <= |lines|
    ensures forall p :: p in PlanOf(lines, n, sources, accepts).items ==> SeenBefore(lines, n, p.document)
  {
    hide PlanOf, LineItems, SeenBefore, PairsDistinct;
    if n == 0 {
      NothingPlannedYet(lines, sources, accepts);
    } else {
      PlanStep(lines, n, sources, accepts);
      PlannedWasSeen(lines, n - 1, sources, accepts);
      LineWasSeen(lines, n - 1, sources, accepts);
    }
  }

  /** No (document, source) pair is planned twice. */
  lemma {:induction false} PlannedPairsDistinct(lines: seq<InputLine>, n: nat, sources: seq<string>, accepts: Accepts)
    requires n <= |lines| && NoDuplicates(sources)
    ensures PairsDistinct(PlanOf(lines, n, sources, accepts).items)
  {
    hide PlanOf, LineItems, SeenBefore, PairsDistinct, NoDuplicates;
    if n == 0 {
      NothingPlannedYet(lines, sources, accepts);
    } else {
      PlanStep(lines, n, sources, accepts);
      PlannedPairsDistinct(lines, n - 1, sources, accepts);
      PlannedWasSeen(lines, n - 1, sources, accepts);
      LineItemsDistinct(lines, n - 1, sources, accepts);
      DistinctJoin(PlanOf(lines, n - 1, sources, accepts).items, LineItems(lines, n - 1, sources, accepts), lines,
        n - 1);
    }
  }

  /** One line plans a document for distinct sources, and only a document not seen before. */
  lemma LineItemsDistinct(lines: seq<InputLine>, n: nat, sources: seq<string>, accepts: Accepts)
    requires n < |lines| && NoDuplicates(sources)
    ensures PairsDistinct(LineItems(lines, n, sources, accepts))
    ensures forall p :: p in LineItems(lines, n, sources, accepts) ==> !SeenBefore(lines, n, p.document)
  {
    hide Document, SeenBefore;
  }

  lemma DistinctJoin(before: seq<PlannedItem>, more: seq<PlannedItem>, lines: seq<InputLine>, n: nat)
    requires n <= |lines| && PairsDistinct(before) && PairsDistinct(more)
    requires forall p :: p in before ==> SeenBefore(lines, n, p.document)
    requires forall p :: p in more ==> !SeenBefore(lines, n, p.document)
    ensures PairsDistinct(before + more)
  {
    hide SeenBefore;
    var all := before + more;
    forall a, b | 0 <= a < b < |all| ensures PairOf(all[a]) != PairOf(all[b]) {
      if a < |before| <= b {
        assert all[a] in before && all[b] in more;
      }
    }
  }

  // ------------------------------------------------------- a plan and its lines

  /** A line that reads as the document and is the first one to. */
  predicate FirstNames(lines: seq<InputLine>, n: nat, document: string)
    requires n < |lines|
  {
    && Document(lines[n].value) == Some(document)
    && forall m :: 0 <= m < n ==> Document(lines[m].value) != Some(document)
  }

  /** Item `p` is the line's, for a source that takes the document it is the first to name. */
  predicate PlannedFrom(p: PlannedItem, lines: seq<InputLine>, n: nat, sources: seq<string>, accepts: Accepts) {
    && n < |lines| && p.ordinal == lines[n].ordinal && FirstNames(lines, n, p.document)
    && p.source in sources && accepts(p.source, p.document)
  }

  /** Exclusion `x` is the line's, and gives the reason why no source is asked. */
  predicate ExcludedFrom(x: ExcludedInput, lines: seq<InputLine>, n: nat, sources: seq<string>, accepts: Accepts) {
    && n < |lines| && x.ordinal == lines[n].ordinal
    && (Document(lines[n].value).None? ==> x.value == lines[n].value && x.reason == "invalid_document")
    && (Document(lines[n].value).Some? ==>
          && x.value == Document(lines[n].value).value
          && (!FirstNames(lines, n, x.value) ==> x.reason == "duplicate_document")
          && (FirstNames(lines, n, x.value) ==>
                x.reason == "no_compatible_source" && forall s :: s in sources ==> !accepts(s, x.value)))
  }

  /** Items come in the order of their lines, and those of one line in the order of the sources. */
  ghost predicate Ahead(a: PlannedItem, b: PlannedItem, m: nat, n: nat, sources: seq<string>) {
    m < n || (m == n && exists u, v :: 0 <= u < v < |sources| && sources[u] == a.source && sources[v] == b.source)
  }

  /**
   The plan is what the first `n` lines say: `from` and `of` give the line of each item and of each
   exclusion. Every line is excluded, or gives an item for each source that takes its document.
   */
  ghost predicate FollowsLines(plan: SubmissionPlan, from: seq<nat>, of: seq<nat>, lines: seq<InputLine>, n: nat,
      sources: seq<string>, accepts: Accepts)
  {
    && |from| == |plan.items| && |of| == |plan.exclusions|
    && (forall k :: 0 <= k < |from| ==> from[k] < n && PlannedFrom(plan.items[k], lines, from[k], sources, accepts))
    && (forall k :: 0 <= k < |of| ==> of[k] < n && ExcludedFrom(plan.exclusions[k], lines, of[k], sources, accepts))
    && (forall a, b :: 0 <= a < b < |from| ==> Ahead(plan.items[a], plan.items[b], from[a], from[b], sources))
    && (forall a, b :: 0 <= a < b < |of| ==> of[a] < of[b])
    && (forall m :: 0 <= m < n ==> m in from || m in of)
    && (forall k, s :: 0 <= k < |from| && s in sources && accepts(s, plan.items[k].document) ==>
          Planned(plan, from, from[k], s))
  }

  ghost predicate Planned(plan: SubmissionPlan, from: seq<nat>, n: nat, source: string) {
    exists k :: 0 <= k < |from| && k < |plan.items| && from[k] == n && plan.items[k].source == source
  }

  lemma OneMoreExclusion(plan: SubmissionPlan, from: seq<nat>, of: seq<nat>, x: ExcludedInput, lines: seq<InputLine>,
      n: nat, sources: seq<string>, accepts: Accepts)
    requires FollowsLines(plan, from, of, lines, n, sources, accepts) && ExcludedFrom(x, lines, n, sources, accepts)
    ensures FollowsLines(SubmissionPlan(plan.items, plan.exclusions + [x]), from, of + [n], lines, n + 1, sources,
                         accepts)
  {
    hide PlannedFrom, ExcludedFrom, Ahead;
    var more, all := SubmissionPlan(plan.items, plan.exclusions + [x]), of + [n];
    forall m | 0 <= m < n + 1 ensures m in from || m in all {
      assert all[|of|] == n;
      assert m in of ==> m in all;
    }
    forall k, s | 0 <= k < |from| && s in sources && accepts(s, more.items[k].document)
      ensures Planned(more, from, from[k], s)
    {
      assert Planned(plan, from, from[k], s);
    }
  }

  lemma {:induction false} AcceptingInOrder(sources: seq<string>, accepts: Accepts, document: string, a: nat, b: nat)
    returns (u: nat, v: nat)
    requires a < b < |Accepting(sources, accepts, document)|
    ensures u < v < |sources| && sources[u] == Accepting(sources, accepts, document)[a]
    ensures sources[v] == Accepting(sources, accepts, document)[b]
  {
    var rest := Accepting(sources[1..], accepts, document);
    if !accepts(sources[0], document) {
      u, v := AcceptingInOrder(sources[1..], accepts, document, a, b);
      u, v := u + 1, v + 1;
    } else if a > 0 {
      u, v := AcceptingInOrder(sources[1..], accepts, document, a - 1, b - 1);
      u, v := u + 1, v + 1;
    } else {
      assert rest[b - 1] in rest;
      v :| 0 < v < |sources| && sources[v] == rest[b - 1];
      u := 0;
    }
  }

  /** The items of one line, among themselves. */
  lemma LineInOrder(lines: seq<InputLine>, n: nat, document: string, sources: seq<string>, accepts: Accepts)
    requires n < |lines| && FirstNames(lines, n, document)
    ensures var p := PlannedFor(lines[n].ordinal, document, Accepting(sources, accepts, document));
      && (forall k :: 0 <= k < |p| ==> PlannedFrom(p[k], lines, n, sources, accepts) && p[k].document == document)
      && (forall a, b :: 0 <= a < b < |p| ==> Ahead(p[a], p[b], n, n, sources))
      && (forall s :: s in sources && accepts(s, document) ==> exists k :: 0 <= k < |p| && p[k].source == s)
  {
    hide FirstNames;
    var chosen := Accepting(sources, accepts, document);
    var p := PlannedFor(lines[n].ordinal, document, chosen);
    forall k | 0 <= k < |p| ensures PlannedFrom(p[k], lines, n, sources, accepts) {
      assert chosen[k] in chosen;
    }
    forall a, b | 0 <= a < b < |p| ensures Ahead(p[a], p[b], n, n, sources) {
      var u, v := AcceptingInOrder(sources, accepts, document, a, b);
    }
    forall s | s in sources && accepts(s, document) ensures exists k :: 0 <= k < |p| && p[k].source == s {
      var k :| 0 <= k < |chosen| && chosen[k] == s;
      assert p[k].source == s;
    }
  }

  lemma OneMorePlanned(plan: SubmissionPlan, from: seq<nat>, of: seq<nat>, more: seq<PlannedItem>, doc: string,
      lines: seq<InputLine>, n: nat, sources: seq<string>, accepts: Accepts)
    requires FollowsLines(plan, from, of, lines, n, sources, accepts) && n < |lines| && more != []
    requires forall k :: 0 <= k < |more| ==>
      PlannedFrom(more[k], lines, n, sources, accepts) && more[k].document == doc
    requires forall a, b :: 0 <= a < b < |more| ==> Ahead(more[a], more[b], n, n, sources)
    requires forall s :: s in sources && accepts(s, doc) ==> exists k :: 0 <= k < |more| && more[k].source == s
    ensures FollowsLines(SubmissionPlan(plan.items + more, plan.exclusions), from + seq(|more|, _ => n), of, lines,
                         n + 1, sources, accepts)
  {
    hide PlannedFrom, ExcludedFrom;
    var r, all := SubmissionPlan(plan.items + more, plan.exclusions), from + seq(|more|, _ => n);
    forall m | 0 <= m < n + 1 ensures m in all || m in of {
      assert all[|from|] == n;
      assert m in from ==> m in all;
    }
    forall k, s | 0 <= k < |all| && s in sources && accepts(s, r.items[k].document) ensures Planned(r, all, all[k], s) {
      if k < |from| {
        assert Planned(plan, from, from[k], s);
        var i :| 0 <= i < |from| && from[i] == from[k] && plan.items[i].source == s;
        assert all[i] == all[k] && r.items[i] == plan.items[i];
      } else {
        var i :| 0 <= i < |more| && more[i].source == s;
        assert all[|from| + i] == n && r.items[|from| + i] == more[i];
      }
    }
  }

  /** The plan of the first `n` lines follows them. */
  lemma {:induction false} PlanFollowsLines(lines: seq<InputLine>, n: nat, sources: seq<string>, accepts: Accepts)
    returns (from: seq<nat>, of: seq<nat>)
    requires n <= |lines|
    ensures FollowsLines(PlanOf(lines, n, sources, accepts), from, of, lines, n, sources, accepts)
  {
    hide Document, FollowsLines, Accepting, PlannedFor;
    if n == 0 {
      from, of := [], [];
      NothingFollows(lines, sources, accepts);
    } else {
      var m, line, before := n - 1, lines[n - 1], PlanOf(lines, n - 1, sources, accepts);
      from, of := PlanFollowsLines(lines, m, sources, accepts);
      LineIsExcludedOrPlanned(lines, m, sources, accepts);
      var items, out := LineItems(lines, m, sources, accepts), LineExclusions(lines, m, sources, accepts);
      assert before.items + [] == before.items && before.exclusions + [] == before.exclusions;
      if items == [] {
        assert out == [out[0]];
        NoneAccepts(lines, m, sources, accepts);
        OneMoreExclusion(before, from, of, out[0], lines, m, sources, accepts);
        of := of + [m];
      } else {
        var doc := Document(line.value).value;
        LineInOrder(lines, m, doc, sources, accepts);
        OneMorePlanned(before, from, of, items, doc, lines, m, sources, accepts);
        from := from + seq(|items|, _ => m);
      }
    }
  }

  lemma NothingFollows(lines: seq<InputLine>, sources: seq<string>, accepts: Accepts)
    ensures FollowsLines(SubmissionPlan([], []), [], [], lines, 0, sources, accepts)
  {
  }

  lemma NoneAccepts(lines: seq<InputLine>, n: nat, sources: seq<string>, accepts: Accepts)
    requires n < |lines| && LineExclusions(lines, n, sources, accepts) != []
    ensures ExcludedFrom(LineExclusions(lines, n, sources, accepts)[0], lines, n, sources, accepts)
  {
    hide Document;
    if Document(lines[n].value).Some? {
      var doc := Document(lines[n].value).value;
      if Accepting(sources, accepts, doc) == [] {
        assert forall s :: s in sources && accepts(s, doc) ==> s in Accepting(sources, accepts, doc);
      }
    }
  }

  // ------------------------------------------------------------------- the planner

  lemma SeenNext(lines: seq<InputLine>, n: nat)
    requires n < |lines|
    ensures forall d :: SeenBefore(lines, n + 1, d) <==> SeenBefore(lines, n, d) || Document(lines[n].value) == Some(d)
  {
    hide Document;
  }

  lemma NothingSeen(lines: seq<InputLine>)
    ensures forall d :: !SeenBefore(lines, 0, d)
  {
  }

  lemma NothingPlanned(ordinal: nat, document: string, sources: seq<string>)
    ensures sources == [] ==> PlannedFor(ordinal, document, sources) == []
  {
  }

  method PlanSubmission(lines: seq<InputLine>, sources: seq<string>, accepts: Accepts)
    returns (r: Result<SubmissionPlan, SourceError>, ghost from: seq<nat>, ghost of: seq<nat>)
    ensures r.Failure? <==> sources == [] || !NoDuplicates(sources) || exists s :: s in sources && s !in STABLE_SITES
    ensures r.Failure? ==> (r.error.SourceRequired? <==> sources == []) &&
                           (r.error.SourceDuplicated? <==> sources != [] && !NoDuplicates(sources)) &&
                           (r.error.SourceNotEnabled? ==>
                              forall s :: s in r.error.invalid <==> s in sources && s != "osiptel")
    ensures r.Success? ==> r.value == PlanOf(lines, |lines|, sources, accepts)
    ensures r.Success? ==> FollowsLines(r.value, from, of, lines, |lines|, sources, accepts)
  {
    hide Document, Accepting, SeenBefore, PlannedFor, FollowsLines;
    from, of := [], [];
    if sources == [] {
      return Failure(SourceRequired), from, of;
    }
    if !NoDuplicates(sources) {
      return Failure(SourceDuplicated), from, of;
    }
    var invalid := (set s | s in sources) - STABLE_SITES;
    if invalid != {} {
      ghost var bad :| bad in invalid;
      return Failure(SourceNotEnabled(invalid)), from, of;
    }
    assert forall s :: s in sources && s !in STABLE_SITES ==> s in invalid;
    var items, exclusions, seen: set<string> := [], [], {};
    NothingSeen(lines);
    for n := 0 to |lines|
      invariant SubmissionPlan(items, exclusions) == PlanOf(lines, n, sources, accepts)
      invariant forall d :: d in seen <==> SeenBefore(lines, n, d)
    {
      var line := lines[n];
      var doc := Document(line.value);
      SeenNext(lines, n);
      if doc.None? {
        exclusions := exclusions + [ExcludedInput(line.ordinal, line.value, "invalid_document")];
      } else if doc.value in seen {
        exclusions := exclusions + [ExcludedInput(line.ordinal, doc.value, "duplicate_document")];
      } else {
        seen := seen + {doc.value};
        var accepted := Accepting(sources, accepts, doc.value);
        if accepted == [] {
          exclusions := exclusions + [ExcludedInput(line.ordinal, doc.value, "no_compatible_source")];
        } else {
          items := items + PlannedFor(line.ordinal, doc.value, accepted);
        }
        NothingPlanned(line.ordinal, doc.value, accepted);
      }
    }
    from, of := PlanFollowsLines(lines, |lines|, sources, accepts);
    return Success(SubmissionPlan(items, exclusions)), from, of;
  }

  // ------------------------------------------------------------------------ reuse

  /** One row of the reuse query: a published item of the team joined to its entry. */
  datatype ReuseRow = ReuseRow(document: string, source: string, entry: nat, status: LookupStatus, confirmedAt: int)

  ghost predicate RowOfTeam(t: Tables, team: nat, row: ReuseRow) {
    && Holds(t.items, team, (row.document, row.source), row.entry)
    && exists pair :: pair in t.entries && t.entries[pair].id == row.entry
                        && t.entries[pair].status == row.status && t.entries[pair].confirmedAt == row.confirmedAt
  }

  predicate Usable(row: ReuseRow, pairs: set<(string, string)>, freshness: map<string, int>, now: int) {
    && (row.document, row.source) in pairs
    && (row.status.Ok? || row.status.NotFound?)
    && row.source in freshness
    && now - row.confirmedAt <= freshness[row.source]
  }

  /** The query's answer: rows of the team only, and among them all its rows for the pairs. */
  ghost predicate RowsOfTeam(t: Tables, team: nat, pairs: set<(string, string)>, rows: seq<ReuseRow>) {
    && (forall row :: row in rows ==> RowOfTeam(t, team, row))
    && (forall row :: RowOfTeam(t, team, row) && (row.document, row.source) in pairs ==> row in rows)
  }

  /** Among the rows is a usable one for the pair. */
  ghost predicate Answers(rows: seq<ReuseRow>, pair: (string, string), pairs: set<(string, string)>,
      freshness: map<string, int>, now: int)
  {
    exists k :: 0 <= k < |rows| && (rows[k].document, rows[k].source) == pair && Usable(rows[k], pairs, freshness, now)
  }

  /** The team holds a usable answer for the pair. */
  ghost predicate FreshlyAnswered(t: Tables, team: nat, pair: (string, string), pairs: set<(string, string)>,
      freshness: map<string, int>, now: int)
  {
    && pair in pairs && pair.1 in freshness
    && exists row :: RowOfTeam(t, team, row) && row.document == pair.0 && row.source == pair.1
                       && row.status in {LookupStatus.Ok, LookupStatus.NotFound}
                       && now - freshness[pair.1] <= row.confirmedAt
  }

  lemma AnswersAreAll(t: Tables, team: nat, rows: seq<ReuseRow>, pair: (string, string), pairs: set<(string, string)>,
      freshness: map<string, int>, now: int)
    requires RowsOfTeam(t, team, pairs, rows)
    ensures Answers(rows, pair, pairs, freshness, now) <==> FreshlyAnswered(t, team, pair, pairs, freshness, now)
  {
    hide RowOfTeam;
    if Answers(rows, pair, pairs, freshness, now) {
      var k :| 0 <= k < |rows| && (rows[k].document, rows[k].source) == pair && Usable(rows[k], pairs, freshness, now);
      assert rows[k] in rows;
    }
    if FreshlyAnswered(t, team, pair, pairs, freshness, now) {
      var row :| RowOfTeam(t, team, row) && row.document == pair.0 && row.source == pair.1 &&
        row.status in {LookupStatus.Ok, LookupStatus.NotFound} && now - freshness[pair.1] <= row.confirmedAt;
      var k :| 0 <= k < |rows| && rows[k] == row;
    }
  }

  lemma AnswersMore(rows: seq<ReuseRow>, n: nat, pair: (string, string), pairs: set<(string, string)>,
      freshness: map<string, int>, now: int)
    requires n < |rows|
    ensures Answers(rows[..n + 1], pair, pairs, freshness, now) <==>
      Answers(rows[..n], pair, pairs, freshness, now) ||
      ((rows[n].document, rows[n].source) == pair && Usable(rows[n], pairs, freshness, now))
  {
    hide Usable;
    if Answers(rows[..n], pair, pairs, freshness, now) {
      var k :| 0 <= k < n && (rows[k].document, rows[k].source) == pair && Usable(rows[k], pairs, freshness, now);
      assert rows[..n + 1][k] == rows[k];
    }
    assert rows[..n + 1][n] == rows[n];
  }

  /** Of `pairs`, exactly the ones the team's own entries answer freshly, each with an entry the team holds. */
  method ReusableForTeam(ghost t: Tables, ghost team: nat, rows: seq<ReuseRow>, pairs: set<(string, string)>,
      freshness: map<string, int>, now: int)
    returns (result: Reusable)
    requires RowsOfTeam(t, team, pairs, rows)
    ensures forall pair :: pair in result <==> FreshlyAnswered(t, team, pair, pairs, freshness, now)
    ensures forall s: Submission :: s.team == team ==> ReuseKnown(t, s, result)
  {
    hide Answers, Usable, FreshlyAnswered, Holds;
    result := map[];
    NothingAnswers(rows, pairs, freshness, now);
    for n := 0 to |rows|
      invariant forall pair :: pair in result <==> Answers(rows[..n], pair, pairs, freshness, now)
      invariant forall pair :: pair in result ==> Holds(t.items, team, pair, result[pair])
    {
      var row := rows[n];
      var pair := (row.document, row.source);
      assert row in rows && RowOfTeam(t, team, row);
      assert Holds(t.items, team, pair, row.entry);
      ghost var before := result;
      if Usable(row, pairs, freshness, now) {
        result := result[pair := row.entry];
      }
      forall p
        ensures p in result <==> Answers(rows[..n + 1], p, pairs, freshness, now)
        ensures p in result ==> Holds(t.items, team, p, result[p])
      {
        AnswersMore(rows, n, p, pairs, freshness, now);
        if p in result && p != pair {
          assert p in before && result[p] == before[p];
        }
      }
    }
    assert rows[..|rows|] == rows;
    forall pair ensures pair in result <==> FreshlyAnswered(t, team, pair, pairs, freshness, now) {
      AnswersAreAll(t, team, rows, pair, pairs, freshness, now);
    }
  }

  lemma NothingAnswers(rows: seq<ReuseRow>, pairs: set<(string, string)>, freshness: map<string, int>, now: int)
    ensures forall pair :: !Answers(rows[..0], pair, pairs, freshness, now)
  {
  }

  // ----------------------------------------------------------------------- the review

  datatype SubmissionReview = SubmissionReview(items: seq<PlannedItem>, exclusions: seq<ExcludedInput>,
      reusable: seq<PlannedItem>)

  function Offered(items: seq<PlannedItem>, pairs: set<(string, string)>): seq<PlannedItem> {
    if items == [] then [] else (if PairOf(items[0]) in pairs then [items[0]] else []) + Offered(items[1..], pairs)
  }

  function BuildReview(plan: SubmissionPlan, pairs: set<(string, string)>): SubmissionReview {
    SubmissionReview(plan.items, plan.exclusions, Offered(plan.items, pairs))
  }

  lemma {:induction false} OfferedIsReused(items: seq<PlannedItem>, reusable: Reusable)
    ensures Offered(items, reusable.Keys) == Reused(items, reusable)
  {
    if items != [] {
      OfferedIsReused(items[1..], reusable);
    }
  }

  /** What the review promises to reuse is what an admission with the same answers reuses; the rest becomes pending. */
  lemma ReviewMatchesAdmission(s: Submission, reusable: Reusable)
    ensures BuildReview(s.plan, reusable.Keys).reusable == Reused(s.plan.items, reusable)
    ensures |s.plan.items| - |BuildReview(s.plan, reusable.Keys).reusable| == |ToFetch(s.plan.items, reusable)|
  {
    OfferedIsReused(s.plan.items, reusable);
    SplitIsPlan(s.plan.items, reusable);
    assert |multiset(s.plan.items)| ==
      |multiset(ToFetch(s.plan.items, reusable))| + |multiset(Reused(s.plan.items, reusable))|;
  }
}
