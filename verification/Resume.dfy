/**
 A run of the command line: read the documents, plan what the state database does not
 know yet, let the lanes drain one queue per source, and record every result. Runs
 are repeated on one state database until nothing is left to fetch.
 */
module Resume {
  import opened Basics
  import opened Documents
  import opened Fetch
  import opened Outcomes

  // ------------------------------------------------------------------ reading the input

  /** `duplicates` counts the rows dropped because an earlier one named the same document. */
  datatype PlanCounts = PlanCounts(rowsRead: nat, valid: nat, ignored: nat, duplicates: nat)

  /** The document of an input row: that of its first cell. A row of blanks has none. */
  function RowDocument(row: seq<string>): Option<string> {
    if row == [] then None else Document(row[0])
  }

  function DocsOf(rows: seq<seq<string>>, dedupe: bool): (docs: seq<string>)
    ensures dedupe ==> NoDuplicates(docs)
    ensures forall d :: d in docs <==> exists row :: row in rows && row != [] && Document(row[0]) == Some(d)
  {
    if rows == [] then []
    else
      var before, last := DocsOf(rows[..|rows| - 1], dedupe), RowDocument(rows[|rows| - 1]);
      assert rows == rows[..|rows| - 1] + [rows[|rows| - 1]];
      if last.None? || (dedupe && last.value in before) then before else before + [last.value]
  }

  function Ignored(rows: seq<seq<string>>): nat {
    if rows == [] then 0 else Ignored(rows[..|rows| - 1]) + (if RowDocument(rows[|rows| - 1]).None? then 1 else 0)
  }

  lemma NoRows(rows: seq<seq<string>>, dedupe: bool)
    ensures DocsOf(rows[..0], dedupe) == [] && Ignored(rows[..0]) == 0
  {
  }

  lemma NextRow(rows: seq<seq<string>>, n: nat, dedupe: bool)
    requires n < |rows|
    ensures var before, last := DocsOf(rows[..n], dedupe), RowDocument(rows[n]);
      && Ignored(rows[..n + 1]) == Ignored(rows[..n]) + (if last.None? then 1 else 0)
      && DocsOf(rows[..n + 1], dedupe) ==
           if last.None? || (dedupe && last.value in before) then before else before + [last.value]
  {
    hide RowDocument;
    assert rows[..n + 1][..n] == rows[..n];
  }

  method ReadDocs(rows: seq<seq<string>>, dedupe: bool) returns (docs: seq<string>, counts: PlanCounts)
    ensures docs == DocsOf(rows, dedupe)
    ensures counts.rowsRead == |rows| == counts.valid + counts.ignored + counts.duplicates
    ensures counts.valid == |docs| && counts.ignored == Ignored(rows)
    ensures !dedupe ==> counts.duplicates == 0
  {
    hide RowDocument, DocsOf, Ignored;
    var ignored, duplicates := 0, 0;
    var seen: set<string> := {};
    docs := [];
    NoRows(rows, dedupe);
    for n := 0 to |rows|
      invariant docs == DocsOf(rows[..n], dedupe)
      invariant ignored == Ignored(rows[..n]) && n == |docs| + ignored + duplicates
      invariant forall d :: d in seen <==> d in docs
      invariant !dedupe ==> duplicates == 0
    {
      NextRow(rows, n, dedupe);
      if RowDocument(rows[n]).None? {
        ignored := ignored + 1;
        continue;
      }
      var doc := RowDocument(rows[n]).value;
      if dedupe && doc in seen {
        duplicates := duplicates + 1;
        continue;
      }
      seen := seen + {doc};
      docs := docs + [doc];
    }
    assert rows[..|rows|] == rows;
    counts := PlanCounts(|rows|, |docs|, ignored, duplicates);
  }

  /** Rows added at the end only add documents at the end. */
  lemma {:induction false} DocsKeepOrder(rows: seq<seq<string>>, n: nat, dedupe: bool)
    requires n <= |rows|
    ensures DocsOf(rows[..n], dedupe) <= DocsOf(rows, dedupe)
    decreases |rows| - n
  {
    if n == |rows| {
      assert rows[..n] == rows;
    } else {
      assert rows[..n + 1][..n] == rows[..n];
      DocsKeepOrder(rows, n + 1, dedupe);
    }
  }

  // ----------------------------------------------------------------------- planning

  /** The documents of a source that are accepted and not done, in input order. */
  function PlanPending(docs: seq<string>, site: string, accepts: Accepts, done: set<Pair>): (pending: seq<string>)
    ensures forall d :: d in pending <==> d in docs && accepts(site, d) && (site, d) !in done
    ensures NoDuplicates(docs) ==> NoDuplicates(pending)
    ensures |pending| <= |docs|
  {
    if docs == [] then []
    else
      (if accepts(site, docs[0]) && (site, docs[0]) !in done then [docs[0]] else [])
        + PlanPending(docs[1..], site, accepts, done)
  }

  lemma NonePending(site: string, accepts: Accepts, done: set<Pair>)
    ensures PlanPending([], site, accepts, done) == []
  {
  }

  lemma PendingFirst(first: string, rest: seq<string>, site: string, accepts: Accepts, done: set<Pair>)
    ensures PlanPending([first] + rest, site, accepts, done) ==
      (if accepts(site, first) && (site, first) !in done then [first] else []) + PlanPending(rest, site, accepts, done)
  {
    assert ([first] + rest)[1..] == rest;
  }

  /** Pending documents keep the order of the input. */
  lemma {:induction false} PendingKeepsOrder(a: seq<string>, b: seq<string>, site: string, accepts: Accepts,
      done: set<Pair>)
    ensures PlanPending(a + b, site, accepts, done) ==
      PlanPending(a, site, accepts, done) + PlanPending(b, site, accepts, done)
  {
    hide PlanPending;
    if a == [] {
      assert a + b == b;
      NonePending(site, accepts, done);
    } else {
      assert a + b == [a[0]] + (a[1..] + b) && a == [a[0]] + a[1..];
      PendingFirst(a[0], a[1..] + b, site, accepts, done);
      PendingFirst(a[0], a[1..], site, accepts, done);
      PendingKeepsOrder(a[1..], b, site, accepts, done);
    }
  }

  // ------------------------------------------------------------------------- lanes

  datatype LaneTask = LaneTask(site: string, provider: string, slot: nat, lane: nat)

  datatype Provider = Provider(name: string, workers: nat)

  ghost predicate Served(tasks: seq<LaneTask>, site: string, provider: Provider) {
    0 < provider.workers ==> exists n :: 0 <= n < |tasks| && tasks[n].site == site && tasks[n].provider == provider.name
  }

  ghost predicate AllServed(tasks: seq<LaneTask>, site: string, providers: seq<Provider>) {
    forall p :: p in providers ==> Served(tasks, site, p)
  }

  /** Lanes are numbered from one, and no two lanes of a provider share a slot. */
  ghost predicate Numbered(tasks: seq<LaneTask>) {
    && (forall n :: 0 <= n < |tasks| ==> tasks[n].lane == n + 1)
    && (forall n, m :: 0 <= n < m < |tasks| && tasks[n].provider == tasks[m].provider ==>
          0 < tasks[n].slot < tasks[m].slot)
  }

  ghost predicate Within(tasks: seq<LaneTask>, nextSlot: map<string, nat>) {
    && Numbered(tasks)
    && (forall n :: 0 <= n < |tasks| ==>
          tasks[n].provider in nextSlot && 0 < tasks[n].slot <= nextSlot[tasks[n].provider])
  }

  ghost predicate OnlyFor(tasks: seq<LaneTask>, sites: seq<string>, pending: map<string, seq<string>>) {
    forall n :: 0 <= n < |tasks| ==> tasks[n].site in sites && tasks[n].site in pending && pending[tasks[n].site] != []
  }

  method StartProvider(before: seq<LaneTask>, slots: map<string, nat>, site: string, provider: Provider)
    returns (tasks: seq<LaneTask>, nextSlot: map<string, nat>)
    requires Within(before, slots) && provider.name in slots
    ensures Within(tasks, nextSlot) && nextSlot.Keys == slots.Keys
    ensures before <= tasks && Served(tasks, site, provider)
    ensures forall n :: |before| <= n < |tasks| ==> tasks[n].site == site
  {
    tasks, nextSlot := before, slots;
    for k := 0 to provider.workers
      invariant Within(tasks, nextSlot) && nextSlot.Keys == slots.Keys
      invariant before <= tasks && |tasks| == |before| + k
      invariant forall n :: |before| <= n < |tasks| ==> tasks[n].site == site && tasks[n].provider == provider.name
    {
      nextSlot := nextSlot[provider.name := nextSlot[provider.name] + 1];
      tasks := tasks + [LaneTask(site, provider.name, nextSlot[provider.name], |tasks| + 1)];
    }
    if 0 < provider.workers {
      assert tasks[|before|].site == site && tasks[|before|].provider == provider.name;
    }
  }

  lemma StillServed(before: seq<LaneTask>, after: seq<LaneTask>, site: string, provider: Provider)
    requires before <= after && Served(before, site, provider)
    ensures Served(after, site, provider)
  {
    if 0 < provider.workers {
      var n :| 0 <= n < |before| && before[n].site == site && before[n].provider == provider.name;
      assert after[n] == before[n];
    }
  }

  method StartSite(before: seq<LaneTask>, slots: map<string, nat>, site: string, providers: seq<Provider>)
    returns (tasks: seq<LaneTask>, nextSlot: map<string, nat>)
    requires Within(before, slots) && (forall p :: p in providers ==> p.name in slots)
    ensures Within(tasks, nextSlot) && nextSlot.Keys == slots.Keys
    ensures before <= tasks && AllServed(tasks, site, providers)
    ensures forall n :: |before| <= n < |tasks| ==> tasks[n].site == site
  {
    hide Served, Within;
    tasks, nextSlot := before, slots;
    for j := 0 to |providers|
      invariant Within(tasks, nextSlot) && nextSlot.Keys == slots.Keys && before <= tasks
      invariant forall i :: 0 <= i < j ==> Served(tasks, site, providers[i])
      invariant forall n :: |before| <= n < |tasks| ==> tasks[n].site == site
    {
      ghost var earlier := tasks;
      tasks, nextSlot := StartProvider(tasks, nextSlot, site, providers[j]);
      forall i | 0 <= i < j ensures Served(tasks, site, providers[i]) {
        StillServed(earlier, tasks, site, providers[i]);
      }
    }
  }

  /** Starts every provider's lanes for each source with work; a provider's slots count on across sources. */
  method StartLanes(sites: seq<string>, pending: map<string, seq<string>>, providers: seq<Provider>)
    returns (tasks: seq<LaneTask>)
    requires forall s :: s in sites ==> s in pending
    ensures Numbered(tasks) && OnlyFor(tasks, sites, pending)
    ensures forall s :: s in sites && pending[s] != [] ==> AllServed(tasks, s, providers)
  {
    hide Served;
    tasks := [];
    var nextSlot: map<string, nat> := map[];
    for j := 0 to |providers|
      invariant forall i :: 0 <= i < j ==> providers[i].name in nextSlot
    {
      nextSlot := nextSlot[providers[j].name := 0];
    }
    for i := 0 to |sites|
      invariant Within(tasks, nextSlot) && OnlyFor(tasks, sites, pending)
      invariant forall p :: p in providers ==> p.name in nextSlot
      invariant forall k :: 0 <= k < i && pending[sites[k]] != [] ==> AllServed(tasks, sites[k], providers)
    {
      if pending[sites[i]] == [] {
        continue;
      }
      ghost var earlier := tasks;
      tasks, nextSlot := StartSite(tasks, nextSlot, sites[i], providers);
      forall k | 0 <= k < i && pending[sites[k]] != [] ensures AllServed(tasks, sites[k], providers) {
        forall p | p in providers ensures Served(tasks, sites[k], p) {
          StillServed(earlier, tasks, sites[k], p);
        }
      }
    }
  }
}
