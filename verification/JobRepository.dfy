/**
 The job repository: the transactions of `JobTables` carried out row by row on the
 stored tables.
 */
module JobRepository {
  import opened Basics
  import opened Documents
  import opened JobTables
  import opened ClaimQuery
  import opened QueueInvariant
  import opened QueueRuns
  import opened QueueColumns

  datatype ClaimError = WorkerSourceRequired | SourceNotEnabled(invalid: set<string>)

  datatype ClaimedWork = ClaimedWork(item: nat, job: nat, team: nat, source: string, document: string, fence: nat,
      credential: nat)

  datatype PublishError = UnknownItem

  // --------------------------------------------------------------- ORDER BY ... LIMIT

  /** One pass over the candidates for the first in queue order. */
  method FirstRow(items: seq<Item>, pool: seq<nat>) returns (n: nat)
    requires |pool| > 0
    ensures n < |pool| && forall y :: y in pool ==> NotAfter(items, pool[n], y)
  {
    n := 0;
    for m := 1 to |pool|
      invariant n < m
      invariant forall y :: 0 <= y < m ==> NotAfter(items, pool[n], pool[y])
    {
      if !NotAfter(items, pool[n], pool[m]) {
        n := m;
      }
    }
  }

  /** `top` has been taken from the front of the pool and `rest` is what is left. */
  ghost predicate Front(items: seq<Item>, pool: seq<nat>, top: seq<nat>, rest: seq<nat>) {
    && |top| + |rest| == |pool|
    && multiset(top) + multiset(rest) == multiset(pool)
    && forall x, y :: x in top && y in rest ==> NotAfter(items, x, y)
  }

  lemma FrontGrows(items: seq<Item>, pool: seq<nat>, top: seq<nat>, rest: seq<nat>, n: nat)
    requires Front(items, pool, top, rest)
    requires n < |rest| && forall y :: y in rest ==> NotAfter(items, rest[n], y)
    ensures Front(items, pool, top + [rest[n]], rest[..n] + rest[n + 1..])
  {
    hide NotAfter;
    assert rest == rest[..n] + [rest[n]] + rest[n + 1..];
    assert forall y :: y in rest[..n] + rest[n + 1..] ==> y in rest;
  }

  lemma FrontIsTop(items: seq<Item>, pool: seq<nat>, top: seq<nat>, rest: seq<nat>, k: nat)
    requires Front(items, pool, top, rest) && |top| <= k && (|top| == k || rest == [])
    ensures IsTop(items, multiset(pool), k, multiset(top))
  {
    hide NotAfter;
    assert multiset(pool) - multiset(top) == multiset(rest);
    assert |multiset(top)| == |top| && |multiset(pool)| == |pool|;
  }

  /** Takes rows in queue order until the limit or the pool is used up. */
  method TopRows(items: seq<Item>, pool: seq<nat>, k: nat) returns (top: seq<nat>)
    ensures IsTop(items, multiset(pool), k, multiset(top))
  {
    hide Front, IsTop, NotAfter;
    top := [];
    var rest := pool;
    WholeIsLeft(items, pool);
    while |top| < k && |rest| > 0
      invariant |top| <= k && Front(items, pool, top, rest)
      decreases |rest|
    {
      var n := FirstRow(items, rest);
      FrontGrows(items, pool, top, rest, n);
      top := top + [rest[n]];
      rest := rest[..n] + rest[n + 1..];
    }
    FrontIsTop(items, pool, top, rest, k);
  }

  lemma WholeIsLeft(items: seq<Item>, pool: seq<nat>)
    ensures Front(items, pool, [], pool)
  {
  }

  function Below(s: set<nat>, n: nat): set<nat> {
    set x | x in s && x < n
  }

  lemma BelowNext(s: set<nat>, n: nat)
    ensures Below(s, n + 1) == if n in s then Below(s, n) + {n} else Below(s, n)
    ensures n !in Below(s, n)
  {
  }

  lemma BelowEnds(s: set<nat>, n: nat)
    requires forall x :: x in s ==> x < n
    ensures Below(s, 0) == {} && Below(s, n) == s
  {
  }

  lemma OneMoreJob(items: seq<Item>, ids: set<nat>, i: nat)
    requires i < |items|
    ensures JobsOf(items, ids + {i}) == JobsOf(items, ids) + {items[i].job}
  {
  }

  lemma NoJobs(items: seq<Item>)
    ensures JobsOf(items, {}) == {}
  {
  }

  /** Rows of one source of one job, in table order. */
  method WantedRows(t: Tables, barred: Barred, j: nat, source: string) returns (rows: seq<nat>)
    ensures multiset(rows) == multiset(Wanted(t, barred, j, source))
  {
    hide Below;
    ghost var wanted := Wanted(t, barred, j, source);
    BelowEnds(wanted, |t.items|);
    rows := [];
    for i := 0 to |t.items|
      invariant multiset(rows) == multiset(Below(wanted, i))
    {
      BelowNext(wanted, i);
      if Claimable(t, barred, i) && t.items[i].job == j && t.items[i].source.value == source {
        rows := rows + [i];
      }
    }
  }

  /** Rows of one source whose job uses the credential, in table order. */
  method KinRows(t: Tables, barred: Barred, source: string, credential: nat) returns (rows: seq<nat>)
    ensures multiset(rows) == multiset(Kin(t, barred, source, credential))
  {
    hide Below;
    ghost var kin := Kin(t, barred, source, credential);
    BelowEnds(kin, |t.items|);
    rows := [];
    for i := 0 to |t.items|
      invariant multiset(rows) == multiset(Below(kin, i))
    {
      BelowNext(kin, i);
      if Claimable(t, barred, i) && t.items[i].source.value == source && t.jobs[t.items[i].job].credential == credential
      {
        rows := rows + [i];
      }
    }
  }

  /** The inner two limits of the general query for one job. */
  method PickForJob(t: Tables, barred: Barred, sources: seq<string>, k: nat, j: nat) returns (pick: seq<nat>)
    ensures JobPick(t, barred, sources, k, j, multiset(pick))
  {
    hide IsTop, Wanted;
    var all: seq<nat> := [];
    ghost var cuts: seq<multiset<nat>> := [];
    for w := 0 to |sources|
      invariant |cuts| == w
      invariant forall v :: 0 <= v < w ==> IsTop(t.items, SourceParts(t, barred, j, sources)[v], k, cuts[v])
      invariant multiset(all) == Sum(cuts)
    {
      var rows := WantedRows(t, barred, j, sources[w]);
      var top := TopRows(t.items, rows, k);
      SumSnoc(cuts, multiset(top));
      all := all + top;
      cuts := cuts + [multiset(top)];
    }
    pick := TopRows(t.items, all, k);
  }

  lemma {:induction false} SumSnoc(parts: seq<multiset<nat>>, last: multiset<nat>)
    ensures Sum(parts + [last]) == Sum(parts) + last
  {
    if parts == [] {
      assert parts + [last] == [last];
    } else {
      SumSnoc(parts[1..], last);
      assert (parts + [last])[1..] == parts[1..] + [last];
    }
  }

  /** The general query. */
  method PickAny(t: Tables, barred: Barred, sources: seq<string>, k: nat) returns (pick: seq<nat>)
    ensures NestedPick(t, barred, sources, k, multiset(pick))
  {
    hide JobPick, IsTop;
    var all: seq<nat> := [];
    ghost var picks: seq<multiset<nat>> := [];
    for j := 0 to |t.jobs|
      invariant |picks| == j
      invariant forall v :: 0 <= v < j ==> JobPick(t, barred, sources, k, v, picks[v])
      invariant multiset(all) == Sum(picks)
    {
      var top := PickForJob(t, barred, sources, k, j);
      SumSnoc(picks, multiset(top));
      all := all + top;
      picks := picks + [multiset(top)];
    }
    pick := TopRows(t.items, all, k);
  }

  /** The affinity query of `claim_many`: one limit over all kindred rows. */
  method PickKin(t: Tables, barred: Barred, source: string, credential: nat, k: nat) returns (pick: seq<nat>)
    ensures IsTop(t.items, multiset(Kin(t, barred, source, credential)), k, multiset(pick))
  {
    var all := KinRows(t, barred, source, credential);
    pick := TopRows(t.items, all, k);
  }

  function KinOf(t: Tables, barred: Barred, source: string, credential: nat, j: nat): set<nat> {
    if j < |t.jobs| && t.jobs[j].credential == credential then Wanted(t, barred, j, source) else {}
  }

  method FirstKinOf(t: Tables, barred: Barred, source: string, credential: nat, j: nat) returns (top: seq<nat>)
    ensures IsTop(t.items, multiset(KinOf(t, barred, source, credential, j)), 1, multiset(top))
  {
    var rows: seq<nat> := [];
    if j < |t.jobs| && t.jobs[j].credential == credential {
      rows := WantedRows(t, barred, j, source);
    }
    top := TopRows(t.items, rows, 1);
  }

  /** The affinity query of `claim`: the first kindred row of each job, then the first of those. */
  method PickOneKin(t: Tables, barred: Barred, source: string, credential: nat) returns (pick: seq<nat>)
    ensures IsTop(t.items, multiset(Kin(t, barred, source, credential)), 1, multiset(pick))
  {
    var firsts: seq<nat> := [];
    ghost var cuts: seq<multiset<nat>> := [];
    for j := 0 to |t.jobs|
      invariant |cuts| == j
      invariant forall v :: 0 <= v < j ==> IsTop(t.items, multiset(KinOf(t, barred, source, credential, v)), 1, cuts[v])
      invariant multiset(firsts) == Sum(cuts)
    {
      var top := FirstKinOf(t, barred, source, credential, j);
      SumSnoc(cuts, multiset(top));
      firsts := firsts + top;
      cuts := cuts + [multiset(top)];
    }
    pick := TopRows(t.items, firsts, 1);
    FirstOfEachJob(t, barred, source, credential, cuts, multiset(pick));
  }

  /** Cutting each job's kindred rows to one does not change which row comes first. */
  lemma FirstOfEachJob(t: Tables, barred: Barred, source: string, credential: nat, cuts: seq<multiset<nat>>,
      pick: multiset<nat>)
    requires |cuts| == |t.jobs|
    requires forall v :: 0 <= v < |cuts| ==>
      IsTop(t.items, multiset(KinOf(t, barred, source, credential, v)), 1, cuts[v])
    requires IsTop(t.items, Sum(cuts), 1, pick)
    ensures IsTop(t.items, multiset(Kin(t, barred, source, credential)), 1, pick)
  {
    var parts := seq(|t.jobs|, j requires 0 <= j < |t.jobs| => multiset(KinOf(t, barred, source, credential, j)));
    KinIsSum(t, barred, source, credential, parts);
    PartsAbsorb(t.items, parts, cuts, 1, pick);
  }

  lemma KinIsSum(t: Tables, barred: Barred, source: string, credential: nat, parts: seq<multiset<nat>>)
    requires |parts| == |t.jobs|
    requires forall v :: 0 <= v < |parts| ==> parts[v] == multiset(KinOf(t, barred, source, credential, v))
    ensures Sum(parts) == multiset(Kin(t, barred, source, credential))
  {
    forall i: nat ensures Sum(parts)[i] == multiset(Kin(t, barred, source, credential))[i] {
      SumOfOne(parts, i, if i < |t.items| then t.items[i].job else 0);
    }
  }

  // ---------------------------------------------------------------- the repository

  lemma {:induction false} FinishAllSnoc(t: Tables, visited: seq<nat>, j: nat)
    requires forall k :: 0 <= k < |visited| ==> visited[k] < |t.jobs|
    requires j < |t.jobs|
    ensures FinishAll(t, visited + [j]) == FinishIfDrained(FinishAll(t, visited), j)
    decreases |visited|
  {
    if visited == [] {
      assert visited + [j] == [j];
      assert FinishAll(FinishIfDrained(t, j), [j][1..]) == FinishIfDrained(t, j);
    } else {
      var rest := visited[1..];
      assert (visited + [j])[1..] == rest + [j];
      FinishAllSnoc(FinishIfDrained(t, visited[0]), rest, j);
    }
  }

  lemma PromoteStep(t: Tables, slots: nat)
    requires slots > 0
    ensures var q := FirstQueued(t.jobs);
      Promote(t, slots) == if q == |t.jobs| then t else Promote(StartJob(t, q), slots - 1)
  {
  }

  lemma PromoteNone(t: Tables)
    ensures Promote(t, 0) == t
  {
  }

  lemma NothingClaimed(t: Tables, worker: string, now: int)
    requires RowsInRange(t)
    ensures Members([]) == {} && Claimed(t, {}, worker, now) == t && Handed([], t, [])
  {
    assert Claimed(t, {}, worker, now).items == t.items;
  }

  lemma RowInRange(t: Tables, i: nat)
    requires RowsInRange(t) && i < |t.items|
    ensures t.items[i].job < |t.jobs|
  {
  }

  /** The next row of a claim's UPDATE. */
  lemma ClaimOneMore(t: Tables, ids: seq<nat>, n: nat, worker: string, now: int)
    requires RowsInRange(t) && NoDuplicates(ids) && n < |ids| && ids[n] < |t.items|
    ensures var before := Claimed(t, Members(ids[..n]), worker, now);
      && before.items[ids[n]] == t.items[ids[n]]
      && Claimed(t, Members(ids[..n + 1]), worker, now) ==
         before.(items := before.items[ids[n] := ClaimedRow(t.jobs, t.items[ids[n]], worker, now)])
  {
    hide ClaimedRow, RowsInRange;
    RowInRange(t, ids[n]);
    assert ids[..n + 1] == ids[..n] + [ids[n]];
    assert Members(ids[..n + 1]) == Members(ids[..n]) + {ids[n]};
    var before, after := Claimed(t, Members(ids[..n]), worker, now), Claimed(t, Members(ids[..n + 1]), worker, now);
    assert after.items == before.items[ids[n] := ClaimedRow(t.jobs, t.items[ids[n]], worker, now)];
  }

  /** The rows handed out so far are still as stored when another row is claimed. */
  lemma HandedOneMore(work: seq<ClaimedWork>, t: Tables, ids: seq<nat>, n: nat, row: Item, w: ClaimedWork)
    requires NoDuplicates(ids) && n < |ids| && ids[n] < |t.items|
    requires Handed(work, t, ids[..n]) && HandedOne(w, t.(items := t.items[ids[n] := row]), ids[n])
    ensures Handed(work + [w], t.(items := t.items[ids[n] := row]), ids[..n + 1])
  {
    hide NoDuplicates, WorkOf;
    var r := t.(items := t.items[ids[n] := row]);
    forall m | 0 <= m <= n ensures HandedOne((work + [w])[m], r, ids[..n + 1][m]) {
      if m < n {
        NotRepeated(ids, m, n);
        SameRow(work[m], t, r, ids[..n][m]);
      }
    }
  }

  lemma NotRepeated(ids: seq<nat>, m: nat, n: nat)
    requires NoDuplicates(ids) && m < n < |ids|
    ensures ids[m] != ids[n]
  {
  }

  lemma SameRow(w: ClaimedWork, t: Tables, r: Tables, i: nat)
    requires HandedOne(w, t, i) && r.jobs == t.jobs && i < |r.items| && r.items[i] == t.items[i]
    ensures HandedOne(w, r, i)
  {
  }

  /** The claim as recorded meets the two query clauses of a claim transaction. */
  lemma AsRecorded(c: ClaimTx)
    requires RowsInRange(c.swept) && AffinityPick(c.swept, c.barred, c.affinity, c.limit, c.kin) && |c.kin| <= c.limit
    requires if c.limit - |c.kin| > 0 then NestedPick(Kindred(c), c.barred, c.sources, c.limit - |c.kin|, c.rest)
             else c.rest == multiset{}
    ensures KinPick(c) && RestPick(c)
  {
    hide IsTop, NestedPick, Claimed, Kin;
  }

  class PostgresJobRepository {
    var jobs: seq<Job>
    var items: seq<Item>
    var events: seq<Event>
    var outbox: seq<Notice>
    var entries: map<(string, string), Entry>
    var ledger: seq<LedgerRow>

    /** The committed tables. */
    function State(): Tables
      reads this
    {
      Tables(jobs, items, events, outbox, entries, ledger)
    }

    constructor ()
      ensures State() == EMPTY
    {
      jobs, items, events, outbox, entries, ledger := [], [], [], [], map[], [];
    }

    method RecordEvent(j: nat, kind: EventKind)
      modifies this`events
      ensures State() == WithEvent(old(State()), j, kind)
    {
      events := events + [Event(j, kind)];
    }

    method RecordTerminalIntents(j: nat, state: JobState)
      modifies this`events, this`outbox
      ensures State() == TerminalIntents(old(State()), j, state)
      ensures events == old(events) + [Event(j, StateEvent(state))]
      ensures var e := |old(events)|;
        outbox == old(outbox) + [Notice(e, InApp, j, state), Notice(e, Email, j, state),
                                 Notice(e, KapsoWhatsapp, j, state)]
    {
      var event := |events|;
      RecordEvent(j, StateEvent(state));
      for c := 0 to |CHANNELS|
        invariant events == old(events) + [Event(j, StateEvent(state))]
        invariant outbox == old(outbox) + NoticesFor(event, j, state)[..c]
      {
        outbox := outbox + [Notice(event, CHANNELS[c], j, state)];
      }
    }

    method CountActive() returns (active: nat)
      ensures active == ActiveCount(jobs)
    {
      active := 0;
      for j := 0 to |jobs|
        invariant active == ActiveCount(jobs[..j])
      {
        assert jobs[..j + 1][..j] == jobs[..j];
        if Active(jobs[j]) {
          active := active + 1;
        }
      }
      assert jobs[..|jobs|] == jobs;
    }

    /** The oldest queued job, or |jobs| when none waits. */
    method OldestQueued() returns (q: nat)
      ensures q == FirstQueued(jobs)
    {
      q := 0;
      while q < |jobs| && !jobs[q].state.Queued?
        invariant q <= |jobs|
        invariant FirstQueued(jobs) == FirstQueued(jobs, q)
      {
        q := q + 1;
      }
    }

    method Start(q: nat)
      requires q < |jobs|
      modifies this`jobs, this`events
      ensures State() == StartJob(old(State()), q)
    {
      jobs := jobs[q := jobs[q].(state := JobState.Running)];
      RecordEvent(q, StateEvent(JobState.Running));
    }

    method PromoteQueued()
      modifies this`jobs, this`events
      ensures State() == PromoteLocked(old(State()))
      ensures PromotedColumns(old(State()), State())
    {
      hide Promote, StartJob, FirstQueued, ActiveCount, PromotedColumns;
      PromoteColumns(State());
      var active := CountActive();
      if active >= MAX_ACTIVE_JOBS {
        return;
      }
      var slots: nat := MAX_ACTIVE_JOBS - active;
      while slots > 0
        invariant Promote(State(), slots) == PromoteLocked(old(State()))
        decreases slots
      {
        var q := OldestQueued();
        PromoteStep(State(), slots);
        if q == |jobs| {
          return;
        }
        Start(q);
        slots := slots - 1;
      }
      PromoteNone(State());
    }

    method EndWith(j: nat, row: Job)
      requires j < |jobs|
      modifies this`jobs, this`events, this`outbox
      ensures State() == EndJob(old(State()), j, row)
    {
      jobs := jobs[j := row];
      RecordTerminalIntents(j, row.state);
      PromoteQueued();
    }

    method FinishJobIfDrained(j: nat)
      requires j < |jobs|
      modifies this`jobs, this`events, this`outbox
      ensures State() == FinishIfDrained(old(State()), j)
      ensures FinishedColumns(old(State()), j, State())
    {
      hide FinishedColumns, EndJob;
      FinishColumns(State(), j);
      if jobs[j].state.Running? && !HasLive(items, j) {
        var row := if HasPublished(items, j) then jobs[j].(state := JobState.Completed)
                   else jobs[j].(state := JobState.Failed, reason := Some("no_results"));
        EndWith(j, row);
      }
    }

    /** The sweep's UPDATE: expired rows go back or retire; their jobs are returned. */
    method SweepRows(now: int, locked: set<nat>) returns (touched: set<nat>)
      modifies this`items
      ensures State() == old(State()).(items := SweptItems(old(items), ExpiredItems(old(State()), now, locked)))
      ensures touched == JobsOf(old(items), ExpiredItems(old(State()), now, locked))
    {
      hide SweptRow, Below, JobsOf;
      ghost var t := State();
      ghost var ids := ExpiredItems(t, now, locked);
      BelowEnds(ids, |items|);
      NoJobs(items);
      touched := {};
      for i := 0 to |items|
        invariant State() == t.(items := items) && |items| == |t.items|
        invariant forall k :: 0 <= k < |items| ==>
          items[k] == if k < i && k in ids then SweptRow(t.items[k]) else t.items[k]
        invariant touched == JobsOf(t.items, Below(ids, i))
      {
        var due := i !in locked && Expired(State(), i, now);
        assert due <==> i in ids;
        BelowNext(ids, i);
        if due {
          OneMoreJob(t.items, Below(ids, i), i);
          touched := touched + {items[i].job};
          items := items[i := SweptRow(items[i])];
        }
      }
      assert items == SweptItems(t.items, ids);
    }

    /** Finishes the touched jobs, in whatever order the set yields them. */
    method FinishTouched(jobIds: set<nat>) returns (ghost visited: seq<nat>)
      requires forall j :: j in jobIds ==> j < |jobs|
      modifies this`jobs, this`events, this`outbox
      ensures Enumerates(visited, jobIds) && forall k :: 0 <= k < |visited| ==> visited[k] < |old(jobs)|
      ensures State() == FinishAll(old(State()), visited)
    {
      ghost var swept := State();
      var touched := jobIds;
      visited := [];
      while touched != {}
        invariant touched <= jobIds && |jobs| == |swept.jobs|
        invariant Enumerates(visited, jobIds - touched)
        invariant forall k :: 0 <= k < |visited| ==> visited[k] < |swept.jobs|
        invariant State() == FinishAll(swept, visited)
        decreases touched
      {
        var j :| j in touched;
        assert j !in (set x | x in visited);
        FinishAllSnoc(swept, visited, j);
        FinishJobIfDrained(j);
        assert (set x | x in visited + [j]) == (set x | x in visited) + {j};
        assert jobIds - (touched - {j}) == (jobIds - touched) + {j};
        visited := visited + [j];
        touched := touched - {j};
      }
    }

    /** Recovers expired leases, then finishes the jobs it touched. */
    method SweepExpired(now: int, locked: set<nat>) returns (ghost visited: seq<nat>)
      modifies this`jobs, this`items, this`events, this`outbox
      ensures SweepMakes(old(State()), now, locked, visited, State())
      ensures SweptTo(old(State()), now, locked, items)
    {
      hide SweptTo;
      ghost var before := State();
      var touched := SweepRows(now, locked);
      visited := FinishTouched(touched);
      SweepColumns(before, now, locked, visited, State());
    }

    /** The claim's UPDATE ... RETURNING over distinct rows. */
    method ClaimRows(ids: seq<nat>, worker: string, now: int) returns (work: seq<ClaimedWork>)
      requires RowsInRange(State()) && NoDuplicates(ids)
      requires forall n :: 0 <= n < |ids| ==> ids[n] < |items| && items[ids[n]].source.Some?
      modifies this`items
      ensures State() == Claimed(old(State()), Members(ids), worker, now)
      ensures Handed(work, State(), ids)
    {
      hide Handed, Members, NoDuplicates, Claimed, RowsInRange;
      ghost var t := State();
      NothingClaimed(t, worker, now);
      work := [];
      assert ids[..0] == [];
      for n := 0 to |ids|
        invariant |items| == |t.items| && State() == Claimed(t, Members(ids[..n]), worker, now)
        invariant Handed(work, State(), ids[..n])
      {
        var i := ids[n];
        ClaimOneMore(t, ids, n, worker, now);
        RowInRange(t, i);
        ghost var before := State();
        var row := ClaimedRow(jobs, items[i], worker, now);
        items := items[i := row];
        var w := ClaimedWork(i, row.job, row.team, row.source.value, row.document, row.fence, jobs[row.job].credential);
        HandedOneMore(work, before, ids, n, row, w);
        work := work + [w];
      }
      assert ids[..|ids|] == ids;
    }

    /** The affinity query: one row for `claim`, up to `limit` for `claim_many`. */
    method ClaimKin(worker: string, limit: nat, affinity: Option<(string, nat)>, now: int, barred: Barred)
      returns (work: seq<ClaimedWork>, ghost ids: seq<nat>)
      requires RowsInRange(State())
      modifies this`items
      ensures RowsInRange(State()) && NoDuplicates(ids)
      ensures State() == Claimed(old(State()), Members(ids), worker, now)
      ensures AffinityPick(old(State()), barred, affinity, limit, Members(ids)) && |work| == |Members(ids)| <= limit
      ensures Handed(work, State(), ids)
    {
      if affinity.None? {
        work, ids := [], [];
        NothingClaimed(State(), worker, now);
        return;
      }
      var (source, credential) := affinity.value;
      var pick: seq<nat>;
      if limit == 1 {
        pick := PickOneKin(State(), barred, source, credential);
      } else {
        pick := PickKin(State(), barred, source, credential, limit);
      }
      PickedKin(State(), barred, source, credential, limit, pick);
      var rows := Distinct(pick);
      PickedRest(State(), barred, multiset(pick), rows);
      ids := rows;
      work := ClaimRows(rows, worker, now);
      EnumerationSize(ids, Members(ids));
      KinFits(old(State()), barred, affinity, limit, Members(ids));
    }

    /** The general query, when the affinity rows left something of the limit. */
    method ClaimRest(worker: string, sources: seq<string>, limit: nat, now: int, barred: Barred)
      returns (work: seq<ClaimedWork>, ghost ids: seq<nat>, ghost rest: multiset<nat>)
      requires RowsInRange(State())
      modifies this`items
      ensures NoDuplicates(ids) && Members(ids) == Support(rest)
      ensures State() == Claimed(old(State()), Support(rest), worker, now)
      ensures if limit > 0 then NestedPick(old(State()), barred, sources, limit, rest) else rest == multiset{}
      ensures Handed(work, State(), ids)
    {
      if limit == 0 {
        work, ids, rest := [], [], multiset{};
        assert Support(rest) == {};
        NothingClaimed(State(), worker, now);
        return;
      }
      var pick := PickAny(State(), barred, sources, limit);
      rest := multiset(pick);
      NestedClaimable(State(), barred, sources, limit, rest);
      var rows := Distinct(pick);
      PickedRest(State(), barred, rest, rows);
      ids := rows;
      work := ClaimRows(rows, worker, now);
    }

    /** Both queries of a claim, after its sweep. */
    method ClaimSwept(worker: string, sources: seq<string>, limit: nat, affinity: Option<(string, nat)>, now: int,
        barred: Barred, ghost visited: seq<nat>)
      returns (work: seq<ClaimedWork>, ghost ids: seq<nat>, ghost c: ClaimTx)
      requires RowsInRange(State())
      modifies this`items
      ensures c.swept == old(State()) && c.visited == visited && Asks(c, worker, sources, limit, affinity, now, barred)
      ensures KinPick(c) && RestPick(c) && State() == Claimed(Kindred(c), Support(c.rest), worker, now)
      ensures NoDuplicates(ids) && Members(ids) == Taken(c) && Handed(work, State(), ids)
    {
      hide NestedPick, AffinityPick, KinPick, RestPick, Handed, Support, NoDuplicates, Members, Claimed, RowsInRange;
      ghost var swept := State();
      var first, more;
      ghost var kin, others, rest;
      first, kin := ClaimKin(worker, limit, affinity, now, barred);
      more, others, rest := ClaimRest(worker, sources, limit - |first|, now, barred);
      c := ClaimTx(worker, sources, limit, affinity, now, barred, visited, swept, Members(kin), rest);
      ids, work := kin + others, first + more;
      AsRecorded(c);
      PicksApart(c);
      JoinQueries(c, kin, others, first, more, State());
    }

    /** The transaction of `claim` and `claim_many` once its arguments are valid. */
    method ClaimUpTo(worker: string, sources: seq<string>, limit: nat, affinity: Option<(string, nat)>, now: int,
        barred: Barred)
      returns (work: seq<ClaimedWork>, ghost ids: seq<nat>, ghost c: ClaimTx)
      requires RowsInRange(State())
      modifies this
      ensures RowsInRange(State()) && ClaimMakes(old(State()), c, State())
      ensures Asks(c, worker, sources, limit, affinity, now, barred)
      ensures NoDuplicates(ids) && Members(ids) == Taken(c) && Handed(work, State(), ids)
    {
      ghost var t := State();
      ghost var visited := SweepExpired(now, barred.locked);
      SweepInRange(t, now, barred.locked, visited, State());
      work, ids, c := ClaimSwept(worker, sources, limit, affinity, now, barred, visited);
    }

    /** Claims up to `limit` items, kindred ones first. With a limit of one this is `claim`. */
    method ClaimMany(worker: string, sources: seq<string>, limit: int, affinity: Option<(string, nat)>, now: int,
        barred: Barred)
      returns (r: Result<seq<ClaimedWork>, ClaimError>, ghost ids: seq<nat>, ghost c: ClaimTx)
      requires RowsInRange(State())
      modifies this
      ensures RowsInRange(State())
      ensures limit < 1 ==> r == Success([]) && State() == old(State())
      ensures limit >= 1 ==> (r.Failure? <==> sources == [] || exists s :: s in sources && s != "osiptel")
      ensures r.Failure? ==> State() == old(State())
      ensures r.Failure? ==> if sources == [] then r.error.WorkerSourceRequired?
                             else r.error.SourceNotEnabled? && forall s ::
                               s in r.error.invalid <==> s in sources && s != "osiptel"
      ensures limit >= 1 && r.Success? ==>
        && ClaimMakes(old(State()), c, State())
        && Asks(c, worker, sources, limit, affinity, now, barred)
        && NoDuplicates(ids) && Members(ids) == Taken(c) && Handed(r.value, State(), ids)
      ensures limit >= 1 && r.Success? ==>
        && |r.value| <= limit
        && HandedColumns(r.value, State(), worker, now)
        && HandedOldest(r.value, State(), c)
        && HandedFrom(r.value, State(), c)
        && SweptTo(old(State()), now, barred.locked, c.swept.items)
      ensures limit >= 1 && r.Success? ==>
        forall n, p :: 0 <= n < |r.value| && Bears(p, r.value[n], worker) ==> FenceHolds(State(), p)
    {
      hide ClaimMakes, Taken, Members, Handed, NoDuplicates, HandedColumns, HandedOldest, HandedFrom, SweptTo,
           FenceHolds,
           Bears, RowsInRange, SweepMakes;
      ids, c := [], ClaimTx(worker, sources, 0, affinity, now, barred, [], State(), {}, multiset{});
      if limit < 1 {
        return Success([]), ids, c;
      }
      if sources == [] {
        return Failure(WorkerSourceRequired), ids, c;
      }
      var invalid := (set s | s in sources) - STABLE_SITES;
      if invalid != {} {
        ghost var bad :| bad in invalid;
        return Failure(SourceNotEnabled(invalid)), ids, c;
      }
      assert forall s :: s in sources && s !in STABLE_SITES ==> s in invalid;
      var work;
      ghost var before := State();
      work, ids, c := ClaimUpTo(worker, sources, limit, affinity, now, barred);
      HandsOutWithinLimit(before, c, State(), work, ids);
      HandedLeased(before, c, State(), work, ids);
      HandedInOrder(before, c, State(), work, ids);
      HandedFromSwept(before, c, State(), work, ids);
      ClaimSweeps(before, c, State());
      FencesHold(State(), work, worker, now);
      r := Success(work);
    }

    /** Inserts a job with its items; pairs with a known answer arrive published. */
    method AdmitSubmission(s: Submission, reusable: Reusable) returns (id: nat, state: JobState)
      modifies this
      ensures State() == AdmitTx(old(State()), s, reusable)
      ensures id == |old(jobs)| && id < |jobs| && state == jobs[id].state
      ensures AdmittedColumns(old(State()), s, reusable, State())
    {
      hide AdmittedColumns;
      AdmitColumns(State(), s, reusable);
      var active := CountActive();
      id := |jobs|;
      var fetch := ToFetch(s.plan.items, reusable);
      var reuse := Reused(s.plan.items, reusable);
      state := if fetch == [] then JobState.Completed
               else if active < MAX_ACTIVE_JOBS then JobState.Running else JobState.Queued;
      var reason := if s.plan.items == [] then Some("all_records_excluded") else None;
      jobs := jobs + [Job(s.team, s.credential, s.provider, state, 0, reason)];
      InsertItems(id, s, reusable, fetch, reuse);
      if state.Completed? {
        RecordTerminalIntents(id, state);
      } else {
        RecordEvent(id, StateEvent(state));
      }
    }

    /** The three inserts of an admission. */
    method InsertItems(j: nat, s: Submission, reusable: Reusable, fetch: seq<PlannedItem>, reuse: seq<PlannedItem>)
      requires fetch == ToFetch(s.plan.items, reusable) && reuse == Reused(s.plan.items, reusable)
      modifies this`items
      ensures items == old(items) + NewItems(j, s, reusable)
    {
      hide ToFetch, Reused, PendingRows, ReusedRows, ExcludedRows;
      InsertPending(j, s.team, fetch);
      InsertReused(j, s.team, reuse, reusable);
      InsertExcluded(j, s.team, s.plan.exclusions);
    }

    method InsertPending(j: nat, team: nat, fetch: seq<PlannedItem>)
      modifies this`items
      ensures items == old(items) + PendingRows(j, team, fetch)
    {
      hide PendingRows;
      for k := 0 to |fetch|
        invariant items == old(items) + PendingRows(j, team, fetch)[..k]
      {
        items := items + [PendingRow(j, team, fetch[k])];
      }
    }

    method InsertReused(j: nat, team: nat, reuse: seq<PlannedItem>, reusable: Reusable)
      requires forall k :: 0 <= k < |reuse| ==> PairOf(reuse[k]) in reusable
      modifies this`items
      ensures items == old(items) + ReusedRows(j, team, reuse, reusable)
    {
      hide ReusedRows;
      for k := 0 to |reuse|
        invariant items == old(items) + ReusedRows(j, team, reuse, reusable)[..k]
      {
        items := items + [ReusedRow(j, team, reuse[k], reusable[PairOf(reuse[k])])];
      }
    }

    method InsertExcluded(j: nat, team: nat, exclusions: seq<ExcludedInput>)
      modifies this`items
      ensures items == old(items) + ExcludedRows(j, team, exclusions)
    {
      hide ExcludedRows;
      for k := 0 to |exclusions|
        invariant items == old(items) + ExcludedRows(j, team, exclusions)[..k]
      {
        items := items + [ExcludedRow(j, team, exclusions[k])];
      }
    }

    /** The cancel's UPDATE over the job's live items. */
    method CancelItems(j: nat)
      modifies this`items
      ensures items == CancelledItems(old(items), j)
    {
      ghost var before := items;
      for i := 0 to |items|
        invariant |items| == |before|
        invariant forall k :: 0 <= k < |items| ==>
          items[k] ==
            if k < i && before[k].job == j && Live(before[k]) then before[k].(state := ItemState.Cancelled)
            else before[k]
      {
        if items[i].job == j && Live(items[i]) {
          items := items[i := items[i].(state := ItemState.Cancelled)];
        }
      }
    }

    /** Cancels an unfinished job of the team; a finished one is returned as it is. */
    method CancelJob(j: nat, team: nat) returns (found: bool)
      modifies this
      ensures State() == CancelTx(old(State()), j, team)
      ensures found <==> j < |old(jobs)| && old(jobs)[j].team == team
      ensures !found || old(jobs)[j].state in {JobState.Completed, JobState.Failed, JobState.Cancelled} ==>
        State() == old(State())
      ensures found && old(jobs)[j].state !in {JobState.Completed, JobState.Failed, JobState.Cancelled} ==>
        && CancelledColumns(old(State()), j, State())
        && jobs[j].state == JobState.Cancelled
        && forall i :: 0 <= i < |items| && items[i].job == j ==> !items[i].state.Pending? && !items[i].state.Running?
    {
      hide EndJob, CancelledItems;
      found := j < |jobs| && jobs[j].team == team;
      if !found || !(jobs[j].state.Queued? || jobs[j].state.Running? || jobs[j].state.Cancelling?) {
        return;
      }
      CancelColumns(State(), j, team);
      if jobs[j].state.Running? {
        jobs := jobs[j := jobs[j].(state := JobState.Cancelling, fence := jobs[j].fence + 1)];
        RecordEvent(j, CancellationRequested);
      }
      CancelItems(j);
      EndWith(j, jobs[j].(state := JobState.Cancelled));
    }

    /** The entry upsert and the attempt ledger of a publish. */
    method Observe(p: Publication, now: int) returns (id: nat)
      requires p.item < |items|
      modifies this`entries, this`ledger
      ensures State() == Observed(old(State()), p, now) && id == UpsertedEntry(old(State()), p, now).id
    {
      var pair := (p.document, p.source);
      id := if pair in entries then entries[pair].id else |entries|;
      entries := entries[pair := Entry(id, p.status, p.content, p.errorCode, now, items[p.item].job)];
      for k := 0 to |p.attempts|
        invariant entries == old(entries)[pair := UpsertedEntry(old(State()), p, now)]
        invariant ledger == old(ledger) + LedgerRows(p)[..k]
      {
        ledger := ledger + [LedgerRow(p.item, p.source, p.provider, p.worker, p.lane, p.attempts[k])];
      }
      assert LedgerRows(p)[..|p.attempts|] == LedgerRows(p);
    }

    /** Records what was observed, then publishes the item if its fence still holds. */
    method PublishResult(p: Publication, now: int) returns (accepted: Result<bool, PublishError>)
      modifies this
      ensures accepted.Failure? <==> p.item >= |old(items)|
      ensures accepted.Failure? ==> State() == old(State())
      ensures accepted.Success? ==>
        State() == PublishTx(old(State()), p, now) && accepted.value == FenceHolds(old(State()), p)
      ensures accepted.Success? ==>
        ObservedColumns(old(State()), p, now, State()) && PublishedColumns(old(State()), p, State(), accepted.value)
    {
      // The entry's last_job_id may not be null, so an unknown item aborts the transaction.
      hide ObservedColumns, PublishedColumns;
      if p.item >= |items| {
        return Failure(UnknownItem);
      }
      PublishColumns(State(), p, now);
      var id := Observe(p, now);
      if !FenceHolds(State(), p) {
        return Success(false);
      }
      items := items[p.item := PublishedRow(items[p.item], id, p.resultObject)];
      FinishJobIfDrained(items[p.item].job);
      return Success(true);
    }
  }

  /** The claim recorded in `c` is the one that was asked for. */
  predicate Asks(c: ClaimTx, worker: string, sources: seq<string>, limit: int, affinity: Option<(string, nat)>,
      now: int, barred: Barred)
  {
    && c.worker == worker && c.sources == sources && c.limit == limit
    && c.affinity == affinity && c.now == now && c.barred == barred
  }

  /** What `KinPick` says of a claim's affinity rows. */
  ghost predicate AffinityPick(t: Tables, barred: Barred, affinity: Option<(string, nat)>, limit: nat, kin: set<nat>) {
    if affinity.Some? then
      IsTop(t.items, multiset(Kin(t, barred, affinity.value.0, affinity.value.1)), limit, multiset(kin))
    else kin == {}
  }

  lemma PickedKin(t: Tables, barred: Barred, source: string, credential: nat, k: nat, pick: seq<nat>)
    requires IsTop(t.items, multiset(Kin(t, barred, source, credential)), k, multiset(pick))
    ensures multiset(Support(multiset(pick))) == multiset(pick)
    ensures forall i :: i in Support(multiset(pick)) ==> Claimable(t, barred, i)
  {
    DistinctSupport(Kin(t, barred, source, credential), multiset(pick));
  }

  lemma PickedRest(t: Tables, barred: Barred, rest: multiset<nat>, rows: seq<nat>)
    requires forall i :: i in rest ==> Claimable(t, barred, i)
    requires Members(rows) == Support(rest)
    ensures forall n :: 0 <= n < |rows| ==> rows[n] < |t.items| && t.items[rows[n]].source.Some?
  {
    forall n | 0 <= n < |rows| ensures rows[n] < |t.items| && t.items[rows[n]].source.Some? {
      assert rows[n] in Members(rows);
      assert Claimable(t, barred, rows[n]);
    }
  }

  lemma SweepInRange(t: Tables, now: int, locked: set<nat>, visited: seq<nat>, r: Tables)
    requires RowsInRange(t) && SweepMakes(t, now, locked, visited, r)
    ensures RowsInRange(r)
  {
  }

  function Members(ids: seq<nat>): set<nat> {
    set i | i in ids
  }

  /** A claim hands out no more rows than it was asked for. */
  lemma HandsOutWithinLimit(t: Tables, c: ClaimTx, r: Tables, work: seq<ClaimedWork>, ids: seq<nat>)
    requires ClaimMakes(t, c, r) && NoDuplicates(ids) && Members(ids) == Taken(c) && Handed(work, r, ids)
    ensures |work| <= c.limit
  {
    EnumerationSize(ids, Members(ids));
    ClaimTakes(t, c, r);
  }

  /** The row a worker is handed for an item it holds. */
  function WorkOf(t: Tables, i: nat): ClaimedWork
    requires i < |t.items| && t.items[i].source.Some? && t.items[i].job < |t.jobs|
  {
    var item := t.items[i];
    ClaimedWork(i, item.job, item.team, item.source.value, item.document, item.fence, t.jobs[item.job].credential)
  }

  /** A row handed out is one the worker now holds, with its columns and its job's credential. */
  predicate HandedRow(w: ClaimedWork, t: Tables, worker: string, now: int) {
    && w.item < |t.items| && w.job < |t.jobs|
    && var row := t.items[w.item];
    && w.job == row.job && w.team == row.team && row.source == Some(w.source) && w.document == row.document
    && w.fence == row.fence && w.fence == t.jobs[w.job].fence && w.credential == t.jobs[w.job].credential
    && row.state == ItemState.Running && t.jobs[w.job].state == JobState.Running
    && row.owner == Some(worker) && row.expires == Some(now + 300)
  }

  ghost predicate HandedColumns(work: seq<ClaimedWork>, t: Tables, worker: string, now: int) {
    && (forall n, m :: 0 <= n < m < |work| ==> work[n].item != work[m].item)
    && (forall n :: 0 <= n < |work| ==> HandedRow(work[n], t, worker, now))
  }

  /** The row handed out is not behind row `y` in the queue: it is of an older job, or of the same and no later. */
  predicate HandedBefore(w: ClaimedWork, t: Tables, y: nat) {
    && w.item < |t.items| && y < |t.items|
    && (w.job < t.items[y].job || (w.job == t.items[y].job && t.items[w.item].ordinal <= t.items[y].ordinal))
  }

  /** A free row of the affinity's source and credential. */
  predicate FreeKin(t: Tables, c: ClaimTx, y: nat) {
    && c.affinity.Some? && Free(t, c.barred, [c.affinity.value.0], y)
    && t.jobs[t.items[y].job].credential == c.affinity.value.1
  }

  /**
   Nothing still free belongs before a row handed out: no kindred row before an affinity row, and
   none at all before the others. Below the limit nothing is left, unless a source is listed twice.
   */
  ghost predicate HandedOldest(work: seq<ClaimedWork>, t: Tables, c: ClaimTx) {
    && (c.affinity.None? ==> c.kin == {})
    && (forall n :: 0 <= n < |work| ==> HandedFront(work[n], t, c))
    && (|c.kin| < c.limit ==> forall y :: !FreeKin(t, c, y))
    && (|work| < c.limit && NoDuplicates(c.sources) ==> forall y :: !Free(t, c.barred, c.sources, y))
  }

  ghost predicate HandedFront(w: ClaimedWork, t: Tables, c: ClaimTx) {
    if w.item in c.kin then
      c.affinity == Some((w.source, w.credential)) && forall y :: FreeKin(t, c, y) ==> HandedBefore(w, t, y)
    else w.source in c.sources && forall y :: Free(t, c.barred, c.sources, y) ==> HandedBefore(w, t, y)
  }

  /** Every row is as the claim's sweep left it, but for the leases of those handed out. */
  ghost predicate HandedFrom(work: seq<ClaimedWork>, t: Tables, c: ClaimTx) {
    && |t.items| == |c.swept.items| && t == c.swept.(items := t.items)
    && (forall n :: 0 <= n < |work| ==> LeasedFrom(work[n].item, t, c))
    && (forall i :: 0 <= i < |t.items| && (forall n :: 0 <= n < |work| ==> work[n].item != i) ==>
          t.items[i] == c.swept.items[i])
  }

  predicate LeasedFrom(i: nat, t: Tables, c: ClaimTx) {
    && i < |t.items| && i < |c.swept.items| && c.swept.items[i].state == ItemState.Pending
    && LeasedColumns(c.swept.items[i], t.items[i], t.jobs, c.worker, c.now)
  }

  lemma HandedAt(r: Tables, work: seq<ClaimedWork>, ids: seq<nat>, n: nat)
    requires Handed(work, r, ids) && n < |ids|
    ensures |work| == |ids| && HandedOne(work[n], r, ids[n]) && work[n].item == ids[n] && ids[n] in Members(ids)
  {
  }

  lemma HandedIds(r: Tables, work: seq<ClaimedWork>, ids: seq<nat>)
    requires Handed(work, r, ids)
    ensures forall i :: i in Members(ids) ==> exists n :: 0 <= n < |work| && work[n].item == i
  {
    forall n | 0 <= n < |ids| ensures work[n].item == ids[n] {
      HandedAt(r, work, ids, n);
    }
  }

  lemma LeasedIsHanded(w: ClaimedWork, was: Item, r: Tables, i: nat, worker: string, now: int)
    requires HandedOne(w, r, i) && LeasedColumns(was, r.items[i], r.jobs, worker, now)
    ensures HandedRow(w, r, worker, now)
  {
  }

  /** A taken row, before and after. */
  lemma TakenRow(t: Tables, c: ClaimTx, r: Tables, x: nat)
    requires ClaimMakes(t, c, r) && x in Taken(c)
    ensures LeasedFrom(x, r, c) && |r.items| == |c.swept.items| && r == c.swept.(items := r.items)
  {
    hide ClaimMakes, LeasedColumns, Taken;
    ClaimTakesFree(t, c, r, x);
    ClaimedColumns(t, c, r, x);
  }

  lemma HandedLeased(t: Tables, c: ClaimTx, r: Tables, work: seq<ClaimedWork>, ids: seq<nat>)
    requires ClaimMakes(t, c, r) && NoDuplicates(ids) && Members(ids) == Taken(c) && Handed(work, r, ids)
    ensures HandedColumns(work, r, c.worker, c.now)
    ensures forall n :: 0 <= n < |work| ==> LeasedFrom(work[n].item, r, c)
  {
    hide ClaimMakes, Taken, Members, LeasedColumns, HandedRow, HandedOne;
    forall n | 0 <= n < |work|
      ensures HandedRow(work[n], r, c.worker, c.now) && work[n].item == ids[n] && LeasedFrom(work[n].item, r, c)
    {
      HandedAt(r, work, ids, n);
      TakenRow(t, c, r, ids[n]);
      LeasedIsHanded(work[n], c.swept.items[ids[n]], r, ids[n], c.worker, c.now);
    }
  }

  lemma HandedFromSwept(t: Tables, c: ClaimTx, r: Tables, work: seq<ClaimedWork>, ids: seq<nat>)
    requires ClaimMakes(t, c, r) && NoDuplicates(ids) && Members(ids) == Taken(c) && Handed(work, r, ids)
    ensures HandedFrom(work, r, c)
  {
    hide ClaimMakes, Taken, LeasedFrom, LeasedColumns;
    HandedLeased(t, c, r, work, ids);
    ClaimedSize(t, c, r);
    forall i | 0 <= i < |r.items| && (forall n :: 0 <= n < |work| ==> work[n].item != i)
      ensures r.items[i] == c.swept.items[i]
    {
      HandedIds(r, work, ids);
      ClaimedColumns(t, c, r, i);
    }
  }

  lemma ClaimedSize(t: Tables, c: ClaimTx, r: Tables)
    requires ClaimMakes(t, c, r)
    ensures |r.items| == |c.swept.items| && r == c.swept.(items := r.items)
  {
    ClaimTakes(t, c, r);
  }

  /** What a claim leaves free was free before it, and is as it was. */
  lemma StillFree(t: Tables, c: ClaimTx, r: Tables, sources: seq<string>, y: nat)
    requires ClaimMakes(t, c, r) && Free(r, c.barred, sources, y)
    ensures y !in Taken(c) && Free(c.swept, c.barred, sources, y)
    ensures y < |r.items| && y < |c.swept.items| && r.items[y] == c.swept.items[y] && r.jobs == c.swept.jobs
  {
    hide ClaimMakes, Taken;
    ClaimedSize(t, c, r);
    ClaimedColumns(t, c, r, y);
  }

  lemma HandedAhead(t: Tables, c: ClaimTx, r: Tables, w: ClaimedWork, y: nat)
    requires ClaimMakes(t, c, r) && w.item in Taken(c) && HandedOne(w, r, w.item)
    requires if w.item in c.kin then FreeKin(r, c, y) else Free(r, c.barred, c.sources, y)
    ensures HandedBefore(w, r, y)
  {
    hide ClaimMakes, Free;
    TakenRow(t, c, r, w.item);
    if w.item in c.kin {
      StillFree(t, c, r, [c.affinity.value.0], y);
      KinTakesOldest(t, c, r, w.item, y);
    } else {
      StillFree(t, c, r, c.sources, y);
      ClaimTakesOldest(t, c, r, w.item, y);
    }
  }

  lemma HandedIsFront(t: Tables, c: ClaimTx, r: Tables, w: ClaimedWork)
    requires ClaimMakes(t, c, r) && w.item in Taken(c) && HandedOne(w, r, w.item)
    ensures HandedFront(w, r, c)
  {
    hide ClaimMakes, Taken, HandedBefore;
    TakenRow(t, c, r, w.item);
    ClaimTakesFree(t, c, r, w.item);
    if w.item in c.kin {
      forall y | FreeKin(r, c, y) ensures HandedBefore(w, r, y) {
        HandedAhead(t, c, r, w, y);
      }
    } else {
      forall y | Free(r, c.barred, c.sources, y) ensures HandedBefore(w, r, y) {
        HandedAhead(t, c, r, w, y);
      }
    }
  }

  lemma NothingLeft(t: Tables, c: ClaimTx, r: Tables)
    requires ClaimMakes(t, c, r)
    ensures c.affinity.None? ==> c.kin == {}
    ensures |c.kin| < c.limit ==> forall y :: !FreeKin(r, c, y)
    ensures |Taken(c)| < c.limit && NoDuplicates(c.sources) ==> forall y :: !Free(r, c.barred, c.sources, y)
  {
    hide SweepMakes, RestPick, IsTop, NestedPick, Free, Claimed;
    if |c.kin| < c.limit {
      forall y | FreeKin(r, c, y) ensures false {
        StillFree(t, c, r, [c.affinity.value.0], y);
        KinLeavesNothing(t, c, r, y);
      }
    }
    if |Taken(c)| < c.limit && NoDuplicates(c.sources) {
      forall y | Free(r, c.barred, c.sources, y) ensures false {
        StillFree(t, c, r, c.sources, y);
        ClaimLeavesNothing(t, c, r, y);
      }
    }
  }

  lemma HandedInOrder(t: Tables, c: ClaimTx, r: Tables, work: seq<ClaimedWork>, ids: seq<nat>)
    requires ClaimMakes(t, c, r) && NoDuplicates(ids) && Members(ids) == Taken(c) && Handed(work, r, ids)
    ensures HandedOldest(work, r, c)
  {
    hide ClaimMakes, Taken, NoDuplicates, Members, FreeKin, Free, HandedFront, Handed;
    NothingLeft(t, c, r);
    HandedCount(r, work, ids);
    forall n | 0 <= n < |work| ensures HandedFront(work[n], r, c) {
      HandedAt(r, work, ids, n);
      HandedIsFront(t, c, r, work[n]);
    }
  }

  lemma ClaimSweeps(t: Tables, c: ClaimTx, r: Tables)
    requires ClaimMakes(t, c, r)
    ensures SweptTo(t, c.now, c.barred.locked, c.swept.items)
  {
    SweepColumns(t, c.now, c.barred.locked, c.visited, c.swept);
  }

  lemma HandedCount(r: Tables, work: seq<ClaimedWork>, ids: seq<nat>)
    requires NoDuplicates(ids) && Handed(work, r, ids)
    ensures |work| == |ids| == |Members(ids)|
  {
    EnumerationSize(ids, Members(ids));
  }

  /** The publication is the worker's, of the item it was handed and under the fence it was handed. */
  predicate Bears(p: Publication, w: ClaimedWork, worker: string) {
    p.item == w.item && p.worker == worker && p.fence == w.fence
  }

  /** Whoever publishes what it was handed, under the fence it was handed, is let through. */
  lemma FencesHold(t: Tables, work: seq<ClaimedWork>, worker: string, now: int)
    requires HandedColumns(work, t, worker, now)
    ensures forall n, p :: 0 <= n < |work| && Bears(p, work[n], worker) ==> FenceHolds(t, p)
  {
    forall n, p | 0 <= n < |work| && Bears(p, work[n], worker) ensures FenceHolds(t, p) {
      assert HandedRow(work[n], t, worker, now);
    }
  }

  /** One handed-out row for each id, as stored. */
  predicate Handed(work: seq<ClaimedWork>, t: Tables, ids: seq<nat>) {
    |work| == |ids| && forall n :: 0 <= n < |ids| ==> HandedOne(work[n], t, ids[n])
  }

  predicate HandedOne(w: ClaimedWork, t: Tables, i: nat) {
    i < |t.items| && t.items[i].source.Some? && t.items[i].job < |t.jobs| && w == WorkOf(t, i)
  }

  lemma HandedKept(work: seq<ClaimedWork>, t: Tables, kin: seq<nat>, r: Tables, others: seq<nat>, worker: string,
      now: int)
    requires RowsInRange(t) && r == Claimed(t, Members(others), worker, now)
    requires Members(kin) !! Members(others) && Handed(work, t, kin)
    ensures Handed(work, r, kin)
  {
    forall n | 0 <= n < |kin| ensures HandedOne(work[n], r, kin[n]) {
      assert HandedOne(work[n], t, kin[n]);
      assert kin[n] in Members(kin);
    }
  }

  lemma HandedJoin(first: seq<ClaimedWork>, more: seq<ClaimedWork>, r: Tables, kin: seq<nat>, others: seq<nat>)
    requires Handed(first, r, kin) && Handed(more, r, others)
    ensures Handed(first + more, r, kin + others)
  {
    forall n | 0 <= n < |kin + others| ensures HandedOne((first + more)[n], r, (kin + others)[n]) {
      if n < |kin| {
        assert HandedOne(first[n], r, kin[n]);
      } else {
        assert HandedOne(more[n - |kin|], r, others[n - |kin|]);
      }
    }
  }

  /** The two queries of one claim never return the same row. */
  lemma PicksApart(c: ClaimTx)
    requires KinPick(c) && RestPick(c)
    ensures c.kin !! Support(c.rest)
  {
    KinTaken(c);
    RestTaken(c);
  }

  /** The answers of the two queries, put together. */
  lemma JoinQueries(c: ClaimTx, kin: seq<nat>, others: seq<nat>, first: seq<ClaimedWork>, more: seq<ClaimedWork>,
      r: Tables)
    requires RowsInRange(c.swept) && r == Claimed(Kindred(c), Support(c.rest), c.worker, c.now)
    requires c.kin !! Support(c.rest)
    requires NoDuplicates(kin) && NoDuplicates(others) && Members(kin) == c.kin && Members(others) == Support(c.rest)
    requires Handed(first, Kindred(c), kin) && Handed(more, r, others)
    ensures NoDuplicates(kin + others) && Members(kin + others) == Taken(c) && Handed(first + more, r, kin + others)
  {
    JoinApart(kin, others);
    HandedKept(first, Kindred(c), kin, r, others, c.worker, c.now);
    HandedJoin(first, more, r, kin, others);
  }

  lemma KinFits(t: Tables, barred: Barred, affinity: Option<(string, nat)>, limit: nat, kin: set<nat>)
    requires AffinityPick(t, barred, affinity, limit, kin)
    ensures |kin| <= limit
  {
    if affinity.Some? {
      KinClaimable(t, barred, affinity.value.0, affinity.value.1, limit, kin);
    }
  }

  lemma JoinApart(a: seq<nat>, b: seq<nat>)
    requires NoDuplicates(a) && NoDuplicates(b) && Members(a) !! Members(b)
    ensures NoDuplicates(a + b) && Members(a + b) == Members(a) + Members(b)
  {
    assert forall n, m :: 0 <= n < |a| && 0 <= m < |b| ==> a[n] in Members(a) && b[m] in Members(b);
  }

  /** An UPDATE joined to the same candidate twice still touches and returns the row once. */
  method Distinct(picked: seq<nat>) returns (ids: seq<nat>)
    ensures NoDuplicates(ids) && Members(ids) == Support(multiset(picked))
  {
    ids := [];
    for n := 0 to |picked|
      invariant NoDuplicates(ids) && forall i :: i in ids <==> i in picked[..n]
    {
      if picked[n] !in ids {
        ids := ids + [picked[n]];
      }
    }
    assert picked[..|picked|] == picked;
    assert forall i :: i in picked <==> i in multiset(picked);
  }
}
