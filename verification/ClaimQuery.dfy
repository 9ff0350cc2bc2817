/**
 Which rows the claim queries pick.

 The queries order rows by (queue_sequence, ordinal) and cut at a limit, first
 for each wanted source of a job, then for each job, then overall. PostgreSQL may
 break ties between sources at one ordinal either way, so a pick is a relation:
 `IsTop` holds of every pick some tie-break allows. Rows are bags because a
 source listed twice makes the join produce its rows twice.
 */
module ClaimQuery {
  import opened Basics
  import opened JobTables

  function Min(a: nat, b: nat): nat { if a < b then a else b }

  /** What `ORDER BY queue_sequence, ordinal` compares. */
  function Rank(items: seq<Item>, i: nat): (nat, nat) {
    if i < |items| then (items[i].job, items[i].ordinal) else (0, 0)
  }

  predicate NotAfter(items: seq<Item>, x: nat, y: nat) {
    var (jx, ox) := Rank(items, x);
    var (jy, oy) := Rank(items, y);
    jx < jy || (jx == jy && ox <= oy)
  }

  /** `top` is a legal answer to `ORDER BY rank LIMIT k` over `pool`. */
  ghost predicate IsTop(items: seq<Item>, pool: multiset<nat>, k: nat, top: multiset<nat>) {
    && top <= pool
    && |top| == Min(k, |pool|)
    && forall x, y :: x in top && y in pool - top ==> NotAfter(items, x, y)
  }

  // ------------------------------------------------------- what a pick means

  predicate Sorted(items: seq<Item>, order: seq<nat>) {
    forall a, b :: 0 <= a < b < |order| ==> NotAfter(items, order[a], order[b])
  }

  /** Sorting the pool and cutting at k is a legal answer. */
  lemma SortedPrefixIsTop(items: seq<Item>, order: seq<nat>, k: nat)
    requires Sorted(items, order)
    ensures IsTop(items, multiset(order), k, multiset(order[..Min(k, |order|)]))
  {
    var m := Min(k, |order|);
    assert order == order[..m] + order[m..];
    assert multiset(order) - multiset(order[..m]) == multiset(order[m..]);
  }

  /** Two legal answers differ only between rows that tie. */
  lemma TopsDifferByTies(items: seq<Item>, pool: multiset<nat>, k: nat, a: multiset<nat>, b: multiset<nat>)
    requires IsTop(items, pool, k, a) && IsTop(items, pool, k, b)
    ensures forall x, y :: x in a - b && y in b - a ==> Rank(items, x) == Rank(items, y)
  {
    forall x, y | x in a - b && y in b - a ensures Rank(items, x) == Rank(items, y) {
      assert x in pool - b && y in pool - a;
      assert NotAfter(items, x, y) && NotAfter(items, y, x);
    }
  }

  // --------------------------------------------------------- nested limits

  /** Cutting one part of the pool first does not change the legal answers. */
  lemma TopAbsorbs(items: seq<Item>, part: multiset<nat>, cut: multiset<nat>, rest: multiset<nat>, k: nat,
      top: multiset<nat>)
    requires IsTop(items, part, k, cut) && IsTop(items, cut + rest, k, top)
    ensures IsTop(items, part + rest, k, top)
  {
    assert |cut + rest| == |cut| + |rest| && |part + rest| == |part| + |rest|;
    forall x, y | x in top && y in part + rest - top ensures NotAfter(items, x, y) {
      if y !in cut + rest - top {
        assert part[y] + rest[y] > top[y] >= cut[y] + rest[y];
        assert y in part - cut;
        CutIsFull(items, part, k, cut, y);
        if z :| z in cut && top[z] < cut[z] {
          assert z in cut + rest - top && NotAfter(items, x, z) && NotAfter(items, z, y);
        } else if x !in cut {
          Overfull(cut, top, x);
          assert false;
        }
      }
    }
  }

  lemma Overfull(cut: multiset<nat>, top: multiset<nat>, x: nat)
    requires x in top && x !in cut && (forall z :: z in cut ==> cut[z] <= top[z])
    ensures |cut| < |top|
  {
    assert cut <= top;
    assert top == cut + (top - cut);
    assert x in top - cut;
  }

  lemma CutIsFull(items: seq<Item>, part: multiset<nat>, k: nat, cut: multiset<nat>, y: nat)
    requires IsTop(items, part, k, cut) && y in part - cut
    ensures |cut| == k
  {
    assert part == cut + (part - cut);
    assert |part| == |cut| + |part - cut|;
  }

  function Sum(parts: seq<multiset<nat>>): multiset<nat> {
    if parts == [] then multiset{} else parts[0] + Sum(parts[1..])
  }

  /** Cutting every part first does not change the legal answers either. */
  lemma {:induction false} NestedTopsAbsorb(
    items: seq<Item>, parts: seq<multiset<nat>>, cuts: seq<multiset<nat>>, k: nat, done: multiset<nat>,
    top: multiset<nat>)
    requires |parts| == |cuts|
    requires forall n :: 0 <= n < |parts| ==> IsTop(items, parts[n], k, cuts[n])
    requires IsTop(items, done + Sum(cuts), k, top)
    ensures IsTop(items, done + Sum(parts), k, top)
  {
    if parts != [] {
      var more := done + Sum(cuts[1..]);
      assert done + Sum(cuts) == cuts[0] + more;
      TopAbsorbs(items, parts[0], cuts[0], more, k, top);
      assert parts[0] + more == done + parts[0] + Sum(cuts[1..]);
      NestedTopsAbsorb(items, parts[1..], cuts[1..], k, done + parts[0], top);
      assert done + Sum(parts) == done + parts[0] + Sum(parts[1..]);
    }
  }

  // ------------------------------------------------------------- the queries

  /** What a claim cannot take: rows other transactions hold, and (source, provider) pairs with an open breaker. */
  datatype Barred = Barred(locked: set<nat>, open: set<(string, string)>)

  predicate Claimable(t: Tables, b: Barred, i: nat) {
    && i < |t.items|
    && t.items[i].state.Pending?
    && t.items[i].source.Some?
    && i !in b.locked
    && t.items[i].job < |t.jobs|
    && t.jobs[t.items[i].job].state.Running?
    && (t.items[i].source.value, t.jobs[t.items[i].job].provider) !in b.open
  }

  function Wanted(t: Tables, b: Barred, j: nat, source: string): set<nat> {
    set i | 0 <= i < |t.items| && Claimable(t, b, i) && t.items[i].job == j && t.items[i].source.value == source
  }

  /** Every row the query may return, each once. */
  function Eligible(t: Tables, b: Barred, sources: seq<string>): set<nat> {
    set i | 0 <= i < |t.items| && Claimable(t, b, i) && t.items[i].source.value in sources
  }

  function Kin(t: Tables, b: Barred, source: string, credential: nat): set<nat> {
    set i | 0 <= i < |t.items| && Claimable(t, b, i) && t.items[i].source.value == source
              && t.jobs[t.items[i].job].credential == credential
  }

  function SourceParts(t: Tables, b: Barred, j: nat, sources: seq<string>): seq<multiset<nat>> {
    seq(|sources|, w requires 0 <= w < |sources| => multiset(Wanted(t, b, j, sources[w])))
  }

  /** The inner two limits: top k of each wanted source, then top k of those. */
  ghost predicate JobPick(t: Tables, b: Barred, sources: seq<string>, k: nat, j: nat, pick: multiset<nat>) {
    exists cuts: seq<multiset<nat>> ::
      && |cuts| == |sources|
      && (forall w :: 0 <= w < |cuts| ==> IsTop(t.items, SourceParts(t, b, j, sources)[w], k, cuts[w]))
      && IsTop(t.items, Sum(cuts), k, pick)
  }

  /** The whole query: the outer limit over the picks of all jobs. */
  ghost predicate NestedPick(t: Tables, b: Barred, sources: seq<string>, k: nat, pick: multiset<nat>) {
    exists picks: seq<multiset<nat>> ::
      && |picks| == |t.jobs|
      && (forall j :: 0 <= j < |picks| ==> JobPick(t, b, sources, k, j, picks[j]))
      && IsTop(t.items, Sum(picks), k, pick)
  }

  function JobBags(t: Tables, b: Barred, sources: seq<string>): seq<multiset<nat>> {
    seq(|t.jobs|, j requires 0 <= j < |t.jobs| => Sum(SourceParts(t, b, j, sources)))
  }

  // ------------------------------------------- the nested form and the flat one

  lemma NoneBefore(bag: multiset<nat>)
    ensures multiset{} + bag == bag
  {
  }

  /** Cutting every part first, with nothing beside the parts. */
  lemma PartsAbsorb(items: seq<Item>, parts: seq<multiset<nat>>, cuts: seq<multiset<nat>>, k: nat, top: multiset<nat>)
    requires |parts| == |cuts|
    requires forall n :: 0 <= n < |parts| ==> IsTop(items, parts[n], k, cuts[n])
    requires IsTop(items, Sum(cuts), k, top)
    ensures IsTop(items, Sum(parts), k, top)
  {
    hide IsTop, Sum;
    NoneBefore(Sum(cuts));
    NoneBefore(Sum(parts));
    NestedTopsAbsorb(items, parts, cuts, k, multiset{}, top);
  }

  lemma JobPickIsBagTop(t: Tables, b: Barred, sources: seq<string>, k: nat, j: nat, pick: multiset<nat>)
    requires JobPick(t, b, sources, k, j, pick)
    ensures IsTop(t.items, Sum(SourceParts(t, b, j, sources)), k, pick)
  {
    hide IsTop, Sum;
    var parts := SourceParts(t, b, j, sources);
    var cuts: seq<multiset<nat>> :|
      |cuts| == |sources| && (forall w :: 0 <= w < |cuts| ==> IsTop(t.items, parts[w], k, cuts[w])) &&
      IsTop(t.items, Sum(cuts), k, pick);
    PartsAbsorb(t.items, parts, cuts, k, pick);
  }

  lemma NestedIsBagTop(t: Tables, b: Barred, sources: seq<string>, k: nat, pick: multiset<nat>)
    requires NestedPick(t, b, sources, k, pick)
    ensures IsTop(t.items, Sum(JobBags(t, b, sources)), k, pick)
  {
    hide IsTop, Sum, JobPick, SourceParts;
    var picks: seq<multiset<nat>> :|
      |picks| == |t.jobs| && (forall j :: 0 <= j < |picks| ==> JobPick(t, b, sources, k, j, picks[j])) &&
      IsTop(t.items, Sum(picks), k, pick);
    forall j | 0 <= j < |picks| ensures IsTop(t.items, JobBags(t, b, sources)[j], k, picks[j]) {
      JobPickIsBagTop(t, b, sources, k, j, picks[j]);
    }
    PartsAbsorb(t.items, JobBags(t, b, sources), picks, k, pick);
  }

  lemma {:induction false} SumOfOne(parts: seq<multiset<nat>>, i: nat, n: nat)
    requires forall m :: 0 <= m < |parts| && m != n ==> parts[m][i] == 0
    ensures Sum(parts)[i] == if n < |parts| then parts[n][i] else 0
  {
    if parts != [] {
      if n == 0 {
        SumOfOne(parts[1..], i, |parts|);
      } else {
        SumOfOne(parts[1..], i, n - 1);
      }
    }
  }

  lemma WantedAt(t: Tables, b: Barred, j: nat, source: string, i: nat)
    ensures multiset(Wanted(t, b, j, source))[i] ==
      if Claimable(t, b, i) && t.items[i].job == j && t.items[i].source.value == source then 1 else 0
  {
  }

  lemma CountFirst(sources: seq<string>, w: string)
    requires sources != []
    ensures multiset(sources)[w] == multiset(sources[1..])[w] + if sources[0] == w then 1 else 0
  {
    assert sources == [sources[0]] + sources[1..];
  }

  lemma PartsOf(t: Tables, b: Barred, j: nat, sources: seq<string>)
    requires sources != []
    ensures Sum(SourceParts(t, b, j, sources)) ==
            multiset(Wanted(t, b, j, sources[0])) + Sum(SourceParts(t, b, j, sources[1..]))
  {
    hide Wanted;
    assert SourceParts(t, b, j, sources)[1..] == SourceParts(t, b, j, sources[1..]);
  }

  lemma NoParts(t: Tables, b: Barred, j: nat)
    ensures Sum(SourceParts(t, b, j, [])) == multiset{}
  {
  }

  /** A wanted row appears once for each time its source is listed. */
  lemma {:induction false} SourceBagAt(t: Tables, b: Barred, j: nat, sources: seq<string>, i: nat)
    ensures Sum(SourceParts(t, b, j, sources))[i] ==
      if Claimable(t, b, i) && t.items[i].job == j then multiset(sources)[t.items[i].source.value] else 0
  {
    hide Wanted, SourceParts;
    if sources != [] {
      SourceBagAt(t, b, j, sources[1..], i);
      PartsOf(t, b, j, sources);
      WantedAt(t, b, j, sources[0], i);
      if Claimable(t, b, i) {
        CountFirst(sources, t.items[i].source.value);
      }
    } else {
      NoParts(t, b, j);
    }
  }

  lemma BagAt(t: Tables, b: Barred, sources: seq<string>, i: nat)
    ensures Sum(JobBags(t, b, sources))[i] ==
      if Claimable(t, b, i) then multiset(sources)[t.items[i].source.value] else 0
  {
    var bags := JobBags(t, b, sources);
    forall j | 0 <= j < |bags| ensures bags[j][i] ==
      if Claimable(t, b, i) && t.items[i].job == j then multiset(sources)[t.items[i].source.value] else 0
    {
      SourceBagAt(t, b, j, sources, i);
    }
    SumOfOne(bags, i, if i < |t.items| then t.items[i].job else 0);
  }

  lemma {:induction false} OccursOnce(sources: seq<string>, w: string)
    requires NoDuplicates(sources)
    ensures multiset(sources)[w] == if w in sources then 1 else 0
  {
    if sources != [] {
      assert sources == [sources[0]] + sources[1..];
      OccursOnce(sources[1..], w);
    }
  }

  /** Without repeated sources the nested query is the flat one. */
  lemma NestedIsFlat(t: Tables, b: Barred, sources: seq<string>, k: nat, pick: multiset<nat>)
    requires NoDuplicates(sources) && NestedPick(t, b, sources, k, pick)
    ensures IsTop(t.items, multiset(Eligible(t, b, sources)), k, pick)
  {
    NestedIsBagTop(t, b, sources, k, pick);
    var bag := Sum(JobBags(t, b, sources));
    var flat := multiset(Eligible(t, b, sources));
    forall i: nat ensures bag[i] == flat[i] {
      BagAt(t, b, sources, i);
      if Claimable(t, b, i) {
        OccursOnce(sources, t.items[i].source.value);
      }
    }
    assert bag == flat;
  }

  /** The first row of a bag is the first row of the set of its rows. */
  lemma FirstOfBag(items: seq<Item>, bag: multiset<nat>, flat: set<nat>, k: nat, pick: multiset<nat>)
    requires k <= 1 && IsTop(items, bag, k, pick) && forall i :: i in bag <==> i in flat
    ensures IsTop(items, multiset(flat), k, pick)
  {
    hide NotAfter;
    SameEmptiness(bag, flat);
    if pick != multiset{} {
      var x := OneRow(pick);
      forall y | y in multiset(flat) - pick ensures NotAfter(items, x, y) {
        assert y in bag - pick;
      }
    }
  }

  lemma SameEmptiness(bag: multiset<nat>, flat: set<nat>)
    requires forall i :: i in bag <==> i in flat
    ensures |bag| == 0 <==> |flat| == 0
  {
    if |flat| > 0 {
      var i :| i in flat;
      assert i in bag;
    } else {
      assert bag == multiset{};
    }
  }

  lemma OneRow(pick: multiset<nat>) returns (x: nat)
    requires |pick| == 1
    ensures pick == multiset{x}
  {
    x :| x in pick;
    assert pick == multiset{x} + (pick - multiset{x});
  }

  /** With a limit of one, repeated sources change nothing. */
  lemma SinglePickIsFlat(t: Tables, b: Barred, sources: seq<string>, k: nat, pick: multiset<nat>)
    requires k <= 1 && NestedPick(t, b, sources, k, pick)
    ensures IsTop(t.items, multiset(Eligible(t, b, sources)), k, pick)
  {
    hide NestedPick, IsTop, Sum, JobBags;
    NestedIsBagTop(t, b, sources, k, pick);
    var bag := Sum(JobBags(t, b, sources));
    forall i: nat ensures i in bag <==> i in Eligible(t, b, sources) {
      BagAt(t, b, sources, i);
    }
    FirstOfBag(t.items, bag, Eligible(t, b, sources), k, pick);
  }

  // -------------------------------------------------- a query always has an answer

  lemma {:induction false} FirstOfPool(items: seq<Item>, pool: multiset<nat>) returns (m: nat)
    requires |pool| > 0
    ensures m in pool && forall y :: y in pool ==> NotAfter(items, m, y)
    decreases |pool|
  {
    var x :| x in pool;
    var rest := pool - multiset{x};
    m := x;
    if |rest| > 0 {
      var n := FirstOfPool(items, rest);
      m := if NotAfter(items, x, n) then x else n;
    }
    forall y | y in pool ensures NotAfter(items, m, y) {
      assert y == x || y in rest;
    }
  }

  lemma {:induction false} TopExists(items: seq<Item>, pool: multiset<nat>, k: nat) returns (top: multiset<nat>)
    ensures IsTop(items, pool, k, top)
    decreases k
  {
    if k == 0 || |pool| == 0 {
      top := multiset{};
    } else {
      var m := FirstOfPool(items, pool);
      var rest := pool - multiset{m};
      var more := TopExists(items, rest, k - 1);
      top := more + multiset{m};
      assert pool - top == rest - more;
    }
  }

  lemma {:induction false} CutsExist(items: seq<Item>, parts: seq<multiset<nat>>, k: nat)
    returns (cuts: seq<multiset<nat>>)
    ensures |cuts| == |parts| && forall n :: 0 <= n < |cuts| ==> IsTop(items, parts[n], k, cuts[n])
  {
    if parts == [] {
      cuts := [];
    } else {
      var c := TopExists(items, parts[0], k);
      var rest := CutsExist(items, parts[1..], k);
      cuts := [c] + rest;
      assert forall n :: 0 <= n < |parts| - 1 ==> cuts[n + 1] == rest[n] && parts[n + 1] == parts[1..][n];
    }
  }

  lemma JobPickExists(t: Tables, b: Barred, sources: seq<string>, k: nat, j: nat) returns (pick: multiset<nat>)
    ensures JobPick(t, b, sources, k, j, pick)
  {
    var cuts := CutsExist(t.items, SourceParts(t, b, j, sources), k);
    pick := TopExists(t.items, Sum(cuts), k);
  }

  lemma {:induction false} JobPicksExist(t: Tables, b: Barred, sources: seq<string>, k: nat, n: nat)
    returns (picks: seq<multiset<nat>>)
    ensures |picks| == n && forall j :: 0 <= j < n ==> JobPick(t, b, sources, k, j, picks[j])
  {
    if n == 0 {
      picks := [];
    } else {
      picks := JobPicksExist(t, b, sources, k, n - 1);
      var last := JobPickExists(t, b, sources, k, n - 1);
      picks := picks + [last];
    }
  }

  lemma NestedPickExists(t: Tables, b: Barred, sources: seq<string>, k: nat) returns (pick: multiset<nat>)
    ensures NestedPick(t, b, sources, k, pick)
  {
    var picks := JobPicksExist(t, b, sources, k, |t.jobs|);
    pick := TopExists(t.items, Sum(picks), k);
  }

  // ---------------------------------------------- a repeated source under-claims

  /** A number in decimal digits, so that different items have different documents. */
  function Decimal(n: nat): string {
    if n < 10 then ["0123456789"[n]] else Decimal(n / 10) + ["0123456789"[n % 10]]
  }

  lemma {:induction false} DecimalsDiffer(n: nat, m: nat)
    requires Decimal(n) == Decimal(m)
    ensures n == m
  {
    var a, b := Decimal(n), Decimal(m);
    assert a[|a| - 1] == "0123456789"[n % 10] && b[|b| - 1] == "0123456789"[m % 10];
    if n >= 10 && m >= 10 {
      assert a[..|a| - 1] == Decimal(n / 10) && b[..|b| - 1] == Decimal(m / 10);
      DecimalsDiffer(n / 10, m / 10);
    } else if n >= 10 {
      DecimalIsLong(n);
    } else if m >= 10 {
      DecimalIsLong(m);
    }
  }

  lemma DecimalIsLong(n: nat)
    requires n >= 10
    ensures |Decimal(n)| > 1
  {
    var shorter := Decimal(n / 10);
    assert |shorter| >= 1;
  }

  /** A submission of k documents to one source. */
  function Bulk(source: string, k: nat): Submission {
    Submission(0, 0, "geonode",
      SubmissionPlan(seq(k, n requires 0 <= n < k => PlannedItem(n + 1, Decimal(10_000_000_000 + n), source)), []))
  }

  /** The tables its admission makes of empty ones. */
  function Backlog(source: string, k: nat): Tables {
    AdmitTx(EMPTY, Bulk(source, k), map[])
  }

  lemma {:induction false} AllToFetch(items: seq<PlannedItem>)
    ensures ToFetch(items, map[]) == items && Reused(items, map[]) == []
  {
    if items != [] {
      AllToFetch(items[1..]);
    }
  }

  lemma BacklogRows(source: string, k: nat)
    requires k > 0
    ensures Backlog(source, k).jobs == [Job(0, 0, "geonode", JobState.Running, 0, None)]
    ensures |Backlog(source, k).items| == k
    ensures forall n :: 0 <= n < k ==>
      Backlog(source, k).items[n] == PendingRow(0, 0, PlannedItem(n + 1, Decimal(10_000_000_000 + n), source))
  {
    hide Decimal, ToFetch, Reused;
    AllToFetch(Bulk(source, k).plan.items);
  }

  /** A source listed twice makes the query return some row twice, so fewer items than it could. */
  lemma RepeatedSourceUnderclaims(sources: seq<string>, first: nat, again: nat, k: nat)
    returns (t: Tables, pick: multiset<nat>)
    requires first < again < |sources| && sources[first] == sources[again] && k >= 2
    ensures t == Backlog(sources[first], k)
    ensures NestedPick(t, Barred({}, {}), sources, k, pick)
    ensures |Eligible(t, Barred({}, {}), sources)| == k
    ensures !IsTop(t.items, multiset(Eligible(t, Barred({}, {}), sources)), k, pick)
  {
    t := Backlog(sources[first], k);
    BacklogRows(sources[first], k);
    hide Backlog, Decimal, PendingRow;
    pick := NestedPickExists(t, Barred({}, {}), sources, k);
    NestedIsBagTop(t, Barred({}, {}), sources, k, pick);
    TwinsInBag(sources, first, again, k);
    EligibleBacklog(sources[first], sources, k);
    BacklogInOrder(sources[first], k);
    TwinsCrowdOut(t.items, Sum(JobBags(t, Barred({}, {}), sources)), Eligible(t, Barred({}, {}), sources), k, 0, k - 1,
      pick);
  }

  lemma TwinsInBag(sources: seq<string>, first: nat, again: nat, k: nat)
    requires first < again < |sources| && sources[first] == sources[again] && k > 0
    ensures Sum(JobBags(Backlog(sources[first], k), Barred({}, {}), sources))[0] >= 2
  {
    BacklogRows(sources[first], k);
    OccursTwice(sources, first, again);
    BagAt(Backlog(sources[first], k), Barred({}, {}), sources, 0);
  }

  lemma BacklogInOrder(source: string, k: nat)
    requires k >= 2
    ensures |Backlog(source, k).items| == k && !NotAfter(Backlog(source, k).items, k - 1, 0)
  {
    BacklogRows(source, k);
    hide Backlog, Decimal;
  }

  /** A second copy of an early row keeps a later row of the flat pool out. */
  lemma TwinsCrowdOut(items: seq<Item>, bag: multiset<nat>, flat: set<nat>, k: nat, early: nat, late: nat,
      pick: multiset<nat>)
    requires IsTop(items, bag, k, pick) && bag[early] >= 2
    requires |flat| == k && early in flat && late in flat && !NotAfter(items, late, early)
    ensures !IsTop(items, multiset(flat), k, pick)
  {
    if IsTop(items, multiset(flat), k, pick) {
      FullTop(items, multiset(flat), k, pick);
      EarlyRowsFirst(items, bag, k, early, late, pick);
    }
  }

  lemma EarlyRowsFirst(items: seq<Item>, bag: multiset<nat>, k: nat, early: nat, late: nat, pick: multiset<nat>)
    requires IsTop(items, bag, k, pick) && !NotAfter(items, late, early) && pick[early] < bag[early]
    ensures late !in pick
  {
    assert early in bag - pick;
  }

  lemma EligibleBacklog(source: string, sources: seq<string>, k: nat)
    requires source in sources && k > 0
    ensures |Eligible(Backlog(source, k), Barred({}, {}), sources)| == k
    ensures forall i: nat :: i in Eligible(Backlog(source, k), Barred({}, {}), sources) <==> i < k
  {
    BacklogRows(source, k);
    hide Backlog, Decimal;
    CountBelow(Eligible(Backlog(source, k), Barred({}, {}), sources), k);
  }

  lemma {:induction false} CountBelow(s: set<nat>, k: nat)
    requires forall i: nat :: i in s <==> i < k
    ensures |s| == k
  {
    if k > 0 {
      assert k - 1 in s;
      CountBelow(s - {k - 1}, k - 1);
    } else {
      assert s == {};
    }
  }

  lemma OccursTwice(sources: seq<string>, first: nat, again: nat)
    requires first < again < |sources| && sources[first] == sources[again]
    ensures multiset(sources)[sources[first]] >= 2
  {
    assert sources == sources[..again] + sources[again..];
    assert sources[first] in sources[..again] && sources[again] in sources[again..];
  }

  lemma FullTop(items: seq<Item>, pool: multiset<nat>, k: nat, top: multiset<nat>)
    requires IsTop(items, pool, k, top) && |pool| == k
    ensures top == pool
  {
    assert pool == top + (pool - top);
    assert |pool - top| == 0;
  }

  /** The claim query returns a flat top k on every table exactly when no source repeats or one row is asked for. */
  lemma NestedIsFlatExactlyWhen(sources: seq<string>, k: nat)
    ensures (forall t, b, pick :: NestedPick(t, b, sources, k, pick) ==>
               IsTop(t.items, multiset(Eligible(t, b, sources)), k, pick))
        <==> k <= 1 || NoDuplicates(sources)
  {
    if k <= 1 || NoDuplicates(sources) {
      forall t, b, pick | NestedPick(t, b, sources, k, pick)
        ensures IsTop(t.items, multiset(Eligible(t, b, sources)), k, pick)
      {
        if NoDuplicates(sources) {
          NestedIsFlat(t, b, sources, k, pick);
        } else {
          SinglePickIsFlat(t, b, sources, k, pick);
        }
      }
    } else {
      var first, again :| 0 <= first < again < |sources| && sources[first] == sources[again];
      var t, pick := RepeatedSourceUnderclaims(sources, first, again, k);
    }
  }
}
