/**
 Merging the state databases of the shards of one job into a new one.
 */
module Merge {
  import opened Basics
  import opened Documents
  import opened Fetch
  import opened Outcomes
  import opened Resume

  /** A shard's input as found now, and its state database if there is one. */
  datatype Shard = Shard(name: string, input: Option<seq<seq<string>>>, sameDigest: bool, state: Option<Table>)

  datatype Manifest = Manifest(sites: seq<string>, shards: seq<Shard>)

  datatype MergeError =
    | InputMissing(shard: string)
    | InputChanged(shard: string)
    | SharedDocuments(pairs: set<Pair>)
    | StateMissing
    | SharedOutcome(pair: Pair)
    | Uncovered(count: nat)
    | Retryable(count: nat)
    | DestinationExists
    | ExportsExist
    | OutsideManifest(pairs: set<Pair>)

  // ----------------------------------------------------------------- expected pairs

  function ShardPairs(sites: seq<string>, rows: seq<seq<string>>, accepts: Accepts): set<Pair> {
    set s, d | s in sites && d in DocsOf(rows, true) && accepts(s, d) :: (s, d)
  }

  function PairsOf(m: Manifest, n: nat, accepts: Accepts): set<Pair>
    requires n < |m.shards|
  {
    if m.shards[n].input.None? then {} else ShardPairs(m.sites, m.shards[n].input.value, accepts)
  }

  predicate Readable(shard: Shard) {
    shard.input.Some? && shard.sameDigest
  }

  /** One more shard, with its pairs, joins those before it. */
  function Joined(before: set<Pair>, shard: Shard, pairs: set<Pair>): (r: Result<set<Pair>, MergeError>)
    ensures r.Success? <==> Readable(shard) && before * pairs == {}
    ensures r.Success? ==> r.value == before + pairs
  {
    if shard.input.None? then Failure(InputMissing(shard.name))
    else if !shard.sameDigest then Failure(InputChanged(shard.name))
    else if before * pairs != {} then Failure(SharedDocuments(before * pairs))
    else Success(before + pairs)
  }

  /** The pairs of the first `n` shards, or the first complaint about them. */
  function Expected(m: Manifest, n: nat, accepts: Accepts): Result<set<Pair>, MergeError>
    requires n <= |m.shards|
  {
    if n == 0 then Success({})
    else if Expected(m, n - 1, accepts).Failure? then Expected(m, n - 1, accepts)
    else Joined(Expected(m, n - 1, accepts).value, m.shards[n - 1], PairsOf(m, n - 1, accepts))
  }

  lemma {:induction false} ComplaintStays(m: Manifest, n: nat, k: nat, accepts: Accepts)
    requires n <= k <= |m.shards| && Expected(m, n, accepts).Failure?
    ensures Expected(m, k, accepts) == Expected(m, n, accepts)
  {
    hide PairsOf, Joined;
    if n < k {
      ComplaintStays(m, n, k - 1, accepts);
    }
  }

  /** The shard's input names the pair's document for one of the sources, which accepts it. */
  predicate Wants(m: Manifest, i: nat, accepts: Accepts, p: Pair)
    requires i < |m.shards|
  {
    && m.shards[i].input.Some? && p.0 in m.sites && accepts(p.0, p.1)
    && exists row :: row in m.shards[i].input.value && row != [] && Document(row[0]) == Some(p.1)
  }

  /** What a complaint about a shard says of it. */
  predicate Faults(shard: Shard, e: MergeError) {
    match e
    case InputMissing(name) => name == shard.name && shard.input.None?
    case InputChanged(name) => name == shard.name && shard.input.Some? && !shard.sameDigest
    case SharedDocuments(pairs) => pairs != {} && shard.input.Some? && shard.sameDigest
    case _ => false
  }

  /** The expected pairs are those that some shard's input names. */
  lemma WantedPairs(m: Manifest, accepts: Accepts)
    ensures Expected(m, |m.shards|, accepts).Success? ==>
      forall n :: 0 <= n < |m.shards| ==> m.shards[n].input.Some? && m.shards[n].sameDigest
    ensures Expected(m, |m.shards|, accepts).Success? ==>
      forall p :: p in Expected(m, |m.shards|, accepts).value <==>
        exists i: nat :: i < |m.shards| && Wants(m, i, accepts, p)
  {
    hide Expected;
    ExpectedExactlyWhen(m, |m.shards|, accepts);
    forall i: nat, p: Pair | i < |m.shards| ensures p in PairsOf(m, i, accepts) <==> Wants(m, i, accepts, p) {
      WantedOf(m, i, accepts, p);
    }
    hide PairsOf, Wants;
  }

  lemma WantedOf(m: Manifest, i: nat, accepts: Accepts, p: Pair)
    requires i < |m.shards|
    ensures p in PairsOf(m, i, accepts) <==> Wants(m, i, accepts, p)
  {
    if m.shards[i].input.Some? {
      assert p in ShardPairs(m.sites, m.shards[i].input.value, accepts) <==>
        p.0 in m.sites && p.1 in DocsOf(m.shards[i].input.value, true) && accepts(p.0, p.1);
    }
  }

  method JoinShard(m: Manifest, n: nat, before: set<Pair>, accepts: Accepts) returns (r: Result<set<Pair>, MergeError>)
    requires n < |m.shards|
    ensures r == Joined(before, m.shards[n], PairsOf(m, n, accepts))
    ensures r.Failure? ==> Faults(m.shards[n], r.error)
  {
    var shard := m.shards[n];
    if shard.input.None? {
      return Failure(InputMissing(shard.name));
    }
    if !shard.sameDigest {
      return Failure(InputChanged(shard.name));
    }
    var docs, _ := ReadDocs(shard.input.value, true);
    var pairs := set s, d | s in m.sites && d in docs && accepts(s, d) :: (s, d);
    assert pairs == PairsOf(m, n, accepts);
    if before * pairs != {} {
      return Failure(SharedDocuments(before * pairs));
    }
    return Success(before + pairs);
  }

  method ExpectedPairs(m: Manifest, accepts: Accepts) returns (r: Result<set<Pair>, MergeError>)
    ensures r == Expected(m, |m.shards|, accepts)
    ensures r.Failure? ==> exists n :: 0 <= n < |m.shards| && Faults(m.shards[n], r.error)
    ensures r.Success? ==> forall n :: 0 <= n < |m.shards| ==> m.shards[n].input.Some? && m.shards[n].sameDigest
    ensures r.Success? ==> forall p :: p in r.value <==> exists i: nat :: i < |m.shards| && Wants(m, i, accepts, p)
  {
    hide PairsOf, Joined, Wants, Faults;
    WantedPairs(m, accepts);
    r := Success({});
    for n := 0 to |m.shards|
      invariant r == Expected(m, n, accepts) && r.Success?
    {
      r := JoinShard(m, n, r.value, accepts);
      if r.Failure? {
        ComplaintStays(m, n + 1, |m.shards|, accepts);
        return;
      }
    }
  }

  predicate OwnersDisjoint(m: Manifest, n: nat, accepts: Accepts)
    requires n <= |m.shards|
  {
    forall i: nat, j: nat :: i < j < n ==> PairsOf(m, i, accepts) !! PairsOf(m, j, accepts)
  }

  ghost predicate Covers(m: Manifest, n: nat, accepts: Accepts, pairs: set<Pair>)
    requires n <= |m.shards|
  {
    forall p :: p in pairs <==> exists i: nat :: i < n && p in PairsOf(m, i, accepts)
  }

  lemma CoversGrows(m: Manifest, n: nat, accepts: Accepts, pairs: set<Pair>)
    requires n < |m.shards| && Covers(m, n, accepts, pairs)
    ensures Covers(m, n + 1, accepts, pairs + PairsOf(m, n, accepts))
    ensures pairs * PairsOf(m, n, accepts) == {} <==>
      forall i: nat :: i < n ==> PairsOf(m, i, accepts) !! PairsOf(m, n, accepts)
  {
    hide PairsOf;
    var mine := PairsOf(m, n, accepts);
    if pairs * mine == {} {
      forall i: nat | i < n ensures PairsOf(m, i, accepts) !! mine {
        forall p | p in PairsOf(m, i, accepts) ensures p !in mine {
          assert p in pairs && p !in pairs * mine;
        }
      }
    } else {
      var p :| p in pairs * mine;
      var i: nat :| i < n && p in PairsOf(m, i, accepts);
    }
  }

  predicate AllReadable(m: Manifest, n: nat)
    requires n <= |m.shards|
  {
    forall i: nat :: i < n ==> Readable(m.shards[i])
  }

  lemma ReadableGrow(m: Manifest, n: nat)
    requires n < |m.shards|
    ensures AllReadable(m, n + 1) <==> AllReadable(m, n) && Readable(m.shards[n])
  {
  }

  lemma OwnersGrow(m: Manifest, n: nat, accepts: Accepts)
    requires n < |m.shards|
    ensures OwnersDisjoint(m, n + 1, accepts)
       <==> OwnersDisjoint(m, n, accepts) && forall i: nat :: i < n ==> PairsOf(m, i, accepts) !! PairsOf(m, n, accepts)
  {
    hide PairsOf;
  }

  lemma ExpectedStep(m: Manifest, n: nat, accepts: Accepts)
    requires 0 < n <= |m.shards|
    ensures Expected(m, n, accepts) ==
      if Expected(m, n - 1, accepts).Failure? then Expected(m, n - 1, accepts)
      else Joined(Expected(m, n - 1, accepts).value, m.shards[n - 1], PairsOf(m, n - 1, accepts))
  {
  }

  lemma NoneExpected(m: Manifest, accepts: Accepts)
    ensures Expected(m, 0, accepts) == Success({})
    ensures AllReadable(m, 0) && OwnersDisjoint(m, 0, accepts) && Covers(m, 0, accepts, {})
  {
    hide PairsOf;
  }

  /**
   The expected pairs exist exactly for readable shards that share no document of a source, and are
   all their pairs.
   */
  lemma {:induction false} ExpectedExactlyWhen(m: Manifest, n: nat, accepts: Accepts)
    requires n <= |m.shards|
    ensures Expected(m, n, accepts).Success? <==> AllReadable(m, n) && OwnersDisjoint(m, n, accepts)
    ensures Expected(m, n, accepts).Success? ==> Covers(m, n, accepts, Expected(m, n, accepts).value)
  {
    hide PairsOf, Covers, OwnersDisjoint, Joined, AllReadable, Expected, Readable;
    if n == 0 {
      NoneExpected(m, accepts);
    } else {
      ExpectedExactlyWhen(m, n - 1, accepts);
      ExpectedStep(m, n, accepts);
      ReadableGrow(m, n - 1);
      OwnersGrow(m, n - 1, accepts);
      if Expected(m, n - 1, accepts).Success? {
        CoversGrows(m, n - 1, accepts, Expected(m, n - 1, accepts).value);
      }
    }
  }

  // ----------------------------------------------------------------- all outcomes

  /** The state tables of the first `n` shards put together, or the first complaint about them. */
  ghost predicate Gathered(m: Manifest, n: nat, r: Result<Table, MergeError>)
    requires n <= |m.shards|
  {
    match r
    case Success(all) => StatesDisjoint(m, n) && IsUnion(m, n, all)
    case Failure(StateMissing) => exists k: nat :: k < n && m.shards[k].state.None? && StatesDisjoint(m, k)
    case Failure(SharedOutcome(pair)) =>
      exists k: nat, i: nat :: i < k < n && StatesDisjoint(m, k) && Holds(m, i, pair) && Holds(m, k, pair)
    case _ => false
  }

  predicate Holds(m: Manifest, i: nat, pair: Pair) {
    i < |m.shards| && m.shards[i].state.Some? && pair in m.shards[i].state.value
  }

  ghost predicate StatesDisjoint(m: Manifest, n: nat)
    requires n <= |m.shards|
  {
    && (forall i: nat :: i < n ==> m.shards[i].state.Some?)
    && (forall i: nat, j: nat, p: Pair :: i < j < n && Holds(m, i, p) ==> !Holds(m, j, p))
  }

  ghost predicate IsUnion(m: Manifest, n: nat, all: Table)
    requires n <= |m.shards|
  {
    && (forall i: nat, p: Pair :: i < n && Holds(m, i, p) ==> p in all && all[p] == m.shards[i].state.value[p])
    && (forall p :: p in all ==> exists i: nat :: i < n && Holds(m, i, p))
  }

  method AddTable(before: Table, table: Table) returns (all: Table, repeated: Option<Pair>)
    ensures repeated.Some? ==> repeated.value in before && repeated.value in table
    ensures repeated.None? ==> before.Keys !! table.Keys && all == before + table
  {
    all := before;
    var rest := table.Keys;
    while rest != {}
      invariant rest <= table.Keys && all == before + (table - rest)
      invariant forall p :: p in before && p in table ==> p in rest
      decreases rest
    {
      var key :| key in rest;
      rest := rest - {key};
      if key in all {
        return all, Some(key);
      }
      all := all[key := table[key]];
    }
    assert table - {} == table;
    return all, None;
  }

  method ReadAllOutcomes(m: Manifest) returns (r: Result<Table, MergeError>)
    ensures Gathered(m, |m.shards|, r)
    ensures r.Failure? ==> r.error.StateMissing? || r.error.SharedOutcome?
  {
    hide Holds;
    var all: Table := map[];
    for n := 0 to |m.shards|
      invariant StatesDisjoint(m, n) && IsUnion(m, n, all)
    {
      if m.shards[n].state.None? {
        return Failure(StateMissing);
      }
      var grown, repeated := AddTable(all, m.shards[n].state.value);
      if repeated.Some? {
        RepeatedIsShared(m, n, all, repeated.value);
        return Failure(SharedOutcome(repeated.value));
      }
      DisjointGrows(m, n, all);
      UnionGrows(m, n, all, grown);
      all := grown;
    }
    return Success(all);
  }

  lemma RepeatedIsShared(m: Manifest, n: nat, all: Table, pair: Pair)
    requires n < |m.shards| && m.shards[n].state.Some? && IsUnion(m, n, all)
    requires pair in all && pair in m.shards[n].state.value
    ensures Holds(m, n, pair) && exists i: nat :: i < n && Holds(m, i, pair)
  {
  }

  lemma DisjointGrows(m: Manifest, n: nat, before: Table)
    requires n < |m.shards| && m.shards[n].state.Some?
    requires StatesDisjoint(m, n) && IsUnion(m, n, before) && before.Keys !! m.shards[n].state.value.Keys
    ensures StatesDisjoint(m, n + 1)
  {
    forall i: nat, p: Pair | i < n && Holds(m, i, p) ensures !Holds(m, n, p) {
      assert p in before;
    }
  }

  lemma UnionGrows(m: Manifest, n: nat, before: Table, all: Table)
    requires n < |m.shards| && m.shards[n].state.Some? && IsUnion(m, n, before)
    requires before.Keys !! m.shards[n].state.value.Keys && all == before + m.shards[n].state.value
    ensures IsUnion(m, n + 1, all)
  {
    forall p | p in all ensures exists i: nat :: i < n + 1 && Holds(m, i, p) {
      if p in before {
        var i: nat :| i < n && Holds(m, i, p);
      } else {
        assert Holds(m, n, p);
      }
    }
  }

  // ------------------------------------------------------------------------- merging

  /** Every expected pair has an outcome and no outcome is left to retry. */
  predicate Complete(expected: set<Pair>, all: Table) {
    expected <= all.Keys && DoneIn(all) == all.Keys
  }

  lemma NothingAmissExactlyWhen(expected: set<Pair>, all: Table)
    ensures Complete(expected, all) <==> expected - all.Keys == {} && all.Keys - DoneIn(all) == {}
    ensures expected <= all.Keys <==> expected - all.Keys == {}
    ensures all.Keys - DoneIn(all) ==
      set p | p in all && all[p].status == Failed && all[p].attempts < MAX_TOTAL_ATTEMPTS
  {
    if expected - all.Keys == {} {
      forall p | p in expected ensures p in all {
        assert p !in expected - all.Keys;
      }
    }
    if all.Keys - DoneIn(all) == {} {
      forall p | p in all ensures p in DoneIn(all) {
        assert p !in all.Keys - DoneIn(all);
      }
    }
  }

  /** Each complaint of a merge, and what it means: they are looked for in this order. */
  ghost predicate Explains(m: Manifest, accepts: Accepts, stateExists: bool, exportsExist: bool, e: MergeError) {
    var expected := Expected(m, |m.shards|, accepts);
    if expected.Failure? then e == expected.error
    else if e.StateMissing? || e.SharedOutcome? then Gathered(m, |m.shards|, Failure(e))
    else
      exists all ::
        Gathered(m, |m.shards|, Success(all)) && Objects(expected.value, all, stateExists, exportsExist, e)
  }

  ghost predicate Objects(expected: set<Pair>, all: Table, stateExists: bool, exportsExist: bool, e: MergeError) {
    match e
    case Uncovered(count) => count == |expected - all.Keys| && expected - all.Keys != {}
    case Retryable(count) =>
      expected <= all.Keys && count == |all.Keys - DoneIn(all)| && all.Keys - DoneIn(all) != {}
    case DestinationExists => Complete(expected, all) && stateExists
    case ExportsExist => Complete(expected, all) && !stateExists && exportsExist
    case _ => false
  }

  /** When there is something to merge, and nothing in the way. */
  ghost predicate Mergeable(m: Manifest, accepts: Accepts, stateExists: bool, exportsExist: bool) {
    && Expected(m, |m.shards|, accepts).Success? && !stateExists && !exportsExist
    && exists all ::
         && Gathered(m, |m.shards|, Success(all))
         && Expected(m, |m.shards|, accepts).value <= all.Keys && DoneIn(all) == all.Keys
  }

  lemma ExplainedIsNotMergeable(m: Manifest, accepts: Accepts, stateExists: bool, exportsExist: bool, e: MergeError)
    requires Explains(m, accepts, stateExists, exportsExist, e)
    ensures !Mergeable(m, accepts, stateExists, exportsExist)
  {
    hide Gathered, Expected;
    if Mergeable(m, accepts, stateExists, exportsExist) {
      var all :| Gathered(m, |m.shards|, Success(all)) &&
        Expected(m, |m.shards|, accepts).value <= all.Keys && DoneIn(all) == all.Keys;
      if e.StateMissing? || e.SharedOutcome? {
        NoComplaint(m, all, e);
      } else {
        var other :| Gathered(m, |m.shards|, Success(other)) &&
          Objects(Expected(m, |m.shards|, accepts).value, other, stateExists, exportsExist, e);
        GatheredIsUnique(m, all, other);
      }
    }
  }

  method Objection(expected: set<Pair>, all: Table, stateExists: bool, exportsExist: bool)
    returns (e: Option<MergeError>)
    ensures e.None? ==> Complete(expected, all) && !stateExists && !exportsExist
    ensures e.Some? ==> Objects(expected, all, stateExists, exportsExist, e.value)
  {
    NothingAmissExactlyWhen(expected, all);
    var missing := expected - all.Keys;
    if missing != {} {
      return Some(Uncovered(|missing|));
    }
    var retryable := set p | p in all && all[p].status == Failed && all[p].attempts < MAX_TOTAL_ATTEMPTS;
    if retryable != {} {
      return Some(Retryable(|retryable|));
    }
    if stateExists {
      return Some(DestinationExists);
    }
    if exportsExist {
      return Some(ExportsExist);
    }
    return None;
  }

  method Merge(m: Manifest, accepts: Accepts, stateExists: bool, exportsExist: bool)
    returns (r: Result<OutcomeStore, MergeError>)
    ensures r.Success? ==> fresh(r.value)
    ensures r.Success? ==>
      && Expected(m, |m.shards|, accepts).Success?
      && Gathered(m, |m.shards|, Success(r.value.rows))
      && Expected(m, |m.shards|, accepts).value <= r.value.rows.Keys
      && (forall p :: p in r.value.rows ==> r.value.rows[p].status != Failed || r.value.rows[p].attempts >= 12)
    ensures r.Success? <==> Mergeable(m, accepts, stateExists, exportsExist)
    ensures r.Failure? ==> Explains(m, accepts, stateExists, exportsExist, r.error)
  {
    hide Gathered, Expected, Mergeable;
    var expected := ExpectedPairs(m, accepts);
    if expected.Failure? {
      ExplainedIsNotMergeable(m, accepts, stateExists, exportsExist, expected.error);
      return Failure(expected.error);
    }
    var outcomes := ReadAllOutcomes(m);
    if outcomes.Failure? {
      ExplainedIsNotMergeable(m, accepts, stateExists, exportsExist, outcomes.error);
      return Failure(outcomes.error);
    }
    hide Complete, Objects;
    var objection := Objection(expected.value, outcomes.value, stateExists, exportsExist);
    if objection.Some? {
      ExplainedIsNotMergeable(m, accepts, stateExists, exportsExist, objection.value);
      return Failure(objection.value);
    }
    CompleteIsMergeable(m, accepts, outcomes.value);
    var destination := Copied(outcomes.value);
    return Success(destination);
  }

  lemma CompleteIsMergeable(m: Manifest, accepts: Accepts, all: Table)
    requires Expected(m, |m.shards|, accepts).Success? && Gathered(m, |m.shards|, Success(all))
    requires Complete(Expected(m, |m.shards|, accepts).value, all)
    ensures Mergeable(m, accepts, false, false) && Expected(m, |m.shards|, accepts).value <= all.Keys
    ensures forall p :: p in all ==> all[p].status != Failed || all[p].attempts >= 12
  {
    hide Gathered, Expected;
    forall p | p in all ensures all[p].status != Failed || all[p].attempts >= 12 {
      assert p in DoneIn(all);
    }
  }

  /** A new store with one snapshot recorded per row. */
  method Copied(all: Table) returns (store: OutcomeStore)
    ensures fresh(store) && store.rows == all
  {
    store := new OutcomeStore();
    var rest := all.Keys;
    while rest != {}
      invariant fresh(store) && rest <= all.Keys
      invariant store.rows.Keys == all.Keys - rest && forall p :: p in store.rows ==> store.rows[p] == all[p]
      decreases |rest|
    {
      var p :| p in rest;
      rest := rest - {p};
      var inserted := store.RecordSnapshot(p, all[p]);
      assert inserted;
    }
  }

  /** There is one way to gather, so success and failure of a merge exclude each other. */
  lemma GatheredIsUnique(m: Manifest, a: Table, b: Table)
    requires Gathered(m, |m.shards|, Success(a)) && Gathered(m, |m.shards|, Success(b))
    ensures a == b
  {
    assert forall p :: p in a ==> p in b && b[p] == a[p];
    assert forall p :: p in b ==> p in a;
  }

  lemma NoComplaint(m: Manifest, all: Table, e: MergeError)
    requires Gathered(m, |m.shards|, Success(all))
    ensures !Gathered(m, |m.shards|, Failure(e))
  {
  }

  // -------------------------------------------------------------- what a merge yields

  /** The records of the first `n` shards one after the other. */
  function Concat(logs: seq<seq<FetchResult>>, n: nat): seq<FetchResult>
    requires n <= |logs|
  {
    if n == 0 then [] else Concat(logs, n - 1) + logs[n - 1]
  }

  lemma {:induction false} RowExists(row: Option<Row>, results: seq<FetchResult>)
    requires row.Some? || results != []
    ensures RowFed(row, results).Some?
    decreases |results|
  {
    if results != [] {
      RowExists(Upserted(row, results[0]), results[1..]);
    }
  }

  lemma NothingAbout(results: seq<FetchResult>, pair: Pair)
    requires pair !in Fed(map[], results)
    ensures About(results, pair) == []
  {
    RowIsFold(map[], results, pair);
    if About(results, pair) != [] {
      RowExists(None, About(results, pair));
    }
  }

  ghost predicate Recorded(m: Manifest, logs: seq<seq<FetchResult>>) {
    |logs| == |m.shards| && forall i: nat :: i < |m.shards| ==> m.shards[i].state == Some(Fed(map[], logs[i]))
  }

  /** Of a pair, the joined records say what those of its one owner say. */
  lemma {:induction false} OwnerDecides(m: Manifest, logs: seq<seq<FetchResult>>, n: nat, pair: Pair)
    requires Recorded(m, logs) && n <= |m.shards| && StatesDisjoint(m, n)
    ensures forall i: nat :: i < n && Holds(m, i, pair) ==> About(Concat(logs, n), pair) == About(logs[i], pair)
    ensures (forall i: nat :: i < n ==> !Holds(m, i, pair)) ==> About(Concat(logs, n), pair) == []
  {
    hide Fed;
    if n > 0 {
      OwnerDecides(m, logs, n - 1, pair);
      AboutAppend(Concat(logs, n - 1), logs[n - 1], pair);
      if !Holds(m, n - 1, pair) {
        NothingAbout(logs[n - 1], pair);
      }
    }
  }

  /** A merge is what one store makes of the records of all shards, in any interleaving. */
  lemma MergeIsOneStore(m: Manifest, logs: seq<seq<FetchResult>>, all: Table, interleaved: seq<FetchResult>)
    requires Gathered(m, |m.shards|, Success(all)) && Recorded(m, logs)
    requires forall pair :: About(interleaved, pair) == About(Concat(logs, |logs|), pair)
    ensures all == Fed(map[], interleaved)
  {
    var one := Fed(map[], Concat(logs, |logs|));
    forall pair ensures At(all, pair) == At(one, pair) {
      OwnerDecides(m, logs, |logs|, pair);
      RowIsFold(map[], Concat(logs, |logs|), pair);
      if pair in all {
        var i: nat :| i < |m.shards| && Holds(m, i, pair);
        RowIsFold(map[], logs[i], pair);
        assert all[pair] == m.shards[i].state.value[pair];
      }
    }
    SameTables(all, one);
    InterleavingsAgree(map[], interleaved, Concat(logs, |logs|));
  }

  lemma SameTables(a: Table, b: Table)
    requires forall pair :: At(a, pair) == At(b, pair)
    ensures a == b
  {
    assert forall p :: p in a <==> At(a, p).Some?;
    assert forall p :: p in b <==> At(b, p).Some?;
    assert forall p :: p in a ==> At(a, p) == At(b, p);
  }

  /** A merged database leaves nothing to fetch for any of the shards' inputs. */
  lemma MergedIsDone(m: Manifest, all: Table, accepts: Accepts, i: nat, site: string)
    requires Expected(m, |m.shards|, accepts).Success? && Complete(Expected(m, |m.shards|, accepts).value, all)
    requires i < |m.shards| && m.shards[i].input.Some? && site in m.sites
    ensures PlanPending(DocsOf(m.shards[i].input.value, true), site, accepts, DoneIn(all)) == []
  {
    ExpectedExactlyWhen(m, |m.shards|, accepts);
    var docs := DocsOf(m.shards[i].input.value, true);
    var pending := PlanPending(docs, site, accepts, DoneIn(all));
    forall d | d in docs && accepts(site, d) ensures (site, d) in DoneIn(all) {
      assert (site, d) in PairsOf(m, i, accepts);
      assert (site, d) in all.Keys;
    }
    if pending != [] {
      HasMember(pending);
    }
  }

  lemma HasMember(docs: seq<string>)
    requires docs != []
    ensures exists d :: d in docs
  {
    assert docs[0] in docs;
  }

  // --------------------------------------------- outcomes the manifest does not expect

  datatype Report = Report(expected: nat, observed: nat, uncovered: nat, retryable: nat, terminal: nat)

  /** `status` counts what is missing, and complains only about outcomes outside the manifest. */
  function Status(expected: set<Pair>, all: Table): Result<Report, MergeError> {
    if all.Keys - expected != {} then Failure(OutsideManifest(all.Keys - expected))
    else
      Success(Report(|expected|, |all|, |expected - all.Keys|, |all.Keys - DoneIn(all)|,
                     |set p | p in all && all[p].status == Failed && all[p].attempts >= MAX_TOTAL_ATTEMPTS|))
  }

  function FailedIn(all: Table): set<Pair> {
    set p | p in all && all[p].status == Failed
  }

  lemma FailedParts(all: Table)
    ensures FailedIn(all) == (FailedIn(all) * DoneIn(all)) + (all.Keys - DoneIn(all)) && DoneIn(all) <= all.Keys
    ensures (set p | p in all && all[p].status == Failed && all[p].attempts >= MAX_TOTAL_ATTEMPTS) ==
            FailedIn(all) * DoneIn(all)
  {
  }

  lemma Parts<T>(whole: set<T>, a: set<T>, b: set<T>)
    requires whole == a + b && a !! b
    ensures |whole| == |a| + |b|
  {
  }

  /** What is reported adds up: the pairs without an outcome, those done, those to retry and those retired. */
  lemma StatusAddsUp(expected: set<Pair>, all: Table)
    requires all.Keys <= expected
    ensures Status(expected, all).Success?
    ensures var r := Status(expected, all).value;
      && r.expected == |expected| == r.observed + r.uncovered && r.observed == |all.Keys|
      && r.observed == |DoneIn(all)| + r.retryable
      && r.retryable + r.terminal == |FailedIn(all)| && r.terminal == |FailedIn(all) * DoneIn(all)|
  {
    hide DoneIn, FailedIn;
    FailedParts(all);
    assert all.Keys - expected == {};
    Parts(expected, all.Keys, expected - all.Keys);
    Parts(all.Keys, DoneIn(all), all.Keys - DoneIn(all));
    Parts(FailedIn(all), FailedIn(all) * DoneIn(all), all.Keys - DoneIn(all));
  }

  /**
   A merge keeps outcomes the manifest does not expect: the merged pairs are the
   expected ones exactly when every shard holds only expected pairs.
   */
  lemma MergeIsExpectedExactlyWhen(m: Manifest, all: Table, accepts: Accepts)
    requires Expected(m, |m.shards|, accepts).Success? && Gathered(m, |m.shards|, Success(all))
    requires Complete(Expected(m, |m.shards|, accepts).value, all)
    ensures all.Keys == Expected(m, |m.shards|, accepts).value
       <==> forall i: nat, p: Pair :: Holds(m, i, p) ==> p in Expected(m, |m.shards|, accepts).value
    ensures all.Keys == Expected(m, |m.shards|, accepts).value
       <==> Status(Expected(m, |m.shards|, accepts).value, all).Success?
  {
    var expected := Expected(m, |m.shards|, accepts).value;
    hide Expected;
    assert forall i: nat, p: Pair :: Holds(m, i, p) ==> p in all;
    assert forall p :: p in all ==> exists i: nat :: Holds(m, i, p);
    if all.Keys - expected != {} {
      var p :| p in all.Keys - expected;
    } else {
      forall p | p in all ensures p in expected {
        assert p !in all.Keys - expected;
      }
    }
  }

  /** One shard without input rows and one outcome: the merge succeeds and is not what was expected. */
  lemma StrayOutcomeMerges(row: Row, accepts: Accepts)
    requires row.status != Failed || row.attempts >= 12
    ensures var stray := ("site", "00000001");
      var m := Manifest(["site"], [Shard("only", Some([]), true, Some(map[stray := row]))]);
      && Expected(m, 1, accepts) == Success({})
      && Gathered(m, 1, Success(map[stray := row]))
      && Mergeable(m, accepts, false, false)
      && Status({}, map[stray := row]) == Failure(OutsideManifest({stray}))
  {
    var stray := ("site", "00000001");
    var m := Manifest(["site"], [Shard("only", Some([]), true, Some(map[stray := row]))]);
    assert DocsOf([], true) == [];
    assert PairsOf(m, 0, accepts) == {};
    assert Expected(m, 0, accepts) == Success({});
    assert {} + {} == PairsOf(m, 0, accepts);
    assert Expected(m, 1, accepts) == Joined({}, m.shards[0], PairsOf(m, 0, accepts));
    assert Holds(m, 0, stray);
    assert (map[stray := row]).Keys - {} == {stray};
    assert DoneIn(map[stray := row]) == {stray};
    hide Expected, Gathered;
    CompleteIsMergeable(m, accepts, map[stray := row]);
  }

  /** A manifest of one shard whose only document failed, with so many attempts. */
  function OneFailed(attempts: nat): Manifest {
    Manifest(["osiptel"],
      [Shard("only", Some([["10412345678"]]), true,
             Some(map[("osiptel", "10412345678") := Row(Failed, [], "provider_error", attempts, "", "")]))])
  }

  lemma OneFailedPair(attempts: nat)
    ensures PairsOf(OneFailed(attempts), 0, (_, _) => true) == {("osiptel", "10412345678")}
  {
    hide PairsOf, Document;
    var m, accepts, doc := OneFailed(attempts), (s: string, d: string) => true, "10412345678";
    PlainDocument();
    var rows := m.shards[0].input.value;
    assert rows == [[doc]] && [doc] in rows;
    forall p ensures p in PairsOf(m, 0, accepts) <==> p == ("osiptel", doc) {
      WantedOf(m, 0, accepts, p);
    }
  }

  lemma PlainDocument()
    ensures Document("10412345678") == Some("10412345678")
  {
    hide Document;
    assert Reads("10412345678", 0, 11, "10412345678");
    DocumentExactlyWhen("10412345678", "10412345678");
  }

  lemma OneFailedGathers(attempts: nat)
    ensures var m := OneFailed(attempts); Gathered(m, 1, Success(m.shards[0].state.value))
  {
    assert Holds(OneFailed(attempts), 0, ("osiptel", "10412345678"));
  }

  lemma OneFailedDocument(attempts: nat)
    ensures var m := OneFailed(attempts);
      && Expected(m, 1, (_, _) => true) == Success({("osiptel", "10412345678")})
      && Gathered(m, 1, Success(m.shards[0].state.value))
  {
    hide PairsOf, Gathered;
    var m, accepts := OneFailed(attempts), (s: string, d: string) => true;
    OneFailedPair(attempts);
    OneFailedGathers(attempts);
    assert Expected(m, 0, accepts) == Success({});
    assert {} + {("osiptel", "10412345678")} == {("osiptel", "10412345678")};
  }

  /** It merges exactly when the document is retired, at twelve attempts. */
  lemma RetiredMergesExactlyWhen(attempts: nat)
    ensures Mergeable(OneFailed(attempts), (_, _) => true, false, false) <==> attempts >= 12
  {
    var m, accepts := OneFailed(attempts), (s: string, d: string) => true;
    var mine := m.shards[0].state.value;
    OneFailedDocument(attempts);
    hide Expected, Gathered;
    assert ("osiptel", "10412345678") in mine.Keys;
    if attempts >= 12 {
      assert DoneIn(mine) == mine.Keys;
    }
    if Mergeable(m, accepts, false, false) {
      var all :| Gathered(m, |m.shards|, Success(all)) && DoneIn(all) == all.Keys;
      GatheredIsUnique(m, all, mine);
      assert ("osiptel", "10412345678") in DoneIn(all);
    }
  }
}
