/**
 Runs of the queue that show what its properties leave open: a claim that takes less
 than it could, and a publish that attaches another document's entry. And the claim that
 finds two jobs waiting.
 */
module QueueExamples {
  import opened Basics
  import opened JobTables
  import opened ClaimQuery
  import opened QueueInvariant
  import opened QueueRuns
  import opened LeaseHistory
  import opened LeaseBounds
  import opened QueueColumns

  // ------------------------------------------------------------- a repeated source

  /** The planned pairs of the example are distinct, as a plan's always are. */
  lemma BulkPairsDiffer(source: string, k: nat)
    ensures forall a, b :: 0 <= a < b < k ==>
      PairOf(Bulk(source, k).plan.items[a]) != PairOf(Bulk(source, k).plan.items[b])
  {
    hide Decimal;
    forall a, b | 0 <= a < b < k
      ensures PairOf(Bulk(source, k).plan.items[a]) != PairOf(Bulk(source, k).plan.items[b])
    {
      if Decimal(10_000_000_000 + a) == Decimal(10_000_000_000 + b) {
        DecimalsDiffer(10_000_000_000 + a, 10_000_000_000 + b);
      }
    }
  }

  lemma PickedAreEligible(t: Tables, sources: seq<string>, k: nat, pick: multiset<nat>)
    requires NestedPick(t, NOTHING, sources, k, pick)
    ensures Support(pick) <= Eligible(t, NOTHING, sources) && |pick| <= k
  {
    NestedIsBagTop(t, NOTHING, sources, k, pick);
    forall i | i in pick ensures i in Eligible(t, NOTHING, sources) {
      BagAt(t, NOTHING, sources, i);
    }
  }

  /** A pick of k rows out of k that leaves none out is the flat answer. */
  lemma {:induction false} FullSupport(pick: multiset<nat>)
    requires |pick| <= |Support(pick)|
    ensures pick == multiset(Support(pick))
  {
    var flat := multiset(Support(pick));
    assert flat <= pick;
    assert |flat| == |Support(pick)|;
    assert pick == flat + (pick - flat);
    assert |pick - flat| == 0;
  }

  /**
   For every list that names a source twice and every limit of two or more: k items are
   admitted, and a claim for k of them takes fewer although nothing is in its way.
   */
  lemma ClaimTakesFewer(sources: seq<string>, first: nat, again: nat, k: nat)
    returns (states: seq<Tables>, actions: seq<Action>)
    requires first < again < |sources| && sources[first] == sources[again] && k >= 2
    ensures Run(states, actions) && |actions| == 2
    ensures actions[0] == Admit(Bulk(sources[first], k), map[]) && actions[1].Claim?
    ensures actions[1].c.sources == sources && actions[1].c.limit == k && actions[1].c.barred == NOTHING
    ensures |Eligible(states[1], NOTHING, sources)| == k && |Taken(actions[1].c)| < k
  {
    var t, pick := RepeatedSourceUnderclaims(sources, first, again, k);
    BacklogRows(sources[first], k);
    NothingToSweep(t, k);
    var c, r := WholeClaim(t, "worker", sources, k, 0, [], t, pick);
    PickedAreEligible(t, sources, k, pick);
    if |Support(pick)| >= k {
      SameWhenAsMany(Support(pick), Eligible(t, NOTHING, sources));
      FullSupport(pick);
      WholePoolIsTop(t.items, Eligible(t, NOTHING, sources), k);
      assert false;
    }
    states, actions := [EMPTY] + [t] + [r], [] + [Admit(Bulk(sources[first], k), map[])] + [Claim(c)];
    TwoSteps(t, r, actions[0], actions[1]);
  }

  lemma NothingToSweep(t: Tables, k: nat)
    requires |t.jobs| == 1 && |t.items| == k
    requires forall n :: 0 <= n < k ==> t.items[n].job == 0 && t.items[n].state.Pending?
    ensures RowsInRange(t) && SweepMakes(t, 0, {}, [], t)
  {
    assert ExpiredItems(t, 0, {}) == {};
    assert JobsOf(t.items, {}) == {};
    assert t.(items := SweptItems(t.items, {})) == t;
  }

  lemma WholePoolIsTop(items: seq<Item>, pool: set<nat>, k: nat)
    requires |pool| == k && forall i :: i in pool ==> i < |items|
    ensures IsTop(items, multiset(pool), k, multiset(pool))
  {
    assert |multiset(pool)| == k;
  }

  lemma TwoSteps(t: Tables, r: Tables, a: Action, b: Action)
    requires Step(EMPTY, a, t) && Step(t, b, r)
    ensures Run([EMPTY] + [t] + [r], [] + [a] + [b])
  {
    hide Step;
    ExtendRun([EMPTY], [], a, t);
    ExtendRun([EMPTY] + [t], [] + [a], b, r);
  }

  // -------------------------------------------------- another document's entry

  /** The lease is for one document, the request names another. */
  const MISNAMED := Publication(0, "w", 0, "20123456786", "osiptel", "geonode", LookupStatus.Ok, "", None, 0, 0, [])

  lemma MisnamedFits(t1: Tables, t2: Tables)
    requires RowsInRange(t1) && t2 == Claimed(t1, {0}, "w", 0)
    requires t1.items == [PendingRow(0, 0, PlannedItem(1, "10412345678", "osiptel"))]
    requires t1.jobs == [Job(0, 0, "geonode", JobState.Running, 0, None)]
    ensures FenceHolds(t2, MISNAMED) && t2.items[0].document == "10412345678"
  {
  }

  /** A publish is accepted that attaches the entry of another document. */
  lemma MisnamedPublishAccepted() returns (states: seq<Tables>, actions: seq<Action>)
    ensures Run(states, actions) && |actions| == 3 && actions[2] == Publish(MISNAMED, 1)
    ensures FenceHolds(states[2], MISNAMED)
    ensures |states[3].items| > 0 && states[3].items[0].state.Published? && !OwnEntry(states[3], states[3].items[0])
  {
    hide Step, SweepMakes, ClaimMakes, AdmitTx, Claimed, FenceHolds, OwnEntry, PublishTx;
    var t1 := AdmitTx(EMPTY, SAMPLE, map[]);
    SampleAdmitted(t1);
    SampleIsAdmitted(t1);
    var c, t2 := SampleClaim(t1, 0, [], t1);
    MisnamedFits(t1, t2);
    var t3 := PublishTx(t2, MISNAMED, 1);
    PublishIsStep(t2, t3);
    TwoSteps(t1, t2, Admit(SAMPLE, map[]), Claim(c));
    ExtendRun([EMPTY] + [t1] + [t2], [] + [Admit(SAMPLE, map[])] + [Claim(c)], Publish(MISNAMED, 1), t3);
    states := [EMPTY] + [t1] + [t2] + [t3];
    actions := [] + [Admit(SAMPLE, map[])] + [Claim(c)] + [Publish(MISNAMED, 1)];
    AttachesOwnEntryExactlyWhen(states, actions, 2);
  }

  lemma SampleIsAdmitted(t: Tables)
    requires t == AdmitTx(EMPTY, SAMPLE, map[])
    ensures Step(EMPTY, Admit(SAMPLE, map[]), t)
  {
  }

  lemma PublishIsStep(t: Tables, r: Tables)
    requires MISNAMED.item < |t.items| && r == PublishTx(t, MISNAMED, 1)
    ensures Step(t, Publish(MISNAMED, 1), r)
  {
  }

  // ---------------------------------------------------------------- the older job first

  /** Two jobs run, with one item each to be fetched from the same source. */
  predicate TwoJobsWait(t: Tables) {
    && |t.jobs| == 2 && t.jobs[0].state.Running? && t.jobs[1].state.Running?
    && |t.items| == 2 && t.items[0].job == 0 && t.items[1].job == 1
    && t.items[0].state.Pending? && t.items[0].source == Some("osiptel")
    && t.items[1].state.Pending? && t.items[1].source == Some("osiptel")
  }

  lemma SecondSample(t: Tables, r: Tables)
    requires t == AdmitTx(EMPTY, SAMPLE, map[]) && r == AdmitTx(t, SAMPLE, map[])
    ensures TwoJobsWait(r)
  {
    hide AdmitTx;
    SampleAdmitted(t);
    AdmitColumns(t, SAMPLE, map[]);
    var p := SAMPLE.plan.items;
    var stored := StandFor(r.items[1..2]);
    assert |p| == 1 && stored == [PlannedItem(r.items[1].ordinal, r.items[1].document, r.items[1].source.value)];
    assert stored[0] in multiset(p);
    assert NewColumns(r.items[1], 1, 0) && StoredFor(r.items[1], map[]);
    OneRuns(t.jobs);
  }

  lemma OneRuns(jobs: seq<Job>)
    requires |jobs| == 1 && jobs[0].state.Running?
    ensures |set k | 0 <= k < |jobs| && (jobs[k].state.Running? || jobs[k].state.Cancelling?)| == 1
  {
    assert (set k | 0 <= k < |jobs| && (jobs[k].state.Running? || jobs[k].state.Cancelling?)) == {0};
  }

  /** Every claim for one item that finds the two takes the older job's. */
  lemma OlderJobServed(t: Tables, c: ClaimTx, r: Tables)
    requires ClaimMakes(t, c, r) && TwoJobsWait(c.swept)
    requires c.limit == 1 && c.affinity == None && c.sources == ["osiptel"] && c.barred == NOTHING
    ensures r.items[0].state.Running? && r.items[0].owner == Some(c.worker) && r.items[1] == c.swept.items[1]
  {
    hide ClaimMakes, Taken;
    FirstIsTaken(t, c, r);
    ClaimTakes(t, c, r);
    if 1 in Taken(c) {
      TwoAreMore(Taken(c));
    }
    ClaimedColumns(t, c, r, 0);
    ClaimedColumns(t, c, r, 1);
  }

  lemma FirstIsTaken(t: Tables, c: ClaimTx, r: Tables)
    requires ClaimMakes(t, c, r) && TwoJobsWait(c.swept)
    requires c.limit == 1 && c.affinity == None && c.sources == ["osiptel"] && c.barred == NOTHING
    ensures 0 in Taken(c)
  {
    hide ClaimMakes, Taken;
    ClaimTakesNoKin(t, c, r);
    if 1 in Taken(c) {
      if 0 !in Taken(c) {
        ClaimTakesOldest(t, c, r, 1, 0);
      }
    } else if |Taken(c)| < 1 {
      ClaimLeavesNothing(t, c, r, 0);
    } else {
      var x :| x in Taken(c);
    }
  }

  lemma ClaimTakesNoKin(t: Tables, c: ClaimTx, r: Tables)
    requires ClaimMakes(t, c, r) && c.affinity == None
    ensures c.kin == {} && forall x :: x in Taken(c) ==> x < |c.swept.items|
  {
    ClaimTakes(t, c, r);
  }

  lemma TwoAreMore(s: set<nat>)
    requires 0 in s && 1 in s
    ensures |s| >= 2
  {
    assert s == {0, 1} + (s - {0, 1});
    assert |{0, 1}| == 2;
  }

  /** The claim as a run: two admissions, then one claim, which gets the first admission's item. */
  lemma OlderJobFirst() returns (states: seq<Tables>, actions: seq<Action>)
    ensures Run(states, actions) && |actions| == 3 && actions[0] == actions[1] == Admit(SAMPLE, map[])
    ensures actions[2].Claim? && actions[2].c.limit == 1 && actions[2].c.sources == ["osiptel"]
    ensures actions[2].c.affinity == None && actions[2].c.barred == NOTHING
    ensures TwoJobsWait(states[2]) && |states[3].items| == 2
    ensures states[3].items[0].state.Running? && states[3].items[1].state.Pending?
  {
    hide Step, SweepMakes, ClaimMakes, AdmitTx, NestedPick, Run;
    var t := AdmitTx(EMPTY, SAMPLE, map[]);
    var u := AdmitTx(t, SAMPLE, map[]);
    SecondSample(t, u);
    NothingExpired(u);
    var pick := NestedPickExists(u, NOTHING, ["osiptel"], 1);
    var c, r := WholeClaim(u, "w", ["osiptel"], 1, 0, [], u, pick);
    ClaimStepMakes(u, c, r);
    OlderJobServed(u, c, r);
    SampleIsAdmitted(t);
    SampleIsAdmittedTo(t, u);
    TwoSteps(t, u, Admit(SAMPLE, map[]), Admit(SAMPLE, map[]));
    states, actions := [EMPTY] + [t] + [u] + [r], [] + [Admit(SAMPLE, map[])] + [Admit(SAMPLE, map[])] + [Claim(c)];
    ExtendRun([EMPTY] + [t] + [u], [] + [Admit(SAMPLE, map[])] + [Admit(SAMPLE, map[])], Claim(c), r);
  }

  lemma NothingExpired(t: Tables)
    requires TwoJobsWait(t)
    ensures RowsInRange(t) && SweepMakes(t, 0, {}, [], t)
  {
    hide SweepMakes;
    assert ExpiredItems(t, 0, {}) == {};
    SweepOfNone(t);
  }

  lemma SweepOfNone(t: Tables)
    requires ExpiredItems(t, 0, {}) == {}
    ensures SweepMakes(t, 0, {}, [], t)
  {
    hide ExpiredItems;
    assert JobsOf(t.items, {}) == {};
    assert t.(items := SweptItems(t.items, {})) == t;
  }

  lemma ClaimStepMakes(t: Tables, c: ClaimTx, r: Tables)
    requires Step(t, Claim(c), r)
    ensures ClaimMakes(t, c, r)
  {
  }

  lemma SampleIsAdmittedTo(t: Tables, r: Tables)
    requires r == AdmitTx(t, SAMPLE, map[])
    ensures Step(t, Admit(SAMPLE, map[]), r)
  {
  }
}
