/**
 A worker's cache of revealed credentials, least recently used first. What the server
 reveals at a moment is a parameter.
 */
module CredentialCache {
  import opened Basics

  const CREDENTIAL_CACHE_SIZE: nat := 32
  const CREDENTIAL_CACHE_TTL: int := 300

  datatype Entry = Entry(id: nat, credential: nat, expires: int)

  /** A reveal: the credential and when the answer was in. */
  datatype Revealed = Revealed(id: nat, credential: nat, at: int)

  predicate DistinctIds(entries: seq<Entry>) {
    forall n, m :: 0 <= n < m < |entries| ==> entries[n].id != entries[m].id
  }

  function Without(entries: seq<Entry>, id: nat): (r: seq<Entry>)
    ensures forall e :: e in r <==> e in entries && e.id != id
    ensures |r| <= |entries|
  {
    if entries == [] then []
    else if entries[0].id == id then Without(entries[1..], id)
    else [entries[0]] + Without(entries[1..], id)
  }

  lemma {:induction false} WithoutIsDistinct(entries: seq<Entry>, id: nat)
    requires DistinctIds(entries)
    ensures DistinctIds(Without(entries, id))
  {
    if entries != [] {
      WithoutIsDistinct(entries[1..], id);
      var r := Without(entries[1..], id);
      assert forall n :: 0 <= n < |r| ==> r[n] in r && r[n] in entries[1..];
    }
  }

  /** The other entries stay, in their order. */
  lemma {:induction false} WithoutSplits(before: seq<Entry>, e: Entry, after: seq<Entry>)
    requires forall x :: x in before + after ==> x.id != e.id
    ensures Without(before + [e] + after, e.id) == before + after
  {
    var all := before + [e] + after;
    if before == [] {
      assert all == [e] + after && all[1..] == after && before + after == after;
      NothingToRemove(after, e.id);
    } else {
      assert all[1..] == before[1..] + [e] + after;
      WithoutSplits(before[1..], e, after);
      assert before + after == [before[0]] + (before[1..] + after);
    }
  }

  lemma WithoutCuts(entries: seq<Entry>, n: nat)
    requires DistinctIds(entries) && n < |entries|
    ensures Without(entries, entries[n].id) == entries[..n] + entries[n + 1..]
  {
    hide Without;
    var before, e, after := entries[..n], entries[n], entries[n + 1..];
    forall x: Entry | x in before + after ensures x.id != e.id {
      if x in before {
        var m :| 0 <= m < n && entries[m] == x;
      } else {
        var m :| 0 <= m < |after| && after[m] == x;
      }
    }
    WithoutSplits(before, e, after);
    assert entries == before + [e] + after;
  }

  /** An entry that was looked up goes to the end, or goes for good once expired; the others keep their order. */
  predicate LookedUp(was: seq<Entry>, entries: seq<Entry>, id: nat, now: int) {
    && (forall n :: 0 <= n < |was| && was[n].id == id ==>
          entries == was[..n] + was[n + 1..] + (if now < was[n].expires then [was[n]] else []))
    && ((forall e :: e in was ==> e.id != id) ==> entries == was)
  }

  lemma LookedInVain(entries: seq<Entry>, id: nat, now: int)
    requires forall n :: 0 <= n < |entries| ==> entries[n].id != id
    ensures LookedUp(entries, entries, id, now)
  {
  }

  lemma LookedAt(entries: seq<Entry>, n: nat, now: int)
    requires DistinctIds(entries) && n < |entries|
    ensures var rest := Without(entries, entries[n].id);
      LookedUp(entries, if now < entries[n].expires then rest + [entries[n]] else rest, entries[n].id, now)
  {
    hide Without, DistinctIds;
    WithoutCuts(entries, n);
    PlaceIsOne(entries, n);
    var rest := entries[..n] + entries[n + 1..];
    assert rest + [] == rest;
    var left := if now < entries[n].expires then rest + [entries[n]] else rest;
    forall m | 0 <= m < |entries| && entries[m].id == entries[n].id
      ensures left == entries[..m] + entries[m + 1..] + (if now < entries[m].expires then [entries[m]] else [])
    {
      assert m == n;
    }
    assert entries[n] in entries;
  }

  lemma PlaceIsOne(entries: seq<Entry>, n: nat)
    requires DistinctIds(entries) && n < |entries|
    ensures forall m :: 0 <= m < |entries| && entries[m].id == entries[n].id ==> m == n
  {
  }

  lemma {:induction false} WithoutIsShorter(entries: seq<Entry>, e: Entry)
    requires e in entries
    ensures |Without(entries, e.id)| < |entries|
  {
    if entries[0].id != e.id {
      WithoutIsShorter(entries[1..], e);
    }
  }

  /** The most recently used entries that fit. */
  function Fitting(entries: seq<Entry>): (r: seq<Entry>)
    ensures |r| <= CREDENTIAL_CACHE_SIZE
  {
    if |entries| > CREDENTIAL_CACHE_SIZE then entries[|entries| - CREDENTIAL_CACHE_SIZE..] else entries
  }

  class CredentialCache {
    var entries: seq<Entry>
    ghost var history: seq<Revealed>

    /** Entries are distinct, few, and each was revealed one lifetime before it expires. */
    ghost predicate Valid()
      reads this
    {
      && |entries| <= CREDENTIAL_CACHE_SIZE
      && DistinctIds(entries)
      && forall e :: e in entries ==> Backed(history, e)
    }

    constructor ()
      ensures Valid() && entries == [] && history == []
    {
      entries, history := [], [];
    }

    /** Looks the entry up without using it. */
    method Find(id: nat) returns (n: nat)
      ensures n == IndexOf(entries, id)
    {
      n := 0;
      while n < |entries| && entries[n].id != id
        invariant n <= |entries| && forall m :: 0 <= m < n ==> entries[m].id != id
      {
        n := n + 1;
      }
    }

    /** A hit makes the entry the last used; an expired entry goes. */
    method Lookup(id: nat, now: int) returns (found: Option<nat>)
      requires Valid()
      modifies `entries
      ensures Valid()
      ensures found.Some? <==> exists e :: e in old(entries) && e.id == id && now < e.expires
      ensures found.Some? ==> FreshlyRevealed(history, id, found.value, now)
      ensures found.Some? ==>
        exists e :: e in old(entries) && e.id == id && e.credential == found.value &&
          entries == Without(old(entries), id) + [e]
      ensures found.None? ==> entries == Without(old(entries), id)
      ensures LookedUp(old(entries), entries, id, now)
    {
      hide DistinctIds, LookedUp;
      var n := Find(id);
      WithoutIsDistinct(entries, id);
      if n == |entries| {
        NothingToRemove(entries, id);
        LookedInVain(entries, id, now);
        return None;
      }
      var e := entries[n];
      LookedAt(entries, n, now);
      WithoutIsShorter(entries, e);
      OnlyOne(entries, e);
      entries := Without(entries, id);
      if now >= e.expires {
        return None;
      }
      AddsDistinct(entries, e);
      entries := entries + [e];
      FoundIsFresh(history, e, now);
      return Some(e.credential);
    }

    /** Stores an answer: in place if a lane was quicker, else last, and then the first goes if there are too many. */
    method Remember(id: nat, credential: nat, answeredAt: int)
      requires Valid()
      modifies this
      ensures Valid()
      ensures history == old(history) + [Revealed(id, credential, answeredAt)]
      ensures entries == Fitting(Placed(old(entries), Entry(id, credential, answeredAt + CREDENTIAL_CACHE_TTL)))
      ensures |entries| <= 32
      ensures forall n :: 0 <= n < |old(entries)| && old(entries)[n].id == id ==>
        entries == old(entries)[n := Entry(id, credential, answeredAt + 300)]
      ensures (forall e :: e in old(entries) ==> e.id != id) ==>
        entries == (if |old(entries)| < 32 then old(entries) else old(entries)[1..])
                   + [Entry(id, credential, answeredAt + 300)]
    {
      hide DistinctIds;
      var e := Entry(id, credential, answeredAt + CREDENTIAL_CACHE_TTL);
      MoreHistory(history, Revealed(id, credential, answeredAt), e);
      PlacedIsDistinct(entries, e);
      history := history + [Revealed(id, credential, answeredAt)];
      var n := Find(id);
      StoredAs(entries, e, n);
      hide Placed, Fitting, IndexOf, Backed;
      entries := if n < |entries| then entries[n := e] else entries + [e];
      if |entries| > CREDENTIAL_CACHE_SIZE {
        entries := entries[1..];
      }
    }

    /** What other lanes do with the cache while one waits for the server. */
    method Meanwhile(uses: seq<Use>)
      requires Valid()
      modifies this
      ensures Valid() && old(history) <= history
    {
      for n := 0 to |uses|
        invariant Valid() && old(history) <= history
      {
        match uses[n] {
          case Looks(id, at) => var _ := Lookup(id, at);
          case Stores(id, credential, at) => Remember(id, credential, at);
        }
      }
    }

    /**
     Answers from the cache, or from the server at `answeredAt`; none when the server fails.
     Whatever is answered was revealed less than one lifetime before, and comes from the
     cache exactly when a cached entry has not expired, whatever other lanes do meanwhile.
     */
    method Reveal(id: nat, now: int, server: Option<nat>, answeredAt: int, meanwhile: seq<Use>)
      returns (r: Option<nat>, cached: bool)
      requires Valid() && now <= answeredAt
      modifies this
      ensures Valid() && old(history) <= history
      ensures cached <==> exists e :: e in old(entries) && e.id == id && now < e.expires
      ensures cached ==> r.Some? && history == old(history)
      ensures !cached ==> r == server
      ensures r.Some? ==> FreshlyRevealed(history, id, r.value, if cached then now else answeredAt)
      ensures r.Some? ==>
        exists n :: 0 <= n < |history| && history[n].id == id && history[n].credential == r.value &&
          (if cached then now else answeredAt) < history[n].at + 300
      ensures r.Some? ==> exists e :: e in entries && e.id == id && e.credential == r.value
    {
      hide DistinctIds, Fitting, Without;
      r := Lookup(id, now);
      cached := r.Some?;
      if !cached {
        Meanwhile(meanwhile);
        r := server;
        if server.Some? {
          ghost var before, asked := entries, history;
          var e := Entry(id, server.value, answeredAt + CREDENTIAL_CACHE_TTL);
          Remember(id, server.value, answeredAt);
          MoreHistory(asked, Revealed(id, server.value, answeredAt), e);
          StaysInCache(before, e);
        }
      }
    }
  }

  /** Another lane's use of the cache. */
  datatype Use = Looks(id: nat, at: int) | Stores(id: nat, credential: nat, at: int)

  /** Where the entry of a credential stands, or |entries|. */
  function IndexOf(entries: seq<Entry>, id: nat): (n: nat)
    ensures n <= |entries|
    ensures n < |entries| ==> entries[n].id == id
    ensures forall m :: 0 <= m < n ==> entries[m].id != id
  {
    if entries == [] || entries[0].id == id then 0 else 1 + IndexOf(entries[1..], id)
  }

  /** Storing under a key that is there keeps its place; a new key comes last. */
  function Placed(entries: seq<Entry>, e: Entry): seq<Entry> {
    var n := IndexOf(entries, e.id);
    if n < |entries| then entries[n := e] else entries + [e]
  }

  /** Storing replaces the entry of the id where it stands; a new one comes last, and the first goes if there are 32. */
  lemma StoredAs(entries: seq<Entry>, e: Entry, n: nat)
    requires DistinctIds(entries) && |entries| <= 32 && n == IndexOf(entries, e.id)
    ensures n < |entries| ==> Fitting(Placed(entries, e)) == entries[n := e]
    ensures n < |entries| ==> forall m :: 0 <= m < |entries| && entries[m].id == e.id ==> m == n
    ensures n == |entries| ==>
      Fitting(Placed(entries, e)) == if |entries| < 32 then entries + [e] else (entries + [e])[1..]
  {
  }

  lemma PlacedIsDistinct(entries: seq<Entry>, e: Entry)
    requires DistinctIds(entries)
    ensures DistinctIds(Placed(entries, e)) && DistinctIds(Fitting(Placed(entries, e)))
    ensures |Placed(entries, e)| <= |entries| + 1
    ensures forall x :: x in Placed(entries, e) ==> x == e || x in entries
  {
  }

  /** What was just stored is there. */
  lemma StaysInCache(before: seq<Entry>, e: Entry)
    requires |before| <= CREDENTIAL_CACHE_SIZE
    ensures e in Fitting(Placed(before, e))
  {
    var all := Placed(before, e);
    var n := IndexOf(before, e.id);
    assert all[n] == e;
    if |all| > CREDENTIAL_CACHE_SIZE {
      assert Fitting(all)[|Fitting(all)| - 1] == e;
    } else {
      assert Fitting(all) == all;
    }
  }

  lemma {:induction false} NothingToRemove(entries: seq<Entry>, id: nat)
    requires forall e :: e in entries ==> e.id != id
    ensures Without(entries, id) == entries
  {
    if entries != [] {
      assert entries[0] in entries;
      NothingToRemove(entries[1..], id);
    }
  }

  lemma FoundIsFresh(history: seq<Revealed>, e: Entry, now: int)
    requires Backed(history, e) && now < e.expires
    ensures FreshlyRevealed(history, e.id, e.credential, now)
  {
  }

  /** The entry expires one lifetime after it was revealed. */
  predicate Backed(history: seq<Revealed>, e: Entry) {
    Revealed(e.id, e.credential, e.expires - CREDENTIAL_CACHE_TTL) in history
  }

  predicate FreshlyRevealed(history: seq<Revealed>, id: nat, credential: nat, now: int) {
    exists n :: 0 <= n < |history| && history[n].id == id && history[n].credential == credential &&
      now < history[n].at + CREDENTIAL_CACHE_TTL
  }

  lemma MoreHistory(history: seq<Revealed>, last: Revealed, e: Entry)
    requires e == Entry(last.id, last.credential, last.at + CREDENTIAL_CACHE_TTL)
    ensures Backed(history + [last], e) && FreshlyRevealed(history + [last], last.id, last.credential, last.at)
    ensures forall x :: Backed(history, x) ==> Backed(history + [last], x)
  {
    assert (history + [last])[|history|] == last;
  }

  lemma AddsDistinct(entries: seq<Entry>, e: Entry)
    requires DistinctIds(entries) && forall x :: x in entries ==> x.id != e.id
    ensures DistinctIds(entries + [e]) && DistinctIds((entries + [e])[1..])
  {
    assert forall n :: 0 <= n < |entries| ==> entries[n] in entries;
  }

  lemma OnlyOne(entries: seq<Entry>, e: Entry)
    requires e in entries && DistinctIds(entries)
    ensures forall x :: x in entries && x.id == e.id ==> x == e
  {
  }
}
