/** Runs in which any refresh may be cut short by a failing embedding call. */
module IndexFailures {
  import opened Options
  import opened Tables
  import opened Ranking
  import opened MemoryStore
  import opened IndexRefresh
  import opened IndexTheorems

  /** A refresh, and how many records it wrote if its embedding failed then. */
  datatype Attempt = Attempt(refresh: Refresh, cut: Option<nat>)

  ghost function Attempted(embedder: Embedder, m: Store, a: Attempt): Store
  {
    var r := a.refresh;
    if a.cut.None? then Synced(embedder, m, r.campaignId, r.source, r.now, r.entries)
    else PutAllMap(m, Prefix(Written(embedder, m, r.campaignId, r.source, r.now, r.entries), a.cut.value))
  }

  const BATCH_SIZE: nat := 64

  /** How many records are written before the embedding call of batch `failAt` throws, if there is such a batch. */
  ghost function Cut(embedder: Embedder, m: Store, r: Refresh, failAt: Option<nat>): Option<nat>
  {
    if failAt.None? || BatchStart(failAt.value, BATCH_SIZE) >= |Written(embedder, m, r.campaignId, r.source, r.now, r.entries)| then None
    else Some(BatchStart(failAt.value, BATCH_SIZE))
  }

  ghost function AfterAll(embedder: Embedder, m: Store, attempts: seq<Attempt>): Store
  {
    if |attempts| == 0 then m
    else Attempted(embedder, AfterAll(embedder, m, attempts[..|attempts| - 1]), attempts[|attempts| - 1])
  }

  lemma AfterAllSnoc(embedder: Embedder, m: Store, attempts: seq<Attempt>, last: Attempt)
    ensures AfterAll(embedder, m, attempts + [last]) == Attempted(embedder, AfterAll(embedder, m, attempts), last)
  {
    assert (attempts + [last])[..|attempts|] == attempts;
  }

  predicate ReadAt(attempts: seq<Attempt>, k: nat, c: string, s: MemorySource, e: CurrentEntry)
  {
    k < |attempts| && attempts[k].refresh.campaignId == c && attempts[k].refresh.source == s && e in attempts[k].refresh.entries
  }

  /** Per entry, a later reading carries a larger stamp or the same stamp and text. */
  ghost predicate StampsRise(attempts: seq<Attempt>, n: nat, e: CurrentEntry)
    requires n < |attempts|
  {
    var c, s := attempts[n].refresh.campaignId, attempts[n].refresh.source;
    forall k: nat, p :: k < n && ReadAt(attempts, k, c, s, p) && p.foundryId == e.foundryId ==>
      Newer(e.lastModified, p.lastModified) || (e.lastModified == p.lastModified && e.text == p.text)
  }

  ghost predicate Lawful(attempts: seq<Attempt>)
  {
    forall n: nat :: n < |attempts| ==>
      var r := attempts[n].refresh;
      && r.source != Compendium && Distinct(r.entries)
      && forall e :: e in r.entries ==> Speaks(e) && StampsRise(attempts, n, e)
  }

  ghost predicate TrackedAt(m: Store, attempts: seq<Attempt>, id: string, c: string, s: MemorySource, k: nat, e: CurrentEntry)
    requires id in m
  {
    ReadAt(attempts, k, c, s, e) && m[id].metadata.foundryId == Some(e.foundryId) && Reflects(Some(m[id]), e)
  }

  /** Every live indexed record still carries the text and stamp of some reading. */
  ghost predicate Tracked(m: Store, attempts: seq<Attempt>)
  {
    forall id, c, s :: s != Compendium && Listed(m, c, s, id) ==>
      exists k: nat, e :: TrackedAt(m, attempts, id, c, s, k, e)
  }

  lemma PrefixMembers<R>(rows: seq<R>, k: nat)
    ensures forall x :: x in Prefix(rows, k) ==> x in rows
  {
  }

  /** What a cut refresh stores is written for an entry it read, or was there before. */
  lemma CutProvenance(embedder: Embedder, m: Store, a: Attempt, id: string)
    requires a.cut.Some?
    ensures var r := a.refresh;
      Get(Attempted(embedder, m, a), id) == Get(m, id)
      || exists e :: e in r.entries && id == RecordId(r.campaignId, r.source, e.foundryId)
                  && Get(Attempted(embedder, m, a), id) == Some(Fresh(embedder, r.campaignId, r.source, r.now, e))
  {
    hide Written, EntryId, NeedsIngest, Speaks, Prefix;
    var r := a.refresh;
    var written := Written(embedder, m, r.campaignId, r.source, r.now, r.entries);
    WrittenMembers(embedder, m, r.campaignId, r.source, r.now, r.entries);
    PrefixMembers(written, a.cut.value);
    PutAllFrom(m, Prefix(written, a.cut.value), id);
  }

  /** The same for any attempt, as far as live records go. */
  lemma LiveProvenance(embedder: Embedder, m: Store, a: Attempt, id: string)
    requires id in Attempted(embedder, m, a) && !Tombstoned(Attempted(embedder, m, a)[id])
    ensures var r := a.refresh;
      Get(Attempted(embedder, m, a), id) == Get(m, id)
      || exists e :: e in r.entries && id == RecordId(r.campaignId, r.source, e.foundryId)
                  && Get(Attempted(embedder, m, a), id) == Some(Fresh(embedder, r.campaignId, r.source, r.now, e))
  {
    hide Written, EntryId, Synced, Ingested, Prefix;
    var r := a.refresh;
    if a.cut.Some? {
      CutProvenance(embedder, m, a, id);
    } else {
      SyncedSlot(embedder, m, r.campaignId, r.source, r.now, r.entries, id);
      Provenance(embedder, m, r.campaignId, r.source, r.now, r.entries, id);
    }
  }

  lemma AttemptKeepsKeys(embedder: Embedder, m: Store, a: Attempt)
    requires WellKeyed(m)
    ensures WellKeyed(Attempted(embedder, m, a))
  {
    hide Written, EntryId, Synced, Prefix;
    var r := a.refresh;
    if a.cut.None? {
      SyncKeepsKeys(embedder, m, r.campaignId, r.source, r.now, r.entries);
    } else {
      var m' := Attempted(embedder, m, a);
      forall id | id in m'
        ensures KeyedAt(m', id)
      {
        CutProvenance(embedder, m, a, id);
        assert id in m ==> KeyedAt(m, id);
      }
    }
  }

  lemma AttemptTracked(embedder: Embedder, m: Store, init: seq<Attempt>, a: Attempt)
    requires Tracked(m, init)
    ensures Tracked(Attempted(embedder, m, a), init + [a])
  {
    hide Attempted, EntryId;
    var m', all := Attempted(embedder, m, a), init + [a];
    forall id, c, s | s != Compendium && Listed(m', c, s, id)
      ensures exists k: nat, e :: TrackedAt(m', all, id, c, s, k, e)
    {
      LiveProvenance(embedder, m, a, id);
      if Get(m', id) == Get(m, id) {
        assert Listed(m, c, s, id);
        var k: nat, e :| TrackedAt(m, init, id, c, s, k, e);
        assert all[k] == init[k];
        assert TrackedAt(m', all, id, c, s, k, e);
      } else {
        var r := a.refresh;
        var e :| e in r.entries && id == RecordId(r.campaignId, r.source, e.foundryId)
                 && Get(m', id) == Some(Fresh(embedder, r.campaignId, r.source, r.now, e));
        assert all[|init|] == a;
        assert TrackedAt(m', all, id, c, s, |init|, e);
      }
    }
  }

  lemma {:induction false} AllTracked(embedder: Embedder, m: Store, attempts: seq<Attempt>)
    requires WellKeyed(m) && Tracked(m, [])
    ensures WellKeyed(AfterAll(embedder, m, attempts)) && Tracked(AfterAll(embedder, m, attempts), attempts)
    decreases |attempts|
  {
    hide WellKeyed, Tracked, Attempted;
    if |attempts| == 0 {
      assert attempts == [];
    } else {
      var n := |attempts| - 1;
      AllTracked(embedder, m, attempts[..n]);
      AttemptKeepsKeys(embedder, AfterAll(embedder, m, attempts[..n]), attempts[n]);
      AttemptTracked(embedder, AfterAll(embedder, m, attempts[..n]), attempts[..n], attempts[n]);
      assert attempts[..n] + [attempts[n]] == attempts;
    }
  }

  lemma TrackedSettles(m: Store, attempts: seq<Attempt>, e: CurrentEntry)
    requires |attempts| > 0 && WellKeyed(m) && Tracked(m, attempts[..|attempts| - 1])
    requires var r := attempts[|attempts| - 1].refresh;
      && r.source != Compendium && e in r.entries
      && Speaks(e) && StampsRise(attempts, |attempts| - 1, e)
    ensures Settles(m, attempts[|attempts| - 1].refresh.campaignId, attempts[|attempts| - 1].refresh.source, e)
  {
    hide EntryId, Speaks;
    var n := |attempts| - 1;
    var c, s := attempts[n].refresh.campaignId, attempts[n].refresh.source;
    if LiveAt(m, c, s, e.foundryId).Some? {
      var id := RecordId(c, s, e.foundryId);
      assert Listed(m, c, s, id);
      var k: nat, p :| TrackedAt(m, attempts[..n], id, c, s, k, p);
      assert ReadAt(attempts, k, c, s, p);
      ShouldUpdateExactly(e.lastModified, p.lastModified);
    }
  }

  /**
   * However many refreshes of a run were cut short, each one that completes leaves the live records
   * of its campaign and source equal, in ids, texts and stamps, to what it read.
   */
  lemma CompletedRefreshAgrees(embedder: Embedder, m: Store, attempts: seq<Attempt>)
    requires WellKeyed(m) && Tracked(m, []) && Lawful(attempts)
    requires |attempts| > 0 && attempts[|attempts| - 1].cut.None?
    ensures var r := attempts[|attempts| - 1].refresh;
      Agrees(AfterAll(embedder, m, attempts), r.campaignId, r.source, r.entries)
  {
    hide WellKeyed, Tracked, Synced, Agrees, Settles, Distinct, Speaks, StampsRise;
    var n := |attempts| - 1;
    var r := attempts[n].refresh;
    var before := AfterAll(embedder, m, attempts[..n]);
    AllTracked(embedder, m, attempts[..n]);
    forall e | e in r.entries
      ensures Settles(before, r.campaignId, r.source, e)
    {
      TrackedSettles(before, attempts, e);
    }
    SyncAgrees(embedder, before, r.campaignId, r.source, r.now, r.entries);
  }
}
