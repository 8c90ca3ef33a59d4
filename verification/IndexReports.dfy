/** What one sync does to each entry and each vanished record, and what it reports (orchestrator/src/autosetup/index-refresh.ts). */
module IndexReports {
  import opened Options
  import opened Tables
  import opened MemoryStore
  import opened IndexRefresh
  import opened IndexTheorems
  import opened IndexFailures
  import opened IndexSync

  /** The cold record of an entry, field by field. */
  ghost predicate RecordOf(embedder: Embedder, c: string, s: MemorySource, now: int, e: CurrentEntry, r: MemoryRecord)
  {
    && r.kind == Cold && r.text == e.text && r.vector == embedder.embed(e.text)
    && r.metadata.campaignId == c && r.metadata.source == Some(s) && r.metadata.foundryId == Some(e.foundryId)
    && r.metadata.lastModified == e.lastModified && r.metadata.location == e.keys.location
    && r.metadata.quest == e.keys.quest && r.metadata.keywords == Some(e.keys.keywords)
    && r.metadata.createdAt == now && r.metadata.embedModel == embedder.name
    && r.metadata.audience.None? && r.metadata.sessionId.None? && r.metadata.deltas.None? && r.metadata.tombstoned.None?
  }

  /**
   * After a sync an entry with text is live as read when it was not live before or its stamp is the newer one; otherwise
   * what was live is unchanged.
   */
  lemma EntryAfterSync(embedder: Embedder, m: Store, c: string, s: MemorySource, now: int, entries: seq<CurrentEntry>, e: CurrentEntry)
    requires WellKeyed(m) && s != Compendium && Distinct(entries) && e in entries
    ensures var old_, new_ := LiveAt(m, c, s, e.foundryId), LiveAt(Synced(embedder, m, c, s, now, entries), c, s, e.foundryId);
      if Speaks(e) && (old_.None? || Newer(e.lastModified, old_.value.metadata.lastModified))
      then new_.Some? && RecordOf(embedder, c, s, now, e, new_.value)
      else new_ == old_
  {
    hide Speaks, WellKeyed, Distinct, Synced, EntryId, LiveAt, LexLess, Earlier;
    LiveAfterSync(embedder, m, c, s, now, entries, e);
    var live := LiveAt(m, c, s, e.foundryId);
    if live.Some? { ShouldUpdateExactly(e.lastModified, live.value.metadata.lastModified); }
  }

  /** A live record whose entry is gone keeps everything but its life. */
  lemma VanishedAfterSync(embedder: Embedder, m: Store, c: string, s: MemorySource, now: int, entries: seq<CurrentEntry>, id: string)
    requires Listed(m, c, s, id) && forall e :: e in entries ==> m[id].metadata.foundryId != Some(e.foundryId)
    ensures Get(Synced(embedder, m, c, s, now, entries), id)
         == Some(m[id].(metadata := m[id].metadata.(tombstoned := Some(true))))
  {
    hide Synced, Ingested;
    SyncedSlot(embedder, m, c, s, now, entries, id);
  }

  // ---- the counts ----

  /** The foundry ids that have a live record. */
  ghost function LiveIds(m: Store, c: string, s: MemorySource): set<string>
  {
    set id | id in m && Listed(m, c, s, id) :: m[id].metadata.foundryId.value
  }

  lemma LiveIdsExactly(m: Store, c: string, s: MemorySource, f: string)
    requires WellKeyed(m) && s != Compendium
    ensures f in LiveIds(m, c, s) <==> LiveAt(m, c, s, f).Some?
  {
    hide EntryId;
    if f in LiveIds(m, c, s) {
      var id :| id in m && Listed(m, c, s, id) && m[id].metadata.foundryId.value == f;
      assert KeyedAt(m, id);
    }
    if LiveAt(m, c, s, f).Some? {
      assert Listed(m, c, s, RecordId(c, s, f));
    }
  }

  ghost function IdsWhere(p: CurrentEntry -> bool, entries: seq<CurrentEntry>): set<string>
  {
    set e | e in entries && p(e) :: e.foundryId
  }

  lemma IdsWhereCons(p: CurrentEntry -> bool, head: CurrentEntry, tail: seq<CurrentEntry>)
    requires Distinct([head] + tail)
    ensures Distinct(tail) && head.foundryId !in IdsWhere(p, tail)
    ensures IdsWhere(p, [head] + tail) == IdsWhere(p, tail) + (if p(head) then {head.foundryId} else {})
  {
    var all := [head] + tail;
    assert all[1..] == tail && all[0] == head;
    assert forall k :: 0 <= k < |tail| ==> tail[k] == all[k + 1];
    assert forall e :: e in all <==> e == head || e in tail;
  }

  lemma {:induction false} CountIds(p: CurrentEntry -> bool, entries: seq<CurrentEntry>)
    requires Distinct(entries)
    ensures Count(p, entries) == |IdsWhere(p, entries)|
    decreases |entries|
  {
    hide IdsWhere, Distinct;
    if |entries| == 0 {
      NoIds(p, entries);
    } else {
      assert entries == [entries[0]] + entries[1..];
      IdsWhereCons(p, entries[0], entries[1..]);
      CountIds(p, entries[1..]);
    }
  }

  lemma NoIds(p: CurrentEntry -> bool, entries: seq<CurrentEntry>)
    requires |entries| == 0
    ensures IdsWhere(p, entries) == {}
  {
  }

  lemma {:induction false} RecordIdsOf(c: string, s: MemorySource, fids: set<string>)
    ensures |set f | f in fids :: RecordId(c, s, f)| == |fids|
    decreases |fids|
  {
    hide RecordId;
    if fids == {} {
      assert (set f | f in fids :: RecordId(c, s, f)) == {};
    } else {
      var x :| x in fids;
      var rest := fids - {x};
      RecordIdsOf(c, s, rest);
      assert (set f | f in fids :: RecordId(c, s, f)) == (set f | f in rest :: RecordId(c, s, f)) + {RecordId(c, s, x)};
      forall f | f in rest ensures RecordId(c, s, f) != RecordId(c, s, x) {
        if RecordId(c, s, f) == RecordId(c, s, x) { RecordIdNamesEntry(c, s, f, x); }
      }
    }
  }

  lemma VanishedAreGone(m: Store, c: string, s: MemorySource, entries: seq<CurrentEntry>)
    requires WellKeyed(m) && s != Compendium
    ensures VanishedIds(m, c, s, entries) == set f | f in LiveIds(m, c, s) - Ids(entries) :: RecordId(c, s, f)
  {
    hide EntryId, Ids;
    forall id | id in VanishedIds(m, c, s, entries)
      ensures m[id].metadata.foundryId.value in LiveIds(m, c, s) - Ids(entries) && id == RecordId(c, s, m[id].metadata.foundryId.value)
    {
      assert KeyedAt(m, id);
    }
    forall f | f in LiveIds(m, c, s) - Ids(entries)
      ensures RecordId(c, s, f) in VanishedIds(m, c, s, entries)
    {
      LiveIdsExactly(m, c, s, f);
      assert Listed(m, c, s, RecordId(c, s, f));
    }
  }

  /** The read entry is newer than the live record of its id. */
  ghost predicate Edited(m: Store, c: string, s: MemorySource, e: CurrentEntry)
  {
    var live := LiveAt(m, c, s, e.foundryId);
    live.Some? && Newer(e.lastModified, live.value.metadata.lastModified)
  }

  /**
   * Added: the ids read that were not live. Updated: the ids that were, read with a newer stamp. Deleted: the live ids
   * no longer read.
   */
  lemma CountsAreDifferences(m: Store, c: string, s: MemorySource, entries: seq<CurrentEntry>)
    requires WellKeyed(m) && s != Compendium && Distinct(entries)
    ensures var counts := Changes(m, c, s, entries);
      && counts.added == |Ids(entries) - LiveIds(m, c, s)|
      && counts.updated == |set e | e in entries && Edited(m, c, s, e) :: e.foundryId|
      && counts.deleted == |LiveIds(m, c, s) - Ids(entries)|
  {
    hide RecordId, WellKeyed, Distinct, LiveAt, LexLess, Earlier, Count, LiveIds;
    CountIds(IsAdded(m, c, s), entries);
    CountIds(IsUpdated(m, c, s), entries);
    forall e ensures IsAdded(m, c, s)(e) <==> e.foundryId !in LiveIds(m, c, s) { LiveIdsExactly(m, c, s, e.foundryId); }
    forall e ensures IsUpdated(m, c, s)(e) <==> Edited(m, c, s, e) {
      var live := LiveAt(m, c, s, e.foundryId);
      if live.Some? { ShouldUpdateExactly(e.lastModified, live.value.metadata.lastModified); }
    }
    assert IdsWhere(IsAdded(m, c, s), entries) == Ids(entries) - LiveIds(m, c, s);
    assert IdsWhere(IsUpdated(m, c, s), entries) == set e | e in entries && Edited(m, c, s, e) :: e.foundryId;
    VanishedAreGone(m, c, s, entries);
    RecordIdsOf(c, s, LiveIds(m, c, s) - Ids(entries));
  }

  // ---- one refresh ----

  /** A refresh reads journals, scenes, creatures and actor items, in this order, and counts a failed read as an empty one. */
  lemma RefreshReads(read: Reader, k: nat)
    requires k < 4
    ensures |SOURCES| == 4
    ensures SOURCES[k] == match k case 0 => WorldJournal case 1 => WorldScene case 2 => WorldCreature case _ => WorldActorItem
    ensures Loaded(read, SOURCES[k]) == match read(SOURCES[k]) case None => [] case Some(entries) => entries
  {
  }

  /** The errors of the reading phase are exactly the sources whose read failed. */
  lemma FailedReadsExactly(read: Reader)
    ensures forall s :: s in Filter(FailedReads(read), SOURCES) <==> s != Compendium && read(s).None?
  {
    hide Filter;
    assert SOURCES[0] == WorldJournal && SOURCES[1] == WorldScene && SOURCES[2] == WorldCreature && SOURCES[3] == WorldActorItem;
    forall s: MemorySource ensures s in SOURCES <==> s != Compendium {
    }
  }

  /** An embedding failure in batch `batch` leaves the 64 records of every earlier batch, if there are that many to write. */
  lemma CutExactly(embedder: Embedder, m: Store, r: Refresh, batch: nat)
    ensures var written := |Written(embedder, m, r.campaignId, r.source, r.now, r.entries)|;
      Cut(embedder, m, r, Some(batch)) == if batch * 64 < written then Some(batch * 64) else None
  {
    hide Written;
  }
}
