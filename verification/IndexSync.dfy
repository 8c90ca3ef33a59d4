/** The imperative sync of one source and the run over all four (index-refresh.ts). */
module IndexSync {
  import opened Options
  import opened Tables
  import opened Ranking
  import opened MemoryStore
  import opened IndexRefresh
  import opened IndexTheorems
  import opened IndexFailures

  datatype RefreshCounts = RefreshCounts(added: nat, updated: nat, deleted: nat)

  /** The last record listed for each foundry id. */
  function ByFoundry(rs: seq<MemoryRecord>): map<string, MemoryRecord>
  {
    if |rs| == 0 then map[]
    else
      var r := rs[|rs| - 1];
      var before := ByFoundry(rs[..|rs| - 1]);
      if r.metadata.foundryId.Some? then before[r.metadata.foundryId.value := r] else before
  }

  lemma {:induction false} ByFoundryMembers(rs: seq<MemoryRecord>)
    ensures forall f :: f in ByFoundry(rs) ==> ByFoundry(rs)[f] in rs && ByFoundry(rs)[f].metadata.foundryId == Some(f)
    ensures forall r :: r in rs && r.metadata.foundryId.Some? ==> r.metadata.foundryId.value in ByFoundry(rs)
    decreases |rs|
  {
    if |rs| > 0 {
      var init := rs[..|rs| - 1];
      ByFoundryMembers(init);
      assert rs == init + [rs[|rs| - 1]];
    }
  }

  function EverythingOf(c: string, s: MemorySource): QueryOptions
  {
    QueryOptions(c, None, None, Some(MetadataFilter(None, None, None, Some(s), None)), true)
  }

  /** The query by source finds exactly the slots of that source. */
  lemma SlotsFound(lower: string -> string, records: seq<MemoryRecord>, c: string, s: MemorySource, f: string)
    requires UniqueIds(records) && WellKeyed(Contents(records)) && s != Compendium
    ensures Get(ByFoundry(Filter(Selects(lower, EverythingOf(c, s)), records)), f) == SlotAt(Contents(records), c, s, f)
  {
    hide ByFoundry, Filter, Contents, UniqueIds, RecordId;
    var existing := Filter(Selects(lower, EverythingOf(c, s)), records);
    ByFoundryMembers(existing);
    ContentsFaithful(records);
    var m := Contents(records);
    var slot := SlotAt(m, c, s, f);
    assert slot.Some? ==> Selects(lower, EverythingOf(c, s))(slot.value);
    if f in ByFoundry(existing) { assert KeyedAt(m, ByFoundry(existing)[f].id); }
  }

  /** The tombstones written for a set of records. */
  ghost predicate Burials(m: Store, gone: set<string>, tombstones: seq<MemoryRecord>)
  {
    && gone <= m.Keys && |tombstones| == |gone|
    && (forall r :: r in tombstones ==> r.id in gone && r == Buried(m[r.id]))
    && (forall id :: id in gone ==> Buried(m[id]) in tombstones)
  }

  lemma BurialsSync(embedder: Embedder, m: Store, c: string, s: MemorySource, now: int, entries: seq<CurrentEntry>,
                    tombstones: seq<MemoryRecord>)
    requires WellKeyed(m) && Burials(m, VanishedIds(m, c, s, entries), tombstones)
    ensures PutAllMap(Ingested(embedder, m, c, s, now, entries), tombstones) == Synced(embedder, m, c, s, now, entries)
  {
    hide Ingested, Synced, PutAllMap, RecordId;
    var ingested := Ingested(embedder, m, c, s, now, entries);
    forall id ensures Get(PutAllMap(ingested, tombstones), id) == Get(Synced(embedder, m, c, s, now, entries), id) {
      SyncedSlot(embedder, m, c, s, now, entries, id);
      if Vanished(m, c, s, entries, id) {
        assert KeyedAt(m, id);
        PutAllHits(ingested, tombstones, Buried(m[id]));
      } else {
        PutAllMisses(ingested, tombstones, id);
      }
    }
    SameMap(PutAllMap(ingested, tombstones), Synced(embedder, m, c, s, now, entries));
  }

  /** What a completed sync reports. */
  ghost function Changes(m: Store, c: string, s: MemorySource, entries: seq<CurrentEntry>): RefreshCounts
  {
    RefreshCounts(Count(IsAdded(m, c, s), entries), Count(IsUpdated(m, c, s), entries), |VanishedIds(m, c, s, entries)|)
  }

  /** What a sync reports: nothing counts as deleted when the embedding failed first. */
  ghost function Report(m: Store, a: Attempt): RefreshCounts
  {
    var counts := Changes(m, a.refresh.campaignId, a.refresh.source, a.refresh.entries);
    if a.cut.None? then counts else counts.(deleted := 0)
  }

  /** Syncs one source: the store and the counts afterwards, whether or not the embedding call of batch `failAt` throws. */
  method SyncSource(embedder: Embedder, store: InMemoryMemoryStore, c: string, s: MemorySource, now: int,
                    current: seq<CurrentEntry>, failAt: Option<nat>) returns (report: RefreshCounts, ok: bool)
    requires store.Valid() && WellKeyed(Contents(store.records)) && s != Compendium
    modifies store
    ensures store.Valid()
    ensures var r, before := Refresh(c, s, now, current), old(Contents(store.records));
      var attempt := Attempt(r, Cut(embedder, before, r, failAt));
      && (ok <==> attempt.cut.None?)
      && report == Report(before, attempt)
      && Contents(store.records) == Attempted(embedder, before, attempt)
  {
    hide Contents, Synced, IngestRecords, Prefix, VanishedIds, PutAllMap, IsAdded, IsUpdated, NeedsIngest, WellKeyed, RecordId, Selects;
    ghost var m := Contents(store.records);
    ghost var written := Written(embedder, m, c, s, now, current);
    var existing := store.ByMetadata(c, MetadataFilter(None, None, None, Some(s), None), true);
    var byFoundry := Index(existing);
    forall f ensures Get(byFoundry, f) == SlotAt(m, c, s, f) {
      SlotsFound(store.lower, store.records, c, s, f);
    }
    var toIngest, added, updated, seen := Plan(m, c, s, byFoundry, current);
    report := RefreshCounts(added, updated, 0);
    if |toIngest| > 0 {
      var _, done := IngestColdEntries(embedder, store, c, now, Project(ToCold(c, s), toIngest), BATCH_SIZE, failAt);
      if !done {
        PrefixWithin(written, BatchStart(failAt.value, BATCH_SIZE));
        return report, false;
      }
      assert written[..|written|] == written;
    } else {
      NothingWritten(embedder, m, c, s, now, current);
    }
    assert Contents(store.records) == Ingested(embedder, m, c, s, now, current);
    var tombstones := Bury(m, c, s, byFoundry, current, seen);
    BurialsSync(embedder, m, c, s, now, current, tombstones);
    if |tombstones| > 0 {
      store.Upsert(tombstones);
    } else {
      NothingPutAtAll(Contents(store.records), tombstones);
    }
    report := RefreshCounts(added, updated, |tombstones|);
    ok := true;
  }

  lemma PrefixWithin<R>(rows: seq<R>, k: nat)
    requires k <= |rows|
    ensures Prefix(rows, k) == rows[..k]
  {
  }

  lemma NothingPutAtAll(m: Store, rs: seq<MemoryRecord>)
    requires |rs| == 0
    ensures PutAllMap(m, rs) == m
  {
  }

  lemma NothingWritten(embedder: Embedder, m: Store, c: string, s: MemorySource, now: int, entries: seq<CurrentEntry>)
    requires |Filter(NeedsIngest(m, c, s), entries)| == 0
    ensures Ingested(embedder, m, c, s, now, entries) == m && |Written(embedder, m, c, s, now, entries)| == 0
  {
  }

  method Index(existing: seq<MemoryRecord>) returns (byFoundry: map<string, MemoryRecord>)
    ensures byFoundry == ByFoundry(existing)
  {
    byFoundry := map[];
    for i := 0 to |existing|
      invariant byFoundry == ByFoundry(existing[..i])
    {
      assert existing[..i + 1][..i] == existing[..i];
      var r := existing[i];
      if r.metadata.foundryId.Some? { byFoundry := byFoundry[r.metadata.foundryId.value := r]; }
    }
    assert existing[..|existing|] == existing;
  }

  method Plan(ghost m: Store, c: string, s: MemorySource, byFoundry: map<string, MemoryRecord>, current: seq<CurrentEntry>)
    returns (toIngest: seq<CurrentEntry>, added: nat, updated: nat, seen: set<string>)
    requires forall f :: Get(byFoundry, f) == SlotAt(m, c, s, f)
    ensures toIngest == Filter(NeedsIngest(m, c, s), current) && seen == Ids(current)
    ensures added == Count(IsAdded(m, c, s), current) && updated == Count(IsUpdated(m, c, s), current)
  {
    hide Filter, Count, SlotAt;
    toIngest, added, updated, seen := [], 0, 0, {};
    assert current[..0] == [];
    EmptyPlan(m, c, s);
    for i := 0 to |current|
      invariant toIngest == Filter(NeedsIngest(m, c, s), current[..i]) && seen == Ids(current[..i])
      invariant added == Count(IsAdded(m, c, s), current[..i]) && updated == Count(IsUpdated(m, c, s), current[..i])
    {
      var entry := current[i];
      assert current[..i + 1] == current[..i] + [entry];
      FilterSnoc(NeedsIngest(m, c, s), current[..i], entry);
      CountSnoc(IsAdded(m, c, s), current[..i], entry);
      CountSnoc(IsUpdated(m, c, s), current[..i], entry);
      assert Get(byFoundry, entry.foundryId) == SlotAt(m, c, s, entry.foundryId);
      seen := seen + {entry.foundryId};
      if entry.foundryId !in byFoundry || Tombstoned(byFoundry[entry.foundryId]) {
        toIngest := toIngest + [entry];
        added := added + 1;
      } else if ShouldUpdate(entry.lastModified, byFoundry[entry.foundryId].metadata.lastModified) {
        toIngest := toIngest + [entry];
        updated := updated + 1;
      }
    }
    assert current[..|current|] == current;
  }

  lemma EmptyPlan(m: Store, c: string, s: MemorySource)
    ensures Filter(NeedsIngest(m, c, s), []) == []
    ensures Count(IsAdded(m, c, s), []) == 0 && Count(IsUpdated(m, c, s), []) == 0
  {
  }

  /** The vanished records whose entries have been visited. */
  ghost function GoneBut(m: Store, c: string, s: MemorySource, entries: seq<CurrentEntry>, todo: set<string>): set<string>
  {
    set id | id in m && Vanished(m, c, s, entries, id) && m[id].metadata.foundryId.value !in todo
  }

  /** Tombstone what is no longer read; the order of the visits does not matter. */
  method Bury(ghost m: Store, c: string, s: MemorySource, byFoundry: map<string, MemoryRecord>, ghost current: seq<CurrentEntry>,
              seen: set<string>) returns (tombstones: seq<MemoryRecord>)
    requires forall f :: Get(byFoundry, f) == SlotAt(m, c, s, f)
    requires WellKeyed(m) && s != Compendium && seen == Ids(current)
    ensures Burials(m, VanishedIds(m, c, s, current), tombstones)
  {
    hide RecordId, WellKeyed, Ids, GoneBut, Burials, SlotAt;
    tombstones := [];
    var todo := byFoundry.Keys;
    AllIndexed(m, c, s, byFoundry, current);
    NoBurials(m);
    while todo != {}
      invariant todo <= byFoundry.Keys && Burials(m, GoneBut(m, c, s, current, todo), tombstones)
      decreases |todo|
    {
      var f :| f in todo;
      var rec := byFoundry[f];
      assert Get(byFoundry, f) == SlotAt(m, c, s, f);
      Visited(m, c, s, current, todo, f);
      BurialsGrow(m, GoneBut(m, c, s, current, todo), tombstones, rec);
      todo := todo - {f};
      if f !in seen && !Tombstoned(rec) { tombstones := tombstones + [Buried(rec)]; }
    }
    AllVisited(m, c, s, current);
  }

  lemma AllVisited(m: Store, c: string, s: MemorySource, entries: seq<CurrentEntry>)
    ensures GoneBut(m, c, s, entries, {}) == VanishedIds(m, c, s, entries)
  {
  }

  lemma NoBurials(m: Store)
    ensures Burials(m, {}, [])
  {
  }

  lemma BurialsGrow(m: Store, gone: set<string>, tombstones: seq<MemoryRecord>, rec: MemoryRecord)
    requires Burials(m, gone, tombstones) && rec.id in m && m[rec.id] == rec && rec.id !in gone
    ensures Burials(m, gone + {rec.id}, tombstones + [Buried(rec)]) && gone + {} == gone
  {
    assert |gone + {rec.id}| == |gone| + 1;
    forall id | id in gone + {rec.id}
      ensures Buried(m[id]) in tombstones + [Buried(rec)]
    {
      if id == rec.id { assert (tombstones + [Buried(rec)])[|tombstones|] == Buried(rec); }
    }
  }

  lemma AllIndexed(m: Store, c: string, s: MemorySource, byFoundry: map<string, MemoryRecord>, entries: seq<CurrentEntry>)
    requires forall f :: Get(byFoundry, f) == SlotAt(m, c, s, f)
    requires WellKeyed(m) && s != Compendium
    ensures GoneBut(m, c, s, entries, byFoundry.Keys) == {}
  {
    hide RecordId, Ids;
    forall id | id in m && Vanished(m, c, s, entries, id)
      ensures m[id].metadata.foundryId.value in byFoundry
    {
      assert KeyedAt(m, id);
      assert Get(byFoundry, m[id].metadata.foundryId.value).Some?;
    }
  }

  lemma Visited(m: Store, c: string, s: MemorySource, entries: seq<CurrentEntry>, todo: set<string>, f: string)
    requires WellKeyed(m) && s != Compendium && f in todo && SlotAt(m, c, s, f).Some?
    ensures var rec := SlotAt(m, c, s, f).value;
      && rec.id in m && m[rec.id] == rec && rec.id !in GoneBut(m, c, s, entries, todo)
      && GoneBut(m, c, s, entries, todo - {f})
      == GoneBut(m, c, s, entries, todo) + (if f !in Ids(entries) && !Tombstoned(rec) then {rec.id} else {})
  {
    hide RecordId, Ids;
    var id := RecordId(c, s, f);
    assert KeyedAt(m, id);
    forall x | x in m && Vanished(m, c, s, entries, x) && m[x].metadata.foundryId.value == f
      ensures x == id
    {
      assert KeyedAt(m, x);
    }
  }

  // ---- one refresh over the four sources ----

  const SOURCES: seq<MemorySource> := [WorldJournal, WorldScene, WorldCreature, WorldActorItem]

  type Reader = MemorySource -> Option<seq<CurrentEntry>>

  /** A failed read counts as an empty one. */
  function Loaded(read: Reader, s: MemorySource): seq<CurrentEntry>
  {
    if read(s).Some? then read(s).value else []
  }

  function FailedReads(read: Reader): MemorySource -> bool
  {
    (s: MemorySource) => read(s).None?
  }

  type Faults = MemorySource -> Option<nat>

  /** The first `n` attempts of a run; each is cut where its embedding fails in the store its predecessors left. */
  ghost function Attempts(embedder: Embedder, m: Store, c: string, now: int, read: Reader, failAt: Faults, n: nat): seq<Attempt>
    requires n <= |SOURCES|
  {
    if n == 0 then []
    else
      var earlier := Attempts(embedder, m, c, now, read, failAt, n - 1);
      var r := Refresh(c, SOURCES[n - 1], now, Loaded(read, SOURCES[n - 1]));
      earlier + [Attempt(r, Cut(embedder, AfterAll(embedder, m, earlier), r, failAt(r.source)))]
  }

  ghost function Cuts(attempts: seq<Attempt>): seq<MemorySource>
  {
    if |attempts| == 0 then []
    else
      var last := attempts[|attempts| - 1];
      Cuts(attempts[..|attempts| - 1]) + (if last.cut.Some? then [last.refresh.source] else [])
  }

  /** Every attempted source is reported against the store it found. */
  ghost predicate Reported(embedder: Embedder, m: Store, attempts: seq<Attempt>, perSource: map<MemorySource, RefreshCounts>)
  {
    && (forall k: nat :: k < |attempts| ==>
          Get(perSource, attempts[k].refresh.source) == Some(ReportAt(embedder, m, attempts, k)))
    && (forall s :: s in perSource ==> exists k: nat :: k < |attempts| && attempts[k].refresh.source == s)
  }

  ghost function ReportAt(embedder: Embedder, m: Store, attempts: seq<Attempt>, k: nat): RefreshCounts
    requires k < |attempts|
  {
    Report(AfterAll(embedder, m, attempts[..k]), attempts[k])
  }

  /**
   * Reads all sources, then syncs them in turn. The store, the counts and the errors are those
   * of the four attempts, however many of them a failing embedding call cuts short.
   */
  method RunRefresh(embedder: Embedder, store: InMemoryMemoryStore, c: string, now: int, read: Reader, failAt: Faults)
    returns (perSource: map<MemorySource, RefreshCounts>, errors: seq<MemorySource>)
    requires store.Valid() && WellKeyed(Contents(store.records))
    modifies store
    ensures store.Valid() && WellKeyed(Contents(store.records))
    ensures var attempts := Attempts(embedder, old(Contents(store.records)), c, now, read, failAt, |SOURCES|);
      && Contents(store.records) == AfterAll(embedder, old(Contents(store.records)), attempts)
      && Reported(embedder, old(Contents(store.records)), attempts, perSource)
      && errors == Filter(FailedReads(read), SOURCES) + Cuts(attempts)
  {
    hide Contents, Attempted, Report, WellKeyed, Filter, Reported, Cut, AfterAll, Cuts;
    ghost var m := Contents(store.records);
    ghost var attempts: seq<Attempt> := [];
    errors := Filter(FailedReads(read), SOURCES);
    perSource := map[];
    NothingReported(embedder, m);
    var i := 0;
    while i < |SOURCES|
      invariant 0 <= i <= |SOURCES|
      invariant store.Valid() && WellKeyed(Contents(store.records))
      invariant attempts == Attempts(embedder, m, c, now, read, failAt, i)
      invariant |attempts| == i && forall k :: 0 <= k < i ==> attempts[k].refresh.source == SOURCES[k]
      invariant Contents(store.records) == AfterAll(embedder, m, attempts)
      invariant Reported(embedder, m, attempts, perSource)
      invariant errors == Filter(FailedReads(read), SOURCES) + Cuts(attempts)
    {
      var s := SOURCES[i];
      ghost var before := Contents(store.records);
      ghost var r := Refresh(c, s, now, Loaded(read, s));
      ghost var attempt := Attempt(r, Cut(embedder, before, r, failAt(s)));
      var report, ok := SyncSource(embedder, store, c, s, now, Loaded(read, s), failAt(s));
      AttemptKeepsKeys(embedder, before, attempt);
      AfterAllSnoc(embedder, m, attempts, attempt);
      OneMoreReported(embedder, m, attempts, attempt, perSource);
      OneMoreCut(errors, Filter(FailedReads(read), SOURCES), attempts, attempt);
      if !ok { errors := errors + [s]; }
      perSource := perSource[s := report];
      attempts := attempts + [attempt];
      i := i + 1;
    }
  }

  lemma NothingReported(embedder: Embedder, m: Store)
    ensures Reported(embedder, m, [], map[]) && AfterAll(embedder, m, []) == m && Cuts([]) == []
  {
  }

  lemma OneMoreCut(errors: seq<MemorySource>, failed: seq<MemorySource>, attempts: seq<Attempt>, last: Attempt)
    requires errors == failed + Cuts(attempts)
    ensures failed + Cuts(attempts + [last]) == if last.cut.Some? then errors + [last.refresh.source] else errors
  {
    assert (attempts + [last])[..|attempts|] == attempts;
  }

  lemma OneMoreReported(embedder: Embedder, m: Store, attempts: seq<Attempt>, last: Attempt,
                        perSource: map<MemorySource, RefreshCounts>)
    requires Reported(embedder, m, attempts, perSource)
    requires forall k: nat :: k < |attempts| ==> attempts[k].refresh.source != last.refresh.source
    ensures Reported(embedder, m, attempts + [last],
                     perSource[last.refresh.source := Report(AfterAll(embedder, m, attempts), last)])
  {
    hide Report, AfterAll;
    var all := attempts + [last];
    var after := perSource[last.refresh.source := Report(AfterAll(embedder, m, attempts), last)];
    assert all[..|attempts|] == attempts && all[|attempts|] == last;
    forall k: nat | k < |all|
      ensures Get(after, all[k].refresh.source) == Some(ReportAt(embedder, m, all, k))
    {
      if k < |attempts| {
        assert all[..k] == attempts[..k];
        assert ReportAt(embedder, m, all, k) == ReportAt(embedder, m, attempts, k);
      }
    }
    forall s | s in after
      ensures exists k: nat :: k < |all| && all[k].refresh.source == s
    {
      if s in perSource {
        var k: nat :| k < |attempts| && attempts[k].refresh.source == s;
        assert all[k].refresh.source == s;
      }
    }
  }
}
