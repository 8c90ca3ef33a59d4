/**
 * Incremental world index (orchestrator/src/autosetup/index-refresh.ts) over
 * cold-tier ingestion (orchestrator/src/memory/ingest.ts).
 */
module IndexRefresh {
  import opened Options
  import opened Seqs
  import opened Tables
  import opened Text
  import opened MemoryStore

  datatype ColdEntry = ColdEntry(id: string, text: string, deltas: Option<map<string, Json>>,
                                 source: Option<MemorySource>, foundryId: Option<string>, lastModified: Option<string>,
                                 location: Option<string>, quest: Option<string>, keywords: Option<seq<string>>)

  /** The embedding provider: a vector per text. */
  datatype Embedder = Embedder(name: string, embed: string -> seq<real>)

  function Usable(): ColdEntry -> bool
  {
    (e: ColdEntry) => |Trim(e.text)| > 0
  }

  function ToRecord(embedder: Embedder, campaignId: string, now: int): ColdEntry -> MemoryRecord
  {
    (e: ColdEntry) =>
      MemoryRecord("cold-" + e.id, Cold, e.text, embedder.embed(e.text),
                   Metadata(campaignId, None, now, embedder.name, None, e.deltas, e.source, e.foundryId,
                            e.lastModified, e.location, e.quest, e.keywords, None))
  }

  function IngestRecords(embedder: Embedder, campaignId: string, now: int, entries: seq<ColdEntry>): seq<MemoryRecord>
  {
    Project(ToRecord(embedder, campaignId, now), Filter(Usable(), entries))
  }

  lemma NextBatch<R, V>(view: R -> V, rows: seq<R>, i: nat, end: nat)
    requires i <= end <= |rows|
    ensures Project(view, rows)[..end] == Project(view, rows)[..i] + Project(view, rows[i..end])
  {
    hide Project;
    var all, next := Project(view, rows), Project(view, rows[i..end]);
    forall k: nat | k < end - i
      ensures next[k] == all[i..end][k]
    {
      assert rows[i..end][k] == rows[i + k];
    }
    assert next == all[i..end];
  }

  /** The index of the first record of a batch. */
  function BatchStart(batch: nat, size: nat): nat
  {
    batch * size
  }

  /** Embed and upsert batch by batch; if batch `failAt` throws, the run ends with the earlier batches stored. */
  method IngestColdEntries(embedder: Embedder, store: InMemoryMemoryStore, campaignId: string, now: int,
                           entries: seq<ColdEntry>, batchSize: nat, failAt: Option<nat>) returns (count: nat, ok: bool)
    requires store.Valid() && batchSize > 0
    modifies store
    ensures store.Valid() && count <= |IngestRecords(embedder, campaignId, now, entries)|
    ensures Contents(store.records)
         == PutAllMap(old(Contents(store.records)), IngestRecords(embedder, campaignId, now, entries)[..count])
    ensures ok <==> failAt.None? || BatchStart(failAt.value, batchSize) >= |IngestRecords(embedder, campaignId, now, entries)|
    ensures count == if ok then |IngestRecords(embedder, campaignId, now, entries)| else BatchStart(failAt.value, batchSize)
  {
    hide BatchStart, PutAllMap, Filter, Project, Contents;
    var usable := Filter(Usable(), entries);
    var view := ToRecord(embedder, campaignId, now);
    ghost var all := Project(view, usable);
    ghost var m := Contents(store.records);
    count := 0;
    var i, batches := 0, 0;
    NothingPut(m, all);
    NextStart(0, batchSize);
    while i < |usable|
      invariant store.Valid() && count == (if i <= |usable| then i else |usable|)
      invariant i == BatchStart(batches, batchSize) && (failAt.Some? ==> batches <= failAt.value)
      invariant Contents(store.records) == PutAllMap(m, all[..count])
      decreases |usable| - i
    {
      NextStart(batches, batchSize);
      if failAt == Some(batches) { return count, false; }
      var end := if i + batchSize <= |usable| then i + batchSize else |usable|;
      var records := Project(view, usable[i..end]);
      NextBatch(view, usable, i, end);
      PutAllConcat(m, all[..i], records);
      store.Upsert(records);
      count := count + |records|;
      i := i + batchSize;
      batches := batches + 1;
    }
    if failAt.Some? { BatchesBelow(batches, failAt.value, batchSize); }
    ok := true;
  }

  lemma BatchesBelow(a: nat, b: nat, size: nat)
    requires a <= b
    ensures BatchStart(a, size) <= BatchStart(b, size)
  {
  }

  lemma NextStart(a: nat, size: nat)
    ensures BatchStart(0, size) == 0 && BatchStart(a + 1, size) == BatchStart(a, size) + size
  {
  }

  lemma NothingPut(m: map<string, MemoryRecord>, all: seq<MemoryRecord>)
    ensures PutAllMap(m, all[..0]) == m
  {
  }

  // ---- world entries and their record ids ----

  datatype ExtractedKeys = ExtractedKeys(location: Option<string>, quest: Option<string>, keywords: seq<string>)

  datatype CurrentEntry = CurrentEntry(foundryId: string, lastModified: Option<string>, text: string, keys: ExtractedKeys)

  function SourceName(s: MemorySource): string
  {
    match s
    case Compendium => "compendium"
    case WorldJournal => "world-journal"
    case WorldScene => "world-scene"
    case WorldCreature => "world-creature"
    case WorldActorItem => "world-actor-item"
  }

  function EntryId(c: string, s: MemorySource, fid: string): string
  {
    c + ":" + SourceName(s) + ":" + fid
  }

  function RecordId(c: string, s: MemorySource, fid: string): string
  {
    "cold-" + EntryId(c, s, fid)
  }

  function ToCold(c: string, s: MemorySource): CurrentEntry -> ColdEntry
  {
    (e: CurrentEntry) =>
      ColdEntry(EntryId(c, s, e.foundryId), e.text, None, Some(s), Some(e.foundryId), e.lastModified,
                e.keys.location, e.keys.quest, Some(e.keys.keywords))
  }

  /** The record an entry of source `s` becomes. */
  function Fresh(embedder: Embedder, c: string, s: MemorySource, now: int, e: CurrentEntry): MemoryRecord
  {
    ToRecord(embedder, c, now)(ToCold(c, s)(e))
  }

  lemma DropPrefix(p: string, a: string, b: string)
    requires p + a == p + b
    ensures a == b
  {
    assert (p + a)[|p|..] == a && (p + b)[|p|..] == b;
  }

  lemma RecordIdNamesEntry(c: string, s: MemorySource, a: string, b: string)
    requires RecordId(c, s, a) == RecordId(c, s, b)
    ensures a == b
  {
    DropPrefix("cold-", EntryId(c, s, a), EntryId(c, s, b));
    DropPrefix(c + ":" + SourceName(s) + ":", a, b);
  }

  predicate Colonless(s: string)
  {
    forall i :: 0 <= i < |s| ==> s[i] != ':'
  }

  /** A string is cut at its first colon in one way only. */
  lemma FirstColon(a: string, x: string, b: string, y: string)
    requires Colonless(a) && Colonless(b) && a + ":" + x == b + ":" + y
    ensures a == b && x == y
  {
    var w := a + ":" + x;
    assert w[|a|] == ':' && w[|b|] == ':';
    assert forall i :: 0 <= i < |a| ==> w[i] == a[i];
    assert forall i :: 0 <= i < |b| ==> w[i] == b[i];
    assert |a| == |b|;
    assert w[..|a|] == a && w[..|b|] == b;
    assert w[|a| + 1..] == x && w[|b| + 1..] == y;
  }

  lemma SourceNames(s: MemorySource, s': MemorySource)
    ensures Colonless(SourceName(s))
    ensures SourceName(s) == SourceName(s') ==> s == s'
  {
    assert forall t: MemorySource :: |SourceName(t)| > 7;
    assert SourceName(Compendium)[7] == 'i';
    assert SourceName(WorldJournal)[6] == 'j';
    assert SourceName(WorldScene)[6] == 's';
    assert SourceName(WorldCreature)[6] == 'c';
    assert SourceName(WorldActorItem)[6] == 'a';
    assert SourceName(Compendium)[6] == 'd';
  }

  /** Within one campaign record ids tell sources and entries apart, whatever the campaign id holds. */
  lemma SameCampaignInjective(c: string, s: MemorySource, f: string, s': MemorySource, f': string)
    requires RecordId(c, s, f) == RecordId(c, s', f')
    ensures s == s' && f == f'
  {
    hide SourceName, Colonless;
    var n, n' := SourceName(s), SourceName(s');
    DropPrefix("cold-", EntryId(c, s, f), EntryId(c, s', f'));
    Nested(c, n, f);
    Nested(c, n', f');
    DropPrefix(c + ":", n + ":" + f, n' + ":" + f');
    SourceNames(s, s');
    SourceNames(s', s);
    FirstColon(n, f, n', f');
  }

  /** Campaign id `c` continues `c'` with the name of an indexed source, up to its end or to a colon. */
  predicate NestsIn(c: string, c': string)
  {
    exists n: MemorySource :: n != Compendium && StartsWith(c + ":", c' + ":" + SourceName(n) + ":")
  }

  /** The campaign ids that can share record ids. */
  predicate Entangled(c: string, c': string)
  {
    c != c' && (NestsIn(c, c') || NestsIn(c', c))
  }

  ghost predicate Collide(c: string, s: MemorySource, f: string, c': string, s': MemorySource, f': string)
  {
    s != Compendium && s' != Compendium && RecordId(c, s, f) == RecordId(c', s', f')
  }

  /** `x + ":" + y` with a colonless name in front on the other side. */
  lemma NameInFront(t: string, y: string, n: string, z: string)
    requires Colonless(n) && t + ":" + y == n + ":" + z
    ensures StartsWith(t + ":", n + ":")
  {
    var w := t + ":" + y;
    assert w == (n + ":") + z;
    assert w[|n|] == ':' && w[|t|] == ':';
    assert forall i :: 0 <= i < |n| ==> w[i] == n[i];
    assert |n| <= |t|;
    assert (t + ":")[..|n| + 1] == w[..|n| + 1] == n + ":";
  }

  lemma LongerNests(c: string, s: MemorySource, f: string, c': string, s': MemorySource, f': string)
    requires s' != Compendium && |c'| < |c| && EntryId(c, s, f) == EntryId(c', s', f')
    ensures NestsIn(c, c')
  {
    hide SourceName, Colonless;
    var n, n' := SourceName(s), SourceName(s');
    Nested(c, n, f);
    Nested(c', n', f');
    var x, x' := n + ":" + f, n' + ":" + f';
    var w := c + ":" + x;
    assert w == c' + ":" + x' && w[|c'|] == ':' && c[|c'|] == ':';
    var t := c[|c'| + 1..];
    assert c[..|c'|] == w[..|c'|] == c';
    assert c == c' + ":" + t;
    DropPrefix(c' + ":", t + ":" + x, x');
    SourceNames(s', s');
    NameInFront(t, x, n', f');
    Rejoin(c', t, n');
  }

  lemma Rejoin(c: string, t: string, n: string)
    requires StartsWith(t + ":", n + ":")
    ensures StartsWith(c + ":" + t + ":", c + ":" + n + ":")
  {
    var w, p := c + ":" + t + ":", c + ":" + n + ":";
    assert w == (c + ":") + (t + ":") && p == (c + ":") + (n + ":");
    assert w[..|p|] == (c + ":") + (t + ":")[..|n| + 1];
  }

  lemma CollisionsNest(c: string, s: MemorySource, f: string, c': string, s': MemorySource, f': string)
    requires c != c' && Collide(c, s, f, c', s', f')
    ensures Entangled(c, c')
  {
    hide SourceName, NestsIn;
    DropPrefix("cold-", EntryId(c, s, f), EntryId(c', s', f'));
    if |c'| < |c| {
      LongerNests(c, s, f, c', s', f');
    } else if |c| < |c'| {
      LongerNests(c', s', f', c, s, f);
    } else {
      assert EntryId(c, s, f)[..|c|] == c && EntryId(c', s', f')[..|c'|] == c';
    }
  }

  lemma NestingCollides(c: string, c': string)
    requires NestsIn(c, c')
    ensures exists s, f, s', f' :: Collide(c, s, f, c', s', f')
  {
    var n: MemorySource :| n != Compendium && StartsWith(c + ":", c' + ":" + SourceName(n) + ":");
    hide Collide, SourceName;
    var rest := Remainder(c + ":", c' + ":" + SourceName(n) + ":");
    ContinuationCollides(c, c', n, rest);
  }

  lemma Remainder(s: string, p: string) returns (rest: string)
    requires StartsWith(s, p)
    ensures s == p + rest
  {
    rest := s[|p|..];
  }

  lemma ContinuationCollides(c: string, c': string, n: MemorySource, rest: string)
    requires n != Compendium && c + ":" == c' + ":" + SourceName(n) + ":" + rest
    ensures Collide(c, WorldJournal, "x", c', n, rest + SourceName(WorldJournal) + ":" + "x")
  {
    hide Collide, SourceName;
    SameEntry(c, c', SourceName(n), rest, SourceName(WorldJournal));
    EntriesCollide(c, WorldJournal, "x", c', n, rest + SourceName(WorldJournal) + ":" + "x");
  }

  lemma EntriesCollide(c: string, s: MemorySource, f: string, c': string, s': MemorySource, f': string)
    requires s != Compendium && s' != Compendium && EntryId(c, s, f) == EntryId(c', s', f')
    ensures Collide(c, s, f, c', s', f')
  {
    hide EntryId;
  }

  lemma SameEntry(c: string, c': string, n: string, rest: string, name: string)
    requires c + ":" == c' + ":" + n + ":" + rest
    ensures c + ":" + name + ":" + "x" == c' + ":" + n + ":" + (rest + name + ":" + "x")
  {
    var p := c' + ":" + n + ":";
    Assoc(p, rest, name);
    Assoc(p, rest + name, ":");
    Assoc(p, rest + name + ":", "x");
  }

  /** Two campaigns can share a record id exactly when one id continues the other with a source name. */
  lemma CampaignsCollideExactly(c: string, c': string)
    requires c != c'
    ensures (exists s, f, s', f' :: Collide(c, s, f, c', s', f')) <==> Entangled(c, c')
  {
    hide Collide, NestsIn;
    if exists s, f, s', f' :: Collide(c, s, f, c', s', f') {
      var s, f, s', f' :| Collide(c, s, f, c', s', f');
      CollisionsNest(c, s, f, c', s', f');
    }
    if NestsIn(c, c') { NestingCollides(c, c'); }
    if NestsIn(c', c) {
      NestingCollides(c', c);
      var s', f', s, f :| Collide(c', s', f', c, s, f);
      Swapped(c', s', f', c, s, f);
    }
  }

  lemma Swapped(c: string, s: MemorySource, f: string, c': string, s': MemorySource, f': string)
    requires Collide(c, s, f, c', s', f')
    ensures Collide(c', s', f', c, s, f)
  {
  }

  /** Record ids of indexed sources tell campaigns, sources and entries apart unless the campaigns are entangled. */
  lemma RecordIdInjective(c: string, s: MemorySource, f: string, c': string, s': MemorySource, f': string)
    requires s != Compendium && s' != Compendium && !Entangled(c, c') && RecordId(c, s, f) == RecordId(c', s', f')
    ensures c == c' && s == s' && f == f'
  {
    hide Entangled, RecordId;
    if c == c' {
      SameCampaignInjective(c, s, f, s', f');
    } else {
      CollisionsNest(c, s, f, c', s', f');
    }
  }

  lemma Nested(c: string, n: string, f: string)
    ensures c + ":" + n + ":" + f == c + ":" + (n + ":" + f)
  {
  }

  /** With colons in a campaign id, two entries of two campaigns can share one record id. */
  lemma RecordIdsCollide()
    ensures RecordId("a:world-journal", WorldScene, "x") == RecordId("a", WorldJournal, "world-scene:x")
  {
    assert "a:world-journal" + ":" + "world-scene" + ":" + "x" == "a" + ":" + "world-journal" + ":" + "world-scene:x";
  }

  // ---- which entries are written ----

  /** Stamps are compared as strings. */
  predicate LexLess(a: string, b: string)
  {
    |b| > 0 && (|a| == 0 || a[0] < b[0] || (a[0] == b[0] && LexLess(a[1..], b[1..])))
  }

  predicate ShouldUpdate(current: Option<string>, stored: Option<string>)
  {
    current.Some? && (stored.None? || LexLess(stored.value, current.value))
  }

  /** `a` comes before `b` at index `k`: equal up to there, where `a` has ended or has the smaller character. */
  predicate EarlierAt(a: string, b: string, k: nat)
  {
    k <= |a| && k < |b| && (forall i :: 0 <= i < k ==> a[i] == b[i]) && (k == |a| || a[k] < b[k])
  }

  ghost predicate Earlier(a: string, b: string)
  {
    exists k: nat :: EarlierAt(a, b, k)
  }

  /** A stamp is newer than another when the other comes before it, and than none at all; no stamp is newer than nothing. */
  ghost predicate Newer(current: Option<string>, stored: Option<string>)
  {
    current.Some? && (stored.None? || Earlier(stored.value, current.value))
  }

  /** A common first character put in front or taken off moves the place by one. */
  lemma EarlierShifts(a: string, b: string, k: nat)
    requires |a| > 0 && |b| > 0 && a[0] == b[0]
    ensures EarlierAt(a, b, k + 1) <==> EarlierAt(a[1..], b[1..], k)
  {
    assert forall i :: 1 <= i < |a| ==> a[i] == a[1..][i - 1];
    assert forall i :: 1 <= i < |b| ==> b[i] == b[1..][i - 1];
  }

  lemma {:induction false} LexLessExactly(a: string, b: string)
    ensures LexLess(a, b) <==> Earlier(a, b)
    decreases |a|
  {
    hide EarlierAt;
    if |a| > 0 && |b| > 0 && a[0] == b[0] {
      LexLessExactly(a[1..], b[1..]);
      NotAtFront(a, b);
      if k: nat :| EarlierAt(a[1..], b[1..], k) { EarlierShifts(a, b, k); }
      if k: nat :| EarlierAt(a, b, k) { EarlierShifts(a, b, k - 1); }
    } else {
      OnlyAtFront(a, b);
    }
  }

  lemma NotAtFront(a: string, b: string)
    requires |a| > 0 && |b| > 0 && a[0] == b[0]
    ensures !EarlierAt(a, b, 0)
  {
  }

  lemma OnlyAtFront(a: string, b: string)
    requires |a| == 0 || |b| == 0 || a[0] != b[0]
    ensures forall k: nat :: EarlierAt(a, b, k) ==> k == 0
    ensures EarlierAt(a, b, 0) <==> |b| > 0 && (|a| == 0 || a[0] < b[0])
  {
  }

  lemma ShouldUpdateExactly(current: Option<string>, stored: Option<string>)
    ensures ShouldUpdate(current, stored) <==> Newer(current, stored)
  {
    if current.Some? && stored.Some? { LexLessExactly(stored.value, current.value); }
  }

  lemma {:induction false} NeverLessThanItself(a: string)
    ensures !LexLess(a, a)
  {
    if |a| > 0 { NeverLessThanItself(a[1..]); }
  }

  predicate Belongs(r: MemoryRecord, c: string, s: MemorySource, fid: string)
  {
    r.metadata.campaignId == c && r.metadata.source == Some(s) && r.metadata.foundryId == Some(fid)
  }

  type Store = map<string, MemoryRecord>

  /** The stored record of an entry, tombstoned or not. */
  function SlotAt(m: Store, c: string, s: MemorySource, fid: string): Option<MemoryRecord>
  {
    var id := RecordId(c, s, fid);
    if id in m && Belongs(m[id], c, s, fid) then Some(m[id]) else None
  }

  function LiveAt(m: Store, c: string, s: MemorySource, fid: string): Option<MemoryRecord>
  {
    var slot := SlotAt(m, c, s, fid);
    if slot.Some? && Tombstoned(slot.value) then None else slot
  }

  ghost predicate KeyedAt(m: Store, id: string)
    requires id in m
  {
    && m[id].id == id
    && (m[id].metadata.source.Some? && m[id].metadata.source != Some(Compendium) && m[id].metadata.foundryId.Some? ==>
          id == RecordId(m[id].metadata.campaignId, m[id].metadata.source.value, m[id].metadata.foundryId.value))
  }

  /** Every indexed record sits under its own id. */
  ghost predicate WellKeyed(m: Store)
  {
    forall id :: id in m ==> KeyedAt(m, id)
  }

  function NeedsIngest(m: Store, c: string, s: MemorySource): CurrentEntry -> bool
  {
    (e: CurrentEntry) =>
      var live := LiveAt(m, c, s, e.foundryId);
      live.None? || ShouldUpdate(e.lastModified, live.value.metadata.lastModified)
  }

  function IsAdded(m: Store, c: string, s: MemorySource): CurrentEntry -> bool
  {
    (e: CurrentEntry) => LiveAt(m, c, s, e.foundryId).None?
  }

  function IsUpdated(m: Store, c: string, s: MemorySource): CurrentEntry -> bool
  {
    (e: CurrentEntry) => !IsAdded(m, c, s)(e) && NeedsIngest(m, c, s)(e)
  }

  function Ids(entries: seq<CurrentEntry>): set<string>
  {
    set e | e in entries :: e.foundryId
  }

  function Written(embedder: Embedder, m: Store, c: string, s: MemorySource, now: int, entries: seq<CurrentEntry>): seq<MemoryRecord>
  {
    IngestRecords(embedder, c, now, Project(ToCold(c, s), Filter(NeedsIngest(m, c, s), entries)))
  }

  /** The live record `id` belongs to this campaign and source. */
  ghost predicate Listed(m: Store, c: string, s: MemorySource, id: string)
  {
    id in m && !Tombstoned(m[id]) && m[id].metadata.campaignId == c && m[id].metadata.source == Some(s)
    && m[id].metadata.foundryId.Some?
  }

  ghost predicate Vanished(m: Store, c: string, s: MemorySource, entries: seq<CurrentEntry>, id: string)
  {
    Listed(m, c, s, id) && m[id].metadata.foundryId.value !in Ids(entries)
  }

  ghost function VanishedIds(m: Store, c: string, s: MemorySource, entries: seq<CurrentEntry>): set<string>
  {
    set id | id in m && Vanished(m, c, s, entries, id)
  }

  function Buried(r: MemoryRecord): MemoryRecord
  {
    r.(metadata := r.metadata.(tombstoned := Some(true)))
  }

  ghost function Ingested(embedder: Embedder, m: Store, c: string, s: MemorySource, now: int, entries: seq<CurrentEntry>): Store
  {
    PutAllMap(m, Written(embedder, m, c, s, now, entries))
  }

  /** The store after syncing one source. */
  ghost function Synced(embedder: Embedder, m: Store, c: string, s: MemorySource, now: int, entries: seq<CurrentEntry>): Store
  {
    var ingested := Ingested(embedder, m, c, s, now, entries);
    map id | id in ingested :: if Vanished(m, c, s, entries, id) then Buried(m[id]) else ingested[id]
  }

  // ---- what each slot holds afterwards ----

  ghost predicate Distinct(entries: seq<CurrentEntry>)
  {
    forall i, j :: 0 <= i < j < |entries| ==> entries[i].foundryId != entries[j].foundryId
  }

  predicate Speaks(e: CurrentEntry)
  {
    |Trim(e.text)| > 0
  }

  lemma ProjectMembers<R, V>(view: R -> V, rows: seq<R>)
    ensures forall y :: y in Project(view, rows) ==> exists x :: x in rows && y == view(x)
    ensures forall x :: x in rows ==> view(x) in Project(view, rows)
  {
    hide Project;
    var all := Project(view, rows);
    forall y | y in all
      ensures exists x :: x in rows && y == view(x)
    {
      var i :| 0 <= i < |all| && all[i] == y;
      assert rows[i] in rows;
    }
    forall x | x in rows
      ensures view(x) in all
    {
      var i :| 0 <= i < |rows| && rows[i] == x;
      assert all[i] == view(x);
    }
  }

  ghost predicate WrittenFor(embedder: Embedder, m: Store, c: string, s: MemorySource, now: int, e: CurrentEntry, r: MemoryRecord)
  {
    NeedsIngest(m, c, s)(e) && Speaks(e) && r == Fresh(embedder, c, s, now, e)
  }

  lemma WrittenMembers(embedder: Embedder, m: Store, c: string, s: MemorySource, now: int, entries: seq<CurrentEntry>)
    ensures forall r :: r in Written(embedder, m, c, s, now, entries) ==>
      exists e :: e in entries && WrittenFor(embedder, m, c, s, now, e, r)
    ensures forall e :: e in entries && NeedsIngest(m, c, s)(e) && Speaks(e) ==>
      Fresh(embedder, c, s, now, e) in Written(embedder, m, c, s, now, entries)
  {
    hide Filter, Project, NeedsIngest, Trim;
    var chosen := Filter(NeedsIngest(m, c, s), entries);
    ProjectMembers(ToCold(c, s), chosen);
    var cold := Project(ToCold(c, s), chosen);
    var usable := Filter(Usable(), cold);
    ProjectMembers(ToRecord(embedder, c, now), usable);
    forall r | r in Written(embedder, m, c, s, now, entries)
      ensures exists e :: e in entries && WrittenFor(embedder, m, c, s, now, e, r)
    {
      var x :| x in usable && r == ToRecord(embedder, c, now)(x);
      var e :| e in chosen && x == ToCold(c, s)(e);
      assert WrittenFor(embedder, m, c, s, now, e, r);
    }
  }

  lemma SameFoundryId(entries: seq<CurrentEntry>, e: CurrentEntry, x: CurrentEntry)
    requires Distinct(entries) && e in entries && x in entries && x.foundryId == e.foundryId
    ensures x == e
  {
  }

  lemma IngestedSlot(embedder: Embedder, m: Store, c: string, s: MemorySource, now: int, entries: seq<CurrentEntry>, e: CurrentEntry)
    requires Distinct(entries) && e in entries
    ensures Get(Ingested(embedder, m, c, s, now, entries), RecordId(c, s, e.foundryId))
         == if NeedsIngest(m, c, s)(e) && Speaks(e) then Some(Fresh(embedder, c, s, now, e)) else Get(m, RecordId(c, s, e.foundryId))
  {
    hide NeedsIngest, Speaks, EntryId, Distinct, Written, PutAllMap;
    WrittenMembers(embedder, m, c, s, now, entries);
    var rs := Written(embedder, m, c, s, now, entries);
    var id := RecordId(c, s, e.foundryId);
    forall r | r in rs && r.id == id
      ensures WrittenFor(embedder, m, c, s, now, e, r)
    {
      var x :| x in entries && WrittenFor(embedder, m, c, s, now, x, r);
      RecordIdNamesEntry(c, s, x.foundryId, e.foundryId);
      SameFoundryId(entries, e, x);
    }
    if NeedsIngest(m, c, s)(e) && Speaks(e) {
      PutAllHits(m, rs, Fresh(embedder, c, s, now, e));
    } else {
      PutAllMisses(m, rs, id);
    }
  }

  lemma IngestedElsewhere(embedder: Embedder, m: Store, c: string, s: MemorySource, now: int, entries: seq<CurrentEntry>, id: string)
    requires forall e :: e in entries ==> id != RecordId(c, s, e.foundryId)
    ensures Get(Ingested(embedder, m, c, s, now, entries), id) == Get(m, id)
  {
    hide NeedsIngest, EntryId, Written, PutAllMap;
    WrittenMembers(embedder, m, c, s, now, entries);
    PutAllMisses(m, Written(embedder, m, c, s, now, entries), id);
  }

  lemma SyncedSlot(embedder: Embedder, m: Store, c: string, s: MemorySource, now: int, entries: seq<CurrentEntry>, id: string)
    ensures Get(Synced(embedder, m, c, s, now, entries), id)
         == if Vanished(m, c, s, entries, id) then Some(Buried(m[id])) else Get(Ingested(embedder, m, c, s, now, entries), id)
  {
    hide Written, PutAllMap;
    PutAllKeeps(m, Written(embedder, m, c, s, now, entries), id);
  }

  lemma {:induction false} PutAllKeeps(m: Store, rs: seq<MemoryRecord>, id: string)
    ensures id in m ==> id in PutAllMap(m, rs)
    decreases |rs|
  {
    if |rs| > 0 { PutAllKeeps(m[rs[0].id := rs[0]], rs[1..], id); }
  }

  lemma VanishedSlot(m: Store, c: string, s: MemorySource, entries: seq<CurrentEntry>, id: string)
    requires WellKeyed(m) && s != Compendium && Vanished(m, c, s, entries, id)
    ensures id == RecordId(c, s, m[id].metadata.foundryId.value)
    ensures forall e :: e in entries ==> id != RecordId(c, s, e.foundryId)
  {
    hide EntryId;
    forall e | e in entries
      ensures id != RecordId(c, s, e.foundryId)
    {
      if id == RecordId(c, s, e.foundryId) { RecordIdNamesEntry(c, s, e.foundryId, m[id].metadata.foundryId.value); }
    }
  }

  /** The live record of an entry after a sync: freshly written, or what was live before. */
  lemma LiveAfterSync(embedder: Embedder, m: Store, c: string, s: MemorySource, now: int, entries: seq<CurrentEntry>, e: CurrentEntry)
    requires WellKeyed(m) && s != Compendium && Distinct(entries) && e in entries
    ensures LiveAt(Synced(embedder, m, c, s, now, entries), c, s, e.foundryId)
         == if NeedsIngest(m, c, s)(e) && Speaks(e) then Some(Fresh(embedder, c, s, now, e)) else LiveAt(m, c, s, e.foundryId)
  {
    hide Speaks, NeedsIngest, WellKeyed, Distinct, Synced, EntryId, Vanished, Ingested;
    var id := RecordId(c, s, e.foundryId);
    SyncedSlot(embedder, m, c, s, now, entries, id);
    IngestedSlot(embedder, m, c, s, now, entries, e);
    if Vanished(m, c, s, entries, id) { VanishedSlot(m, c, s, entries, id); }
  }
}
