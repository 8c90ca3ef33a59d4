/** What syncing guarantees: agreement with the reading, frames, idempotence, and whole runs of refreshes. */
module IndexTheorems {
  import opened Options
  import opened Tables
  import opened Text
  import opened MemoryStore
  import opened IndexRefresh

  ghost predicate Reflects(r: Option<MemoryRecord>, e: CurrentEntry)
  {
    r.Some? && r.value.text == e.text && r.value.metadata.lastModified == e.lastModified
  }

  /** The live records of a campaign and source are exactly the entries read: ids, texts and stamps. */
  ghost predicate Agrees(m: Store, c: string, s: MemorySource, entries: seq<CurrentEntry>)
  {
    && (forall e :: e in entries ==> Reflects(LiveAt(m, c, s, e.foundryId), e))
    && (forall id :: Listed(m, c, s, id) ==> m[id].metadata.foundryId.value in Ids(entries))
  }

  /** An entry the sync will leave agreeing: it is written with its text, or was right before. */
  ghost predicate Settles(m: Store, c: string, s: MemorySource, e: CurrentEntry)
  {
    if NeedsIngest(m, c, s)(e) then Speaks(e) else Reflects(LiveAt(m, c, s, e.foundryId), e)
  }

  lemma StaleUnlessWritten(m: Store, c: string, s: MemorySource, e: CurrentEntry)
    requires NeedsIngest(m, c, s)(e)
    ensures !Reflects(LiveAt(m, c, s, e.foundryId), e)
  {
    if e.lastModified.Some? { NeverLessThanItself(e.lastModified.value); }
  }

  lemma NoneLeftOver(embedder: Embedder, m: Store, c: string, s: MemorySource, now: int, entries: seq<CurrentEntry>, id: string)
    requires Listed(Synced(embedder, m, c, s, now, entries), c, s, id)
    ensures Synced(embedder, m, c, s, now, entries)[id].metadata.foundryId.value in Ids(entries)
  {
    hide EntryId, SourceName, NeedsIngest, Speaks, PutAllMap, Synced, Ingested;
    SyncedSlot(embedder, m, c, s, now, entries, id);
    if forall e :: e in entries ==> id != RecordId(c, s, e.foundryId) {
      IngestedElsewhere(embedder, m, c, s, now, entries, id);
    } else {
      hide Written;
      Provenance(embedder, m, c, s, now, entries, id);
    }
  }

  /** A stored record is one the ingestion wrote, or it was there before. */
  lemma Provenance(embedder: Embedder, m: Store, c: string, s: MemorySource, now: int, entries: seq<CurrentEntry>, id: string)
    ensures Get(Ingested(embedder, m, c, s, now, entries), id) == Get(m, id)
         || exists e :: e in entries && id == RecordId(c, s, e.foundryId)
                        && Get(Ingested(embedder, m, c, s, now, entries), id) == Some(Fresh(embedder, c, s, now, e))
  {
    hide Written, EntryId, NeedsIngest, Speaks;
    WrittenMembers(embedder, m, c, s, now, entries);
    PutAllFrom(m, Written(embedder, m, c, s, now, entries), id);
  }

  lemma {:induction false} PutAllFrom(m: Store, rs: seq<MemoryRecord>, id: string)
    ensures Get(PutAllMap(m, rs), id) == Get(m, id) || exists r :: r in rs && r.id == id && Get(PutAllMap(m, rs), id) == Some(r)
    decreases |rs|
  {
    if |rs| > 0 { PutAllFrom(m[rs[0].id := rs[0]], rs[1..], id); }
  }

  /**
   * Exactly when a sync leaves the index agreeing with the reading: every entry that must be
   * written has text, and every other one already carried its text and stamp.
   */
  lemma SyncAgrees(embedder: Embedder, m: Store, c: string, s: MemorySource, now: int, entries: seq<CurrentEntry>)
    requires WellKeyed(m) && s != Compendium && Distinct(entries)
    ensures Agrees(Synced(embedder, m, c, s, now, entries), c, s, entries) <==> forall e :: e in entries ==> Settles(m, c, s, e)
  {
    hide EntryId, NeedsIngest, Speaks, Synced, LiveAt, WellKeyed, Distinct;
    var m' := Synced(embedder, m, c, s, now, entries);
    forall e | e in entries
      ensures Reflects(LiveAt(m', c, s, e.foundryId), e) <==> Settles(m, c, s, e)
    {
      LiveAfterSync(embedder, m, c, s, now, entries, e);
      if NeedsIngest(m, c, s)(e) { StaleUnlessWritten(m, c, s, e); }
    }
    forall id | Listed(m', c, s, id)
      ensures m'[id].metadata.foundryId.value in Ids(entries)
    {
      NoneLeftOver(embedder, m, c, s, now, entries, id);
    }
  }

  // ---- which entries have text ----

  predicate Says(part: Option<string>)
  {
    part.Some? && |Trim(part.value)| > 0
  }

  function Sayings(parts: seq<Option<string>>): seq<string>
  {
    if |parts| == 0 then []
    else if Says(parts[0]) then [parts[0].value] + Sayings(parts[1..]) else Sayings(parts[1..])
  }

  /** The text an entry is embedded under: its parts that are not blank, one a line, trimmed. */
  function EmbedText(parts: seq<Option<string>>): string
  {
    Trim(Join(Sayings(parts), "\n"))
  }

  lemma {:induction false} SayingsFound(parts: seq<Option<string>>)
    ensures |Sayings(parts)| > 0 <==> exists i :: 0 <= i < |parts| && Says(parts[i])
    ensures |Sayings(parts)| > 0 ==> |Trim(Sayings(parts)[0])| > 0
    decreases |parts|
  {
    hide Trim;
    if |parts| > 0 && !Says(parts[0]) {
      SayingsFound(parts[1..]);
      if exists i :: 0 <= i < |parts| && Says(parts[i]) {
        var i :| 0 <= i < |parts| && Says(parts[i]);
        assert parts[1..][i - 1] == parts[i];
      }
    }
  }

  lemma NotBlankAtFront(a: string, b: string)
    requires |Trim(a)| > 0
    ensures |Trim(a + b)| > 0
  {
    hide Trim, IsSpace;
    var pre, post := TrimSplits(a);
    var pre', post' := TrimSplits(a + b);
    var k := |pre|;
    assert a[k] == Trim(a)[0] && (a + b)[k] == a[k];
  }

  /** A world entry has text exactly when some part of it is not blank. */
  lemma EmbeddedSpeaks(parts: seq<Option<string>>, e: CurrentEntry)
    requires e.text == EmbedText(parts)
    ensures Speaks(e) <==> exists i :: 0 <= i < |parts| && Says(parts[i])
  {
    hide Trim, Says;
    var lines := Sayings(parts);
    SayingsFound(parts);
    TrimTwice(Join(lines, "\n"));
    if |lines| == 0 {
      NothingTrimmed();
    } else if |lines| > 1 {
      var rest := "\n" + Join(lines[1..], "\n");
      assert Join(lines, "\n") == lines[0] + rest;
      NotBlankAtFront(lines[0], rest);
    }
  }

  lemma NothingTrimmed()
    ensures Trim("") == ""
  {
  }

  /** Synced into an empty index, an entry is agreed with exactly when some part of it is not blank. */
  lemma BlankEntryIsLost(embedder: Embedder, c: string, s: MemorySource, now: int, parts: seq<Option<string>>, e: CurrentEntry)
    requires s != Compendium && e.text == EmbedText(parts)
    ensures Agrees(Synced(embedder, map[], c, s, now, [e]), c, s, [e]) <==> exists i :: 0 <= i < |parts| && Says(parts[i])
  {
    hide Agrees, Synced, Speaks, EmbedText, Says, RecordId;
    assert e in [e] && forall x :: x in [e] ==> x == e;
    assert Settles(map[], c, s, e) <==> Speaks(e);
    EmbeddedSpeaks(parts, e);
    SyncAgrees(embedder, map[], c, s, now, [e]);
  }

  lemma SyncKeepsKeys(embedder: Embedder, m: Store, c: string, s: MemorySource, now: int, entries: seq<CurrentEntry>)
    requires WellKeyed(m)
    ensures WellKeyed(Synced(embedder, m, c, s, now, entries))
  {
    hide EntryId, NeedsIngest, Speaks, Synced, Ingested;
    var m' := Synced(embedder, m, c, s, now, entries);
    forall id | id in m'
      ensures KeyedAt(m', id)
    {
      SyncedSlot(embedder, m, c, s, now, entries, id);
      Provenance(embedder, m, c, s, now, entries, id);
      assert id in m ==> KeyedAt(m, id);
    }
  }

  /** Only the ids of this campaign and source can change. */
  lemma SyncFrame(embedder: Embedder, m: Store, c: string, s: MemorySource, now: int, entries: seq<CurrentEntry>, id: string)
    requires WellKeyed(m) && s != Compendium && forall fid :: id != RecordId(c, s, fid)
    ensures Get(Synced(embedder, m, c, s, now, entries), id) == Get(m, id)
  {
    hide EntryId, Synced, Ingested;
    SyncedSlot(embedder, m, c, s, now, entries, id);
    IngestedElsewhere(embedder, m, c, s, now, entries, id);
  }

  /** Other campaigns and sources keep whatever agreement they had. */
  lemma SyncElsewhere(embedder: Embedder, m: Store, c: string, s: MemorySource, now: int, entries: seq<CurrentEntry>,
                      c': string, s': MemorySource, entries': seq<CurrentEntry>)
    requires WellKeyed(m) && s != Compendium && s' != Compendium && !Entangled(c, c') && (c != c' || s != s')
    requires Agrees(m, c', s', entries')
    ensures Agrees(Synced(embedder, m, c, s, now, entries), c', s', entries')
  {
    hide EntryId, Synced, Entangled, Ids;
    var m' := Synced(embedder, m, c, s, now, entries);
    SyncKeepsKeys(embedder, m, c, s, now, entries);
    forall f: string
      ensures Get(m', RecordId(c', s', f)) == Get(m, RecordId(c', s', f))
    {
      forall fid ensures RecordId(c', s', f) != RecordId(c, s, fid) {
        if RecordId(c, s, fid) == RecordId(c', s', f) { RecordIdInjective(c, s, fid, c', s', f); }
      }
      SyncFrame(embedder, m, c, s, now, entries, RecordId(c', s', f));
    }
    forall e | e in entries'
      ensures Reflects(LiveAt(m', c', s', e.foundryId), e)
    {
      assert Get(m', RecordId(c', s', e.foundryId)) == Get(m, RecordId(c', s', e.foundryId));
    }
    forall id | Listed(m', c', s', id)
      ensures m'[id].metadata.foundryId.value in Ids(entries')
    {
      var f := m'[id].metadata.foundryId.value;
      assert id == RecordId(c', s', f) by { assert KeyedAt(m', id); }
      assert Get(m', id) == Get(m, id);
      assert Listed(m, c', s', id);
    }
  }

  lemma SameMap(a: Store, b: Store)
    requires forall id :: Get(a, id) == Get(b, id)
    ensures a == b
  {
    assert forall id :: id in a <==> Get(a, id).Some?;
    assert forall id :: id in b <==> Get(b, id).Some?;
    assert forall id :: id in a ==> Get(a, id) == Some(a[id]);
    assert forall id :: id in b ==> Get(b, id) == Some(b[id]);
  }

  /** A second refresh with the same reading touches nothing and counts nothing. */
  lemma RepeatRefreshIsIdle(embedder: Embedder, m: Store, c: string, s: MemorySource, now: int, entries: seq<CurrentEntry>)
    requires Agrees(m, c, s, entries)
    ensures Synced(embedder, m, c, s, now, entries) == m
    ensures Count(IsAdded(m, c, s), entries) == 0 && Count(IsUpdated(m, c, s), entries) == 0
    ensures VanishedIds(m, c, s, entries) == {}
  {
    hide EntryId, Synced, LiveAt;
    forall i | 0 <= i < |entries|
      ensures !NeedsIngest(m, c, s)(entries[i]) && !IsAdded(m, c, s)(entries[i]) && !IsUpdated(m, c, s)(entries[i])
    {
      var e := entries[i];
      assert Reflects(LiveAt(m, c, s, e.foundryId), e);
      if NeedsIngest(m, c, s)(e) { StaleUnlessWritten(m, c, s, e); }
    }
    hide NeedsIngest, IsAdded, IsUpdated;
    CountZero(IsAdded(m, c, s), entries);
    CountZero(IsUpdated(m, c, s), entries);
    WrittenMembers(embedder, m, c, s, now, entries);
    assert forall r :: r !in Written(embedder, m, c, s, now, entries);
    assert |Written(embedder, m, c, s, now, entries)| == 0 ==> Ingested(embedder, m, c, s, now, entries) == m;
    forall id ensures Get(Synced(embedder, m, c, s, now, entries), id) == Get(m, id) {
      SyncedSlot(embedder, m, c, s, now, entries, id);
    }
    SameMap(Synced(embedder, m, c, s, now, entries), m);
  }

  // ---- whole runs ----

  datatype Refresh = Refresh(campaignId: string, source: MemorySource, now: int, entries: seq<CurrentEntry>)

  ghost function After(embedder: Embedder, m: Store, steps: seq<Refresh>): Store
  {
    if |steps| == 0 then m
    else
      var last := steps[|steps| - 1];
      Synced(embedder, After(embedder, m, steps[..|steps| - 1]), last.campaignId, last.source, last.now, last.entries)
  }

  /** What the reader last returned for a campaign and source; a failed read returned nothing. */
  function LastReading(steps: seq<Refresh>, c: string, s: MemorySource): seq<CurrentEntry>
  {
    if |steps| == 0 then []
    else
      var last := steps[|steps| - 1];
      if last.campaignId == c && last.source == s then last.entries else LastReading(steps[..|steps| - 1], c, s)
  }

  /** An edit of an entry that was there at the previous reading raises its stamp. */
  ghost predicate Follows(earlier: seq<CurrentEntry>, later: seq<CurrentEntry>)
  {
    && Distinct(later)
    && (forall e :: e in later ==> Speaks(e))
    && (forall p, e :: p in earlier && e in later && p.foundryId == e.foundryId ==>
          Newer(e.lastModified, p.lastModified) || (e.lastModified == p.lastModified && e.text == p.text))
  }

  ghost predicate Disentangled(campaigns: set<string>)
  {
    forall c, c' :: c in campaigns && c' in campaigns ==> !Entangled(c, c')
  }

  ghost predicate Lawful(campaigns: set<string>, steps: seq<Refresh>)
  {
    forall k :: 0 <= k < |steps| ==>
      && steps[k].campaignId in campaigns && steps[k].source != Compendium
      && Follows(LastReading(steps[..k], steps[k].campaignId, steps[k].source), steps[k].entries)
  }

  ghost predicate InStep(m: Store, campaigns: set<string>, steps: seq<Refresh>)
  {
    forall c, s :: c in campaigns && s != Compendium ==> Agrees(m, c, s, LastReading(steps, c, s))
  }

  lemma FollowerSettles(m: Store, c: string, s: MemorySource, earlier: seq<CurrentEntry>, later: seq<CurrentEntry>, e: CurrentEntry)
    requires WellKeyed(m) && s != Compendium && Agrees(m, c, s, earlier) && Follows(earlier, later) && e in later
    ensures Settles(m, c, s, e)
  {
    hide EntryId, Distinct;
    if LiveAt(m, c, s, e.foundryId).Some? {
      assert Listed(m, c, s, RecordId(c, s, e.foundryId));
      var p :| p in earlier && p.foundryId == e.foundryId;
      ShouldUpdateExactly(e.lastModified, p.lastModified);
      assert Reflects(LiveAt(m, c, s, p.foundryId), p);
    }
  }

  /** After every refresh of a lawful run, every campaign and source agrees with its last reading. */
  lemma {:induction false} RunsStayInStep(embedder: Embedder, m: Store, campaigns: set<string>, steps: seq<Refresh>)
    requires Disentangled(campaigns) && WellKeyed(m) && InStep(m, campaigns, []) && Lawful(campaigns, steps)
    ensures WellKeyed(After(embedder, m, steps)) && InStep(After(embedder, m, steps), campaigns, steps)
    decreases |steps|
  {
    hide Agrees, Synced, WellKeyed, Disentangled, Follows, InStep, Lawful, LastReading, After;
    AfterNothing(embedder, m);
    if |steps| == 0 {
      assert steps == [];
    } else {
      var n := |steps| - 1;
      LawfulBefore(campaigns, steps);
      RunsStayInStep(embedder, m, campaigns, steps[..n]);
      StayInStep(embedder, After(embedder, m, steps[..n]), campaigns, steps[..n], steps[n]);
      AfterSnoc(embedder, m, steps[..n], steps[n]);
      assert steps[..n] + [steps[n]] == steps;
    }
  }

  lemma AfterNothing(embedder: Embedder, m: Store)
    ensures After(embedder, m, []) == m
  {
  }

  lemma AfterSnoc(embedder: Embedder, m: Store, steps: seq<Refresh>, last: Refresh)
    ensures After(embedder, m, steps + [last])
         == Synced(embedder, After(embedder, m, steps), last.campaignId, last.source, last.now, last.entries)
  {
    hide Synced;
    assert (steps + [last])[..|steps|] == steps;
  }

  lemma LawfulBefore(campaigns: set<string>, steps: seq<Refresh>)
    requires Lawful(campaigns, steps) && |steps| > 0
    ensures var last := steps[|steps| - 1];
      && Lawful(campaigns, steps[..|steps| - 1]) && last.campaignId in campaigns && last.source != Compendium
      && Follows(LastReading(steps[..|steps| - 1], last.campaignId, last.source), last.entries)
  {
    hide Follows, LastReading;
    var init := steps[..|steps| - 1];
    forall k | 0 <= k < |init|
      ensures init[k] == steps[k] && init[..k] == steps[..k]
    {
    }
  }

  lemma StayInStep(embedder: Embedder, m: Store, campaigns: set<string>, init: seq<Refresh>, last: Refresh)
    requires Disentangled(campaigns) && WellKeyed(m) && InStep(m, campaigns, init)
    requires last.campaignId in campaigns && last.source != Compendium
    requires Follows(LastReading(init, last.campaignId, last.source), last.entries)
    ensures var m' := Synced(embedder, m, last.campaignId, last.source, last.now, last.entries);
            WellKeyed(m') && InStep(m', campaigns, init + [last])
  {
    hide Agrees, Synced, WellKeyed, Entangled, Settles, Distinct;
    var c, s := last.campaignId, last.source;
    var m' := Synced(embedder, m, c, s, last.now, last.entries);
    SyncKeepsKeys(embedder, m, c, s, last.now, last.entries);
    assert (init + [last])[..|init|] == init;
    forall c', s' | c' in campaigns && s' != Compendium
      ensures Agrees(m', c', s', LastReading(init + [last], c', s'))
    {
      if c' == c && s' == s {
        forall e | e in last.entries ensures Settles(m, c, s, e) {
          FollowerSettles(m, c, s, LastReading(init, c, s), last.entries, e);
        }
        SyncAgrees(embedder, m, c, s, last.now, last.entries);
      } else {
        SyncElsewhere(embedder, m, c, s, last.now, last.entries, c', s', LastReading(init, c', s'));
      }
    }
  }

  // ---- and only when no two campaigns are entangled ----

  function Entry(fid: string): CurrentEntry
  {
    CurrentEntry(fid, Some("1"), "a", ExtractedKeys(None, None, []))
  }

  lemma EntrySpeaks(fid: string)
    ensures Speaks(Entry(fid)) && Distinct([Entry(fid)])
  {
    hide Trim, InRanges;
    OutsideRanges('a', SPACES);
    var pre, post := TrimSplits("a");
    assert !IsSpace("a"[0]);
  }

  /** Syncing an entry whose record id an entangled campaign already uses takes that campaign's record away. */
  lemma SyncTakesRecord(embedder: Embedder, m: Store, c: string, s: MemorySource, f: string, c': string, s': MemorySource, f': string)
    requires WellKeyed(m) && c != c' && Collide(c, s, f, c', s', f')
    requires Agrees(m, c', s', [Entry(f')])
    ensures !Agrees(Synced(embedder, m, c, s, 0, [Entry(f)]), c', s', [Entry(f')])
  {
    hide EntryId, Synced, WellKeyed, Distinct, Speaks;
    EntrySpeaks(f);
    assert Entry(f') in [Entry(f')] && Entry(f) in [Entry(f)];
    assert Reflects(LiveAt(m, c', s', f'), Entry(f'));
    assert LiveAt(m, c, s, f).None?;
    LiveAfterSync(embedder, m, c, s, 0, [Entry(f)], Entry(f));
    var m' := Synced(embedder, m, c, s, 0, [Entry(f)]);
    assert LiveAt(m', c, s, f).Some?;
    assert LiveAt(m', c', s', f').None?;
  }

  lemma TwoRefreshes(embedder: Embedder, campaigns: set<string>, first: Refresh, second: Refresh, f: string, f': string)
    requires first.campaignId in campaigns && second.campaignId in campaigns && first.campaignId != second.campaignId
    requires first.source != Compendium && second.source != Compendium
    requires first.entries == [Entry(f')] && second.entries == [Entry(f)]
    ensures Lawful(campaigns, [first, second]) && LastReading([first, second], first.campaignId, first.source) == [Entry(f')]
    ensures After(embedder, map[], [first, second])
         == Synced(embedder, Synced(embedder, map[], first.campaignId, first.source, first.now, first.entries),
                   second.campaignId, second.source, second.now, second.entries)
  {
    hide Synced, Speaks, Distinct;
    EntrySpeaks(f);
    EntrySpeaks(f');
    var steps := [first, second];
    assert steps[..0] == [] && steps[..1] == [first] && [first][..0] == [];
    assert LastReading([], first.campaignId, first.source) == [];
    assert LastReading([first], second.campaignId, second.source) == [];
    assert LastReading([first], first.campaignId, first.source) == first.entries;
    assert LastReading(steps, first.campaignId, first.source) == first.entries;
    AfterSnoc(embedder, map[], [], first);
    AfterSnoc(embedder, map[], [first], second);
    AfterNothing(embedder, map[]);
    assert [] + [first] == [first] && [first] + [second] == steps;
    assert forall e :: e in first.entries ==> e == Entry(f');
    assert forall e :: e in second.entries ==> e == Entry(f);
    assert Follows([], first.entries) && Follows([], second.entries);
    forall k | 0 <= k < 2
      ensures Follows(LastReading(steps[..k], steps[k].campaignId, steps[k].source), steps[k].entries)
    {
      if k == 0 { assert steps[..k] == []; } else { assert steps[..k] == [first]; }
    }
  }

  /** Two refreshes that entangled campaigns fall out of step over. */
  lemma EntangledFallsBehind(embedder: Embedder, campaigns: set<string>, c: string, c': string) returns (steps: seq<Refresh>)
    requires c in campaigns && c' in campaigns && Entangled(c, c')
    ensures Lawful(campaigns, steps) && !InStep(After(embedder, map[], steps), campaigns, steps)
  {
    CampaignsCollideExactly(c, c');
    var s, f, s', f' :| Collide(c, s, f, c', s', f');
    var first, second := Refresh(c', s', 0, [Entry(f')]), Refresh(c, s, 0, [Entry(f)]);
    steps := [first, second];
    hide Collide, Synced, Agrees, Lawful, After, LastReading, NestsIn;
    Kinds(c, s, f, c', s', f');
    TwoRefreshes(embedder, campaigns, first, second, f, f');
    FirstAgrees(embedder, c', s', f');
    SyncTakesRecord(embedder, Synced(embedder, map[], c', s', 0, [Entry(f')]), c, s, f, c', s', f');
  }

  lemma FirstAgrees(embedder: Embedder, c: string, s: MemorySource, f: string)
    requires s != Compendium
    ensures var m := Synced(embedder, map[], c, s, 0, [Entry(f)]); WellKeyed(m) && Agrees(m, c, s, [Entry(f)])
  {
    hide Synced, Agrees, Speaks, Distinct, WellKeyed, Settles;
    EntrySpeaks(f);
    EmptyStoreSettles(c, s, f);
    SyncAgrees(embedder, map[], c, s, 0, [Entry(f)]);
    SyncKeepsKeys(embedder, map[], c, s, 0, [Entry(f)]);
  }

  lemma Kinds(c: string, s: MemorySource, f: string, c': string, s': MemorySource, f': string)
    requires Collide(c, s, f, c', s', f')
    ensures s != Compendium && s' != Compendium
  {
  }

  lemma EmptyStoreSettles(c: string, s: MemorySource, fid: string)
    ensures WellKeyed(map[]) && forall e :: e in [Entry(fid)] ==> Settles(map[], c, s, e)
  {
    hide Speaks, RecordId;
    EntrySpeaks(fid);
  }

  /** Every lawful run from an empty store stays in step if and only if no two of the campaigns are entangled. */
  lemma RunsStayInStepExactly(embedder: Embedder, campaigns: set<string>)
    ensures Disentangled(campaigns) <==>
      forall steps :: Lawful(campaigns, steps) ==> InStep(After(embedder, map[], steps), campaigns, steps)
  {
    hide Lawful, InStep, After, Entangled, WellKeyed;
    if Disentangled(campaigns) {
      EmptyInStep(campaigns);
      forall steps | Lawful(campaigns, steps)
        ensures InStep(After(embedder, map[], steps), campaigns, steps)
      {
        RunsStayInStep(embedder, map[], campaigns, steps);
      }
    } else {
      var c, c' :| c in campaigns && c' in campaigns && Entangled(c, c');
      var steps := EntangledFallsBehind(embedder, campaigns, c, c');
    }
  }

  lemma EmptyInStep(campaigns: set<string>)
    ensures WellKeyed(map[]) && InStep(map[], campaigns, [])
  {
    hide RecordId;
  }

  lemma NothingIsDistinct()
    ensures Distinct([])
  {
  }

  /** The next good read heals what a failed one tombstoned, whatever its stamps. */
  lemma GoodReadHeals(embedder: Embedder, m: Store, c: string, s: MemorySource, now: int, entries: seq<CurrentEntry>)
    requires WellKeyed(m) && s != Compendium && Distinct(entries) && forall e :: e in entries ==> Speaks(e)
    ensures var failed := Synced(embedder, m, c, s, now, []);
            Agrees(Synced(embedder, failed, c, s, now, entries), c, s, entries)
  {
    hide Agrees, Synced, WellKeyed, Settles, Distinct, Speaks;
    var failed := Synced(embedder, m, c, s, now, []);
    NothingIsDistinct();
    SyncAgrees(embedder, m, c, s, now, []);
    SyncKeepsKeys(embedder, m, c, s, now, []);
    forall e | e in entries ensures Settles(failed, c, s, e) {
      FollowerSettles(failed, c, s, [], entries, e);
    }
    SyncAgrees(embedder, failed, c, s, now, entries);
  }
}
