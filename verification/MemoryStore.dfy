/** Memory records and the in-memory store (orchestrator/src/memory/store.ts). */
module MemoryStore {
  import opened Options
  import opened Tables
  import opened Cosine
  import opened Ranking

  datatype MemoryKind = Cold | Episodic | Arc

  datatype MemorySource = Compendium | WorldJournal | WorldScene | WorldCreature | WorldActorItem

  /** A value of the free-form deltas; only objects with the reserved fields are read back field by field. */
  datatype Json = Reserved(meta: SkMeta) | Opaque(code: int)

  /** The reserved `_sk` object of the packed form. */
  datatype SkMeta = SkMeta(source: Option<MemorySource>, foundryId: Option<string>, lastModified: Option<string>,
                           location: Option<string>, quest: Option<string>, keywords: Option<seq<string>>,
                           tombstoned: bool)

  datatype Metadata = Metadata(campaignId: string, sessionId: Option<string>, createdAt: int, embedModel: string,
                               audience: Option<string>, deltas: Option<map<string, Json>>,
                               source: Option<MemorySource>, foundryId: Option<string>, lastModified: Option<string>,
                               location: Option<string>, quest: Option<string>, keywords: Option<seq<string>>,
                               tombstoned: Option<bool>)

  datatype MemoryRecord = MemoryRecord(id: string, kind: MemoryKind, text: string, vector: seq<real>, metadata: Metadata)

  predicate Tombstoned(r: MemoryRecord)
  {
    r.metadata.tombstoned == Some(true)
  }

  function EffectiveAudience(r: MemoryRecord): string
  {
    if r.metadata.audience.Some? then r.metadata.audience.value else "table"
  }

  // ---- upsert: one record per id, in order of first insertion ----

  ghost predicate UniqueIds(records: seq<MemoryRecord>)
  {
    forall i, j :: 0 <= i < j < |records| ==> records[i].id != records[j].id
  }

  function Put(records: seq<MemoryRecord>, r: MemoryRecord): seq<MemoryRecord>
  {
    if |records| == 0 then [r]
    else if records[0].id == r.id then [r] + records[1..]
    else [records[0]] + Put(records[1..], r)
  }

  function PutAll(records: seq<MemoryRecord>, rs: seq<MemoryRecord>): seq<MemoryRecord>
    decreases |rs|
  {
    if |rs| == 0 then records else PutAll(Put(records, rs[0]), rs[1..])
  }

  /** The store as the map it is to its callers. */
  ghost function Contents(records: seq<MemoryRecord>): map<string, MemoryRecord>
  {
    if |records| == 0 then map[] else Contents(records[1..])[records[0].id := records[0]]
  }

  ghost function PutAllMap(m: map<string, MemoryRecord>, rs: seq<MemoryRecord>): map<string, MemoryRecord>
    decreases |rs|
  {
    if |rs| == 0 then m else PutAllMap(m[rs[0].id := rs[0]], rs[1..])
  }

  lemma {:induction false} PutMembers(records: seq<MemoryRecord>, r: MemoryRecord)
    ensures forall x :: x in Put(records, r) ==> x == r || x in records
    decreases |records|
  {
    if |records| > 0 {
      PutMembers(records[1..], r);
    }
  }

  lemma {:induction false} PutKeepsUnique(records: seq<MemoryRecord>, r: MemoryRecord)
    requires UniqueIds(records)
    ensures UniqueIds(Put(records, r))
    decreases |records|
  {
    if |records| > 0 && records[0].id != r.id {
      var tail := records[1..];
      PutKeepsUnique(tail, r);
      PutMembers(tail, r);
      forall x | x in tail
        ensures x.id != records[0].id
      {
        var k :| 0 <= k < |tail| && tail[k] == x;
        assert records[k + 1] == x;
      }
    }
  }

  lemma {:induction false} PutUpdates(records: seq<MemoryRecord>, r: MemoryRecord)
    ensures Contents(Put(records, r)) == Contents(records)[r.id := r]
    decreases |records|
  {
    if |records| > 0 {
      var tail := records[1..];
      if records[0].id == r.id {
        assert ([r] + tail)[1..] == tail;
      } else {
        PutUpdates(tail, r);
        assert ([records[0]] + Put(tail, r))[1..] == Put(tail, r);
      }
    }
  }

  lemma {:induction false} PutAllUpdates(records: seq<MemoryRecord>, rs: seq<MemoryRecord>)
    requires UniqueIds(records)
    ensures Contents(PutAll(records, rs)) == PutAllMap(Contents(records), rs)
    ensures UniqueIds(PutAll(records, rs))
    decreases |rs|
  {
    if |rs| > 0 {
      PutUpdates(records, rs[0]);
      PutKeepsUnique(records, rs[0]);
      PutAllUpdates(Put(records, rs[0]), rs[1..]);
    }
  }

  lemma {:induction false} PutAllConcat(m: map<string, MemoryRecord>, a: seq<MemoryRecord>, b: seq<MemoryRecord>)
    ensures PutAllMap(m, a + b) == PutAllMap(PutAllMap(m, a), b)
    decreases |a|
  {
    if |a| == 0 {
      assert a + b == b;
    } else {
      assert (a + b)[1..] == a[1..] + b;
      PutAllConcat(m[a[0].id := a[0]], a[1..], b);
    }
  }

  function Get<K, V>(m: map<K, V>, id: K): Option<V>
  {
    if id in m then Some(m[id]) else None
  }

  lemma {:induction false} PutAllMisses(m: map<string, MemoryRecord>, rs: seq<MemoryRecord>, id: string)
    requires forall r :: r in rs ==> r.id != id
    ensures Get(PutAllMap(m, rs), id) == Get(m, id)
    decreases |rs|
  {
    if |rs| > 0 { PutAllMisses(m[rs[0].id := rs[0]], rs[1..], id); }
  }

  lemma {:induction false} PutAllHits(m: map<string, MemoryRecord>, rs: seq<MemoryRecord>, r: MemoryRecord)
    requires r in rs && forall x :: x in rs && x.id == r.id ==> x == r
    ensures Get(PutAllMap(m, rs), r.id) == Some(r)
    decreases |rs|
  {
    var m' := m[rs[0].id := rs[0]];
    if r in rs[1..] {
      PutAllHits(m', rs[1..], r);
    } else {
      assert rs[0] == r;
      assert forall x :: x in rs[1..] ==> x in rs;
      PutAllMisses(m', rs[1..], r.id);
    }
  }

  /** The stored records are exactly the values of the map. */
  lemma {:induction false} ContentsFaithful(records: seq<MemoryRecord>)
    requires UniqueIds(records)
    ensures forall r :: r in records <==> r.id in Contents(records) && Contents(records)[r.id] == r
    ensures forall id :: id in Contents(records) ==> Contents(records)[id].id == id
    decreases |records|
  {
    if |records| > 0 {
      var tail := records[1..];
      assert UniqueIds(tail);
      ContentsFaithful(tail);
      forall r | r in tail
        ensures r.id != records[0].id
      {
        var k :| 0 <= k < |tail| && tail[k] == r;
        assert records[k + 1] == r;
      }
      assert forall r :: r in records <==> r == records[0] || r in tail;
    }
  }

  // ---- queries ----

  datatype MetadataFilter = MetadataFilter(location: Option<string>, quest: Option<string>, keywords: Option<seq<string>>,
                                           source: Option<MemorySource>, foundryId: Option<string>)

  datatype QueryOptions = QueryOptions(campaignId: string, kinds: Option<seq<MemoryKind>>, audiences: Option<seq<string>>,
                                       metadata: Option<MetadataFilter>, includeTombstones: bool)

  function OrEmpty(s: Option<string>): string
  {
    if s.Some? then s.value else ""
  }

  /** Case-insensitive equality and keyword overlap; `lower` stands for the host's lower-casing. */
  predicate MatchesMetadataFilter(lower: string -> string, r: MemoryRecord, f: Option<MetadataFilter>)
  {
    f.None? ||
    (&& (f.value.location.Some? ==> lower(OrEmpty(r.metadata.location)) == lower(f.value.location.value))
     && (f.value.quest.Some? ==> lower(OrEmpty(r.metadata.quest)) == lower(f.value.quest.value))
     && (f.value.source.Some? ==>
           (if r.metadata.source.Some? then r.metadata.source.value else Compendium) == f.value.source.value)
     && (f.value.foundryId.Some? ==> r.metadata.foundryId == f.value.foundryId)
     && (f.value.keywords.Some? && |f.value.keywords.value| > 0 ==>
           r.metadata.keywords.Some? && exists i, j ::
             && 0 <= i < |f.value.keywords.value| && 0 <= j < |r.metadata.keywords.value|
             && lower(f.value.keywords.value[i]) == lower(r.metadata.keywords.value[j])))
  }

  predicate MatchesQuery(lower: string -> string, r: MemoryRecord, opts: QueryOptions)
  {
    && r.metadata.campaignId == opts.campaignId
    && (opts.kinds.None? || r.kind in opts.kinds.value)
    && (opts.audiences.None? || EffectiveAudience(r) in opts.audiences.value)
    && (opts.includeTombstones || !Tombstoned(r))
    && MatchesMetadataFilter(lower, r, opts.metadata)
  }

  function Selects(lower: string -> string, opts: QueryOptions): MemoryRecord -> bool
  {
    (r: MemoryRecord) => MatchesQuery(lower, r, opts)
  }

  function ScoreAgainst(sqrt: real -> real, vector: seq<real>): MemoryRecord -> real
  {
    (r: MemoryRecord) => Similarity(sqrt, vector, r.vector)
  }

  /** What a vector query returns: the most similar of the selected records, ties in store order. */
  function Nearest(lower: string -> string, sqrt: real -> real, records: seq<MemoryRecord>, vector: seq<real>,
                   opts: QueryOptions, k: nat): seq<MemoryRecord>
  {
    TopK(ScoreAgainst(sqrt, vector), Filter(Selects(lower, opts), records), k)
  }

  function InCampaign(campaignId: string): MemoryRecord -> bool
  {
    (r: MemoryRecord) => r.metadata.campaignId == campaignId
  }

  function ForAudience(audience: string): MemoryRecord -> bool
  {
    (r: MemoryRecord) => EffectiveAudience(r) == audience
  }

  lemma {:induction false} FilterKeepsUnique(keep: MemoryRecord -> bool, records: seq<MemoryRecord>)
    requires UniqueIds(records)
    ensures UniqueIds(Filter(keep, records))
    decreases |records|
  {
    if |records| > 0 {
      var tail := records[1..];
      FilterKeepsUnique(keep, tail);
      forall x | x in tail
        ensures x.id != records[0].id
      {
        var k :| 0 <= k < |tail| && tail[k] == x;
        assert records[k + 1] == x;
      }
    }
  }

  // ---- what a query answers, in terms of the records' fields ----

  /** A text that is asked for, if one is, is there up to case. */
  predicate TextAgrees(lower: string -> string, want: Option<string>, have: Option<string>)
  {
    want.Some? ==> lower(want.value) == lower(match have case None => "" case Some(x) => x)
  }

  ghost predicate WordShared(lower: string -> string, want: seq<string>, have: Option<seq<string>>)
  {
    |want| > 0 ==> have.Some? && exists w, h :: w in want && h in have.value && lower(w) == lower(h)
  }

  ghost predicate FilterAgrees(lower: string -> string, r: MemoryRecord, f: MetadataFilter)
  {
    && TextAgrees(lower, f.location, r.metadata.location) && TextAgrees(lower, f.quest, r.metadata.quest)
    && (f.source.Some? ==> r.metadata.source == f.source || (r.metadata.source.None? && f.source == Some(Compendium)))
    && (f.foundryId.Some? ==> r.metadata.foundryId == f.foundryId)
    && (f.keywords.Some? ==> WordShared(lower, f.keywords.value, r.metadata.keywords))
  }

  /** Of the campaign, of a kind and an audience asked for, live unless the dead are asked for too, and agreeing with the filter. */
  ghost predicate Asked(lower: string -> string, r: MemoryRecord, opts: QueryOptions)
  {
    && r.metadata.campaignId == opts.campaignId
    && (opts.kinds.Some? ==> r.kind in opts.kinds.value)
    && (opts.audiences.Some? ==> (match r.metadata.audience case None => "table" case Some(a) => a) in opts.audiences.value)
    && (r.metadata.tombstoned == Some(true) ==> opts.includeTombstones)
    && (opts.metadata.Some? ==> FilterAgrees(lower, r, opts.metadata.value))
  }

  lemma KeywordsExactly(lower: string -> string, want: seq<string>, have: seq<string>)
    ensures (exists i, j :: 0 <= i < |want| && 0 <= j < |have| && lower(want[i]) == lower(have[j]))
       <==> exists w, h :: w in want && h in have && lower(w) == lower(h)
  {
    if i, j :| 0 <= i < |want| && 0 <= j < |have| && lower(want[i]) == lower(have[j]) {
      assert want[i] in want && have[j] in have;
    }
    if w, h :| w in want && h in have && lower(w) == lower(h) {
      var i :| 0 <= i < |want| && want[i] == w;
      var j :| 0 <= j < |have| && have[j] == h;
      assert lower(want[i]) == lower(have[j]);
    }
  }

  lemma FilterExactly(lower: string -> string, r: MemoryRecord, f: MetadataFilter)
    ensures MatchesMetadataFilter(lower, r, Some(f)) <==> FilterAgrees(lower, r, f)
  {
    if f.keywords.Some? && r.metadata.keywords.Some? {
      KeywordsExactly(lower, f.keywords.value, r.metadata.keywords.value);
    }
  }

  lemma AskedExactly(lower: string -> string, r: MemoryRecord, opts: QueryOptions)
    ensures Selects(lower, opts)(r) <==> Asked(lower, r, opts)
  {
    hide MatchesMetadataFilter, FilterAgrees;
    if opts.metadata.Some? { FilterExactly(lower, r, opts.metadata.value); } else { NoFilterAgrees(lower, r); }
  }

  lemma NoFilterAgrees(lower: string -> string, r: MemoryRecord)
    ensures MatchesMetadataFilter(lower, r, None)
  {
  }

  /**
   * A vector query answers with records asked for, at most `k` and the most similar first; a record asked for is left out
   * only when there are `k` others at least as similar.
   */
  lemma QueryExactly(lower: string -> string, sqrt: real -> real, records: seq<MemoryRecord>, vector: seq<real>,
                     opts: QueryOptions, k: nat)
    ensures var found := Nearest(lower, sqrt, records, vector, opts, k);
      && |found| <= k
      && (forall r :: r in found ==> r in records && Asked(lower, r, opts))
      && (forall i, j :: 0 <= i < j < |found| ==> Similarity(sqrt, vector, found[i].vector) >= Similarity(sqrt, vector, found[j].vector))
      && forall r :: r in records && Asked(lower, r, opts) && r !in found ==>
           |found| == k && forall x :: x in found ==> Similarity(sqrt, vector, x.vector) >= Similarity(sqrt, vector, r.vector)
  {
    hide Filter, TopK, MatchesQuery, Asked, Similarity;
    forall r ensures Selects(lower, opts)(r) <==> Asked(lower, r, opts) { AskedExactly(lower, r, opts); }
    var score, candidates := ScoreAgainst(sqrt, vector), Filter(Selects(lower, opts), records);
    var rest := TopKIsBest(score, candidates, k);
    TopOrRest(candidates, TopK(score, candidates, k), rest);
    var found := TopK(score, candidates, k);
    assert forall i :: 0 <= i < |found| ==> score(found[i]) == Similarity(sqrt, vector, found[i].vector);
    forall r | r in records && Asked(lower, r, opts) && r !in found
      ensures |found| == k && forall x :: x in found ==> score(x) >= score(r)
    {
      assert r in candidates && r in rest;
      var j :| 0 <= j < |rest| && rest[j] == r;
      forall x | x in found ensures score(x) >= score(r) {
        var i :| 0 <= i < |found| && found[i] == x;
        assert score(found[i]) >= score(rest[j]);
      }
    }
  }

  lemma TopOrRest<R>(all: seq<R>, top: seq<R>, rest: seq<R>)
    requires multiset(all) == multiset(top) + multiset(rest)
    ensures forall x :: x in all <==> x in top || x in rest
    ensures |all| == |top| + |rest|
  {
    forall x ensures x in all <==> x in top || x in rest {
      assert x in all <==> x in multiset(all);
      assert x in top <==> x in multiset(top);
      assert x in rest <==> x in multiset(rest);
    }
    assert |multiset(all)| == |multiset(top)| + |multiset(rest)|;
  }

  // ---- the order of the store ----

  function IdOf(): MemoryRecord -> string { (r: MemoryRecord) => r.id }

  /** An upsert keeps every record's place; a new id goes to the end. */
  lemma {:induction false} PutKeepsPlaces(records: seq<MemoryRecord>, r: MemoryRecord)
    ensures Project(IdOf(), Put(records, r))
         == Project(IdOf(), records) + (if exists x :: x in records && x.id == r.id then [] else [r.id])
    decreases |records|
  {
    if |records| > 0 {
      var tail := records[1..];
      PutKeepsPlaces(tail, r);
      assert forall x :: x in records <==> x == records[0] || x in tail;
      if records[0].id == r.id {
        assert ([r] + tail)[1..] == tail;
      } else {
        assert ([records[0]] + Put(tail, r))[1..] == Put(tail, r);
      }
    }
  }

  class InMemoryMemoryStore {
    const lower: string -> string
    const sqrt: real -> real
    var records: seq<MemoryRecord>

    ghost predicate Valid()
      reads this
    {
      UniqueIds(records)
    }

    constructor (lower: string -> string, sqrt: real -> real)
      ensures Valid() && records == [] && this.lower == lower && this.sqrt == sqrt
    {
      this.lower, this.sqrt := lower, sqrt;
      records := [];
    }

    method Upsert(rs: seq<MemoryRecord>)
      requires Valid()
      modifies this
      ensures Valid() && records == PutAll(old(records), rs)
      ensures Contents(records) == PutAllMap(old(Contents(records)), rs)
    {
      PutAllUpdates(records, rs);
      var i := 0;
      while i < |rs|
        invariant i <= |rs| && PutAll(records, rs[i..]) == PutAll(old(records), rs)
      {
        records := Put(records, rs[i]);
        assert rs[i..][1..] == rs[i + 1..];
        i := i + 1;
      }
    }

    method Query(vector: seq<real>, opts: QueryOptions, k: nat) returns (found: seq<MemoryRecord>)
      ensures found == Nearest(lower, sqrt, records, vector, opts, k)
    {
      var candidates := Filter(Selects(lower, opts), records);
      found := TopK(ScoreAgainst(sqrt, vector), candidates, k);
    }

    method ByMetadata(campaignId: string, f: MetadataFilter, includeTombstones: bool) returns (found: seq<MemoryRecord>)
      ensures found == Filter(Selects(lower, QueryOptions(campaignId, None, None, Some(f), includeTombstones)), records)
    {
      found := Filter(Selects(lower, QueryOptions(campaignId, None, None, Some(f), includeTombstones)), records);
    }

    method DeleteByCampaign(campaignId: string) returns (removed: nat)
      requires Valid()
      modifies this
      ensures Valid() && records == Filter(Not(InCampaign(campaignId)), old(records))
      ensures forall r :: r in records <==> r in old(records) && r.metadata.campaignId != campaignId
      ensures removed + |records| == old(|records|)
    {
      FilterKeepsUnique(Not(InCampaign(campaignId)), records);
      var before := |records|;
      records := Filter(Not(InCampaign(campaignId)), records);
      removed := before - |records|;
    }

    method DeleteByTenant() returns (removed: nat)
      modifies this
      ensures Valid() && records == [] && removed == old(|records|)
    {
      removed := |records|;
      records := [];
    }

    method DeleteByAudience(audience: string) returns (removed: nat)
      requires Valid()
      modifies this
      ensures Valid() && records == Filter(Not(ForAudience(audience)), old(records))
      ensures removed + |records| == old(|records|)
    {
      FilterKeepsUnique(Not(ForAudience(audience)), records);
      var before := |records|;
      records := Filter(Not(ForAudience(audience)), records);
      removed := before - |records|;
    }
  }
}
