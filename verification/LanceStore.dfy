/** The packed row encoding and queries of the vector store (plugins/memory-lance/src/lance_memory_store.ts). */
module LanceStore {
  import opened Options
  import opened Tables
  import opened Ranking
  import opened MemoryStore

  const SK_META_KEY := "_sk"

  /** `deltasJson` is the parsed object of the column; `None` is the empty string. */
  datatype Row = Row(id: string, kind: MemoryKind, text: string, vector: seq<real>, campaignId: string, sessionId: string,
                     createdAt: int, embedModel: string, audience: string, deltasJson: Option<map<string, Json>>)

  function SkOf(m: Metadata): SkMeta
  {
    SkMeta(m.source, m.foundryId, m.lastModified, m.location, m.quest, m.keywords, m.tombstoned == Some(true))
  }

  predicate HasSk(m: Metadata)
  {
    m.source.Some? || m.foundryId.Some? || m.lastModified.Some? || m.location.Some? || m.quest.Some? || m.keywords.Some?
    || m.tombstoned == Some(true)
  }

  function PackDeltas(m: Metadata): Option<map<string, Json>>
  {
    if m.deltas.None? && !HasSk(m) then None
    else
      var base := if m.deltas.Some? then m.deltas.value else map[];
      Some(if HasSk(m) then base[SK_META_KEY := Reserved(SkOf(m))] else base)
  }

  function ToRow(): MemoryRecord -> Row
  {
    (r: MemoryRecord) =>
      Row(r.id, r.kind, r.text, r.vector, r.metadata.campaignId, OrEmpty(r.metadata.sessionId), r.metadata.createdAt,
          r.metadata.embedModel, EffectiveAudience(r), PackDeltas(r.metadata))
  }

  function NonEmpty(s: string): Option<string>
  {
    if |s| > 0 then Some(s) else None
  }

  function Unpacked(m: Metadata, parsed: map<string, Json>): Metadata
  {
    var m' :=
      if SK_META_KEY in parsed && parsed[SK_META_KEY].Reserved? then
        var sk := parsed[SK_META_KEY].meta;
        m.(source := sk.source, foundryId := sk.foundryId, lastModified := sk.lastModified, location := sk.location,
           quest := sk.quest, keywords := sk.keywords, tombstoned := if sk.tombstoned then Some(true) else None)
      else m;
    var rest := if SK_META_KEY in parsed && parsed[SK_META_KEY].Reserved? then parsed - {SK_META_KEY} else parsed;
    m'.(deltas := if |rest| > 0 then Some(rest) else None)
  }

  function FromRow(): Row -> MemoryRecord
  {
    (row: Row) =>
      var bare := Metadata(row.campaignId, NonEmpty(row.sessionId), row.createdAt, row.embedModel, NonEmpty(row.audience),
                           None, None, None, None, None, None, None, None);
      MemoryRecord(row.id, row.kind, row.text, row.vector,
                   if row.deltasJson.Some? then Unpacked(bare, row.deltasJson.value) else bare)
  }

  // ---- the round trip ----

  /** What a stored record comes back as: defaults made explicit, empty parts dropped. */
  function Normal(): MemoryRecord -> MemoryRecord
  {
    (r: MemoryRecord) =>
      r.(metadata := r.metadata.(
        sessionId := NonEmpty(OrEmpty(r.metadata.sessionId)),
        audience := NonEmpty(EffectiveAudience(r)),
        deltas := if r.metadata.deltas.Some? && |r.metadata.deltas.value| > 0 then r.metadata.deltas else None,
        tombstoned := if r.metadata.tombstoned == Some(true) then Some(true) else None))
  }

  /** Packing reserves the `_sk` key. */
  predicate KeepsReservedKey(m: Metadata)
  {
    m.deltas.None? || "_sk" !in m.deltas.value || (!HasSk(m) && m.deltas.value["_sk"].Opaque?)
  }

  lemma AddThenRemove(base: map<string, Json>, v: Json)
    requires SK_META_KEY !in base
    ensures base[SK_META_KEY := v] - {SK_META_KEY} == base
  {
  }

  /** Packing and unpacking gives the normal form back exactly when the deltas leave the reserved key alone. */
  lemma RoundTripExactly(r: MemoryRecord)
    ensures FromRow()(ToRow()(r)) == Normal()(r) <==> KeepsReservedKey(r.metadata)
  {
    var m := r.metadata;
    var base := if m.deltas.Some? then m.deltas.value else map[];
    if SK_META_KEY !in base {
      AddThenRemove(base, Reserved(SkOf(m)));
    } else {
      assert |base| > 0;
      var back := FromRow()(ToRow()(r)).metadata;
      assert Normal()(r).metadata.deltas == m.deltas && SK_META_KEY in m.deltas.value;
      if HasSk(m) || base[SK_META_KEY].Reserved? {
        assert back.deltas.Some? ==> SK_META_KEY !in back.deltas.value;
      }
    }
  }

  /** A delta under the reserved key is lost from any record that carries indexing metadata. */
  lemma ReservedKeyIsLost(r: MemoryRecord)
    requires HasSk(r.metadata)
    ensures var taken := r.(metadata := r.metadata.(deltas := Some(map[SK_META_KEY := Opaque(0)])));
      FromRow()(ToRow()(taken)) != Normal()(taken)
  {
    var taken := r.(metadata := r.metadata.(deltas := Some(map[SK_META_KEY := Opaque(0)])));
    RoundTripExactly(taken);
    assert HasSk(taken.metadata);
  }

  /** A record the store gives back as it is meant: reserved key free, audience not blank. */
  predicate Storable(r: MemoryRecord)
  {
    KeepsReservedKey(r.metadata) && r.metadata.audience != Some("")
  }

  // ---- queries ----

  function NearRow(near: seq<real> -> real): Row -> real
  {
    (row: Row) => near(row.vector)
  }

  function NearRecord(near: seq<real> -> real): MemoryRecord -> real
  {
    (r: MemoryRecord) => near(r.vector)
  }

  /** The SQL predicate: an empty list of kinds or audiences restricts nothing. */
  function BasePredicate(opts: QueryOptions): Row -> bool
  {
    (row: Row) =>
      && row.campaignId == opts.campaignId
      && (opts.kinds.None? || |opts.kinds.value| == 0 || row.kind in opts.kinds.value)
      && (opts.audiences.None? || |opts.audiences.value| == 0 || row.audience in opts.audiences.value)
  }

  function Keeps(includeTombstones: bool): MemoryRecord -> bool
  {
    (r: MemoryRecord) => includeTombstones || !Tombstoned(r)
  }

  /** The vector search: the nearest `fetch` rows of the predicate, then live records only, cut to `k`. */
  function VectorQuery(near: seq<real> -> real, rows: seq<Row>, opts: QueryOptions, k: nat): seq<MemoryRecord>
  {
    var fetch := if opts.includeTombstones then k else 4 * k;
    var found := TopK(NearRow(near), Filter(BasePredicate(opts), rows), fetch);
    Prefix(Filter(Keeps(opts.includeTombstones), Project(FromRow(), found)), k)
  }

  function InCampaignRow(campaignId: string): Row -> bool
  {
    (row: Row) => row.campaignId == campaignId
  }

  /** With a metadata filter: scan the campaign, filter the unpacked records, rank them by cosine. */
  function MetadataQuery(lower: string -> string, sqrt: real -> real, rows: seq<Row>, vector: seq<real>,
                         opts: QueryOptions, k: nat): seq<MemoryRecord>
  {
    var scanned := Project(FromRow(), Filter(InCampaignRow(opts.campaignId), rows));
    Nearest(lower, sqrt, scanned, vector, opts, k)
  }

  // ---- mapping and ranking commute ----

  function Via<A, B, C>(f: A -> B, g: B -> C): A -> C
  {
    (x: A) => g(f(x))
  }

  lemma {:induction false} FilterProject<A, B>(f: A -> B, p: B -> bool, rows: seq<A>)
    ensures Filter(p, Project(f, rows)) == Project(f, Filter(Via(f, p), rows))
    decreases |rows|
  {
    if |rows| > 0 {
      FilterProject(f, p, rows[1..]);
      var rest := Project(f, rows[1..]);
      assert ([f(rows[0])] + rest)[1..] == rest;
      var kept := Filter(Via(f, p), rows[1..]);
      assert ([rows[0]] + kept)[1..] == kept;
    }
  }

  lemma SameProject<A, B>(f: A -> B, g: A -> B, rows: seq<A>)
    requires forall x :: x in rows ==> f(x) == g(x)
    ensures Project(f, rows) == Project(g, rows)
  {
    hide Project;
    assert forall i :: 0 <= i < |rows| ==> rows[i] in rows;
  }

  lemma ProjectSnoc<A, B>(f: A -> B, rows: seq<A>, x: A)
    ensures Project(f, rows + [x]) == Project(f, rows) + [f(x)]
  {
    hide Project;
    var all := Project(f, rows + [x]);
    forall i | 0 <= i < |all|
      ensures all[i] == (Project(f, rows) + [f(x)])[i]
    {
    }
  }

  lemma {:induction false} InsertProject<A, B>(f: A -> B, s: B -> real, ranked: seq<A>, x: A)
    ensures InsertRanked(s, Project(f, ranked), f(x)) == Project(f, InsertRanked(Via(f, s), ranked, x))
    decreases |ranked|
  {
    hide Project;
    if |ranked| > 0 {
      var n := |ranked| - 1;
      assert ranked == ranked[..n] + [ranked[n]];
      InsertProject(f, s, ranked[..n], x);
      ProjectSnoc(f, ranked[..n], ranked[n]);
      ProjectSnoc(f, ranked, x);
      ProjectSnoc(f, InsertRanked(Via(f, s), ranked[..n], x), ranked[n]);
      assert (Project(f, ranked[..n]) + [f(ranked[n])])[..n] == Project(f, ranked[..n]);
    } else {
      assert Project(f, [x]) == [f(x)];
    }
  }

  lemma {:induction false} RankedProject<A, B>(f: A -> B, s: B -> real, rows: seq<A>)
    ensures Ranked(s, Project(f, rows)) == Project(f, Ranked(Via(f, s), rows))
    decreases |rows|
  {
    hide Project;
    if |rows| > 0 {
      var n := |rows| - 1;
      assert rows == rows[..n] + [rows[n]];
      RankedProject(f, s, rows[..n]);
      ProjectSnoc(f, rows[..n], rows[n]);
      assert (Project(f, rows[..n]) + [f(rows[n])])[..n] == Project(f, rows[..n]);
      InsertProject(f, s, Ranked(Via(f, s), rows[..n]), rows[n]);
    }
  }

  lemma {:induction false} SameInsert<A>(s: A -> real, t: A -> real, ranked: seq<A>, x: A)
    requires forall y: A :: s(y) == t(y)
    ensures InsertRanked(s, ranked, x) == InsertRanked(t, ranked, x)
    decreases |ranked|
  {
    if |ranked| > 0 {
      SameInsert(s, t, ranked[..|ranked| - 1], x);
    }
  }

  lemma {:induction false} SameRanked<A>(s: A -> real, t: A -> real, rows: seq<A>)
    requires forall y :: s(y) == t(y)
    ensures Ranked(s, rows) == Ranked(t, rows)
    decreases |rows|
  {
    if |rows| > 0 {
      var n := |rows| - 1;
      SameRanked(s, t, rows[..n]);
      SameInsert(s, t, Ranked(t, rows[..n]), rows[n]);
    }
  }

  lemma PrefixProject<A, B>(f: A -> B, rows: seq<A>, k: nat)
    ensures Prefix(Project(f, rows), k) == Project(f, Prefix(rows, k))
  {
    hide Project;
    var a, b := Prefix(Project(f, rows), k), Project(f, Prefix(rows, k));
    assert |a| == |b| && forall i :: 0 <= i < |a| ==> a[i] == b[i];
  }

  // ---- the metadata query is the in-memory one ----

  lemma NormalMatches(lower: string -> string, r: MemoryRecord, opts: QueryOptions)
    requires Storable(r)
    ensures MatchesQuery(lower, Normal()(r), opts) == MatchesQuery(lower, r, opts)
  {
    assert EffectiveAudience(Normal()(r)) == EffectiveAudience(r);
  }

  lemma StoredRecords(records: seq<MemoryRecord>, p: Row -> bool)
    requires forall r :: r in records ==> Storable(r)
    ensures Project(FromRow(), Filter(p, Project(ToRow(), records))) == Project(Normal(), Filter(Via(ToRow(), p), records))
  {
    hide Filter, Project, ToRow, FromRow, Normal, Storable;
    FilterProject(ToRow(), p, records);
    var kept := Filter(Via(ToRow(), p), records);
    var back, normal := Via(ToRow(), FromRow()), Normal();
    forall r | r in kept
      ensures back(r) == normal(r)
    {
      Restored(r);
    }
    ProjectTwice(ToRow(), FromRow(), kept);
    SameProject(back, normal, kept);
  }

  lemma Restored(r: MemoryRecord)
    requires Storable(r)
    ensures FromRow()(ToRow()(r)) == Normal()(r)
  {
    RoundTripExactly(r);
  }

  lemma ProjectTwice<A, B, C>(f: A -> B, g: B -> C, rows: seq<A>)
    ensures Project(g, Project(f, rows)) == Project(Via(f, g), rows)
  {
    hide Project;
    var a, b := Project(g, Project(f, rows)), Project(Via(f, g), rows);
    assert |a| == |b| && forall i :: 0 <= i < |a| ==> a[i] == b[i];
  }

  /** Packed rows filtered by metadata and ranked give the in-memory store's answer, in normal form. */
  lemma MetadataQueryAgrees(lower: string -> string, sqrt: real -> real, records: seq<MemoryRecord>, vector: seq<real>,
                            opts: QueryOptions, k: nat)
    requires forall r :: r in records ==> Storable(r)
    ensures MetadataQuery(lower, sqrt, Project(ToRow(), records), vector, opts, k)
         == Project(Normal(), Nearest(lower, sqrt, records, vector, opts, k))
  {
    hide Filter, Project, Ranked, MatchesQuery, Storable;
    var score, selects := ScoreAgainst(sqrt, vector), Selects(lower, opts);
    var inCampaign := Via(ToRow(), InCampaignRow(opts.campaignId));
    StoredRecords(records, InCampaignRow(opts.campaignId));
    var scanned := Filter(inCampaign, records);
    FilterProject(Normal(), selects, scanned);
    forall r | r in scanned
      ensures Via(Normal(), selects)(r) == selects(r)
    {
      NormalMatches(lower, r, opts);
    }
    SameFilter(Via(Normal(), selects), selects, scanned);
    forall r | r in records && selects(r)
      ensures inCampaign(r)
    {
      SelectsCampaign(lower, opts, r);
    }
    FilterWeaker(selects, inCampaign, records);
    var chosen := Filter(selects, records);
    RankedProject(Normal(), score, chosen);
    SameRanked(Via(Normal(), score), score, chosen);
    PrefixProject(Normal(), Ranked(score, chosen), k);
  }

  lemma SelectsCampaign(lower: string -> string, opts: QueryOptions, r: MemoryRecord)
    requires MatchesQuery(lower, r, opts)
    ensures r.metadata.campaignId == opts.campaignId
  {
  }

  // ---- the over-fetching vector query ----

  /** Cutting before or after dropping the dead: a prefix either way, and the same when enough live rows were fetched. */
  lemma CutAround<A>(live: A -> bool, ranked: seq<A>, fetch: nat, k: nat)
    ensures var got, exact := Prefix(Filter(live, Prefix(ranked, fetch)), k), Prefix(Filter(live, ranked), k);
      && got <= exact
      && (got == exact <==> |Filter(live, Prefix(ranked, fetch))| >= (if k <= |Filter(live, ranked)| then k else |Filter(live, ranked)|))
  {
    hide Filter;
    var fetched := Prefix(ranked, fetch);
    var rest := ranked[|fetched|..];
    assert ranked == fetched + rest;
    FilterConcat(live, fetched, rest);
    var a, b := Filter(live, fetched), Filter(live, rest);
    assert Filter(live, ranked) == a + b;
    if k <= |a| { assert (a + b)[..k] == a[..k]; }
  }

  predicate NoEmptyList(opts: QueryOptions)
  {
    (opts.kinds.Some? ==> |opts.kinds.value| > 0) && (opts.audiences.Some? ==> |opts.audiences.value| > 0)
  }

  lemma BaseThenLive(lower: string -> string, r: MemoryRecord, opts: QueryOptions)
    requires NoEmptyList(opts) && opts.metadata.None?
    ensures Selects(lower, opts)(r) <==> Via(ToRow(), BasePredicate(opts))(r) && Keeps(opts.includeTombstones)(r)
  {
  }

  lemma {:induction false} FilterBoth<A>(p: A -> bool, q: A -> bool, both: A -> bool, rows: seq<A>)
    requires forall x :: both(x) == (p(x) && q(x))
    ensures Filter(q, Filter(p, rows)) == Filter(both, rows)
    decreases |rows|
  {
    if |rows| > 0 {
      FilterBoth(p, q, both, rows[1..]);
      var f := Filter(p, rows[1..]);
      assert ([rows[0]] + f)[1..] == f;
    }
  }

  lemma KeepsNormal(includeTombstones: bool, rows: seq<MemoryRecord>)
    ensures Filter(Keeps(includeTombstones), Project(Normal(), rows)) == Project(Normal(), Filter(Keeps(includeTombstones), rows))
  {
    FilterProject(Normal(), Keeps(includeTombstones), rows);
    SameFilter(Via(Normal(), Keeps(includeTombstones)), Keeps(includeTombstones), rows);
  }

  /** The fetched rows, as records. */
  function Fetched(near: seq<real> -> real, records: seq<MemoryRecord>, opts: QueryOptions, fetch: nat): seq<MemoryRecord>
  {
    Prefix(Ranked(NearRecord(near), Filter(Via(ToRow(), BasePredicate(opts)), records)), fetch)
  }

  lemma SearchOnRecords(near: seq<real> -> real, records: seq<MemoryRecord>, opts: QueryOptions, fetch: nat)
    requires forall r :: r in records ==> Storable(r)
    ensures Project(FromRow(), TopK(NearRow(near), Filter(BasePredicate(opts), Project(ToRow(), records)), fetch))
         == Project(Normal(), Fetched(near, records, opts, fetch))
  {
    hide Filter, Project, Ranked, Storable;
    FilterProject(ToRow(), BasePredicate(opts), records);
    var base := Filter(Via(ToRow(), BasePredicate(opts)), records);
    RankedProject(ToRow(), NearRow(near), base);
    SameRanked(Via(ToRow(), NearRow(near)), NearRecord(near), base);
    var ranked := Ranked(NearRecord(near), base);
    PrefixProject(ToRow(), ranked, fetch);
    var found := Prefix(ranked, fetch);
    ProjectTwice(ToRow(), FromRow(), found);
    RankedSorts(NearRecord(near), base);
    var back, normal := Via(ToRow(), FromRow()), Normal();
    forall r | r in found
      ensures back(r) == normal(r)
    {
      assert r in multiset(ranked) && r in multiset(base);
      Restored(r);
    }
    SameProject(back, normal, found);
  }

  /** The exact live top-K of the same ranking. */
  function ExactTopK(lower: string -> string, near: seq<real> -> real, records: seq<MemoryRecord>, opts: QueryOptions, k: nat): seq<MemoryRecord>
  {
    TopK(NearRecord(near), Filter(Selects(lower, opts), records), k)
  }

  function Fetch(opts: QueryOptions, k: nat): nat
  {
    if opts.includeTombstones then k else 4 * k
  }

  lemma LiveRanking(lower: string -> string, near: seq<real> -> real, records: seq<MemoryRecord>, opts: QueryOptions)
    requires NoEmptyList(opts) && opts.metadata.None?
    ensures Ranked(NearRecord(near), Filter(Selects(lower, opts), records))
         == Filter(Keeps(opts.includeTombstones), Ranked(NearRecord(near), Filter(Via(ToRow(), BasePredicate(opts)), records)))
  {
    hide Filter, Ranked, MatchesQuery, NoEmptyList;
    var base, live, selects := Via(ToRow(), BasePredicate(opts)), Keeps(opts.includeTombstones), Selects(lower, opts);
    forall r ensures selects(r) == (base(r) && live(r)) { BaseThenLive(lower, r, opts); }
    FilterBoth(base, live, selects, records);
    RankedFilter(NearRecord(near), live, Filter(base, records));
  }

  /**
   * The vector query returns a prefix of the exact live top-K; it is the whole of it exactly when
   * the fetched rows hold as many live records as asked for, or as there are.
   */
  lemma VectorQueryIsPrefix(lower: string -> string, near: seq<real> -> real, records: seq<MemoryRecord>, opts: QueryOptions, k: nat)
    requires NoEmptyList(opts) && opts.metadata.None? && forall r :: r in records ==> Storable(r)
    ensures var got := VectorQuery(near, Project(ToRow(), records), opts, k);
      var exact := Project(Normal(), ExactTopK(lower, near, records, opts, k));
      && got <= exact
      && (got == exact <==> LiveFetched(near, records, opts, k) >= |exact|)
  {
    hide Filter, Project, Ranked, Storable, NoEmptyList, MatchesQuery;
    var keeps := Keeps(opts.includeTombstones);
    var fetched := Fetched(near, records, opts, Fetch(opts, k));
    var ranked := Ranked(NearRecord(near), Filter(Via(ToRow(), BasePredicate(opts)), records));
    SearchOnRecords(near, records, opts, Fetch(opts, k));
    KeepsNormal(opts.includeTombstones, fetched);
    PrefixProject(Normal(), Filter(keeps, fetched), k);
    LiveRanking(lower, near, records, opts);
    CutAround(keeps, ranked, Fetch(opts, k), k);
    var cut, exact := Prefix(Filter(keeps, fetched), k), ExactTopK(lower, near, records, opts, k);
    assert cut <= exact && (cut == exact <==> |Filter(keeps, fetched)| >= |exact|);
    ProjectPrefix(Normal(), cut, exact);
  }

  lemma ProjectPrefix<A, B>(f: A -> B, a: seq<A>, b: seq<A>)
    requires a <= b
    ensures Project(f, a) <= Project(f, b) && (Project(f, a) == Project(f, b) <==> a == b)
  {
    hide Project;
    var fa, fb := Project(f, a), Project(f, b);
    assert forall i :: 0 <= i < |fa| ==> fa[i] == fb[i];
    assert fb[..|fa|] == fa;
  }

  function Dead(): MemoryRecord -> bool
  {
    (r: MemoryRecord) => Tombstoned(r)
  }

  lemma {:induction false} LiveAndDead(rows: seq<MemoryRecord>)
    ensures |Filter(Keeps(false), rows)| + Count(Dead(), rows) == |rows|
    decreases |rows|
  {
    if |rows| > 0 { LiveAndDead(rows[1..]); }
  }

  /** At most 3·K tombstones among the first 4·K ranked records are enough for the exact answer. */
  lemma OverFetchSuffices(lower: string -> string, near: seq<real> -> real, records: seq<MemoryRecord>, opts: QueryOptions, k: nat)
    requires NoEmptyList(opts) && opts.metadata.None? && !opts.includeTombstones && forall r :: r in records ==> Storable(r)
    requires Count(Dead(), Fetched(near, records, opts, 4 * k)) <= 3 * k
    ensures VectorQuery(near, Project(ToRow(), records), opts, k) == Project(Normal(), ExactTopK(lower, near, records, opts, k))
  {
    hide Filter, Project, Ranked, Storable, NoEmptyList, MatchesQuery, Count;
    var keeps := Keeps(false);
    var fetched := Fetched(near, records, opts, 4 * k);
    var ranked := Ranked(NearRecord(near), Filter(Via(ToRow(), BasePredicate(opts)), records));
    LiveAndDead(fetched);
    VectorQueryIsPrefix(lower, near, records, opts, k);
    LiveRanking(lower, near, records, opts);
    if |ranked| <= 4 * k {
      assert fetched == ranked;
    } else {
      assert |fetched| == 4 * k;
    }
  }

  // ---- empty lists ----

  function Relax<T>(list: Option<seq<T>>): Option<seq<T>>
  {
    if list.Some? && |list.value| == 0 then None else list
  }

  /** The options with an empty list of kinds or audiences read as no list. */
  function Relaxed(opts: QueryOptions): QueryOptions
  {
    opts.(kinds := Relax(opts.kinds), audiences := Relax(opts.audiences))
  }

  /** For the vector search an empty list restricts nothing: an empty list of audiences searches every audience. */
  lemma EmptyListsSearchEverything(near: seq<real> -> real, rows: seq<Row>, opts: QueryOptions, k: nat)
    ensures VectorQuery(near, rows, opts, k) == VectorQuery(near, rows, Relaxed(opts), k)
  {
    SameFilter(BasePredicate(opts), BasePredicate(Relaxed(opts)), rows);
  }

  /** In memory an empty list selects nothing. */
  lemma EmptyListsSelectNothing(lower: string -> string, sqrt: real -> real, records: seq<MemoryRecord>, vector: seq<real>,
                                opts: QueryOptions, k: nat)
    requires !NoEmptyList(opts)
    ensures Filter(Selects(lower, opts), records) == [] && Nearest(lower, sqrt, records, vector, opts, k) == []
  {
    forall r | r in records
      ensures !Selects(lower, opts)(r)
    {
      NeverMatches(lower, r, opts);
    }
    FilterNone(Selects(lower, opts), records);
  }

  lemma NeverMatches(lower: string -> string, r: MemoryRecord, opts: QueryOptions)
    requires !NoEmptyList(opts)
    ensures !MatchesQuery(lower, r, opts)
  {
    hide MatchesMetadataFilter;
  }

  lemma RelaxedIsNonEmpty(opts: QueryOptions)
    ensures NoEmptyList(Relaxed(opts)) && Relaxed(opts).metadata == opts.metadata
    ensures Relaxed(opts).includeTombstones == opts.includeTombstones
    ensures NoEmptyList(opts) ==> Relaxed(opts) == opts
  {
  }

  /** The live records among those the vector search fetches. */
  function LiveFetched(near: seq<real> -> real, records: seq<MemoryRecord>, opts: QueryOptions, k: nat): nat
  {
    |Filter(Keeps(opts.includeTombstones), Fetched(near, records, opts, Fetch(opts, k)))|
  }

  lemma FetchedRelaxed(near: seq<real> -> real, records: seq<MemoryRecord>, opts: QueryOptions, fetch: nat)
    ensures Fetched(near, records, opts, fetch) == Fetched(near, records, Relaxed(opts), fetch)
  {
    SameFilter(Via(ToRow(), BasePredicate(opts)), Via(ToRow(), BasePredicate(Relaxed(opts))), records);
  }

  /**
   * The two stores agree on a vector query exactly when: without empty lists, enough live records were
   * fetched; with an empty list, nothing was asked for or no live record was fetched at all.
   */
  lemma StoresAgreeExactly(lower: string -> string, near: seq<real> -> real, records: seq<MemoryRecord>, opts: QueryOptions, k: nat)
    requires opts.metadata.None? && forall r :: r in records ==> Storable(r)
    ensures var got := VectorQuery(near, Project(ToRow(), records), opts, k);
      var exact := Project(Normal(), ExactTopK(lower, near, records, opts, k));
      got == exact <==>
      if NoEmptyList(opts) then LiveFetched(near, records, opts, k) >= |exact| else k == 0 || LiveFetched(near, records, opts, k) == 0
  {
    hide Filter, Project, Ranked, Storable, MatchesQuery, BasePredicate;
    if NoEmptyList(opts) {
      VectorQueryIsPrefix(lower, near, records, opts, k);
    } else {
      var relaxed := Relaxed(opts);
      RelaxedIsNonEmpty(opts);
      EmptyListsSearchEverything(near, Project(ToRow(), records), opts, k);
      EmptySelection(lower, near, records, opts, k);
      FetchedRelaxed(near, records, opts, Fetch(opts, k));
      VectorQuerySize(near, records, relaxed, k);
    }
  }

  lemma EmptySelection(lower: string -> string, near: seq<real> -> real, records: seq<MemoryRecord>, opts: QueryOptions, k: nat)
    requires !NoEmptyList(opts)
    ensures Project(Normal(), ExactTopK(lower, near, records, opts, k)) == []
  {
    EmptyListsSelectNothing(lower, x => x, records, [], opts, k);
  }

  lemma VectorQuerySize(near: seq<real> -> real, records: seq<MemoryRecord>, opts: QueryOptions, k: nat)
    requires forall r :: r in records ==> Storable(r)
    ensures |VectorQuery(near, Project(ToRow(), records), opts, k)|
         == if k <= LiveFetched(near, records, opts, k) then k else LiveFetched(near, records, opts, k)
  {
    hide Filter, Project, Ranked, Storable, BasePredicate;
    SearchOnRecords(near, records, opts, Fetch(opts, k));
    KeepsNormal(opts.includeTombstones, Fetched(near, records, opts, Fetch(opts, k)));
  }

  /** One live record and an empty list: nothing in memory, the record from the vector search, whoever it is for. */
  lemma EmptyListFinds(near: seq<real> -> real, r: MemoryRecord, opts: QueryOptions)
    requires Relaxed(opts) == QueryOptions(r.metadata.campaignId, None, None, None, false) && !NoEmptyList(opts)
    requires !Tombstoned(r) && Storable(r)
    ensures VectorQuery(near, [ToRow()(r)], opts, 1) == [Normal()(r)]
  {
    var relaxed := Relaxed(opts);
    var row := ToRow()(r);
    EmptyListsSearchEverything(near, [row], opts, 1);
    Restored(r);
    assert Filter(BasePredicate(relaxed), [row]) == [row];
    assert [row][..0] == [];
    assert Ranked(NearRow(near), [row]) == [row];
    assert Project(FromRow(), [row]) == [Normal()(r)];
    assert Filter(Keeps(false), [Normal()(r)]) == [Normal()(r)];
  }

  /** Where the two stores part on kinds. */
  lemma EmptyKindsDiffer(lower: string -> string, near: seq<real> -> real, r: MemoryRecord)
    requires !Tombstoned(r) && Storable(r)
    ensures var opts := QueryOptions(r.metadata.campaignId, Some([]), None, None, false);
      Filter(Selects(lower, opts), [r]) == [] && VectorQuery(near, [ToRow()(r)], opts, 1) == [Normal()(r)]
  {
    var opts := QueryOptions(r.metadata.campaignId, Some([]), None, None, false);
    EmptyListFinds(near, r, opts);
    EmptyListsSelectNothing(lower, x => x, [r], [], opts, 1);
  }

  /** And on audiences: no audience in memory, every audience in the vector search. */
  lemma EmptyAudiencesDiffer(lower: string -> string, near: seq<real> -> real, r: MemoryRecord)
    requires !Tombstoned(r) && Storable(r)
    ensures var opts := QueryOptions(r.metadata.campaignId, None, Some([]), None, false);
      Filter(Selects(lower, opts), [r]) == [] && VectorQuery(near, [ToRow()(r)], opts, 1) == [Normal()(r)]
  {
    var opts := QueryOptions(r.metadata.campaignId, None, Some([]), None, false);
    EmptyListFinds(near, r, opts);
    EmptyListsSelectNothing(lower, x => x, [r], [], opts, 1);
  }
}
