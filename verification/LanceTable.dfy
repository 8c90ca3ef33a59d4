/** The vector store over its table simulates the in-memory store, in normal form (lance_memory_store.ts). */
module LanceTable {
  import opened Options
  import opened Tables
  import opened Ranking
  import opened MemoryStore
  import opened LanceStore

  /** `mergeInsert("id")`: the row of that id is replaced, or the new one added. */
  function MergeRow(rows: seq<Row>, row: Row): seq<Row>
  {
    if |rows| == 0 then [row]
    else if rows[0].id == row.id then [row] + rows[1..]
    else [rows[0]] + MergeRow(rows[1..], row)
  }

  lemma {:induction false} MergePacks(records: seq<MemoryRecord>, r: MemoryRecord)
    ensures MergeRow(Project(ToRow(), records), ToRow()(r)) == Project(ToRow(), Put(records, r))
    decreases |records|
  {
    if |records| > 0 {
      var rows := Project(ToRow(), records);
      var tail := records[1..];
      MergePacks(tail, r);
      assert rows[1..] == Project(ToRow(), tail) && rows[0] == ToRow()(records[0]);
      assert ([r] + tail)[1..] == tail && ([records[0]] + Put(tail, r))[1..] == Put(tail, r);
    } else {
      assert Project(ToRow(), [r]) == [ToRow()(r)];
    }
  }

  /** A first batch of distinct ids is stored as it is. */
  lemma {:induction false} FreshBatch(records: seq<MemoryRecord>, rs: seq<MemoryRecord>)
    requires UniqueIds(records + rs)
    ensures PutAll(records, rs) == records + rs
    decreases |rs|
  {
    if |rs| == 0 {
      assert records + rs == records;
    } else {
      assert forall i :: 0 <= i < |records| ==> (records + rs)[i] == records[i];
      assert (records + rs)[|records|] == rs[0];
      PutAppends(records, rs[0]);
      assert records + rs == (records + [rs[0]]) + rs[1..];
      FreshBatch(records + [rs[0]], rs[1..]);
    }
  }

  lemma {:induction false} PutAppends(records: seq<MemoryRecord>, r: MemoryRecord)
    requires forall i :: 0 <= i < |records| ==> records[i].id != r.id
    ensures Put(records, r) == records + [r]
    decreases |records|
  {
    if |records| > 0 {
      PutAppends(records[1..], r);
      assert [records[0]] + (records[1..] + [r]) == records + [r];
    }
  }

  /** A first batch is what the in-memory store would hold exactly when its ids are distinct. */
  lemma FirstBatchExactly(rs: seq<MemoryRecord>)
    ensures Project(ToRow(), rs) == Project(ToRow(), PutAll([], rs)) <==> UniqueIds(rs)
  {
    hide ToRow, Project;
    assert [] + rs == rs;
    if UniqueIds(rs) { FreshBatch([], rs); }
    PutAllUpdates([], rs);
    RowIds(rs);
    RowIds(PutAll([], rs));
  }

  lemma RowIds(rs: seq<MemoryRecord>)
    ensures |Project(ToRow(), rs)| == |rs| && forall i :: 0 <= i < |rs| ==> Project(ToRow(), rs)[i].id == rs[i].id
  {
    hide Project;
  }

  function HasAudience(audience: string): Row -> bool
  {
    (row: Row) => row.audience == audience
  }

  class LanceMemoryStore {
    const lower: string -> string
    const sqrt: real -> real
    const near: (seq<real>, seq<real>) -> real
    var table: Option<seq<Row>>
    /** What the in-memory store would hold after the same calls. */
    ghost var mirror: seq<MemoryRecord>

    ghost predicate Valid()
      reads this
    {
      && UniqueIds(mirror) && (forall r :: r in mirror ==> Storable(r))
      && (if table.Some? then table.value == Project(ToRow(), mirror) else mirror == [])
    }

    constructor (lower: string -> string, sqrt: real -> real, near: (seq<real>, seq<real>) -> real)
      ensures Valid() && mirror == []
    {
      this.lower, this.sqrt, this.near := lower, sqrt, near;
      table, mirror := None, [];
    }

    /**
     * The table follows the in-memory store, except that the first batch creates it as it is: that one
     * must hold distinct ids to do so.
     */
    method Upsert(rs: seq<MemoryRecord>)
      requires Valid() && forall r :: r in rs ==> Storable(r)
      modifies this
      ensures mirror == PutAll(old(mirror), rs) && (Valid() <==> old(table).Some? || UniqueIds(rs))
      ensures old(table).None? && |rs| > 0 ==> table == Some(Project(ToRow(), rs))
    {
      hide Storable, ToRow, Project;
      if |rs| == 0 { return; }
      PutAllUpdates(mirror, rs);
      PutAllStorable(mirror, rs);
      if table.None? {
        FirstBatchExactly(rs);
        table := Some(Project(ToRow(), rs));
        mirror := PutAll(mirror, rs);
        return;
      }
      ghost var after := PutAll(mirror, rs);
      var i := 0;
      assert rs[0..] == rs;
      while i < |rs|
        invariant i <= |rs| && table.Some? && table.value == Project(ToRow(), mirror)
        invariant PutAll(mirror, rs[i..]) == after
      {
        MergePacks(mirror, rs[i]);
        table := Some(MergeRow(table.value, ToRow()(rs[i])));
        assert rs[i..][1..] == rs[i + 1..];
        mirror := Put(mirror, rs[i]);
        i := i + 1;
      }
    }

    method QueryByMetadata(vector: seq<real>, opts: QueryOptions, k: nat) returns (found: seq<MemoryRecord>)
      requires Valid() && opts.metadata.Some?
      ensures found == Project(Normal(), Nearest(lower, sqrt, mirror, vector, opts, k))
    {
      var rows := if table.Some? then table.value else [];
      MetadataQueryAgrees(lower, sqrt, mirror, vector, opts, k);
      assert rows == Project(ToRow(), mirror);
      found := MetadataQuery(lower, sqrt, rows, vector, opts, k);
    }

    method QueryByVector(vector: seq<real>, opts: QueryOptions, k: nat) returns (found: seq<MemoryRecord>)
      requires Valid() && opts.metadata.None?
      ensures var exact := Project(Normal(), ExactTopK(lower, v => near(vector, v), mirror, Relaxed(opts), k));
        found <= exact && (found == exact <==> LiveFetched(v => near(vector, v), mirror, opts, k) >= |exact|)
      ensures |found| <= k
    {
      var distance := v => near(vector, v);
      RelaxedIsNonEmpty(opts);
      VectorQueryIsPrefix(lower, distance, mirror, Relaxed(opts), k);
      EmptyListsSearchEverything(distance, Project(ToRow(), mirror), opts, k);
      FetchedRelaxed(distance, mirror, opts, Fetch(opts, k));
      hide Filter, Project, Ranked, BasePredicate;
      var rows := if table.Some? then table.value else [];
      assert rows == Project(ToRow(), mirror) by { EmptyTable(); }
      found := VectorQuery(distance, rows, opts, k);
    }

    lemma EmptyTable()
      ensures Project(ToRow(), []) == []
    {
    }

    method DeleteByAudience(audience: string) returns (removed: nat)
      requires Valid()
      modifies this
      ensures Valid() && mirror == Filter(Not(ForAudience(audience)), old(mirror)) && removed + |mirror| == old(|mirror|)
    {
      if table.None? { return 0; }
      FilterKeepsUnique(Not(ForAudience(audience)), mirror);
      FilterProject(ToRow(), Not(HasAudience(audience)), mirror);
      SameFilter(Via(ToRow(), Not(HasAudience(audience))), Not(ForAudience(audience)), mirror);
      var kept := Filter(Not(HasAudience(audience)), table.value);
      removed := |table.value| - |kept|;
      table := Some(kept);
      mirror := Filter(Not(ForAudience(audience)), mirror);
    }
  }

  lemma {:induction false} PutAllStorable(records: seq<MemoryRecord>, rs: seq<MemoryRecord>)
    requires UniqueIds(records) && (forall r :: r in records ==> Storable(r)) && forall r :: r in rs ==> Storable(r)
    ensures forall r :: r in PutAll(records, rs) ==> Storable(r)
    decreases |rs|
  {
    hide Storable;
    if |rs| > 0 {
      PutKeepsUnique(records, rs[0]);
      PutMembers(records, rs[0]);
      assert rs[0] in rs && forall r :: r in rs[1..] ==> r in rs;
      PutAllStorable(Put(records, rs[0]), rs[1..]);
    }
  }
}
