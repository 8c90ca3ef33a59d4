/** Stable descending ranking by score, as the stores' `sort` and `slice` do it. */
module Ranking {
  import opened Tables

  function InsertRanked<R>(score: R -> real, ranked: seq<R>, x: R): seq<R>
  {
    if |ranked| == 0 then [x]
    else
      var n := |ranked| - 1;
      if score(ranked[n]) >= score(x) then ranked + [x] else InsertRanked(score, ranked[..n], x) + [ranked[n]]
  }

  function Ranked<R>(score: R -> real, rows: seq<R>): seq<R>
  {
    if |rows| == 0 then [] else InsertRanked(score, Ranked(score, rows[..|rows| - 1]), rows[|rows| - 1])
  }

  function Prefix<R>(rows: seq<R>, k: nat): seq<R>
  {
    if k <= |rows| then rows[..k] else rows
  }

  function TopK<R>(score: R -> real, rows: seq<R>, k: nat): seq<R>
  {
    Prefix(Ranked(score, rows), k)
  }

  ghost predicate Descending<R>(score: R -> real, rows: seq<R>)
  {
    forall i, j :: 0 <= i < j < |rows| ==> score(rows[i]) >= score(rows[j])
  }

  lemma {:induction false} InsertPermutes<R>(score: R -> real, ranked: seq<R>, x: R)
    ensures multiset(InsertRanked(score, ranked, x)) == multiset(ranked) + multiset{x}
    decreases |ranked|
  {
    if |ranked| > 0 {
      var n := |ranked| - 1;
      assert ranked == ranked[..n] + [ranked[n]];
      InsertPermutes(score, ranked[..n], x);
    }
  }

  lemma {:induction false} InsertBounded<R>(score: R -> real, ranked: seq<R>, x: R, floor: real)
    requires forall i :: 0 <= i < |ranked| ==> score(ranked[i]) >= floor
    requires score(x) >= floor
    ensures forall i :: 0 <= i < |InsertRanked(score, ranked, x)| ==> score(InsertRanked(score, ranked, x)[i]) >= floor
    decreases |ranked|
  {
    if |ranked| > 0 { InsertBounded(score, ranked[..|ranked| - 1], x, floor); }
  }

  lemma {:induction false} InsertKeepsOrder<R>(score: R -> real, ranked: seq<R>, x: R)
    requires Descending(score, ranked)
    ensures Descending(score, InsertRanked(score, ranked, x))
    decreases |ranked|
  {
    if |ranked| > 0 {
      var n := |ranked| - 1;
      InsertKeepsOrder(score, ranked[..n], x);
      if score(ranked[n]) < score(x) { InsertBounded(score, ranked[..n], x, score(ranked[n])); }
    }
  }

  lemma {:induction false} RankedSorts<R>(score: R -> real, rows: seq<R>)
    ensures Descending(score, Ranked(score, rows))
    ensures multiset(Ranked(score, rows)) == multiset(rows) && |Ranked(score, rows)| == |rows|
    decreases |rows|
  {
    if |rows| > 0 {
      var n := |rows| - 1;
      RankedSorts(score, rows[..n]);
      InsertKeepsOrder(score, Ranked(score, rows[..n]), rows[n]);
      InsertPermutes(score, Ranked(score, rows[..n]), rows[n]);
      assert rows == rows[..n] + [rows[n]];
    }
    assert |multiset(Ranked(score, rows))| == |Ranked(score, rows)| && |multiset(rows)| == |rows|;
  }

  lemma {:induction false} InsertFilter<R>(score: R -> real, keep: R -> bool, ranked: seq<R>, x: R)
    requires Descending(score, ranked)
    ensures Filter(keep, InsertRanked(score, ranked, x))
         == if keep(x) then InsertRanked(score, Filter(keep, ranked), x) else Filter(keep, ranked)
    decreases |ranked|
  {
    hide Filter;
    if |ranked| == 0 {
      assert [] + [x] == [x] && ranked == [];
      FilterSnoc(keep, [], x);
      assert |Filter(keep, ranked)| == 0;
    } else {
      var n := |ranked| - 1;
      var init, last := ranked[..n], ranked[n];
      var inner := InsertRanked(score, init, x);
      assert ranked == init + [last];
      FilterSnoc(keep, ranked, x);
      FilterSnoc(keep, init, last);
      FilterSnoc(keep, inner, last);
      InsertFilter(score, keep, init, x);
      var f := Filter(keep, init);
      assert Filter(keep, ranked) == if keep(last) then f + [last] else f;
      assert (f + [last])[..|f|] == f;
      if score(last) >= score(x) {
        assert forall y :: y in Filter(keep, ranked) ==> score(y) >= score(x);
      }
    }
  }

  /** Ranking then filtering is filtering then ranking; ties keep their order either way. */
  lemma {:induction false} RankedFilter<R>(score: R -> real, keep: R -> bool, rows: seq<R>)
    ensures Filter(keep, Ranked(score, rows)) == Ranked(score, Filter(keep, rows))
    decreases |rows|
  {
    if |rows| > 0 {
      hide Filter;
      var n := |rows| - 1;
      assert rows == rows[..n] + [rows[n]];
      RankedFilter(score, keep, rows[..n]);
      RankedSorts(score, rows[..n]);
      InsertFilter(score, keep, Ranked(score, rows[..n]), rows[n]);
      FilterSnoc(keep, rows[..n], rows[n]);
      var f := Filter(keep, rows[..n]);
      assert (f + [rows[n]])[..|f|] == f && f + [] == f;
    }
  }

  function ScoresExactly<R>(score: R -> real, v: real): R -> bool
  {
    (x: R) => score(x) == v
  }

  lemma {:induction false} TiesStay<R>(score: R -> real, rows: seq<R>, v: real)
    requires forall x :: x in rows ==> score(x) == v
    ensures Ranked(score, rows) == rows
    decreases |rows|
  {
    if |rows| > 0 {
      var n := |rows| - 1;
      assert rows == rows[..n] + [rows[n]];
      TiesStay(score, rows[..n], v);
    }
  }

  /** The ranking is stable: rows of one score come out in the order they went in. */
  lemma RankedIsStable<R>(score: R -> real, rows: seq<R>, v: real)
    ensures Filter(ScoresExactly(score, v), Ranked(score, rows)) == Filter(ScoresExactly(score, v), rows)
  {
    RankedFilter(score, ScoresExactly(score, v), rows);
    TiesStay(score, Filter(ScoresExactly(score, v), rows), v);
  }

  /** The top `k` are `k` of the rows, or all of them, and no row left out scores higher than one taken. */
  lemma TopKIsBest<R>(score: R -> real, rows: seq<R>, k: nat) returns (rest: seq<R>)
    ensures |TopK(score, rows, k)| == if k <= |rows| then k else |rows|
    ensures multiset(rows) == multiset(TopK(score, rows, k)) + multiset(rest)
    ensures Descending(score, TopK(score, rows, k))
    ensures forall i, j :: 0 <= i < |TopK(score, rows, k)| && 0 <= j < |rest| ==>
      score(TopK(score, rows, k)[i]) >= score(rest[j])
  {
    hide Ranked;
    RankedSorts(score, rows);
    var ranked, top := Ranked(score, rows), TopK(score, rows, k);
    rest := ranked[|top|..];
    assert ranked == top + rest;
    assert forall j :: 0 <= j < |rest| ==> rest[j] == ranked[|top| + j];
    assert forall i :: 0 <= i < |top| ==> top[i] == ranked[i];
  }
}
