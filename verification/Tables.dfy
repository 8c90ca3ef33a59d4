/** Row-by-row facts about database tables, used by the PII migration and by the memory stores. */
module Tables {
  import opened Options

  function Filter<R>(keep: R -> bool, rows: seq<R>): (r: seq<R>)
    ensures |r| <= |rows|
    ensures forall x :: x in r ==> x in rows && keep(x)
    ensures forall x :: x in rows && keep(x) ==> x in r
  {
    if |rows| == 0 then []
    else if keep(rows[0]) then [rows[0]] + Filter(keep, rows[1..])
    else Filter(keep, rows[1..])
  }

  function Project<R, V>(view: R -> V, rows: seq<R>): (r: seq<V>)
    ensures |r| == |rows| && forall i :: 0 <= i < |r| ==> r[i] == view(rows[i])
  {
    if |rows| == 0 then [] else [view(rows[0])] + Project(view, rows[1..])
  }

  function Count<R>(p: R -> bool, rows: seq<R>): nat
  {
    if |rows| == 0 then 0 else (if p(rows[0]) then 1 else 0) + Count(p, rows[1..])
  }

  /** The two tables have the same rows in the same order, each pair related. */
  ghost predicate RowWise<R>(rel: (R, R) -> bool, a: seq<R>, b: seq<R>)
  {
    |a| == |b| && forall i :: 0 <= i < |a| ==> rel(a[i], b[i])
  }

  function OrUntouched<R(==)>(rel: (R, R) -> bool): (R, R) -> bool
  {
    (r: R, r': R) => r' == r || rel(r, r')
  }

  /** A pass over the table `rows` that has reached row `i`: `now` is rewritten below it and as before from it on. */
  ghost predicate Reached<R>(rel: (R, R) -> bool, rows: seq<R>, now: seq<R>, i: nat)
  {
    && i <= |now| == |rows|
    && (forall k :: 0 <= k < i ==> rel(rows[k], now[k]))
    && (forall k :: i <= k < |rows| ==> now[k] == rows[k])
  }

  lemma ReachedNone<R>(rel: (R, R) -> bool, rows: seq<R>)
    ensures Reached(rel, rows, rows, 0)
  {
  }

  lemma ReachNext<R>(rel: (R, R) -> bool, rows: seq<R>, now: seq<R>, i: nat, r: R)
    requires Reached(rel, rows, now, i) && i < |rows| && rel(rows[i], r)
    ensures Reached(rel, rows, now[i := r], i + 1)
    ensures r == rows[i] ==> now[i := r] == now
  {
  }

  lemma ReachedSoFar<R>(rel: (R, R) -> bool, rows: seq<R>, now: seq<R>, i: nat)
    requires Reached(rel, rows, now, i)
    ensures RowWise(OrUntouched(rel), rows, now)
    ensures i == |rows| ==> RowWise(rel, rows, now)
  {
  }

  lemma CountSnoc<R>(p: R -> bool, rows: seq<R>, x: R)
    ensures Count(p, rows + [x]) == Count(p, rows) + (if p(x) then 1 else 0)
  {
    CountConcat(p, rows, [x]);
  }

  /** What one more row of a table adds to the count of the rows before it, which never exceeds the whole count. */
  lemma CountUpTo<R>(p: R -> bool, rows: seq<R>, i: nat)
    requires i < |rows|
    ensures Count(p, rows[..i + 1]) == Count(p, rows[..i]) + (if p(rows[i]) then 1 else 0) <= Count(p, rows)
  {
    assert rows[..i + 1] == rows[..i] + [rows[i]] && rows == rows[..i + 1] + rows[i + 1..];
    CountSnoc(p, rows[..i], rows[i]);
    CountConcat(p, rows[..i + 1], rows[i + 1..]);
  }

  lemma {:induction false} CountConcat<R>(p: R -> bool, a: seq<R>, b: seq<R>)
    ensures Count(p, a + b) == Count(p, a) + Count(p, b)
    decreases |a|
  {
    if |a| == 0 {
      assert a + b == b;
    } else {
      assert (a + b)[1..] == a[1..] + b;
      CountConcat(p, a[1..], b);
    }
  }

  lemma {:induction false} CountZero<R>(p: R -> bool, rows: seq<R>)
    requires forall i :: 0 <= i < |rows| ==> !p(rows[i])
    ensures Count(p, rows) == 0
    decreases |rows|
  {
    if |rows| > 0 { CountZero(p, rows[1..]); }
  }

  lemma {:induction false} FilterConcat<R>(keep: R -> bool, a: seq<R>, b: seq<R>)
    ensures Filter(keep, a + b) == Filter(keep, a) + Filter(keep, b)
    decreases |a|
  {
    if |a| == 0 {
      assert a + b == b;
    } else {
      assert (a + b)[1..] == a[1..] + b;
      FilterConcat(keep, a[1..], b);
    }
  }

  lemma FilterSnoc<R>(keep: R -> bool, rows: seq<R>, x: R)
    ensures Filter(keep, rows + [x]) == Filter(keep, rows) + (if keep(x) then [x] else [])
  {
    FilterConcat(keep, rows, [x]);
  }

  lemma FilterCons<R>(keep: R -> bool, x: R, rows: seq<R>)
    ensures Filter(keep, [x] + rows) == if keep(x) then [x] + Filter(keep, rows) else Filter(keep, rows)
  {
    assert ([x] + rows)[1..] == rows;
  }

  lemma {:induction false} FilterNone<R>(keep: R -> bool, rows: seq<R>)
    requires forall x :: x in rows ==> !keep(x)
    ensures Filter(keep, rows) == []
    decreases |rows|
  {
    if |rows| > 0 {
      assert rows[0] in rows && forall x :: x in rows[1..] ==> x in rows;
      FilterNone(keep, rows[1..]);
    }
  }

  lemma {:induction false} SameFilter<R>(p: R -> bool, q: R -> bool, rows: seq<R>)
    requires forall x :: x in rows ==> p(x) == q(x)
    ensures Filter(p, rows) == Filter(q, rows)
    decreases |rows|
  {
    if |rows| > 0 {
      assert rows[0] in rows && forall x :: x in rows[1..] ==> x in rows;
      SameFilter(p, q, rows[1..]);
    }
  }

  function Not<R>(p: R -> bool): R -> bool
  {
    (x: R) => !p(x)
  }

  ghost predicate NoRepeats<T>(s: seq<T>)
  {
    forall i, j :: 0 <= i < j < |s| ==> s[i] != s[j]
  }

  /** Filtering by a weaker test first changes nothing. */
  lemma {:induction false} FilterWeaker<R>(strong: R -> bool, weak: R -> bool, rows: seq<R>)
    requires forall x :: x in rows && strong(x) ==> weak(x)
    ensures Filter(strong, Filter(weak, rows)) == Filter(strong, rows)
    decreases |rows|
  {
    if |rows| > 0 {
      assert forall x :: x in rows[1..] ==> x in rows;
      FilterWeaker(strong, weak, rows[1..]);
      var f := Filter(weak, rows[1..]);
      if weak(rows[0]) { assert ([rows[0]] + f)[1..] == f; }
    }
  }

  /** Filtering and rewriting rows commute when a rewrite never changes which rows are kept. */
  lemma {:induction false} FilterCommutes<R, V>(rel: (R, R) -> bool, keep: R -> bool, view: R -> V,
                                                rows: seq<R>, early: seq<R>, late: seq<R>)
    requires RowWise(rel, rows, early) && RowWise(rel, Filter(keep, rows), late)
    requires forall i :: 0 <= i < |rows| ==> keep(early[i]) == keep(rows[i])
    requires forall i, j :: 0 <= i < |rows| && 0 <= j < |late| && rel(rows[i], late[j]) ==> view(early[i]) == view(late[j])
    ensures Project(view, Filter(keep, early)) == Project(view, late)
    decreases |rows|
  {
    if |rows| > 0 {
      var f, g := Filter(keep, rows[1..]), Filter(keep, early[1..]);
      if keep(rows[0]) {
        assert Filter(keep, rows) == [rows[0]] + f && Filter(keep, early) == [early[0]] + g;
        assert ([rows[0]] + f)[1..] == f && ([early[0]] + g)[1..] == g;
        FilterCommutes(rel, keep, view, rows[1..], early[1..], late[1..]);
        assert rel(rows[0], late[0]);
      } else {
        FilterCommutes(rel, keep, view, rows[1..], early[1..], late);
      }
    }
  }

  /** A table whose rows pass less often keeps fewer rows. */
  lemma {:induction false} FilterShrinks<R>(keep: R -> bool, a: seq<R>, b: seq<R>)
    requires |a| == |b| && forall i :: 0 <= i < |a| && keep(b[i]) ==> keep(a[i])
    ensures |Filter(keep, b)| <= |Filter(keep, a)|
    ensures (exists i :: 0 <= i < |a| && keep(a[i]) && !keep(b[i])) ==> |Filter(keep, b)| < |Filter(keep, a)|
    decreases |a|
  {
    if |a| > 0 {
      FilterShrinks(keep, a[1..], b[1..]);
      if i :| 0 < i < |a| && keep(a[i]) && !keep(b[i]) {
        assert keep(a[1..][i - 1]) && !keep(b[1..][i - 1]);
      }
    }
  }

  /** The row that wins a lookup: the largest key among the matching rows, the later row on a tie. */
  function LatestIndex<R>(match_: R -> bool, key: R -> int, rows: seq<R>): (r: Option<nat>)
    ensures r.Some? ==> r.value < |rows| && match_(rows[r.value])
    ensures r.Some? ==> forall i :: 0 <= i < |rows| && match_(rows[i]) ==>
      key(rows[i]) < key(rows[r.value]) || (key(rows[i]) == key(rows[r.value]) && i <= r.value)
    ensures r.None? ==> forall i :: 0 <= i < |rows| ==> !match_(rows[i])
  {
    if |rows| == 0 then None
    else
      var last := |rows| - 1;
      var r := LatestIndex(match_, key, rows[..last]);
      if match_(rows[last]) && (r.None? || key(rows[r.value]) <= key(rows[last])) then Some(last) else r
  }

  /** A lookup picks the same position in two tables whose rows match alike and have the same keys. */
  lemma {:induction false} LatestAgrees<R>(match_: R -> bool, key: R -> int, a: seq<R>, b: seq<R>)
    requires |a| == |b| && forall i :: 0 <= i < |a| ==> match_(a[i]) == match_(b[i]) && key(a[i]) == key(b[i])
    ensures LatestIndex(match_, key, a) == LatestIndex(match_, key, b)
    decreases |a|
  {
    if |a| > 0 { LatestAgrees(match_, key, a[..|a| - 1], b[..|a| - 1]); }
  }
}
