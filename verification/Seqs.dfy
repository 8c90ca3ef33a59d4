/** Sequence facts shared by the models. */
module Seqs {

  lemma Assoc<T>(a: seq<T>, b: seq<T>, c: seq<T>)
    ensures (a + b) + c == a + (b + c)
  {
  }

  /** Cutting a concatenation at or after the seam. */
  lemma CutAfter<T>(a: seq<T>, b: seq<T>, n: nat)
    requires |a| <= n <= |a| + |b|
    ensures (a + b)[..n] == a + b[..n - |a|]
    ensures (a + b)[n..] == b[n - |a|..]
  {
  }

  /** Two ways to cut one sequence, the first cut no later than the second. */
  lemma SplitsAlign<T>(a: seq<T>, b: seq<T>, c: seq<T>, d: seq<T>)
    requires a + b == c + d && |a| <= |c|
    ensures c == a + b[..|c| - |a|] && d == b[|c| - |a|..]
  {
    CutAfter(a, b, |c|);
    CutAfter(c, d, |c|);
    assert c + d[..0] == c;
  }

  /** Slices of a suffix are slices of the whole. */
  lemma SuffixSlices<T>(t: seq<T>, n: nat, a: nat, b: nat)
    requires n <= |t| && a <= b <= |t| - n
    ensures t[n..][a..b] == t[n + a..n + b]
    ensures t[n..][b..] == t[n + b..]
  {
  }

  /** What a cut takes from the front of `t` can be moved onto the text before it. */
  lemma MoveFront<T>(raw: seq<T>, t: seq<T>, n: nat, k: nat)
    requires n <= |t| && k <= |t| - n
    ensures (raw + t[..n]) + t[n..][..k] == raw + t[..n + k]
  {
    assert t[..n] + t[n..][..k] == t[..n + k];
    Assoc(raw, t[..n], t[n..][..k]);
  }

  lemma WholeSlice<T>(t: seq<T>)
    ensures t[..|t|] == t && t[0..] == t
  {
  }
}
