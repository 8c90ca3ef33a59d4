/** Exactly when the streaming segmenter holds back a finished sentence. */
module NarrationHeld {
  import opened Options
  import opened Text
  import opened Markers
  import opened StreamingSegmenter
  import opened SegmenterRefinement
  import opened NarrationTheorems

  /** Everything fed and not yet emitted: the segment and the bracket behind it. */
  function Held(st: State): string
  {
    st.seg + (if st.marker.Some? then "[" + st.marker.value else "")
  }

  /** The bracket at `p` is unclosed and could still be, or already is, a marker. */
  ghost predicate Open(fed: string, p: nat)
  {
    p < |fed| && fed[p] == '[' && IsViableMarkerInterior(fed[p + 1..]) && NoClose(fed, p, |fed|)
  }

  /** The machine's bracket is the leftmost open one of the text fed. */
  ghost predicate Follows(fed: string, st: State)
  {
    if st.marker.None? then forall p: nat :: !Open(fed, p)
    else
      |st.marker.value| < |fed|
      && var p0 := |fed| - |st.marker.value| - 1;
         Open(fed, p0) && fed[p0 + 1..] == st.marker.value && forall p: nat :: p < p0 ==> !Open(fed, p)
  }

  lemma OpenBefore(fed: string, c: char, p: nat)
    requires Open(fed + [c], p) && p < |fed|
    ensures Open(fed, p) && c != ']'
  {
    var all := fed + [c];
    assert all[p + 1..] == fed[p + 1..] + [c];
    ViableGrows(fed[p + 1..], [c]);
    assert forall i :: 0 <= i < |fed| ==> all[i] == fed[i];
    assert all[|fed|] == c;
  }

  lemma OpenAfter(fed: string, c: char, p: nat)
    requires Open(fed, p) && c != ']' && IsViableMarkerInterior(fed[p + 1..] + [c])
    ensures Open(fed + [c], p)
  {
    var all := fed + [c];
    assert all[p + 1..] == fed[p + 1..] + [c];
    assert forall i :: 0 <= i < |fed| ==> all[i] == fed[i];
  }

  lemma OpensAtEnd(fed: string, c: char)
    ensures Open(fed + [c], |fed|) <==> c == '['
    ensures (fed + [c])[|fed| + 1..] == ""
  {
    var all := fed + [c];
    assert all[|fed|] == c && all[|fed| + 1..] == "";
  }

  lemma FollowsText(lower: string -> string, fed: string, st: State, c: char)
    requires st.marker.None? && forall p: nat :: p < |fed| ==> !Open(fed + [c], p)
    ensures Follows(fed + [c], TextEffect(st, c).st)
  {
    hide Open, PlainEffect, IsViableMarkerInterior;
    OpensAtEnd(fed, c);
    PlainKeepsVoice(st, c);
    forall p: nat | Open(fed + [c], p)
      ensures p <= |fed|
    {
      OpenInside(fed + [c], p);
    }
  }

  lemma OpenInside(fed: string, p: nat)
    requires Open(fed, p)
    ensures p < |fed|
  {
  }

  /** A short interior contains no bracket, so breaking it leaves none open. */
  lemma NoneInside(fed: string, c: char, p0: nat, p: nat)
    requires Open(fed, p0) && !IsViableMarkerInterior(fed[p0 + 1..] + [c]) && p0 <= p < |fed|
    ensures !Open(fed + [c], p)
  {
    var interior := fed[p0 + 1..];
    if |interior| > 4 { StaysViable(interior, c); }
    assert |interior| <= 4;
    if p > p0 {
      assert fed[p] == interior[p - p0 - 1] && (fed + [c])[p] == fed[p];
    } else {
      assert (fed + [c])[p + 1..] == interior + [c];
    }
  }

  lemma FollowsStep(lower: string -> string, fed: string, st: State, c: char)
    requires Follows(fed, st)
    ensures Follows(fed + [c], Step(lower, st, c).st)
  {
    hide Open, IsViableMarkerInterior, PlainEffect, ParseMarkerKey, Cut;
    forall p: nat | p < |fed| && Open(fed + [c], p)
      ensures Open(fed, p) && c != ']'
    {
      OpenBefore(fed, c, p);
    }
    OpensAtEnd(fed, c);
    if st.marker.None? {
      FollowsText(lower, fed, st, c);
    } else {
      var p0 := |fed| - |st.marker.value| - 1;
      if c == ']' {
        forall p: nat | Open(fed + [c], p) ensures p <= |fed| { OpenInside(fed + [c], p); }
      } else if IsViableMarkerInterior(st.marker.value + [c]) {
        OpenAfter(fed, c, p0);
        assert (fed + [c])[p0 + 1..] == fed[p0 + 1..] + [c];
      } else {
        forall p: nat | p0 <= p < |fed| ensures !Open(fed + [c], p) { NoneInside(fed, c, p0, p); }
        FollowsText(lower, fed, st.(seg := st.seg + "[" + st.marker.value, marker := None), c);
      }
    }
  }

  lemma {:induction false} FollowsRun(lower: string -> string, fed: string)
    ensures Follows(fed, Run(lower, INITIAL, fed).st)
    decreases |fed|
  {
    if |fed| > 0 {
      hide Follows, Step;
      var n := |fed| - 1;
      assert fed == fed[..n] + [fed[n]];
      FollowsRun(lower, fed[..n]);
      RunSnoc(lower, INITIAL, fed[..n], fed[n]);
      FollowsStep(lower, fed[..n], Run(lower, INITIAL, fed[..n]).st, fed[n]);
    }
  }

  lemma SentenceBehind(a: string, b: string)
    requires HoldsSentence(b)
    ensures HoldsSentence(a + b)
  {
    var w := a + b;
    var k :| 0 < k < |b| && IsSpace(b[k]) && EndsSentence(b[..k]);
    var i :| 0 <= i < k && IsTerminator(b[i]) && forall j :: i < j < k ==> IsTrailing(b[..k][j]);
    var front := w[..|a| + k];
    assert front == a + b[..k];
    assert IsTerminator(front[|a| + i]) && forall j :: |a| + i < j < |front| ==> IsTrailing(front[j]);
    assert w[|a| + k] == b[k];
  }

  /** No sentence ends across an opening bracket. */
  lemma SentenceInBracket(seg: string, bracket: string)
    requires !HoldsSentence(seg) && |bracket| > 0 && bracket[0] == '[' && HoldsSentence(seg + bracket)
    ensures HoldsSentence(bracket)
  {
    hide IsSpace;
    var w, n := seg + bracket, |seg|;
    BracketIsNoSpace();
    var k :| 0 < k < |w| && IsSpace(w[k]) && EndsSentence(w[..k]);
    assert forall j :: 0 <= j < n ==> w[j] == seg[j];
    var front' := if k < n then k else n;
    assert w[..front'] == seg[..front'];
    assert w[n] == '[' && k > n;
    var i :| 0 <= i < k && IsTerminator(w[..k][i]) && forall j :: i < j < k ==> IsTrailing(w[..k][j]);
    assert w[..k][n] == '[';
    assert i > n;
    var front := bracket[..k - n];
    assert forall j :: 0 <= j < k - n ==> front[j] == w[..k][n + j];
    assert IsTerminator(front[i - n]) && forall j :: i - n < j < |front| ==> IsTrailing(front[j]);
    assert bracket[k - n] == w[k];
  }

  lemma BracketIsNoSpace()
    ensures !IsSpace('[')
  {
    OutsideRanges('[', SPACES);
  }

  /** What `[NPC:` opens and nothing closes. */
  ghost predicate UnclosedMarker(fed: string, p: nat)
  {
    OpensMarker(fed, p) && NoClose(fed, p, |fed|)
  }

  lemma ShortHoldsNothing(fed: string, p: nat)
    requires Open(fed, p) && |fed| - p - 1 <= 4
    ensures !HoldsSentence(fed[p..])
  {
    hide HoldsSentence, IsViableMarkerInterior, IsSpace;
    var interior := fed[p + 1..];
    QuietInterior(interior);
    QuietBracket(interior, "");
    NothingHeld();
    var bracket := "[" + interior + "";
    assert bracket == fed[p..];
    BracketHoldsNothing("", bracket);
    assert "" + bracket == bracket;
  }

  lemma OpenWithSentence(fed: string, p: nat)
    requires Open(fed, p) && HoldsSentence(fed[p..])
    ensures UnclosedMarker(fed, p)
  {
    hide HoldsSentence;
    if |fed| - p - 1 <= 4 { ShortHoldsNothing(fed, p); }
  }

  lemma NothingHeld()
    ensures !HoldsSentence("")
  {
  }

  lemma UnclosedIsOpen(fed: string, p: nat)
    requires UnclosedMarker(fed, p)
    ensures Open(fed, p)
  {
  }

  ghost predicate SentenceInUnclosed(fed: string, p: nat)
  {
    UnclosedMarker(fed, p) && HoldsSentence(fed[p..])
  }

  /**
   * A finished sentence is held back exactly when the text fed contains an unclosed `[NPC:` bracket
   * with a finished sentence in it; outside such a bracket nothing complete waits.
   */
  lemma SentenceHeldExactly(lower: string -> string, fed: string)
    ensures HoldsSentence(Held(Run(lower, INITIAL, fed).st))
       <==> exists p: nat :: SentenceInUnclosed(fed, p)
  {
    hide HoldsSentence, Run, Open, UnclosedMarker;
    var st := Run(lower, INITIAL, fed).st;
    FollowsRun(lower, fed);
    NothingCompleteWaits(lower, fed);
    assert st.seg + "" == st.seg;
    if st.marker.Some? {
      var p0 := |fed| - |st.marker.value| - 1;
      var bracket := "[" + st.marker.value;
      LeftmostBracket(fed, p0);
      if HoldsSentence(Held(st)) {
        SentenceInBracket(st.seg, bracket);
        OpenWithSentence(fed, p0);
        assert SentenceInUnclosed(fed, p0);
      }
      forall p: nat | SentenceInUnclosed(fed, p)
        ensures HoldsSentence(Held(st))
      {
        UnclosedIsOpen(fed, p);
        OpenInside(fed, p);
        assert p0 <= p;
        assert fed[p0..] == fed[p0..p] + fed[p..];
        SentenceBehind(fed[p0..p], fed[p..]);
        SentenceBehind(st.seg, bracket);
      }
    } else {
      forall p: nat | UnclosedMarker(fed, p) ensures Open(fed, p) { UnclosedIsOpen(fed, p); }
    }
  }

  lemma LeftmostBracket(fed: string, p: nat)
    requires Open(fed, p)
    ensures fed[p..] == "[" + fed[p + 1..]
  {
  }

  /** The input: a sentence inside a bracket that never closes waits until the flush. */
  lemma UnclosedBracketHolds(lower: string -> string)
    ensures HoldsSentence(Held(Run(lower, INITIAL, "[NPC:a. b").st))
  {
    var fed := "[NPC:a. b";
    assert fed[0..] == fed;
    assert IsTerminator(fed[..7][6]) && IsSpace(fed[7]) && EndsSentence(fed[..7]);
    assert SentenceInUnclosed(fed, 0);
    SentenceHeldExactly(lower, fed);
  }
}
