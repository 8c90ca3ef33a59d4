/**
 * What streaming promises about the whole narration: however it is chunked, the
 * segments are the batch parser's segments, each one cut only at white space.
 */
module NarrationTheorems {
  import opened Options
  import opened Seqs
  import opened Text
  import opened Markers
  import opened StreamingSegmenter
  import opened SegmenterRefinement

  /** `raw` is the tight, nonempty texts in order, set apart and surrounded by white space only. */
  ghost predicate Woven(texts: seq<string>, raw: string)
    decreases |texts|
  {
    if texts == [] then Blank(raw)
    else exists gap: string, rest: string ::
        && raw == gap + texts[0] + rest && Blank(gap)
        && texts[0] != [] && Tight(texts[0])
        && (rest != [] ==> IsSpace(rest[0]))
        && Woven(texts[1..], rest)
  }

  function Texts(segments: seq<NarrationSegment>): (r: seq<string>)
    ensures |r| == |segments| && forall i :: 0 <= i < |r| ==> r[i] == segments[i].text
  {
    seq(|segments|, i requires 0 <= i < |segments| => segments[i].text)
  }

  ghost predicate SpokenBy(segments: seq<NarrationSegment>, voice: Option<string>)
  {
    forall i :: 0 <= i < |segments| ==> segments[i].Voice() == voice
  }

  /** `fine` cuts each segment of `coarse` into one or more of the same voice, losing only white space. */
  ghost predicate Refines(fine: seq<NarrationSegment>, coarse: seq<NarrationSegment>)
    decreases |coarse|
  {
    if coarse == [] then fine == []
    else exists n: nat ::
        && 0 < n <= |fine|
        && SpokenBy(fine[..n], coarse[0].Voice())
        && Woven(Texts(fine[..n]), coarse[0].text)
        && Refines(fine[n..], coarse[1..])
  }

  /** The spoken characters: every character that is not white space, with its voice. */
  function Spoken(segments: seq<NarrationSegment>): seq<(Option<string>, char)>
  {
    if segments == [] then [] else SpokenText(segments[0].Voice(), segments[0].text) + Spoken(segments[1..])
  }

  function SpokenText(voice: Option<string>, text: string): seq<(Option<string>, char)>
  {
    if text == [] then []
    else (if IsSpace(text[0]) then [] else [(voice, text[0])]) + SpokenText(voice, text[1..])
  }

  // ---- weaving ----

  lemma WovenCut(voice: Option<string>, raw: string)
    ensures Woven(Texts(Cut(voice, raw)), raw) && SpokenBy(Cut(voice, raw), voice)
  {
    var pre, post := TrimSplits(raw);
    hide Trim;
    var texts := Texts(Cut(voice, raw));
    if Trim(raw) != [] {
      assert texts[0] == Trim(raw) && Blank(post) && Woven(texts[1..], post);
    }
  }

  lemma BlankConcat(a: string, b: string)
    ensures Blank(a + b) <==> Blank(a) && Blank(b)
  {
    if Blank(a + b) {
      forall i | 0 <= i < |b| ensures IsSpace(b[i]) { assert (a + b)[|a| + i] == b[i]; }
      forall i | 0 <= i < |a| ensures IsSpace(a[i]) { assert (a + b)[i] == a[i]; }
    }
  }

  lemma WovenSplit(texts: seq<string>, raw: string) returns (gap: string, rest: string)
    requires texts != [] && Woven(texts, raw)
    ensures raw == gap + texts[0] + rest && Blank(gap) && texts[0] != [] && Tight(texts[0])
    ensures (rest != [] ==> IsSpace(rest[0])) && Woven(texts[1..], rest)
  {
    gap, rest :| raw == gap + texts[0] + rest && Blank(gap) && texts[0] != [] && Tight(texts[0])
      && (rest != [] ==> IsSpace(rest[0])) && Woven(texts[1..], rest);
  }

  lemma WovenCons(gap: string, texts: seq<string>, rest: string, raw: string)
    requires texts != [] && raw == gap + texts[0] + rest && Blank(gap) && texts[0] != [] && Tight(texts[0])
    requires (rest != [] ==> IsSpace(rest[0])) && Woven(texts[1..], rest)
    ensures Woven(texts, raw)
  {
  }

  lemma WovenNothing(raw: string)
    ensures Woven([], raw) <==> Blank(raw)
  {
  }

  lemma WovenAfterBlank(pre: string, texts: seq<string>, raw: string)
    requires Blank(pre) && Woven(texts, raw)
    ensures Woven(texts, pre + raw)
  {
    hide Woven, Blank;
    if texts == [] {
      WovenNothing(raw);
      BlankConcat(pre, raw);
      WovenNothing(pre + raw);
    } else {
      var gap, rest := WovenSplit(texts, raw);
      BlankConcat(pre, gap);
      assert pre + raw == (pre + gap) + texts[0] + rest;
      WovenCons(pre + gap, texts, rest, pre + raw);
    }
  }

  lemma {:induction false} WovenBeforeBlank(texts: seq<string>, raw: string, post: string)
    requires Woven(texts, raw) && Blank(post)
    ensures Woven(texts, raw + post)
    decreases |texts|
  {
    hide Woven;
    if texts == [] {
      WovenNothing(raw);
      BlankConcat(raw, post);
      WovenNothing(raw + post);
    } else {
      var gap, rest := WovenSplit(texts, raw);
      WovenBeforeBlank(texts[1..], rest, post);
      assert raw + post == gap + texts[0] + (rest + post);
      WovenCons(gap, texts, rest + post, raw + post);
    }
  }

  lemma {:induction false} WovenConcat(a: seq<string>, rawA: string, b: seq<string>, rawB: string)
    requires Woven(a, rawA) && Woven(b, rawB)
    requires rawA == [] ==> a == []
    requires b == [] || (rawA != [] ==> IsSpace(rawA[|rawA| - 1]))
    ensures Woven(a + b, rawA + rawB)
    decreases |a|
  {
    hide Woven, Blank;
    if a == [] {
      assert a + b == b;
      WovenNothing(rawA);
      WovenAfterBlank(rawA, b, rawB);
    } else if b == [] {
      assert a + b == a;
      WovenNothing(rawB);
      WovenBeforeBlank(a, rawA, rawB);
    } else {
      var gap, rest := WovenSplit(a, rawA);
      assert rawA[|gap| + |a[0]| - 1] == a[0][|a[0]| - 1];
      assert rest[|rest| - 1] == rawA[|rawA| - 1];
      WovenConcat(a[1..], rest, b, rawB);
      assert (a + b)[1..] == a[1..] + b && (a + b)[0] == a[0];
      assert rawA + rawB == gap + a[0] + (rest + rawB);
      WovenCons(gap, a + b, rest + rawB, rawA + rawB);
    }
  }

  /** White space around a weave is immaterial. */
  lemma WovenTrim(texts: seq<string>, raw: string)
    requires Woven(texts, raw)
    ensures Woven(texts, Trim(raw)) && (texts == [] <==> Trim(raw) == [])
  {
    var pre, post := TrimSplits(raw);
    var mid := Trim(raw);
    hide Trim, Woven, Blank, IsSpace;
    if texts == [] {
      WovenNothing(raw);
      NothingLeft(raw, pre, mid, post);
      WovenNothing(mid);
    } else {
      var gap, rest := WovenSplit(texts, raw);
      SamePlace(raw, gap, texts[0], rest, pre, mid, post);
      Assoc(gap, texts[0], rest);
      Assoc(pre, mid, post);
      SplitsAlign(gap, texts[0] + rest, pre, mid + post);
      assert (texts[0] + rest)[0..] == texts[0] + rest;
      EmptyIsBlank();
      assert "" + texts[0] + rest == texts[0] + rest;
      WovenDropsEnd(texts, "", rest, mid, post);
    }
  }

  lemma EmptyIsBlank()
    ensures Blank("")
  {
  }

  lemma NothingLeft(raw: string, pre: string, mid: string, post: string)
    requires raw == pre + mid + post && Blank(raw) && Blank(pre) && Tight(mid) && Blank(post)
    ensures mid == "" && Blank(mid)
  {
    Position(raw, pre, mid, post);
  }

  lemma SamePlace(raw: string, gap: string, first: string, rest: string, pre: string, mid: string, post: string)
    requires raw == gap + first + rest && Blank(gap) && first != [] && Tight(first)
    requires raw == pre + mid + post && Blank(pre) && Tight(mid) && Blank(post)
    ensures |gap| == |pre| && mid != []
  {
    Position(raw, pre, mid, post);
    assert raw[|gap|] == first[0];
    assert forall i :: 0 <= i < |gap| ==> raw[i] == gap[i];
  }

  lemma {:induction false} WovenDropsEnd(texts: seq<string>, gap: string, rest: string, mid: string, post: string)
    requires texts != [] && texts[0] != [] && Tight(texts[0]) && Blank(gap)
    requires (rest != [] ==> IsSpace(rest[0])) && Woven(texts[1..], rest)
    requires gap + texts[0] + rest == mid + post && Blank(post) && mid != [] && !IsSpace(mid[|mid| - 1])
    ensures Woven(texts, mid)
    decreases |texts|
  {
    hide Woven;
    var rest' := CutsInRest(gap, texts[0], rest, mid, post);
    if texts[1..] == [] {
      WovenNothing(rest);
      BlankConcat(rest', post);
      WovenNothing(rest');
    } else {
      var gap2, rest2 := WovenSplit(texts[1..], rest);
      assert rest[|gap2|] == texts[1][0];
      assert |gap2| < |rest'| by {
        assert forall i :: |rest'| <= i < |rest| ==> rest[i] == post[i - |rest'|];
      }
      assert rest'[|rest'| - 1] == mid[|mid| - 1];
      WovenDropsEnd(texts[1..], gap2, rest2, rest', post);
    }
    WovenCons(gap, texts, rest', mid);
  }

  /** A blank ending never reaches into a tight text. */
  lemma CutsInRest(gap: string, first: string, rest: string, mid: string, post: string) returns (rest': string)
    requires first != [] && Tight(first) && gap + first + rest == mid + post && Blank(post)
    requires (rest != [] ==> IsSpace(rest[0]))
    ensures rest == rest' + post && mid == gap + first + rest'
    ensures rest' != [] ==> IsSpace(rest'[0])
  {
    var head := gap + first;
    assert head[|head| - 1] == first[|first| - 1];
    hide Blank, IsSpace;
    TightBeforeBlank(head, rest, mid, post);
    SplitsAlign(head, rest, mid, post);
    rest' := rest[..|mid| - |head|];
    assert rest == rest' + post;
  }

  lemma TightBeforeBlank(head: string, rest: string, mid: string, post: string)
    requires head != [] && !IsSpace(head[|head| - 1]) && head + rest == mid + post && Blank(post)
    ensures |head| <= |mid|
  {
    var l := |head| - 1;
    assert (head + rest)[l] == head[l];
    assert forall i :: |mid| <= i < |mid + post| ==> (mid + post)[i] == post[i - |mid|];
  }

  // ---- streaming tokens refines batching them ----

  lemma RefinesCons(group: seq<NarrationSegment>, voice: Option<string>, raw: string,
                    fine: seq<NarrationSegment>, coarse: seq<NarrationSegment>)
    requires SpokenBy(group, voice) && Woven(Texts(group), raw) && Refines(fine, coarse)
    ensures Refines(group + fine, Cut(voice, raw) + coarse)
  {
    hide Trim, Woven, IsSpace;
    WovenTrim(Texts(group), raw);
    var cut := Cut(voice, raw);
    if Trim(raw) == [] {
      assert Texts(group) == [];
      assert group + fine == fine && cut + coarse == coarse;
    } else {
      assert Texts(group) != [];
      var all := group + fine;
      assert all[..|group|] == group && all[|group|..] == fine;
      assert (cut + coarse)[1..] == coarse && (cut + coarse)[0] == cut[0];
    }
  }

  lemma RefinesEmpty()
    ensures Refines([], [])
  {
  }

  /** `done` is what was already emitted for the raw text `pre` of the current voice. */
  lemma {:induction false} TokensRefine(tokens: seq<Token>, voice: Option<string>, seg: string, saw: bool,
                                        done: seq<NarrationSegment>, pre: string)
    requires SpokenBy(done, voice) && Woven(Texts(done), pre) && (pre != [] ==> IsSpace(pre[|pre| - 1]))
    requires done != [] ==> pre != []
    ensures Refines(done + StreamTokens(tokens, voice, seg, saw), BatchTokens(tokens, voice, pre + seg))
    decreases |tokens|
  {
    hide Cut, Refines, Woven;
    if tokens == [] {
      Extend(voice, seg, done, pre);
      RefinesEmpty();
      RefinesCons(done + Cut(voice, seg), voice, pre + seg, [], []);
      assert done + Cut(voice, seg) + [] == done + Cut(voice, seg) && Cut(voice, pre + seg) + [] == Cut(voice, pre + seg);
    } else {
      match tokens[0]
      case Plain(c) =>
        assert pre + seg + [c] == pre + (seg + [c]);
        if IsSpace(c) && saw {
          Extend(voice, seg + [c], done, pre);
          TokensRefine(tokens[1..], voice, "", false, done + Cut(voice, seg + [c]), pre + (seg + [c]));
          Assoc(done, Cut(voice, seg + [c]), StreamTokens(tokens[1..], voice, "", false));
          assert pre + (seg + [c]) + "" == pre + (seg + [c]);
        } else {
          var e := PlainEffect(State(voice, seg, None, saw), c);
          TokensRefine(tokens[1..], voice, seg + [c], e.st.saw, done, pre);
          assert [] + StreamTokens(tokens[1..], voice, seg + [c], e.st.saw) == StreamTokens(tokens[1..], voice, seg + [c], e.st.saw);
        }
      case Literal(text) =>
        assert pre + seg + text == pre + (seg + text);
        TokensRefine(tokens[1..], voice, seg + text, saw, done, pre);
      case Voice(key) =>
        Extend(voice, seg, done, pre);
        Fresh(Some(key));
        TokensRefine(tokens[1..], Some(key), "", false, [], "");
        var fine := StreamTokens(tokens[1..], Some(key), "", false);
        assert [] + fine == fine && "" + "" == "";
        RefinesCons(done + Cut(voice, seg), voice, pre + seg, fine, BatchTokens(tokens[1..], Some(key), ""));
        Assoc(done, Cut(voice, seg), fine);
    }
  }

  lemma Fresh(voice: Option<string>)
    ensures SpokenBy([], voice) && Woven(Texts([]), "")
  {
  }

  lemma CutOfNothing(voice: Option<string>)
    ensures Cut(voice, "") == []
  {
  }

  lemma Extend(voice: Option<string>, seg: string, done: seq<NarrationSegment>, pre: string)
    requires SpokenBy(done, voice) && Woven(Texts(done), pre) && (pre != [] ==> IsSpace(pre[|pre| - 1]))
    requires done != [] ==> pre != []
    ensures SpokenBy(done + Cut(voice, seg), voice) && Woven(Texts(done + Cut(voice, seg)), pre + seg)
    ensures Cut(voice, seg) != [] ==> seg != []
  {
    WovenCut(voice, seg);
    CutOfNothing(voice);
    hide Woven, Cut, IsSpace;
    WovenConcat(Texts(done), pre, Texts(Cut(voice, seg)), seg);
    assert Texts(done) + Texts(Cut(voice, seg)) == Texts(done + Cut(voice, seg));
  }

  /** Main result: any chunking of any narration streams a refinement of its batch parse. */
  lemma StreamRefinesBatch(lower: string -> string, chunks: seq<string>)
    ensures Refines(Streamed(lower, INITIAL, chunks), Parse(lower, Concat(chunks)))
  {
    hide Refines, Lex, Cut, ParseWaiting, StreamTokens, BatchTokens, Finish, Streamed, ParseFrom, Woven, SpokenBy;
    var t := Concat(chunks);
    ChunkingIsIrrelevant(lower, INITIAL, chunks);
    StreamReadsTokens(lower, t, INITIAL);
    BatchReadsTokens(lower, t, None, "");
    ParseIsWaiting(lower, t, None);
    Fresh(None);
    TokensRefine(Lex(lower, t), None, "", false, [], "");
    assert [] + StreamTokens(Lex(lower, t), None, "", false) == StreamTokens(Lex(lower, t), None, "", false);
    assert "" + "" == "";
  }

  // ---- what refinement means for the listener ----

  lemma {:induction false} SpokenTextConcat(voice: Option<string>, a: string, b: string)
    ensures SpokenText(voice, a + b) == SpokenText(voice, a) + SpokenText(voice, b)
    decreases |a|
  {
    if a == [] {
      assert a + b == b;
    } else {
      assert (a + b)[1..] == a[1..] + b;
      SpokenTextConcat(voice, a[1..], b);
    }
  }

  lemma {:induction false} BlankIsSilent(voice: Option<string>, s: string)
    requires Blank(s)
    ensures SpokenText(voice, s) == []
    decreases |s|
  {
    if s != [] { BlankIsSilent(voice, s[1..]); }
  }

  lemma {:induction false} WovenSpeaks(segments: seq<NarrationSegment>, voice: Option<string>, raw: string)
    requires SpokenBy(segments, voice) && Woven(Texts(segments), raw)
    ensures Spoken(segments) == SpokenText(voice, raw)
    decreases |segments|
  {
    hide Woven, Blank, Tight, IsSpace, SpokenText;
    if segments == [] {
      WovenNothing(raw);
      BlankIsSilent(voice, raw);
    } else {
      var first := segments[0];
      var texts := Texts(segments);
      var gap, rest := WovenSplit(texts, raw);
      assert Texts(segments[1..]) == texts[1..];
      WovenSpeaks(segments[1..], voice, rest);
      SpokenAround(voice, gap, first.text, rest);
      assert segments[0].Voice() == voice && texts[0] == first.text;
    }
  }

  lemma SpokenAround(voice: Option<string>, gap: string, first: string, rest: string)
    requires Blank(gap)
    ensures SpokenText(voice, gap + first + rest) == SpokenText(voice, first) + SpokenText(voice, rest)
  {
    BlankIsSilent(voice, gap);
    hide SpokenText, Blank;
    SpokenTextConcat(voice, gap + first, rest);
    SpokenTextConcat(voice, gap, first);
    assert [] + SpokenText(voice, first) == SpokenText(voice, first);
  }

  lemma {:induction false} SpokenConcat(a: seq<NarrationSegment>, b: seq<NarrationSegment>)
    ensures Spoken(a + b) == Spoken(a) + Spoken(b)
    decreases |a|
  {
    if a == [] {
      assert a + b == b;
    } else {
      assert (a + b)[1..] == a[1..] + b;
      SpokenConcat(a[1..], b);
    }
  }

  lemma RefinesFirst(fine: seq<NarrationSegment>, coarse: seq<NarrationSegment>) returns (n: nat)
    requires Refines(fine, coarse) && |coarse| > 0
    ensures 0 < n <= |fine| && SpokenBy(fine[..n], coarse[0].Voice())
    ensures Woven(Texts(fine[..n]), coarse[0].text) && Refines(fine[n..], coarse[1..])
  {
    n :| 0 < n <= |fine| && SpokenBy(fine[..n], coarse[0].Voice())
      && Woven(Texts(fine[..n]), coarse[0].text) && Refines(fine[n..], coarse[1..]);
  }

  lemma {:induction false} RefinementSpeaksTheSame(fine: seq<NarrationSegment>, coarse: seq<NarrationSegment>)
    requires Refines(fine, coarse)
    ensures Spoken(fine) == Spoken(coarse)
    decreases |coarse|
  {
    if coarse != [] {
      hide Woven, SpokenText, Refines, Texts;
      var n := RefinesFirst(fine, coarse);
      WovenSpeaks(fine[..n], coarse[0].Voice(), coarse[0].text);
      RefinementSpeaksTheSame(fine[n..], coarse[1..]);
      assert fine == fine[..n] + fine[n..];
      SpokenConcat(fine[..n], fine[n..]);
    }
  }

  /** Every voice says exactly the batch parser's characters, in its order. */
  lemma StreamSpeaksTheBatch(lower: string -> string, chunks: seq<string>)
    ensures Spoken(Streamed(lower, INITIAL, chunks)) == Spoken(Parse(lower, Concat(chunks)))
  {
    StreamRefinesBatch(lower, chunks);
    RefinementSpeaksTheSame(Streamed(lower, INITIAL, chunks), Parse(lower, Concat(chunks)));
  }

  // ---- nothing complete is held back ----

  /** A terminator, any closing punctuation, and nothing after them. */
  ghost predicate EndsSentence(s: string)
  {
    exists i :: 0 <= i < |s| && IsTerminator(s[i]) && forall j :: i < j < |s| ==> IsTrailing(s[j])
  }

  /** Some white space in `s` directly follows the end of a sentence. */
  ghost predicate HoldsSentence(s: string)
  {
    exists k :: 0 < k < |s| && IsSpace(s[k]) && EndsSentence(s[..k])
  }

  ghost predicate Prompt(st: State)
  {
    && !HoldsSentence(st.seg) && (EndsSentence(st.seg) ==> st.saw)
    && (st.marker.Some? ==> IsViableMarkerInterior(st.marker.value) && NoClose(st.marker.value, 0, |st.marker.value|))
  }

  lemma SentenceGrows(s: string, c: char)
    ensures HoldsSentence(s + [c]) ==> HoldsSentence(s) || (IsSpace(c) && EndsSentence(s))
    ensures EndsSentence(s + [c]) ==> IsTerminator(c) || (IsTrailing(c) && EndsSentence(s))
  {
    var w := s + [c];
    if HoldsSentence(w) {
      var k :| 0 < k < |w| && IsSpace(w[k]) && EndsSentence(w[..k]);
      assert w[..k] == s[..k];
      if k < |s| { assert s[k] == w[k]; } else { assert s[..k] == s; }
    }
    if EndsSentence(w) {
      var i :| 0 <= i < |w| && IsTerminator(w[i]) && forall j :: i < j < |w| ==> IsTrailing(w[j]);
      if i < |s| {
        assert forall j :: 0 <= j < |s| ==> s[j] == w[j];
        assert IsTerminator(s[i]) && forall j :: i < j < |s| ==> IsTrailing(s[j]);
        assert IsTrailing(w[|s|]);
      }
    }
  }

  lemma {:induction false} BracketHoldsNothing(s: string, bracket: string)
    requires !HoldsSentence(s) && bracket != [] && bracket[0] == '['
    requires forall i :: 0 <= i < |bracket| ==> Quiet(bracket[i])
    ensures !HoldsSentence(s + bracket) && !EndsSentence(s + bracket)
    decreases |bracket|
  {
    hide IsSpace;
    var c := bracket[|bracket| - 1];
    var front := bracket[..|bracket| - 1];
    assert s + bracket == (s + front) + [c];
    if front == [] {
      assert s + front == s;
    } else {
      BracketHoldsNothing(s, front);
    }
    SentenceGrows(s + front, c);
  }

  lemma TerminatorsAreText(c: char)
    ensures IsTerminator(c) ==> !IsSpace(c)
    ensures IsTrailing(c) ==> !IsSpace(c)
  {
    if IsTerminator(c) || IsTrailing(c) { OutsideRanges(c, SPACES); }
  }

  lemma PromptPlain(st: State, c: char)
    requires !HoldsSentence(st.seg) && (EndsSentence(st.seg) ==> st.saw)
    ensures var st' := PlainEffect(st, c).st;
      !HoldsSentence(st'.seg) && (EndsSentence(st'.seg) ==> st'.saw) && st'.marker == st.marker
  {
    hide Cut, IsSpace, HoldsSentence, EndsSentence;
    EmptyHoldsNothing();
    TerminatorsAreText(c);
    SentenceGrows(st.seg, c);
  }

  /** Text that stopped being a possible marker is short, so it holds no sentence either. */
  lemma PromptBracket(st: State, interior: string, close: string)
    requires Prompt(st) && st.marker == Some(interior) && (close == "" || close == "]")
    requires |interior| <= 4
    ensures var seg := st.seg + "[" + interior + close; !HoldsSentence(seg) && !EndsSentence(seg)
  {
    hide Quiet, IsSpace, InRanges, HoldsSentence, EndsSentence, IsViableMarkerInterior;
    QuietInterior(interior);
    var bracket := "[" + interior + close;
    QuietBracket(interior, close);
    BracketHoldsNothing(st.seg, bracket);
    Assoc(st.seg, "[", interior);
    Assoc(st.seg, "[" + interior, close);
  }

  lemma QuietInterior(interior: string)
    requires IsViableMarkerInterior(interior) && |interior| <= 4
    ensures forall i :: 0 <= i < |interior| ==> Quiet(interior[i])
    ensures Quiet('[') && Quiet(']')
  {
    hide InRanges;
    forall i | 0 <= i < |interior|
      ensures Quiet(interior[i])
    {
      OutsideRanges(interior[i], SPACES);
    }
    OutsideRanges('[', SPACES);
    OutsideRanges(']', SPACES);
  }

  predicate Quiet(c: char)
  {
    !IsSpace(c) && !IsTerminator(c)
  }

  lemma QuietBracket(interior: string, close: string)
    requires close == "" || close == "]"
    requires Quiet('[') && Quiet(']') && forall i :: 0 <= i < |interior| ==> Quiet(interior[i])
    ensures forall i :: 0 <= i < |"[" + interior + close| ==> Quiet(("[" + interior + close)[i])
  {
  }

  lemma StaysViable(interior: string, c: char)
    requires IsViableMarkerInterior(interior) && |interior| > 4
    ensures IsViableMarkerInterior(interior + [c])
  {
    assert forall k :: 0 <= k < 4 ==> (interior + [c])[k] == interior[k];
  }

  lemma EmptyHoldsNothing()
    ensures !HoldsSentence("") && !EndsSentence("")
  {
  }

  lemma PromptStep(lower: string -> string, st: State, c: char)
    requires Prompt(st)
    ensures Prompt(Step(lower, st, c).st)
  {
    hide Cut, KeyOf, HoldsSentence, EndsSentence, PlainEffect;
    EmptyHoldsNothing();
    if st.marker.None? {
      PromptPlain(st, c);
    } else {
      var interior := st.marker.value;
      if c == ']' {
        if |interior| <= 4 { PromptBracket(st, interior, "]"); }
      } else if !IsViableMarkerInterior(interior + [c]) {
        if |interior| > 4 { StaysViable(interior, c); }
        PromptBracket(st, interior, "");
        var literal := st.seg + "[" + interior;
        assert literal + "" == literal;
        PromptPlain(st.(seg := literal, marker := None), c);
      }
    }
  }

  /** At no point of any stream does the segment outside a bracket contain a complete sentence. */
  lemma {:induction false} NoSentenceIsHeld(lower: string -> string, st: State, s: string)
    requires Prompt(st)
    ensures Prompt(Run(lower, st, s).st)
    decreases |s|
  {
    hide Step, Prompt;
    if s != [] {
      PromptStep(lower, st, s[0]);
      NoSentenceIsHeld(lower, Step(lower, st, s[0]).st, s[1..]);
    }
  }

  lemma InitiallyPrompt()
    ensures Prompt(INITIAL)
  {
  }

  /** Whatever has been fed so far, the segment in front of any open bracket contains no finished sentence. */
  lemma NothingCompleteWaits(lower: string -> string, fed: string)
    ensures !HoldsSentence(Run(lower, INITIAL, fed).st.seg)
  {
    InitiallyPrompt();
    NoSentenceIsHeld(lower, INITIAL, fed);
  }
}
