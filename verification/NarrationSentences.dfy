/** Where the streaming segmenter cuts (orchestrator/src/voice/streaming_segmenter.ts): after every finished sentence, and nowhere else. */
module NarrationSentences {
  import opened Options
  import opened Seqs
  import opened Text
  import opened Markers
  import opened StreamingSegmenter
  import opened SegmenterRefinement

  /** A character of narration; `plain` unless it belongs to a bracket that turned out to be no marker. */
  datatype Mark = Mark(c: char, plain: bool)

  function Marks(text: string, plain: bool): seq<Mark>
  {
    seq(|text|, i requires 0 <= i < |text| => Mark(text[i], plain))
  }

  function Letters(marks: seq<Mark>): string
  {
    seq(|marks|, i requires 0 <= i < |marks| => marks[i].c)
  }

  const ENDS := ".!?"
  const CLOSES := "\"'\U{201D}\U{2019})]\U{00BB}"

  /** Ends in one of `.!?`, closing punctuation and bracket text aside. */
  ghost predicate Finished(marks: seq<Mark>)
  {
    exists i :: 0 <= i < |marks| && marks[i].plain && marks[i].c in ENDS && ClosesAfter(marks, i)
  }

  ghost predicate ClosesAfter(marks: seq<Mark>, i: int)
  {
    forall j :: i < j < |marks| && j >= 0 ==> marks[j].plain ==> marks[j].c in CLOSES
  }

  /** White space right behind a finished sentence. */
  ghost predicate CutAt(marks: seq<Mark>, k: nat)
  {
    k < |marks| && marks[k].plain && IsSpace(marks[k].c) && Finished(marks[..k])
  }

  ghost function FirstCut(marks: seq<Mark>, from: nat): (r: Option<nat>)
    ensures r.Some? ==> from <= r.value && CutAt(marks, r.value) && forall k: nat :: from <= k < r.value ==> !CutAt(marks, k)
    ensures r.None? ==> forall k: nat :: from <= k ==> !CutAt(marks, k)
    decreases |marks| - from
  {
    if from >= |marks| then None else if CutAt(marks, from) then Some(from) else FirstCut(marks, from + 1)
  }

  /** The sentences of a run in one voice, each with the white space that ends it. */
  ghost function Sentences(marks: seq<Mark>): seq<seq<Mark>>
    decreases |marks|
  {
    var cut := FirstCut(marks, 0);
    if cut.None? then [marks] else [marks[..cut.value + 1]] + Sentences(marks[cut.value + 1..])
  }

  /** The segments of those sentences, blank ones left out. */
  ghost function Said(voice: Option<string>, sentences: seq<seq<Mark>>): seq<NarrationSegment>
  {
    if |sentences| == 0 then [] else Cut(voice, Letters(sentences[0])) + Said(voice, sentences[1..])
  }

  /** The tokens as runs between voice changes, each run said sentence by sentence; `run` is read already. */
  ghost function SaidFrom(tokens: seq<Token>, voice: Option<string>, run: seq<Mark>): seq<NarrationSegment>
    decreases |tokens|
  {
    if |tokens| == 0 then Said(voice, Sentences(run))
    else match tokens[0]
      case Plain(c) => SaidFrom(tokens[1..], voice, run + [Mark(c, true)])
      case Literal(text) => SaidFrom(tokens[1..], voice, run + Marks(text, false))
      case Voice(key) => Said(voice, Sentences(run)) + SaidFrom(tokens[1..], Some(key), [])
  }

  lemma Punctuation(c: char)
    ensures IsTerminator(c) <==> c in ENDS
    ensures IsTrailing(c) <==> c in CLOSES
  {
    assert ENDS[0] == '.' && ENDS[1] == '!' && ENDS[2] == '?';
    assert CLOSES[0] == '"' && CLOSES[1] == '\'' && CLOSES[2] == '\U{201D}' && CLOSES[3] == '\U{2019}';
    assert CLOSES[4] == ')' && CLOSES[5] == ']' && CLOSES[6] == '\U{00BB}';
  }

  lemma FinishedSnoc(marks: seq<Mark>, m: Mark)
    ensures Finished(marks + [m]) <==> (m.plain && m.c in ENDS) || ((!m.plain || m.c in CLOSES) && Finished(marks))
  {
    hide IsSpace;
    var all := marks + [m];
    assert forall j :: 0 <= j < |marks| ==> all[j] == marks[j];
    if m.plain && m.c in ENDS {
      assert all[|marks|] == m && ClosesAfter(all, |marks|);
    }
    if Finished(marks) && (!m.plain || m.c in CLOSES) {
      var i :| 0 <= i < |marks| && marks[i].plain && marks[i].c in ENDS && ClosesAfter(marks, i);
      assert all[i] == marks[i] && ClosesAfter(all, i);
    }
    if Finished(all) && !(m.plain && m.c in ENDS) {
      var i :| 0 <= i < |all| && all[i].plain && all[i].c in ENDS && ClosesAfter(all, i);
      assert i < |marks| && all[|marks|] == m && ClosesAfter(marks, i);
      assert marks[i] == all[i];
    }
  }

  lemma {:induction false} FinishedLiteral(marks: seq<Mark>, text: string)
    ensures Finished(marks + Marks(text, false)) <==> Finished(marks)
    decreases |text|
  {
    var n := |text|;
    if n == 0 {
      assert marks + Marks(text, false) == marks;
    } else {
      FinishedLiteral(marks, text[..n - 1]);
      assert marks + Marks(text, false) == (marks + Marks(text[..n - 1], false)) + [Mark(text[n - 1], false)];
      FinishedSnoc(marks + Marks(text[..n - 1], false), Mark(text[n - 1], false));
    }
  }

  ghost predicate Uncut(marks: seq<Mark>)
  {
    forall k: nat :: !CutAt(marks, k)
  }

  lemma CutInFront(marks: seq<Mark>, more: seq<Mark>, k: nat)
    requires k < |marks|
    ensures CutAt(marks + more, k) <==> CutAt(marks, k)
  {
    assert (marks + more)[..k] == marks[..k];
  }

  lemma UncutSnoc(marks: seq<Mark>, m: Mark)
    requires Uncut(marks)
    ensures Uncut(marks + [m]) <==> !(m.plain && IsSpace(m.c) && Finished(marks))
    ensures m.plain && IsSpace(m.c) && Finished(marks) ==> FirstCut(marks + [m], 0) == Some(|marks|)
  {
    hide IsSpace, Finished;
    var all := marks + [m];
    assert all[..|marks|] == marks;
    forall k: nat | k < |marks| ensures !CutAt(all, k) { CutInFront(marks, [m], k); }
    assert CutAt(all, |marks|) <==> m.plain && IsSpace(m.c) && Finished(marks);
  }

  lemma {:induction false} UncutLiteral(marks: seq<Mark>, text: string)
    requires Uncut(marks)
    ensures Uncut(marks + Marks(text, false))
    decreases |text|
  {
    var n := |text|;
    if n == 0 {
      assert marks + Marks(text, false) == marks;
    } else {
      UncutLiteral(marks, text[..n - 1]);
      assert marks + Marks(text, false) == (marks + Marks(text[..n - 1], false)) + [Mark(text[n - 1], false)];
      UncutSnoc(marks + Marks(text[..n - 1], false), Mark(text[n - 1], false));
    }
  }

  /** A first sentence that is complete is said first, whatever follows in its run. */
  lemma SentenceFirst(voice: Option<string>, sentence: seq<Mark>, more: seq<Mark>)
    requires |sentence| > 0 && FirstCut(sentence, 0) == Some(|sentence| - 1)
    ensures Said(voice, Sentences(sentence + more)) == Cut(voice, Letters(sentence)) + Said(voice, Sentences(more))
  {
    hide Cut, CutAt;
    var all, n := sentence + more, |sentence|;
    forall k: nat | k < n ensures CutAt(all, k) <==> CutAt(sentence, k) { CutInFront(sentence, more, k); }
    assert FirstCut(all, 0) == Some(n - 1);
    assert all[..n] == sentence && all[n..] == more;
    assert ([sentence] + Sentences(more))[1..] == Sentences(more);
  }

  lemma {:induction false} SentenceFirstFrom(tokens: seq<Token>, voice: Option<string>, sentence: seq<Mark>, run: seq<Mark>)
    requires |sentence| > 0 && FirstCut(sentence, 0) == Some(|sentence| - 1)
    ensures SaidFrom(tokens, voice, sentence + run) == Cut(voice, Letters(sentence)) + SaidFrom(tokens, voice, run)
    decreases |tokens|
  {
    hide Cut, FirstCut, Sentences, Said;
    if |tokens| == 0 {
      SentenceFirst(voice, sentence, run);
    } else {
      match tokens[0]
      case Plain(c) =>
        assert (sentence + run) + [Mark(c, true)] == sentence + (run + [Mark(c, true)]);
        SentenceFirstFrom(tokens[1..], voice, sentence, run + [Mark(c, true)]);
      case Literal(text) =>
        assert (sentence + run) + Marks(text, false) == sentence + (run + Marks(text, false));
        SentenceFirstFrom(tokens[1..], voice, sentence, run + Marks(text, false));
      case Voice(key) =>
        SentenceFirst(voice, sentence, run);
        Assoc(Cut(voice, Letters(sentence)), Said(voice, Sentences(run)), SaidFrom(tokens[1..], Some(key), []));
    }
  }

  lemma UncutIsSaidWhole(voice: Option<string>, run: seq<Mark>)
    requires Uncut(run)
    ensures Said(voice, Sentences(run)) == Cut(voice, Letters(run))
  {
    hide Cut;
    assert FirstCut(run, 0).None?;
    assert [run][1..] == [];
    assert Cut(voice, Letters(run)) + [] == Cut(voice, Letters(run));
  }

  lemma LettersSnoc(run: seq<Mark>, m: Mark)
    ensures Letters(run + [m]) == Letters(run) + [m.c]
  {
  }

  lemma LettersLiteral(run: seq<Mark>, text: string)
    ensures Letters(run + Marks(text, false)) == Letters(run) + text
  {
  }

  /** Reading tokens with the machine's two flags is saying them sentence by sentence. */
  lemma {:induction false} TokensAreSaid(tokens: seq<Token>, voice: Option<string>, run: seq<Mark>, saw: bool)
    requires Uncut(run) && (saw <==> Finished(run))
    ensures StreamTokens(tokens, voice, Letters(run), saw) == SaidFrom(tokens, voice, run)
    decreases |tokens|
  {
    hide Cut, FirstCut, Sentences, Said, Finished, Uncut, Letters, Marks;
    if |tokens| == 0 {
      UncutIsSaidWhole(voice, run);
    } else {
      match tokens[0]
      case Plain(c) => PlainIsSaid(tokens, voice, run, saw, c);
      case Literal(text) =>
        FinishedLiteral(run, text);
        UncutLiteral(run, text);
        LettersLiteral(run, text);
        TokensAreSaid(tokens[1..], voice, run + Marks(text, false), saw);
      case Voice(key) =>
        UncutIsSaidWhole(voice, run);
        NothingIsFinished();
        TokensAreSaid(tokens[1..], Some(key), [], false);
    }
  }

  lemma NothingIsFinished()
    ensures !Finished([]) && Uncut([]) && Letters([]) == ""
  {
  }

  lemma {:induction false} PlainIsSaid(tokens: seq<Token>, voice: Option<string>, run: seq<Mark>, saw: bool, c: char)
    requires |tokens| > 0 && tokens[0] == Plain(c) && Uncut(run) && (saw <==> Finished(run))
    ensures StreamTokens(tokens, voice, Letters(run), saw) == SaidFrom(tokens, voice, run)
    decreases |tokens|, 0
  {
    hide Cut, FirstCut, Sentences, Said, Finished, Uncut, Letters, IsSpace;
    var m := Mark(c, true);
    var run' := run + [m];
    Punctuation(c);
    SpaceIsNoPunctuation(c);
    FinishedSnoc(run, m);
    UncutSnoc(run, m);
    LettersSnoc(run, m);
    if IsSpace(c) && saw {
      NothingIsFinished();
      TokensAreSaid(tokens[1..], voice, [], false);
      assert run' + [] == run';
      SentenceFirstFrom(tokens[1..], voice, run', []);
    } else {
      var e := PlainEffect(State(voice, Letters(run), None, saw), c);
      TokensAreSaid(tokens[1..], voice, run', e.st.saw);
      assert [] + StreamTokens(tokens[1..], voice, e.st.seg, e.st.saw) == StreamTokens(tokens[1..], voice, e.st.seg, e.st.saw);
    }
  }

  lemma SpaceIsNoPunctuation(c: char)
    ensures IsSpace(c) ==> c !in ENDS && c !in CLOSES
  {
    hide IsSpace;
    SpacesExactly(c);
    Punctuation(c);
  }

  /** However chunked, a narration is streamed as the sentences of its runs: cut after every finished sentence and at every voice change only. */
  lemma StreamSaysSentences(lower: string -> string, chunks: seq<string>)
    ensures Streamed(lower, INITIAL, chunks) == SaidFrom(Lex(lower, Concat(chunks)), None, [])
  {
    hide Cut, Sentences, Said, SaidFrom, Finished, Uncut, Letters;
    ChunkingIsIrrelevant(lower, INITIAL, chunks);
    StreamReadsTokens(lower, Concat(chunks), INITIAL);
    NothingIsFinished();
    TokensAreSaid(Lex(lower, Concat(chunks)), None, [], false);
  }

  lemma {:induction false} BracketlessTokens(lower: string -> string, s: string, run: seq<Mark>)
    requires '[' !in s
    ensures SaidFrom(Lex(lower, s), None, run) == Said(None, Sentences(run + Marks(s, true)))
    decreases |s|
  {
    hide Sentences, Said, KeyOf;
    if |s| == 0 {
      assert run + Marks(s, true) == run;
    } else {
      assert s[0] in s && forall c :: c in s[1..] ==> c in s;
      assert run + Marks(s, true) == (run + [Mark(s[0], true)]) + Marks(s[1..], true);
      var tokens := Lex(lower, s);
      assert tokens == [Plain(s[0])] + Lex(lower, s[1..]) && tokens[1..] == Lex(lower, s[1..]);
      BracketlessTokens(lower, s[1..], run + [Mark(s[0], true)]);
    }
  }

  /** So a narration without brackets is streamed as its own sentences. */
  lemma BracketlessStream(lower: string -> string, chunks: seq<string>)
    requires '[' !in Concat(chunks)
    ensures Streamed(lower, INITIAL, chunks) == Said(None, Sentences(Marks(Concat(chunks), true)))
  {
    hide Sentences, Said, SaidFrom, Streamed;
    StreamSaysSentences(lower, chunks);
    BracketlessTokens(lower, Concat(chunks), []);
    assert [] + Marks(Concat(chunks), true) == Marks(Concat(chunks), true);
  }

  /** The runs that are cut into sentences are the runs the batch parser says whole. */
  ghost function Runs(tokens: seq<Token>, voice: Option<string>, run: seq<Mark>): seq<(Option<string>, seq<Mark>)>
    decreases |tokens|
  {
    if |tokens| == 0 then [(voice, run)]
    else match tokens[0]
      case Plain(c) => Runs(tokens[1..], voice, run + [Mark(c, true)])
      case Literal(text) => Runs(tokens[1..], voice, run + Marks(text, false))
      case Voice(key) => [(voice, run)] + Runs(tokens[1..], Some(key), [])
  }

  ghost function Whole(runs: seq<(Option<string>, seq<Mark>)>): seq<NarrationSegment>
  {
    if |runs| == 0 then [] else Cut(runs[0].0, Letters(runs[0].1)) + Whole(runs[1..])
  }

  ghost function BySentence(runs: seq<(Option<string>, seq<Mark>)>): seq<NarrationSegment>
  {
    if |runs| == 0 then [] else Said(runs[0].0, Sentences(runs[0].1)) + BySentence(runs[1..])
  }

  lemma {:induction false} RunsSaid(tokens: seq<Token>, voice: Option<string>, run: seq<Mark>)
    ensures BatchTokens(tokens, voice, Letters(run)) == Whole(Runs(tokens, voice, run))
    ensures SaidFrom(tokens, voice, run) == BySentence(Runs(tokens, voice, run))
    decreases |tokens|
  {
    hide Cut, Sentences, Said, Letters, Marks;
    if |tokens| == 0 {
      var cut, said := Cut(voice, Letters(run)), Said(voice, Sentences(run));
      assert [(voice, run)][1..] == [] && cut + [] == cut && said + [] == said;
    } else {
      match tokens[0]
      case Plain(c) =>
        LettersSnoc(run, Mark(c, true));
        RunsSaid(tokens[1..], voice, run + [Mark(c, true)]);
      case Literal(text) =>
        LettersLiteral(run, text);
        RunsSaid(tokens[1..], voice, run + Marks(text, false));
      case Voice(key) =>
        NothingIsFinished();
        RunsSaid(tokens[1..], Some(key), []);
        assert ([(voice, run)] + Runs(tokens[1..], Some(key), []))[1..] == Runs(tokens[1..], Some(key), []);
    }
  }

  /** One division of the narration into runs: the batch parser says each whole, the stream says each sentence by sentence. */
  lemma SameRuns(lower: string -> string, chunks: seq<string>)
    ensures var runs := Runs(Lex(lower, Concat(chunks)), None, []);
      Parse(lower, Concat(chunks)) == Whole(runs) && Streamed(lower, INITIAL, chunks) == BySentence(runs)
  {
    hide Cut, Sentences, Said, SaidFrom, Streamed, Whole, BySentence, Runs, Finished, Uncut, Letters;
    var tokens := Lex(lower, Concat(chunks));
    StreamSaysSentences(lower, chunks);
    NothingIsFinished();
    RunsSaid(tokens, None, []);
    BatchReadsTokens(lower, Concat(chunks), None, "");
    NothingWaiting(lower, Concat(chunks));
  }

  lemma NothingWaiting(lower: string -> string, t: string)
    ensures ParseWaiting(lower, t, None, "") == Parse(lower, t)
  {
    hide NextMatch, Cut, KeyOf;
    assert forall x: string :: "" + x == x;
  }
}
