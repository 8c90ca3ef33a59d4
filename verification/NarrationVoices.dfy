/** Which voice speaks what (orchestrator/src/voice/markers.ts), spelled out in characters and words. */
module NarrationVoices {
  import opened Options
  import opened Text
  import opened Markers
  import opened StreamingSegmenter
  import opened NarrationTheorems

  /** A bracket `[npc:...]`, in any case, around at least one character. */
  ghost predicate MarkerAt(s: string, p: nat, e: nat)
  {
    && p + 7 <= e <= |s|
    && s[p] == '[' && s[p + 1] in "Nn" && s[p + 2] in "Pp" && s[p + 3] in "Cc" && s[p + 4] == ':' && s[e - 1] == ']'
    && forall k :: p + 5 <= k < e - 1 ==> s[k] != ']'
  }

  ghost predicate FirstMarker(s: string, p: nat, e: nat)
  {
    MarkerAt(s, p, e) && forall q: nat, f: nat :: q < p ==> !MarkerAt(s, q, f)
  }

  /** The name inside a marker: its interior without the white space around it, or its last character if there is no other. */
  ghost predicate Captured(body: string, name: string)
  {
    |name| > 0 && exists pre, post ::
      body == pre + name + post && Blank(pre) && Blank(post) && if Blank(body) then |name| == 1 && post == "" else Tight(name)
  }

  /** The voice of a name: its lower-cased words, one space apart. */
  ghost function VoiceOf(lower: string -> string, name: string): string
  {
    Join(Words(lower(name)), " ")
  }

  lemma MarkersAreMatches(s: string, p: nat, e: nat)
    ensures MarkerAt(s, p, e) <==> IsMatch(s, p, e)
  {
  }

  lemma CaptureIsCaptured(body: string)
    requires |body| > 0
    ensures Captured(body, Capture(body))
  {
    hide Trim, IsSpace;
    if Blank(body) {
      var n := |body| - 1;
      assert body == body[..n] + body[n..] + "" && Blank(body[..n]) && Blank("");
    } else {
      var pre, post := TrimSplits(body);
      assert |Trim(body)| == 0 ==> Trim(body) == [];
      assert Capture(body) == Trim(body) && body == pre + Capture(body) + post;
    }
  }

  lemma CapturedOnce(body: string, name: string)
    requires Captured(body, name)
    ensures |body| > 0 && name == Capture(body)
  {
    hide Trim, IsSpace;
    var pre, post :| body == pre + name + post && Blank(pre) && Blank(post)
      && if Blank(body) then |name| == 1 && post == "" else Tight(name);
    if Blank(body) {
      assert body[|pre|..] == name;
    } else {
      TrimUnique(body, pre, name, post);
    }
  }

  lemma KeyIsVoice(lower: string -> string, body: string, name: string)
    requires Captured(body, name)
    ensures |body| > 0 && KeyOf(lower, body) == VoiceOf(lower, name)
  {
    hide Trim, CollapseSpaces, Words, Captured, Capture;
    CapturedOnce(body, name);
    TidyIsWords(lower(name));
  }

  /** Two markers name one voice exactly when their names have the same words after lower-casing. */
  lemma SameVoiceExactly(lower: string -> string, body: string, name: string, body': string, name': string)
    requires Captured(body, name) && Captured(body', name')
    ensures |body| > 0 && |body'| > 0
    ensures KeyOf(lower, body) == KeyOf(lower, body') <==> Words(lower(name)) == Words(lower(name'))
  {
    hide Trim, CollapseSpaces, Words, Captured, Capture;
    CapturedOnce(body, name);
    CapturedOnce(body', name');
    TidyAlikeExactly(lower(name), lower(name'));
  }

  /** A voice is written in words one space apart, with exactly the characters of the lower-cased name that are not white space. */
  lemma VoicesAreTidy(lower: string -> string, name: string)
    ensures var voice := VoiceOf(lower, name);
      && Ink(voice) == Ink(lower(name)) && Tight(voice)
      && (forall i :: 0 <= i < |Words(voice)| ==> IsWord(Words(voice)[i])) && voice == Join(Words(voice), " ")
  {
    hide IsSpace, Words, Join, Ink, InkOf;
    var words := Words(lower(name));
    SpaceIsBlank();
    InkOfJoin(words, " ");
    InkOfWords(lower(name));
    WordsAreWords(lower(name));
    JoinedWordsAreTight(words);
    WordsOfJoin(words);
  }

  // ---- the batch parse, one marker at a time ----

  /** A run of narration in one voice: nothing when blank, else one segment with its text trimmed. */
  ghost predicate SaidBy(segments: seq<NarrationSegment>, voice: Option<string>, raw: string)
  {
    if Blank(raw) then segments == []
    else exists pre, text, post ::
      && raw == pre + text + post && Blank(pre) && Blank(post) && Tight(text) && |text| > 0
      && segments == [if voice.None? then Dm(text) else Npc(voice.value, text)]
  }

  lemma CutSays(voice: Option<string>, raw: string)
    ensures SaidBy(Cut(voice, raw), voice, raw)
  {
    hide Trim, IsSpace;
    var pre, post := TrimSplits(raw);
    if Blank(raw) {
      assert raw == raw + "" + "";
      TrimUnique(raw, raw, "", "");
    } else {
      assert raw == pre + Trim(raw) + post && |Trim(raw)| > 0;
    }
  }

  /** The parse is the run up to the marker, and then the rest in the voice of `name`. */
  ghost predicate TurnsTo(lower: string -> string, s: string, voice: Option<string>, p: nat, e: nat, name: string)
    requires p <= e <= |s|
  {
    exists run :: SaidBy(run, voice, s[..p])
                  && ParseFrom(lower, s, voice) == run + ParseFrom(lower, s[e..], Some(VoiceOf(lower, name)))
  }

  /** A text without markers is one run in the current voice; otherwise the first marker turns to the voice it names. */
  lemma ParseExactly(lower: string -> string, s: string, voice: Option<string>)
    ensures (forall p: nat, e: nat :: !MarkerAt(s, p, e)) ==> SaidBy(ParseFrom(lower, s, voice), voice, s)
    ensures forall p: nat, e: nat, name :: FirstMarker(s, p, e) && Captured(s[p + 5..e - 1], name) ==>
      TurnsTo(lower, s, voice, p, e, name)
  {
    hide NextMatch, Cut, KeyOf, SaidBy, Captured, VoiceOf, IsMatch, TurnsTo;
    var m := NextMatch(s);
    if m.None? {
      CutSays(voice, s);
    } else {
      MarkersAreMatches(s, m.value.start, m.value.end);
    }
    forall p: nat, e: nat, name | FirstMarker(s, p, e) && Captured(s[p + 5..e - 1], name)
      ensures TurnsTo(lower, s, voice, p, e, name)
    {
      FirstTurns(lower, s, voice, p, e, name);
    }
  }

  lemma FirstTurns(lower: string -> string, s: string, voice: Option<string>, p: nat, e: nat, name: string)
    requires FirstMarker(s, p, e) && Captured(s[p + 5..e - 1], name)
    ensures TurnsTo(lower, s, voice, p, e, name)
  {
    hide NextMatch, Cut, KeyOf, SaidBy, Captured, VoiceOf, IsMatch;
    MarkersAreMatches(s, p, e);
    NextMatchIsLeftmost(s, p, e);
    var m := NextMatch(s).value;
    MarkersAreMatches(s, m.start, m.end);
    ParseUnfolds(lower, s, voice);
    CutSays(voice, s[..p]);
    KeyIsVoice(lower, s[p + 5..e - 1], name);
  }

  // ---- every voice is named by a marker of the narration ----

  ghost predicate NamedAt(lower: string -> string, s: string, voice: string, p: nat, e: nat, name: string)
  {
    MarkerAt(s, p, e) && Captured(s[p + 5..e - 1], name) && voice == VoiceOf(lower, name)
  }

  ghost predicate Named(lower: string -> string, s: string, voice: Option<string>)
  {
    voice.None? || exists p: nat, e: nat, name :: NamedAt(lower, s, voice.value, p, e, name)
  }

  lemma NamedLater(lower: string -> string, s: string, n: nat, voice: Option<string>)
    requires n <= |s| && Named(lower, s[n..], voice)
    ensures Named(lower, s, voice)
  {
    hide Captured, VoiceOf;
    if voice.Some? {
      var p: nat, e: nat, name :| NamedAt(lower, s[n..], voice.value, p, e, name);
      assert s[n..][p + 5..e - 1] == s[n + p + 5..n + e - 1];
      assert forall k :: p + 5 <= k < e - 1 ==> s[n..][k] == s[n + k];
      assert forall k :: n + p + 5 <= k < n + e - 1 ==> s[k] == s[n..][k - n];
      assert NamedAt(lower, s, voice.value, n + p, n + e, name);
    }
  }

  lemma {:induction false} ParsedVoicesAreNamed(lower: string -> string, s: string, voice: Option<string>)
    ensures forall x :: x in ParseFrom(lower, s, voice) ==> x.Voice() == voice || Named(lower, s, x.Voice())
    decreases |s|
  {
    hide NextMatch, KeyOf, Captured, VoiceOf, Named, Trim;
    var m := NextMatch(s);
    if m.Some? {
      var Match(p, e) := m.value;
      var body := s[p + 5..e - 1];
      var key := KeyOf(lower, body);
      CaptureIsCaptured(body);
      KeyIsVoice(lower, body, Capture(body));
      MarkersAreMatches(s, p, e);
      NamedHere(lower, s, p, e, Capture(body));
      ParseUnfolds(lower, s, voice);
      ParsedVoicesAreNamed(lower, s[e..], Some(key));
      forall x | x in ParseFrom(lower, s, voice)
        ensures x.Voice() == voice || Named(lower, s, x.Voice())
      {
        if x in ParseFrom(lower, s[e..], Some(key)) && x.Voice() != Some(key) { NamedLater(lower, s, e, x.Voice()); }
      }
    }
  }

  lemma NamedHere(lower: string -> string, s: string, p: nat, e: nat, name: string)
    requires MarkerAt(s, p, e) && Captured(s[p + 5..e - 1], name)
    ensures Named(lower, s, Some(VoiceOf(lower, name)))
  {
    assert NamedAt(lower, s, VoiceOf(lower, name), p, e, name);
  }

  lemma {:induction false} RefinedVoices(fine: seq<NarrationSegment>, coarse: seq<NarrationSegment>)
    requires Refines(fine, coarse)
    ensures forall x :: x in fine ==> exists y :: y in coarse && y.Voice() == x.Voice()
    decreases |coarse|
  {
    if |coarse| > 0 {
      hide Woven, Texts, Refines;
      var n := RefinesFirst(fine, coarse);
      RefinedVoices(fine[n..], coarse[1..]);
      assert fine == fine[..n] + fine[n..];
      forall x | x in fine
        ensures exists y :: y in coarse && y.Voice() == x.Voice()
      {
        if x in fine[..n] { assert coarse[0] in coarse; }
      }
    }
  }

  /** However a narration is cut into chunks, every character voice streamed is that of a marker in it. */
  lemma StreamedVoicesAreNamed(lower: string -> string, chunks: seq<string>)
    ensures forall x :: x in Streamed(lower, INITIAL, chunks) ==> Named(lower, Concat(chunks), x.Voice())
  {
    hide Refines, Named, Streamed;
    var s := Concat(chunks);
    StreamRefinesBatch(lower, chunks);
    RefinedVoices(Streamed(lower, INITIAL, chunks), Parse(lower, s));
    ParsedVoicesAreNamed(lower, s, None);
    NarratorIsNamed(lower, s);
  }

  lemma NarratorIsNamed(lower: string -> string, s: string)
    ensures Named(lower, s, None)
  {
  }
}
