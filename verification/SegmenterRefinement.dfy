/**
 * The streaming segmenter refines the batch parser. Both are related to one
 * token reading of the narration: plain characters, bracket text that is not a
 * marker, and voice changes.
 */
module SegmenterRefinement {
  import opened Options
  import opened Seqs
  import opened Text
  import opened Markers
  import opened StreamingSegmenter

  datatype Token = Plain(c: char) | Literal(text: string) | Voice(key: string)

  /** How much of `NPC:` follows the bracket `t[0]`. */
  function ViableRun(t: string): (k: nat)
    requires |t| > 0
    ensures k <= 4 && 1 + k <= |t| && SpellsPrefix(t, 1, k) && (k < 4 ==> !SpellsPrefix(t, 1, k + 1))
  {
    if SpellsPrefix(t, 1, 4) then 4
    else if SpellsPrefix(t, 1, 3) then 3
    else if SpellsPrefix(t, 1, 2) then 2
    else if SpellsPrefix(t, 1, 1) then 1
    else 0
  }

  /** The first token of a nonempty text and the number of characters it takes. */
  function NextToken(lower: string -> string, t: string): (r: (Token, nat))
    requires |t| > 0
    ensures 0 < r.1 <= |t|
  {
    if t[0] != '[' then (Plain(t[0]), 1)
    else
      var k := ViableRun(t);
      if k < 4 then
        var n := if 1 + k < |t| && t[1 + k] == ']' then 2 + k else 1 + k;
        (Literal(t[..n]), n)
      else
        var close := FirstClose(t, 5);
        if close == |t| then (Literal(t[..|t|]), |t|)
        else if close == 5 then (Literal(t[..6]), 6)
        else (Voice(KeyOf(lower, t[5..close])), close + 1)
  }

  function Lex(lower: string -> string, t: string): seq<Token>
    decreases |t|
  {
    if t == [] then []
    else
      var (token, n) := NextToken(lower, t);
      [token] + Lex(lower, t[n..])
  }

  /** Batch parsing of tokens: only voice changes cut. */
  function BatchTokens(tokens: seq<Token>, voice: Option<string>, raw: string): seq<NarrationSegment>
    decreases |tokens|
  {
    if tokens == [] then Cut(voice, raw)
    else match tokens[0]
      case Plain(c) => BatchTokens(tokens[1..], voice, raw + [c])
      case Literal(text) => BatchTokens(tokens[1..], voice, raw + text)
      case Voice(key) => Cut(voice, raw) + BatchTokens(tokens[1..], Some(key), "")
  }

  /** Streaming of tokens: voice changes cut, and so does a space after a sentence end. */
  function StreamTokens(tokens: seq<Token>, voice: Option<string>, seg: string, saw: bool): seq<NarrationSegment>
    decreases |tokens|
  {
    if tokens == [] then Cut(voice, seg)
    else match tokens[0]
      case Plain(c) =>
        var e := PlainEffect(State(voice, seg, None, saw), c);
        e.out + StreamTokens(tokens[1..], voice, e.st.seg, e.st.saw)
      case Literal(text) => StreamTokens(tokens[1..], voice, seg + text, saw)
      case Voice(key) => Cut(voice, seg) + StreamTokens(tokens[1..], Some(key), "", false)
  }

  // ---- the batch parser reads these tokens ----

  lemma {:induction false} NextMatchSkips(t: string, n: nat)
    requires n <= |t| && forall p: nat, e: nat :: p < n ==> !IsMatch(t, p, e)
    ensures var m, m' := NextMatch(t), NextMatch(t[n..]);
      if m'.None? then m.None? else m == Some(Match(m'.value.start + n, m'.value.end + n))
  {
    hide OpensMarker, NextMatch;
    var m, m' := NextMatch(t), NextMatch(t[n..]);
    if m.Some? {
      var Match(p, e) := m.value;
      MatchSkips(t, n, p - n, e - n);
      NextMatchIsLeftmost(t[n..], p - n, e - n);
    }
    if m'.Some? {
      var Match(p, e) := m'.value;
      MatchSkips(t, n, p, e);
      NextMatchIsLeftmost(t, p + n, e + n);
    }
  }

  lemma MatchSkips(t: string, n: nat, p: nat, e: nat)
    requires n <= |t|
    ensures IsMatch(t[n..], p, e) <==> IsMatch(t, p + n, e + n)
  {
    if p + 7 <= e <= |t| - n {
      assert forall k :: 0 <= k < |t| - n ==> t[n..][k] == t[k + n];
      assert NoClose(t[n..], p + 5, e - 1) <==> NoClose(t, p + n + 5, e + n - 1) by {
        assert forall k :: p + n + 5 <= k < e + n - 1 ==> t[k] == t[n..][k - n];
      }
    }
  }

  /** A first token that is not a voice change hides no match; a voice change is the first match. */
  lemma TokenMatches(lower: string -> string, t: string)
    requires |t| > 0
    ensures var (token, n) := NextToken(lower, t);
      if token.Voice? then NextMatch(t) == Some(Match(0, n)) && n >= 7 && token.key == KeyOf(lower, t[5..n - 1])
      else forall p: nat, e: nat :: p < n ==> !IsMatch(t, p, e)
  {
    hide KeyOf, NextMatch, FirstClose;
    var (token, n) := NextToken(lower, t);
    if token.Voice? {
      NextMatchIsLeftmost(t, 0, n);
    }
  }

  /** A narration cut at its first match: the text before, the interior of the marker, the text after. */
  datatype Pieces = Whole(text: string) | CutOnce(before: string, body: string, after: string)

  function PiecesAt(t: string, raw: string, m: Option<Match>): (r: Pieces)
    requires m.Some? ==> m.value.start + 7 <= m.value.end <= |t|
    ensures r.CutOnce? ==> |r.body| > 0
  {
    if m.None? then Whole(raw + t)
    else CutOnce(raw + t[..m.value.start], t[m.value.start + 5..m.value.end - 1], t[m.value.end..])
  }

  function CutPieces(lower: string -> string, voice: Option<string>, pieces: Pieces): seq<NarrationSegment>
    requires pieces.CutOnce? ==> |pieces.body| > 0
  {
    match pieces
    case Whole(text) => Cut(voice, text)
    case CutOnce(before, body, after) => Cut(voice, before) + ParseFrom(lower, after, Some(KeyOf(lower, body)))
  }

  /** What the batch parser makes of `t` when `raw` is waiting in front of it. */
  function ParseWaiting(lower: string -> string, t: string, voice: Option<string>, raw: string): seq<NarrationSegment>
  {
    CutPieces(lower, voice, PiecesAt(t, raw, NextMatch(t)))
  }

  lemma PiecesShift(t: string, n: nat, raw: string, m: Option<Match>)
    requires n <= |t| && (m.Some? ==> m.value.start + 7 <= m.value.end <= |t| - n)
    ensures PiecesAt(t, raw, if m.None? then None else Some(Match(m.value.start + n, m.value.end + n)))
         == PiecesAt(t[n..], raw + t[..n], m)
  {
    if m.None? {
      MoveFront(raw, t, n, |t| - n);
      WholeSlice(t[n..]);
      WholeSlice(t);
    } else {
      var Match(start, end) := m.value;
      MoveFront(raw, t, n, start);
      SuffixSlices(t, n, start + 5, end - 1);
      SuffixSlices(t, n, 0, end);
    }
  }

  /** A token that is not a voice change only adds its text to what is waiting. */
  lemma WaitingGrows(lower: string -> string, t: string, n: nat, voice: Option<string>, raw: string)
    requires n <= |t| && forall p: nat, e: nat :: p < n ==> !IsMatch(t, p, e)
    ensures ParseWaiting(lower, t, voice, raw) == ParseWaiting(lower, t[n..], voice, raw + t[..n])
  {
    hide PiecesAt, CutPieces, NextMatch, IsMatch;
    NextMatchSkips(t, n);
    var m := NextMatch(t[n..]);
    PiecesShift(t, n, raw, m);
    assert PiecesAt(t, raw, NextMatch(t)) == PiecesAt(t[n..], raw + t[..n], m);
  }

  lemma {:induction false} BatchReadsTokens(lower: string -> string, t: string, voice: Option<string>, raw: string)
    ensures ParseWaiting(lower, t, voice, raw) == BatchTokens(Lex(lower, t), voice, raw)
    decreases |t|
  {
    hide KeyOf, Cut, NextToken, NextMatch, IsMatch;
    if t == [] {
      NoMatchInEmpty();
      assert raw + t == raw;
    } else {
      var (token, n) := NextToken(lower, t);
      TokenMatches(lower, t);
      if token.Voice? {
        assert raw + t[..0] == raw;
        ParseIsWaiting(lower, t[n..], Some(token.key));
        BatchReadsTokens(lower, t[n..], Some(token.key), "");
      } else {
        hide ParseWaiting;
        TokenText(lower, t);
        WaitingGrows(lower, t, n, voice, raw);
        BatchReadsTokens(lower, t[n..], voice, raw + t[..n]);
      }
    }
  }

  lemma NoMatchInEmpty()
    ensures NextMatch("").None?
  {
  }

  lemma TokenText(lower: string -> string, t: string)
    requires |t| > 0
    ensures var (token, n) := NextToken(lower, t);
      token.Voice? || (token == Plain(t[0]) && n == 1 && [t[0]] == t[..1]) || token == Literal(t[..n])
  {
  }

  lemma ParseIsWaiting(lower: string -> string, t: string, voice: Option<string>)
    ensures ParseFrom(lower, t, voice) == ParseWaiting(lower, t, voice, "")
  {
    hide KeyOf, Cut, NextMatch;
    var m := NextMatch(t);
    if m.None? {
      assert "" + t == t;
    } else {
      ParseUnfolds(lower, t, voice);
      assert "" + t[..m.value.start] == t[..m.value.start];
    }
  }

  // ---- the streaming segmenter reads the same tokens ----

  lemma ViableGrows(interior: string, more: string)
    requires IsViableMarkerInterior(interior + more)
    ensures IsViableMarkerInterior(interior)
  {
    assert forall k :: 0 <= k < |interior| ==> (interior + more)[k] == interior[k];
  }

  /** Characters that keep a bracket viable are held and emit nothing. */
  lemma {:induction false} RunHolds(lower: string -> string, st: State, interior: string, more: string)
    requires st.marker == Some(interior) && IsViableMarkerInterior(interior + more) && NoClose(more, 0, |more|)
    ensures Run(lower, st, more) == Effect(st.(marker := Some(interior + more)), [])
    decreases |more|
  {
    if more == [] {
      assert interior + more == interior;
    } else {
      assert interior + more == interior + [more[0]] + more[1..];
      ViableGrows(interior + [more[0]], more[1..]);
      RunHolds(lower, st.(marker := Some(interior + [more[0]])), interior + [more[0]], more[1..]);
    }
  }

  lemma FinishSplits(lower: string -> string, st: State, a: string, b: string)
    ensures var e := Run(lower, st, a);
      Finish(lower, st, a + b) == e.out + Finish(lower, e.st, b)
  {
    hide Run, FlushEffect;
    RunConcat(lower, st, a, b);
    var e := Run(lower, st, a);
    var e' := Run(lower, e.st, b);
    Assoc(e.out, e'.out, FlushEffect(e'.st).out);
  }

  /** The state after the opening bracket and a viable, unclosed interior. */
  lemma OpenBracket(lower: string -> string, st: State, interior: string, rest: string)
    requires st.marker.None? && IsViableMarkerInterior(interior) && NoClose(interior, 0, |interior|)
    ensures Finish(lower, st, ['['] + interior + rest) == Finish(lower, st.(marker := Some(interior)), rest)
  {
    hide TextEffect, FlushEffect, IsViableMarkerInterior;
    var held := st.(marker := Some(""));
    assert "" + interior == interior;
    RunHolds(lower, held, "", interior);
    assert Step(lower, st, '[') == Effect(held, []) by { OpensBracket(lower, st); }
    assert Run(lower, st, ['[']) == Effect(held, []) by { RunOne(lower, st, '['); }
    RunConcat(lower, st, ['['], interior);
    FinishSplits(lower, st, ['['] + interior, rest);
  }

  lemma OpensBracket(lower: string -> string, st: State)
    requires st.marker.None?
    ensures Step(lower, st, '[') == Effect(st.(marker := Some("")), [])
  {
  }

  lemma RunOne(lower: string -> string, st: State, c: char)
    ensures Run(lower, st, [c]) == Step(lower, st, c)
  {
    hide Step;
    assert Step(lower, st, c).out + [] == Step(lower, st, c).out;
  }

  /** One more character than the plain steps: what `c` does in any state. */
  lemma FinishStep(lower: string -> string, st: State, c: char, rest: string)
    ensures var e := Step(lower, st, c);
      Finish(lower, st, [c] + rest) == e.out + Finish(lower, e.st, rest)
  {
    hide Step, Finish;
    RunOne(lower, st, c);
    FinishSplits(lower, st, [c], rest);
  }

  /** A character that disproves the held bracket is read as if the bracket had been literal text. */
  lemma Disproved(lower: string -> string, st: State, interior: string, rest: string)
    requires st.marker.None? && IsViableMarkerInterior(interior) && NoClose(interior, 0, |interior|)
    requires rest == [] || (rest[0] != ']' && !IsViableMarkerInterior(interior + [rest[0]]))
    ensures Finish(lower, st, ['['] + interior + rest) == Finish(lower, st.(seg := st.seg + (['['] + interior)), rest)
  {
    hide Cut, IsViableMarkerInterior, PlainEffect;
    var held := st.(marker := Some(interior));
    var literal := st.(seg := st.seg + (['['] + interior));
    OpenBracket(lower, st, interior, rest);
    assert st.seg + "[" + interior == literal.seg;
    if rest != [] {
      assert rest == [rest[0]] + rest[1..];
      FinishStep(lower, held, rest[0], rest[1..]);
      FinishStep(lower, literal, rest[0], rest[1..]);
    }
  }

  /** A closing bracket after a viable interior: a voice change or literal text. */
  lemma Closed(lower: string -> string, st: State, interior: string, rest: string)
    requires st.marker.None? && IsViableMarkerInterior(interior) && NoClose(interior, 0, |interior|)
    ensures Finish(lower, st, ['['] + interior + [']'] + rest) ==
      if |interior| <= 4 then Finish(lower, st.(seg := st.seg + (['['] + interior + [']'])), rest)
      else Cut(st.voice, st.seg) + Finish(lower, State(Some(KeyOf(lower, interior[4..])), "", None, false), rest)
  {
    hide Cut, KeyOf, Finish, TextEffect;
    assert ['['] + interior + [']'] + rest == ['['] + interior + ([']'] + rest);
    OpenBracket(lower, st, interior, [']'] + rest);
    FinishStep(lower, st.(marker := Some(interior)), ']', rest);
    assert st.seg + "[" + interior + "]" == st.seg + (['['] + interior + [']']);
  }

  lemma {:induction false} StreamReadsTokens(lower: string -> string, t: string, st: State)
    requires st.marker.None?
    ensures Finish(lower, st, t) == StreamTokens(Lex(lower, t), st.voice, st.seg, st.saw)
    decreases |t|
  {
    hide KeyOf, Cut, PlainEffect, IsViableMarkerInterior, ParseMarkerKey;
    if t == [] {
    } else {
      var (token, n) := NextToken(lower, t);
      assert t == t[..n] + t[n..];
      if token.Plain? {
        FinishStep(lower, st, t[0], t[1..]);
        StreamReadsTokens(lower, t[1..], PlainEffect(st, t[0]).st) by { PlainKeepsVoice(st, t[0]); }
        PlainKeepsVoice(st, t[0]);
      } else if token.Voice? {
        VoiceText(lower, t);
        Closed(lower, st, t[1..n - 1], t[n..]);
        StreamReadsTokens(lower, t[n..], State(Some(token.key), "", None, false));
      } else {
        LiteralText(lower, t);
        var literal := st.(seg := st.seg + t[..n]);
        if t[n - 1] == ']' {
          Closed(lower, st, t[1..n - 1], t[n..]);
        } else {
          Disproved(lower, st, t[1..n], t[n..]);
        }
        StreamReadsTokens(lower, t[n..], literal);
      }
    }
  }

  lemma PlainKeepsVoice(st: State, c: char)
    ensures var st' := PlainEffect(st, c).st; st'.voice == st.voice && st'.marker == st.marker
    ensures PlainEffect(State(st.voice, st.seg, None, st.saw), c).st.seg == PlainEffect(st, c).st.seg
    ensures PlainEffect(State(st.voice, st.seg, None, st.saw), c).st.saw == PlainEffect(st, c).st.saw
    ensures PlainEffect(State(st.voice, st.seg, None, st.saw), c).out == PlainEffect(st, c).out
  {
  }

  /** The shape of a voice change. */
  lemma VoiceText(lower: string -> string, t: string)
    requires |t| > 0 && NextToken(lower, t).0.Voice?
    ensures var (token, n) := NextToken(lower, t);
      && n >= 7 && t == ['['] + t[1..n - 1] + [']'] + t[n..]
      && IsViableMarkerInterior(t[1..n - 1]) && NoClose(t[1..n - 1], 0, n - 2)
      && token.key == KeyOf(lower, t[1..n - 1][4..])
  {
    hide KeyOf, FirstClose;
    var (token, n) := NextToken(lower, t);
    assert t[1..n - 1][4..] == t[5..n - 1];
    Bracketed(t, n - 2);
  }

  /** `t[..n]` is a bracket whose viable interior closes, or one that stops being viable at `n`. */
  ghost predicate ClosedBracket(t: string, n: nat)
  {
    && 2 <= n <= |t| && n <= 6
    && t == ['['] + t[1..n - 1] + [']'] + t[n..]
    && t[..n] == ['['] + t[1..n - 1] + [']']
    && IsViableMarkerInterior(t[1..n - 1]) && NoClose(t[1..n - 1], 0, n - 2)
  }

  ghost predicate BrokenBracket(t: string, n: nat)
  {
    && 1 <= n <= |t|
    && t == ['['] + t[1..n] + t[n..]
    && t[..n] == ['['] + t[1..n]
    && IsViableMarkerInterior(t[1..n]) && NoClose(t[1..n], 0, n - 1)
    && (n < |t| ==> t[n] != ']' && !IsViableMarkerInterior(t[1..n] + [t[n]]))
  }

  /** The shape of bracket text that is not a marker. */
  lemma LiteralText(lower: string -> string, t: string)
    requires |t| > 0 && NextToken(lower, t).0.Literal?
    ensures var (token, n) := NextToken(lower, t);
      token == Literal(t[..n]) && if t[n - 1] == ']' then ClosedBracket(t, n) else BrokenBracket(t, n)
  {
    hide KeyOf, FirstClose, ClosedBracket, BrokenBracket;
    var (token, n) := NextToken(lower, t);
    if t[n - 1] == ']' {
      CloseIsShort(t, n);
    } else {
      BreakIsBroken(t, n);
    }
  }

  lemma CloseIsShort(t: string, n: nat)
    requires 2 <= n <= 6 && n <= |t| && t[0] == '[' && t[n - 1] == ']' && SpellsPrefix(t, 1, n - 2)
    ensures ClosedBracket(t, n)
  {
    Bracketed(t, n - 2);
  }

  lemma BreakIsBroken(t: string, n: nat)
    requires 1 <= n <= |t| && t[0] == '[' && SpellsPrefix(t, 1, if n <= 5 then n - 1 else 4) && NoClose(t, 5, n)
    requires n < |t| ==> t[n] != ']' && n <= 4 && !SpellsPrefix(t, 1, n)
    ensures BrokenBracket(t, n)
  {
    Bracketed(t, n - 1);
    assert n < |t| ==> forall k :: 1 <= k <= n ==> (t[1..n] + [t[n]])[k - 1] == t[k];
  }

  lemma Bracketed(t: string, k: nat)
    requires |t| > 0 && t[0] == '[' && k < |t|
    ensures t[..k + 1] == ['['] + t[1..k + 1] && t == ['['] + t[1..k + 1] + t[k + 1..]
    ensures k + 1 < |t| && t[k + 1] == ']' ==>
      t[..k + 2] == ['['] + t[1..k + 1] + [']'] && t == ['['] + t[1..k + 1] + [']'] + t[k + 2..]
  {
    assert t == t[..k + 1] + t[k + 1..];
    if k + 1 < |t| { assert t == t[..k + 2] + t[k + 2..]; }
  }
}
