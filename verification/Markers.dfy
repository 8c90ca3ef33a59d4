/** Batch narration parser (orchestrator/src/voice/markers.ts). */
module Markers {
  import opened Options
  import opened Seqs
  import opened Text

  datatype NarrationSegment =
    | Dm(text: string)
    | Npc(npcKey: string, text: string)
  {
    function Voice(): Option<string>
    {
      match this
      case Dm(_) => None
      case Npc(key, _) => Some(key)
    }
  }

  function Segment(voice: Option<string>, text: string): NarrationSegment
  {
    if voice.None? then Dm(text) else Npc(voice.value, text)
  }

  /** `s` spells the first `n` characters of `NPC:`, in either case, from `p` on. */
  predicate SpellsPrefix(s: string, p: nat, n: nat)
  {
    && n <= 4 && p + n <= |s|
    && (n > 0 ==> s[p] == 'N' || s[p] == 'n')
    && (n > 1 ==> s[p + 1] == 'P' || s[p + 1] == 'p')
    && (n > 2 ==> s[p + 2] == 'C' || s[p + 2] == 'c')
    && (n > 3 ==> s[p + 3] == ':')
  }

  /** `lower` stands for the host's locale-independent lower-casing. */
  function NormalizeNpcKey(lower: string -> string, raw: string): string
  {
    Trim(CollapseSpaces(lower(raw)))
  }

  /** What `\s*([^\]]+?)\s*` captures from the text between `NPC:` and the bracket. */
  function Capture(body: string): string
    requires |body| > 0
  {
    if Blank(body) then body[|body| - 1..] else Trim(body)
  }

  function KeyOf(lower: string -> string, body: string): string
    requires |body| > 0
  {
    NormalizeNpcKey(lower, Capture(body))
  }

  predicate OpensMarker(s: string, p: nat)
  {
    p < |s| && s[p] == '[' && SpellsPrefix(s, p + 1, 4)
  }

  /** No `]` from `i` up to `j`. */
  predicate NoClose(s: string, i: nat, j: nat)
  {
    forall k :: i <= k < j && k < |s| ==> s[k] != ']'
  }

  /** The marker expression matches exactly `s[p..e]`. */
  predicate IsMatch(s: string, p: nat, e: nat)
  {
    OpensMarker(s, p) && p + 7 <= e <= |s| && s[e - 1] == ']' && NoClose(s, p + 5, e - 1)
  }

  /** Index of the first `]` at or after `i`, or the length of `s`. */
  function FirstClose(s: string, i: nat): (r: nat)
    requires i <= |s|
    ensures i <= r <= |s| && NoClose(s, i, r) && (r < |s| ==> s[r] == ']')
    decreases |s| - i
  {
    if i == |s| || s[i] == ']' then i else FirstClose(s, i + 1)
  }

  datatype Match = Match(start: nat, end: nat)

  /** `MARKER.exec`, by trying each position in turn. */
  function NextMatch(s: string): (m: Option<Match>)
    ensures m.Some? ==> m.value.start + 7 <= m.value.end <= |s| && IsMatch(s, m.value.start, m.value.end)
  {
    if s == [] then None
    else if OpensMarker(s, 0) && 5 < FirstClose(s, 5) < |s| then Some(Match(0, FirstClose(s, 5) + 1))
    else
      var m := NextMatch(s[1..]);
      if m.None? then None
      else
        MatchShifts(s, m.value.start, m.value.end);
        Some(Match(m.value.start + 1, m.value.end + 1))
  }

  lemma MatchShifts(s: string, p: nat, e: nat)
    requires |s| > 0
    ensures IsMatch(s[1..], p, e) <==> IsMatch(s, p + 1, e + 1)
  {
    if p + 7 <= e < |s| {
      assert forall k :: 0 <= k < |s| - 1 ==> s[1..][k] == s[k + 1];
      assert NoClose(s[1..], p + 5, e - 1) <==> NoClose(s, p + 6, e) by {
        assert forall k :: p + 6 <= k < e ==> s[k] == s[1..][k - 1];
      }
    }
  }

  /** The match found is the leftmost one there is, and its end is the only possible one. */
  lemma {:induction false} NextMatchIsLeftmost(s: string, p: nat, e: nat)
    requires IsMatch(s, p, e)
    ensures var m := NextMatch(s); m.Some? && (m.value.start < p || m.value == Match(p, e))
  {
    if p == 0 {
      assert FirstClose(s, 5) == e - 1;
    } else {
      MatchShifts(s, p - 1, e - 1);
      NextMatchIsLeftmost(s[1..], p - 1, e - 1);
    }
  }

  /** Emit one run of raw text in one voice, dropping it when blank. */
  function Cut(voice: Option<string>, raw: string): seq<NarrationSegment>
  {
    if Trim(raw) == [] then [] else [Segment(voice, Trim(raw))]
  }

  function ParseFrom(lower: string -> string, s: string, voice: Option<string>): seq<NarrationSegment>
    decreases |s|
  {
    var m := NextMatch(s);
    if m.None? then Cut(voice, s)
    else
      var Match(start, end) := m.value;
      Cut(voice, s[..start]) + ParseFrom(lower, s[end..], Some(KeyOf(lower, s[start + 5..end - 1])))
  }

  /** The whole-string parse: the simple form the streaming segmenter refines. */
  function Parse(lower: string -> string, narration: string): seq<NarrationSegment>
  {
    ParseFrom(lower, narration, None)
  }

  lemma ParseUnfolds(lower: string -> string, s: string, voice: Option<string>)
    requires NextMatch(s).Some?
    ensures var Match(start, end) := NextMatch(s).value;
      ParseFrom(lower, s, voice)
      == Cut(voice, s[..start]) + ParseFrom(lower, s[end..], Some(KeyOf(lower, s[start + 5..end - 1])))
  {
    hide NextMatch, Cut, KeyOf;
  }

  method ParseNarrationSegments(lower: string -> string, narration: string) returns (segments: seq<NarrationSegment>)
    ensures segments == Parse(lower, narration)
  {
    hide NextMatch, Cut, KeyOf;
    segments := [];
    var lastIndex := 0;
    var currentNpc: Option<string> := None;
    var rest := narration;
    var m := NextMatch(rest);
    while m.Some?
      invariant lastIndex <= |narration| && rest == narration[lastIndex..] && m == NextMatch(rest)
      invariant segments + ParseFrom(lower, rest, currentNpc) == Parse(lower, narration)
      decreases |narration| - lastIndex
    {
      var Match(start, end) := m.value;
      var key := KeyOf(lower, rest[start + 5..end - 1]);
      var cut := Cut(currentNpc, rest[..start]);
      ParseUnfolds(lower, rest, currentNpc);
      Assoc(segments, cut, ParseFrom(lower, rest[end..], Some(key)));
      segments := segments + cut;
      currentNpc := Some(key);
      lastIndex := lastIndex + end;
      rest := rest[end..];
      m := NextMatch(rest);
    }
    segments := segments + Cut(currentNpc, rest);
  }
}
