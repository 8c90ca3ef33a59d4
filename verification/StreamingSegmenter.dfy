/** Streaming narration segmenter (orchestrator/src/voice/streaming_segmenter.ts). */
module StreamingSegmenter {
  import opened Options
  import opened Seqs
  import opened Text
  import opened Markers

  predicate IsTerminator(c: char)
  {
    c == '.' || c == '!' || c == '?'
  }

  /** Closing punctuation that keeps a pending sentence end pending. */
  predicate IsTrailing(c: char)
  {
    || c == '"' || c == '\'' || c == '\U{201D}' || c == '\U{2019}'
    || c == ')' || c == ']' || c == '\U{00BB}'
  }

  /** Whether the characters seen after `[` could still become a marker. */
  predicate IsViableMarkerInterior(interior: string)
  {
    SpellsPrefix(interior, 0, if |interior| <= 4 then |interior| else 4)
  }

  function ParseMarkerKey(lower: string -> string, interior: string): Option<string>
  {
    if |interior| > 4 && SpellsPrefix(interior, 0, 4) && NoClose(interior, 4, |interior|)
    then Some(KeyOf(lower, interior[4..]))
    else None
  }

  /** The segmenter's four fields. */
  datatype State = State(voice: Option<string>, seg: string, marker: Option<string>, saw: bool)

  const INITIAL := State(None, "", None, false)

  datatype Effect = Effect(st: State, out: seq<NarrationSegment>)

  function EmitEffect(st: State): Effect
  {
    Effect(st.(seg := ""), Cut(st.voice, st.seg))
  }

  function PlainEffect(st: State, c: char): Effect
  {
    var st' := st.(seg := st.seg + [c]);
    if IsSpace(c) then
      if st.saw then
        var e := EmitEffect(st');
        Effect(e.st.(saw := false), e.out)
      else Effect(st', [])
    else if IsTerminator(c) then Effect(st'.(saw := true), [])
    else if IsTrailing(c) then Effect(st', [])
    else Effect(st'.(saw := false), [])
  }

  function TextEffect(st: State, c: char): Effect
  {
    if c == '[' then Effect(st.(marker := Some("")), []) else PlainEffect(st, c)
  }

  /** One character consumed. */
  function Step(lower: string -> string, st: State, c: char): Effect
  {
    if st.marker.None? then TextEffect(st, c)
    else
      var interior := st.marker.value;
      if c == ']' then
        var key := ParseMarkerKey(lower, interior);
        if key.Some? then Effect(State(key, "", None, false), Cut(st.voice, st.seg))
        else Effect(st.(seg := st.seg + "[" + interior + "]", marker := None), [])
      else if IsViableMarkerInterior(interior + [c]) then Effect(st.(marker := Some(interior + [c])), [])
      else TextEffect(st.(seg := st.seg + "[" + interior, marker := None), c)
  }

  function Run(lower: string -> string, st: State, s: string): Effect
    decreases s
  {
    if s == [] then Effect(st, [])
    else
      var first := Step(lower, st, s[0]);
      var rest := Run(lower, first.st, s[1..]);
      Effect(rest.st, first.out + rest.out)
  }

  function FlushEffect(st: State): Effect
  {
    if st.marker.Some? then EmitEffect(st.(seg := st.seg + "[" + st.marker.value, marker := None))
    else EmitEffect(st)
  }

  /** Everything emitted from state `st` on when `s` is fed and the stream ends. */
  function Finish(lower: string -> string, st: State, s: string): seq<NarrationSegment>
  {
    var e := Run(lower, st, s);
    e.out + FlushEffect(e.st).out
  }

  /** Everything emitted for a stream fed chunk by chunk. */
  function Streamed(lower: string -> string, st: State, chunks: seq<string>): seq<NarrationSegment>
    decreases |chunks|
  {
    if chunks == [] then FlushEffect(st).out
    else
      var e := Run(lower, st, chunks[0]);
      e.out + Streamed(lower, e.st, chunks[1..])
  }

  lemma {:induction false} RunConcat(lower: string -> string, st: State, a: string, b: string)
    ensures var ea := Run(lower, st, a);
      var eb := Run(lower, ea.st, b);
      Run(lower, st, a + b) == Effect(eb.st, ea.out + eb.out)
    decreases |a|
  {
    hide Step;
    if a == [] {
      assert a + b == b;
    } else {
      var first := Step(lower, st, a[0]);
      assert (a + b)[1..] == a[1..] + b;
      RunConcat(lower, first.st, a[1..], b);
      var ea := Run(lower, first.st, a[1..]);
      Assoc(first.out, ea.out, Run(lower, ea.st, b).out);
    }
  }

  /** The segments do not depend on how the narration was cut into chunks. */
  lemma {:induction false} ChunkingIsIrrelevant(lower: string -> string, st: State, chunks: seq<string>)
    ensures Streamed(lower, st, chunks) == Finish(lower, st, Concat(chunks))
    decreases |chunks|
  {
    hide Step, FlushEffect;
    if chunks != [] {
      var e := Run(lower, st, chunks[0]);
      ChunkingIsIrrelevant(lower, e.st, chunks[1..]);
      RunConcat(lower, st, chunks[0], Concat(chunks[1..]));
      var e' := Run(lower, e.st, Concat(chunks[1..]));
      Assoc(e.out, e'.out, FlushEffect(e'.st).out);
    }
  }

  class StreamingNarrationSegmenter {
    const lower: string -> string
    var currentNpc: Option<string>
    var seg: string
    var marker: Option<string>
    var sawTerminator: bool

    ghost function View(): State
      reads this
    {
      State(currentNpc, seg, marker, sawTerminator)
    }

    constructor (lower: string -> string)
      ensures View() == INITIAL && this.lower == lower
    {
      this.lower := lower;
      currentNpc, seg, marker, sawTerminator := None, "", None, false;
    }

    method Push(chunk: string) returns (out: seq<NarrationSegment>)
      modifies this
      ensures Effect(View(), out) == Run(lower, old(View()), chunk)
    {
      hide Step;
      out := [];
      var i := 0;
      while i < |chunk|
        invariant i <= |chunk|
        invariant Effect(View(), out) == Run(lower, old(View()), chunk[..i])
      {
        RunSnoc(lower, old(View()), chunk[..i], chunk[i]);
        assert chunk[..i + 1] == chunk[..i] + [chunk[i]];
        out := Consume(chunk[i], out);
        i := i + 1;
      }
      assert chunk[..i] == chunk;
    }

    method Flush() returns (out: seq<NarrationSegment>)
      modifies this
      ensures Effect(View(), out) == FlushEffect(old(View()))
    {
      out := [];
      if marker.Some? {
        seg := seg + "[" + marker.value;
        marker := None;
      }
      out := Emit(out);
    }

    method Consume(ch: char, sofar: seq<NarrationSegment>) returns (out: seq<NarrationSegment>)
      modifies this
      ensures var e := Step(lower, old(View()), ch); View() == e.st && out == sofar + e.out
      decreases marker.Some?
    {
      hide Cut, KeyOf, IsViableMarkerInterior, ParseMarkerKey, IsSpace;
      out := sofar;
      if marker.Some? {
        out := ConsumeInMarker(ch, out);
        return;
      }
      if ch == '[' {
        marker := Some("");
        return;
      }
      seg := seg + [ch];
      if IsSpace(ch) {
        if sawTerminator {
          out := Emit(out);
          sawTerminator := false;
        }
      } else if IsTerminator(ch) {
        sawTerminator := true;
      } else if !IsTrailing(ch) {
        sawTerminator := false;
      }
    }

    method ConsumeInMarker(ch: char, sofar: seq<NarrationSegment>) returns (out: seq<NarrationSegment>)
      requires marker.Some?
      modifies this
      ensures var e := Step(lower, old(View()), ch); View() == e.st && out == sofar + e.out
      decreases marker.Some?, 0
    {
      hide Cut, KeyOf, IsViableMarkerInterior, PlainEffect;
      out := sofar;
      var interior := marker.value;
      if ch == ']' {
        var key := ParseMarkerKey(lower, interior);
        if key.Some? {
          out := Emit(out);
          sawTerminator := false;
          currentNpc := key;
        } else {
          seg := seg + "[" + interior + "]";
        }
        marker := None;
        return;
      }
      if IsViableMarkerInterior(interior + [ch]) {
        marker := Some(interior + [ch]);
        return;
      }
      seg := seg + "[" + interior;
      marker := None;
      out := Consume(ch, out);
    }

    method Emit(sofar: seq<NarrationSegment>) returns (out: seq<NarrationSegment>)
      modifies `seg
      ensures seg == "" && out == sofar + Cut(currentNpc, old(seg))
    {
      hide Trim;
      var text := Trim(seg);
      seg := "";
      out := sofar;
      if |text| == 0 { return; }
      out := out + [Segment(currentNpc, text)];
    }
  }

  lemma RunSnoc(lower: string -> string, st: State, s: string, c: char)
    ensures var e := Run(lower, st, s);
      var e' := Step(lower, e.st, c);
      Run(lower, st, s + [c]) == Effect(e'.st, e.out + e'.out)
  {
    hide Step;
    RunConcat(lower, st, s, [c]);
    var e := Run(lower, st, s);
    assert Run(lower, e.st, [c]).out == Step(lower, e.st, c).out + [];
  }
}
