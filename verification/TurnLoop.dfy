/** The model and tool loop of one turn (orchestrator/src/session.ts, runLlmIterations). */
module TurnLoop {
  import opened Options
  import opened Text
  import opened Markers
  import opened StreamingSegmenter

  datatype StopReason = StopEndTurn | StopToolUse | StopMaxTokens | StopRefusal

  datatype ToolCall = ToolCall(id: string, name: string, input: string)

  datatype LlmEvent =
    | TextDelta(text: string)
    | CallTool(call: ToolCall)
    | Done(stop: StopReason)
    | Failure(kind: string, message: string)
    | Ignored

  datatype ToolResult = Succeeded(output: string) | Refused(kind: string, error: string)

  const FOUNDRY_DOWN := "aborted-foundry-down"

  datatype Block =
    | TextBlock(text: string)
    | ToolUse(call: ToolCall)
    | ResultBlock(toolUseId: string, result: ToolResult)

  datatype Message = User(content: seq<Block>) | Assistant(content: seq<Block>)

  /** Everything outside the loop: the model's streams, the dispatcher's answers, the abort signal where it is polled. */
  datatype World = World(complete: (nat, seq<Message>) -> seq<LlmEvent>, dispatch: (nat, nat, ToolCall) -> ToolResult,
                         abortedBefore: nat -> bool, abortedAtError: nat -> bool, lower: string -> string)

  // ---- one model response ----

  datatype Reading = Reading(text: string, calls: seq<ToolCall>, stop: StopReason, error: Option<string>)

  const NOTHING_READ := Reading("", [], StopEndTurn, None)

  function Absorb(r: Reading, ev: LlmEvent): Reading
  {
    match ev
    case TextDelta(text) => r.(text := r.text + text)
    case CallTool(call) => r.(calls := r.calls + [call])
    case Done(stop) => r.(stop := stop)
    case Failure(kind, message) => r.(error := Some(kind + ": " + message))
    case Ignored => r
  }

  /** The stream is read up to its first failure. */
  function ReadFrom(r: Reading, events: seq<LlmEvent>): Reading
    decreases |events|
  {
    if |events| == 0 || r.error.Some? then r else ReadFrom(Absorb(r, events[0]), events[1..])
  }

  // ---- what a stream says ----

  /** The number of events before the first failure. */
  function BeforeFailure(events: seq<LlmEvent>): (n: nat)
    ensures n <= |events| && (n < |events| ==> events[n].Failure?)
    ensures forall i :: 0 <= i < n ==> !events[i].Failure?
  {
    if |events| == 0 || events[0].Failure? then 0 else 1 + BeforeFailure(events[1..])
  }

  /** The texts of the stream, one behind the other. */
  function TextsIn(events: seq<LlmEvent>): string
  {
    if |events| == 0 then ""
    else
      var last := events[|events| - 1];
      TextsIn(events[..|events| - 1]) + (if last.TextDelta? then last.text else "")
  }

  /** The calls of the stream, in its order. */
  function CallsIn(events: seq<LlmEvent>): seq<ToolCall>
  {
    if |events| == 0 then []
    else
      var last := events[|events| - 1];
      CallsIn(events[..|events| - 1]) + (if last.CallTool? then [last.call] else [])
  }

  /** The reason given last, or the end of the turn. */
  function LastStop(events: seq<LlmEvent>): StopReason
  {
    if |events| == 0 then StopEndTurn
    else if events[|events| - 1].Done? then events[|events| - 1].stop
    else LastStop(events[..|events| - 1])
  }

  /** `r` holds what the stream says before its first failure, and that failure. */
  ghost predicate Relays(events: seq<LlmEvent>, r: Reading)
  {
    var n := BeforeFailure(events);
    && r.text == TextsIn(events[..n]) && r.calls == CallsIn(events[..n]) && r.stop == LastStop(events[..n])
    && r.error == if n == |events| then None else Some(events[n].kind + ": " + events[n].message)
  }

  lemma OneMoreEvent(events: seq<LlmEvent>, i: nat)
    requires i < |events|
    ensures var before, after, ev := events[..i], events[..i + 1], events[i];
      && TextsIn(after) == TextsIn(before) + (if ev.TextDelta? then ev.text else "")
      && CallsIn(after) == CallsIn(before) + (if ev.CallTool? then [ev.call] else [])
      && LastStop(after) == if ev.Done? then ev.stop else LastStop(before)
  {
    assert events[..i + 1][..i] == events[..i];
  }

  lemma {:induction false} ReadsOnwards(events: seq<LlmEvent>, i: nat, r: Reading)
    requires i <= BeforeFailure(events)
    requires r == Reading(TextsIn(events[..i]), CallsIn(events[..i]), LastStop(events[..i]), None)
    ensures Relays(events, ReadFrom(r, events[i..]))
    decreases |events| - i
  {
    hide TextsIn, CallsIn, LastStop;
    if i < |events| {
      var rest := events[i..];
      assert rest[0] == events[i] && rest[1..] == events[i + 1..];
      var r' := Absorb(r, events[i]);
      if i == BeforeFailure(events) {
        ReadNoMore(r', events[i + 1..]);
      } else {
        OneMoreEvent(events, i);
        assert r.text + "" == r.text && r.calls + [] == r.calls;
        ReadsOnwards(events, i + 1, r');
      }
    } else {
      assert events[i..] == [];
    }
  }

  lemma ReadNoMore(r: Reading, events: seq<LlmEvent>)
    requires r.error.Some?
    ensures ReadFrom(r, events) == r
  {
  }

  /** Reading a stream relays it: texts and calls in order, the last stop reason, and the first failure. */
  lemma ReadingRelays(events: seq<LlmEvent>)
    ensures Relays(events, ReadFrom(NOTHING_READ, events))
  {
    assert events[..0] == [] && events[0..] == events;
    ReadsOnwards(events, 0, NOTHING_READ);
  }

  // ---- rounds ----

  datatype Dispatch = Dispatch(call: ToolCall, result: ToolResult)

  datatype Round = Round(request: seq<Message>, reading: Reading, dispatched: seq<Dispatch>)

  predicate FoundryDown(d: Dispatch)
  {
    d.result.Refused? && d.result.kind == FOUNDRY_DOWN
  }

  function UseBlocks(calls: seq<ToolCall>): (r: seq<Block>)
    ensures |r| == |calls| && forall i :: 0 <= i < |r| ==> r[i] == ToolUse(calls[i])
  {
    if |calls| == 0 then [] else UseBlocks(calls[..|calls| - 1]) + [ToolUse(calls[|calls| - 1])]
  }

  function ResultBlocks(dispatched: seq<Dispatch>): (r: seq<Block>)
    ensures |r| == |dispatched|
    ensures forall i :: 0 <= i < |r| ==> r[i] == ResultBlock(dispatched[i].call.id, dispatched[i].result)
  {
    if |dispatched| == 0 then []
    else
      var last := dispatched[|dispatched| - 1];
      ResultBlocks(dispatched[..|dispatched| - 1]) + [ResultBlock(last.call.id, last.result)]
  }

  function AssistantContent(r: Reading): seq<Block>
  {
    (if |r.text| > 0 then [TextBlock(r.text)] else []) + UseBlocks(r.calls)
  }

  /** The conversation after a round whose calls were all answered. */
  function Answered(r: Round): seq<Message>
  {
    r.request + [Assistant(AssistantContent(r.reading))] + [User(ResultBlocks(r.dispatched))]
  }

  /** The round asked for tools and every call was dispatched and answered. */
  ghost predicate Complete(r: Round)
  {
    && r.reading.error.None? && |r.reading.calls| > 0 && |r.dispatched| == |r.reading.calls|
    && forall j :: 0 <= j < |r.dispatched| ==> !FoundryDown(r.dispatched[j])
  }

  /** From call `j` on, calls are dispatched in the order made, and dispatching stops at the first foundry-down answer. */
  ghost predicate DispatchedInOrder(w: World, k: nat, calls: seq<ToolCall>, j: nat, dispatched: seq<Dispatch>)
    requires j <= |calls|
  {
    && |dispatched| <= |calls| - j
    && (forall i :: 0 <= i < |dispatched| ==> dispatched[i] == Dispatch(calls[j + i], w.dispatch(k, j + i, calls[j + i])))
    && (forall i :: 0 <= i < |dispatched| - 1 ==> !FoundryDown(dispatched[i]))
    && (|dispatched| < |calls| - j ==> |dispatched| > 0 && FoundryDown(dispatched[|dispatched| - 1]))
  }

  ghost predicate RoundFits(w: World, k: nat, r: Round)
  {
    && r.reading == ReadFrom(NOTHING_READ, w.complete(k, r.request))
    && !w.abortedBefore(k)
    && if r.reading.error.Some? then r.dispatched == [] else DispatchedInOrder(w, k, r.reading.calls, 0, r.dispatched)
  }

  /** Each round follows from the one before: only a complete round is followed by another call. */
  ghost predicate Chained(w: World, first: Message, rounds: seq<Round>)
  {
    && (forall k :: 0 <= k < |rounds| ==> RoundFits(w, k, rounds[k]))
    && (|rounds| > 0 ==> rounds[0].request == [first])
    && (forall k :: 0 <= k < |rounds| - 1 ==> Complete(rounds[k]) && rounds[k + 1].request == Answered(rounds[k]))
  }

  function NarrationOf(rounds: seq<Round>): string
  {
    if |rounds| == 0 then "" else NarrationOf(rounds[..|rounds| - 1]) + rounds[|rounds| - 1].reading.text
  }

  function DispatchesOf(rounds: seq<Round>): seq<Dispatch>
  {
    if |rounds| == 0 then [] else DispatchesOf(rounds[..|rounds| - 1]) + rounds[|rounds| - 1].dispatched
  }

  datatype TurnStop = EndTurn | MaxToolIterations | Refusal | LlmError | Aborted | AbortedFoundryDown

  /** The stop reason that round `k` leaves if it is the last. */
  function RoundVerdict(w: World, k: nat, last: Round): TurnStop
  {
    if last.reading.error.Some? then
      if w.abortedAtError(k) || StartsWith(last.reading.error.value, "cancelled") then Aborted else LlmError
    else if |last.reading.calls| == 0 then if last.reading.stop == StopRefusal then Refusal else EndTurn
    else if |last.dispatched| > 0 && FoundryDown(last.dispatched[|last.dispatched| - 1]) then AbortedFoundryDown
    else MaxToolIterations
  }

  function Verdict(w: World, rounds: seq<Round>, interrupted: bool): TurnStop
  {
    if interrupted then Aborted
    else if |rounds| == 0 then EndTurn
    else RoundVerdict(w, |rounds| - 1, rounds[|rounds| - 1])
  }

  /** Why no further round was made: the signal, a round that ends the turn, or the cap. */
  ghost predicate Stopped(w: World, rounds: seq<Round>, maxIter: int, interrupted: bool)
  {
    var complete := |rounds| > 0 ==> Complete(rounds[|rounds| - 1]);
    && (interrupted ==> |rounds| < maxIter && complete && w.abortedBefore(|rounds|))
    && (!interrupted && complete ==> |rounds| >= maxIter)
  }

  // ---- the turn as a function of the outside ----

  function DispatchFrom(w: World, k: nat, calls: seq<ToolCall>, j: nat): seq<Dispatch>
    decreases |calls| - j
  {
    if j >= |calls| then []
    else
      var d := Dispatch(calls[j], w.dispatch(k, j, calls[j]));
      if FoundryDown(d) then [d] else [d] + DispatchFrom(w, k, calls, j + 1)
  }

  function RoundOf(w: World, k: nat, request: seq<Message>): Round
  {
    var reading := ReadFrom(NOTHING_READ, w.complete(k, request));
    Round(request, reading, if reading.error.Some? then [] else DispatchFrom(w, k, reading.calls, 0))
  }

  predicate IsComplete(r: Round)
  {
    && r.reading.error.None? && |r.reading.calls| > 0
    && |r.dispatched| > 0 && !FoundryDown(r.dispatched[|r.dispatched| - 1])
  }

  /** The rounds of a turn, and whether the signal ended it between two of them. */
  datatype Transcript = Transcript(rounds: seq<Round>, interrupted: bool)

  function RoundsFrom(w: World, maxIter: int, k: nat, request: seq<Message>): Transcript
    decreases maxIter - k
  {
    if k >= maxIter then Transcript([], false)
    else if w.abortedBefore(k) then Transcript([], true)
    else
      var r := RoundOf(w, k, request);
      if !IsComplete(r) then Transcript([r], false)
      else
        var rest := RoundsFrom(w, maxIter, k + 1, Answered(r));
        Transcript([r] + rest.rounds, rest.interrupted)
  }

  function TurnTranscript(w: World, first: Message, maxIter: int): Transcript
  {
    RoundsFrom(w, maxIter, 0, [first])
  }

  lemma {:induction false} DispatchFromFits(w: World, k: nat, calls: seq<ToolCall>, j: nat)
    requires j <= |calls|
    ensures DispatchedInOrder(w, k, calls, j, DispatchFrom(w, k, calls, j))
    decreases |calls| - j
  {
    if j < |calls| {
      hide FoundryDown;
      var rest := DispatchFrom(w, k, calls, j + 1);
      DispatchFromFits(w, k, calls, j + 1);
      assert forall i :: 0 <= i < |rest| ==> rest[i] == Dispatch(calls[j + 1 + i], w.dispatch(k, j + 1 + i, calls[j + 1 + i]));
    }
  }

  lemma AllDispatched(w: World, k: nat, calls: seq<ToolCall>)
    ensures var d := DispatchFrom(w, k, calls, 0);
      |d| < |calls| ==> |d| > 0 && FoundryDown(d[|d| - 1])
  {
    hide DispatchFrom;
    DispatchFromFits(w, k, calls, 0);
  }

  lemma CompleteExactly(w: World, k: nat, r: Round)
    requires r.reading.error.None? ==> DispatchedInOrder(w, k, r.reading.calls, 0, r.dispatched)
    ensures IsComplete(r) <==> Complete(r)
  {
  }

  lemma RoundOfFits(w: World, k: nat, request: seq<Message>)
    requires !w.abortedBefore(k)
    ensures RoundFits(w, k, RoundOf(w, k, request)) && (IsComplete(RoundOf(w, k, request)) <==> Complete(RoundOf(w, k, request)))
  {
    hide ReadFrom, DispatchFrom, DispatchedInOrder, IsComplete, Complete;
    var r := RoundOf(w, k, request);
    DispatchFromFits(w, k, r.reading.calls, 0);
    CompleteExactly(w, k, r);
  }

  lemma {:induction false} RoundsFit(w: World, first: Message, maxIter: int, done: seq<Round>, request: seq<Message>)
    requires Chained(w, first, done) && (|done| <= maxIter || |done| == 0)
    requires if |done| == 0 then request == [first] else Complete(done[|done| - 1]) && request == Answered(done[|done| - 1])
    ensures var t := RoundsFrom(w, maxIter, |done|, request);
      && Chained(w, first, done + t.rounds) && Stopped(w, done + t.rounds, maxIter, t.interrupted)
      && (|done + t.rounds| <= maxIter || |done + t.rounds| == 0)
    decreases maxIter - |done|
  {
    hide Chained, RoundFits, Complete, Answered, RoundOf;
    assert done + [] == done;
    if |done| < maxIter && !w.abortedBefore(|done|) {
      var r := RoundOf(w, |done|, request);
      RoundOfFits(w, |done|, request);
      RequestKept(w, |done|, request);
      OneMoreRound(w, first, done, r);
      if IsComplete(r) {
        RoundsFit(w, first, maxIter, done + [r], Answered(r));
        var rest := RoundsFrom(w, maxIter, |done| + 1, Answered(r));
        assert done + ([r] + rest.rounds) == (done + [r]) + rest.rounds;
      }
    }
  }

  lemma RequestKept(w: World, k: nat, request: seq<Message>)
    ensures RoundOf(w, k, request).request == request
  {
  }

  /** The transcript is a chain of rounds that stops where the loop must, within the cap. */
  lemma TranscriptFits(w: World, first: Message, maxIter: int)
    ensures var t := TurnTranscript(w, first, maxIter);
      && Chained(w, first, t.rounds) && Stopped(w, t.rounds, maxIter, t.interrupted)
      && (|t.rounds| <= maxIter || |t.rounds| == 0)
  {
    hide RoundsFrom;
    NothingChained(w, first);
    RoundsFit(w, first, maxIter, [], [first]);
    var t := TurnTranscript(w, first, maxIter);
    assert [] + t.rounds == t.rounds;
  }

  datatype IterationsResult = IterationsResult(narration: string, toolCalls: seq<Dispatch>, stopReason: TurnStop,
                                               errorMessage: Option<string>, iterations: nat)

  method ReadStream(events: seq<LlmEvent>, segmenter: StreamingNarrationSegmenter?, ghost narrated: string, sofar: seq<NarrationSegment>)
    returns (r: Reading, segments: seq<NarrationSegment>)
    requires segmenter != null ==> Effect(segmenter.View(), sofar) == Run(segmenter.lower, INITIAL, narrated)
    modifies segmenter
    ensures r == ReadFrom(NOTHING_READ, events)
    ensures segmenter == null ==> segments == sofar
    ensures segmenter != null ==> Effect(segmenter.View(), segments) == Run(segmenter.lower, INITIAL, narrated + r.text)
  {
    hide Run;
    r, segments := NOTHING_READ, sofar;
    assert narrated + "" == narrated;
    var i := 0;
    while i < |events| && r.error.None?
      invariant i <= |events| && ReadFrom(NOTHING_READ, events) == ReadFrom(r, events[i..])
      invariant segmenter == null ==> segments == sofar
      invariant segmenter != null ==> Effect(segmenter.View(), segments) == Run(segmenter.lower, INITIAL, narrated + r.text)
    {
      var ev := events[i];
      assert events[i..][1..] == events[i + 1..];
      if ev.TextDelta? && segmenter != null {
        RunConcat(segmenter.lower, INITIAL, narrated + r.text, ev.text);
        assert narrated + r.text + ev.text == narrated + (r.text + ev.text);
        var out := segmenter.Push(ev.text);
        segments := segments + out;
      }
      r := Absorb(r, ev);
      i := i + 1;
    }
  }

  method DispatchAll(w: World, k: nat, calls: seq<ToolCall>) returns (dispatched: seq<Dispatch>, results: seq<Block>, down: bool)
    ensures dispatched == DispatchFrom(w, k, calls, 0)
    ensures DispatchedInOrder(w, k, calls, 0, dispatched)
    ensures down <==> |dispatched| > 0 && FoundryDown(dispatched[|dispatched| - 1])
    ensures !down ==> |dispatched| == |calls| && results == ResultBlocks(dispatched)
  {
    hide FoundryDown, DispatchedInOrder, DispatchFrom;
    DispatchFromFits(w, k, calls, 0);
    AllDispatched(w, k, calls);
    NothingDone(DispatchFrom(w, k, calls, 0));
    dispatched, results, down := [], [], false;
    while |dispatched| < |calls|
      invariant |dispatched| <= |calls| && results == ResultBlocks(dispatched)
      invariant dispatched + DispatchFrom(w, k, calls, |dispatched|) == DispatchFrom(w, k, calls, 0)
      invariant |dispatched| > 0 ==> !FoundryDown(dispatched[|dispatched| - 1])
    {
      var call := calls[|dispatched|];
      var d := Dispatch(call, w.dispatch(k, |dispatched|, call));
      OneDispatched(w, k, calls, dispatched);
      ResultsSnoc(dispatched, d);
      dispatched := dispatched + [d];
      if FoundryDown(d) {
        down := true;
        return;
      }
      results := results + [ResultBlock(call.id, d.result)];
    }
    NoneLeft(w, k, calls, dispatched);
  }

  lemma NothingDone(d: seq<Dispatch>)
    ensures [] + d == d && ResultBlocks([]) == []
  {
  }

  lemma OneDispatched(w: World, k: nat, calls: seq<ToolCall>, done: seq<Dispatch>)
    requires |done| < |calls|
    ensures var j := |done|;
      var d := Dispatch(calls[j], w.dispatch(k, j, calls[j]));
      done + DispatchFrom(w, k, calls, j) == if FoundryDown(d) then done + [d] else (done + [d]) + DispatchFrom(w, k, calls, j + 1)
  {
    hide FoundryDown;
    var j := |done|;
    var d := Dispatch(calls[j], w.dispatch(k, j, calls[j]));
    assert done + ([d] + DispatchFrom(w, k, calls, j + 1)) == (done + [d]) + DispatchFrom(w, k, calls, j + 1);
  }

  lemma NoneLeft(w: World, k: nat, calls: seq<ToolCall>, done: seq<Dispatch>)
    requires |done| >= |calls|
    ensures done + DispatchFrom(w, k, calls, |done|) == done
  {
  }

  lemma ResultsSnoc(done: seq<Dispatch>, d: Dispatch)
    ensures ResultBlocks(done + [d]) == ResultBlocks(done) + [ResultBlock(d.call.id, d.result)]
  {
    assert (done + [d])[..|done|] == done;
  }

  /** One model call with the dispatches it asks for; `messages` grows by the answered exchange. */
  method RunRound(w: World, k: nat, request: seq<Message>, segmenter: StreamingNarrationSegmenter?, ghost narrated: string,
                  sofar: seq<NarrationSegment>)
    returns (round: Round, messages: seq<Message>, more: bool, stop: TurnStop, segments: seq<NarrationSegment>)
    requires !w.abortedBefore(k)
    requires segmenter != null ==> Effect(segmenter.View(), sofar) == Run(segmenter.lower, INITIAL, narrated)
    modifies segmenter
    ensures round == RoundOf(w, k, request) && RoundFits(w, k, round) && round.request == request
    ensures Relays(w.complete(k, request), round.reading)
    ensures (more <==> Complete(round)) && (more <==> IsComplete(round))
    ensures more ==> messages == Answered(round)
    ensures !more ==> stop == RoundVerdict(w, k, round)
    ensures more ==> RoundVerdict(w, k, round) == MaxToolIterations
    ensures segmenter == null ==> segments == sofar
    ensures segmenter != null ==>
      Effect(segmenter.View(), segments) == Run(segmenter.lower, INITIAL, narrated + round.reading.text)
  {
    hide Run, ReadFrom, AssistantContent, DispatchedInOrder, DispatchFrom, RoundFits, Complete, IsComplete;
    hide Relays;
    RoundOfFits(w, k, request);
    DecidesComplete(RoundOf(w, k, request));
    ReadingRelays(w.complete(k, request));
    var reading;
    reading, segments := ReadStream(w.complete(k, request), segmenter, narrated, sofar);
    round, messages, more, stop := Round(request, reading, []), request, false, EndTurn;
    if reading.error.Some? {
      stop := if w.abortedAtError(k) || StartsWith(reading.error.value, "cancelled") then Aborted else LlmError;
      return;
    }
    if |reading.calls| == 0 {
      stop := if reading.stop == StopRefusal then Refusal else EndTurn;
      NoCallsNoDispatches(w, k, reading.calls);
      return;
    }
    messages := messages + [Assistant(AssistantContent(reading))];
    var dispatched, results, down := DispatchAll(w, k, reading.calls);
    round := round.(dispatched := dispatched);
    if down {
      stop := AbortedFoundryDown;
      return;
    }
    messages := messages + [User(results)];
    more := true;
  }

  lemma NoCallsNoDispatches(w: World, k: nat, calls: seq<ToolCall>)
    ensures |calls| == 0 ==> DispatchFrom(w, k, calls, 0) == []
  {
  }

  lemma RoundsUnfold(w: World, maxIter: int, k: nat, request: seq<Message>)
    ensures var t, r := RoundsFrom(w, maxIter, k, request), RoundOf(w, k, request);
      if k >= maxIter then t == Transcript([], false)
      else if w.abortedBefore(k) then t == Transcript([], true)
      else if !IsComplete(r) then t == Transcript([r], false)
      else
        var rest := RoundsFrom(w, maxIter, k + 1, Answered(r));
        t == Transcript([r] + rest.rounds, rest.interrupted)
  {
    hide RoundOf, IsComplete, Answered;
  }

  lemma DecidesComplete(r: Round)
    ensures IsComplete(r) <==> r.reading.error.None? && |r.reading.calls| > 0
                               && |r.dispatched| > 0 && !FoundryDown(r.dispatched[|r.dispatched| - 1])
  {
  }

  method RunLlmIterations(w: World, first: Message, maxIter: int, streaming: bool)
    returns (out: IterationsResult, segments: seq<NarrationSegment>, rounds: seq<Round>, interrupted: bool)
    ensures Transcript(rounds, interrupted) == TurnTranscript(w, first, maxIter)
    ensures Chained(w, first, rounds) && Stopped(w, rounds, maxIter, interrupted)
    ensures |rounds| <= maxIter || |rounds| == 0
    ensures out.narration == NarrationOf(rounds) && out.toolCalls == DispatchesOf(rounds)
    ensures out.stopReason == Verdict(w, rounds, interrupted)
    ensures out.errorMessage == if |rounds| == 0 then None else rounds[|rounds| - 1].reading.error
    ensures out.iterations == |rounds| + (if interrupted then 1 else 0)
    ensures segments == if streaming then Finish(w.lower, INITIAL, out.narration) else []
  {
    hide Run, FlushEffect, RoundFits, Answered, Complete, IsComplete, RoundVerdict, Chained, RoundOf, Stopped, RoundsFrom,
      Continued, NarrationOf, DispatchesOf;
    TranscriptFits(w, first, maxIter);
    var narration, toolCalls, messages := "", [], [first];
    var stop, error, iterations := EndTurn, None, 0;
    var segmenter: StreamingNarrationSegmenter? := null;
    segments, rounds, interrupted := [], [], false;
    NothingContinued(RoundsFrom(w, maxIter, 0, messages));
    NoTotals();
    if streaming {
      segmenter := new StreamingNarrationSegmenter(w.lower);
      NothingRun(w.lower);
    }
    var i := 0;
    while i < maxIter
      invariant i == iterations == |rounds|
      invariant !interrupted && Continued(rounds, RoundsFrom(w, maxIter, i, messages)) == TurnTranscript(w, first, maxIter)
      invariant error == if |rounds| == 0 then None else rounds[|rounds| - 1].reading.error
      invariant stop == if i == 0 || i < maxIter then EndTurn else MaxToolIterations
      invariant |rounds| > 0 ==> RoundVerdict(w, |rounds| - 1, rounds[|rounds| - 1]) == MaxToolIterations
      invariant narration == NarrationOf(rounds) && toolCalls == DispatchesOf(rounds)
      invariant (segmenter != null <==> streaming) && (segmenter == null ==> segments == []) && (segmenter != null ==> fresh(segmenter))
      invariant segmenter != null ==>
        segmenter.lower == w.lower && Effect(segmenter.View(), segments) == Run(w.lower, INITIAL, narration)
      decreases maxIter - i
    {
      iterations := i + 1;
      RoundsUnfold(w, maxIter, i, messages);
      if w.abortedBefore(i) {
        ContinuedByNone(rounds, true);
        stop, interrupted := Aborted, true;
        break;
      }
      var round, more;
      round, messages, more, stop, segments := RunRound(w, i, messages, segmenter, narration, segments);
      narration := narration + round.reading.text;
      error := round.reading.error;
      toolCalls := toolCalls + round.dispatched;
      MoreTotals(rounds, round);
      ContinuedByOne(rounds, round, RoundsFrom(w, maxIter, i + 1, messages));
      rounds := rounds + [round];
      if !more { break; }
      stop := if i + 1 == maxIter then MaxToolIterations else EndTurn;
      i := i + 1;
    }
    if i >= maxIter {
      RoundsUnfold(w, maxIter, i, messages);
      ContinuedByNone(rounds, false);
    }
    if segmenter != null {
      var rest := segmenter.Flush();
      segments := segments + rest;
    }
    out := IterationsResult(narration, toolCalls, stop, error, iterations);
  }

  lemma NoTotals()
    ensures NarrationOf([]) == "" && DispatchesOf([]) == []
  {
  }

  function Continued(done: seq<Round>, rest: Transcript): Transcript
  {
    Transcript(done + rest.rounds, rest.interrupted)
  }

  lemma NothingContinued(t: Transcript)
    ensures Continued([], t) == t
  {
    assert [] + t.rounds == t.rounds;
  }

  lemma ContinuedByNone(done: seq<Round>, interrupted: bool)
    ensures Continued(done, Transcript([], interrupted)) == Transcript(done, interrupted)
  {
    assert done + [] == done;
  }

  lemma ContinuedByOne(done: seq<Round>, r: Round, rest: Transcript)
    ensures Continued(done, Transcript([r] + rest.rounds, rest.interrupted)) == Continued(done + [r], rest)
    ensures Continued(done, Transcript([r], false)) == Transcript(done + [r], false)
  {
    assert done + ([r] + rest.rounds) == (done + [r]) + rest.rounds;
  }

  lemma NothingChained(w: World, first: Message)
    ensures Chained(w, first, [])
  {
  }

  lemma NothingRun(lower: string -> string)
    ensures Run(lower, INITIAL, "") == Effect(INITIAL, [])
  {
  }

  lemma OneMoreRound(w: World, first: Message, rounds: seq<Round>, r: Round)
    requires Chained(w, first, rounds) && RoundFits(w, |rounds|, r)
    requires if |rounds| == 0 then r.request == [first]
             else Complete(rounds[|rounds| - 1]) && r.request == Answered(rounds[|rounds| - 1])
    ensures Chained(w, first, rounds + [r])
  {
    hide RoundFits, Complete, Answered, Chained;
    ChainGrows(w, first, rounds, r);
  }

  lemma MoreTotals(rounds: seq<Round>, r: Round)
    ensures NarrationOf(rounds + [r]) == NarrationOf(rounds) + r.reading.text
    ensures DispatchesOf(rounds + [r]) == DispatchesOf(rounds) + r.dispatched
  {
    assert (rounds + [r])[..|rounds|] == rounds;
  }

  lemma ChainGrows(w: World, first: Message, rounds: seq<Round>, r: Round)
    requires Chained(w, first, rounds) && RoundFits(w, |rounds|, r)
    requires if |rounds| == 0 then r.request == [first]
             else Complete(rounds[|rounds| - 1]) && r.request == Answered(rounds[|rounds| - 1])
    ensures Chained(w, first, rounds + [r])
  {
    hide RoundFits, Complete, Answered;
    var all := rounds + [r];
    forall k | 0 <= k < |all|
      ensures RoundFits(w, k, all[k])
    {
      assert k < |rounds| ==> all[k] == rounds[k];
    }
    forall k | 0 <= k < |all| - 1
      ensures Complete(all[k]) && all[k + 1].request == Answered(all[k])
    {
      assert all[k] == rounds[k] && (k + 1 < |rounds| ==> all[k + 1] == rounds[k + 1]);
    }
  }

  // ---- what every model call sees ----

  function UseIds(content: seq<Block>): seq<string>
  {
    if |content| == 0 then []
    else UseIds(content[..|content| - 1]) + (if content[|content| - 1].ToolUse? then [content[|content| - 1].call.id] else [])
  }

  function ResultIds(content: seq<Block>): seq<string>
  {
    if |content| == 0 then []
    else
      ResultIds(content[..|content| - 1])
      + (if content[|content| - 1].ResultBlock? then [content[|content| - 1].toolUseId] else [])
  }

  function CallIds(calls: seq<ToolCall>): seq<string>
  {
    if |calls| == 0 then [] else CallIds(calls[..|calls| - 1]) + [calls[|calls| - 1].id]
  }

  /** The assistant's tool uses at `k` are answered, one for one and in order, by the next message. */
  ghost predicate AnsweredAt(messages: seq<Message>, k: nat)
    requires k + 1 < |messages|
  {
    && messages[k].Assistant? && messages[k + 1].User?
    && |UseIds(messages[k].content)| > 0 && UseIds(messages[k].content) == ResultIds(messages[k + 1].content)
  }

  ghost predicate Paired(messages: seq<Message>)
  {
    && |messages| % 2 == 1 && messages[0].User?
    && forall k: nat :: k + 1 < |messages| && k % 2 == 1 ==> AnsweredAt(messages, k)
  }

  lemma {:induction false} UseIdsOfCalls(prefix: seq<Block>, calls: seq<ToolCall>)
    requires UseIds(prefix) == []
    ensures UseIds(prefix + UseBlocks(calls)) == CallIds(calls)
    decreases |calls|
  {
    if |calls| == 0 {
      assert prefix + UseBlocks(calls) == prefix;
    } else {
      var n := |calls| - 1;
      UseIdsOfCalls(prefix, calls[..n]);
      var all := prefix + UseBlocks(calls);
      assert all == (prefix + UseBlocks(calls[..n])) + [ToolUse(calls[n])];
      assert all[..|all| - 1] == prefix + UseBlocks(calls[..n]);
    }
  }

  lemma {:induction false} ResultIdsOfDispatches(calls: seq<ToolCall>, dispatched: seq<Dispatch>)
    requires |calls| == |dispatched| && forall j :: 0 <= j < |calls| ==> dispatched[j].call == calls[j]
    ensures ResultIds(ResultBlocks(dispatched)) == CallIds(calls)
    decreases |calls|
  {
    if |calls| > 0 {
      var n := |calls| - 1;
      ResultIdsOfDispatches(calls[..n], dispatched[..n]);
      var all := ResultBlocks(dispatched);
      assert all[..|all| - 1] == ResultBlocks(dispatched[..n]);
    }
  }

  lemma {:induction false} CallIdsLength(calls: seq<ToolCall>)
    ensures |CallIds(calls)| == |calls|
    decreases |calls|
  {
    if |calls| > 0 { CallIdsLength(calls[..|calls| - 1]); }
  }

  lemma TextHasNoUses(text: string)
    ensures UseIds(if |text| > 0 then [TextBlock(text)] else []) == []
  {
    assert [TextBlock(text)][..0] == [];
  }

  lemma AnsweredStaysPaired(w: World, k: nat, r: Round)
    requires Paired(r.request) && RoundFits(w, k, r) && Complete(r)
    ensures Paired(Answered(r))
  {
    hide ReadFrom, UseBlocks, ResultBlocks, UseIds, ResultIds;
    var text := if |r.reading.text| > 0 then [TextBlock(r.reading.text)] else [];
    TextHasNoUses(r.reading.text);
    UseIdsOfCalls(text, r.reading.calls);
    ResultIdsOfDispatches(r.reading.calls, r.dispatched);
    CallIdsLength(r.reading.calls);
    var messages, n := Answered(r), |r.request|;
    forall j: nat | j + 1 < |messages| && j % 2 == 1
      ensures AnsweredAt(messages, j)
    {
      if j + 1 < n {
        assert AnsweredAt(r.request, j);
        assert messages[j] == r.request[j] && messages[j + 1] == r.request[j + 1];
      } else {
        assert j == n;
      }
    }
  }

  /** At every model call roles alternate and each tool-use id list equals the next result id list. */
  lemma {:induction false} EveryCallIsPaired(w: World, first: Message, rounds: seq<Round>, k: nat)
    requires Chained(w, first, rounds) && first.User? && k < |rounds|
    ensures Paired(rounds[k].request)
  {
    hide RoundFits, Complete, Answered, Paired;
    if k == 0 {
      FirstIsPaired(first);
    } else {
      EveryCallIsPaired(w, first, rounds, k - 1);
      AnsweredStaysPaired(w, k - 1, rounds[k - 1]);
    }
  }

  lemma FirstIsPaired(first: Message)
    requires first.User?
    ensures Paired([first])
  {
  }

  // ---- foundry-down ----

  ghost predicate WentDown(rounds: seq<Round>)
  {
    exists k, j :: 0 <= k < |rounds| && 0 <= j < |rounds[k].dispatched| && FoundryDown(rounds[k].dispatched[j])
  }

  /**
   * A turn stops as aborted-foundry-down exactly when a dispatch was answered so, and that dispatch
   * was then the last of the last round: no dispatch and no model call came after it.
   */
  lemma FoundryDownIsFinal(w: World, first: Message, rounds: seq<Round>, maxIter: int, interrupted: bool)
    requires Chained(w, first, rounds) && Stopped(w, rounds, maxIter, interrupted)
    ensures Verdict(w, rounds, interrupted) == AbortedFoundryDown <==> WentDown(rounds)
    ensures forall k, j :: 0 <= k < |rounds| && 0 <= j < |rounds[k].dispatched| && FoundryDown(rounds[k].dispatched[j]) ==>
      k == |rounds| - 1 && j == |rounds[k].dispatched| - 1 && !interrupted
  {
    hide ReadFrom, Answered;
    forall k, j | 0 <= k < |rounds| && 0 <= j < |rounds[k].dispatched| && FoundryDown(rounds[k].dispatched[j])
      ensures k == |rounds| - 1 && j == |rounds[k].dispatched| - 1 && !interrupted
    {
      assert RoundFits(w, k, rounds[k]);
    }
    if |rounds| > 0 { assert RoundFits(w, |rounds| - 1, rounds[|rounds| - 1]); }
  }

  /** The cap is reported exactly when it was reached with a fully answered round. */
  lemma CapReachedExactly(w: World, first: Message, rounds: seq<Round>, maxIter: int, interrupted: bool)
    requires Chained(w, first, rounds) && Stopped(w, rounds, maxIter, interrupted) && (|rounds| <= maxIter || |rounds| == 0)
    ensures Verdict(w, rounds, interrupted) == MaxToolIterations
       <==> |rounds| == maxIter && |rounds| > 0 && Complete(rounds[|rounds| - 1]) && !interrupted
  {
    hide ReadFrom, Answered;
    if |rounds| > 0 { assert RoundFits(w, |rounds| - 1, rounds[|rounds| - 1]); }
  }
}
