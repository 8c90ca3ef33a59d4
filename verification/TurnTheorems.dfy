/** Why a turn stops and what the model is sent, read off the model's streams and the dispatcher's answers (orchestrator/src/session.ts). */
module TurnTheorems {
  import opened Options
  import opened Text
  import opened TurnLoop

  /** The stream fails. */
  ghost predicate Fails(events: seq<LlmEvent>)
  {
    exists i :: 0 <= i < |events| && events[i].Failure?
  }

  /** The stream's first failure. */
  ghost predicate FailsFirstAt(events: seq<LlmEvent>, n: nat)
  {
    n < |events| && events[n].Failure? && forall i :: 0 <= i < n ==> !events[i].Failure?
  }

  ghost predicate AsksForTools(events: seq<LlmEvent>)
  {
    exists i :: 0 <= i < |events| && events[i].CallTool?
  }

  /** The stop reason the stream gives last is a refusal. */
  ghost predicate Refuses(events: seq<LlmEvent>)
  {
    exists i :: 0 <= i < |events| && events[i] == Done(StopRefusal) && forall j :: i < j < |events| ==> !events[j].Done?
  }

  lemma {:induction false} CallsFound(events: seq<LlmEvent>)
    ensures |CallsIn(events)| > 0 <==> AsksForTools(events)
    decreases |events|
  {
    if |events| > 0 {
      var n := |events| - 1;
      CallsFound(events[..n]);
      if AsksForTools(events[..n]) {
        var i :| 0 <= i < n && events[..n][i].CallTool?;
        assert events[i].CallTool?;
      }
      if AsksForTools(events) && !events[n].CallTool? {
        var i :| 0 <= i < |events| && events[i].CallTool?;
        assert events[..n][i].CallTool?;
      }
    }
  }

  lemma {:induction false} RefusalFound(events: seq<LlmEvent>)
    ensures LastStop(events) == StopRefusal <==> Refuses(events)
    decreases |events|
  {
    if |events| > 0 {
      var n := |events| - 1;
      RefusalFound(events[..n]);
      if events[n].Done? {
        if events[n].stop == StopRefusal { assert events[n] == Done(StopRefusal); }
      } else {
        if Refuses(events[..n]) {
          var i :| 0 <= i < n && events[..n][i] == Done(StopRefusal) && forall j :: i < j < n ==> !events[..n][j].Done?;
          assert events[i] == Done(StopRefusal) && forall j :: i < j < n ==> events[j] == events[..n][j];
        }
        if Refuses(events) {
          var i :| 0 <= i < |events| && events[i] == Done(StopRefusal) && forall j :: i < j < |events| ==> !events[j].Done?;
          assert events[..n][i] == Done(StopRefusal);
          assert forall j :: i < j < n ==> events[..n][j] == events[j];
        }
      }
    }
  }

  /** The last dispatch of the round was answered that Foundry is down. */
  predicate EndedDown(r: Round)
  {
    |r.dispatched| > 0 && r.dispatched[|r.dispatched| - 1].result.Refused?
    && r.dispatched[|r.dispatched| - 1].result.kind == "aborted-foundry-down"
  }

  predicate Cancelled(ev: LlmEvent)
    requires ev.Failure?
  {
    var text := ev.kind + ": " + ev.message;
    |text| >= 9 && text[..9] == "cancelled"
  }

  /** A failing stream ends the turn as an error, or as aborted when the signal was given or the failure is a cancellation. */
  lemma FailureExactly(w: World, first: Message, rounds: seq<Round>, maxIter: int, n: nat)
    requires Chained(w, first, rounds) && Stopped(w, rounds, maxIter, false) && |rounds| > 0
    requires FailsFirstAt(w.complete(|rounds| - 1, rounds[|rounds| - 1].request), n)
    ensures var k := |rounds| - 1;
      var events := w.complete(k, rounds[k].request);
      && Verdict(w, rounds, false) == (if w.abortedAtError(k) || Cancelled(events[n]) then Aborted else LlmError)
      && rounds[k].reading.error == Some(events[n].kind + ": " + events[n].message) && rounds[k].dispatched == []
  {
    hide ReadFrom, Answered;
    var k := |rounds| - 1;
    assert RoundFits(w, k, rounds[k]);
    ReadingRelays(w.complete(k, rounds[k].request));
  }

  /**
   * A stream that does not fail ends the turn as a refusal or normally when it asks for no tool, by its last stop
   * reason; otherwise as foundry-down when the last answer said so, and else at the cap.
   */
  lemma StopReasonExactly(w: World, first: Message, rounds: seq<Round>, maxIter: int)
    requires Chained(w, first, rounds) && Stopped(w, rounds, maxIter, false) && |rounds| > 0
    requires !Fails(w.complete(|rounds| - 1, rounds[|rounds| - 1].request))
    ensures var k := |rounds| - 1;
      var events := w.complete(k, rounds[k].request);
      && rounds[k].reading.error.None?
      && Verdict(w, rounds, false) ==
         if !AsksForTools(events) then if Refuses(events) then Refusal else EndTurn
         else if EndedDown(rounds[k]) then AbortedFoundryDown else MaxToolIterations
  {
    hide ReadFrom, Answered;
    var k := |rounds| - 1;
    var events := w.complete(k, rounds[k].request);
    assert RoundFits(w, k, rounds[k]);
    ReadingRelays(events);
    assert events[..BeforeFailure(events)] == events;
    CallsFound(events);
    RefusalFound(events);
  }

  /** A turn stopped by the signal between two rounds, and a turn that made none. */
  lemma NoRoundExactly(w: World, rounds: seq<Round>)
    ensures Verdict(w, rounds, true) == Aborted
    ensures |rounds| == 0 ==> Verdict(w, rounds, false) == EndTurn
  {
  }

  /**
   * The conversation grows by one exchange per answered round: the assistant's text, if any, then its tool uses in the
   * order of the stream; and then one result per use, in the same order.
   */
  lemma ExchangeExactly(w: World, k: nat, r: Round)
    requires RoundFits(w, k, r) && Complete(r)
    ensures var events := w.complete(k, r.request);
      var messages, n, text := Answered(r), |r.request|, TextsIn(events[..BeforeFailure(events)]);
      var calls := CallsIn(events[..BeforeFailure(events)]);
      var front := if |text| > 0 then 1 else 0;
      && |messages| == n + 2 && messages[..n] == r.request
      && messages[n].Assistant? && |messages[n].content| == front + |calls|
      && (front == 1 ==> messages[n].content[0] == TextBlock(text))
      && (forall i :: 0 <= i < |calls| ==> messages[n].content[front + i] == ToolUse(calls[i]))
      && messages[n + 1].User? && |messages[n + 1].content| == |calls|
      && (forall i :: 0 <= i < |calls| ==> messages[n + 1].content[i] == ResultBlock(calls[i].id, w.dispatch(k, i, calls[i])))
  {
    hide ReadFrom;
    ReadingRelays(w.complete(k, r.request));
  }
}
