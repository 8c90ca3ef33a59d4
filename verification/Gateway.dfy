/**
 * The add-on gateway's request/response protocol (plugins/vtt-foundry/src/foundry_gateway.ts).
 * Frames, timers, socket closes and API calls are the steps.
 */
module Gateway {
  import opened Options
  import opened Text

  datatype Hello = Hello(moduleId: string, foundryVersion: string, worldId: string)

  datatype Chat = Chat(foundryUserId: string, text: string, isWhisper: bool, timestamp: string)

  datatype Frame =
    | HelloFrame(hello: Hello, secret: string, loopback: bool)
    | Res(id: string, ok: bool, payload: string)
    | EvtGone
    | EvtChat(chat: Chat)
    | EvtOther
    | Junk

  datatype Outcome = Resolved(result: string) | Rejected(code: string)

  datatype Settlement = Settlement(id: string, outcome: Outcome)

  /** A pending request and the socket it was sent on. */
  datatype Pending = Pending(id: string, sentOn: nat)

  datatype WaitOutcome = Connected(hello: Hello) | TimedOut

  datatype Waiting = Waiting(waiter: nat, outcome: WaitOutcome)

  /**
   * `pending` and `waiters` are in insertion order; `timers` and `waitTimers` are the armed timers;
   * `settled` and `answered` log every settlement of a request and of a hello waiter.
   */
  datatype State = State(socket: Option<nat>, hello: Option<Hello>, open: set<nat>, pending: seq<Pending>, timers: set<string>,
                         issued: set<string>, settled: seq<Settlement>, waiters: seq<nat>, waitTimers: set<nat>, asked: nat,
                         answered: seq<Waiting>, admitted: set<nat>, goneCalls: nat, chats: seq<Chat>, unknown: nat)

  const CLOSED: State := State(None, None, {}, [], {}, {}, [], [], {}, 0, [], {}, 0, [], 0)

  datatype Event =
    | Connect(ws: nat)
    | Message(ws: nat, frame: Frame)
    | SocketClosing(ws: nat)
    | SocketClosed(ws: nat)
    | Request(id: string)
    | RequestTimer(id: string)
    | WaitForHello
    | WaitTimer(waiter: nat)
    | CloseGateway

  predicate Supported(version: string)
  {
    StartsWith(version, "13.") || StartsWith(version, "14.")
  }

  predicate Authorized(pairingSecret: string, f: Frame)
    requires f.HelloFrame?
  {
    if |Trim(pairingSecret)| > 0 then f.secret == pairingSecret else f.loopback
  }

  /** Ids come from a UUID generator; a timer fires only while armed. */
  predicate CanHappen(s: State, e: Event)
  {
    match e
    case Request(id) => id !in s.issued
    case RequestTimer(id) => id in s.timers
    case WaitTimer(w) => w in s.waitTimers
    case _ => true
  }

  function RejectAll(pending: seq<Pending>, code: string): seq<Settlement>
  {
    if |pending| == 0 then [] else RejectAll(pending[..|pending| - 1], code) + [Settlement(pending[|pending| - 1].id, Rejected(code))]
  }

  function AnswerAll(waiters: seq<nat>, hello: Hello): seq<Waiting>
  {
    if |waiters| == 0 then [] else AnswerAll(waiters[..|waiters| - 1], hello) + [Waiting(waiters[|waiters| - 1], Connected(hello))]
  }

  function Without(pending: seq<Pending>, id: string): seq<Pending>
  {
    if |pending| == 0 then []
    else if pending[0].id == id then Without(pending[1..], id) else [pending[0]] + Without(pending[1..], id)
  }

  function WithoutWaiter(waiters: seq<nat>, w: nat): seq<nat>
  {
    if |waiters| == 0 then []
    else if waiters[0] == w then WithoutWaiter(waiters[1..], w) else [waiters[0]] + WithoutWaiter(waiters[1..], w)
  }

  predicate IsPending(pending: seq<Pending>, id: string)
  {
    exists i :: 0 <= i < |pending| && pending[i].id == id
  }

  function Settle(s: State, id: string, outcome: Outcome): State
  {
    s.(pending := Without(s.pending, id), timers := s.timers - {id}, settled := s.settled + [Settlement(id, outcome)])
  }

  function SettleAll(s: State, code: string): State
  {
    s.(pending := [], timers := {}, settled := s.settled + RejectAll(s.pending, code))
  }

  function TurnAway(s: State, ws: nat): State
  {
    s.(open := s.open - {ws})
  }

  /** Another session is connected. */
  predicate Busy(s: State, ws: nat)
  {
    s.socket.Some? && s.socket.value != ws && s.socket.value in s.open
  }

  function HandleHello(pairingSecret: string, s: State, ws: nat, f: Frame): State
    requires f.HelloFrame?
  {
    if !Supported(f.hello.foundryVersion) || !Authorized(pairingSecret, f) then TurnAway(s, ws)
    else if Busy(s, ws) then TurnAway(s, ws)
    else Admitted(s, ws, f.hello)
  }

  /** The socket is held and its hello kept; everyone waiting for it is answered. */
  function Admitted(s: State, ws: nat, greeting: Hello): State
  {
    s.(socket := Some(ws), hello := Some(greeting), admitted := s.admitted + {ws}, waiters := [], waitTimers := {},
       answered := s.answered + AnswerAll(s.waiters, greeting))
  }

  function HandleRes(s: State, f: Frame): State
    requires f.Res?
  {
    if !IsPending(s.pending, f.id) then s
    else Settle(s, f.id, if f.ok then Resolved(f.payload) else Rejected(f.payload))
  }

  function HandleEvt(s: State, f: Frame): State
  {
    match f
    case EvtGone => s.(goneCalls := s.goneCalls + 1)
    case EvtChat(chat) => if |chat.foundryUserId| == 0 || |chat.text| == 0 then s else s.(chats := s.chats + [chat])
    case _ => s
  }

  function OnMessage(pairingSecret: string, s: State, ws: nat, f: Frame): State
  {
    if f.Junk? then s.(unknown := s.unknown + 1)
    else if f.HelloFrame? then HandleHello(pairingSecret, s, ws, f)
    else if s.socket != Some(ws) then s.(unknown := s.unknown + 1)
    else if f.Res? then HandleRes(s, f)
    else HandleEvt(s, f)
  }

  function Step(pairingSecret: string, s: State, e: Event): State
    requires CanHappen(s, e)
  {
    match e
    case Connect(ws) => s.(open := s.open + {ws})
    case Message(ws, f) => OnMessage(pairingSecret, s, ws, f)
    case SocketClosing(ws) => s.(open := s.open - {ws})
    case SocketClosed(ws) =>
      var s' := s.(open := s.open - {ws});
      if s.socket != Some(ws) then s'
      else SettleAll(s'.(socket := None, hello := None, goneCalls := s.goneCalls + 1), "gone")
    case Request(id) =>
      var s' := s.(issued := s.issued + {id});
      if s.socket.None? || s.socket.value !in s.open then s'.(settled := s.settled + [Settlement(id, Rejected("timeout"))])
      else s'.(pending := s.pending + [Pending(id, s.socket.value)], timers := s.timers + {id})
    case RequestTimer(id) => Settle(s, id, Rejected("timeout"))
    case WaitForHello =>
      var s' := s.(asked := s.asked + 1);
      if s.hello.Some? then s'.(answered := s.answered + [Waiting(s.asked, Connected(s.hello.value))])
      else s'.(waiters := s.waiters + [s.asked], waitTimers := s.waitTimers + {s.asked})
    case WaitTimer(w) =>
      s.(waiters := WithoutWaiter(s.waiters, w), waitTimers := s.waitTimers - {w}, answered := s.answered + [Waiting(w, TimedOut)])
    case CloseGateway =>
      var s' := SettleAll(s, "closed");
      s'.(socket := None, hello := None, open := if s.socket.Some? then s.open - {s.socket.value} else s.open)
  }

  // ---- the invariant ----

  function PendingIds(pending: seq<Pending>): set<string>
  {
    set p | p in pending :: p.id
  }

  function SettledIds(settled: seq<Settlement>): set<string>
  {
    set x | x in settled :: x.id
  }

  ghost predicate DistinctPending(pending: seq<Pending>)
  {
    forall i, j :: 0 <= i < j < |pending| ==> pending[i].id != pending[j].id
  }

  ghost predicate DistinctSettled(settled: seq<Settlement>)
  {
    forall i, j :: 0 <= i < j < |settled| ==> settled[i].id != settled[j].id
  }

  /** Issued requests are settled exactly once or still pending with an armed timer. */
  ghost predicate Accounted(s: State)
  {
    && DistinctPending(s.pending) && DistinctSettled(s.settled)
    && PendingIds(s.pending) !! SettledIds(s.settled)
    && s.issued == PendingIds(s.pending) + SettledIds(s.settled)
    && s.timers == PendingIds(s.pending)
  }

  function WaitingIds(waiters: seq<nat>): set<nat>
  {
    set w | w in waiters
  }

  function AnsweredIds(answered: seq<Waiting>): set<nat>
  {
    set x | x in answered :: x.waiter
  }

  ghost predicate DistinctAnswers(answered: seq<Waiting>)
  {
    forall i, j :: 0 <= i < j < |answered| ==> answered[i].waiter != answered[j].waiter
  }

  ghost predicate DistinctWaiters(waiters: seq<nat>)
  {
    forall i, j :: 0 <= i < j < |waiters| ==> waiters[i] != waiters[j]
  }

  /** The same for the callers of `waitForHello`. */
  ghost predicate WaitersAccounted(s: State)
  {
    && DistinctWaiters(s.waiters) && DistinctAnswers(s.answered)
    && WaitingIds(s.waiters) !! AnsweredIds(s.answered)
    && (forall w: nat :: w < s.asked <==> w in WaitingIds(s.waiters) || w in AnsweredIds(s.answered))
    && s.waitTimers == WaitingIds(s.waiters)
  }

  ghost predicate Held(s: State)
  {
    (s.hello.Some? <==> s.socket.Some?) && (s.socket.Some? ==> s.socket.value in s.admitted)
  }

  lemma {:induction false} WithoutFacts(pending: seq<Pending>, id: string)
    requires DistinctPending(pending)
    ensures DistinctPending(Without(pending, id)) && PendingIds(Without(pending, id)) == PendingIds(pending) - {id}
    ensures forall p :: p in Without(pending, id) ==> p in pending
    decreases |pending|
  {
    if |pending| > 0 {
      var rest := pending[1..];
      WithoutFacts(rest, id);
      assert pending == [pending[0]] + rest;
      assert PendingIds(pending) == {pending[0].id} + PendingIds(rest);
      var kept := Without(rest, id);
      assert PendingIds([pending[0]] + kept) == {pending[0].id} + PendingIds(kept);
      forall p | p in rest
        ensures p.id != pending[0].id
      {
        var k :| 0 <= k < |rest| && rest[k] == p;
        assert pending[k + 1] == p;
      }
      assert pending[0].id !in PendingIds(rest);
    }
  }

  lemma SettledSnoc(settled: seq<Settlement>, x: Settlement)
    requires DistinctSettled(settled) && x.id !in SettledIds(settled)
    ensures DistinctSettled(settled + [x]) && SettledIds(settled + [x]) == SettledIds(settled) + {x.id}
  {
    assert forall i :: 0 <= i < |settled| ==> settled[i] in settled;
  }

  lemma PendingSnoc(init: seq<Pending>, last: Pending)
    requires DistinctPending(init + [last])
    ensures DistinctPending(init) && PendingIds(init + [last]) == PendingIds(init) + {last.id} && last.id !in PendingIds(init)
  {
    var all := init + [last];
    assert forall i :: 0 <= i < |init| ==> all[i] == init[i];
    assert all[|init|] == last;
  }

  lemma {:induction false} RejectAllFacts(settled: seq<Settlement>, pending: seq<Pending>, code: string)
    requires DistinctSettled(settled) && DistinctPending(pending) && PendingIds(pending) !! SettledIds(settled)
    ensures DistinctSettled(settled + RejectAll(pending, code))
    ensures SettledIds(settled + RejectAll(pending, code)) == SettledIds(settled) + PendingIds(pending)
    decreases |pending|
  {
    if |pending| == 0 {
      assert settled + [] == settled;
    } else {
      hide DistinctSettled, DistinctPending, PendingIds, SettledIds;
      var n := |pending| - 1;
      var init, last := pending[..n], pending[n];
      assert pending == init + [last];
      PendingSnoc(init, last);
      RejectAllFacts(settled, init, code);
      SettledSnoc(settled + RejectAll(init, code), Settlement(last.id, Rejected(code)));
      assert settled + RejectAll(pending, code) == settled + RejectAll(init, code) + [Settlement(last.id, Rejected(code))];
    }
  }

  lemma PendingIn(pending: seq<Pending>, id: string)
    ensures IsPending(pending, id) <==> id in PendingIds(pending)
  {
  }

  lemma SettleAccounted(s: State, id: string, outcome: Outcome)
    requires Accounted(s) && id in PendingIds(s.pending)
    ensures Accounted(Settle(s, id, outcome))
  {
    hide Without;
    WithoutFacts(s.pending, id);
    SettledSnoc(s.settled, Settlement(id, outcome));
  }

  lemma SettleAllAccounted(s: State, code: string)
    requires Accounted(s)
    ensures Accounted(SettleAll(s, code))
  {
    hide RejectAll;
    RejectAllFacts(s.settled, s.pending, code);
  }

  lemma RequestAccounted(pairingSecret: string, s: State, id: string)
    requires Accounted(s) && id !in s.issued
    ensures Accounted(Step(pairingSecret, s, Request(id)))
  {
    SettledSnoc(s.settled, Settlement(id, Rejected("timeout")));
    if s.socket.Some? {
      var p := Pending(id, s.socket.value);
      assert PendingIds(s.pending + [p]) == PendingIds(s.pending) + {id};
      assert forall i :: 0 <= i < |s.pending| ==> s.pending[i].id in PendingIds(s.pending);
    }
  }

  lemma StepAccounted(pairingSecret: string, s: State, e: Event)
    requires Accounted(s) && CanHappen(s, e)
    ensures Accounted(Step(pairingSecret, s, e))
  {
    hide Accounted, Settle, SettleAll, IsPending, PendingIds;
    match e
    case Request(id) => RequestAccounted(pairingSecret, s, id);
    case RequestTimer(id) => TimersArePending(s); SettleAccounted(s, id, Rejected("timeout"));
    case Message(ws, f) =>
      if f.Res? && s.socket == Some(ws) && IsPending(s.pending, f.id) {
        PendingIn(s.pending, f.id);
        SettleAccounted(s, f.id, if f.ok then Resolved(f.payload) else Rejected(f.payload));
      } else {
        SameBooks(s, OnMessage(pairingSecret, s, ws, f));
      }
    case SocketClosed(ws) =>
      var s' := s.(open := s.open - {ws});
      SameBooks(s, s');
      if s.socket == Some(ws) {
        var s2 := s'.(socket := None, hello := None, goneCalls := s.goneCalls + 1);
        SameBooks(s, s2);
        SettleAllAccounted(s2, "gone");
      }
    case CloseGateway =>
      SettleAllAccounted(s, "closed");
      SameBooks(SettleAll(s, "closed"), Step(pairingSecret, s, e));
    case _ => SameBooks(s, Step(pairingSecret, s, e));
  }

  lemma TimersArePending(s: State)
    requires Accounted(s)
    ensures s.timers == PendingIds(s.pending)
  {
  }

  lemma SameBooks(s: State, s': State)
    requires Accounted(s)
    requires s'.pending == s.pending && s'.settled == s.settled && s'.issued == s.issued && s'.timers == s.timers
    ensures Accounted(s')
  {
  }

  lemma AnsweredSnoc(answered: seq<Waiting>, x: Waiting)
    requires DistinctAnswers(answered) && x.waiter !in AnsweredIds(answered)
    ensures DistinctAnswers(answered + [x]) && AnsweredIds(answered + [x]) == AnsweredIds(answered) + {x.waiter}
  {
    assert forall i :: 0 <= i < |answered| ==> answered[i] in answered;
  }

  lemma WaitersSnoc(init: seq<nat>, last: nat)
    requires DistinctWaiters(init + [last])
    ensures DistinctWaiters(init) && WaitingIds(init + [last]) == WaitingIds(init) + {last} && last !in WaitingIds(init)
  {
    var all := init + [last];
    assert forall i :: 0 <= i < |init| ==> all[i] == init[i];
    assert all[|init|] == last;
  }

  lemma {:induction false} AnswerAllFacts(answered: seq<Waiting>, waiters: seq<nat>, hello: Hello)
    requires DistinctAnswers(answered) && DistinctWaiters(waiters) && WaitingIds(waiters) !! AnsweredIds(answered)
    ensures DistinctAnswers(answered + AnswerAll(waiters, hello))
    ensures AnsweredIds(answered + AnswerAll(waiters, hello)) == AnsweredIds(answered) + WaitingIds(waiters)
    decreases |waiters|
  {
    if |waiters| == 0 {
      assert answered + [] == answered;
    } else {
      hide DistinctAnswers, DistinctWaiters, WaitingIds, AnsweredIds;
      var n := |waiters| - 1;
      var init, last := waiters[..n], waiters[n];
      assert waiters == init + [last];
      WaitersSnoc(init, last);
      AnswerAllFacts(answered, init, hello);
      AnsweredSnoc(answered + AnswerAll(init, hello), Waiting(last, Connected(hello)));
      assert answered + AnswerAll(waiters, hello) == answered + AnswerAll(init, hello) + [Waiting(last, Connected(hello))];
    }
  }

  lemma {:induction false} WithoutWaiterFacts(waiters: seq<nat>, w: nat)
    requires DistinctWaiters(waiters)
    ensures DistinctWaiters(WithoutWaiter(waiters, w)) && WaitingIds(WithoutWaiter(waiters, w)) == WaitingIds(waiters) - {w}
    decreases |waiters|
  {
    if |waiters| > 0 {
      var rest := waiters[1..];
      WithoutWaiterFacts(rest, w);
      assert waiters == [waiters[0]] + rest;
      assert WaitingIds(waiters) == {waiters[0]} + WaitingIds(rest);
      var kept := WithoutWaiter(rest, w);
      assert WaitingIds([waiters[0]] + kept) == {waiters[0]} + WaitingIds(kept);
      assert waiters[0] !in WaitingIds(rest);
      assert forall i :: 0 <= i < |kept| ==> kept[i] in WaitingIds(kept);
    }
  }

  lemma WaitAccounted(pairingSecret: string, s: State)
    requires WaitersAccounted(s)
    ensures WaitersAccounted(Step(pairingSecret, s, WaitForHello))
  {
    assert s.asked !in WaitingIds(s.waiters) && s.asked !in AnsweredIds(s.answered);
    if s.hello.Some? {
      AnsweredSnoc(s.answered, Waiting(s.asked, Connected(s.hello.value)));
    } else {
      assert WaitingIds(s.waiters + [s.asked]) == WaitingIds(s.waiters) + {s.asked};
      assert forall i :: 0 <= i < |s.waiters| ==> s.waiters[i] in WaitingIds(s.waiters);
    }
  }

  lemma WaitTimerAccounted(pairingSecret: string, s: State, w: nat)
    requires WaitersAccounted(s) && w in s.waitTimers
    ensures WaitersAccounted(Step(pairingSecret, s, WaitTimer(w)))
  {
    hide WithoutWaiter, DistinctAnswers, DistinctWaiters, WaitingIds, AnsweredIds;
    WithoutWaiterFacts(s.waiters, w);
    AnsweredSnoc(s.answered, Waiting(w, TimedOut));
  }

  lemma HelloAnswersWaiters(s: State, s': State, hello: Hello)
    requires WaitersAccounted(s)
    requires s'.waiters == [] && s'.waitTimers == {} && s'.asked == s.asked && s'.answered == s.answered + AnswerAll(s.waiters, hello)
    ensures WaitersAccounted(s')
  {
    AnswerAllFacts(s.answered, s.waiters, hello);
  }

  lemma SameWaiters(s: State, s': State)
    requires WaitersAccounted(s)
    requires s'.waiters == s.waiters && s'.waitTimers == s.waitTimers && s'.asked == s.asked && s'.answered == s.answered
    ensures WaitersAccounted(s')
  {
  }

  lemma StepWaiters(pairingSecret: string, s: State, e: Event)
    requires WaitersAccounted(s) && CanHappen(s, e)
    ensures WaitersAccounted(Step(pairingSecret, s, e))
  {
    hide WaitersAccounted, Without, RejectAll, IsPending, Authorized, Supported;
    match e
    case WaitForHello => WaitAccounted(pairingSecret, s);
    case WaitTimer(w) => WaitTimerAccounted(pairingSecret, s, w);
    case Message(ws, f) =>
      var s' := OnMessage(pairingSecret, s, ws, f);
      if f.HelloFrame? && Supported(f.hello.foundryVersion) && Authorized(pairingSecret, f) && !Busy(s, ws) {
        HelloAnswersWaiters(s, s', f.hello);
      } else {
        SameWaiters(s, s');
      }
    case _ => SameWaiters(s, Step(pairingSecret, s, e));
  }

  // ---- runs ----

  ghost predicate Sound(s: State)
  {
    Accounted(s) && WaitersAccounted(s) && Held(s)
  }

  predicate Runs(pairingSecret: string, s: State, es: seq<Event>)
    decreases |es|
  {
    |es| == 0 || (CanHappen(s, es[0]) && Runs(pairingSecret, Step(pairingSecret, s, es[0]), es[1..]))
  }

  function After(pairingSecret: string, s: State, es: seq<Event>): State
    requires Runs(pairingSecret, s, es)
    decreases |es|
  {
    if |es| == 0 then s else After(pairingSecret, Step(pairingSecret, s, es[0]), es[1..])
  }

  lemma StepHeld(pairingSecret: string, s: State, e: Event)
    requires Held(s) && CanHappen(s, e)
    ensures Held(Step(pairingSecret, s, e))
  {
    hide Without, RejectAll, IsPending, Authorized, Supported, AnswerAll;
  }

  lemma {:induction false} RunsSound(pairingSecret: string, s: State, es: seq<Event>)
    requires Sound(s) && Runs(pairingSecret, s, es)
    ensures Sound(After(pairingSecret, s, es))
    decreases |es|
  {
    if |es| > 0 {
      hide Step, Accounted, WaitersAccounted, Held, CanHappen;
      StepAccounted(pairingSecret, s, es[0]);
      StepWaiters(pairingSecret, s, es[0]);
      StepHeld(pairingSecret, s, es[0]);
      RunsSound(pairingSecret, Step(pairingSecret, s, es[0]), es[1..]);
    }
  }

  /**
   * However frames, timers, closes and calls interleave: issued requests are the disjoint union of
   * those settled, each once, and those pending, each with an armed timer; hello is known exactly
   * while a socket is held, and that socket was admitted; every hello waiter is answered at most once.
   */
  lemma EveryRequestSettlesOnce(pairingSecret: string, es: seq<Event>)
    requires Runs(pairingSecret, CLOSED, es)
    ensures var s := After(pairingSecret, CLOSED, es);
      && DistinctSettled(s.settled) && PendingIds(s.pending) !! SettledIds(s.settled)
      && s.issued == PendingIds(s.pending) + SettledIds(s.settled) && s.timers == PendingIds(s.pending)
      && (s.hello.Some? <==> s.socket.Some?) && (s.socket.Some? ==> s.socket.value in s.admitted)
      && DistinctAnswers(s.answered) && WaitingIds(s.waiters) !! AnsweredIds(s.answered)
      && s.waitTimers == WaitingIds(s.waiters)
  {
    RunsSound(pairingSecret, CLOSED, es);
  }

  // ---- who may do what ----

  /** The hello of a socket the gateway would take. */
  predicate Acceptable(pairingSecret: string, f: Frame)
  {
    f.HelloFrame? && Supported(f.hello.foundryVersion) && Authorized(pairingSecret, f)
  }

  /** Only the held socket's frames settle requests or raise events, and only an acceptable hello changes who is held. */
  lemma StrangersAreInert(pairingSecret: string, s: State, ws: nat, f: Frame)
    requires s.socket != Some(ws)
    ensures var s' := OnMessage(pairingSecret, s, ws, f);
      && s'.settled == s.settled && s'.pending == s.pending && s'.timers == s.timers
      && s'.goneCalls == s.goneCalls && s'.chats == s.chats
      && (s'.socket != s.socket ==>
            Acceptable(pairingSecret, f) && s'.socket == Some(ws) && (s.socket.None? || s.socket.value !in s.open))
      && (!Acceptable(pairingSecret, f) ==> s'.socket == s.socket && s'.hello == s.hello && s'.answered == s.answered)
  {
    hide Supported, Authorized, AnswerAll;
  }

  /** What can change the settlement log, and how. */
  lemma SettledOnlyBy(pairingSecret: string, s: State, e: Event)
    requires Sound(s) && CanHappen(s, e) && Step(pairingSecret, s, e).settled != s.settled
    ensures match e
      case Message(ws, f) => s.socket == Some(ws) && f.Res? && f.id in PendingIds(s.pending)
        && Step(pairingSecret, s, e).settled == s.settled + [Settlement(f.id, if f.ok then Resolved(f.payload) else Rejected(f.payload))]
      case RequestTimer(id) => id in PendingIds(s.pending)
        && Step(pairingSecret, s, e).settled == s.settled + [Settlement(id, Rejected("timeout"))]
      case Request(id) => s.socket.None? || s.socket.value !in s.open
      case SocketClosed(ws) => s.socket == Some(ws)
      case CloseGateway => true
      case _ => false
  {
    hide Without, RejectAll, Authorized, Supported, AnswerAll;
    if e.Message? && e.frame.Res? { PendingIn(s.pending, e.frame.id); }
  }

  /** A disconnect or a close leaves nothing pending: each request that was is rejected, once. */
  lemma EndSettlesEverything(pairingSecret: string, s: State, e: Event)
    requires Sound(s) && (e.CloseGateway? || (e.SocketClosed? && s.socket == Some(e.ws)))
    ensures var s' := Step(pairingSecret, s, e);
      && s'.pending == [] && s'.timers == {} && s'.socket.None? && s'.hello.None?
      && s'.settled == s.settled + RejectAll(s.pending, if e.CloseGateway? then "closed" else "gone")
      && SettledIds(s'.settled) == s.issued
  {
    hide RejectAll;
    RejectAllFacts(s.settled, s.pending, if e.CloseGateway? then "closed" else "gone");
  }

  lemma NothingRejected(pending: seq<Pending>, code: string)
    ensures RejectAll(pending[..0], code) == [] && PendingIds(pending[..0]) == {}
  {
  }

  lemma OneRejected(pending: seq<Pending>, i: nat, code: string)
    requires i < |pending|
    ensures RejectAll(pending[..i + 1], code) == RejectAll(pending[..i], code) + [Settlement(pending[i].id, Rejected(code))]
    ensures PendingIds(pending[..i + 1]) == PendingIds(pending[..i]) + {pending[i].id}
  {
    assert pending[..i + 1][..i] == pending[..i];
    assert pending[..i + 1] == pending[..i] + [pending[i]];
  }

  // ---- the gateway object ----

  class FoundryGateway {
    const pairingSecret: string
    var socket: Option<nat>
    var hello: Option<Hello>
    var open: set<nat>
    var pending: seq<Pending>
    var timers: set<string>
    var waiters: seq<nat>
    var waitTimers: set<nat>
    var asked: nat
    var goneCalls: nat
    var chats: seq<Chat>
    var unknownJsonCount: nat
    ghost var issued: set<string>
    ghost var settled: seq<Settlement>
    ghost var answered: seq<Waiting>
    ghost var admitted: set<nat>

    ghost function View(): State
      reads this
    {
      State(socket, hello, open, pending, timers, issued, settled, waiters, waitTimers, asked, answered, admitted, goneCalls,
            chats, unknownJsonCount)
    }

    constructor (pairingSecret: string)
      ensures View() == CLOSED && this.pairingSecret == pairingSecret
    {
      this.pairingSecret := pairingSecret;
      socket, hello, open, pending, timers, waiters, waitTimers, asked := None, None, {}, [], {}, [], {}, 0;
      goneCalls, chats, unknownJsonCount, issued, settled, answered, admitted := 0, [], 0, {}, [], [], {};
    }

    method DoRequest(id: string)
      requires CanHappen(View(), Request(id))
      modifies this
      ensures View() == Step(pairingSecret, old(View()), Request(id))
    {
      issued := issued + {id};
      if socket.None? || socket.value !in open {
        settled := settled + [Settlement(id, Rejected("timeout"))];
        return;
      }
      pending := pending + [Pending(id, socket.value)];
      timers := timers + {id};
    }

    method OnTimer(id: string)
      requires CanHappen(View(), RequestTimer(id))
      modifies this
      ensures View() == Step(pairingSecret, old(View()), RequestTimer(id))
    {
      timers := timers - {id};
      Forget(id);
      settled := settled + [Settlement(id, Rejected("timeout"))];
    }

    method Forget(id: string)
      modifies `pending
      ensures pending == Without(old(pending), id)
    {
      pending := Without(pending, id);
    }

    /** Rejects every pending request in turn and disarms its timer. */
    method RejectPending(code: string)
      requires timers == PendingIds(pending)
      modifies `pending, `timers, `settled
      ensures View() == SettleAll(old(View()), code)
    {
      hide Without, RejectAll, PendingIds;
      var i := 0;
      NothingRejected(pending, code);
      assert settled + [] == settled;
      while i < |pending|
        invariant i <= |pending| && settled == old(settled) + RejectAll(pending[..i], code)
        invariant timers == old(timers) - PendingIds(pending[..i]) && pending == old(pending)
      {
        OneRejected(pending, i, code);
        settled := settled + [Settlement(pending[i].id, Rejected(code))];
        timers := timers - {pending[i].id};
        i := i + 1;
      }
      assert pending[..i] == pending;
      pending := [];
    }

    method OnSocketClose(ws: nat)
      requires Sound(View())
      modifies this
      ensures View() == Step(pairingSecret, old(View()), SocketClosed(ws))
    {
      open := open - {ws};
      if socket != Some(ws) { return; }
      socket, hello := None, None;
      RejectPending("gone");
      goneCalls := goneCalls + 1;
    }

    method Close()
      requires Sound(View())
      modifies this
      ensures View() == Step(pairingSecret, old(View()), CloseGateway)
    {
      RejectPending("closed");
      if socket.Some? { open := open - {socket.value}; }
      socket, hello := None, None;
    }

    method OnFrame(ws: nat, f: Frame)
      modifies this
      ensures View() == Step(pairingSecret, old(View()), Message(ws, f))
    {
      hide Without, AnswerAll, Supported, Authorized;
      if f.Junk? {
        unknownJsonCount := unknownJsonCount + 1;
      } else if f.HelloFrame? {
        OnHello(ws, f);
      } else if socket != Some(ws) {
        unknownJsonCount := unknownJsonCount + 1;
      } else if f.Res? {
        OnRes(f);
      } else {
        OnEvt(f);
      }
    }

    method OnHello(ws: nat, f: Frame)
      requires f.HelloFrame?
      modifies `open, `socket, `hello, `admitted, `answered, `waiters, `waitTimers
      ensures View() == HandleHello(pairingSecret, old(View()), ws, f)
    {
      hide Supported, Authorized, AnswerAll;
      if !Supported(f.hello.foundryVersion) || !Authorized(pairingSecret, f) || (socket.Some? && socket.value != ws && socket.value in open) {
        open := open - {ws};
      } else {
        Admit(ws, f.hello);
      }
    }

    method Admit(ws: nat, greeting: Hello)
      modifies `socket, `hello, `admitted, `answered, `waiters, `waitTimers
      ensures View() == Admitted(old(View()), ws, greeting)
    {
      hide AnswerAll;
      socket, hello := Some(ws), Some(greeting);
      admitted := admitted + {ws};
      answered := answered + AnswerAll(waiters, greeting);
      waiters, waitTimers := [], {};
    }

    method OnRes(f: Frame)
      requires f.Res?
      modifies this
      ensures View() == HandleRes(old(View()), f)
    {
      hide Without;
      if !IsPending(pending, f.id) { return; }
      Forget(f.id);
      timers := timers - {f.id};
      settled := settled + [Settlement(f.id, if f.ok then Resolved(f.payload) else Rejected(f.payload))];
    }

    method OnEvt(f: Frame)
      modifies this
      ensures View() == HandleEvt(old(View()), f)
    {
      match f
      case EvtGone => goneCalls := goneCalls + 1;
      case EvtChat(chat) =>
        if |chat.foundryUserId| == 0 || |chat.text| == 0 { return; }
        chats := chats + [chat];
      case _ =>
    }

    method DoWaitForHello() returns (waiter: nat)
      modifies this
      ensures View() == Step(pairingSecret, old(View()), WaitForHello) && waiter == old(asked)
    {
      waiter := asked;
      asked := asked + 1;
      if hello.Some? {
        answered := answered + [Waiting(waiter, Connected(hello.value))];
        return;
      }
      waiters := waiters + [waiter];
      waitTimers := waitTimers + {waiter};
    }

    method OnWaitTimer(w: nat)
      requires w in waitTimers
      modifies this
      ensures View() == Step(pairingSecret, old(View()), WaitTimer(w))
    {
      waiters := WithoutWaiter(waiters, w);
      waitTimers := waitTimers - {w};
      answered := answered + [Waiting(w, TimedOut)];
    }
  }
}
