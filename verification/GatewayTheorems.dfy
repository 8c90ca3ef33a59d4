/** Whom the gateway takes, and what each frame, close and call does, in plain terms (plugins/vtt-foundry/src/foundry_gateway.ts). */
module GatewayTheorems {
  import opened Options
  import opened Text
  import opened Gateway

  // ---- who is taken ----

  predicate VersionSpoken(version: string)
  {
    |version| >= 3 && (version[..3] == "13." || version[..3] == "14.")
  }

  /** With a secret that is not blank the frame must carry it; without one the peer must be local. */
  predicate Entitled(pairingSecret: string, f: Frame)
    requires f.HelloFrame?
  {
    if Blank(pairingSecret) then f.loopback else f.secret == pairingSecret
  }

  /** Nobody else is connected. */
  predicate Vacant(s: State, ws: nat)
  {
    s.socket == None || s.socket == Some(ws) || s.socket.value !in s.open
  }

  lemma BlankExactly(secret: string)
    ensures |Trim(secret)| == 0 <==> Blank(secret)
  {
    hide Trim, IsSpace;
    var pre, post := TrimSplits(secret);
    assert |Trim(secret)| == 0 ==> Trim(secret) == [];
    if Blank(secret) {
      assert secret == secret + "" + "";
      TrimUnique(secret, secret, "", "");
    }
  }

  lemma {:induction false} AnswersAt(waiters: seq<nat>, greeting: Hello)
    ensures |AnswerAll(waiters, greeting)| == |waiters|
    ensures forall i :: 0 <= i < |waiters| ==> AnswerAll(waiters, greeting)[i] == Waiting(waiters[i], Connected(greeting))
    decreases |waiters|
  {
    if |waiters| > 0 { AnswersAt(waiters[..|waiters| - 1], greeting); }
  }

  lemma {:induction false} RejectionsAt(pending: seq<Pending>, code: string)
    ensures |RejectAll(pending, code)| == |pending|
    ensures forall i :: 0 <= i < |pending| ==> RejectAll(pending, code)[i] == Settlement(pending[i].id, Rejected(code))
    decreases |pending|
  {
    if |pending| > 0 { RejectionsAt(pending[..|pending| - 1], code); }
  }

  /**
   * A hello takes the connection exactly when its version is spoken, its sender is entitled and nobody else is connected;
   * then everyone waiting is answered with it, in order. Any other hello only loses its own socket.
   */
  lemma HelloExactly(pairingSecret: string, s: State, ws: nat, f: Frame)
    requires f.HelloFrame?
    ensures var s' := OnMessage(pairingSecret, s, ws, f);
      if VersionSpoken(f.hello.foundryVersion) && Entitled(pairingSecret, f) && Vacant(s, ws) then
        && s'.answered[..|s.answered|] == s.answered && |s'.answered| == |s.answered| + |s.waiters|
        && (forall i :: 0 <= i < |s.waiters| ==> s'.answered[|s.answered| + i] == Waiting(s.waiters[i], Connected(f.hello)))
        && s' == s.(socket := Some(ws), hello := Some(f.hello), admitted := s.admitted + {ws}, waiters := [], waitTimers := {},
                    answered := s'.answered)
      else s' == s.(open := s.open - {ws})
  {
    hide Trim, AnswerAll;
    BlankExactly(pairingSecret);
    AnswersAt(s.waiters, f.hello);
  }

  /** The connection was taken by a hello that spoke the version and was entitled, and that hello is the one known. */
  ghost predicate TakenBy(pairingSecret: string, s: State, es: seq<Event>)
  {
    s.socket.Some? ==> exists i :: 0 <= i < |es| && Took(pairingSecret, s, es[i])
  }

  ghost predicate Took(pairingSecret: string, s: State, e: Event)
    requires s.socket.Some?
  {
    && e.Message? && e.ws == s.socket.value && e.frame.HelloFrame? && s.hello == Some(e.frame.hello)
    && VersionSpoken(e.frame.hello.foundryVersion) && Entitled(pairingSecret, e.frame)
  }

  lemma StepTakenBy(pairingSecret: string, s: State, es: seq<Event>, e: Event)
    requires TakenBy(pairingSecret, s, es) && CanHappen(s, e)
    ensures TakenBy(pairingSecret, Step(pairingSecret, s, e), es + [e])
  {
    hide Entitled, Without, RejectAll, AnswerAll, IsPending, Trim, Authorized, Supported;
    var s', all := Step(pairingSecret, s, e), es + [e];
    if e.Message? && e.frame.HelloFrame? { HelloExactly(pairingSecret, s, e.ws, e.frame); }
    if s'.socket.Some? {
      if s'.socket == s.socket && s'.hello == s.hello {
        var i :| 0 <= i < |es| && Took(pairingSecret, s, es[i]);
        assert all[i] == es[i] && Took(pairingSecret, s', all[i]);
      } else {
        assert all[|es|] == e && Took(pairingSecret, s', e);
      }
    }
  }

  lemma {:induction false} RunTakenBy(pairingSecret: string, s: State, past: seq<Event>, es: seq<Event>)
    requires TakenBy(pairingSecret, s, past) && Runs(pairingSecret, s, es)
    ensures TakenBy(pairingSecret, After(pairingSecret, s, es), past + es)
    decreases |es|
  {
    hide TakenBy, Step, CanHappen;
    if |es| == 0 {
      assert past + es == past;
    } else {
      StepTakenBy(pairingSecret, s, past, es[0]);
      RunTakenBy(pairingSecret, Step(pairingSecret, s, es[0]), past + [es[0]], es[1..]);
      assert past + [es[0]] + es[1..] == past + es;
    }
  }

  /** Over any run, whoever is connected came in by a hello with a spoken version and the right to do so. */
  lemma ConnectedIsEntitled(pairingSecret: string, es: seq<Event>)
    requires Runs(pairingSecret, CLOSED, es)
    ensures TakenBy(pairingSecret, After(pairingSecret, CLOSED, es), es)
  {
    hide Runs, After;
    RunTakenBy(pairingSecret, CLOSED, [], es);
    assert [] + es == es;
  }

  // ---- what frames of the connected socket do ----

  lemma {:induction false} WithoutExactly(pending: seq<Pending>, id: string)
    ensures forall p :: p in Without(pending, id) <==> p in pending && p.id != id
    decreases |pending|
  {
    if |pending| > 0 {
      WithoutExactly(pending[1..], id);
      assert forall p :: p in pending <==> p == pending[0] || p in pending[1..];
    }
  }

  /** A response settles the pending request of its id with what it says, and disarms its timer; any other response does nothing. */
  lemma ResponseExactly(pairingSecret: string, s: State, ws: nat, f: Frame)
    requires f.Res? && s.socket == Some(ws)
    ensures var s' := OnMessage(pairingSecret, s, ws, f);
      if exists p :: p in s.pending && p.id == f.id then
        && s' == s.(pending := s'.pending, timers := s.timers - {f.id},
                    settled := s.settled + [Settlement(f.id, if f.ok then Resolved(f.payload) else Rejected(f.payload))])
        && forall p :: p in s'.pending <==> p in s.pending && p.id != f.id
      else s' == s
  {
    hide Without;
    WithoutExactly(s.pending, f.id);
    if IsPending(s.pending, f.id) {
      var i :| 0 <= i < |s.pending| && s.pending[i].id == f.id;
      assert s.pending[i] in s.pending;
    }
  }

  /** Its other frames: a departure is announced, a chat line with a sender and a text is passed on, and nothing else happens. */
  lemma EventExactly(pairingSecret: string, s: State, ws: nat, f: Frame)
    requires !f.Res? && !f.HelloFrame? && s.socket == Some(ws)
    ensures OnMessage(pairingSecret, s, ws, f) ==
      match f
      case EvtGone => s.(goneCalls := s.goneCalls + 1)
      case EvtChat(chat) => if chat.foundryUserId != "" && chat.text != "" then s.(chats := s.chats + [chat]) else s
      case Junk => s.(unknown := s.unknown + 1)
      case _ => s
  {
  }

  // ---- calls, timers and ends ----

  /** A request is sent and timed while connected over an open socket, and is refused at once otherwise. */
  lemma RequestExactly(pairingSecret: string, s: State, id: string)
    requires id !in s.issued
    ensures var s' := Step(pairingSecret, s, Request(id));
      if s.socket.Some? && s.socket.value in s.open
      then s' == s.(issued := s.issued + {id}, pending := s.pending + [Pending(id, s.socket.value)], timers := s.timers + {id})
      else s' == s.(issued := s.issued + {id}, settled := s.settled + [Settlement(id, Rejected("timeout"))])
  {
  }

  /** A request that times out is rejected as such, alone. */
  lemma TimeoutExactly(pairingSecret: string, s: State, id: string)
    requires id in s.timers
    ensures var s' := Step(pairingSecret, s, RequestTimer(id));
      && s' == s.(pending := s'.pending, timers := s.timers - {id}, settled := s.settled + [Settlement(id, Rejected("timeout"))])
      && forall p :: p in s'.pending <==> p in s.pending && p.id != id
  {
    hide Without;
    WithoutExactly(s.pending, id);
  }

  /**
   * The connected socket's close and the gateway's own reject what is pending, in order, as gone and as closed; the close
   * announces the departure, and any other socket's close does nothing.
   */
  lemma EndExactly(pairingSecret: string, s: State, e: Event)
    requires e.SocketClosed? || e.CloseGateway?
    ensures var s' := Step(pairingSecret, s, e);
      var code := if e.CloseGateway? then "closed" else "gone";
      if e.SocketClosed? && s.socket != Some(e.ws) then s' == s.(open := s.open - {e.ws})
      else
        && |s'.settled| == |s.settled| + |s.pending| && s'.settled[..|s.settled|] == s.settled
        && (forall i :: 0 <= i < |s.pending| ==> s'.settled[|s.settled| + i] == Settlement(s.pending[i].id, Rejected(code)))
        && s' == s.(settled := s'.settled, pending := [], timers := {}, socket := None, hello := None,
                    open := if s.socket.Some? then s.open - {s.socket.value} else s.open,
                    goneCalls := s.goneCalls + (if e.SocketClosed? then 1 else 0))
  {
    hide RejectAll;
    RejectionsAt(s.pending, if e.CloseGateway? then "closed" else "gone");
  }

  /** A caller is told the hello at once when it is known, and is timed otherwise; a timer answers its own caller alone. */
  lemma WaitingExactly(pairingSecret: string, s: State)
    ensures var s' := Step(pairingSecret, s, WaitForHello);
      if s.hello.Some? then s' == s.(asked := s.asked + 1, answered := s.answered + [Waiting(s.asked, Connected(s.hello.value))])
      else s' == s.(asked := s.asked + 1, waiters := s.waiters + [s.asked], waitTimers := s.waitTimers + {s.asked})
    ensures forall w :: w in s.waitTimers ==>
      var s' := Step(pairingSecret, s, WaitTimer(w));
      && s' == s.(waiters := s'.waiters, waitTimers := s.waitTimers - {w}, answered := s.answered + [Waiting(w, TimedOut)])
      && forall x :: x in s'.waiters <==> x in s.waiters && x != w
  {
    hide WithoutWaiter;
    forall w: nat ensures forall x :: x in WithoutWaiter(s.waiters, w) <==> x in s.waiters && x != w {
      OthersWait(s.waiters, w);
    }
  }

  lemma {:induction false} OthersWait(waiters: seq<nat>, w: nat)
    ensures forall x :: x in WithoutWaiter(waiters, w) <==> x in waiters && x != w
    decreases |waiters|
  {
    if |waiters| > 0 {
      OthersWait(waiters[1..], w);
      assert forall x :: x in waiters <==> x == waiters[0] || x in waiters[1..];
    }
  }
}
