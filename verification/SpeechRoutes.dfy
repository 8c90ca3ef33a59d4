/** Which place an utterance goes to, and what each lull, decision and resume does (orchestrator/src/always_listening_session.ts). */
module SpeechRoutes {
  import opened Options
  import opened Tables
  import opened Speech

  // ---- what the events so far say ----

  /** How many utterances were heard. */
  function Heard(es: seq<Event>): nat
  {
    if |es| == 0 then 0 else Heard(es[..|es| - 1]) + (if es[|es| - 1].Hear? then 1 else 0)
  }

  /** The speakers the last presence report blocked. */
  function LastBlocked(es: seq<Event>): set<string>
  {
    if |es| == 0 then {}
    else if es[|es| - 1].Presence? then es[|es| - 1].blocked
    else LastBlocked(es[..|es| - 1])
  }

  /** The last phase event was a pause. */
  predicate LastPaused(es: seq<Event>)
  {
    |es| > 0 && (es[|es| - 1].SessionPauses? || (!es[|es| - 1].SessionResumes? && LastPaused(es[..|es| - 1])))
  }

  lemma {:induction false} RunsSplit(maxSize: nat, s: State, es: seq<Event>, j: nat)
    requires Runs(maxSize, s, es) && j <= |es|
    ensures Runs(maxSize, s, es[..j]) && Runs(maxSize, After(maxSize, s, es[..j]), es[j..])
    ensures After(maxSize, After(maxSize, s, es[..j]), es[j..]) == After(maxSize, s, es)
    decreases j
  {
    hide Step, CanHappen;
    if j == 0 {
      assert es[..0] == [] && es[0..] == es;
    } else {
      assert es[..j][0] == es[0] && es[..j][1..] == es[1..][..j - 1] && es[j..] == es[1..][j - 1..];
      RunsSplit(maxSize, Step(maxSize, s, es[0]), es[1..], j - 1);
    }
  }

  lemma AfterOne(maxSize: nat, s: State, e: Event)
    requires CanHappen(s, e)
    ensures Runs(maxSize, s, [e]) && After(maxSize, s, [e]) == Step(maxSize, s, e)
  {
    hide Step, CanHappen;
    assert [e][1..] == [];
  }

  /** The session's own record of who is blocked, whether it is paused and how much it heard. */
  lemma {:induction false} Remembered(maxSize: nat, es: seq<Event>)
    requires Runs(maxSize, QUIET, es)
    ensures var s := After(maxSize, QUIET, es);
      s.blocked == LastBlocked(es) && (s.active <==> !LastPaused(es)) && |s.routes| == Heard(es)
    decreases |es|
  {
    if |es| > 0 {
      var n := |es| - 1;
      RunsSplit(maxSize, QUIET, es, n);
      assert es[n..] == [es[n]];
      AfterOne(maxSize, After(maxSize, QUIET, es[..n]), es[n]);
      Remembered(maxSize, es[..n]);
    }
  }

  lemma {:induction false} RoutesKept(maxSize: nat, s: State, es: seq<Event>)
    requires Runs(maxSize, s, es)
    ensures s.routes <= After(maxSize, s, es).routes
    decreases |es|
  {
    if |es| > 0 {
      assert s.routes <= Step(maxSize, s, es[0]).routes;
      hide Step;
      RoutesKept(maxSize, Step(maxSize, s, es[0]), es[1..]);
    }
  }

  // ---- the places ----

  ghost predicate Answered(s: State, id: int)
  {
    id in s.buffer || id in Consumed(s.turns)
  }

  ghost predicate HeldBack(s: State, id: int)
  {
    id in s.dropped || id in s.paused || id in s.drainQueue || id in Replayed(s.turns)
  }

  lemma QuietRuns(maxSize: nat, es: seq<Event>)
    requires Runs(maxSize, QUIET, es)
    ensures Sound(maxSize, After(maxSize, QUIET, es))
  {
    RunsSound(maxSize, QUIET, es);
  }

  lemma PlacesExactly(s: State, id: nat)
    requires Conserved(s) && id < |s.routes|
    ensures id in s.unmapped <==> s.routes[id] == Unmapped
    ensures Answered(s, id) <==> s.routes[id] == Table
    ensures HeldBack(s, id) <==> s.routes[id] == WhilePaused
  {
    hide Arrivals, Consumed, Replayed, Filter, Ascending;
    ArrivalsMembers(s.routes, Unmapped, id);
    ArrivalsMembers(s.routes, Table, id);
    ArrivalsMembers(s.routes, WhilePaused, id);
    assert id in Consumed(s.turns) + s.buffer <==> Answered(s, id);
    var held := Replayed(s.turns) + s.drainQueue + s.paused;
    assert id in held <==> id in s.paused || id in s.drainQueue || id in Replayed(s.turns);
    assert id in held <==> id in Arrivals(s.routes, WhilePaused) && id !in s.dropped by {
      assert NotIn(s.dropped)(id) <==> id !in s.dropped;
    }
  }

  /**
   * The utterance heard at event `j` is forever in one place: recorded as unmapped exactly when the last presence report
   * blocked its speaker; otherwise held, replayed or dropped exactly when the last phase event was a pause; otherwise in
   * the buffer or taken by a live turn.
   */
  lemma WhereSpeechGoes(maxSize: nat, es: seq<Event>, j: nat)
    requires Runs(maxSize, QUIET, es) && j < |es| && es[j].Hear?
    ensures var s, id := After(maxSize, QUIET, es), Heard(es[..j]);
      var blocked, paused := es[j].utterance.speaker in LastBlocked(es[..j]), LastPaused(es[..j]);
      && (id in s.unmapped <==> blocked)
      && (HeldBack(s, id) <==> !blocked && paused)
      && (Answered(s, id) <==> !blocked && !paused)
  {
    hide Conserved, Answered, HeldBack;
    RunsSplit(maxSize, QUIET, es, j);
    var id, before := Heard(es[..j]), After(maxSize, QUIET, es[..j]);
    Remembered(maxSize, es[..j]);
    assert es[j..][0] == es[j];
    var rest := es[j..][1..];
    RoutesKept(maxSize, Step(maxSize, before, es[j]), rest);
    QuietRuns(maxSize, es);
    PlacesExactly(After(maxSize, QUIET, es), id);
  }

  // ---- nothing is held while the session is active, and the bound drops only what it must ----

  /** Fragments are held only during a pause: a resume hands all of them over for replay. */
  lemma {:induction false} HeldOnlyWhilePaused(maxSize: nat, s: State, es: seq<Event>)
    requires Runs(maxSize, s, es) && (s.active ==> s.paused == [])
    ensures After(maxSize, s, es).active ==> After(maxSize, s, es).paused == []
    decreases |es|
  {
    if |es| > 0 {
      var s' := Step(maxSize, s, es[0]);
      assert s'.active ==> s'.paused == [];
      hide Step;
      HeldOnlyWhilePaused(maxSize, s', es[1..]);
    }
  }

  /** A resume queues everything held behind what is still to be replayed, and drops nothing. */
  lemma ResumeQueues(maxSize: nat, s: State)
    requires !s.active
    ensures var s' := Step(maxSize, s, SessionResumes);
      s'.active && s'.drainQueue == s.drainQueue + s.paused && s'.dropped == s.dropped && s'.turns == s.turns
  {
  }

  /** Below the bound nothing is dropped; at the bound exactly the oldest fragment is. */
  lemma HoldExactly(maxSize: nat, es: seq<Event>, u: Utterance)
    requires Runs(maxSize, QUIET, es) && LastPaused(es) && u.speaker !in LastBlocked(es)
    requires After(maxSize, QUIET, es).loop.Listening?
    ensures var s := After(maxSize, QUIET, es);
      var s', all := Step(maxSize, s, Hear(u)), s.paused + [Heard(es)];
      if |s.paused| < maxSize then s'.dropped == s.dropped && s'.paused == all
      else s'.dropped == s.dropped + [all[0]] && s'.paused == all[1..]
  {
    hide Conserved;
    Remembered(maxSize, es);
    QuietRuns(maxSize, es);
    var s := After(maxSize, QUIET, es);
    var all := s.paused + [Heard(es)];
    assert all[..0] == [] && all[0..] == all && s.dropped + [] == s.dropped && all[..1] == [all[0]];
  }

  // ---- lulls, decisions and turns ----

  /** Present, not blocked, consenting, without a character and not welcomed before. */
  predicate Newcomer(s: State, e: Event, m: string)
    requires e.Lull?
  {
    m in e.present && m !in s.blocked && m in e.consented && m !in e.mapped && m !in s.greeted
  }

  /**
   * A lull does something only when the session is active and ready. Newcomers are then welcomed in one turn that takes
   * the whole buffer; with none, a nonempty buffer goes to the decision.
   */
  lemma LullExactly(maxSize: nat, s: State, e: Event)
    requires e.Lull? && s.loop.Listening?
    ensures var s' := Step(maxSize, s, e);
      if !s.active || !e.ready then s' == s
      else if exists m :: Newcomer(s, e, m) then
        && s'.loop.Speaking? && (forall m :: m in s'.loop.welcomed <==> Newcomer(s, e, m))
        && s'.turns == s.turns + [Onboard(s'.loop.welcomed, s.buffer)] && s'.buffer == []
        && s'.welcomes == s.welcomes + s'.loop.welcomed
      else if s.buffer != [] then s' == s.(loop := Deciding(s.buffer))
      else s' == s
  {
    var targets := Targets(s, e);
    forall m ensures m in targets <==> Newcomer(s, e, m) {
      assert AwaitsWelcome(s.blocked, e.consented, e.mapped, s.greeted)(m)
        <==> m !in s.blocked && m in e.consented && m !in e.mapped && m !in s.greeted;
    }
    if |targets| > 0 { assert Newcomer(s, e, targets[0]); }
    if m :| Newcomer(s, e, m) { assert m in targets; }
  }

  /** Whatever came between, a decision to respond is one turn over exactly what was judged, and one not to is none. */
  lemma DecisionExactly(maxSize: nat, es: seq<Event>, respond: bool)
    requires Runs(maxSize, QUIET, es) && After(maxSize, QUIET, es).loop.Deciding?
    ensures var s := After(maxSize, QUIET, es);
      var s' := Step(maxSize, s, Decide(respond));
      if respond then s' == s.(loop := Speaking([]), turns := s.turns + [Respond(s.loop.judged, s.loop.judged)], buffer := [])
      else s' == s.(loop := Listening)
  {
    hide Conserved;
    QuietRuns(maxSize, es);
  }

  /** Those greeted are those welcomed in a turn that has ended. */
  ghost predicate GreetedAfterwards(s: State)
  {
    s.greeted !! (set m | m in s.loop.Welcoming()) && ToSet(s.welcomes) == s.greeted + (set m | m in s.loop.Welcoming())
  }

  lemma {:induction false} GreetedExactly(maxSize: nat, s: State, es: seq<Event>)
    requires Runs(maxSize, s, es) && GreetedAfterwards(s)
    ensures GreetedAfterwards(After(maxSize, s, es))
    decreases |es|
  {
    if |es| > 0 {
      GreetedStep(maxSize, s, es[0]);
      hide Step, GreetedAfterwards;
      GreetedExactly(maxSize, Step(maxSize, s, es[0]), es[1..]);
    }
  }

  lemma GreetedStep(maxSize: nat, s: State, e: Event)
    requires CanHappen(s, e) && GreetedAfterwards(s)
    ensures GreetedAfterwards(Step(maxSize, s, e))
  {
  }

  /** A turn that ends puts the loop back to listening, with its newcomers greeted. */
  lemma TurnEndsExactly(maxSize: nat, s: State)
    requires s.loop.Speaking?
    ensures Step(maxSize, s, TurnEnds) == s.(loop := Listening, greeted := s.greeted + (set m | m in s.loop.welcomed))
  {
  }
}
