/** What pauses a session and with which cause, and what each resume request is answered (orchestrator/src/sessions/lifecycle.ts). */
module LifecycleCauses {
  import opened Options
  import opened Tables
  import opened SerialWriter
  import opened Lifecycle
  import opened LifecycleTheorems

  /** The heartbeat failures in active time since the last heartbeat success or resume. */
  function HeartbeatsSince(limits: Limits, es: seq<Event>): nat
    requires Runs(limits, es)
    decreases |es|
  {
    if |es| == 0 then 0
    else
      var init, e := es[..|es| - 1], es[|es| - 1];
      var earlier := HeartbeatsSince(limits, init);
      if e.ReportHeartbeatSuccess? || Activates(e) then 0
      else if e.ReportHeartbeatFailure? && After(limits, init).phase.Active? then earlier + 1
      else earlier
  }

  lemma {:induction false} HeartbeatsCounted(limits: Limits, es: seq<Event>)
    requires Runs(limits, es)
    ensures After(limits, es).heartbeats == HeartbeatsSince(limits, es)
    decreases |es|
  {
    hide Filter;
    if |es| > 0 { HeartbeatsCounted(limits, es[..|es| - 1]); }
  }

  /** The cause, stamp and error with which an event pauses an active session, if it does. */
  ghost function PausedBy(limits: Limits, es: seq<Event>, e: Event): Option<Phase>
    requires Runs(limits, es)
  {
    match e
    case ReportAddonGone(at, error) => Some(PausedFoundryDown(at, AddonGone, error))
    case ReportEmitFailure(at, pausedAt, error) =>
      if |Kept(FailuresSince(limits, es) + [at], 0, limits.windowMs)| >= limits.emitThreshold
      then Some(PausedFoundryDown(pausedAt, EmitFailure, error)) else None
    case ReportHeartbeatFailure(at, error) =>
      if HeartbeatsSince(limits, es) + 1 >= limits.heartbeatThreshold
      then Some(PausedFoundryDown(at, HeartbeatFailure, error)) else None
    case _ => None
  }

  /**
   * From an active session exactly three things pause it: the add-on going, the emit failures in reach numbering the
   * threshold, and that many heartbeat failures in a row; each writes one row with its own cause and error.
   */
  lemma PausesExactly(limits: Limits, es: seq<Event>, e: Event)
    requires Runs(limits, es) && CanHappen(After(limits, es), e) && After(limits, es).phase.Active?
    ensures var s, paused := After(limits, es), PausedBy(limits, es, e);
      var s' := Step(limits, s, e);
      && s'.phase == (if paused.Some? then paused.value else Active)
      && s'.audit == s.audit + (if paused.Some? then [SessionPaused(paused.value.cause, paused.value.lastError)] else [])
  {
    hide Filter, Kept, Sound;
    var s := After(limits, es);
    RunsHealthy(limits, es);
    HeartbeatsCounted(limits, es);
    assert s.audit + [] == s.audit;
    match e
    case ReportEmitFailure(at, pausedAt, error) => EmitPauseExact(limits, es, at, pausedAt, error);
    case PreflightSettles(i, _, _) => NoPreflightWhileActive(s, i);
    case _ =>
  }

  /** With the default limits: the third emit failure within thirty seconds, and the second heartbeat failure in a row. */
  lemma DefaultsPause(es: seq<Event>, at: int, pausedAt: int, error: string)
    requires Runs(DEFAULTS, es) && After(DEFAULTS, es).phase.Active?
    ensures var s := After(DEFAULTS, es);
      && (Step(DEFAULTS, s, ReportHeartbeatFailure(at, error)).phase != Active <==> HeartbeatsSince(DEFAULTS, es) >= 1)
      && var failures := FailuresSince(DEFAULTS, es) + [at];
         Monotone(failures) ==>
           (Step(DEFAULTS, s, ReportEmitFailure(at, pausedAt, error)).phase != Active <==> Count(Within(at, 30_000), failures) >= 3)
  {
    hide Filter, Kept, Step, Count;
    PausesExactly(DEFAULTS, es, ReportHeartbeatFailure(at, error));
    EmitPauseExact(DEFAULTS, es, at, pausedAt, error);
  }

  lemma NoPreflightWhileActive(s: State, i: nat)
    requires Healthy(s) && s.phase.Active?
    ensures !Enabled(s.serializer, Settle(i))
  {
    hide Sound;
  }

  /** While paused every report is absorbed: cause, stamp, error and rows stay those of the first one. */
  lemma PausedAbsorbs(limits: Limits, s: State, e: Event)
    requires CanHappen(s, e) && s.phase.PausedFoundryDown? && !Activates(e)
    ensures Step(limits, s, e).phase == s.phase && Step(limits, s, e).audit == s.audit
  {
    hide Filter;
  }

  // ---- what resume requests are answered ----

  /** A request finds the session active and is told so, or measures the pause it asks to end and awaits its preflight. */
  lemma EnteringExactly(limits: Limits, es: seq<Event>, i: nat, at: int)
    requires Runs(limits, es) && CanHappen(After(limits, es), EnterResume(i, at))
    ensures var s := After(limits, es);
      var s' := Step(limits, s, EnterResume(i, at));
      && s'.phase == s.phase && s'.audit == s.audit
      && if s.phase.Active? then s'.results == s.results[i := AlreadyActive]
         else s'.results == s.results && s'.durations == s.durations[i := at - s.phase.since]
  {
    hide Sound, Runs, After, Step;
    RunsHealthy(limits, es);
    EnterFrom(limits, After(limits, es), i, at);
  }

  lemma EnterFrom(limits: Limits, s: State, i: nat, at: int)
    requires Alternates(s) && CanHappen(s, EnterResume(i, at))
    ensures var s' := Step(limits, s, EnterResume(i, at));
      && s'.phase == s.phase && s'.audit == s.audit
      && if s.phase.Active? then s'.results == s.results[i := AlreadyActive]
         else s'.results == s.results && s'.durations == s.durations[i := at - s.phase.since]
  {
  }

  /** A preflight that throws is passed on, one that finds critical gaps fails, and any other resumes the session. */
  lemma ConcludingExactly(limits: Limits, s: State, i: nat, outcome: Outcome, buffered: nat)
    requires CanHappen(s, PreflightSettles(i, outcome, buffered))
    ensures var s' := Step(limits, s, PreflightSettles(i, outcome, buffered));
      match outcome
      case Threw => s'.results == s.results[i := Rejected] && s'.phase == s.phase && s'.audit == s.audit
      case CriticalGaps => s'.results == s.results[i := PreflightFailed] && s'.phase == s.phase && s'.audit == s.audit
      case _ =>
        && s'.results == s.results[i := Resumed] && s'.phase == Active && s'.times == [] && s'.heartbeats == 0
        && s'.audit == s.audit + [SessionResumed(s.durations[i], buffered)]
  {
  }

  // ---- the duration a resume reports ----

  /** When request `i` entered its section. */
  function EnteredAt(es: seq<Event>, i: nat): Option<int>
  {
    if |es| == 0 then None
    else
      var e := es[|es| - 1];
      if e.EnterResume? && e.ticket == i then Some(e.at) else EnteredAt(es[..|es| - 1], i)
  }

  /** A request inside its preflight has measured from the pause now on to its own entry. */
  ghost predicate Timed(s: State, es: seq<Event>)
  {
    forall i: nat :: i < |s.serializer.sections| && s.serializer.sections[i] == Running ==>
      && s.phase.PausedFoundryDown? && i in s.durations
      && EnteredAt(es, i) == Some(s.durations[i] + s.phase.since)
  }

  lemma StillTimed(s: State, s': State, es: seq<Event>, e: Event)
    requires Timed(s, es) && (s.phase.PausedFoundryDown? ==> s'.phase == s.phase) && s'.durations == s.durations && !e.EnterResume?
    requires forall i: nat :: i < |s'.serializer.sections| && s'.serializer.sections[i] == Running ==>
      i < |s.serializer.sections| && s.serializer.sections[i] == Running
    ensures Timed(s', es + [e])
  {
    assert (es + [e])[..|es|] == es;
  }

  lemma StepTimed(limits: Limits, s: State, es: seq<Event>, e: Event)
    requires Healthy(s) && Timed(s, es) && CanHappen(s, e)
    ensures Timed(Step(limits, s, e), es + [e])
  {
    hide Filter, Sound, OkTickets, EachAnswered, EnteredAt;
    var s' := Step(limits, s, e);
    match e
    case EnterResume(i, at) => EnterTimed(limits, s, es, i, at);
    case PreflightSettles(i, _, _) =>
      if Activates(e) { LastRunnerLeaves(limits, s, es, e); } else { StillTimed(s, s', es, e); }
    case _ => StillTimed(s, s', es, e);
  }

  lemma EnterTimed(limits: Limits, s: State, es: seq<Event>, i: nat, at: int)
    requires Healthy(s) && Timed(s, es) && CanHappen(s, EnterResume(i, at))
    ensures Timed(Step(limits, s, EnterResume(i, at)), es + [EnterResume(i, at)])
  {
    hide OkTickets, EachAnswered, Sound;
    var e := EnterResume(i, at);
    assert (es + [e])[..|es|] == es;
    NextSound(s.serializer, Start(i));
    OnlyRunner(Next(s.serializer, Start(i)), i);
  }

  lemma LastRunnerLeaves(limits: Limits, s: State, es: seq<Event>, e: Event)
    requires Healthy(s) && CanHappen(s, e) && Activates(e)
    ensures Timed(Step(limits, s, e), es + [e])
  {
    OnlyRunner(s.serializer, e.ticket);
  }

  lemma {:induction false} RunsTimed(limits: Limits, es: seq<Event>)
    requires Runs(limits, es)
    ensures Timed(After(limits, es), es)
    decreases |es|
  {
    if |es| > 0 {
      hide Step, CanHappen, Timed, Healthy;
      var n := |es| - 1;
      RunsTimed(limits, es[..n]);
      RunsHealthy(limits, es[..n]);
      StepTimed(limits, After(limits, es[..n]), es[..n], es[n]);
      assert es[..n] + [es[n]] == es;
    } else {
      NothingTimed();
    }
  }

  lemma NothingTimed()
    ensures Timed(INITIAL, [])
  {
  }

  lemma RunnerTimed(s: State, es: seq<Event>, i: nat)
    requires Timed(s, es) && Enabled(s.serializer, Settle(i))
    ensures s.phase.PausedFoundryDown? && i in s.durations && EnteredAt(es, i) == Some(s.durations[i] + s.phase.since)
  {
  }

  /** The duration in a resume row is the time from the pause it ends to the entry of the request that ended it. */
  lemma DurationExactly(limits: Limits, es: seq<Event>, e: Event)
    requires Runs(limits, es) && CanHappen(After(limits, es), e) && Activates(e)
    ensures var s := After(limits, es);
      var entered := EnteredAt(es, e.ticket);
      && s.phase.PausedFoundryDown? && entered.Some?
      && Step(limits, s, e).audit == s.audit + [SessionResumed(entered.value - s.phase.since, e.buffered)]
  {
    hide EnteredAt, Timed, Runs, After, Enabled, Next;
    RunsTimed(limits, es);
    RunnerTimed(After(limits, es), es, e.ticket);
  }
}
