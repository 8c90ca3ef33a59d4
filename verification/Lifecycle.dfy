/** The Foundry-down lifecycle controller (orchestrator/src/sessions/lifecycle.ts). */
module Lifecycle {
  import opened Options
  import opened Tables
  import opened SerialWriter

  datatype Cause = AddonGone | EmitFailure | HeartbeatFailure

  /** `since` stands for the ISO string of that millisecond. */
  datatype Phase = Active | PausedFoundryDown(since: int, cause: Cause, lastError: string)

  datatype AuditRow = SessionPaused(cause: Cause, lastError: string) | SessionResumed(duration: int, buffered: nat)

  datatype Outcome = PreflightOk | WarningsOnly | CriticalGaps | Threw

  datatype ResumeResult = Resumed | PreflightFailed | AlreadyActive | Rejected

  datatype Limits = Limits(emitThreshold: int, windowMs: int, heartbeatThreshold: int)

  const DEFAULTS: Limits := Limits(3, 30_000, 2)

  datatype Skip = Skip(surface: string, episode: nat)

  /** `durations` holds the paused duration each resume request computed before its preflight. */
  datatype State = State(phase: Phase, times: seq<int>, heartbeats: nat, pausedAt: int, skipped: map<string, int>,
                         serializer: Chain, durations: map<nat, int>, results: map<nat, ResumeResult>,
                         audit: seq<AuditRow>, skips: seq<Skip>)

  const INITIAL: State := State(Active, [], 0, 0, map[], IDLE, map[], map[], [], [])

  datatype Event =
    | ReportAddonGone(at: int, error: string)
    | ReportEmitFailure(at: int, pausedAt: int, error: string)
    | ReportEmitSuccess
    | ReportHeartbeatFailure(at: int, error: string)
    | ReportHeartbeatSuccess
    | NoteEmitSkipped(surface: string)
    | RequestResume
    | EnterResume(ticket: nat, at: int)
    | PreflightSettles(ticket: nat, outcome: Outcome, buffered: nat)
    | LockTick(tick: Tick)

  function Episode(s: State): nat
  {
    |s.audit| / 2
  }

  function Pause(s: State, cause: Cause, error: string, at: int): State
  {
    if !s.phase.Active? then s
    else s.(phase := PausedFoundryDown(at, cause, error), pausedAt := at, audit := s.audit + [SessionPaused(cause, error)])
  }

  function Within(now: int, window: int): int -> bool
  {
    (t: int) => now - t <= window
  }

  function Answer(s: State, ticket: nat, result: ResumeResult): State
    requires Enabled(s.serializer, Settle(ticket))
  {
    s.(serializer := Next(s.serializer, Settle(ticket)), results := s.results[ticket := result])
  }

  /** Lock steps that belong to the promise chain itself, not to the section's body. */
  predicate ChainOnly(t: Tick)
  {
    t.Release? || t.Leave?
  }

  predicate CanHappen(s: State, e: Event)
  {
    match e
    case EnterResume(i, _) => Enabled(s.serializer, Start(i))
    case PreflightSettles(i, _, _) => Enabled(s.serializer, Settle(i)) && i in s.durations
    case LockTick(t) => ChainOnly(t) && Enabled(s.serializer, t)
    case _ => true
  }

  function Step(limits: Limits, s: State, e: Event): State
    requires CanHappen(s, e)
  {
    match e
    case ReportAddonGone(at, error) => Pause(s, AddonGone, error, at)
    case ReportEmitFailure(at, pausedAt, error) =>
      if !s.phase.Active? then s
      else
        var kept := Filter(Within(at, limits.windowMs), s.times + [at]);
        var s' := s.(times := kept);
        if |kept| >= limits.emitThreshold then Pause(s', EmitFailure, error, pausedAt) else s'
    case ReportEmitSuccess => s.(times := [])
    case ReportHeartbeatFailure(at, error) =>
      if !s.phase.Active? then s
      else
        var s' := s.(heartbeats := s.heartbeats + 1);
        if s'.heartbeats >= limits.heartbeatThreshold then Pause(s', HeartbeatFailure, error, at) else s'
    case ReportHeartbeatSuccess => s.(heartbeats := 0)
    case NoteEmitSkipped(surface) =>
      if s.phase.Active? || (surface in s.skipped && s.skipped[surface] == s.phase.since) then s
      else s.(skipped := s.skipped[surface := s.phase.since], skips := s.skips + [Skip(surface, Episode(s))])
    case RequestResume => s.(serializer := Next(s.serializer, Acquire))
    case EnterResume(i, at) =>
      var s' := s.(serializer := Next(s.serializer, Start(i)));
      if s.phase.Active? then Answer(s', i, AlreadyActive) else s'.(durations := s.durations[i := at - s.pausedAt])
    case PreflightSettles(i, outcome, buffered) =>
      if outcome == Threw then Answer(s, i, Rejected)
      else if outcome == CriticalGaps then Answer(s, i, PreflightFailed)
      else
        Answer(s.(phase := Active, times := [], heartbeats := 0, audit := s.audit + [SessionResumed(s.durations[i], buffered)]), i, Resumed)
    case LockTick(t) => s.(serializer := Next(s.serializer, t))
  }

  // ---- runs, newest event last ----

  predicate Runs(limits: Limits, es: seq<Event>)
    decreases |es|, 0
  {
    |es| == 0 ||
    (Runs(limits, es[..|es| - 1]) && CanHappen(After(limits, es[..|es| - 1]), es[|es| - 1]))
  }

  function After(limits: Limits, es: seq<Event>): State
    requires Runs(limits, es)
    decreases |es|
  {
    if |es| == 0 then INITIAL else Step(limits, After(limits, es[..|es| - 1]), es[|es| - 1])
  }

  // ---- the resume protocol ----

  /** Sections inside their body are waiting for a preflight, and then the session is paused. */
  ghost predicate Guarded(s: State)
  {
    forall i :: 0 <= i < |s.serializer.sections| && s.serializer.sections[i] == Running ==>
      s.phase.PausedFoundryDown? && i in s.durations
  }

  ghost predicate Alternates(s: State)
  {
    && (forall k :: 0 <= k < |s.audit| ==> (s.audit[k].SessionPaused? <==> k % 2 == 0))
    && (s.phase.Active? <==> |s.audit| % 2 == 0)
    && (s.phase.PausedFoundryDown? ==>
          s.pausedAt == s.phase.since && s.audit[|s.audit| - 1] == SessionPaused(s.phase.cause, s.phase.lastError))
  }

  ghost function OkIn(results: map<nat, ResumeResult>): set<nat>
  {
    set i | i in results && results[i] == Resumed
  }

  /** The requests answered `ok`. */
  ghost function OkTickets(s: State): set<nat>
  {
    OkIn(s.results)
  }

  /** The requests that have left their body are the ones with an answer. */
  ghost predicate EachAnswered(s: State)
  {
    forall i: nat :: i in s.results <==>
      i < |s.serializer.sections| && s.serializer.sections[i] != Queued && s.serializer.sections[i] != Running
  }

  ghost predicate Answered(s: State)
  {
    EachAnswered(s) && |OkTickets(s)| == |s.audit| / 2
  }

  ghost predicate Healthy(s: State)
  {
    Sound(s.serializer) && Guarded(s) && Alternates(s) && Answered(s)
  }

  lemma OnlyRunner(c: Chain, i: nat)
    requires Sound(c) && i < |c.sections| && c.sections[i] == Running
    ensures forall j :: 0 <= j < |c.sections| && c.sections[j] == Running ==> j == i
  {
  }

  lemma NewOk(s: State, ticket: nat, result: ResumeResult)
    requires EachAnswered(s) && Enabled(s.serializer, Settle(ticket))
    ensures |OkTickets(Answer(s, ticket, result))| == |OkTickets(s)| + (if result == Resumed then 1 else 0)
    ensures EachAnswered(Answer(s, ticket, result))
  {
    assert ticket !in s.results;
    NowAnswered(s, ticket, result);
    hide EachAnswered, Answer;
    OneMoreOk(s.results, ticket, result);
    assert Answer(s, ticket, result).results == s.results[ticket := result] by { AnswerResults(s, ticket, result); }
  }

  lemma AnswerResults(s: State, ticket: nat, result: ResumeResult)
    requires Enabled(s.serializer, Settle(ticket))
    ensures Answer(s, ticket, result).results == s.results[ticket := result]
  {
  }

  lemma OneMoreOk(results: map<nat, ResumeResult>, ticket: nat, result: ResumeResult)
    requires ticket !in results
    ensures |OkIn(results[ticket := result])| == |OkIn(results)| + (if result == Resumed then 1 else 0)
  {
    if result == Resumed {
      assert OkIn(results[ticket := result]) == OkIn(results) + {ticket};
    } else {
      assert OkIn(results[ticket := result]) == OkIn(results);
    }
  }

  lemma NowAnswered(s: State, ticket: nat, result: ResumeResult)
    requires EachAnswered(s) && Enabled(s.serializer, Settle(ticket))
    ensures EachAnswered(Answer(s, ticket, result))
  {
  }

  lemma StepHealthy(limits: Limits, s: State, e: Event)
    requires Healthy(s) && CanHappen(s, e)
    ensures Healthy(Step(limits, s, e))
  {
    hide Healthy, Filter;
    match e
    case RequestResume => ChainHealthy(s, Acquire);
    case EnterResume(i, at) => EnterHealthy(limits, s, i, at);
    case PreflightSettles(i, outcome, buffered) => PreflightHealthy(limits, s, i, outcome, buffered);
    case LockTick(t) => ChainHealthy(s, t);
    case ReportAddonGone(at, error) => PauseHealthy(s, AddonGone, error, at);
    case ReportEmitFailure(at, pausedAt, error) =>
      if s.phase.Active? {
        var s' := s.(times := Filter(Within(at, limits.windowMs), s.times + [at]));
        BystanderHealthy(s, s');
        PauseHealthy(s', EmitFailure, error, pausedAt);
      }
    case ReportHeartbeatFailure(at, error) =>
      var s' := s.(heartbeats := s.heartbeats + 1);
      BystanderHealthy(s, s');
      PauseHealthy(s', HeartbeatFailure, error, at);
    case _ => BystanderHealthy(s, Step(limits, s, e));
  }

  /** Detector counters and skip notes play no part in the protocol. */
  lemma BystanderHealthy(s: State, s': State)
    requires Healthy(s)
    requires s'.phase == s.phase && s'.pausedAt == s.pausedAt && s'.audit == s.audit
    requires s'.serializer == s.serializer && s'.results == s.results && s'.durations == s.durations
    ensures Healthy(s')
  {
    hide Sound;
    SameResults(s, s');
  }

  lemma PauseHealthy(s: State, cause: Cause, error: string, at: int)
    requires Healthy(s)
    ensures Healthy(Pause(s, cause, error, at))
  {
    hide Sound;
    SameResults(s, Pause(s, cause, error, at));
  }

  lemma ChainHealthy(s: State, t: Tick)
    requires Healthy(s) && Enabled(s.serializer, t) && (t == Acquire || ChainOnly(t))
    ensures Healthy(s.(serializer := Next(s.serializer, t)))
  {
    hide Sound, OkTickets;
    NextSound(s.serializer, t);
    SameResults(s, s.(serializer := Next(s.serializer, t)));
  }

  lemma EnterHealthy(limits: Limits, s: State, i: nat, at: int)
    requires Healthy(s) && Enabled(s.serializer, Start(i))
    ensures Healthy(Step(limits, s, EnterResume(i, at)))
  {
    hide Sound, OkTickets;
    NextSound(s.serializer, Start(i));
    if s.phase.Active? { EnterActive(s, i); } else { EnterPaused(s, i, at); }
  }

  lemma EnterActive(s: State, i: nat)
    requires Healthy(s) && s.phase.Active? && Enabled(s.serializer, Start(i))
    ensures Healthy(Answer(s.(serializer := Next(s.serializer, Start(i))), i, AlreadyActive))
  {
    hide Sound, OkTickets;
    var s' := s.(serializer := Next(s.serializer, Start(i)));
    NextSound(s.serializer, Start(i));
    NextSound(s'.serializer, Settle(i));
    SameResults(s, s');
    NewOk(s', i, AlreadyActive);
  }

  lemma EnterPaused(s: State, i: nat, at: int)
    requires Healthy(s) && s.phase.PausedFoundryDown? && Enabled(s.serializer, Start(i))
    ensures Healthy(s.(serializer := Next(s.serializer, Start(i)), durations := s.durations[i := at - s.pausedAt]))
  {
    hide Sound, OkTickets;
    NextSound(s.serializer, Start(i));
    SameResults(s, s.(serializer := Next(s.serializer, Start(i)), durations := s.durations[i := at - s.pausedAt]));
  }

  lemma PreflightHealthy(limits: Limits, s: State, i: nat, outcome: Outcome, buffered: nat)
    requires Healthy(s) && Enabled(s.serializer, Settle(i)) && i in s.durations
    ensures Healthy(Step(limits, s, PreflightSettles(i, outcome, buffered)))
  {
    hide Healthy, Answer;
    if outcome == Threw {
      PreflightStays(s, i, Rejected);
    } else if outcome == CriticalGaps {
      PreflightStays(s, i, PreflightFailed);
    } else {
      PreflightPasses(s, i, buffered);
    }
  }

  lemma PreflightStays(s: State, i: nat, result: ResumeResult)
    requires Healthy(s) && Enabled(s.serializer, Settle(i)) && result != Resumed
    ensures Healthy(Answer(s, i, result))
  {
    hide Sound, OkTickets;
    NextSound(s.serializer, Settle(i));
    NewOk(s, i, result);
  }

  lemma PreflightPasses(s: State, i: nat, buffered: nat)
    requires Healthy(s) && Enabled(s.serializer, Settle(i)) && i in s.durations
    ensures Healthy(Answer(s.(phase := Active, times := [], heartbeats := 0,
                              audit := s.audit + [SessionResumed(s.durations[i], buffered)]), i, Resumed))
  {
    hide Sound, OkTickets;
    var s' := s.(phase := Active, times := [], heartbeats := 0, audit := s.audit + [SessionResumed(s.durations[i], buffered)]);
    NextSound(s.serializer, Settle(i));
    OnlyRunner(s.serializer, i);
    NewOk(s, i, Resumed);
    SameResults(Answer(s', i, Resumed), Answer(s, i, Resumed));
  }

  lemma SameResults(s: State, t: State)
    requires s.results == t.results
    ensures OkTickets(s) == OkTickets(t)
  {
  }

  lemma {:induction false} RunsHealthy(limits: Limits, es: seq<Event>)
    requires Runs(limits, es)
    ensures Healthy(After(limits, es))
    decreases |es|
  {
    if |es| > 0 {
      RunsHealthy(limits, es[..|es| - 1]);
      StepHealthy(limits, After(limits, es[..|es| - 1]), es[|es| - 1]);
    }
  }

  // ---- the controller ----

  class SessionLifecycleController {
    const limits: Limits
    var phase: Phase
    var emitFailureTimes: seq<int>
    var consecutiveHeartbeatFailures: nat
    var pausedAtMs: int
    var skippedEpisodeBySurface: map<string, int>
    var resumeSerializer: Chain
    var pausedDurations: map<nat, int>
    var results: map<nat, ResumeResult>
    var audit: seq<AuditRow>
    var skips: seq<Skip>

    ghost function View(): State
      reads this
    {
      State(phase, emitFailureTimes, consecutiveHeartbeatFailures, pausedAtMs, skippedEpisodeBySurface, resumeSerializer,
            pausedDurations, results, audit, skips)
    }

    constructor (limits: Limits)
      ensures View() == INITIAL && this.limits == limits
    {
      this.limits := limits;
      phase, emitFailureTimes, consecutiveHeartbeatFailures, pausedAtMs := Active, [], 0, 0;
      skippedEpisodeBySurface, resumeSerializer, pausedDurations, results := map[], IDLE, map[], map[];
      audit, skips := [], [];
    }

    method OnAddonGone(at: int, error: string)
      modifies this
      ensures View() == Step(limits, old(View()), ReportAddonGone(at, error))
    {
      BecomePaused(AddonGone, error, at);
    }

    method OnEmitFailure(at: int, pausedAt: int, error: string)
      modifies this
      ensures View() == Step(limits, old(View()), ReportEmitFailure(at, pausedAt, error))
    {
      if !phase.Active? { return; }
      emitFailureTimes := emitFailureTimes + [at];
      emitFailureTimes := Filter(Within(at, limits.windowMs), emitFailureTimes);
      if |emitFailureTimes| >= limits.emitThreshold {
        BecomePaused(EmitFailure, error, pausedAt);
      }
    }

    method OnEmitSuccess()
      modifies this
      ensures View() == Step(limits, old(View()), ReportEmitSuccess)
    {
      emitFailureTimes := [];
    }

    method OnHeartbeatFailure(at: int, error: string)
      modifies this
      ensures View() == Step(limits, old(View()), ReportHeartbeatFailure(at, error))
    {
      if !phase.Active? { return; }
      consecutiveHeartbeatFailures := consecutiveHeartbeatFailures + 1;
      if consecutiveHeartbeatFailures >= limits.heartbeatThreshold {
        BecomePaused(HeartbeatFailure, error, at);
      }
    }

    method OnHeartbeatSuccess()
      modifies this
      ensures View() == Step(limits, old(View()), ReportHeartbeatSuccess)
    {
      consecutiveHeartbeatFailures := 0;
    }

    method OnEmitSkipped(surface: string)
      modifies this
      ensures View() == Step(limits, old(View()), NoteEmitSkipped(surface))
    {
      if phase.Active? { return; }
      if surface in skippedEpisodeBySurface && skippedEpisodeBySurface[surface] == phase.since { return; }
      skippedEpisodeBySurface := skippedEpisodeBySurface[surface := phase.since];
      skips := skips + [Skip(surface, |audit| / 2)];
    }

    method BeginResume() returns (ticket: nat)
      modifies this
      ensures View() == Step(limits, old(View()), RequestResume) && ticket == old(|resumeSerializer.sections|)
    {
      ticket := |resumeSerializer.sections|;
      resumeSerializer := Next(resumeSerializer, Acquire);
    }

    /** The section up to its await. */
    method ResumeEnters(ticket: nat, at: int)
      requires CanHappen(View(), EnterResume(ticket, at))
      modifies this
      ensures View() == Step(limits, old(View()), EnterResume(ticket, at))
    {
      resumeSerializer := Next(resumeSerializer, Start(ticket));
      if phase.Active? {
        resumeSerializer := Next(resumeSerializer, Settle(ticket));
        results := results[ticket := AlreadyActive];
        return;
      }
      pausedDurations := pausedDurations[ticket := at - pausedAtMs];
    }

    /** The section from its await to its result. */
    method ResumeConcludes(ticket: nat, outcome: Outcome, buffered: nat)
      requires CanHappen(View(), PreflightSettles(ticket, outcome, buffered))
      modifies this
      ensures View() == Step(limits, old(View()), PreflightSettles(ticket, outcome, buffered))
    {
      resumeSerializer := Next(resumeSerializer, Settle(ticket));
      if outcome == Threw {
        results := results[ticket := Rejected];
        return;
      }
      if outcome == CriticalGaps {
        results := results[ticket := PreflightFailed];
        return;
      }
      phase := Active;
      emitFailureTimes := [];
      consecutiveHeartbeatFailures := 0;
      audit := audit + [SessionResumed(pausedDurations[ticket], buffered)];
      results := results[ticket := Resumed];
    }

    method BecomePaused(cause: Cause, lastError: string, at: int)
      modifies this
      ensures View() == Pause(old(View()), cause, lastError, at)
    {
      if !phase.Active? { return; }
      pausedAtMs := at;
      phase := PausedFoundryDown(at, cause, lastError);
      audit := audit + [SessionPaused(cause, lastError)];
    }
  }
}
