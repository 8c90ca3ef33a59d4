/** What the lifecycle controller keeps over whole runs of detectors and concurrent resume requests. */
module LifecycleTheorems {
  import opened Options
  import opened Tables
  import opened SerialWriter
  import opened Lifecycle

  /**
   * Pause and resume rows strictly alternate, a request inside its preflight finds the session paused,
   * every request is answered at most once, and one `ok` is given per completed pause episode.
   */
  lemma ResumeProtocol(limits: Limits, es: seq<Event>)
    requires Runs(limits, es)
    ensures var s := After(limits, es);
      && (forall k :: 0 <= k < |s.audit| ==> (s.audit[k].SessionPaused? <==> k % 2 == 0))
      && (s.phase.Active? <==> |s.audit| % 2 == 0)
      && (forall i :: 0 <= i < |s.serializer.sections| && s.serializer.sections[i] == Running ==> s.phase.PausedFoundryDown?)
      && (forall i, j :: 0 <= i < j < |s.serializer.sections| ==>
            !(s.serializer.sections[i] == Running && s.serializer.sections[j] == Running))
      && |OkTickets(s)| == |s.audit| / 2
  {
    RunsHealthy(limits, es);
    var s := After(limits, es);
    forall i | 0 <= i < |s.serializer.sections| && s.serializer.sections[i] == Running
      ensures forall j :: 0 <= j < |s.serializer.sections| && s.serializer.sections[j] == Running ==> j == i
    {
      OnlyRunner(s.serializer, i);
    }
  }

  predicate Activates(e: Event)
  {
    e.PreflightSettles? && (e.outcome == PreflightOk || e.outcome == WarningsOnly)
  }

  /** A preflight that passes always ends the pause it was asked to end, and nothing else ever does. */
  lemma OnlyPreflightActivates(limits: Limits, es: seq<Event>)
    requires Runs(limits, es) && |es| > 0
    ensures var before, after, e := After(limits, es[..|es| - 1]), After(limits, es), es[|es| - 1];
      && (before.phase.PausedFoundryDown? && after.phase.Active? <==> Activates(e))
      && (Activates(e) ==>
            e.ticket !in before.results && e.ticket in after.results && after.results[e.ticket] == Resumed
            && after.audit == before.audit + [SessionResumed(before.durations[e.ticket], e.buffered)])
  {
    hide Sound, Filter;
    RunsHealthy(limits, es[..|es| - 1]);
    var before, e := After(limits, es[..|es| - 1]), es[|es| - 1];
    if e.PreflightSettles? { assert before.serializer.sections[e.ticket] == Running; }
  }

  // ---- the emit-failure detector ----

  /** The emit failures counted in active time since the last emit success or resume. */
  function FailuresSince(limits: Limits, es: seq<Event>): seq<int>
    requires Runs(limits, es)
    decreases |es|
  {
    if |es| == 0 then []
    else
      var init, e := es[..|es| - 1], es[|es| - 1];
      var earlier := FailuresSince(limits, init);
      match e
      case ReportEmitFailure(at, _, _) => if After(limits, init).phase.Active? then earlier + [at] else earlier
      case ReportEmitSuccess => []
      case PreflightSettles(_, _, _) => if Activates(e) then [] else earlier
      case _ => earlier
  }

  /** Every later failure came within the window of failure `i`. */
  ghost predicate Outlives(failures: seq<int>, i: nat, window: int)
    requires i < |failures|
  {
    forall j :: i <= j < |failures| ==> failures[j] - failures[i] <= window
  }

  ghost function Kept(failures: seq<int>, i: nat, window: int): seq<int>
    requires i <= |failures|
    decreases |failures| - i
  {
    if i == |failures| then []
    else (if Outlives(failures, i, window) then [failures[i]] else []) + Kept(failures, i + 1, window)
  }

  lemma OutlivesSnoc(failures: seq<int>, i: nat, window: int, t: int)
    requires i < |failures|
    ensures Outlives(failures + [t], i, window) <==> Outlives(failures, i, window) && t - failures[i] <= window
  {
    var all := failures + [t];
    assert forall j :: 0 <= j < |failures| ==> all[j] == failures[j];
    assert all[|failures|] == t;
    if Outlives(all, i, window) {
      assert forall j :: i <= j < |failures| ==> all[j] - all[i] <= window;
    }
  }

  /** Pruning at each failure keeps exactly the failures that every later one still reaches. */
  lemma {:induction false} PruningIsExact(failures: seq<int>, i: nat, window: int, t: int)
    requires i <= |failures|
    ensures Filter(Within(t, window), Kept(failures, i, window) + [t]) == Kept(failures + [t], i, window)
    decreases |failures| - i
  {
    hide Filter, Outlives;
    var all, keep := failures + [t], Within(t, window);
    if i == |failures| {
      KeptLast(failures, window, t);
      FilterSnoc(keep, [], t);
      NothingKept(window);
      assert [] + [t] == [t];
    } else {
      PruningIsExact(failures, i + 1, window, t);
      OutlivesSnoc(failures, i, window, t);
      var rest := Kept(failures, i + 1, window);
      FilterCons(keep, failures[i], rest + [t]);
      assert [failures[i]] + rest + [t] == [failures[i]] + (rest + [t]);
      assert all[i] == failures[i] && [] + rest == rest && [] + Kept(all, i + 1, window) == Kept(all, i + 1, window);
    }
  }

  lemma KeptLast(failures: seq<int>, window: int, t: int)
    ensures Kept(failures + [t], |failures|, window) == if 0 <= window then [t] else []
    ensures Filter(Within(t, window), []) == [] && Kept(failures, |failures|, window) == []
  {
    var all := failures + [t];
    assert Kept(all, |failures| + 1, window) == [];
  }

  ghost predicate Monotone(times: seq<int>)
  {
    forall i, j :: 0 <= i < j < |times| ==> times[i] <= times[j]
  }

  /** With a monotone clock the survivors are the failures within the window ending at the last one. */
  lemma {:induction false} KeptCountsWindow(failures: seq<int>, i: nat, window: int)
    requires i <= |failures| && |failures| > 0 && Monotone(failures)
    ensures |Kept(failures, i, window)| == Count(Within(failures[|failures| - 1], window), failures[i..])
    decreases |failures| - i
  {
    if i < |failures| {
      KeptCountsWindow(failures, i + 1, window);
      assert failures[i..][1..] == failures[i + 1..];
      assert Outlives(failures, i, window) <==> Within(failures[|failures| - 1], window)(failures[i]);
    }
  }

  lemma {:induction false} TimesAreKept(limits: Limits, es: seq<Event>)
    requires Runs(limits, es)
    ensures After(limits, es).times == Kept(FailuresSince(limits, es), 0, limits.windowMs)
    decreases |es|
  {
    hide Filter, Kept;
    if |es| == 0 {
      NothingKept(limits.windowMs);
    } else {
      var init, e := es[..|es| - 1], es[|es| - 1];
      TimesAreKept(limits, init);
      NothingKept(limits.windowMs);
      if e.ReportEmitFailure? && After(limits, init).phase.Active? {
        PruningIsExact(FailuresSince(limits, init), 0, limits.windowMs, e.at);
      }
    }
  }

  lemma NothingKept(window: int)
    ensures Kept([], 0, window) == []
  {
  }

  /**
   * A failure in active time pauses the session exactly when the failures still reached by all later
   * ones, itself included, number at least the threshold; with a monotone clock these are the
   * failures since the last success or resume that lie within the window ending at it.
   */
  lemma EmitPauseExact(limits: Limits, es: seq<Event>, at: int, pausedAt: int, error: string)
    requires Runs(limits, es) && After(limits, es).phase.Active?
    ensures var failures := FailuresSince(limits, es) + [at];
      && Step(limits, After(limits, es), ReportEmitFailure(at, pausedAt, error)).phase
      == (if |Kept(failures, 0, limits.windowMs)| >= limits.emitThreshold then PausedFoundryDown(pausedAt, EmitFailure, error) else Active)
      && (Monotone(failures) ==> |Kept(failures, 0, limits.windowMs)| == Count(Within(at, limits.windowMs), failures))
  {
    hide Filter, Kept, Count;
    var earlier := FailuresSince(limits, es);
    TimesAreKept(limits, es);
    PruningIsExact(earlier, 0, limits.windowMs, at);
    var failures := earlier + [at];
    if Monotone(failures) {
      KeptCountsWindow(failures, 0, limits.windowMs);
      assert failures[0..] == failures && failures[|failures| - 1] == at;
    }
  }

  function AtLeastOne(n: int): int
  {
    if n < 1 then 1 else n
  }

  /** While active, neither detector has reached its threshold. */
  lemma {:induction false} ActiveIsCalm(limits: Limits, es: seq<Event>)
    requires Runs(limits, es)
    ensures var s := After(limits, es);
      s.phase.Active? ==> |s.times| < AtLeastOne(limits.emitThreshold) && s.heartbeats < AtLeastOne(limits.heartbeatThreshold)
    decreases |es|
  {
    if |es| > 0 {
      hide Step, CanHappen;
      ActiveIsCalm(limits, es[..|es| - 1]);
      StepCalm(limits, After(limits, es[..|es| - 1]), es[|es| - 1]);
    }
  }

  lemma StepCalm(limits: Limits, s: State, e: Event)
    requires CanHappen(s, e)
    requires s.phase.Active? ==> |s.times| < AtLeastOne(limits.emitThreshold) && s.heartbeats < AtLeastOne(limits.heartbeatThreshold)
    ensures var s' := Step(limits, s, e);
      s'.phase.Active? ==> |s'.times| < AtLeastOne(limits.emitThreshold) && s'.heartbeats < AtLeastOne(limits.heartbeatThreshold)
  {
    hide Filter;
  }

  // ---- skipped emits ----

  /** The pause stamp of each episode so far. */
  function Stamps(limits: Limits, es: seq<Event>): seq<int>
    requires Runs(limits, es)
    decreases |es|
  {
    if |es| == 0 then []
    else
      var init := es[..|es| - 1];
      var before, after := After(limits, init), After(limits, es);
      Stamps(limits, init) + NewStamp(before, after)
  }

  /** The episode in which a surface was last reported skipped. */
  function LastReported(skips: seq<Skip>, surface: string): Option<nat>
  {
    if |skips| == 0 then None
    else if skips[|skips| - 1].surface == surface then Some(skips[|skips| - 1].episode)
    else LastReported(skips[..|skips| - 1], surface)
  }

  /** Episodes never go back along the reports. */
  ghost predicate Forward(skips: seq<Skip>)
  {
    forall i, j :: 0 <= i < j < |skips| ==> skips[i].episode <= skips[j].episode
  }

  lemma {:induction false} LastReportedIsLast(skips: seq<Skip>, surface: string, k: nat)
    requires Forward(skips) && k < |skips| && skips[k].surface == surface
    ensures LastReported(skips, surface).Some? && skips[k].episode <= LastReported(skips, surface).value
    decreases |skips|
  {
    var n := |skips| - 1;
    if skips[n].surface != surface { LastReportedIsLast(skips[..n], surface, k); }
  }

  lemma {:induction false} LastReportedFound(skips: seq<Skip>, surface: string) returns (k: nat)
    requires LastReported(skips, surface).Some?
    ensures k < |skips| && skips[k] == Skip(surface, LastReported(skips, surface).value)
    decreases |skips|
  {
    var n := |skips| - 1;
    if skips[n].surface == surface { k := n; } else { k := LastReportedFound(skips[..n], surface); }
  }

  /** What the map remembers of a surface: the stamp of the last episode that reported it. */
  ghost predicate Remembers(s: State, stamps: seq<int>, surface: string)
  {
    && (surface in s.skipped <==> LastReported(s.skips, surface).Some?)
    && (surface in s.skipped ==>
          LastReported(s.skips, surface).value < |stamps| && s.skipped[surface] == stamps[LastReported(s.skips, surface).value])
  }

  ghost predicate Noted(s: State, stamps: seq<int>)
  {
    && |stamps| == (|s.audit| + 1) / 2
    && (s.phase.PausedFoundryDown? ==> Episode(s) < |stamps| && stamps[Episode(s)] == s.phase.since)
    && (forall surface :: Remembers(s, stamps, surface))
    && (forall k :: 0 <= k < |s.skips| ==> s.skips[k].episode < |stamps|)
    && Forward(s.skips) && NoRepeats(s.skips)
  }

  lemma PauseNoted(s: State, stamps: seq<int>, cause: Cause, error: string, at: int)
    requires Alternates(s) && Noted(s, stamps) && s.phase.Active?
    ensures Noted(Pause(s, cause, error, at), stamps + [at])
  {
    var s' := Pause(s, cause, error, at);
    forall surface
      ensures Remembers(s', stamps + [at], surface)
    {
      assert Remembers(s, stamps, surface);
    }
  }

  lemma ResumeNoted(s: State, s': State, stamps: seq<int>)
    requires Alternates(s) && Noted(s, stamps) && s.phase.PausedFoundryDown?
    requires s'.phase.Active? && |s'.audit| == |s.audit| + 1 && s'.skips == s.skips && s'.skipped == s.skipped
    ensures Noted(s', stamps)
  {
    forall surface
      ensures Remembers(s', stamps, surface)
    {
      assert Remembers(s, stamps, surface);
    }
  }

  lemma SameNotes(s: State, s': State, stamps: seq<int>)
    requires Noted(s, stamps)
    requires s'.phase == s.phase && s'.audit == s.audit && s'.skips == s.skips && s'.skipped == s.skipped
    ensures Noted(s', stamps)
  {
    forall surface
      ensures Remembers(s', stamps, surface)
    {
      assert Remembers(s, stamps, surface);
    }
  }

  /** In the current episode a surface is in the reports exactly when the last report of it is of this episode. */
  lemma ReportedNow(s: State, stamps: seq<int>, surface: string)
    requires Alternates(s) && Noted(s, stamps) && s.phase.PausedFoundryDown?
    ensures Skip(surface, Episode(s)) in s.skips <==> LastReported(s.skips, surface) == Some(Episode(s))
  {
    hide LastReported, Remembers;
    var report := Skip(surface, Episode(s));
    if report in s.skips {
      var k: nat :| k < |s.skips| && s.skips[k] == report;
      LastReportedIsLast(s.skips, surface, k);
      var j := LastReportedFound(s.skips, surface);
    }
    if LastReported(s.skips, surface) == Some(Episode(s)) { var k := LastReportedFound(s.skips, surface); }
  }

  lemma OneMoreSkip(skips: seq<Skip>, report: Skip)
    requires Forward(skips) && NoRepeats(skips) && report !in skips
    requires forall k :: 0 <= k < |skips| ==> skips[k].episode <= report.episode
    ensures Forward(skips + [report]) && NoRepeats(skips + [report])
    ensures forall surface :: LastReported(skips + [report], surface)
                           == if surface == report.surface then Some(report.episode) else LastReported(skips, surface)
  {
    assert (skips + [report])[..|skips|] == skips;
  }

  lemma SkipNoted(limits: Limits, s: State, surface: string, stamps: seq<int>)
    requires Alternates(s) && Noted(s, stamps)
    ensures Noted(Step(limits, s, NoteEmitSkipped(surface)), stamps)
  {
    hide Healthy, LastReported, Forward, NoRepeats;
    var s' := Step(limits, s, NoteEmitSkipped(surface));
    if s' != s {
      ReportedNow(s, stamps, surface);
      assert Remembers(s, stamps, surface);
      OneMoreSkip(s.skips, Skip(surface, Episode(s)));
      forall other
        ensures Remembers(s', stamps, other)
      {
        assert Remembers(s, stamps, other);
      }
    }
  }

  /** The stamp a step adds. */
  function NewStamp(s: State, s': State): seq<int>
  {
    if s.phase.Active? && s'.phase.PausedFoundryDown? then [s'.phase.since] else []
  }

  lemma NotesStep(limits: Limits, s: State, e: Event, stamps: seq<int>)
    requires Healthy(s) && Noted(s, stamps) && CanHappen(s, e)
    ensures Noted(Step(limits, s, e), stamps + NewStamp(s, Step(limits, s, e)))
  {
    hide Noted, Sound, Answered, Filter, Alternates;
    assert stamps + [] == stamps;
    var s' := Step(limits, s, e);
    match e
    case NoteEmitSkipped(surface) => SkipNoted(limits, s, surface, stamps);
    case ReportAddonGone(at, error) =>
      if s.phase.Active? { PauseNoted(s, stamps, AddonGone, error, at); } else { SameNotes(s, s', stamps); }
    case ReportEmitFailure(at, pausedAt, error) =>
      var counted := s.(times := Filter(Within(at, limits.windowMs), s.times + [at]));
      CountedNoted(s, counted, s', stamps, EmitFailure, error, pausedAt);
    case ReportHeartbeatFailure(at, error) =>
      CountedNoted(s, s.(heartbeats := s.heartbeats + 1), s', stamps, HeartbeatFailure, error, at);
    case PreflightSettles(i, outcome, buffered) =>
      if Activates(e) { ResumeNoted(s, s', stamps); } else { SameNotes(s, s', stamps); }
    case _ => SameNotes(s, s', stamps);
  }

  lemma CountedNoted(s: State, counted: State, s': State, stamps: seq<int>, cause: Cause, error: string, at: int)
    requires Alternates(s) && Noted(s, stamps)
    requires counted.phase == s.phase && counted.audit == s.audit && counted.skips == s.skips && counted.skipped == s.skipped
    requires counted.pausedAt == s.pausedAt && (s' == s || s' == counted || s' == Pause(counted, cause, error, at))
    ensures Noted(s', stamps + NewStamp(s, s'))
  {
    hide Noted;
    assert stamps + [] == stamps;
    SameNotes(s, counted, stamps);
    if s.phase.Active? { PauseNoted(counted, stamps, cause, error, at); }
  }

  lemma {:induction false} RunsNoted(limits: Limits, es: seq<Event>)
    requires Runs(limits, es)
    ensures Noted(After(limits, es), Stamps(limits, es))
    decreases |es|
  {
    if |es| > 0 {
      hide Noted, Healthy, Step;
      var init := es[..|es| - 1];
      RunsNoted(limits, init);
      RunsHealthy(limits, init);
      NotesStep(limits, After(limits, init), es[|es| - 1], Stamps(limits, init));
    }
  }

  /**
   * A surface is reported skipped at most once per pause episode, and its first skip of an episode is
   * swallowed exactly when the last episode that reported the surface began in the same millisecond.
   */
  lemma SkipsCoalesced(limits: Limits, es: seq<Event>, surface: string)
    requires Runs(limits, es)
    ensures var s, stamps := After(limits, es), Stamps(limits, es);
      var last, report := LastReported(s.skips, surface), Skip(surface, Episode(s));
      && NoRepeats(s.skips)
      && (s.phase.PausedFoundryDown? && report in s.skips ==> Step(limits, s, NoteEmitSkipped(surface)) == s)
      && (s.phase.PausedFoundryDown? && report !in s.skips ==>
            && |stamps| > Episode(s) && (last.Some? ==> last.value < Episode(s))
            && (Step(limits, s, NoteEmitSkipped(surface)).skips == s.skips
                <==> last.Some? && stamps[last.value] == stamps[Episode(s)])
            && (Step(limits, s, NoteEmitSkipped(surface)).skips != s.skips ==>
                  Step(limits, s, NoteEmitSkipped(surface)).skips == s.skips + [report]))
  {
    RunsHealthy(limits, es);
    RunsNoted(limits, es);
    hide Runs, After, Stamps, Step, Healthy, Noted, LastReported;
    HealthyAlternates(After(limits, es));
    SkipDecided(limits, After(limits, es), Stamps(limits, es), surface);
  }

  lemma HealthyAlternates(s: State)
    requires Healthy(s)
    ensures Alternates(s)
  {
  }

  lemma SkipDecided(limits: Limits, s: State, stamps: seq<int>, surface: string)
    requires Alternates(s) && Noted(s, stamps)
    ensures var last, report := LastReported(s.skips, surface), Skip(surface, Episode(s));
      var s' := Step(limits, s, NoteEmitSkipped(surface));
      && NoRepeats(s.skips)
      && (s.phase.PausedFoundryDown? && report in s.skips ==> s' == s)
      && (s.phase.PausedFoundryDown? && report !in s.skips ==>
            && |stamps| > Episode(s) && (last.Some? ==> last.value < Episode(s))
            && (s'.skips == s.skips <==> last.Some? && stamps[last.value] == stamps[Episode(s)])
            && (s'.skips != s.skips ==> s'.skips == s.skips + [report]))
  {
    hide LastReported;
    assert Remembers(s, stamps, surface);
    if s.phase.PausedFoundryDown? {
      ReportedNow(s, stamps, surface);
      if LastReported(s.skips, surface).Some? { var k := LastReportedFound(s.skips, surface); }
    }
  }

  /** Two pauses in one millisecond: the second episode's skip is swallowed. */
  lemma SkipSwallowed(error: string)
    ensures var gone, note := ReportAddonGone(5, error), NoteEmitSkipped("chat");
      var es := [gone, note, RequestResume, EnterResume(0, 5), PreflightSettles(0, PreflightOk, 0), gone];
      && Runs(DEFAULTS, es)
      && After(DEFAULTS, es).phase.PausedFoundryDown?
      && Skip("chat", Episode(After(DEFAULTS, es))) !in After(DEFAULTS, es).skips
      && Step(DEFAULTS, After(DEFAULTS, es), note) == After(DEFAULTS, es)
  {
    var e1 := [ReportAddonGone(5, error)];
    var e2 := e1 + [NoteEmitSkipped("chat")];
    var e3 := e2 + [RequestResume];
    var e4 := e3 + [EnterResume(0, 5)];
    var e5 := e4 + [PreflightSettles(0, PreflightOk, 0)];
    var e6 := e5 + [ReportAddonGone(5, error)];
    FirstEvent(DEFAULTS, e1[0]);
    Appended(DEFAULTS, e1, e2[1]);
    Appended(DEFAULTS, e2, e3[2]);
    Appended(DEFAULTS, e3, e4[3]);
    Appended(DEFAULTS, e4, e5[4]);
    Appended(DEFAULTS, e5, e6[5]);
    assert After(DEFAULTS, e6).skips == [Skip("chat", 0)] && Episode(After(DEFAULTS, e6)) == 1;
    assert e6 == [e1[0], e2[1], e3[2], e4[3], e5[4], e6[5]];
  }

  lemma FirstEvent(limits: Limits, e: Event)
    requires CanHappen(INITIAL, e)
    ensures Runs(limits, [e]) && After(limits, [e]) == Step(limits, INITIAL, e)
  {
    hide Step, CanHappen;
    assert [e][..0] == [];
  }

  lemma Appended(limits: Limits, es: seq<Event>, e: Event)
    requires Runs(limits, es) && CanHappen(After(limits, es), e)
    ensures Runs(limits, es + [e]) && After(limits, es + [e]) == Step(limits, After(limits, es), e)
  {
    hide Step, CanHappen;
    assert (es + [e])[..|es|] == es;
  }
}
