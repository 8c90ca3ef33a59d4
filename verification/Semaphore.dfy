/** The side-channel turn semaphore (orchestrator/src/side_channel/coordinator.ts, acquire and release). */
module Semaphore {
  import opened Tables

  /**
   * `woken` are the waiters whose promise is resolved but whose `acquire` has not resumed; `barged`
   * counts the permits granted while some waiter was in that gap.
   */
  datatype State = State(inFlight: int, waiters: seq<nat>, woken: seq<nat>, holders: set<nat>, asked: nat, queued: seq<nat>,
                         wakes: seq<nat>, barged: nat)

  const FREE: State := State(0, [], [], {}, 0, [], [], 0)

  datatype Event = Acquire | Resume | Release(id: nat)

  /** Resolved promises resume in the order they were resolved. */
  predicate CanHappen(s: State, e: Event)
  {
    match e
    case Acquire => true
    case Resume => |s.woken| > 0
    case Release(id) => id in s.holders
  }

  function Step(max: int, s: State, e: Event): State
    requires CanHappen(s, e)
  {
    match e
    case Acquire =>
      var s' := s.(asked := s.asked + 1);
      if s.inFlight < max then
        s'.(inFlight := s.inFlight + 1, holders := s.holders + {s.asked}, barged := s.barged + (if |s.woken| > 0 then 1 else 0))
      else s'.(waiters := s.waiters + [s.asked], queued := s.queued + [s.asked])
    case Resume => s.(inFlight := s.inFlight + 1, holders := s.holders + {s.woken[0]}, woken := s.woken[1..])
    case Release(id) =>
      var s' := s.(inFlight := s.inFlight - 1, holders := s.holders - {id});
      if |s.waiters| == 0 then s'
      else s'.(waiters := s.waiters[1..], woken := s.woken + [s.waiters[0]], wakes := s.wakes + [s.waiters[0]])
  }

  predicate Runs(max: int, s: State, es: seq<Event>)
    decreases |es|
  {
    |es| == 0 || (CanHappen(s, es[0]) && Runs(max, Step(max, s, es[0]), es[1..]))
  }

  function After(max: int, s: State, es: seq<Event>): State
    requires Runs(max, s, es)
    decreases |es|
  {
    if |es| == 0 then s else After(max, Step(max, s, es[0]), es[1..])
  }

  ghost predicate Sound(max: int, s: State)
  {
    && s.inFlight == |s.holders|
    && (|s.waiters| > 0 ==> |s.holders| + |s.woken| >= max)
    && s.queued == s.wakes + s.waiters
    && NoRepeats(s.woken) && (forall i :: 0 <= i < |s.woken| ==> s.woken[i] < s.asked && s.woken[i] !in s.holders && s.woken[i] !in s.waiters)
    && NoRepeats(s.waiters) && (forall i :: 0 <= i < |s.waiters| ==> s.waiters[i] < s.asked && s.waiters[i] !in s.holders)
    && (forall h :: h in s.holders ==> h < s.asked)
    && (max >= 0 ==> |s.holders| + |s.woken| <= max + s.barged)
  }

  lemma AcquireSound(max: int, s: State)
    requires Sound(max, s)
    ensures Sound(max, Step(max, s, Acquire))
  {
    assert s.asked !in s.holders;
    assert |s.holders + {s.asked}| == |s.holders| + 1;
    assert s.queued + [s.asked] == s.wakes + (s.waiters + [s.asked]);
  }

  lemma ResumeSound(max: int, s: State)
    requires Sound(max, s) && |s.woken| > 0
    ensures Sound(max, Step(max, s, Resume))
  {
    assert s.woken[0] !in s.holders;
    assert |s.holders + {s.woken[0]}| == |s.holders| + 1;
  }

  lemma ReleaseSound(max: int, s: State, id: nat)
    requires Sound(max, s) && id in s.holders
    ensures Sound(max, Step(max, s, Release(id)))
  {
    assert |s.holders - {id}| == |s.holders| - 1;
    if |s.waiters| > 0 {
      assert s.waiters == [s.waiters[0]] + s.waiters[1..];
      assert s.wakes + [s.waiters[0]] + s.waiters[1..] == s.wakes + s.waiters;
    }
  }

  lemma StepSound(max: int, s: State, e: Event)
    requires Sound(max, s) && CanHappen(s, e)
    ensures Sound(max, Step(max, s, e))
  {
    match e
    case Acquire => AcquireSound(max, s);
    case Resume => ResumeSound(max, s);
    case Release(id) => ReleaseSound(max, s, id);
  }

  lemma {:induction false} RunsSound(max: int, s: State, es: seq<Event>)
    requires Sound(max, s) && Runs(max, s, es)
    ensures Sound(max, After(max, s, es))
    decreases |es|
  {
    if |es| > 0 {
      hide Sound, Step, CanHappen;
      StepSound(max, s, es[0]);
      RunsSound(max, Step(max, s, es[0]), es[1..]);
    }
  }

  /**
   * The counter is the number of permits held; while anyone waits, held permits and woken waiters
   * together fill the limit; wakes follow the queue; and holders exceed the limit by no more than
   * the acquires granted inside a release-to-resume gap, so never when there are none.
   */
  lemma SemaphoreLaws(max: int, es: seq<Event>)
    requires Runs(max, FREE, es)
    ensures var s := After(max, FREE, es);
      && s.inFlight == |s.holders|
      && (|s.waiters| > 0 ==> |s.holders| + |s.woken| >= max)
      && s.queued == s.wakes + s.waiters
      && (max >= 0 ==> |s.holders| + |s.woken| <= max + s.barged)
  {
    RunsSound(max, FREE, es);
  }

  // ---- exactly when the limit is passed ----

  ghost predicate WithinLimit(max: int, s: State)
  {
    |s.holders| + |s.woken| <= max
  }

  /** An acquire that is granted a permit the woken waiters already account for. */
  predicate Barges(max: int, s: State, e: Event)
  {
    e.Acquire? && s.inFlight < max <= s.inFlight + |s.woken|
  }

  lemma PassesExactly(max: int, s: State, e: Event)
    requires Sound(max, s) && WithinLimit(max, s) && CanHappen(s, e)
    ensures WithinLimit(max, Step(max, s, e)) <==> !Barges(max, s, e)
  {
    match e
    case Acquire => AcquireSound(max, s);
    case Resume => ResumeSound(max, s);
    case Release(id) => ReleaseSound(max, s, id);
  }

  /** Every state of the run is within the limit. */
  ghost predicate AlwaysWithin(max: int, s: State, es: seq<Event>)
    requires Runs(max, s, es)
    decreases |es|
  {
    WithinLimit(max, s) && (|es| > 0 ==> AlwaysWithin(max, Step(max, s, es[0]), es[1..]))
  }

  /** No acquire of the run is granted inside a gap that fills the limit. */
  predicate NeverBarges(max: int, s: State, es: seq<Event>)
    requires Runs(max, s, es)
    decreases |es|
  {
    |es| > 0 ==> !Barges(max, s, es[0]) && NeverBarges(max, Step(max, s, es[0]), es[1..])
  }

  lemma {:induction false} WithinExactly(max: int, s: State, es: seq<Event>)
    requires Sound(max, s) && WithinLimit(max, s) && Runs(max, s, es)
    ensures AlwaysWithin(max, s, es) <==> NeverBarges(max, s, es)
    decreases |es|
  {
    if |es| > 0 {
      hide Sound, WithinLimit, Barges, Step, CanHappen;
      var s' := Step(max, s, es[0]);
      PassesExactly(max, s, es[0]);
      StepSound(max, s, es[0]);
      if WithinLimit(max, s') { WithinExactly(max, s', es[1..]); } else { NotAlwaysWithin(max, s', es[1..]); }
    }
  }

  lemma NotAlwaysWithin(max: int, s: State, es: seq<Event>)
    requires Runs(max, s, es) && !WithinLimit(max, s)
    ensures !AlwaysWithin(max, s, es)
  {
  }

  /**
   * Over every run, holders and woken waiters stay within the limit if and only if no acquire is
   * granted while the counter is below the limit but woken waiters already fill it.
   */
  lemma LimitKeptExactly(max: int, es: seq<Event>)
    requires max >= 0 && Runs(max, FREE, es)
    ensures AlwaysWithin(max, FREE, es) <==> NeverBarges(max, FREE, es)
  {
    WithinExactly(max, FREE, es);
  }

  /** The hand-off is not atomic: a fresh acquire in the gap takes the permit and the limit is passed. */
  lemma LimitCanBePassed()
    ensures var es := [Acquire, Acquire, Release(0), Acquire, Resume];
      Runs(1, FREE, es) && |After(1, FREE, es).holders| == 2
  {
    var es := [Acquire, Acquire, Release(0), Acquire, Resume];
    assert es[1..][1..][1..][1..] == [Resume];
    var s := After(1, FREE, es);
    assert s.holders == {1, 2};
  }

  class TurnSemaphore {
    const max: int
    var inFlight: int
    var waiters: seq<nat>
    ghost var woken: seq<nat>
    ghost var holders: set<nat>
    var asked: nat
    ghost var queued: seq<nat>
    ghost var wakes: seq<nat>
    ghost var barged: nat

    ghost function View(): State
      reads this
    {
      State(inFlight, waiters, woken, holders, asked, queued, wakes, barged)
    }

    constructor (max: int)
      ensures View() == FREE && this.max == max
    {
      this.max := max;
      inFlight, waiters, woken, holders, asked, queued, wakes, barged := 0, [], [], {}, 0, [], [], 0;
    }

    method BeginAcquire() returns (id: nat, granted: bool)
      modifies this
      ensures View() == Step(max, old(View()), Acquire) && id == old(asked) && granted == (old(inFlight) < max)
    {
      id, granted := asked, inFlight < max;
      asked := asked + 1;
      if inFlight < max {
        inFlight := inFlight + 1;
        holders := holders + {id};
        barged := barged + (if |woken| > 0 then 1 else 0);
        return;
      }
      waiters := waiters + [id];
      queued := queued + [id];
    }

    method AcquireResumes()
      requires CanHappen(View(), Resume)
      modifies this
      ensures View() == Step(max, old(View()), Resume)
    {
      inFlight := inFlight + 1;
      holders := holders + {woken[0]};
      woken := woken[1..];
    }

    method DoRelease(id: nat)
      requires CanHappen(View(), Release(id))
      modifies this
      ensures View() == Step(max, old(View()), Release(id))
    {
      inFlight := inFlight - 1;
      holders := holders - {id};
      if |waiters| > 0 {
        woken := woken + [waiters[0]];
        wakes := wakes + [waiters[0]];
        waiters := waiters[1..];
      }
    }
  }
}
