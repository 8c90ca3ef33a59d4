/**
 * The FIFO promise-chain mutex (orchestrator/src/util/mutex.ts), as a step system: every
 * microtask that the chain schedules is one step, in any order the chain allows.
 */
module SerialWriter {

  /** `Settled`: the section's own promise settled. `Released`: the tail behind it resolved. `Left`: the depth was lowered. */
  datatype Status = Queued | Running | Settled | Released | Left

  datatype Chain = Chain(sections: seq<Status>, depth: int, started: seq<nat>)

  datatype Tick = Acquire | Start(i: nat) | Settle(i: nat) | Release(i: nat) | Leave(i: nat)

  const IDLE: Chain := Chain([], 0, [])

  predicate Resolved(s: Status)
  {
    s == Released || s == Left
  }

  /** A section starts when the tail it was chained onto has resolved; every other step follows its own promise. */
  predicate Enabled(c: Chain, t: Tick)
  {
    match t
    case Acquire => true
    case Start(i) => i < |c.sections| && c.sections[i] == Queued && (i == 0 || Resolved(c.sections[i - 1]))
    case Settle(i) => i < |c.sections| && c.sections[i] == Running
    case Release(i) => i < |c.sections| && c.sections[i] == Settled
    case Leave(i) => i < |c.sections| && c.sections[i] == Released
  }

  function Next(c: Chain, t: Tick): Chain
    requires Enabled(c, t)
  {
    match t
    case Acquire => c.(sections := c.sections + [Queued], depth := c.depth + 1)
    case Start(i) => c.(sections := c.sections[i := Running], started := c.started + [i])
    case Settle(i) => c.(sections := c.sections[i := Settled])
    case Release(i) => c.(sections := c.sections[i := Released])
    case Leave(i) => c.(sections := c.sections[i := Left], depth := c.depth - 1)
  }

  predicate Holds(s: Status)
  {
    s == Running || s == Settled
  }

  function Staying(sections: seq<Status>): nat
  {
    if |sections| == 0 then 0
    else Staying(sections[..|sections| - 1]) + (if sections[|sections| - 1] == Left then 0 else 1)
  }

  /** Sections before a started one have all resolved. */
  ghost predicate Ordered(sections: seq<Status>)
  {
    forall i, j :: 0 <= i < j < |sections| && sections[j] != Queued ==> Resolved(sections[i])
  }

  ghost predicate Counted(c: Chain)
  {
    && (forall k :: 0 <= k < |c.started| ==> c.started[k] == k)
    && |c.started| <= |c.sections|
    && (forall i :: 0 <= i < |c.sections| ==> (c.sections[i] == Queued <==> i >= |c.started|))
  }

  ghost predicate Sound(c: Chain)
  {
    Ordered(c.sections) && Counted(c) && c.depth == Staying(c.sections)
  }

  lemma {:induction false} StayingUpdate(sections: seq<Status>, i: nat, s: Status)
    requires i < |sections| && sections[i] != Left
    ensures Staying(sections[i := s]) == Staying(sections) - (if s == Left then 1 else 0)
    decreases |sections|
  {
    var n := |sections| - 1;
    if i < n {
      assert sections[i := s][..n] == sections[..n][i := s];
      StayingUpdate(sections[..n], i, s);
    } else {
      assert sections[i := s][..n] == sections[..n];
    }
  }

  /** Moving a started section onwards. */
  lemma MoveSound(c: Chain, i: nat, s: Status)
    requires Sound(c) && i < |c.sections| && c.sections[i] != Queued && c.sections[i] != Left
    requires s != Queued && (Resolved(c.sections[i]) ==> Resolved(s))
    ensures Sound(c.(sections := c.sections[i := s], depth := c.depth - (if s == Left then 1 else 0)))
  {
    StayingUpdate(c.sections, i, s);
  }

  lemma StartSound(c: Chain, i: nat)
    requires Sound(c) && Enabled(c, Start(i))
    ensures Sound(Next(c, Start(i)))
  {
    StayingUpdate(c.sections, i, Running);
    assert i == |c.started|;
  }

  lemma AcquireSound(c: Chain)
    requires Sound(c)
    ensures Sound(Next(c, Acquire))
  {
    assert (c.sections + [Queued])[..|c.sections|] == c.sections;
  }

  lemma NextSound(c: Chain, t: Tick)
    requires Sound(c) && Enabled(c, t)
    ensures Sound(Next(c, t))
  {
    hide Sound;
    match t
    case Acquire => AcquireSound(c);
    case Start(i) => StartSound(c, i);
    case Settle(i) => MoveSound(c, i, Settled);
    case Release(i) => MoveSound(c, i, Released);
    case Leave(i) => MoveSound(c, i, Left);
  }

  // ---- runs ----

  predicate Scheduled(c: Chain, ticks: seq<Tick>)
    decreases |ticks|
  {
    |ticks| == 0 || (Enabled(c, ticks[0]) && Scheduled(Next(c, ticks[0]), ticks[1..]))
  }

  function AfterTicks(c: Chain, ticks: seq<Tick>): Chain
    requires Scheduled(c, ticks)
    decreases |ticks|
  {
    if |ticks| == 0 then c else AfterTicks(Next(c, ticks[0]), ticks[1..])
  }

  lemma {:induction false} ScheduleSound(c: Chain, ticks: seq<Tick>)
    requires Sound(c) && Scheduled(c, ticks)
    ensures Sound(AfterTicks(c, ticks))
    decreases |ticks|
  {
    if |ticks| > 0 {
      NextSound(c, ticks[0]);
      ScheduleSound(Next(c, ticks[0]), ticks[1..]);
    }
  }

  /**
   * However the microtasks interleave: at most one section is between its start and its release,
   * sections start in the order they were asked for, and the depth counts those not yet gone.
   */
  lemma MutualExclusion(ticks: seq<Tick>)
    requires Scheduled(IDLE, ticks)
    ensures var c := AfterTicks(IDLE, ticks);
      && (forall i, j :: 0 <= i < |c.sections| && 0 <= j < |c.sections| && Holds(c.sections[i]) && Holds(c.sections[j]) ==> i == j)
      && (forall k :: 0 <= k < |c.started| ==> c.started[k] == k)
      && c.depth == Staying(c.sections)
  {
    ScheduleSound(IDLE, ticks);
  }

  /** A chain with work left always has a step to take: a throwing section cannot block the next one. */
  lemma NeverStuck(ticks: seq<Tick>)
    requires Scheduled(IDLE, ticks) && AfterTicks(IDLE, ticks).depth > 0
    ensures exists t: Tick :: t != Acquire && Enabled(AfterTicks(IDLE, ticks), t)
  {
    ScheduleSound(IDLE, ticks);
    var c := AfterTicks(IDLE, ticks);
    var i := FirstStaying(c.sections);
    var t := match c.sections[i]
      case Queued => Start(i)
      case Running => Settle(i)
      case Settled => Release(i)
      case _ => Leave(i);
    assert Enabled(c, t);
  }

  lemma {:induction false} FirstStaying(sections: seq<Status>) returns (i: nat)
    requires Staying(sections) > 0
    ensures i < |sections| && sections[i] != Left && forall j :: 0 <= j < i ==> sections[j] == Left
    decreases |sections|
  {
    var n := |sections| - 1;
    if Staying(sections[..n]) > 0 {
      i := FirstStaying(sections[..n]);
    } else {
      NoneStaying(sections[..n]);
      assert forall j :: 0 <= j < n ==> sections[..n][j] == sections[j];
      i := n;
    }
  }

  lemma {:induction false} NoneStaying(sections: seq<Status>)
    requires Staying(sections) == 0
    ensures forall j :: 0 <= j < |sections| ==> sections[j] == Left
    decreases |sections|
  {
    if |sections| > 0 {
      var n := |sections| - 1;
      NoneStaying(sections[..n]);
      assert forall j :: 0 <= j < n ==> sections[..n][j] == sections[j];
    }
  }

  /** The mutex object: `RunExclusive` chains a section, the other methods are its callbacks. */
  class Mutex {
    var sections: seq<Status>
    var depth: int
    ghost var started: seq<nat>

    ghost function View(): Chain
      reads this
    {
      Chain(sections, depth, started)
    }

    constructor ()
      ensures View() == IDLE
    {
      sections, depth, started := [], 0, [];
    }

    method RunExclusive() returns (ticket: nat)
      modifies this
      ensures View() == Next(old(View()), Acquire) && ticket == old(|sections|)
    {
      ticket := |sections|;
      sections := sections + [Queued];
      depth := depth + 1;
    }

    method OnTailResolved(i: nat)
      requires Enabled(View(), Start(i))
      modifies this
      ensures View() == Next(old(View()), Start(i))
    {
      sections := sections[i := Running];
      started := started + [i];
    }

    /** The section returned or threw. */
    method OnSettled(i: nat)
      requires Enabled(View(), Settle(i))
      modifies this
      ensures View() == Next(old(View()), Settle(i))
    {
      sections := sections[i := Settled];
    }

    method OnTailReleased(i: nat)
      requires Enabled(View(), Release(i))
      modifies this
      ensures View() == Next(old(View()), Release(i))
    {
      sections := sections[i := Released];
    }

    method OnDepthCallback(i: nat)
      requires Enabled(View(), Leave(i))
      modifies this
      ensures View() == Next(old(View()), Leave(i))
    {
      sections := sections[i := Left];
      depth := depth - 1;
    }
  }
}
