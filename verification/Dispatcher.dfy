/**
 * Tool dispatch (orchestrator/src/registry.ts): gating, auditing, and mutating handlers serialized
 * through the FIFO mutex. Dispatches overlap; each await is a step.
 */
module Dispatcher {
  import opened Options
  import opened SerialWriter

  datatype Tool = Tool(gated: bool, mutates: bool, accepts: string -> bool)

  datatype Call = Call(name: string, input: string, fromLlm: bool, fudgeAllowed: bool)

  datatype Kind = Ok | AbortedFoundryDown | UnknownTool | OperatorGated | InvalidInput | HandlerError

  datatype Config = Config(tools: map<string, Tool>, serialized: bool)

  /** The checks before a handler, in order; none of them failing means it is run. */
  function Gate(cfg: Config, active: bool, c: Call): Option<Kind>
  {
    if !active then Some(AbortedFoundryDown)
    else if c.name !in cfg.tools then Some(UnknownTool)
    else
      var tool := cfg.tools[c.name];
      if tool.gated && c.fromLlm && !(c.name == "fudge_roll" && c.fudgeAllowed) then Some(OperatorGated)
      else if !tool.accepts(c.input) then Some(InvalidInput)
      else None
  }

  datatype Entry = Entry(call: Call, active: bool)

  /** `InBody` and `BodyEnded` carry the mutex ticket of a serialized handler. */
  datatype Progress = InQueue(ticket: nat) | InBody(lock: Option<nat>) | BodyEnded(ok: bool) | Answered(kind: Kind)

  datatype Row = Row(dispatch: nat, kind: Kind)

  datatype State = State(active: bool, chain: Chain, owners: seq<nat>, entries: seq<Entry>, progress: seq<Progress>,
                         bodies: seq<nat>, serial: seq<nat>, audit: seq<Row>)

  const IDLE_STATE: State := State(true, IDLE, [], [], [], [], [], [])

  datatype Event =
    | Lifecycle(active: bool)
    | Enter(call: Call)
    | Begin(d: nat)
    | BodyEnds(d: nat, ok: bool)
    | Record(d: nat)
    | LockTick(tick: Tick)

  predicate Serialized(cfg: Config, c: Call)
  {
    cfg.serialized && c.name in cfg.tools && cfg.tools[c.name].mutates
  }

  predicate CanHappen(s: State, e: Event)
  {
    match e
    case Begin(d) => d < |s.progress| && s.progress[d].InQueue? && Enabled(s.chain, Start(s.progress[d].ticket))
    case BodyEnds(d, _) =>
      d < |s.progress| && s.progress[d].InBody?
      && (s.progress[d].lock.Some? ==> Enabled(s.chain, Settle(s.progress[d].lock.value)))
    case Record(d) => d < |s.progress| && s.progress[d].BodyEnded?
    case LockTick(t) => (t.Release? || t.Leave?) && Enabled(s.chain, t)
    case _ => true
  }

  function Step(cfg: Config, s: State, e: Event): State
    requires CanHappen(s, e)
  {
    match e
    case Lifecycle(active) => s.(active := active)
    case Enter(call) =>
      var d := |s.progress|;
      var gate := Gate(cfg, s.active, call);
      var s' := s.(entries := s.entries + [Entry(call, s.active)]);
      if gate.Some? then s'.(progress := s.progress + [Answered(gate.value)], audit := s.audit + [Row(d, gate.value)])
      else if Serialized(cfg, call) then
        s'.(progress := s.progress + [InQueue(|s.owners|)], owners := s.owners + [d], chain := Next(s.chain, Acquire))
      else s'.(progress := s.progress + [InBody(None)], bodies := s.bodies + [d])
    case Begin(d) =>
      var t := s.progress[d].ticket;
      s.(chain := Next(s.chain, Start(t)), progress := s.progress[d := InBody(Some(t))], bodies := s.bodies + [d],
         serial := s.serial + [d])
    case BodyEnds(d, ok) =>
      var lock := s.progress[d].lock;
      s.(chain := if lock.Some? then Next(s.chain, Settle(lock.value)) else s.chain, progress := s.progress[d := BodyEnded(ok)])
    case Record(d) =>
      var kind := if s.progress[d].ok then Ok else HandlerError;
      s.(progress := s.progress[d := Answered(kind)], audit := s.audit + [Row(d, kind)])
    case LockTick(t) => s.(chain := Next(s.chain, t))
  }

  predicate Runs(cfg: Config, s: State, es: seq<Event>)
    decreases |es|
  {
    |es| == 0 || (CanHappen(s, es[0]) && Runs(cfg, Step(cfg, s, es[0]), es[1..]))
  }

  function After(cfg: Config, s: State, es: seq<Event>): State
    requires Runs(cfg, s, es)
    decreases |es|
  {
    if |es| == 0 then s else After(cfg, Step(cfg, s, es[0]), es[1..])
  }

  // ---- one mutation at a time, in order ----

  ghost predicate OwnerOf(s: State, t: nat)
    requires t < |s.owners| == |s.chain.sections|
  {
    && s.owners[t] < |s.progress|
    && (s.chain.sections[t] == Queued <==> s.progress[s.owners[t]] == InQueue(t))
    && (s.chain.sections[t] == Running <==> s.progress[s.owners[t]] == InBody(Some(t)))
  }

  ghost predicate HasTicket(s: State, d: nat, t: nat)
  {
    t < |s.owners| && s.owners[t] == d
  }

  ghost predicate Linked(s: State)
  {
    && |s.owners| == |s.chain.sections|
    && (forall t: nat :: t < |s.owners| ==> OwnerOf(s, t))
    && (forall t: nat, u: nat :: t < u < |s.owners| ==> s.owners[t] < s.owners[u])
    && (forall d: nat :: d < |s.progress| && s.progress[d].InQueue? ==> HasTicket(s, d, s.progress[d].ticket))
    && (forall d: nat :: d < |s.progress| && s.progress[d].InBody? && s.progress[d].lock.Some? ==>
          HasTicket(s, d, s.progress[d].lock.value))
    && |s.chain.started| <= |s.owners| && s.serial == s.owners[..|s.chain.started|]
  }

  /** Only serialized handlers queue, and only the body of one that need not be serialized runs without a ticket. */
  ghost predicate TicketsTaken(cfg: Config, s: State)
  {
    && |s.entries| == |s.progress|
    && (forall d: nat :: d < |s.progress| && s.progress[d].InQueue? ==> Serialized(cfg, s.entries[d].call))
    && (forall d: nat :: d < |s.progress| && s.progress[d].InBody? && s.progress[d].lock.None? ==>
          !Serialized(cfg, s.entries[d].call))
  }

  /** A dispatch that joins neither the queue nor the chain. */
  lemma AsideLinked(s: State, s': State, p: Progress)
    requires Linked(s) && s'.progress == s.progress + [p] && !p.InQueue? && (p.InBody? ==> p.lock.None?)
    requires s'.chain == s.chain && s'.owners == s.owners && s'.serial == s.serial
    ensures Linked(s')
  {
    forall t: nat | t < |s'.owners|
      ensures OwnerOf(s', t)
    {
      assert OwnerOf(s, t);
    }
    assert forall d: nat :: d < |s.progress| ==> s'.progress[d] == s.progress[d];
  }

  lemma QueuedLinked(s: State, s': State)
    requires Linked(s) && s'.progress == s.progress + [InQueue(|s.owners|)] && s'.serial == s.serial
    requires s'.chain == Next(s.chain, Acquire) && s'.owners == s.owners + [|s.progress|]
    ensures Linked(s')
  {
    assert s'.owners[..|s.chain.started|] == s.owners[..|s.chain.started|];
    forall t: nat | t < |s'.owners|
      ensures OwnerOf(s', t)
    {
      if t < |s.owners| { assert OwnerOf(s, t); }
    }
    assert forall t: nat :: t < |s.owners| ==> OwnerOf(s, t) && s.owners[t] < |s.progress|;
  }

  lemma EnterLinked(cfg: Config, s: State, call: Call)
    requires Sound(s.chain) && Linked(s)
    ensures Sound(Step(cfg, s, Enter(call)).chain) && Linked(Step(cfg, s, Enter(call)))
  {
    hide Sound, Linked, Gate;
    var s' := Step(cfg, s, Enter(call));
    NextSound(s.chain, Acquire);
    var p := s'.progress[|s.progress|];
    if p.InQueue? { QueuedLinked(s, s'); } else { AsideLinked(s, s', p); }
  }

  lemma BeginLinked(cfg: Config, s: State, d: nat)
    requires Sound(s.chain) && Linked(s) && CanHappen(s, Begin(d))
    ensures Sound(Step(cfg, s, Begin(d)).chain) && Linked(Step(cfg, s, Begin(d)))
  {
    var ticket := s.progress[d].ticket;
    NextSound(s.chain, Start(ticket));
    StartIsNext(s.chain, ticket);
    hide Sound;
    var s' := Step(cfg, s, Begin(d));
    assert HasTicket(s, d, ticket);
    forall t: nat | t < |s'.owners|
      ensures OwnerOf(s', t)
    {
      assert OwnerOf(s, t);
    }
    assert s.owners[..ticket + 1] == s.owners[..ticket] + [d];
  }

  lemma StartIsNext(c: Chain, i: nat)
    requires Sound(c) && Enabled(c, Start(i))
    ensures i == |c.started|
  {
  }

  lemma BodyEndsLinked(cfg: Config, s: State, d: nat, ok: bool)
    requires Sound(s.chain) && Linked(s) && CanHappen(s, BodyEnds(d, ok))
    ensures Sound(Step(cfg, s, BodyEnds(d, ok)).chain) && Linked(Step(cfg, s, BodyEnds(d, ok)))
  {
    var lock := s.progress[d].lock;
    if lock.Some? { NextSound(s.chain, Settle(lock.value)); }
    hide Sound;
    var s' := Step(cfg, s, BodyEnds(d, ok));
    forall t: nat | t < |s'.owners|
      ensures OwnerOf(s', t)
    {
      assert OwnerOf(s, t);
    }
  }

  /** Steps that neither queue, start nor end a body. */
  lemma RestLinked(cfg: Config, s: State, e: Event)
    requires Sound(s.chain) && Linked(s) && CanHappen(s, e) && (e.Lifecycle? || e.Record? || e.LockTick?)
    ensures Sound(Step(cfg, s, e).chain) && Linked(Step(cfg, s, e))
  {
    if e.LockTick? { NextSound(s.chain, e.tick); }
    hide Sound;
    var s' := Step(cfg, s, e);
    forall t: nat | t < |s'.owners|
      ensures OwnerOf(s', t)
    {
      assert OwnerOf(s, t);
    }
  }

  lemma StepLinked(cfg: Config, s: State, e: Event)
    requires Sound(s.chain) && Linked(s) && TicketsTaken(cfg, s) && CanHappen(s, e)
    ensures Sound(Step(cfg, s, e).chain) && Linked(Step(cfg, s, e)) && TicketsTaken(cfg, Step(cfg, s, e))
  {
    hide Sound, Linked, Gate;
    match e
    case Enter(call) => EnterLinked(cfg, s, call);
    case Begin(d) => BeginLinked(cfg, s, d);
    case BodyEnds(d, ok) => BodyEndsLinked(cfg, s, d, ok);
    case _ => RestLinked(cfg, s, e);
  }

  lemma {:induction false} RunsLinked(cfg: Config, s: State, es: seq<Event>)
    requires Sound(s.chain) && Linked(s) && TicketsTaken(cfg, s) && Runs(cfg, s, es)
    ensures Sound(After(cfg, s, es).chain) && Linked(After(cfg, s, es)) && TicketsTaken(cfg, After(cfg, s, es))
    decreases |es|
  {
    if |es| > 0 {
      hide Sound, Linked, TicketsTaken, Step, CanHappen;
      StepLinked(cfg, s, es[0]);
      RunsLinked(cfg, Step(cfg, s, es[0]), es[1..]);
    }
  }

  /** A world-mutating handler's body is running. */
  ghost predicate Mutating(cfg: Config, s: State, d: nat)
  {
    d < |s.progress| && d < |s.entries| && s.progress[d].InBody?
    && s.entries[d].call.name in cfg.tools && cfg.tools[s.entries[d].call.name].mutates
  }

  /** Across any overlap of dispatches, at most one mutating body runs, and they start in dispatch order. */
  lemma OneMutationAtATime(cfg: Config, es: seq<Event>)
    requires cfg.serialized && Runs(cfg, IDLE_STATE, es)
    ensures var s := After(cfg, IDLE_STATE, es);
      && (forall d: nat, f: nat :: Mutating(cfg, s, d) && Mutating(cfg, s, f) ==> d == f)
      && (forall i, j :: 0 <= i < j < |s.serial| ==> s.serial[i] < s.serial[j])
  {
    RunsLinked(cfg, IDLE_STATE, es);
    var s := After(cfg, IDLE_STATE, es);
    forall d: nat, f: nat | Mutating(cfg, s, d) && Mutating(cfg, s, f)
      ensures d == f
    {
      assert HasTicket(s, d, s.progress[d].lock.value) && HasTicket(s, f, s.progress[f].lock.value);
      assert OwnerOf(s, s.progress[d].lock.value) && OwnerOf(s, s.progress[f].lock.value);
    }
  }

  // ---- audit ----

  ghost predicate RowOf(s: State, i: nat)
    requires i < |s.audit|
  {
    s.audit[i].dispatch < |s.progress| && s.progress[s.audit[i].dispatch] == Answered(s.audit[i].kind)
  }

  ghost predicate HasRow(s: State, d: nat)
  {
    exists i: nat :: i < |s.audit| && s.audit[i].dispatch == d
  }

  /** One row per answered dispatch, with its result. */
  ghost predicate Recorded(s: State)
  {
    && (forall i: nat :: i < |s.audit| ==> RowOf(s, i))
    && (forall i: nat, j: nat :: i < j < |s.audit| ==> s.audit[i].dispatch != s.audit[j].dispatch)
    && (forall d: nat :: d < |s.progress| && s.progress[d].Answered? ==> HasRow(s, d))
  }

  /** What the gate refused was answered so and never ran; what it let through ran or will. */
  ghost predicate Gated(cfg: Config, s: State, d: nat)
    requires d < |s.entries| == |s.progress|
  {
    var gate := Gate(cfg, s.entries[d].active, s.entries[d].call);
    if gate.Some? then s.progress[d] == Answered(gate.value) && d !in s.bodies
    else !s.progress[d].Answered? || s.progress[d].kind == Ok || s.progress[d].kind == HandlerError
  }

  ghost predicate Audited(cfg: Config, s: State)
  {
    && |s.entries| == |s.progress| && Recorded(s)
    && (forall d: nat :: d < |s.progress| ==> Gated(cfg, s, d))
    && (forall d :: d in s.bodies ==> d < |s.progress|)
  }

  lemma StepRecorded(cfg: Config, s: State, e: Event)
    requires Recorded(s) && CanHappen(s, e)
    ensures Recorded(Step(cfg, s, e))
  {
    hide Gate, Enabled, Next;
    var s' := Step(cfg, s, e);
    forall i: nat | i < |s'.audit|
      ensures RowOf(s', i)
    {
      if i < |s.audit| { assert RowOf(s, i) && s'.audit[i] == s.audit[i]; }
    }
    forall d: nat | d < |s'.progress| && s'.progress[d].Answered?
      ensures HasRow(s', d)
    {
      if d < |s.progress| && s.progress[d].Answered? {
        var i: nat :| i < |s.audit| && s.audit[i].dispatch == d;
        assert s'.audit[i] == s.audit[i];
      } else {
        assert s'.audit[|s.audit|].dispatch == d;
      }
    }
    forall i: nat | i < |s.audit|
      ensures s'.audit[i] == s.audit[i] && (|s'.audit| > |s.audit| ==> s.audit[i].dispatch != s'.audit[|s.audit|].dispatch)
    {
      assert RowOf(s, i);
    }
  }

  lemma StepGated(cfg: Config, s: State, e: Event, d: nat)
    requires Audited(cfg, s) && CanHappen(s, e) && d < |Step(cfg, s, e).progress|
    ensures |Step(cfg, s, e).entries| == |Step(cfg, s, e).progress| && Gated(cfg, Step(cfg, s, e), d)
  {
    hide Gate, Enabled, Next, Recorded;
    if d < |s.progress| { assert Gated(cfg, s, d); }
  }

  lemma StepAudited(cfg: Config, s: State, e: Event)
    requires Audited(cfg, s) && CanHappen(s, e)
    ensures Audited(cfg, Step(cfg, s, e))
  {
    hide Gate, Enabled, Next, Recorded, Gated;
    StepRecorded(cfg, s, e);
    forall d: nat | d < |Step(cfg, s, e).progress|
      ensures |Step(cfg, s, e).entries| == |Step(cfg, s, e).progress| && Gated(cfg, Step(cfg, s, e), d)
    {
      StepGated(cfg, s, e, d);
    }
  }

  lemma {:induction false} RunsAudited(cfg: Config, s: State, es: seq<Event>)
    requires Audited(cfg, s) && Runs(cfg, s, es)
    ensures Audited(cfg, After(cfg, s, es))
    decreases |es|
  {
    if |es| > 0 {
      hide Audited, Step, CanHappen;
      StepAudited(cfg, s, es[0]);
      RunsAudited(cfg, Step(cfg, s, es[0]), es[1..]);
    }
  }

  /** Every answered dispatch has exactly one audit row, with its own result; no other dispatch has one. */
  lemma OneRowPerDispatch(cfg: Config, es: seq<Event>)
    requires Runs(cfg, IDLE_STATE, es)
    ensures var s := After(cfg, IDLE_STATE, es);
      && (forall d: nat :: d < |s.progress| ==> (s.progress[d].Answered? <==> HasRow(s, d)))
      && (forall i: nat :: i < |s.audit| ==> RowOf(s, i))
      && (forall i: nat, j: nat :: i < j < |s.audit| ==> s.audit[i].dispatch != s.audit[j].dispatch)
  {
    RunsAudited(cfg, IDLE_STATE, es);
    var s := After(cfg, IDLE_STATE, es);
    forall d: nat | d < |s.progress| && HasRow(s, d)
      ensures s.progress[d].Answered?
    {
      var i: nat :| i < |s.audit| && s.audit[i].dispatch == d;
      assert RowOf(s, i);
    }
  }

  /** A dispatch entered while paused is answered so at once, and its handler never runs. */
  lemma PausedEntriesNeverRun(cfg: Config, es: seq<Event>, d: nat)
    requires Runs(cfg, IDLE_STATE, es) && d < |After(cfg, IDLE_STATE, es).entries| && !After(cfg, IDLE_STATE, es).entries[d].active
    ensures var s := After(cfg, IDLE_STATE, es);
      d < |s.progress| && s.progress[d] == Answered(AbortedFoundryDown) && d !in s.bodies
  {
    RunsAudited(cfg, IDLE_STATE, es);
    assert Gated(cfg, After(cfg, IDLE_STATE, es), d);
  }

  // ---- which bodies start while paused ----

  /** The step starts a handler body although the session is paused. */
  predicate StartsPaused(cfg: Config, s: State, e: Event)
    requires CanHappen(s, e)
  {
    !s.active && |Step(cfg, s, e).bodies| > |s.bodies|
  }

  /**
   * A body starts while paused exactly when a queued dispatch is let begin; that dispatch is
   * serialized, passed its gate while the session was active, and had been waiting for the mutex since.
   */
  lemma PausedStartExactly(cfg: Config, es: seq<Event>, e: Event)
    requires Runs(cfg, IDLE_STATE, es) && CanHappen(After(cfg, IDLE_STATE, es), e)
    ensures var s := After(cfg, IDLE_STATE, es);
      && (StartsPaused(cfg, s, e) <==> !s.active && e.Begin?)
      && (e.Begin? ==>
            && e.d < |s.entries| && s.progress[e.d].InQueue? && s.entries[e.d].active
            && Gate(cfg, true, s.entries[e.d].call).None? && Serialized(cfg, s.entries[e.d].call)
            && Step(cfg, s, e).bodies == s.bodies + [e.d])
  {
    RunsAudited(cfg, IDLE_STATE, es);
    RunsLinked(cfg, IDLE_STATE, es);
    hide Sound, Linked, Recorded;
    var s := After(cfg, IDLE_STATE, es);
    if e.Begin? { assert Gated(cfg, s, e.d); }
  }

  ghost predicate NoPausedStarts(cfg: Config, s: State, es: seq<Event>)
    requires Runs(cfg, s, es)
    decreases |es|
  {
    |es| > 0 ==> !StartsPaused(cfg, s, es[0]) && NoPausedStarts(cfg, Step(cfg, s, es[0]), es[1..])
  }

  predicate NoPausedBegins(cfg: Config, s: State, es: seq<Event>)
    requires Runs(cfg, s, es)
    decreases |es|
  {
    |es| > 0 ==> (s.active || !es[0].Begin?) && NoPausedBegins(cfg, Step(cfg, s, es[0]), es[1..])
  }

  lemma {:induction false} PausedStartsAreBegins(cfg: Config, s: State, es: seq<Event>)
    requires Runs(cfg, s, es)
    ensures NoPausedStarts(cfg, s, es) <==> NoPausedBegins(cfg, s, es)
    decreases |es|
  {
    if |es| > 0 {
      PausedStartsAreBegins(cfg, Step(cfg, s, es[0]), es[1..]);
    }
  }

  lemma {:induction false} NeverQueued(cfg: Config, s: State, es: seq<Event>)
    requires !cfg.serialized && TicketsTaken(cfg, s) && Sound(s.chain) && Linked(s) && Runs(cfg, s, es)
    ensures NoPausedBegins(cfg, s, es)
    decreases |es|
  {
    if |es| > 0 {
      hide Sound, Linked;
      StepLinked(cfg, s, es[0]);
      NeverQueued(cfg, Step(cfg, s, es[0]), es[1..]);
    }
  }

  /** Over any run no body starts while paused iff no queued dispatch is let begin then; without a serializer none ever does. */
  lemma NoneStartsWhilePaused(cfg: Config, es: seq<Event>)
    requires Runs(cfg, IDLE_STATE, es)
    ensures NoPausedStarts(cfg, IDLE_STATE, es) <==> NoPausedBegins(cfg, IDLE_STATE, es)
    ensures !cfg.serialized ==> NoPausedStarts(cfg, IDLE_STATE, es)
  {
    PausedStartsAreBegins(cfg, IDLE_STATE, es);
    if !cfg.serialized { NeverQueued(cfg, IDLE_STATE, es); }
  }

  predicate QueueEmpty(s: State)
  {
    forall d :: 0 <= d < |s.progress| ==> !s.progress[d].InQueue?
  }

  /** A pause that finds the queue empty starts no body until the session is active again. */
  lemma {:induction false} DrainedPauseIsQuiet(cfg: Config, s: State, es: seq<Event>)
    requires !s.active && QueueEmpty(s) && Runs(cfg, s, es) && Lifecycle(true) !in es
    ensures After(cfg, s, es).bodies == s.bodies
    decreases |es|
  {
    if |es| > 0 {
      var s' := Step(cfg, s, es[0]);
      assert es[0] in es && forall e :: e in es[1..] ==> e in es;
      assert !s'.active && QueueEmpty(s') && s'.bodies == s.bodies;
      hide Step, CanHappen, QueueEmpty;
      DrainedPauseIsQuiet(cfg, s', es[1..]);
    }
  }

  /** The guarantee ends at entry: a handler already queued on the mutex may start after a pause. */
  lemma QueuedBodyOutlivesPause(name: string, accepts: string -> bool, input: string)
    requires accepts(input)
    ensures var cfg := Config(map[name := Tool(false, true, accepts)], true);
      var es := [Enter(Call(name, input, true, false)), Lifecycle(false), Begin(0)];
      Runs(cfg, IDLE_STATE, es) && !After(cfg, IDLE_STATE, es).active && Mutating(cfg, After(cfg, IDLE_STATE, es), 0)
  {
    var cfg := Config(map[name := Tool(false, true, accepts)], true);
    var enter := Enter(Call(name, input, true, false));
    var s1 := Step(cfg, IDLE_STATE, enter);
    var s2 := Step(cfg, s1, Lifecycle(false));
    var s3 := Step(cfg, s2, Begin(0));
    assert !s3.active && Mutating(cfg, s3, 0);
    hide Step, CanHappen;
    Ends(cfg, s3);
    Onwards(cfg, s2, Begin(0), []);
    Onwards(cfg, s1, Lifecycle(false), [Begin(0)]);
    Onwards(cfg, IDLE_STATE, enter, [Lifecycle(false), Begin(0)]);
  }

  lemma Ends(cfg: Config, s: State)
    ensures Runs(cfg, s, []) && After(cfg, s, []) == s
  {
  }

  lemma Onwards(cfg: Config, s: State, e: Event, rest: seq<Event>)
    requires CanHappen(s, e) && Runs(cfg, Step(cfg, s, e), rest)
    ensures Runs(cfg, s, [e] + rest) && After(cfg, s, [e] + rest) == After(cfg, Step(cfg, s, e), rest)
  {
    hide Step, CanHappen;
    assert ([e] + rest)[1..] == rest;
  }

  // ---- the dispatcher object ----

  class ToolDispatcher {
    const cfg: Config
    var active: bool
    var writeSerializer: Chain
    var owners: seq<nat>
    var progress: seq<Progress>
    var audit: seq<Row>
    ghost var entries: seq<Entry>
    ghost var bodies: seq<nat>
    ghost var serial: seq<nat>

    ghost function View(): State
      reads this
    {
      State(active, writeSerializer, owners, entries, progress, bodies, serial, audit)
    }

    constructor (cfg: Config)
      ensures View() == IDLE_STATE && this.cfg == cfg
    {
      this.cfg := cfg;
      active, writeSerializer, owners, progress, audit := true, IDLE, [], [], [];
      entries, bodies, serial := [], [], [];
    }

    /** `dispatch` up to its first await: refused at once, queued on the mutex, or running its handler. */
    method Dispatch(call: Call) returns (d: nat)
      modifies this
      ensures View() == Step(cfg, old(View()), Enter(call)) && d == old(|progress|)
    {
      d := |progress|;
      entries := entries + [Entry(call, active)];
      if !active {
        Refuse(AbortedFoundryDown);
        return;
      }
      if call.name !in cfg.tools {
        Refuse(UnknownTool);
        return;
      }
      var tool := cfg.tools[call.name];
      if tool.gated && call.fromLlm {
        var fudgeOk := call.name == "fudge_roll" && call.fudgeAllowed;
        if !fudgeOk {
          Refuse(OperatorGated);
          return;
        }
      }
      if !tool.accepts(call.input) {
        Refuse(InvalidInput);
        return;
      }
      if tool.mutates && cfg.serialized {
        progress := progress + [InQueue(|owners|)];
        owners := owners + [d];
        writeSerializer := Next(writeSerializer, Acquire);
      } else {
        progress := progress + [InBody(None)];
        bodies := bodies + [d];
      }
    }

    method Refuse(kind: Kind)
      modifies `progress, `audit
      ensures progress == old(progress) + [Answered(kind)] && audit == old(audit) + [Row(|old(progress)|, kind)]
    {
      audit := audit + [Row(|progress|, kind)];
      progress := progress + [Answered(kind)];
    }

    method OnLockAcquired(d: nat)
      requires CanHappen(View(), Begin(d))
      modifies this
      ensures View() == Step(cfg, old(View()), Begin(d))
    {
      var ticket := progress[d].ticket;
      writeSerializer := Next(writeSerializer, Start(ticket));
      progress := progress[d := InBody(Some(ticket))];
      bodies := bodies + [d];
      serial := serial + [d];
    }

    /** The handler returned, or threw. */
    method OnHandlerSettled(d: nat, ok: bool)
      requires CanHappen(View(), BodyEnds(d, ok))
      modifies this
      ensures View() == Step(cfg, old(View()), BodyEnds(d, ok))
    {
      var lock := progress[d].lock;
      if lock.Some? { writeSerializer := Next(writeSerializer, Settle(lock.value)); }
      progress := progress[d := BodyEnded(ok)];
    }

    /** The continuation of the await: the one audit row. */
    method RecordResult(d: nat)
      requires CanHappen(View(), Record(d))
      modifies this
      ensures View() == Step(cfg, old(View()), Record(d))
    {
      var kind := if progress[d].ok then Ok else HandlerError;
      audit := audit + [Row(d, kind)];
      progress := progress[d := Answered(kind)];
    }
  }
}
