/** Which dispatches are refused and why, and what the others are answered (orchestrator/src/registry.ts). */
module DispatcherTheorems {
  import opened Options
  import opened SerialWriter
  import opened Dispatcher

  /** The last lifecycle report, if any, was that the session is active. */
  predicate LastActive(es: seq<Event>)
  {
    |es| == 0 || (if es[|es| - 1].Lifecycle? then es[|es| - 1].active else LastActive(es[..|es| - 1]))
  }

  /** The calls in the order they came in, each with the session's phase at that moment. */
  function EntriesOf(es: seq<Event>): seq<Entry>
  {
    if |es| == 0 then []
    else
      var init, e := es[..|es| - 1], es[|es| - 1];
      EntriesOf(init) + (if e.Enter? then [Entry(e.call, LastActive(init))] else [])
  }

  /** The operator's own tools, closed to the model except for a fudge it was granted. */
  predicate KeptFromModel(cfg: Config, c: Call)
  {
    c.name in cfg.tools && cfg.tools[c.name].gated && c.fromLlm && (c.name == "fudge_roll" ==> !c.fudgeAllowed)
  }

  /** The one reason an entry is refused for. */
  ghost predicate RefusedAs(cfg: Config, x: Entry, kind: Kind)
  {
    match kind
    case AbortedFoundryDown => !x.active
    case UnknownTool => x.active && x.call.name !in cfg.tools
    case OperatorGated => x.active && KeptFromModel(cfg, x.call)
    case InvalidInput =>
      x.active && x.call.name in cfg.tools && !KeptFromModel(cfg, x.call) && !cfg.tools[x.call.name].accepts(x.call.input)
    case _ => false
  }

  ghost predicate Refused(cfg: Config, x: Entry)
  {
    exists kind :: RefusedAs(cfg, x, kind)
  }

  lemma GateExactly(cfg: Config, x: Entry)
    ensures Gate(cfg, x.active, x.call).Some? ==> RefusedAs(cfg, x, Gate(cfg, x.active, x.call).value)
    ensures forall kind :: RefusedAs(cfg, x, kind) ==> Gate(cfg, x.active, x.call) == Some(kind)
  {
  }

  /** How dispatch `d` stands, given the events so far. */
  ghost predicate StandsAs(cfg: Config, es: seq<Event>, s: State, d: nat)
    requires d < |s.entries| == |s.progress|
  {
    if Refused(cfg, s.entries[d]) then
      s.progress[d].Answered? && RefusedAs(cfg, s.entries[d], s.progress[d].kind) && d !in s.bodies
    else
      match s.progress[d]
      case InQueue(_) => d !in s.bodies
      case InBody(_) => d in s.bodies
      case BodyEnded(ok) => d in s.bodies && BodyEnds(d, ok) in es
      case Answered(kind) => d in s.bodies && (kind == Ok || kind == HandlerError) && BodyEnds(d, kind == Ok) in es
  }

  ghost predicate Explained(cfg: Config, es: seq<Event>, s: State)
  {
    && |s.entries| == |s.progress| && s.active == LastActive(es) && s.entries == EntriesOf(es)
    && (forall d :: d in s.bodies ==> d < |s.entries|)
    && forall d: nat :: d < |s.entries| ==> StandsAs(cfg, es, s, d)
  }

  lemma OneMore(es: seq<Event>, e: Event)
    ensures LastActive(es + [e]) == if e.Lifecycle? then e.active else LastActive(es)
    ensures EntriesOf(es + [e]) == EntriesOf(es) + (if e.Enter? then [Entry(e.call, LastActive(es))] else [])
    ensures forall x :: x in es ==> x in es + [e]
    ensures e in es + [e]
  {
    assert (es + [e])[..|es|] == es && (es + [e])[|es|] == e;
  }

  /** What happens to one dispatch leaves the others standing. */
  lemma StillStands(cfg: Config, es: seq<Event>, s: State, e: Event, s': State, d: nat)
    requires d < |s.entries| == |s.progress| && StandsAs(cfg, es, s, d)
    requires d < |s'.entries| == |s'.progress| && s'.entries[d] == s.entries[d] && s'.progress[d] == s.progress[d]
    requires d in s'.bodies <==> d in s.bodies
    ensures StandsAs(cfg, es + [e], s', d)
  {
    hide RefusedAs;
    OneMore(es, e);
  }

  lemma EnterExplained(cfg: Config, es: seq<Event>, s: State, call: Call)
    requires Explained(cfg, es, s)
    ensures Explained(cfg, es + [Enter(call)], Step(cfg, s, Enter(call)))
  {
    hide RefusedAs, Gate, EntriesOf, LastActive;
    var e, s' := Enter(call), Step(cfg, s, Enter(call));
    OneMore(es, e);
    var n, x := |s.entries|, Entry(call, s.active);
    GateExactly(cfg, x);
    assert s'.entries[n] == x && n !in s.bodies;
    assert StandsAs(cfg, es + [e], s', n);
    forall d: nat | d < n ensures StandsAs(cfg, es + [e], s', d) {
      assert StandsAs(cfg, es, s, d);
      StillStands(cfg, es, s, e, s', d);
    }
  }

  lemma MoveExplained(cfg: Config, es: seq<Event>, s: State, e: Event)
    requires Explained(cfg, es, s) && CanHappen(s, e) && (e.Begin? || e.BodyEnds? || e.Record?)
    ensures Explained(cfg, es + [e], Step(cfg, s, e))
  {
    hide RefusedAs, EntriesOf, LastActive, Enabled, Next;
    var s' := Step(cfg, s, e);
    OneMore(es, e);
    assert EntriesOf(es) + [] == EntriesOf(es);
    forall d: nat | d < |s'.entries| ensures StandsAs(cfg, es + [e], s', d) {
      assert StandsAs(cfg, es, s, d);
      if d != e.d { StillStands(cfg, es, s, e, s', d); }
    }
  }

  lemma RestExplained(cfg: Config, es: seq<Event>, s: State, e: Event)
    requires Explained(cfg, es, s) && CanHappen(s, e) && (e.Lifecycle? || e.LockTick?)
    ensures Explained(cfg, es + [e], Step(cfg, s, e))
  {
    hide RefusedAs, EntriesOf, LastActive, Enabled, Next;
    var s' := Step(cfg, s, e);
    OneMore(es, e);
    assert EntriesOf(es) + [] == EntriesOf(es);
    forall d: nat | d < |s'.entries| ensures StandsAs(cfg, es + [e], s', d) {
      assert StandsAs(cfg, es, s, d);
      StillStands(cfg, es, s, e, s', d);
    }
  }

  lemma StepExplained(cfg: Config, es: seq<Event>, s: State, e: Event)
    requires Explained(cfg, es, s) && CanHappen(s, e)
    ensures Explained(cfg, es + [e], Step(cfg, s, e))
  {
    hide Explained, Step, CanHappen;
    match e
    case Enter(call) => EnterExplained(cfg, es, s, call);
    case Lifecycle(_) => RestExplained(cfg, es, s, e);
    case LockTick(_) => RestExplained(cfg, es, s, e);
    case _ => MoveExplained(cfg, es, s, e);
  }

  lemma {:induction false} RunsExplained(cfg: Config, past: seq<Event>, s: State, es: seq<Event>)
    requires Explained(cfg, past, s) && Runs(cfg, s, es)
    ensures Explained(cfg, past + es, After(cfg, s, es))
    decreases |es|
  {
    hide Explained, Step, CanHappen;
    if |es| == 0 {
      assert past + es == past;
    } else {
      StepExplained(cfg, past, s, es[0]);
      RunsExplained(cfg, past + [es[0]], Step(cfg, s, es[0]), es[1..]);
      assert past + [es[0]] + es[1..] == past + es;
    }
  }

  /**
   * Over any run, a call that came in while the session was down, names no tool, reaches for an operator's tool or has
   * input its tool does not accept is answered at once for the first such reason and its handler never runs; every other
   * handler runs unless it is still queued, and its answer tells whether it threw.
   */
  lemma EveryDispatchIsExplained(cfg: Config, es: seq<Event>, d: nat)
    requires Runs(cfg, IDLE_STATE, es) && d < |EntriesOf(es)|
    ensures var s, x := After(cfg, IDLE_STATE, es), EntriesOf(es)[d];
      && d < |s.progress|
      && (forall kind :: RefusedAs(cfg, x, kind) ==> s.progress[d] == Answered(kind) && d !in s.bodies)
      && (!Refused(cfg, x) ==>
            && (d in s.bodies <==> !s.progress[d].InQueue?)
            && (s.progress[d].Answered? ==>
                  && s.progress[d].kind in {Ok, HandlerError} && BodyEnds(d, s.progress[d].kind == Ok) in es))
  {
    hide EntriesOf, LastActive, Runs, After;
    NothingEntered(cfg);
    RunsExplained(cfg, [], IDLE_STATE, es);
    assert [] + es == es;
    var s := After(cfg, IDLE_STATE, es);
    assert StandsAs(cfg, es, s, d);
    OneReason(cfg, s.entries[d]);
  }

  lemma OneReason(cfg: Config, x: Entry)
    ensures forall a, b :: RefusedAs(cfg, x, a) && RefusedAs(cfg, x, b) ==> a == b
  {
  }

  lemma NothingEntered(cfg: Config)
    ensures Explained(cfg, [], IDLE_STATE)
  {
  }

  /** A handler is run under the mutex exactly when the dispatcher has one and its tool changes the world. */
  lemma SerializedExactly(cfg: Config, s: State, call: Call)
    requires !Refused(cfg, Entry(call, s.active))
    ensures var p := Step(cfg, s, Enter(call)).progress;
      && |p| == |s.progress| + 1 && call.name in cfg.tools
      && (p[|s.progress|].InQueue? <==> cfg.serialized && cfg.tools[call.name].mutates)
      && (!p[|s.progress|].InQueue? ==> p[|s.progress|] == InBody(None))
  {
    var x := Entry(call, s.active);
    GateExactly(cfg, x);
    assert call.name !in cfg.tools ==> RefusedAs(cfg, x, if s.active then UnknownTool else AbortedFoundryDown);
  }
}
