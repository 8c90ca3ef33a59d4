/**
 * Where captured speech goes (orchestrator/src/always_listening_session.ts, sessions/input-buffer.ts,
 * voice/buffer.ts). Utterances are known by their arrival number; every await of the loop is a step.
 */
module Speech {
  import opened Options
  import opened Tables

  datatype Utterance = Utterance(speaker: string, displayName: Option<string>, text: string, timestamp: int)

  datatype Route = Unmapped | WhilePaused | Table

  datatype Turn =
    | Replay(fragment: int)
    | Onboard(targets: seq<string>, fragments: seq<int>)
    | Respond(judged: seq<int>, fragments: seq<int>)

  /** Where the event loop stands: it takes no event while it awaits a decision or a turn. */
  datatype Loop = Listening | Deciding(judged: seq<int>) | Speaking(welcomed: seq<string>)
  {
    function Welcoming(): seq<string>
    {
      if Speaking? then welcomed else []
    }
  }

  /** `routes` remembers, per arrival, the branch it took. */
  datatype State = State(loop: Loop, active: bool, blocked: set<string>, greeted: set<string>, unmapped: seq<int>, paused: seq<int>,
                         dropped: seq<int>, buffer: seq<int>, drainQueue: seq<int>, turns: seq<Turn>, welcomes: seq<string>,
                         routes: seq<Route>)

  const QUIET: State := State(Listening, true, {}, {}, [], [], [], [], [], [], [], [])

  datatype Event =
    | Hear(utterance: Utterance)
    | Presence(blocked: set<string>)
    | Lull(ready: bool, present: seq<string>, consented: set<string>, mapped: set<string>)
    | Decide(respond: bool)
    | TurnEnds
    | SessionPauses
    | SessionResumes
    | ReplayNext

  function RouteOf(s: State, u: Utterance): Route
  {
    if u.speaker in s.blocked then Unmapped else if !s.active then WhilePaused else Table
  }

  /** How many of the oldest items the bound pushes out. */
  function Overflow(items: seq<int>, maxSize: nat): nat
  {
    if |items| <= maxSize then 0 else |items| - maxSize
  }

  function AwaitsWelcome(blocked: set<string>, consented: set<string>, mapped: set<string>, greeted: set<string>): string -> bool
  {
    (m: string) => m !in blocked && m in consented && m !in mapped && m !in greeted
  }

  function Targets(s: State, e: Event): seq<string>
    requires e.Lull?
  {
    Filter(AwaitsWelcome(s.blocked, e.consented, e.mapped, s.greeted), e.present)
  }

  predicate CanHappen(s: State, e: Event)
  {
    match e
    case Hear(_) => s.loop.Listening?
    case Presence(_) => s.loop.Listening?
    case Lull(_, _, _, _) => s.loop.Listening?
    case Decide(_) => s.loop.Deciding?
    case TurnEnds => s.loop.Speaking?
    case ReplayNext => |s.drainQueue| > 0
    case _ => true
  }

  function ToSet(items: seq<string>): set<string>
  {
    set x | x in items
  }

  function Step(maxSize: nat, s: State, e: Event): State
    requires CanHappen(s, e)
  {
    match e
    case Hear(u) =>
      var id, route := |s.routes|, RouteOf(s, u);
      var s' := s.(routes := s.routes + [route]);
      (match route
       case Unmapped => s'.(unmapped := s.unmapped + [id])
       case WhilePaused =>
         var items := s.paused + [id];
         var n := Overflow(items, maxSize);
         s'.(paused := items[n..], dropped := s.dropped + items[..n])
       case Table => s'.(buffer := s.buffer + [id]))
    case Presence(blocked) => s.(blocked := blocked)
    case Lull(ready, _, _, _) =>
      var targets := Targets(s, e);
      if !s.active || !ready then s
      else if |targets| > 0 then
        s.(loop := Speaking(targets), turns := s.turns + [Onboard(targets, s.buffer)], buffer := [], welcomes := s.welcomes + targets)
      else if |s.buffer| == 0 then s
      else s.(loop := Deciding(s.buffer))
    case Decide(respond) =>
      if !respond || |s.buffer| == 0 then s.(loop := Listening)
      else s.(loop := Speaking([]), turns := s.turns + [Respond(s.loop.judged, s.buffer)], buffer := [])
    case TurnEnds => s.(loop := Listening, greeted := s.greeted + ToSet(s.loop.welcomed))
    case SessionPauses => s.(active := false)
    case SessionResumes =>
      if s.active then s else s.(active := true, drainQueue := s.drainQueue + s.paused, paused := [])
    case ReplayNext => s.(turns := s.turns + [Replay(s.drainQueue[0])], drainQueue := s.drainQueue[1..])
  }

  predicate Runs(maxSize: nat, s: State, es: seq<Event>)
    decreases |es|
  {
    |es| == 0 || (CanHappen(s, es[0]) && Runs(maxSize, Step(maxSize, s, es[0]), es[1..]))
  }

  function After(maxSize: nat, s: State, es: seq<Event>): State
    requires Runs(maxSize, s, es)
    decreases |es|
  {
    if |es| == 0 then s else After(maxSize, Step(maxSize, s, es[0]), es[1..])
  }

  // ---- conservation ----

  /** The arrivals that took a route, in order of arrival. */
  function Arrivals(routes: seq<Route>, r: Route): seq<int>
  {
    if |routes| == 0 then []
    else Arrivals(routes[..|routes| - 1], r) + (if routes[|routes| - 1] == r then [|routes| - 1] else [])
  }

  /** The fragments the live turns consumed, in order. */
  function Consumed(turns: seq<Turn>): seq<int>
  {
    if |turns| == 0 then []
    else
      var last := turns[|turns| - 1];
      Consumed(turns[..|turns| - 1]) + (if last.Replay? then [] else last.fragments)
  }

  function Replayed(turns: seq<Turn>): seq<int>
  {
    if |turns| == 0 then []
    else
      var last := turns[|turns| - 1];
      Replayed(turns[..|turns| - 1]) + (if last.Replay? then [last.fragment] else [])
  }

  function NotIn(gone: seq<int>): int -> bool
  {
    (id: int) => id !in gone
  }

  ghost predicate Ascending(ids: seq<int>)
  {
    forall i, j :: 0 <= i < j < |ids| ==> ids[i] < ids[j]
  }

  /**
   * Every arrival is in exactly one place, and each path keeps arrival order: recorded as unmapped;
   * consumed by a live turn or still in the buffer; dropped, replayed, queued for replay or still held.
   */
  ghost predicate Conserved(s: State)
  {
    && s.unmapped == Arrivals(s.routes, Unmapped)
    && Consumed(s.turns) + s.buffer == Arrivals(s.routes, Table)
    && Replayed(s.turns) + s.drainQueue + s.paused == Filter(NotIn(s.dropped), Arrivals(s.routes, WhilePaused))
    && Ascending(s.dropped) && (forall d :: d in s.dropped ==> d in Arrivals(s.routes, WhilePaused))
    && (forall d, p :: d in s.dropped && p in s.paused ==> d < p)
  }

  ghost predicate Judged(s: State)
  {
    && (s.loop.Deciding? ==> s.loop.judged == s.buffer && |s.buffer| > 0)
    && (forall i :: 0 <= i < |s.turns| && s.turns[i].Respond? ==> s.turns[i].fragments == s.turns[i].judged && |s.turns[i].judged| > 0)
  }

  lemma {:induction false} ArrivalsMembers(routes: seq<Route>, r: Route, id: int)
    ensures id in Arrivals(routes, r) <==> 0 <= id < |routes| && routes[id] == r
    decreases |routes|
  {
    if |routes| > 0 {
      var n := |routes| - 1;
      ArrivalsMembers(routes[..n], r, id);
    }
  }

  lemma {:induction false} ArrivalsAscend(routes: seq<Route>, r: Route)
    ensures Ascending(Arrivals(routes, r))
    ensures forall id :: id in Arrivals(routes, r) <==> 0 <= id < |routes| && routes[id] == r
    decreases |routes|
  {
    forall id
      ensures id in Arrivals(routes, r) <==> 0 <= id < |routes| && routes[id] == r
    {
      ArrivalsMembers(routes, r, id);
    }
    if |routes| > 0 {
      var n := |routes| - 1;
      ArrivalsAscend(routes[..n], r);
      var a := Arrivals(routes[..n], r);
      assert forall i :: 0 <= i < |a| ==> a[i] in a;
    }
  }

  lemma ArrivalsSnoc(routes: seq<Route>, route: Route, r: Route)
    ensures Arrivals(routes + [route], r) == Arrivals(routes, r) + (if route == r then [|routes|] else [])
  {
    assert (routes + [route])[..|routes|] == routes;
  }

  lemma TurnsSnoc(turns: seq<Turn>, t: Turn)
    ensures Consumed(turns + [t]) == Consumed(turns) + (if t.Replay? then [] else t.fragments)
    ensures Replayed(turns + [t]) == Replayed(turns) + (if t.Replay? then [t.fragment] else [])
  {
    assert (turns + [t])[..|turns|] == turns;
  }

  lemma {:induction false} FilterAscends(keep: int -> bool, ids: seq<int>)
    requires Ascending(ids)
    ensures Ascending(Filter(keep, ids))
    decreases |ids|
  {
    if |ids| > 0 {
      FilterAscends(keep, ids[1..]);
      assert forall x :: x in ids[1..] ==> x > ids[0];
      var f := Filter(keep, ids[1..]);
      assert forall i :: 0 <= i < |f| ==> f[i] in f;
    }
  }

  lemma {:induction false} FilterAll<R>(keep: R -> bool, rows: seq<R>)
    requires forall x :: x in rows ==> keep(x)
    ensures Filter(keep, rows) == rows
    decreases |rows|
  {
    if |rows| > 0 {
      assert rows[0] in rows && forall x :: x in rows[1..] ==> x in rows;
      FilterAll(keep, rows[1..]);
      assert [rows[0]] + rows[1..] == rows;
    }
  }

  function Other(d: int): int -> bool
  {
    (id: int) => id != d
  }

  lemma {:induction false} StrikeMore(ids: seq<int>, gone: seq<int>, d: int)
    ensures Filter(NotIn(gone + [d]), ids) == Filter(Other(d), Filter(NotIn(gone), ids))
    decreases |ids|
  {
    if |ids| > 0 {
      StrikeMore(ids[1..], gone, d);
      var kept := Filter(NotIn(gone), ids[1..]);
      assert ([ids[0]] + kept)[1..] == kept;
    }
  }

  /** Striking one more id out of ascending ids takes out just that one. */
  lemma StrikeOne(ids: seq<int>, gone: seq<int>, before: seq<int>, d: int, after: seq<int>)
    requires Ascending(ids) && Filter(NotIn(gone), ids) == before + [d] + after
    ensures Filter(NotIn(gone + [d]), ids) == before + after
  {
    hide Filter;
    FilterAscends(NotIn(gone), ids);
    StrikeMore(ids, gone, d);
    var all := before + [d] + after;
    assert all[|before|] == d;
    forall x | x in before ensures x != d {
      var i :| 0 <= i < |before| && before[i] == x;
      assert all[i] == x;
    }
    forall x | x in after ensures x != d {
      var i :| 0 <= i < |after| && after[i] == x;
      assert all[|before| + 1 + i] == x;
    }
    FilterConcat(Other(d), before + [d], after);
    FilterSnoc(Other(d), before, d);
    FilterAll(Other(d), before);
    FilterAll(Other(d), after);
    assert before + [] == before;
  }

  // ---- each step ----

  lemma HearConserves(maxSize: nat, s: State, u: Utterance)
    requires Conserved(s) && s.loop.Listening? && |s.paused| <= maxSize
    ensures Conserved(Step(maxSize, s, Hear(u))) && |Step(maxSize, s, Hear(u)).paused| <= maxSize
  {
    hide Filter, Arrivals, Consumed, Replayed, Ascending, Overflow;
    var id, route := |s.routes|, RouteOf(s, u);
    ArrivalsSnoc(s.routes, route, Unmapped);
    ArrivalsSnoc(s.routes, route, Table);
    ArrivalsSnoc(s.routes, route, WhilePaused);
    assert Arrivals(s.routes, Unmapped) + [] == Arrivals(s.routes, Unmapped);
    assert Arrivals(s.routes, Table) + [] == Arrivals(s.routes, Table);
    assert Arrivals(s.routes, WhilePaused) + [] == Arrivals(s.routes, WhilePaused);
    match route
    case Unmapped =>
    case Table => assert Consumed(s.turns) + s.buffer + [id] == Consumed(s.turns) + (s.buffer + [id]);
    case WhilePaused => HoldConserves(maxSize, s);
  }

  /** Holding one more fragment, dropping the oldest past the bound. */
  lemma HoldDrops(held: seq<int>, front: seq<int>, paused: seq<int>, dropped: seq<int>, id: int, maxSize: nat)
    requires Ascending(held + [id]) && Filter(NotIn(dropped), held) == front + paused && id !in dropped && |paused| <= maxSize
    ensures var items := paused + [id];
      var n := Overflow(items, maxSize);
      && n <= 1 && |items[n..]| <= maxSize
      && Filter(NotIn(dropped + items[..n]), held + [id]) == front + items[n..]
  {
    hide Filter, Ascending;
    var items := paused + [id];
    FilterSnoc(NotIn(dropped), held, id);
    assert front + paused + [id] == front + items;
    if Overflow(items, maxSize) == 0 {
      assert items[0..] == items && dropped + items[..0] == dropped;
    } else {
      assert items[..1] == [items[0]] && front + items == front + [items[0]] + items[1..];
      StrikeOne(held + [id], dropped, front, items[0], items[1..]);
    }
  }

  lemma HoldConserves(maxSize: nat, s: State)
    requires Conserved(s) && |s.paused| <= maxSize
    ensures var items := s.paused + [|s.routes|];
      var n := Overflow(items, maxSize);
      var s' := s.(routes := s.routes + [WhilePaused], paused := items[n..], dropped := s.dropped + items[..n]);
      && |s'.paused| <= maxSize
      && Replayed(s'.turns) + s'.drainQueue + s'.paused == Filter(NotIn(s'.dropped), Arrivals(s'.routes, WhilePaused))
      && Ascending(s'.dropped) && (forall d :: d in s'.dropped ==> d in Arrivals(s'.routes, WhilePaused))
      && (forall d, p :: d in s'.dropped && p in s'.paused ==> d < p)
  {
    hide Filter, Arrivals, Consumed, Replayed;
    var id, items := |s.routes|, s.paused + [|s.routes|];
    var held := Arrivals(s.routes, WhilePaused);
    ArrivalsSnoc(s.routes, WhilePaused, WhilePaused);
    ArrivalsAscend(s.routes, WhilePaused);
    ArrivalsAscend(s.routes + [WhilePaused], WhilePaused);
    HoldDrops(held, Replayed(s.turns) + s.drainQueue, s.paused, s.dropped, id, maxSize);
    HeldAscends(s, items);
    DropOldest(s.dropped, items, Overflow(items, maxSize));
  }

  lemma DropOldest(dropped: seq<int>, items: seq<int>, n: nat)
    requires Ascending(dropped) && Ascending(items) && n <= 1 <= |items| && forall d, p :: d in dropped && p in items ==> d < p
    ensures var dropped' := dropped + items[..n];
      && Ascending(dropped') && (forall d, p :: d in dropped' && p in items[n..] ==> d < p)
      && forall d :: d in dropped' ==> d in dropped || d in items
  {
    var dropped' := dropped + items[..n];
    if n == 1 {
      assert items[..1] == [items[0]];
      forall i | 0 <= i < |dropped|
        ensures dropped'[i] < dropped'[|dropped|]
      {
        assert dropped[i] in dropped && items[0] in items;
      }
      forall p | p in items[1..]
        ensures items[0] < p && p in items
      {
        var i :| 0 <= i < |items[1..]| && items[1..][i] == p;
        assert items[i + 1] == p;
      }
    } else {
      assert dropped' == dropped && items[0..] == items;
    }
  }

  lemma HeldAscends(s: State, items: seq<int>)
    requires Conserved(s) && items == s.paused + [|s.routes|]
    ensures Ascending(items) && forall x :: x in items ==> x == |s.routes| || x in Arrivals(s.routes, WhilePaused)
    ensures forall d, p :: d in s.dropped && p in items ==> d < p
  {
    hide Arrivals, Consumed, Replayed;
    var held := Arrivals(s.routes, WhilePaused);
    ArrivalsAscend(s.routes, WhilePaused);
    FilterAscends(NotIn(s.dropped), held);
    var kept := Filter(NotIn(s.dropped), held);
    var front := Replayed(s.turns) + s.drainQueue;
    assert kept == front + s.paused;
    forall i | 0 <= i < |s.paused|
      ensures s.paused[i] in held && s.paused[i] == kept[|front| + i]
    {
      assert kept[|front| + i] in kept;
    }
  }

  ghost predicate Sound(maxSize: nat, s: State)
  {
    Conserved(s) && Judged(s) && |s.paused| <= maxSize
  }

  lemma StepSound(maxSize: nat, s: State, e: Event)
    requires Sound(maxSize, s) && CanHappen(s, e)
    ensures Sound(maxSize, Step(maxSize, s, e))
  {
    match e
    case Hear(u) => HearConserves(maxSize, s, u); HearJudged(maxSize, s, u);
    case Lull(_, _, _, _) => LullSound(maxSize, s, e);
    case Decide(respond) => DecideSound(maxSize, s, respond);
    case ReplayNext => ReplaySound(maxSize, s);
    case SessionResumes => ResumeSound(maxSize, s);
    case _ => BystanderSound(maxSize, s, Step(maxSize, s, e));
  }

  lemma HearJudged(maxSize: nat, s: State, u: Utterance)
    requires Judged(s) && s.loop.Listening?
    ensures Judged(Step(maxSize, s, Hear(u)))
  {
  }

  /** Changes of the roster, the session phase and the end of a turn move no fragment. */
  lemma BystanderSound(maxSize: nat, s: State, s': State)
    requires Sound(maxSize, s) && (s'.loop.Listening? || s'.loop == s.loop)
    requires s'.unmapped == s.unmapped && s'.buffer == s.buffer && s'.paused == s.paused && s'.dropped == s.dropped
    requires s'.drainQueue == s.drainQueue && s'.turns == s.turns && s'.routes == s.routes
    ensures Sound(maxSize, s')
  {
    hide Filter, Arrivals, Consumed, Replayed, Ascending;
  }

  /** A live turn takes the whole buffer. */
  lemma TakeConserves(s: State, t: Turn, loop: Loop, welcomes: seq<string>)
    requires Conserved(s) && !t.Replay? && t.fragments == s.buffer
    ensures Conserved(s.(loop := loop, turns := s.turns + [t], buffer := [], welcomes := welcomes))
  {
    hide Filter, Arrivals, Consumed, Replayed, Ascending;
    TurnsSnoc(s.turns, t);
    assert Consumed(s.turns) + s.buffer + [] == Consumed(s.turns) + s.buffer;
    assert Replayed(s.turns) + [] == Replayed(s.turns);
  }

  lemma LullSound(maxSize: nat, s: State, e: Event)
    requires Sound(maxSize, s) && e.Lull? && CanHappen(s, e)
    ensures Sound(maxSize, Step(maxSize, s, e))
  {
    hide Conserved, Targets;
    var targets := Targets(s, e);
    if s.active && e.ready && |targets| > 0 {
      TakeConserves(s, Onboard(targets, s.buffer), Speaking(targets), s.welcomes + targets);
    } else {
      SameConserved(s, Step(maxSize, s, e));
    }
  }

  lemma SameConserved(s: State, s': State)
    requires Conserved(s)
    requires s'.unmapped == s.unmapped && s'.buffer == s.buffer && s'.paused == s.paused && s'.dropped == s.dropped
    requires s'.drainQueue == s.drainQueue && s'.turns == s.turns && s'.routes == s.routes
    ensures Conserved(s')
  {
    hide Filter, Arrivals, Consumed, Replayed, Ascending;
  }

  lemma DecideSound(maxSize: nat, s: State, respond: bool)
    requires Sound(maxSize, s) && s.loop.Deciding?
    ensures Sound(maxSize, Step(maxSize, s, Decide(respond)))
  {
    hide Conserved;
    if respond {
      TakeConserves(s, Respond(s.loop.judged, s.buffer), Speaking([]), s.welcomes);
    } else {
      SameConserved(s, Step(maxSize, s, Decide(respond)));
    }
  }

  lemma ReplaySound(maxSize: nat, s: State)
    requires Sound(maxSize, s) && |s.drainQueue| > 0
    ensures Sound(maxSize, Step(maxSize, s, ReplayNext))
  {
    hide Filter, Arrivals, Consumed, Replayed, Ascending;
    TurnsSnoc(s.turns, Replay(s.drainQueue[0]));
    assert Consumed(s.turns) + [] == Consumed(s.turns);
    assert s.drainQueue == [s.drainQueue[0]] + s.drainQueue[1..];
    assert Replayed(s.turns) + [s.drainQueue[0]] + s.drainQueue[1..] == Replayed(s.turns) + s.drainQueue;
  }

  lemma ResumeSound(maxSize: nat, s: State)
    requires Sound(maxSize, s)
    ensures Sound(maxSize, Step(maxSize, s, SessionResumes))
  {
    hide Filter, Arrivals, Consumed, Replayed, Ascending;
    assert Replayed(s.turns) + (s.drainQueue + s.paused) + [] == Replayed(s.turns) + s.drainQueue + s.paused;
  }

  lemma {:induction false} RunsSound(maxSize: nat, s: State, es: seq<Event>)
    requires Sound(maxSize, s) && Runs(maxSize, s, es)
    ensures Sound(maxSize, After(maxSize, s, es))
    decreases |es|
  {
    if |es| > 0 {
      hide Sound, Step;
      StepSound(maxSize, s, es[0]);
      RunsSound(maxSize, Step(maxSize, s, es[0]), es[1..]);
    }
  }

  /** From a quiet start every utterance is accounted for, and every response judged exactly what it consumed. */
  lemma SpeechIsConserved(maxSize: nat, es: seq<Event>)
    requires Runs(maxSize, QUIET, es)
    ensures var s := After(maxSize, QUIET, es);
      && s.unmapped == Arrivals(s.routes, Unmapped)
      && Consumed(s.turns) + s.buffer == Arrivals(s.routes, Table)
      && Replayed(s.turns) + s.drainQueue + s.paused == Filter(NotIn(s.dropped), Arrivals(s.routes, WhilePaused))
      && Ascending(s.dropped) && |s.paused| <= maxSize
      && forall i :: 0 <= i < |s.turns| && s.turns[i].Respond? ==> s.turns[i].fragments == s.turns[i].judged && |s.turns[i].judged| > 0
  {
    RunsSound(maxSize, QUIET, es);
  }

  // ---- nobody is welcomed twice ----

  ghost predicate Welcomed(s: State)
  {
    && NoRepeats(s.welcomes)
    && (forall m :: m in s.welcomes ==> m in s.greeted || (s.loop.Speaking? && m in s.loop.welcomed))
  }

  lemma {:induction false} FilterKeepsNoRepeats(keep: string -> bool, names: seq<string>)
    requires NoRepeats(names)
    ensures NoRepeats(Filter(keep, names))
    decreases |names|
  {
    if |names| > 0 {
      FilterKeepsNoRepeats(keep, names[1..]);
      var f := Filter(keep, names[1..]);
      forall i | 0 <= i < |f|
        ensures f[i] != names[0]
      {
        assert f[i] in f;
        var j :| 0 <= j < |names[1..]| && names[1..][j] == f[i];
        assert names[j + 1] == f[i];
      }
    }
  }

  ghost predicate RostersDistinct(es: seq<Event>)
  {
    forall i :: 0 <= i < |es| && es[i].Lull? ==> NoRepeats(es[i].present)
  }

  lemma WelcomeStep(maxSize: nat, s: State, e: Event)
    requires Welcomed(s) && CanHappen(s, e) && (e.Lull? ==> NoRepeats(e.present))
    ensures Welcomed(Step(maxSize, s, e))
  {
    hide Filter;
    if e.Lull? {
      FilterKeepsNoRepeats(AwaitsWelcome(s.blocked, e.consented, e.mapped, s.greeted), e.present);
      var targets := Targets(s, e);
      assert forall i :: 0 <= i < |targets| ==> targets[i] in targets;
      assert forall i :: 0 <= i < |s.welcomes| ==> s.welcomes[i] in s.welcomes;
    }
  }

  /** No member present is ever given the onboarding welcome twice in a session. */
  lemma {:induction false} WelcomedOnce(maxSize: nat, s: State, es: seq<Event>)
    requires Welcomed(s) && Runs(maxSize, s, es) && RostersDistinct(es)
    ensures NoRepeats(After(maxSize, s, es).welcomes)
    decreases |es|
  {
    if |es| > 0 {
      hide Step, NoRepeats, Welcomed;
      WelcomeStep(maxSize, s, es[0]);
      assert RostersDistinct(es[1..]);
      WelcomedOnce(maxSize, Step(maxSize, s, es[0]), es[1..]);
    } else {
      WelcomedNow(s);
    }
  }

  lemma WelcomedNow(s: State)
    requires Welcomed(s)
    ensures NoRepeats(s.welcomes)
  {
  }

  // ---- the buffers and the loop ----

  /** The bounded buffer of a pause: older items are dropped and counted. */
  class PausedInputBuffer<T> {
    const maxSize: nat
    var items: seq<T>
    var droppedCount: nat
    /** Everything pushed since the last drain. */
    ghost var pushed: seq<T>

    ghost predicate Valid()
      reads this
    {
      |items| <= maxSize && droppedCount <= |pushed| && items == pushed[droppedCount..]
    }

    constructor (maxSize: nat)
      ensures Valid() && this.maxSize == maxSize && items == [] && pushed == [] && droppedCount == 0
    {
      this.maxSize := maxSize;
      items, droppedCount, pushed := [], 0, [];
    }

    method Push(item: T)
      requires Valid()
      modifies this
      ensures Valid() && pushed == old(pushed) + [item]
      ensures droppedCount > old(droppedCount) ==> |items| == maxSize
      ensures droppedCount >= old(droppedCount)
    {
      items := items + [item];
      pushed := pushed + [item];
      while |items| > maxSize
        invariant droppedCount <= |pushed| && items == pushed[droppedCount..] && pushed == old(pushed) + [item]
        invariant droppedCount >= old(droppedCount) && (droppedCount > old(droppedCount) ==> |items| >= maxSize)
        decreases |items|
      {
        items := items[1..];
        droppedCount := droppedCount + 1;
      }
    }

    method Drain() returns (out: seq<T>)
      requires Valid()
      modifies this
      ensures Valid() && out == old(pushed)[old(droppedCount)..] && |out| <= maxSize
      ensures items == [] && pushed == [] && droppedCount == 0
    {
      out := items;
      items := [];
      droppedCount := 0;
      pushed := [];
    }
  }

  class TranscriptionBuffer {
    var fragments: seq<int>

    constructor ()
      ensures fragments == []
    {
      fragments := [];
    }

    /** Interim results are not kept. */
    method Append(fragment: int, final: bool)
      modifies this
      ensures fragments == old(fragments) + (if final then [fragment] else [])
    {
      if !final { return; }
      fragments := fragments + [fragment];
    }

    method Drain() returns (out: seq<int>)
      modifies this
      ensures out == old(fragments) && fragments == []
    {
      out := fragments;
      fragments := [];
    }
  }

  /** The event loop, cut at its awaits. */
  class AlwaysListeningLoop {
    const buffer: TranscriptionBuffer
    const pausedInputs: PausedInputBuffer<int>
    var loop: Loop
    var active: bool
    var identityBlocked: set<string>
    var greeted: set<string>
    var drainQueue: seq<int>
    ghost var unmapped: seq<int>
    ghost var dropped: seq<int>
    ghost var turns: seq<Turn>
    ghost var welcomes: seq<string>
    var arrivals: int
    ghost var routes: seq<Route>

    ghost predicate Valid()
      reads this, pausedInputs
    {
      arrivals == |routes| && pausedInputs.Valid()
    }

    ghost function View(): State
      reads this, buffer, pausedInputs
    {
      State(loop, active, identityBlocked, greeted, unmapped, pausedInputs.items, dropped, buffer.fragments, drainQueue,
            turns, welcomes, routes)
    }

    constructor (maxSize: nat)
      ensures Valid() && View() == QUIET && pausedInputs.maxSize == maxSize && fresh(buffer) && fresh(pausedInputs)
    {
      buffer := new TranscriptionBuffer();
      pausedInputs := new PausedInputBuffer<int>(maxSize);
      loop, active, identityBlocked, greeted, drainQueue, arrivals := Listening, true, {}, {}, [], 0;
      unmapped, dropped, turns, welcomes, routes := [], [], [], [], [];
    }

    method OnUtterance(u: Utterance)
      requires Valid() && loop.Listening?
      modifies this, buffer, pausedInputs
      ensures Valid() && View() == Step(pausedInputs.maxSize, old(View()), Hear(u))
      ensures unmapped == old(unmapped) + (if u.speaker in old(identityBlocked) then [old(arrivals)] else [])
      ensures buffer.fragments == old(buffer.fragments)
        + (if u.speaker !in old(identityBlocked) && old(active) then [old(arrivals)] else [])
      ensures pausedInputs.pushed == old(pausedInputs.pushed)
        + (if u.speaker !in old(identityBlocked) && !old(active) then [old(arrivals)] else [])
    {
      ghost var route := RouteOf(View(), u);
      var id := arrivals;
      arrivals := arrivals + 1;
      routes := routes + [route];
      if u.speaker in identityBlocked {
        unmapped := unmapped + [id];
        return;
      }
      if !active {
        ghost var held := pausedInputs.items + [id];
        pausedInputs.Push(id);
        ghost var n := Overflow(held, pausedInputs.maxSize);
        assert pausedInputs.items == held[n..];
        dropped := dropped + held[..n];
        return;
      }
      buffer.Append(id, true);
    }

    method OnLull(ready: bool, present: seq<string>, consented: set<string>, mapped: set<string>)
      requires Valid() && loop.Listening?
      modifies this, buffer
      ensures Valid() && View() == Step(pausedInputs.maxSize, old(View()), Lull(ready, present, consented, mapped))
    {
      if !active { return; }
      var targets := Filter(AwaitsWelcome(identityBlocked, consented, mapped, greeted), present);
      if !ready { return; }
      if |targets| > 0 {
        var merged := buffer.Drain();
        turns := turns + [Onboard(targets, merged)];
        welcomes := welcomes + targets;
        loop := Speaking(targets);
        return;
      }
      if |buffer.fragments| == 0 { return; }
      loop := Deciding(buffer.fragments);
    }

    method OnDecision(respond: bool)
      requires Valid() && loop.Deciding?
      modifies this, buffer
      ensures Valid() && View() == Step(pausedInputs.maxSize, old(View()), Decide(respond))
    {
      ghost var judged := loop.judged;
      loop := Listening;
      if !respond || |buffer.fragments| == 0 { return; }
      var fragments := buffer.Drain();
      turns := turns + [Respond(judged, fragments)];
      loop := Speaking([]);
    }

    method OnResumed()
      requires Valid()
      modifies this, pausedInputs
      ensures Valid() && View() == Step(pausedInputs.maxSize, old(View()), SessionResumes)
    {
      if active { return; }
      active := true;
      var buffered := pausedInputs.Drain();
      drainQueue := drainQueue + buffered;
    }

    method ReplayOne() returns (fragment: int)
      requires Valid() && |drainQueue| > 0
      modifies this
      ensures Valid() && View() == Step(pausedInputs.maxSize, old(View()), ReplayNext) && fragment == old(drainQueue[0])
    {
      fragment := drainQueue[0];
      drainQueue := drainQueue[1..];
      turns := turns + [Replay(fragment)];
    }
  }
}
