/** The push queue and the router's merge (orchestrator/src/surfaces/async_queue.ts, router.ts). */
module EventQueue {
  import opened Options

  /** The single consumer: between items, parked on a resolver, handed an item or the end, or finished. */
  datatype Consumer<T> = Asking | Parked | Handed(item: T) | HandedEnd | Finished

  datatype Queue<T> = Queue(items: seq<T>, closed: bool, consumer: Consumer<T>, delivered: seq<T>, accepted: seq<T>)

  datatype Event<T> = Push(item: T) | Close | Ask | Wake

  function Fresh<T>(): Queue<T>
  {
    Queue([], false, Asking, [], [])
  }

  predicate CanHappen<T>(q: Queue<T>, e: Event<T>)
  {
    match e
    case Ask => q.consumer.Asking?
    case Wake => q.consumer.Handed? || q.consumer.HandedEnd?
    case _ => true
  }

  function Step<T>(q: Queue<T>, e: Event<T>): Queue<T>
    requires CanHappen(q, e)
  {
    match e
    case Push(x) =>
      if q.closed then q
      else if q.consumer.Parked? then q.(consumer := Handed(x), accepted := q.accepted + [x])
      else q.(items := q.items + [x], accepted := q.accepted + [x])
    case Close =>
      if q.closed then q else q.(closed := true, consumer := if q.consumer.Parked? then HandedEnd else q.consumer)
    case Ask =>
      if |q.items| > 0 then q.(items := q.items[1..], delivered := q.delivered + [q.items[0]])
      else if q.closed then q.(consumer := Finished)
      else q.(consumer := Parked)
    case Wake =>
      if q.consumer.HandedEnd? then q.(consumer := Finished)
      else q.(consumer := Asking, delivered := q.delivered + [q.consumer.item])
  }

  predicate Runs<T>(q: Queue<T>, es: seq<Event<T>>)
    decreases |es|
  {
    |es| == 0 || (CanHappen(q, es[0]) && Runs(Step(q, es[0]), es[1..]))
  }

  function After<T>(q: Queue<T>, es: seq<Event<T>>): Queue<T>
    requires Runs(q, es)
    decreases |es|
  {
    if |es| == 0 then q else After(Step(q, es[0]), es[1..])
  }

  function InFlight<T>(q: Queue<T>): seq<T>
  {
    if q.consumer.Handed? then [q.consumer.item] else []
  }

  ghost predicate Sound<T>(q: Queue<T>)
  {
    && q.delivered + InFlight(q) + q.items == q.accepted
    && (q.consumer.Parked? || q.consumer.HandedEnd? ==> |q.items| == 0)
    && (q.consumer.Parked? ==> !q.closed)
    && (q.consumer.Finished? || q.consumer.HandedEnd? ==> q.closed && |q.items| == 0)
  }

  lemma StepSound<T>(q: Queue<T>, e: Event<T>)
    requires Sound(q) && CanHappen(q, e)
    ensures Sound(Step(q, e))
  {
    match e
    case Push(x) =>
      assert q.delivered + [] + [] == q.delivered && q.delivered + [x] + [] == q.delivered + [x];
      assert q.delivered + InFlight(q) + (q.items + [x]) == q.delivered + InFlight(q) + q.items + [x];
    case Ask =>
      if |q.items| > 0 {
        assert q.items == [q.items[0]] + q.items[1..];
        assert q.delivered + [q.items[0]] + [] + q.items[1..] == q.delivered + [] + q.items;
      }
    case Wake => assert q.delivered + InFlight(q) + [] + q.items == q.delivered + InFlight(q) + q.items;
    case Close =>
  }

  lemma {:induction false} RunsSound<T>(q: Queue<T>, es: seq<Event<T>>)
    requires Sound(q) && Runs(q, es)
    ensures Sound(After(q, es))
    decreases |es|
  {
    if |es| > 0 {
      hide Sound, Step;
      StepSound(q, es[0]);
      RunsSound(Step(q, es[0]), es[1..]);
    }
  }

  /**
   * What was delivered, is in flight and is queued is exactly what was pushed before the close, in
   * order; items and a parked consumer never coexist; the end is seen only after every item.
   */
  lemma NothingLostOrReordered<T>(es: seq<Event<T>>)
    requires Runs(Fresh<T>(), es)
    ensures var q := After(Fresh<T>(), es);
      && q.delivered + InFlight(q) + q.items == q.accepted
      && (q.consumer.Parked? ==> |q.items| == 0 && !q.closed)
      && (q.consumer.Finished? ==> q.closed && q.delivered == q.accepted)
  {
    RunsSound(Fresh<T>(), es);
    var q := After(Fresh<T>(), es);
    assert q.delivered + [] + [] == q.delivered;
  }

  // ---- the router's merge ----

  datatype Tagged<T> = Tagged(source: nat, event: T)

  /** One pump per inbound surface. The queue is closed by a continuation that runs once all have ended without failing. */
  datatype Merge<T> = Merge(queue: Queue<Tagged<T>>, pumped: seq<seq<T>>, ended: set<nat>, failed: set<nat>)

  datatype Move<T> = Pump(source: nat, event: T) | PumpEnds(source: nat) | PumpFails(source: nat) | AllDone | Consume(ask: bool)

  predicate Pumping<T>(m: Merge<T>, i: nat)
  {
    i < |m.pumped| && i !in m.ended && i !in m.failed
  }

  predicate CanMove<T>(m: Merge<T>, v: Move<T>)
  {
    match v
    case Pump(i, _) => Pumping(m, i)
    case PumpEnds(i) => Pumping(m, i)
    case PumpFails(i) => Pumping(m, i)
    case AllDone => AllEnded(|m.pumped|, m.ended)
    case Consume(ask) => CanHappen(m.queue, if ask then Ask else Wake)
  }

  predicate AllEnded(n: nat, ended: set<nat>)
  {
    forall i :: 0 <= i < n ==> i in ended
  }

  function Moved<T>(m: Merge<T>, v: Move<T>): Merge<T>
    requires CanMove(m, v)
  {
    match v
    case Pump(i, x) => m.(queue := Step(m.queue, Push(Tagged(i, x))), pumped := m.pumped[i := m.pumped[i] + [x]])
    case PumpEnds(i) => m.(ended := m.ended + {i})
    case PumpFails(i) => m.(failed := m.failed + {i})
    case AllDone => m.(queue := Step(m.queue, Close))
    case Consume(ask) => m.(queue := Step(m.queue, if ask then Ask else Wake))
  }

  /** The events of one source, in order. */
  function From<T>(i: nat, s: seq<Tagged<T>>): seq<T>
  {
    if |s| == 0 then []
    else From(i, s[..|s| - 1]) + (if s[|s| - 1].source == i then [s[|s| - 1].event] else [])
  }

  ghost predicate Merged<T>(m: Merge<T>)
  {
    && Sound(m.queue)
    && (forall i: nat :: i < |m.pumped| ==> From(i, m.queue.accepted) == m.pumped[i])
    && (forall k :: 0 <= k < |m.queue.accepted| ==> m.queue.accepted[k].source < |m.pumped|)
    && (m.queue.closed ==> AllEnded(|m.pumped|, m.ended))
    && m.ended !! m.failed
    && (forall i :: i in m.failed ==> i < |m.pumped|)
  }

  lemma FromSnoc<T>(i: nat, s: seq<Tagged<T>>, x: Tagged<T>)
    ensures From(i, s + [x]) == From(i, s) + (if x.source == i then [x.event] else [])
  {
    assert (s + [x])[..|s|] == s;
  }

  lemma PumpMerged<T>(m: Merge<T>, i: nat, x: T)
    requires Merged(m) && CanMove(m, Pump(i, x))
    ensures Merged(Moved(m, Pump(i, x)))
  {
    StepSound(m.queue, Push(Tagged(i, x)));
    hide Sound, From;
    assert !m.queue.closed;
    var all := m.queue.accepted;
    forall j: nat | j < |m.pumped|
      ensures From(j, all + [Tagged(i, x)]) == m.pumped[i := m.pumped[i] + [x]][j]
    {
      FromSnoc(j, all, Tagged(i, x));
      assert From(j, all) + [] == From(j, all);
    }
  }

  lemma MoveMerged<T>(m: Merge<T>, v: Move<T>)
    requires Merged(m) && CanMove(m, v)
    ensures Merged(Moved(m, v))
  {
    match v
    case Pump(i, x) => PumpMerged(m, i, x);
    case PumpEnds(i) => EndMerged(m, v);
    case PumpFails(i) => EndMerged(m, v);
    case AllDone => StepSound(m.queue, Close); EndMerged(m, v);
    case Consume(ask) => StepSound(m.queue, if ask then Ask else Wake); ConsumeMerged(m, ask);
  }

  lemma EndMerged<T>(m: Merge<T>, v: Move<T>)
    requires Merged(m) && CanMove(m, v) && (v.PumpEnds? || v.PumpFails? || v.AllDone?)
    requires v.AllDone? ==> Sound(Step(m.queue, Close))
    ensures Merged(Moved(m, v))
  {
    hide Sound, From;
  }

  lemma ConsumeMerged<T>(m: Merge<T>, ask: bool)
    requires Merged(m) && CanMove(m, Consume(ask)) && Sound(Step(m.queue, if ask then Ask else Wake))
    ensures Merged(Moved(m, Consume(ask)))
  {
    hide Sound, From;
  }

  predicate MovesRun<T>(m: Merge<T>, vs: seq<Move<T>>)
    decreases |vs|
  {
    |vs| == 0 || (CanMove(m, vs[0]) && MovesRun(Moved(m, vs[0]), vs[1..]))
  }

  function AfterMoves<T>(m: Merge<T>, vs: seq<Move<T>>): Merge<T>
    requires MovesRun(m, vs)
    decreases |vs|
  {
    if |vs| == 0 then m else AfterMoves(Moved(m, vs[0]), vs[1..])
  }

  lemma {:induction false} MovesMerged<T>(m: Merge<T>, vs: seq<Move<T>>)
    requires Merged(m) && MovesRun(m, vs)
    ensures Merged(AfterMoves(m, vs)) && |AfterMoves(m, vs).pumped| == |m.pumped|
    decreases |vs|
  {
    if |vs| > 0 {
      hide Merged;
      MoveMerged(m, vs[0]);
      MovesMerged(Moved(m, vs[0]), vs[1..]);
    }
  }

  function Start<T>(sources: nat): Merge<T>
  {
    Merge(Fresh<Tagged<T>>(), seq(sources, _ => []), {}, {})
  }

  /**
   * The merged stream is a shuffle: restricted to one source it is that source's events in order, with
   * nothing added from elsewhere. When it ends every event of every source has been delivered; it
   * never ends after a pump failed.
   */
  lemma MergeIsShuffle<T>(sources: nat, vs: seq<Move<T>>)
    requires MovesRun(Start<T>(sources), vs)
    ensures var m := AfterMoves(Start<T>(sources), vs);
      var all := m.queue.delivered + InFlight(m.queue) + m.queue.items;
      && |m.pumped| == sources
      && (forall i: nat :: i < sources ==> From(i, all) == m.pumped[i])
      && (forall k :: 0 <= k < |all| ==> all[k].source < sources)
      && (m.queue.consumer.Finished? ==> AllEnded(sources, m.ended) && m.queue.delivered == all)
      && (m.failed != {} ==> !m.queue.closed && !AllEnded(sources, m.ended))
  {
    var start := Start<T>(sources);
    assert forall i: nat :: i < sources ==> From(i, start.queue.accepted) == [];
    MovesMerged(start, vs);
    var m := AfterMoves(start, vs);
    assert m.queue.delivered + [] + [] == m.queue.delivered;
    if i :| i in m.failed {
      assert i < |m.pumped| && i !in m.ended;
    }
  }

  /** What is left of the merged stream can always be consumed to its end once every pump has ended; with no pumps, at once. */
  lemma {:induction false} EndedMergeDrains<T>(m: Merge<T>) returns (vs: seq<Move<T>>)
    requires Merged(m) && AllEnded(|m.pumped|, m.ended)
    ensures MovesRun(m, vs) && AfterMoves(m, vs).queue.consumer.Finished?
    ensures AfterMoves(m, vs).queue.accepted == m.queue.accepted
    decreases !m.queue.closed, if m.queue.consumer.Finished? then 0 else 1 + |m.queue.items| + |InFlight(m.queue)|, !m.queue.consumer.Asking?
  {
    if m.queue.consumer.Finished? {
      vs := [];
    } else {
      var v: Move<T> := if !m.queue.closed then AllDone else Consume(m.queue.consumer.Asking?);
      MoveMerged(m, v);
      var rest := EndedMergeDrains(Moved(m, v));
      vs := [v] + rest;
      assert vs[0] == v && vs[1..] == rest;
    }
  }

  class AsyncQueue<T> {
    var items: seq<T>
    var closed: bool
    /** The consumer's generator; `Parked` is the one resolver the source keeps in its list. */
    var consumer: Consumer<T>
    ghost var delivered: seq<T>
    ghost var accepted: seq<T>

    ghost function View(): Queue<T>
      reads this
    {
      Queue(items, closed, consumer, delivered, accepted)
    }

    constructor ()
      ensures View() == Fresh<T>()
    {
      items, closed, consumer, delivered, accepted := [], false, Asking, [], [];
    }

    method DoPush(item: T)
      modifies this
      ensures View() == Step(old(View()), Push(item))
    {
      if closed { return; }
      accepted := accepted + [item];
      if consumer.Parked? {
        consumer := Handed(item);
      } else {
        items := items + [item];
      }
    }

    method DoClose()
      modifies this
      ensures View() == Step(old(View()), Close)
    {
      if closed { return; }
      closed := true;
      if consumer.Parked? { consumer := HandedEnd; }
    }

    /** `next()` up to a yield, the end, or its await. */
    method Next() returns (item: Option<T>)
      requires consumer.Asking?
      modifies this
      ensures View() == Step(old(View()), Ask)
      ensures item == if |old(items)| > 0 then Some(old(items)[0]) else None
    {
      if |items| > 0 {
        item := Some(items[0]);
        delivered := delivered + [items[0]];
        items := items[1..];
        return;
      }
      item := None;
      consumer := if closed then Finished else Parked;
    }

    method OnResolved() returns (item: Option<T>)
      requires CanHappen(View(), Wake)
      modifies this
      ensures View() == Step(old(View()), Wake)
      ensures item == if old(consumer).Handed? then Some(old(consumer).item) else None
    {
      if consumer.HandedEnd? {
        consumer := Finished;
        return None;
      }
      item := Some(consumer.item);
      delivered := delivered + [consumer.item];
      consumer := Asking;
    }
  }
}
