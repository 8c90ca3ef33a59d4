/** Refreshes of several campaigns over one store, each suspended at its awaits (index-refresh.ts). */
module IndexInterleaving {
  import opened Options
  import opened Tables
  import opened Ranking
  import opened MemoryStore
  import opened IndexRefresh
  import opened IndexTheorems
  import opened IndexFailures
  import opened IndexSync

  /**
   * One source being synced: what it decided to write when it looked at the store, and
   * how many of those records are stored by now.
   */
  datatype Job = Job(refresh: Refresh, written: seq<MemoryRecord>, tombstones: seq<MemoryRecord>, done: nat)

  /** A campaign refreshes one source at a time; `log` lists the attempts that are over. */
  datatype World = World(store: Store, jobs: map<string, Job>, log: seq<Attempt>)

  datatype Event =
    | Look(refresh: Refresh, tombstones: seq<MemoryRecord>)
    | Write(campaign: string, n: nat)
    | Throws(campaign: string)
    | Ends(campaign: string)

  function Idle(m: Store): World
  {
    World(m, map[], [])
  }

  function CampaignOf(e: Event): string
  {
    if e.Look? then e.refresh.campaignId else e.campaign
  }

  function EventOf(c: string): Event -> bool
  {
    (e: Event) => CampaignOf(e) == c
  }

  function AttemptOf(c: string): Attempt -> bool
  {
    (a: Attempt) => a.refresh.campaignId == c
  }

  function Output(j: Job): seq<MemoryRecord>
  {
    j.written + j.tombstones
  }

  ghost predicate Buries(m: Store, r: Refresh, tombstones: seq<MemoryRecord>)
  {
    Burials(m, VanishedIds(m, r.campaignId, r.source, r.entries), tombstones)
  }

  ghost predicate CanHappen(w: World, e: Event)
  {
    match e
    case Look(r, tombstones) => r.campaignId !in w.jobs && r.source != Compendium && Buries(w.store, r, tombstones)
    case Write(c, n) => c in w.jobs && w.jobs[c].done + n <= |Output(w.jobs[c])|
    case Throws(c) => c in w.jobs && w.jobs[c].done < |w.jobs[c].written|
    case Ends(c) => c in w.jobs && w.jobs[c].done == |Output(w.jobs[c])|
  }

  function WrittenBy(embedder: Embedder, m: Store, r: Refresh): seq<MemoryRecord>
  {
    Written(embedder, m, r.campaignId, r.source, r.now, r.entries)
  }

  ghost function Step(embedder: Embedder, w: World, e: Event): World
    requires CanHappen(w, e)
  {
    match e
    case Look(r, tombstones) =>
      w.(jobs := w.jobs[r.campaignId := Job(r, WrittenBy(embedder, w.store, r), tombstones, 0)])
    case Write(c, n) =>
      var j := w.jobs[c];
      w.(store := PutAllMap(w.store, Output(j)[j.done..j.done + n]), jobs := w.jobs[c := j.(done := j.done + n)])
    case Throws(c) => w.(jobs := w.jobs - {c}, log := w.log + [Attempt(w.jobs[c].refresh, Some(w.jobs[c].done))])
    case Ends(c) => w.(jobs := w.jobs - {c}, log := w.log + [Attempt(w.jobs[c].refresh, None)])
  }

  ghost predicate Runs(embedder: Embedder, w: World, es: seq<Event>)
    decreases |es|
  {
    |es| == 0 || (CanHappen(w, es[0]) && Runs(embedder, Step(embedder, w, es[0]), es[1..]))
  }

  ghost function Finally(embedder: Embedder, w: World, es: seq<Event>): World
    requires Runs(embedder, w, es)
    decreases |es|
  {
    if |es| == 0 then w else Finally(embedder, Step(embedder, w, es[0]), es[1..])
  }

  // ---- the records of one campaign ----

  ghost predicate OwnId(c: string, id: string)
  {
    exists s, f :: s != Compendium && id == RecordId(c, s, f)
  }

  ghost predicate Own(c: string, r: MemoryRecord)
  {
    exists s, f :: s != Compendium && r.id == RecordId(c, s, f) && Belongs(r, c, s, f)
  }

  /** Two stores hold the same records for campaign `c`. */
  ghost predicate SameFor(c: string, a: Store, b: Store)
  {
    forall id :: OwnId(c, id) ==> Get(a, id) == Get(b, id)
  }

  ghost predicate AllOwn(c: string, rs: seq<MemoryRecord>)
  {
    forall r :: r in rs ==> Own(c, r)
  }

  lemma OwnWrites(embedder: Embedder, m: Store, r: Refresh, tombstones: seq<MemoryRecord>)
    requires WellKeyed(m) && r.source != Compendium && Buries(m, r, tombstones)
    ensures AllOwn(r.campaignId, WrittenBy(embedder, m, r) + tombstones)
  {
    hide Written, NeedsIngest, Speaks, EntryId, Ids;
    var c, s := r.campaignId, r.source;
    WrittenMembers(embedder, m, c, s, r.now, r.entries);
    forall x | x in WrittenBy(embedder, m, r)
      ensures Own(c, x)
    {
      var e :| e in r.entries && WrittenFor(embedder, m, c, s, r.now, e, x);
      assert x.id == RecordId(c, s, e.foundryId) && Belongs(x, c, s, e.foundryId);
    }
    forall x | x in tombstones
      ensures Own(c, x)
    {
      assert KeyedAt(m, x.id) && Vanished(m, c, s, r.entries, x.id);
      var f := m[x.id].metadata.foundryId.value;
      assert x.id == RecordId(c, s, f) && Belongs(x, c, s, f);
    }
  }

  lemma OwnPutsStayKeyed(m: Store, c: string, rs: seq<MemoryRecord>)
    requires WellKeyed(m) && AllOwn(c, rs)
    ensures WellKeyed(PutAllMap(m, rs))
  {
    hide RecordId, PutAllMap;
    var m' := PutAllMap(m, rs);
    forall id | id in m'
      ensures KeyedAt(m', id)
    {
      PutAllFrom(m, rs, id);
      assert id in m ==> KeyedAt(m, id);
    }
  }

  lemma OthersKeep(m: Store, c: string, rs: seq<MemoryRecord>, c': string)
    requires AllOwn(c, rs) && c != c' && !Entangled(c, c')
    ensures SameFor(c', PutAllMap(m, rs), m)
  {
    hide RecordId, PutAllMap, Entangled;
    forall id | OwnId(c', id)
      ensures Get(PutAllMap(m, rs), id) == Get(m, id)
    {
      var s', f' :| s' != Compendium && id == RecordId(c', s', f');
      forall r | r in rs
        ensures r.id != id
      {
        var s, f :| s != Compendium && r.id == RecordId(c, s, f) && Belongs(r, c, s, f);
        if r.id == id { RecordIdInjective(c, s, f, c', s', f'); }
      }
      PutAllMisses(m, rs, id);
    }
  }

  lemma {:induction false} PutAllAlike(a: Store, b: Store, rs: seq<MemoryRecord>, id: string)
    requires Get(a, id) == Get(b, id)
    ensures Get(PutAllMap(a, rs), id) == Get(PutAllMap(b, rs), id)
    decreases |rs|
  {
    if |rs| > 0 { PutAllAlike(a[rs[0].id := rs[0]], b[rs[0].id := rs[0]], rs[1..], id); }
  }

  /** What a campaign decides to write, and whether it agrees, depends on its own records alone. */
  lemma SlotsAlike(c: string, a: Store, b: Store, s: MemorySource, f: string)
    requires SameFor(c, a, b) && s != Compendium
    ensures Get(a, RecordId(c, s, f)) == Get(b, RecordId(c, s, f)) && LiveAt(a, c, s, f) == LiveAt(b, c, s, f)
  {
    hide RecordId;
    assert OwnId(c, RecordId(c, s, f));
  }

  lemma ListedAlike(c: string, a: Store, b: Store, s: MemorySource, id: string)
    requires WellKeyed(a) && SameFor(c, a, b) && s != Compendium && Listed(a, c, s, id)
    ensures Get(b, id) == Some(a[id]) && Listed(b, c, s, id) && OwnId(c, id)
  {
    hide RecordId;
    assert KeyedAt(a, id);
    SlotsAlike(c, a, b, s, a[id].metadata.foundryId.value);
  }

  lemma DecisionsAlike(embedder: Embedder, c: string, a: Store, b: Store, r: Refresh, tombstones: seq<MemoryRecord>)
    requires WellKeyed(a) && WellKeyed(b) && SameFor(c, a, b) && r.campaignId == c && r.source != Compendium
    ensures WrittenBy(embedder, a, r) == WrittenBy(embedder, b, r)
    ensures Buries(a, r, tombstones) ==> Buries(b, r, tombstones)
  {
    hide RecordId, WellKeyed, Filter, IngestRecords, Project;
    forall e ensures NeedsIngest(a, c, r.source)(e) == NeedsIngest(b, c, r.source)(e) {
      SlotsAlike(c, a, b, r.source, e.foundryId);
    }
    SameFilter(NeedsIngest(a, c, r.source), NeedsIngest(b, c, r.source), r.entries);
    VanishAlike(c, a, b, r);
  }

  lemma VanishAlike(c: string, a: Store, b: Store, r: Refresh)
    requires WellKeyed(a) && WellKeyed(b) && SameFor(c, a, b) && r.campaignId == c && r.source != Compendium
    ensures VanishedIds(a, c, r.source, r.entries) == VanishedIds(b, c, r.source, r.entries)
    ensures forall id :: id in VanishedIds(a, c, r.source, r.entries) ==> id in b && a[id] == b[id]
  {
    hide RecordId, WellKeyed, SameFor, Ids;
    SameForBack(c, a, b);
    forall id | Listed(a, c, r.source, id)
      ensures Get(b, id) == Some(a[id]) && Listed(b, c, r.source, id)
    {
      ListedAlike(c, a, b, r.source, id);
    }
    forall id | Listed(b, c, r.source, id)
      ensures Get(a, id) == Some(b[id]) && Listed(a, c, r.source, id)
    {
      ListedAlike(c, b, a, r.source, id);
    }
  }

  lemma SameForBack(c: string, a: Store, b: Store)
    requires SameFor(c, a, b)
    ensures SameFor(c, b, a)
  {
  }

  lemma AgreesAlike(c: string, a: Store, b: Store, s: MemorySource, entries: seq<CurrentEntry>)
    requires WellKeyed(a) && SameFor(c, a, b) && s != Compendium && Agrees(b, c, s, entries)
    ensures Agrees(a, c, s, entries)
  {
    hide RecordId, WellKeyed, SameFor, LiveAt, Ids;
    forall e | e in entries
      ensures Reflects(LiveAt(a, c, s, e.foundryId), e)
    {
      SlotsAlike(c, a, b, s, e.foundryId);
    }
    forall id | Listed(a, c, s, id)
      ensures a[id].metadata.foundryId.value in Ids(entries)
    {
      ListedAlike(c, a, b, s, id);
    }
  }

  // ---- striking out what other campaigns do ----

  ghost predicate Ordered(w: World)
  {
    && WellKeyed(w.store)
    && forall c :: c in w.jobs ==> w.jobs[c].refresh.campaignId == c && AllOwn(c, Output(w.jobs[c]))
  }

  lemma StepOrdered(embedder: Embedder, w: World, e: Event)
    requires Ordered(w) && CanHappen(w, e)
    ensures Ordered(Step(embedder, w, e))
  {
    hide WellKeyed, Written, PutAllMap, Own, Buries;
    match e
    case Look(r, tombstones) => OwnWrites(embedder, w.store, r, tombstones);
    case Write(c, n) =>
      var j := w.jobs[c];
      assert forall r :: r in Output(j)[j.done..j.done + n] ==> r in Output(j);
      OwnPutsStayKeyed(w.store, c, Output(j)[j.done..j.done + n]);
    case _ =>
  }

  ghost predicate Alike(c: string, w: World, v: World)
  {
    && SameFor(c, w.store, v.store)
    && Get(w.jobs, c) == Get(v.jobs, c)
    && Filter(AttemptOf(c), w.log) == Filter(AttemptOf(c), v.log)
  }

  /** A step of another campaign is invisible to `c`. */
  lemma OtherStep(embedder: Embedder, c: string, w: World, v: World, e: Event)
    requires Ordered(w) && CanHappen(w, e) && Alike(c, w, v) && CampaignOf(e) != c && !Entangled(CampaignOf(e), c)
    ensures Alike(c, Step(embedder, w, e), v)
  {
    hide WellKeyed, Written, PutAllMap, Own, Buries, Entangled, Filter;
    match e
    case Write(c', n) =>
      var j := w.jobs[c'];
      assert forall r :: r in Output(j)[j.done..j.done + n] ==> r in Output(j);
      OthersKeep(w.store, c', Output(j)[j.done..j.done + n], c);
    case Throws(c') => FilterSnoc(AttemptOf(c), w.log, Attempt(w.jobs[c'].refresh, Some(w.jobs[c'].done)));
    case Ends(c') => FilterSnoc(AttemptOf(c), w.log, Attempt(w.jobs[c'].refresh, None));
    case _ =>
  }

  /** A step of `c` itself goes the same way in both worlds. */
  lemma OwnStep(embedder: Embedder, c: string, w: World, v: World, e: Event)
    requires Ordered(w) && Ordered(v) && CanHappen(w, e) && Alike(c, w, v) && CampaignOf(e) == c
    ensures CanHappen(v, e) && Alike(c, Step(embedder, w, e), Step(embedder, v, e))
  {
    hide WellKeyed, Written, PutAllMap, Own, Buries, Filter, AllOwn;
    assert c in w.jobs <==> c in v.jobs;
    match e
    case Look(r, tombstones) => DecisionsAlike(embedder, c, w.store, v.store, r, tombstones);
    case Write(_, n) =>
      var j := w.jobs[c];
      forall id | OwnId(c, id)
        ensures Get(PutAllMap(w.store, Output(j)[j.done..j.done + n]), id)
             == Get(PutAllMap(v.store, Output(j)[j.done..j.done + n]), id)
      {
        PutAllAlike(w.store, v.store, Output(j)[j.done..j.done + n], id);
      }
    case Throws(_) =>
      FilterSnoc(AttemptOf(c), w.log, Attempt(w.jobs[c].refresh, Some(w.jobs[c].done)));
      FilterSnoc(AttemptOf(c), v.log, Attempt(w.jobs[c].refresh, Some(w.jobs[c].done)));
    case Ends(_) =>
      FilterSnoc(AttemptOf(c), w.log, Attempt(w.jobs[c].refresh, None));
      FilterSnoc(AttemptOf(c), v.log, Attempt(w.jobs[c].refresh, None));
  }

  ghost predicate Apart(c: string, es: seq<Event>)
  {
    forall e :: e in es ==> !Entangled(CampaignOf(e), c)
  }

  /** Striking out the other campaigns' events leaves `c` with the same records, the same job and the same log. */
  lemma {:induction false} RunsAlike(embedder: Embedder, c: string, w: World, v: World, es: seq<Event>)
    requires Ordered(w) && Ordered(v) && Alike(c, w, v) && Apart(c, es) && Runs(embedder, w, es)
    ensures Ordered(Finally(embedder, w, es)) && Runs(embedder, v, Filter(EventOf(c), es))
    ensures Alike(c, Finally(embedder, w, es), Finally(embedder, v, Filter(EventOf(c), es)))
    decreases |es|
  {
    if |es| > 0 {
      hide Ordered, Alike, CanHappen, Entangled;
      var e, rest := es[0], Filter(EventOf(c), es[1..]);
      assert e in es && forall x :: x in es[1..] ==> x in es;
      StepOrdered(embedder, w, e);
      if CampaignOf(e) == c {
        OwnStep(embedder, c, w, v, e);
        StepOrdered(embedder, v, e);
        RunsAlike(embedder, c, Step(embedder, w, e), Step(embedder, v, e), es[1..]);
        assert ([e] + rest)[0] == e && ([e] + rest)[1..] == rest;
      } else {
        OtherStep(embedder, c, w, v, e);
        RunsAlike(embedder, c, Step(embedder, w, e), v, es[1..]);
      }
    }
  }

  // ---- one campaign on its own is the sequential run ----

  /** The store is the one after the attempts that are over, and the part of the current one that is stored. */
  ghost predicate Sequential(embedder: Embedder, m: Store, c: string, w: World)
  {
    var base := AfterAll(embedder, m, w.log);
    && WellKeyed(base)
    && w.jobs.Keys <= {c}
    && (c !in w.jobs ==> w.store == base)
    && (c in w.jobs ==> Underway(embedder, base, w.jobs[c], w.store))
  }

  ghost predicate Underway(embedder: Embedder, base: Store, j: Job, m: Store)
  {
    && j.refresh.source != Compendium
    && j.written == WrittenBy(embedder, base, j.refresh)
    && Buries(base, j.refresh, j.tombstones)
    && j.done <= |Output(j)| && m == PutAllMap(base, Output(j)[..j.done])
  }

  lemma EndsSynced(embedder: Embedder, base: Store, j: Job, m: Store)
    requires WellKeyed(base) && Underway(embedder, base, j, m) && j.done == |Output(j)|
    ensures m == Attempted(embedder, base, Attempt(j.refresh, None))
  {
    hide Written, PutAllMap, WellKeyed, Synced;
    var r := j.refresh;
    assert Output(j)[..j.done] == j.written + j.tombstones;
    PutAllConcat(base, j.written, j.tombstones);
    BurialsSync(embedder, base, r.campaignId, r.source, r.now, r.entries, j.tombstones);
  }

  lemma ThrowsCut(embedder: Embedder, base: Store, j: Job, m: Store)
    requires Underway(embedder, base, j, m) && j.done < |j.written|
    ensures m == Attempted(embedder, base, Attempt(j.refresh, Some(j.done)))
  {
    hide Written, PutAllMap, Buries;
    assert Output(j)[..j.done] == j.written[..j.done];
  }

  lemma WriteUnderway(embedder: Embedder, base: Store, j: Job, m: Store, n: nat)
    requires Underway(embedder, base, j, m) && j.done + n <= |Output(j)|
    ensures Underway(embedder, base, j.(done := j.done + n), PutAllMap(m, Output(j)[j.done..j.done + n]))
  {
    hide Written, PutAllMap, Buries;
    assert Output(j)[..j.done] + Output(j)[j.done..j.done + n] == Output(j)[..j.done + n];
    PutAllConcat(base, Output(j)[..j.done], Output(j)[j.done..j.done + n]);
  }

  lemma LookUnderway(embedder: Embedder, m: Store, r: Refresh, tombstones: seq<MemoryRecord>)
    requires r.source != Compendium && Buries(m, r, tombstones)
    ensures Underway(embedder, m, Job(r, WrittenBy(embedder, m, r), tombstones, 0), m)
  {
    hide Written, Buries;
    assert Output(Job(r, WrittenBy(embedder, m, r), tombstones, 0))[..0] == [];
  }

  lemma StepSequential(embedder: Embedder, m: Store, c: string, w: World, e: Event)
    requires Sequential(embedder, m, c, w) && CanHappen(w, e) && CampaignOf(e) == c
    ensures Sequential(embedder, m, c, Step(embedder, w, e))
  {
    hide Underway, WellKeyed, AfterAll, PutAllMap, Attempted, Written, Buries;
    var base := AfterAll(embedder, m, w.log);
    match e
    case Look(r, tombstones) => LookUnderway(embedder, base, r, tombstones);
    case Write(_, n) => WriteUnderway(embedder, base, w.jobs[c], w.store, n);
    case Throws(_) =>
      var a := Attempt(w.jobs[c].refresh, Some(w.jobs[c].done));
      ThrowsCut(embedder, base, w.jobs[c], w.store);
      AfterAllSnoc(embedder, m, w.log, a);
      AttemptKeepsKeys(embedder, base, a);
    case Ends(_) =>
      var a := Attempt(w.jobs[c].refresh, None);
      EndsSynced(embedder, base, w.jobs[c], w.store);
      AfterAllSnoc(embedder, m, w.log, a);
      AttemptKeepsKeys(embedder, base, a);
  }

  lemma {:induction false} RunSequential(embedder: Embedder, m: Store, c: string, w: World, es: seq<Event>)
    requires Sequential(embedder, m, c, w) && Runs(embedder, w, es) && forall e :: e in es ==> CampaignOf(e) == c
    ensures Sequential(embedder, m, c, Finally(embedder, w, es))
    decreases |es|
  {
    if |es| > 0 {
      hide Sequential, CanHappen;
      assert es[0] in es && forall x :: x in es[1..] ==> x in es;
      StepSequential(embedder, m, c, w, es[0]);
      RunSequential(embedder, m, c, Step(embedder, w, es[0]), es[1..]);
    }
  }

  // ---- the theorems ----

  lemma StartsAlike(embedder: Embedder, c: string, m: Store)
    requires WellKeyed(m)
    ensures Ordered(Idle(m)) && Alike(c, Idle(m), Idle(m)) && Sequential(embedder, m, c, Idle(m))
  {
  }

  /**
   * However the refreshes of several campaigns interleave, a campaign that is not entangled with the others
   * and has no refresh under way holds exactly the records its own attempts, run one after another
   * with nobody else, would have left it.
   */
  lemma CampaignsDoNotInterfere(embedder: Embedder, m: Store, es: seq<Event>, c: string)
    requires WellKeyed(m) && Apart(c, es) && Runs(embedder, Idle(m), es)
    ensures var w := Finally(embedder, Idle(m), es);
      && WellKeyed(w.store)
      && (c !in w.jobs ==> SameFor(c, w.store, AfterAll(embedder, m, Filter(AttemptOf(c), w.log))))
  {
    hide Runs, Finally, WellKeyed, AfterAll, SameFor, Apart, CanHappen;
    var mine := Filter(EventOf(c), es);
    StartsAlike(embedder, c, m);
    RunsAlike(embedder, c, Idle(m), Idle(m), es);
    RunSequential(embedder, m, c, Idle(m), mine);
    OwnLog(embedder, c, Idle(m), mine);
  }

  /** A run of one campaign logs that campaign's attempts only. */
  lemma {:induction false} OwnLog(embedder: Embedder, c: string, w: World, es: seq<Event>)
    requires Runs(embedder, w, es) && forall e :: e in es ==> CampaignOf(e) == c
    requires Filter(AttemptOf(c), w.log) == w.log && forall x :: x in w.jobs ==> w.jobs[x].refresh.campaignId == x
    ensures Filter(AttemptOf(c), Finally(embedder, w, es).log) == Finally(embedder, w, es).log
    decreases |es|
  {
    if |es| > 0 {
      hide Written, PutAllMap, Buries, Filter;
      var e := es[0];
      assert e in es && forall x :: x in es[1..] ==> x in es;
      if e.Throws? { FilterSnoc(AttemptOf(c), w.log, Attempt(w.jobs[c].refresh, Some(w.jobs[c].done))); }
      if e.Ends? { FilterSnoc(AttemptOf(c), w.log, Attempt(w.jobs[c].refresh, None)); }
      OwnLog(embedder, c, Step(embedder, w, e), es[1..]);
    }
  }

  /** So a refresh that completes among other campaigns' refreshes agrees with what it read, as it would alone. */
  lemma InterleavedRefreshAgrees(embedder: Embedder, m: Store, es: seq<Event>, c: string)
    requires WellKeyed(m) && Tracked(m, []) && Apart(c, es) && Runs(embedder, Idle(m), es)
    requires var w := Finally(embedder, Idle(m), es);
      var mine := Filter(AttemptOf(c), w.log);
      c !in w.jobs && IndexFailures.Lawful(mine) && |mine| > 0 && mine[|mine| - 1].cut.None?
    ensures var w := Finally(embedder, Idle(m), es);
      var mine := Filter(AttemptOf(c), w.log);
      Agrees(w.store, c, mine[|mine| - 1].refresh.source, mine[|mine| - 1].refresh.entries)
  {
    hide Runs, Finally, WellKeyed, Tracked, AfterAll, SameFor, Apart, Agrees;
    var w := Finally(embedder, Idle(m), es);
    var mine := Filter(AttemptOf(c), w.log);
    CampaignsDoNotInterfere(embedder, m, es, c);
    CompletedRefreshAgrees(embedder, m, mine);
    var r := mine[|mine| - 1].refresh;
    assert mine[|mine| - 1] in mine;
    AgreesAlike(c, w.store, AfterAll(embedder, m, mine), r.source, r.entries);
  }
}
