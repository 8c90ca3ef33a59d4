/** The two-phase, failure-isolated erasure run over all adapters (server/src/erasure.ts). */
module Erasure {
  import opened Options
  import opened Tables

  datatype ScopeKind = Player | Campaign | Tenant

  /** What one adapter does in this run; `logFails` says the deletion-log insert after it throws. */
  datatype Outcome = Deleted(records: nat, remainder: Option<string>, logFails: Option<string>) | Failed(error: string)

  datatype Adapter = Adapter(name: string, scopes: seq<ScopeKind>, snapshotThrows: bool, outcome: Outcome)

  datatype Line = Line(adapter: string, recordsDeleted: nat, remainder: Option<string>, error: Option<string>)

  datatype Action = Snapshot(adapter: string) | Delete(adapter: string)

  datatype Report = Report(perAdapter: seq<Line>, totalRecords: nat, failures: nat, partialSuccess: bool,
                           manualRemainders: seq<string>)

  function Applies(scope: ScopeKind): Adapter -> bool
  {
    (a: Adapter) => scope in a.scopes
  }

  /** A failed log insert adds a failure line behind the line that reports the deletion. */
  function LinesOf(a: Adapter): seq<Line>
  {
    match a.outcome
    case Failed(error) => [Line(a.name, 0, None, Some(error))]
    case Deleted(records, remainder, logFails) =>
      [Line(a.name, records, remainder, None)] + (if logFails.Some? then [Line(a.name, 0, None, logFails)] else [])
  }

  function AllLines(adapters: seq<Adapter>): seq<Line>
  {
    if |adapters| == 0 then [] else AllLines(adapters[..|adapters| - 1]) + LinesOf(adapters[|adapters| - 1])
  }

  predicate SnapshotsSucceed(adapters: seq<Adapter>)
  {
    forall i :: 0 <= i < |adapters| ==> !adapters[i].snapshotThrows
  }

  function SnapshotOf(): Adapter -> Action { (a: Adapter) => Snapshot(a.name) }

  function DeleteOf(): Adapter -> Action { (a: Adapter) => Delete(a.name) }

  function Logged(): Adapter -> bool
  {
    (a: Adapter) => a.outcome.Deleted? && a.outcome.logFails.None?
  }

  function NameOf(): Adapter -> string { (a: Adapter) => a.name }

  function Total(lines: seq<Line>): nat
  {
    if |lines| == 0 then 0 else Total(lines[..|lines| - 1]) + lines[|lines| - 1].recordsDeleted
  }

  function Errs(): Line -> bool { (l: Line) => l.error.Some? }

  function Remainders(lines: seq<Line>): seq<string>
  {
    if |lines| == 0 then []
    else
      Remainders(lines[..|lines| - 1])
      + (if lines[|lines| - 1].remainder.Some? then [lines[|lines| - 1].remainder.value] else [])
  }

  /**
   * Every applicable adapter is asked for its snapshot before any deletes, then every one deletes
   * once, whatever the others do. A snapshot that throws ends the run before any deletion.
   */
  method Erase(adapters: seq<Adapter>, scope: ScopeKind) returns (report: Option<Report>, done: seq<Action>, log: seq<string>)
    ensures var applicable := Filter(Applies(scope), adapters);
      && (report.Some? <==> SnapshotsSucceed(applicable))
      && (report.None? ==> log == [] && forall i :: 0 <= i < |done| ==> done[i].Snapshot?)
      && (report.Some? ==>
            && done == Project(SnapshotOf(), applicable) + Project(DeleteOf(), applicable)
            && report.value.perAdapter == AllLines(applicable)
            && log == Project(NameOf(), Filter(Logged(), applicable))
            && report.value.totalRecords == Total(AllLines(applicable))
            && report.value.failures == Count(Errs(), AllLines(applicable))
            && report.value.manualRemainders == Remainders(AllLines(applicable))
            && (report.value.partialSuccess <==> |report.value.manualRemainders| > 0))
    ensures forall x :: x in done ==> exists a :: a in adapters && scope in a.scopes && a.name == x.adapter
    ensures report.Some? ==> forall a :: a in adapters && scope in a.scopes ==> Snapshot(a.name) in done && Delete(a.name) in done
    ensures report.Some? ==> forall name :: name in log <==>
      exists a :: a in adapters && scope in a.scopes && a.name == name && a.outcome.Deleted? && a.outcome.logFails.None?
    ensures report.Some? ==> report.value.manualRemainders == RemaindersOf(Filter(Applies(scope), adapters))
  {
    hide Project, Count, AllLines, Total, Remainders, RemaindersOf;
    var applicable := Filter(Applies(scope), adapters);
    report, log := None, [];
    var ok;
    ok, done := TakeSnapshots(applicable);
    if !ok { return; }
    var perAdapter, deletions;
    perAdapter, deletions, log := DeleteAll(applicable);
    done := done + deletions;
    var total, failures, remainders := Summarize(perAdapter);
    report := Some(Report(perAdapter, total, failures, |remainders| > 0, remainders));
    RemaindersExactly(applicable);
    EveryoneActs(applicable);
    LoggedExactly(applicable);
  }

  lemma EveryoneActs(applicable: seq<Adapter>)
    ensures var done := Project(SnapshotOf(), applicable) + Project(DeleteOf(), applicable);
      && (forall x :: x in done ==> exists a :: a in applicable && a.name == x.adapter)
      && forall a :: a in applicable ==> Snapshot(a.name) in done && Delete(a.name) in done
  {
    hide Project;
    var snapshots, deletions := Project(SnapshotOf(), applicable), Project(DeleteOf(), applicable);
    forall a | a in applicable
      ensures Snapshot(a.name) in snapshots && Delete(a.name) in deletions
    {
      var i :| 0 <= i < |applicable| && applicable[i] == a;
      assert snapshots[i] == Snapshot(a.name) && deletions[i] == Delete(a.name);
    }
    forall x | x in snapshots + deletions
      ensures exists a :: a in applicable && a.name == x.adapter
    {
      if x in snapshots {
        var i :| 0 <= i < |snapshots| && snapshots[i] == x;
        assert applicable[i] in applicable;
      } else {
        var i :| 0 <= i < |deletions| && deletions[i] == x;
        assert applicable[i] in applicable;
      }
    }
  }

  lemma LoggedExactly(applicable: seq<Adapter>)
    ensures forall name :: name in Project(NameOf(), Filter(Logged(), applicable)) <==>
      exists a :: a in applicable && a.name == name && a.outcome.Deleted? && a.outcome.logFails.None?
  {
    hide Project;
    var logged := Filter(Logged(), applicable);
    var names := Project(NameOf(), logged);
    forall name | name in names
      ensures exists a :: a in applicable && a.name == name && a.outcome.Deleted? && a.outcome.logFails.None?
    {
      var i :| 0 <= i < |names| && names[i] == name;
      assert logged[i] in logged;
    }
    forall a | a in applicable && a.outcome.Deleted? && a.outcome.logFails.None?
      ensures a.name in names
    {
      assert a in logged;
      var i :| 0 <= i < |logged| && logged[i] == a;
      assert names[i] == a.name;
    }
  }

  method TakeSnapshots(applicable: seq<Adapter>) returns (ok: bool, done: seq<Action>)
    ensures ok <==> SnapshotsSucceed(applicable)
    ensures ok ==> done == Project(SnapshotOf(), applicable)
    ensures forall i :: 0 <= i < |done| ==> done[i].Snapshot?
    ensures forall x :: x in done ==> exists a :: a in applicable && a.name == x.adapter
  {
    hide Project;
    done := [];
    for i := 0 to |applicable|
      invariant forall j :: 0 <= j < i ==> !applicable[j].snapshotThrows
      invariant done == Project(SnapshotOf(), applicable[..i])
      invariant forall k :: 0 <= k < |done| ==> done[k].Snapshot?
      invariant forall x :: x in done ==> exists a :: a in applicable && a.name == x.adapter
    {
      if applicable[i].snapshotThrows { return false, done; }
      ProjectStep(SnapshotOf(), applicable, i);
      done := done + [Snapshot(applicable[i].name)];
    }
    assert applicable[..|applicable|] == applicable;
    ok := true;
  }

  method DeleteAll(applicable: seq<Adapter>) returns (perAdapter: seq<Line>, done: seq<Action>, log: seq<string>)
    ensures done == Project(DeleteOf(), applicable) && perAdapter == AllLines(applicable)
    ensures log == Project(NameOf(), Filter(Logged(), applicable))
  {
    hide Filter, Project, AllLines;
    perAdapter, done, log := [], [], [];
    NothingYet(applicable);
    for i := 0 to |applicable|
      invariant done == Project(DeleteOf(), applicable[..i]) && perAdapter == AllLines(applicable[..i])
      invariant log == Project(NameOf(), Filter(Logged(), applicable[..i]))
    {
      var a := applicable[i];
      ProjectStep(DeleteOf(), applicable, i);
      LinesStep(applicable, i);
      LogStep(applicable, i);
      done := done + [Delete(a.name)];
      match a.outcome
      case Failed(error) => perAdapter := perAdapter + [Line(a.name, 0, None, Some(error))];
      case Deleted(records, remainder, logFails) =>
        perAdapter := perAdapter + [Line(a.name, records, remainder, None)];
        if logFails.Some? {
          perAdapter := perAdapter + [Line(a.name, 0, None, logFails)];
        } else {
          log := log + [a.name];
        }
    }
    assert applicable[..|applicable|] == applicable;
  }

  method Summarize(perAdapter: seq<Line>) returns (total: nat, failures: nat, remainders: seq<string>)
    ensures total == Total(perAdapter) && failures == Count(Errs(), perAdapter) && remainders == Remainders(perAdapter)
  {
    hide Count;
    total, failures, remainders := 0, 0, [];
    NoLines();
    for i := 0 to |perAdapter|
      invariant total == Total(perAdapter[..i]) && failures == Count(Errs(), perAdapter[..i])
      invariant remainders == Remainders(perAdapter[..i])
    {
      assert perAdapter[..i + 1] == perAdapter[..i] + [perAdapter[i]];
      assert perAdapter[..i + 1][..i] == perAdapter[..i];
      CountSnoc(Errs(), perAdapter[..i], perAdapter[i]);
      total := total + perAdapter[i].recordsDeleted;
      if perAdapter[i].error.Some? { failures := failures + 1; }
      if perAdapter[i].remainder.Some? { remainders := remainders + [perAdapter[i].remainder.value]; }
    }
    assert perAdapter[..|perAdapter|] == perAdapter;
  }

  lemma NoLines()
    ensures Count(Errs(), []) == 0
  {
  }

  lemma NothingYet(adapters: seq<Adapter>)
    ensures AllLines(adapters[..0]) == [] && Project(DeleteOf(), adapters[..0]) == [] && Project(NameOf(), Filter(Logged(), adapters[..0])) == []
  {
  }

  lemma ProjectStep<R, V>(view: R -> V, rows: seq<R>, i: nat)
    requires i < |rows|
    ensures Project(view, rows[..i + 1]) == Project(view, rows[..i]) + [view(rows[i])]
  {
    hide Project;
    var all := Project(view, rows[..i + 1]);
    forall j | 0 <= j < |all|
      ensures all[j] == (Project(view, rows[..i]) + [view(rows[i])])[j]
    {
    }
  }

  lemma LinesStep(adapters: seq<Adapter>, i: nat)
    requires i < |adapters|
    ensures AllLines(adapters[..i + 1]) == AllLines(adapters[..i]) + LinesOf(adapters[i])
  {
    assert adapters[..i + 1][..i] == adapters[..i];
  }

  lemma LogStep(adapters: seq<Adapter>, i: nat)
    requires i < |adapters|
    ensures Project(NameOf(), Filter(Logged(), adapters[..i + 1]))
         == Project(NameOf(), Filter(Logged(), adapters[..i])) + (if Logged()(adapters[i]) then [adapters[i].name] else [])
  {
    hide Project;
    assert adapters[..i + 1] == adapters[..i] + [adapters[i]];
    FilterConcat(Logged(), adapters[..i], [adapters[i]]);
    var kept, more := Filter(Logged(), adapters[..i]), Filter(Logged(), [adapters[i]]);
    assert more == if Logged()(adapters[i]) then [adapters[i]] else [];
    assert Project(NameOf(), kept + more) == Project(NameOf(), kept) + (if Logged()(adapters[i]) then [adapters[i].name] else []);
  }

  /** What the adapters that deleted something left for the operator to remove by hand, in order. */
  function RemaindersOf(adapters: seq<Adapter>): seq<string>
  {
    if |adapters| == 0 then []
    else
      var last := adapters[|adapters| - 1].outcome;
      RemaindersOf(adapters[..|adapters| - 1])
      + (if last.Deleted? && last.remainder.Some? then [last.remainder.value] else [])
  }

  /** The errors met, each under its adapter's name, in order: a deletion that failed, or a log insert behind one that did not. */
  function ErrorsOf(adapters: seq<Adapter>): seq<(string, string)>
  {
    if |adapters| == 0 then []
    else
      var last := adapters[|adapters| - 1];
      var earlier := ErrorsOf(adapters[..|adapters| - 1]);
      match last.outcome
      case Failed(error) => earlier + [(last.name, error)]
      case Deleted(_, _, logFails) => if logFails.Some? then earlier + [(last.name, logFails.value)] else earlier
  }

  function ErrorsIn(lines: seq<Line>): seq<(string, string)>
  {
    if |lines| == 0 then []
    else
      var last := lines[|lines| - 1];
      ErrorsIn(lines[..|lines| - 1]) + (if last.error.Some? then [(last.adapter, last.error.value)] else [])
  }

  lemma LineRead(lines: seq<Line>, l: Line)
    ensures Remainders(lines + [l]) == Remainders(lines) + (if l.remainder.Some? then [l.remainder.value] else [])
    ensures ErrorsIn(lines + [l]) == ErrorsIn(lines) + (if l.error.Some? then [(l.adapter, l.error.value)] else [])
  {
    assert (lines + [l])[..|lines|] == lines;
  }

  lemma LinesRead(lines: seq<Line>, a: Adapter)
    ensures Remainders(lines + LinesOf(a))
         == Remainders(lines) + (if a.outcome.Deleted? && a.outcome.remainder.Some? then [a.outcome.remainder.value] else [])
    ensures ErrorsIn(lines + LinesOf(a)) == ErrorsIn(lines) + (
      match a.outcome
      case Failed(error) => [(a.name, error)]
      case Deleted(_, _, logFails) => if logFails.Some? then [(a.name, logFails.value)] else [])
  {
    hide Remainders, ErrorsIn;
    var first := LinesOf(a)[0];
    LineRead(lines, first);
    if LogBroke()(a) {
      var second := LinesOf(a)[1];
      LineRead(lines + [first], second);
      assert lines + LinesOf(a) == lines + [first] + [second];
      NothingMore(Remainders(lines + [first]), ErrorsIn(lines));
    } else {
      assert lines + LinesOf(a) == lines + [first];
      NothingMore(Remainders(lines), ErrorsIn(lines));
    }
  }

  lemma NothingMore<A, B>(a: seq<A>, b: seq<B>)
    ensures a + [] == a && b + [] == b
  {
  }

  /** The report's remainders and errors are those of the adapters, under their names and in their order. */
  lemma {:induction false} RemaindersExactly(adapters: seq<Adapter>)
    ensures Remainders(AllLines(adapters)) == RemaindersOf(adapters)
    ensures ErrorsIn(AllLines(adapters)) == ErrorsOf(adapters)
    decreases |adapters|
  {
    hide Remainders, ErrorsIn, LinesOf;
    if |adapters| > 0 {
      var n := |adapters| - 1;
      RemaindersExactly(adapters[..n]);
      LinesRead(AllLines(adapters[..n]), adapters[n]);
      NothingMore(RemaindersOf(adapters[..n]), ErrorsOf(adapters[..n]));
    } else {
      NothingRead();
    }
  }

  lemma NothingRead()
    ensures Remainders([]) == [] && ErrorsIn([]) == []
  {
  }

  function LogBroke(): Adapter -> bool
  {
    (a: Adapter) => a.outcome.Deleted? && a.outcome.logFails.Some?
  }

  function RecordsOf(a: Adapter): nat
  {
    if a.outcome.Deleted? then a.outcome.records else 0
  }

  function SumRecords(adapters: seq<Adapter>): nat
  {
    if |adapters| == 0 then 0 else SumRecords(adapters[..|adapters| - 1]) + RecordsOf(adapters[|adapters| - 1])
  }

  function DidFail(): Adapter -> bool
  {
    (a: Adapter) => a.outcome.Failed?
  }

  /**
   * The report's totals are those of the adapters; it has one line per adapter exactly when no
   * log insert failed, each failing insert adding a second line and a failure.
   */
  lemma {:induction false} ReportIsComplete(adapters: seq<Adapter>)
    ensures Total(AllLines(adapters)) == SumRecords(adapters)
    ensures |AllLines(adapters)| == |adapters| + Count(LogBroke(), adapters)
    ensures Count(Errs(), AllLines(adapters)) == Count(DidFail(), adapters) + Count(LogBroke(), adapters)
    decreases |adapters|
  {
    if |adapters| > 0 {
      var n := |adapters| - 1;
      var init, last := adapters[..n], adapters[n];
      assert adapters == init + [last];
      ReportIsComplete(init);
      CountSnoc(LogBroke(), init, last);
      CountSnoc(DidFail(), init, last);
      LinesAdded(AllLines(init), last);
    }
  }

  /** One adapter whose log insert fails has two lines in the report. */
  lemma FailingLogAddsLine(a: Adapter)
    requires LogBroke()(a)
    ensures |AllLines([a])| == 2
  {
    ReportIsComplete([a]);
  }

  lemma LinesAdded(lines: seq<Line>, a: Adapter)
    ensures Total(lines + LinesOf(a)) == Total(lines) + RecordsOf(a)
    ensures Count(Errs(), lines + LinesOf(a)) == Count(Errs(), lines) + (if a.outcome.Failed? || LogBroke()(a) then 1 else 0)
  {
    hide Count;
    var first := LinesOf(a)[0];
    LineAdded(lines, first);
    if LogBroke()(a) {
      var second := LinesOf(a)[1];
      LineAdded(lines + [first], second);
      assert lines + LinesOf(a) == lines + [first] + [second];
    } else {
      assert lines + LinesOf(a) == lines + [first];
    }
  }

  lemma LineAdded(lines: seq<Line>, l: Line)
    ensures Total(lines + [l]) == Total(lines) + l.recordsDeleted
    ensures Count(Errs(), lines + [l]) == Count(Errs(), lines) + (if l.error.Some? then 1 else 0)
  {
    assert (lines + [l])[..|lines|] == lines;
    CountSnoc(Errs(), lines, l);
  }
}
