/** One index refresh per campaign at a time (orchestrator/src/autosetup/index-refresh.ts, refreshIndex). */
module SingleFlight {

  datatype Run = Run(campaign: string, settled: bool)

  /** Runs are known by their number; `inflight` is the module's map. */
  datatype State = State(runs: seq<Run>, inflight: map<string, nat>)

  datatype Event = Call(campaign: string) | Settle(run: nat)

  const NONE_YET: State := State([], map[])

  predicate CanHappen(s: State, e: Event)
  {
    e.Settle? ==> e.run < |s.runs| && !s.runs[e.run].settled
  }

  /** The run a caller is given. */
  function Given(s: State, campaign: string): nat
  {
    if campaign in s.inflight then s.inflight[campaign] else |s.runs|
  }

  function Step(s: State, e: Event): State
    requires CanHappen(s, e)
  {
    match e
    case Call(c) =>
      if c in s.inflight then s else State(s.runs + [Run(c, false)], s.inflight[c := |s.runs|])
    case Settle(r) =>
      var run := s.runs[r];
      State(s.runs[r := run.(settled := true)],
            if run.campaign in s.inflight && s.inflight[run.campaign] == r then s.inflight - {run.campaign} else s.inflight)
  }

  predicate Happens(s: State, es: seq<Event>)
    decreases |es|
  {
    |es| == 0 || (CanHappen(s, es[0]) && Happens(Step(s, es[0]), es[1..]))
  }

  function After(s: State, es: seq<Event>): State
    requires Happens(s, es)
    decreases |es|
  {
    if |es| == 0 then s else After(Step(s, es[0]), es[1..])
  }

  ghost predicate Tracked(s: State)
  {
    && (forall c :: c in s.inflight ==>
          s.inflight[c] < |s.runs| && s.runs[s.inflight[c]] == Run(c, false))
    && (forall r: nat :: r < |s.runs| && !s.runs[r].settled ==>
          s.runs[r].campaign in s.inflight && s.inflight[s.runs[r].campaign] == r)
  }

  lemma {:induction false} StaysTracked(s: State, es: seq<Event>)
    requires Tracked(s) && Happens(s, es)
    ensures Tracked(After(s, es))
    decreases |es|
  {
    if |es| > 0 { StaysTracked(Step(s, es[0]), es[1..]); }
  }

  /** A campaign never has two unsettled runs, and a caller is given the unsettled one if there is one. */
  lemma OneRunPerCampaign(es: seq<Event>, campaign: string)
    requires Happens(NONE_YET, es)
    ensures var s := After(NONE_YET, es);
      && (forall r: nat, q: nat :: r < q < |s.runs| && s.runs[r].campaign == s.runs[q].campaign ==>
            s.runs[r].settled || s.runs[q].settled)
      && (forall r: nat :: r < |s.runs| && s.runs[r] == Run(campaign, false) ==> Given(s, campaign) == r)
      && ((forall r: nat :: r < |s.runs| ==> s.runs[r] != Run(campaign, false)) ==> Given(s, campaign) == |s.runs|)
  {
    StaysTracked(NONE_YET, es);
  }
}
