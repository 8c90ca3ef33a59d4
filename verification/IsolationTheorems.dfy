/** Side-channel isolation: striking out private conversations changes no prompt of anybody else. */
module IsolationTheorems {
  import opened Options
  import opened Tables
  import opened ColumnCrypto
  import opened MemoryStore
  import opened Isolation
  import Ranking
  import TurnLoop

  lemma ShownUpdate<V>(hidden: Hiding, m: map<Handle, V>, h: Handle, v: V)
    ensures ShownTo(hidden, m[h := v]) == if hidden(h.conversation) then ShownTo(hidden, m) else ShownTo(hidden, m)[h := v]
  {
  }

  lemma StartCommutes(cfg: Config, hidden: Hiding, s: State, e: Event)
    requires OnlyPrivate(hidden) && e.Start?
    ensures Low(hidden, Step(cfg, s, e)) == if HidesEvent(hidden, e) then Low(hidden, s) else Step(cfg, Low(hidden, s), e)
  {
    hide Filter, OnlyPrivate, ShownTo;
    var c := e.turn.conversation;
    var dialogue := s.dialogue + [Spoken(e)];
    FilterSnoc(ShownTurn(hidden), s.dialogue, Spoken(e));
    SpokenSide(hidden, c);
    ShownUpdate(hidden, s.visible, e.turn, Filter(VisibleIn(c), dialogue));
    assert Filter(ShownTurn(hidden), s.dialogue) + [] == Filter(ShownTurn(hidden), s.dialogue);
    if !hidden(c) { VisibleIgnoresHidden(hidden, c, dialogue); }
  }

  /** What a conversation says is hidden exactly when the conversation is. */
  lemma SpokenSide(hidden: Hiding, conversation: string)
    requires OnlyPrivate(hidden)
    ensures hidden(AudienceFor(conversation)) == hidden(conversation)
  {
    assert !IsPlayerScoped(TABLE);
  }

  lemma AskCommutes(cfg: Config, hidden: Hiding, s: State, e: Event)
    requires OnlyPrivate(hidden) && e.Ask?
    ensures Low(hidden, Step(cfg, s, e)) == if HidesEvent(hidden, e) then Low(hidden, s) else Step(cfg, Low(hidden, s), e)
  {
    hide Filter, OnlyPrivate, Retrieve;
    var c := e.turn.conversation;
    if e.turn in s.visible {
      var visible := s.visible[e.turn];
      var prompt := AssemblePrompt(cfg, e.around, visible, Retrieve(cfg, s.memory, c, visible, e.embedFails));
      ShownUpdate(hidden, s.prompts, e.turn, prompt);
      FilterSnoc(ShownObservation(hidden), s.observed, Observation(e.turn, prompt));
      assert Filter(ShownObservation(hidden), s.observed) + [] == Filter(ShownObservation(hidden), s.observed);
      if !hidden(c) { RetrieveIgnoresHidden(cfg, hidden, s.memory, c, visible, e.embedFails); }
    }
  }

  lemma FinishCommutes(cfg: Config, hidden: Hiding, s: State, e: Event)
    requires OnlyPrivate(hidden) && e.Finish?
    ensures Low(hidden, Step(cfg, s, e)) == if HidesEvent(hidden, e) then Low(hidden, s) else Step(cfg, Low(hidden, s), e)
  {
    hide Filter, OnlyPrivate, NarrationOn, StopOn;
    SpokenSide(hidden, e.turn.conversation);
    var shown := Filter(ShownTurn(hidden), s.dialogue);
    assert s.dialogue + [] == s.dialogue && shown + [] == shown;
    if e.turn in s.prompts {
      var line := Narrated(e.turn, NarrationOn(cfg, s.prompts[e.turn], e.seed), e.at);
      FilterSnoc(ShownTurn(hidden), s.dialogue, line);
      assert AudienceOf(line) == AudienceFor(e.turn.conversation);
      assert ShownTurn(hidden)(line) <==> !hidden(AudienceOf(line));
    }
  }

  /** One step and striking out commute; a hidden step is invisible. */
  lemma StepCommutes(cfg: Config, hidden: Hiding, secretId: string -> bool, s: State, e: Event)
    requires OnlyPrivate(hidden) && IdsKeepSides(hidden, secretId, s.memory) && EventsKeepSides(hidden, secretId, [e])
    ensures Low(hidden, Step(cfg, s, e)) == if HidesEvent(hidden, e) then Low(hidden, s) else Step(cfg, Low(hidden, s), e)
    ensures IdsKeepSides(hidden, secretId, Step(cfg, s, e).memory)
  {
    hide Filter, OnlyPrivate;
    match e
    case Start(_, _, _, _, _) => StartCommutes(cfg, hidden, s, e);
    case Ask(_, _, _) => AskCommutes(cfg, hidden, s, e);
    case Finish(_, _, _) => FinishCommutes(cfg, hidden, s, e);
    case Interject(line) =>
      FilterSnoc(ShownTurn(hidden), s.dialogue, line);
      assert Filter(ShownTurn(hidden), s.dialogue) + [] == Filter(ShownTurn(hidden), s.dialogue);
    case Remember(record) =>
      assert [e][0].Remember?;
      PutKeepsSides(hidden, secretId, s.memory, record);
  }

  lemma {:induction false} RunCommutes(cfg: Config, hidden: Hiding, secretId: string -> bool, s: State, es: seq<Event>)
    requires OnlyPrivate(hidden) && IdsKeepSides(hidden, secretId, s.memory) && EventsKeepSides(hidden, secretId, es)
    ensures Low(hidden, Run(cfg, s, es)) == Run(cfg, Low(hidden, s), Filter(ShownEvent(hidden), es))
    decreases |es|
  {
    if |es| > 0 {
      hide Low, Step, OnlyPrivate, IdsKeepSides, HidesEvent;
      assert EventsKeepSides(hidden, secretId, [es[0]]) && EventsKeepSides(hidden, secretId, es[1..]);
      StepCommutes(cfg, hidden, secretId, s, es[0]);
      RunCommutes(cfg, hidden, secretId, Step(cfg, s, es[0]), es[1..]);
      var f := Filter(ShownEvent(hidden), es[1..]);
      assert ([es[0]] + f)[1..] == f;
    }
  }

  /** Why ids must keep sides: a hidden upsert is invisible exactly when no shown record has its id. */
  lemma HiddenUpsertUnseenExactly(cfg: Config, hidden: Hiding, s: State, secret: MemoryRecord)
    requires UniqueIds(s.memory) && hidden(EffectiveAudience(secret))
    ensures HidesEvent(hidden, Remember(secret))
    ensures Low(hidden, Step(cfg, s, Remember(secret))) == Low(hidden, s)
       <==> NoShownId(ShownRecord(hidden), s.memory, secret.id)
  {
    hide Filter, Put, EffectiveAudience, NoShownId;
    HiddenPutExactly(ShownRecord(hidden), s.memory, secret);
  }

  /**
   * And the prompt that changes: a shown record that a turn would retrieve is gone from the turn's
   * prompt after a hidden upsert under its id.
   */
  lemma CrossingUpsertIsSeen(cfg: Config, hidden: Hiding, s: State, turn: Handle, around: Surroundings,
                             shown: MemoryRecord, secret: MemoryRecord)
    requires OnlyPrivate(hidden) && !hidden(turn.conversation) && turn in s.visible
    requires s.memory == [shown] && secret.id == shown.id && hidden(EffectiveAudience(secret))
    requires cfg.hasMemory && cfg.topK > 0 && |BuildMemoryQuery(s.visible[turn])| > 0
    requires MatchesQuery(cfg.lower, shown, Scope(cfg, turn.conversation))
    ensures var ask := Ask(turn, around, false);
      var with, without := Run(cfg, s, [Remember(secret), ask]), Run(cfg, s, [ask]);
      && Filter(ShownEvent(hidden), [Remember(secret), ask]) == [ask]
      && turn in with.prompts && turn in without.prompts
      && with.prompts[turn].retrieved == [] && without.prompts[turn].retrieved == [(shown.kind, shown.text)]
  {
    hide BuildMemoryQuery, MatchesQuery, EffectiveAudience, OnlyPrivate;
    var ask := Ask(turn, around, false);
    var query := cfg.embed(BuildMemoryQuery(s.visible[turn]));
    SecretNeverMatches(cfg, hidden, turn.conversation, secret);
    OneRecordNearest(cfg, [shown], query, turn.conversation);
    OneRecordNearest(cfg, [secret], query, turn.conversation);
    assert Put([shown], secret) == [secret] by { assert [secret] + [shown][1..] == [secret]; }
    OneStep(cfg, s, ask);
    OneStep(cfg, Step(cfg, s, Remember(secret)), ask);
    assert [Remember(secret), ask][1..] == [ask] && [ask][1..] == [];
  }

  lemma OneStep(cfg: Config, s: State, e: Event)
    ensures Run(cfg, s, [e]) == Step(cfg, s, e)
  {
    hide Step;
    assert [e][1..] == [];
  }

  lemma SecretNeverMatches(cfg: Config, hidden: Hiding, conversation: string, secret: MemoryRecord)
    requires OnlyPrivate(hidden) && !hidden(conversation) && hidden(EffectiveAudience(secret))
    ensures !MatchesQuery(cfg.lower, secret, Scope(cfg, conversation))
  {
    hide OnlyPrivate, AllowedAudiencesFor, EffectiveAudience, MatchesMetadataFilter;
    if EffectiveAudience(secret) in AllowedAudiencesFor(conversation) { AllowedIsShown(hidden, conversation, EffectiveAudience(secret)); }
  }

  lemma OneRecordNearest(cfg: Config, memory: seq<MemoryRecord>, vector: seq<real>, conversation: string)
    requires |memory| == 1 && cfg.topK > 0
    ensures Nearest(cfg.lower, cfg.sqrt, memory, vector, Scope(cfg, conversation), cfg.topK)
         == if MatchesQuery(cfg.lower, memory[0], Scope(cfg, conversation)) then memory else []
  {
    hide MatchesQuery, Ranking.TopK, Filter;
    var selects, score := Selects(cfg.lower, Scope(cfg, conversation)), ScoreAgainst(cfg.sqrt, vector);
    assert memory == [] + [memory[0]] && [] + [memory[0]] == [memory[0]];
    FilterSnoc(selects, [], memory[0]);
    FilterNone(selects, []);
    FewRanked(score, Filter(selects, memory), cfg.topK);
  }

  lemma FewRanked<R>(score: R -> real, rows: seq<R>, k: nat)
    requires |rows| <= 1 <= k
    ensures Ranking.TopK(score, rows, k) == rows
  {
    assert |rows| == 0 ==> rows == [];
    if |rows| == 1 {
      assert rows == [rows[0]];
      assert Ranking.Ranked(score, rows[..0]) == [];
      assert Ranking.Ranked(score, rows) == [rows[0]];
    }
  }

  /** The prompts everybody else was built, in order. */
  function Prompts(hidden: Hiding, s: State): seq<Observation>
  {
    Filter(ShownObservation(hidden), s.observed)
  }

  /**
   * Two-run isolation: sessions that differ only in what is private to the hidden conversations,
   * in their past or in their events, build the same prompts for everybody else at every step.
   */
  lemma Isolated(cfg: Config, hidden: Hiding, secretId: string -> bool, s: State, es: seq<Event>, t: State, fs: seq<Event>)
    requires OnlyPrivate(hidden)
    requires IdsKeepSides(hidden, secretId, s.memory) && EventsKeepSides(hidden, secretId, es)
    requires IdsKeepSides(hidden, secretId, t.memory) && EventsKeepSides(hidden, secretId, fs)
    requires Low(hidden, s) == Low(hidden, t) && Filter(ShownEvent(hidden), es) == Filter(ShownEvent(hidden), fs)
    ensures Prompts(hidden, Run(cfg, s, es)) == Prompts(hidden, Run(cfg, t, fs))
    ensures Low(hidden, Run(cfg, s, es)) == Low(hidden, Run(cfg, t, fs))
  {
    RunCommutes(cfg, hidden, secretId, s, es);
    RunCommutes(cfg, hidden, secretId, t, fs);
    assert Low(hidden, Run(cfg, s, es)).observed == Prompts(hidden, Run(cfg, s, es));
    assert Low(hidden, Run(cfg, t, fs)).observed == Prompts(hidden, Run(cfg, t, fs));
  }

  /** Everybody's private conversation but one player's. */
  function AllBut(player: string): Hiding
  {
    (a: string) => IsPlayerScoped(a) && a != player
  }

  /** The table and player X see the same prompts with or without everyone else's private turns. */
  lemma OthersPrivateTurnsDoNotMatter(cfg: Config, player: string, secretId: string -> bool, s: State, es: seq<Event>)
    requires IdsKeepSides(AllBut(player), secretId, s.memory) && EventsKeepSides(AllBut(player), secretId, es)
    ensures Prompts(AllBut(player), Run(cfg, s, es))
         == Prompts(AllBut(player), Run(cfg, Low(AllBut(player), s), Filter(ShownEvent(AllBut(player)), es)))
  {
    var hidden := AllBut(player);
    RunCommutes(cfg, hidden, secretId, s, es);
    var low := Run(cfg, Low(hidden, s), Filter(ShownEvent(hidden), es));
    assert Low(hidden, Run(cfg, s, es)).observed == low.observed;
    FilterTwice(ShownObservation(hidden), Run(cfg, s, es).observed);
  }

  lemma FilterTwice<R>(keep: R -> bool, rows: seq<R>)
    ensures Filter(keep, Filter(keep, rows)) == Filter(keep, rows)
  {
    FilterWeaker(keep, keep, rows);
  }

  // ---- what a prompt may hold at all: gm secrets stay out of side-channels ----

  ghost predicate Permitted(conversation: string, turns: seq<DialogueTurn>)
  {
    forall i :: 0 <= i < |turns| ==> AudienceOf(turns[i]) in AllowedAudiencesFor(conversation)
  }

  ghost predicate PromptsPermitted(s: State)
  {
    && (forall h :: h in s.visible ==> Permitted(h.conversation, s.visible[h]))
    && (forall i :: 0 <= i < |s.observed| ==> Permitted(s.observed[i].turn.conversation, s.observed[i].prompt.recent))
  }

  lemma RecentPermitted(conversation: string, turns: seq<DialogueTurn>, window: nat)
    requires Permitted(conversation, turns)
    ensures Permitted(conversation, Recent(turns, window))
  {
    hide AllowedAudiencesFor;
    assert forall i :: 0 <= i < |Recent(turns, window)| ==> Recent(turns, window)[i] in turns;
  }

  lemma VisiblePermitted(conversation: string, dialogue: seq<DialogueTurn>)
    ensures Permitted(conversation, Filter(VisibleIn(conversation), dialogue))
  {
    hide Filter, AllowedAudiencesFor;
    var visible := Filter(VisibleIn(conversation), dialogue);
    assert forall i :: 0 <= i < |visible| ==> visible[i] in visible;
  }

  /** Over any run, dialogue reaches a prompt only if its conversation may see its audience. */
  lemma {:induction false} PromptsStayPermitted(cfg: Config, s: State, es: seq<Event>)
    requires PromptsPermitted(s)
    ensures PromptsPermitted(Run(cfg, s, es))
    decreases |es|
  {
    if |es| > 0 {
      StepPermitted(cfg, s, es[0]);
      PromptsStayPermitted(cfg, Step(cfg, s, es[0]), es[1..]);
    }
  }

  lemma StepPermitted(cfg: Config, s: State, e: Event)
    requires PromptsPermitted(s)
    ensures PromptsPermitted(Step(cfg, s, e))
  {
    hide Permitted, Retrieve, Filter;
    match e
    case Start(turn, _, _, _, _) => VisiblePermitted(turn.conversation, s.dialogue + [Spoken(e)]);
    case Ask(turn, _, _) => if turn in s.visible { RecentPermitted(turn.conversation, s.visible[turn], cfg.window); }
    case _ =>
  }

  /** Retrieval never brings back a record of an audience the conversation may not see. */
  lemma RetrievalPermitted(cfg: Config, memory: seq<MemoryRecord>, conversation: string, visible: seq<DialogueTurn>, fails: bool)
    ensures forall r :: r in Retrieve(cfg, memory, conversation, visible, fails) ==>
      r in memory && EffectiveAudience(r) in AllowedAudiencesFor(conversation) && !Tombstoned(r)
  {
    hide Filter, AllowedAudiencesFor, EffectiveAudience, BuildMemoryQuery, Ranking.TopK;
    var query := BuildMemoryQuery(visible);
    if cfg.hasMemory && !fails && |query| > 0 {
      var candidates := Filter(Selects(cfg.lower, Scope(cfg, conversation)), memory);
      var score := ScoreAgainst(cfg.sqrt, cfg.embed(query));
      var rest := Ranking.TopKIsBest(score, candidates, cfg.topK);
      var top := Ranking.TopK(score, candidates, cfg.topK);
      forall r | r in top ensures r in candidates {
        assert r in multiset(top) && r in multiset(candidates);
      }
    }
  }

  /** The visible lines of a turn are those of its start. */
  lemma {:induction false} VisibleKept(cfg: Config, s: State, es: seq<Event>, turn: Handle)
    requires turn in s.visible && forall e :: e in es && e.Start? ==> e.turn != turn
    ensures turn in Run(cfg, s, es).visible && Run(cfg, s, es).visible[turn] == s.visible[turn]
    decreases |es|
  {
    if |es| > 0 {
      assert es[0] in es && forall e :: e in es[1..] ==> e in es;
      assert turn in Step(cfg, s, es[0]).visible && Step(cfg, s, es[0]).visible[turn] == s.visible[turn];
      hide Step;
      VisibleKept(cfg, Step(cfg, s, es[0]), es[1..], turn);
    }
  }

  /**
   * Hiding takes nothing from its own player: whatever happens between a turn's start and its prompt,
   * the line that started it is the last one of that prompt.
   */
  lemma OwnPrivateTurnsReachTheirPlayer(cfg: Config, s: State, started: Event, es: seq<Event>, around: Surroundings, fails: bool)
    requires cfg.window > 0 && started.Start? && forall e :: e in es && e.Start? ==> e.turn != started.turn
    ensures var s' := Run(cfg, Step(cfg, s, started), es);
      var asked := Step(cfg, s', Ask(started.turn, around, fails));
      && |asked.observed| == |s'.observed| + 1
      && var recent := asked.observed[|s'.observed|].prompt.recent;
         |recent| > 0 && recent[|recent| - 1] == Spoken(started)
  {
    hide Filter, Retrieve, Run;
    var turn := started.turn;
    VisibleKept(cfg, Step(cfg, s, started), es, turn);
    FilterSnoc(VisibleIn(turn.conversation), s.dialogue, Spoken(started));
    assert IsPlayerScoped(turn.conversation) || AudienceFor(turn.conversation) == TABLE;
  }

  // ---- a turn that went down ----

  lemma {:induction false} NoneDownBefore(rounds: seq<TurnLoop.Round>)
    requires forall k :: 0 <= k < |rounds| ==> TurnLoop.Complete(rounds[k])
    ensures forall i :: 0 <= i < |TurnLoop.DispatchesOf(rounds)| ==> !TurnLoop.FoundryDown(TurnLoop.DispatchesOf(rounds)[i])
    decreases |rounds|
  {
    if |rounds| > 0 {
      var n := |rounds| - 1;
      assert TurnLoop.Complete(rounds[n]);
      NoneDownBefore(rounds[..n]);
    }
  }

  /**
   * Finishing a turn adds no line exactly when the loop narrated nothing or some dispatch of it was
   * answered foundry-down; what was dispatched before that answer went through. Otherwise it adds the narrator's one line,
   * for the turn's own thread or for the table.
   */
  lemma WentDownStoresNothing(cfg: Config, s: State, turn: Handle, seed: int, at: int)
    requires turn in s.prompts
    ensures var rounds := RoundsOn(cfg, s.prompts[turn], seed).rounds;
      var dispatches := TurnLoop.DispatchesOf(rounds);
      && (Step(cfg, s, Finish(turn, seed, at)) == s <==> TurnLoop.WentDown(rounds) || |TurnLoop.NarrationOf(rounds)| == 0)
      && (TurnLoop.WentDown(rounds) ==>
            && |dispatches| > 0 && TurnLoop.FoundryDown(dispatches[|dispatches| - 1])
            && (forall i :: 0 <= i < |dispatches| - 1 ==> !TurnLoop.FoundryDown(dispatches[i])))
      && (!TurnLoop.WentDown(rounds) && |TurnLoop.NarrationOf(rounds)| > 0 ==>
            Step(cfg, s, Finish(turn, seed, at)) == s.(dialogue := s.dialogue + [
              DialogueTurn("narrator", None, TurnLoop.NarrationOf(rounds), at,
                           Some(if PrivateThread(turn.conversation) then turn.conversation else "table"), Some(turn.conversation))]))
  {
    PrivateExactly(turn.conversation);
    hide TurnLoop.TurnTranscript, TurnLoop.Chained, TurnLoop.Stopped, TurnLoop.Verdict, TurnLoop.NarrationOf;
    var w, t := cfg.world(seed), RoundsOn(cfg, s.prompts[turn], seed);
    var first := FirstMessage(cfg, s.prompts[turn]);
    TurnLoop.TranscriptFits(w, first, cfg.maxIter);
    TurnLoop.FoundryDownIsFinal(w, first, t.rounds, cfg.maxIter, t.interrupted);
    var s' := Step(cfg, s, Finish(turn, seed, at));
    assert StopOn(cfg, s.prompts[turn], seed) == TurnLoop.AbortedFoundryDown <==> TurnLoop.WentDown(t.rounds);
    if |Stored(cfg, s, turn, seed, at)| == 0 {
      assert s.dialogue + [] == s.dialogue;
    } else {
      assert |s'.dialogue| == |s.dialogue| + 1;
    }
    if TurnLoop.WentDown(t.rounds) { LastWentDown(w, first, t.rounds); }
  }

  lemma LastWentDown(w: TurnLoop.World, first: TurnLoop.Message, rounds: seq<TurnLoop.Round>)
    requires TurnLoop.Chained(w, first, rounds) && TurnLoop.WentDown(rounds)
    requires forall k, j :: 0 <= k < |rounds| && 0 <= j < |rounds[k].dispatched| && TurnLoop.FoundryDown(rounds[k].dispatched[j]) ==>
      k == |rounds| - 1 && j == |rounds[k].dispatched| - 1
    ensures var dispatches := TurnLoop.DispatchesOf(rounds);
      && |dispatches| > 0 && TurnLoop.FoundryDown(dispatches[|dispatches| - 1])
      && forall i :: 0 <= i < |dispatches| - 1 ==> !TurnLoop.FoundryDown(dispatches[i])
  {
    hide TurnLoop.RoundFits, TurnLoop.Complete, TurnLoop.Answered, TurnLoop.FoundryDown;
    var n := |rounds| - 1;
    NoneDownBefore(rounds[..n]);
  }
}
