/** What a prompt may hold, over whole sessions, in terms of stored audiences alone (orchestrator/src/session.ts, audience.ts). */
module PromptContents {
  import opened Options
  import opened Tables
  import opened Text
  import opened MemoryStore
  import opened Isolation

  ghost predicate LinesReach(conversation: string, lines: seq<DialogueTurn>)
  {
    forall i :: 0 <= i < |lines| ==> MayReach(conversation, lines[i].audience)
  }

  /** `known` holds every record there is and will be. */
  ghost predicate KnowsAll(known: seq<MemoryRecord>, s: State, es: seq<Event>)
  {
    && (forall r :: r in s.memory ==> r in known)
    && forall i :: 0 <= i < |es| && es[i].Remember? ==> es[i].record in known
  }

  ghost predicate PromptFits(cfg: Config, known: seq<MemoryRecord>, o: Observation)
  {
    LinesReach(o.turn.conversation, o.prompt.recent) && ChunksFrom(cfg, o.turn.conversation, o.prompt.retrieved, known)
  }

  ghost predicate Clean(cfg: Config, known: seq<MemoryRecord>, s: State)
  {
    && (forall h :: h in s.visible ==> LinesReach(h.conversation, s.visible[h]))
    && forall i :: 0 <= i < |s.observed| ==> PromptFits(cfg, known, s.observed[i])
  }

  lemma FilteredReach(conversation: string, dialogue: seq<DialogueTurn>)
    ensures LinesReach(conversation, Filter(LinesFor(conversation), dialogue))
  {
    hide Filter, MayReach;
    var lines := Filter(LinesFor(conversation), dialogue);
    assert forall i :: 0 <= i < |lines| ==> lines[i] in lines;
  }

  lemma ChunksStillFrom(cfg: Config, conversation: string, chunks: seq<(MemoryKind, string)>, memory: seq<MemoryRecord>, known: seq<MemoryRecord>)
    requires ChunksFrom(cfg, conversation, chunks, memory) && forall r :: r in memory ==> r in known
    ensures ChunksFrom(cfg, conversation, chunks, known)
  {
    hide RecordFor;
    forall i | 0 <= i < |chunks|
      ensures ChunkFrom(cfg, conversation, chunks[i], known)
    {
      assert ChunkFrom(cfg, conversation, chunks[i], memory);
    }
  }

  lemma StepClean(cfg: Config, known: seq<MemoryRecord>, s: State, e: Event)
    requires Clean(cfg, known, s) && KnowsAll(known, s, [e])
    ensures Clean(cfg, known, Step(cfg, s, e)) && forall r :: r in Step(cfg, s, e).memory ==> r in known
  {
    hide Filter, Retrieve, ChunksFrom, MayReach, Put;
    match e
    case Start(turn, _, _, _, _) =>
      VisibleExactly(turn.conversation, s.dialogue + [Spoken(e)]);
      FilteredReach(turn.conversation, s.dialogue + [Spoken(e)]);
    case Ask(turn, around, fails) =>
      if turn in s.visible {
        PromptExactly(cfg, s.memory, turn.conversation, around, s.visible[turn], fails);
        var prompt := Step(cfg, s, e).prompts[turn];
        ChunksStillFrom(cfg, turn.conversation, prompt.retrieved, s.memory, known);
        assert PromptFits(cfg, known, Observation(turn, prompt));
      }
    case Remember(record) =>
      PutMembers(s.memory, record);
      assert [e][0].Remember?;
    case _ =>
  }

  /**
   * Over any run, every line of every prompt has an audience that may reach its conversation, and so has the record
   * behind every chunk: the table's always; a player's only in that player's thread; the game master's only at the table.
   */
  lemma {:induction false} PromptsHoldOnly(cfg: Config, known: seq<MemoryRecord>, s: State, es: seq<Event>)
    requires Clean(cfg, known, s) && KnowsAll(known, s, es)
    ensures Clean(cfg, known, Run(cfg, s, es))
    decreases |es|
  {
    if |es| > 0 {
      hide Step, Clean;
      assert KnowsAll(known, s, [es[0]]);
      StepClean(cfg, known, s, es[0]);
      assert forall i :: 0 <= i < |es[1..]| ==> es[1..][i] == es[i + 1];
      PromptsHoldOnly(cfg, known, Step(cfg, s, es[0]), es[1..]);
    }
  }

  /** No secret of the game master and no word to another player is in any prompt of a private thread. */
  lemma PrivatePromptsAreClean(cfg: Config, known: seq<MemoryRecord>, s: State, es: seq<Event>, i: nat, k: nat)
    requires Clean(cfg, known, s) && KnowsAll(known, s, es)
    requires i < |Run(cfg, s, es).observed| && PrivateThread(Run(cfg, s, es).observed[i].turn.conversation)
    requires k < |Run(cfg, s, es).observed[i].prompt.recent|
    ensures var o := Run(cfg, s, es).observed[i];
      o.prompt.recent[k].audience in {None, Some("table"), Some(o.turn.conversation)}
  {
    hide Run, ChunksFrom;
    PromptsHoldOnly(cfg, known, s, es);
    assert PromptFits(cfg, known, Run(cfg, s, es).observed[i]);
  }

  /** Starting a turn stores its line for its own thread or for the table, and shows the turn every stored line that may reach it, in order. */
  lemma StartShowsExactly(cfg: Config, s: State, e: Event)
    requires e.Start?
    ensures var c, s' := e.turn.conversation, Step(cfg, s, e);
      && s'.dialogue == s.dialogue + [DialogueTurn(e.speaker, e.displayName, e.text, e.at, Some(if PrivateThread(c) then c else "table"), Some(c))]
      && e.turn in s'.visible && |s'.visible[e.turn]| > 0 && s'.visible[e.turn] == Filter(LinesFor(c), s'.dialogue)
      && s'.visible[e.turn][|s'.visible[e.turn]| - 1..] == s'.dialogue[|s.dialogue|..]
  {
    hide Filter;
    var line := Spoken(e);
    AllowedExactly(e.turn.conversation, line.audience);
    VisibleExactly(e.turn.conversation, s.dialogue + [line]);
    FilterSnoc(LinesFor(e.turn.conversation), s.dialogue, line);
    PrivateExactly(e.turn.conversation);
  }

  /** An interjection is seen by every turn started after it that it may reach. */
  lemma InterjectionReaches(cfg: Config, s: State, line: DialogueTurn, e: Event)
    requires e.Start? && MayReach(e.turn.conversation, line.audience)
    ensures var s' := Step(cfg, Step(cfg, s, Interject(line)), e);
      e.turn in s'.visible && line in s'.visible[e.turn]
  {
    hide Filter;
    var heard := Step(cfg, s, Interject(line));
    StartShowsExactly(cfg, heard, e);
    assert heard.dialogue[|s.dialogue|] == line;
    assert line in Step(cfg, heard, e).dialogue;
    assert LinesFor(e.turn.conversation)(line);
  }

  /** The memory query holds the words of the last six lines the turn can see, in order. */
  lemma QueryExactly(visible: seq<DialogueTurn>, last: seq<DialogueTurn>)
    requires LastOf(last, visible, 6)
    ensures Words(BuildMemoryQuery(visible)) == WordsOf(Project(TextOf(), last)) && Tight(BuildMemoryQuery(visible))
  {
    hide Trim, IsSpace, Join, Words, WordsOf, Project;
    var texts := Project(TextOf(), Recent(visible, QUERY_WINDOW));
    assert Recent(visible, QUERY_WINDOW) == last;
    var pre, post := TrimSplits(Join(texts, " "));
    WordsOfTrim(Join(texts, " "));
    WordsOfJoined(texts);
  }
}
