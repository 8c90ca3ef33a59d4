/**
 * What enters a turn's prompt (orchestrator/src/session.ts, audience.ts, hot_context.ts,
 * memory/retrieval.ts), with concurrent turns as interleaved start, prompt and finish steps.
 */
module Isolation {
  import opened Options
  import opened Tables
  import opened Text
  import opened ColumnCrypto
  import opened MemoryStore
  import Ranking
  import TurnLoop

  const TABLE := "table"
  const GM := "gm"
  const QUERY_WINDOW: nat := 6

  datatype DialogueTurn = DialogueTurn(speaker: string, displayName: Option<string>, text: string, timestamp: int,
                                       audience: Option<string>, conversationId: Option<string>)

  function AudienceOf(t: DialogueTurn): string
  {
    if t.audience.Some? then t.audience.value else TABLE
  }

  function AllowedAudiencesFor(conversation: string): seq<string>
  {
    if IsPlayerScoped(conversation) then [TABLE, conversation] else [TABLE, GM]
  }

  function VisibleIn(conversation: string): DialogueTurn -> bool
  {
    (t: DialogueTurn) => AudienceOf(t) in AllowedAudiencesFor(conversation)
  }

  /** A player's own thread: the prefix and something behind it. */
  predicate PrivateThread(conversation: string)
  {
    |conversation| > 7 && conversation[..7] == "player:"
  }

  /**
   * Who may be shown what: everyone what is the table's (unmarked content included); a player in private also
   * what is that player's own; the table's loop also what is the game master's.
   */
  predicate MayReach(conversation: string, audience: Option<string>)
  {
    var owner := if audience.None? then "table" else audience.value;
    owner == "table" || owner == (if PrivateThread(conversation) then conversation else "gm")
  }

  function LinesFor(conversation: string): DialogueTurn -> bool
  {
    (t: DialogueTurn) => MayReach(conversation, t.audience)
  }

  lemma AllowedExactly(conversation: string, audience: Option<string>)
    ensures (if audience.None? then TABLE else audience.value) in AllowedAudiencesFor(conversation) <==> MayReach(conversation, audience)
  {
    assert PLAYER_PREFIX <= conversation <==> |conversation| >= 7 && conversation[..7] == "player:";
  }

  /** The visibility filter shows a conversation exactly the lines that may reach it. */
  lemma VisibleExactly(conversation: string, dialogue: seq<DialogueTurn>)
    ensures Filter(VisibleIn(conversation), dialogue) == Filter(LinesFor(conversation), dialogue)
  {
    hide Filter, AllowedAudiencesFor, MayReach;
    forall t | t in dialogue ensures VisibleIn(conversation)(t) == LinesFor(conversation)(t) {
      AllowedExactly(conversation, t.audience);
    }
    SameFilter(VisibleIn(conversation), LinesFor(conversation), dialogue);
  }

  /** `recent` is the end of `rows`, as long as the window and the rows allow. */
  ghost predicate LastOf<T>(recent: seq<T>, rows: seq<T>, window: nat)
  {
    && |recent| == (if |rows| < window then |rows| else window)
    && forall i :: 0 <= i < |recent| ==> recent[i] == rows[|rows| - |recent| + i]
  }

  /** A chunk of a prompt is the kind and text of a record that may reach the conversation. */
  ghost predicate ChunkFrom(cfg: Config, conversation: string, chunk: (MemoryKind, string), memory: seq<MemoryRecord>)
  {
    exists r :: r in memory && RecordFor(cfg, conversation, r) && chunk == (r.kind, r.text)
  }

  ghost predicate ChunksFrom(cfg: Config, conversation: string, chunks: seq<(MemoryKind, string)>, memory: seq<MemoryRecord>)
  {
    forall i :: 0 <= i < |chunks| ==> ChunkFrom(cfg, conversation, chunks[i], memory)
  }

  /** A prompt holds the last lines the turn could see, and chunks of records that may reach its conversation. */
  lemma PromptExactly(cfg: Config, memory: seq<MemoryRecord>, conversation: string, around: Surroundings,
                      visible: seq<DialogueTurn>, fails: bool)
    ensures var prompt := AssemblePrompt(cfg, around, visible, Retrieve(cfg, memory, conversation, visible, fails));
      && prompt.around == around && LastOf(prompt.recent, visible, cfg.window)
      && ChunksFrom(cfg, conversation, prompt.retrieved, memory) && |prompt.retrieved| <= cfg.topK
      && (!cfg.hasMemory || fails ==> prompt.retrieved == [])
  {
    hide Retrieve, RecordFor;
    RetrievedExactly(cfg, memory, conversation, visible, fails);
    var found := Retrieve(cfg, memory, conversation, visible, fails);
    var chunks := Project(ChunkOf(), found);
    forall i | 0 <= i < |chunks|
      ensures ChunkFrom(cfg, conversation, chunks[i], memory)
    {
      assert found[i] in found && chunks[i] == (found[i].kind, found[i].text);
    }
  }

  /** A live record of the campaign that may reach the conversation. */
  predicate RecordFor(cfg: Config, conversation: string, r: MemoryRecord)
  {
    MayReach(conversation, r.metadata.audience) && r.metadata.tombstoned != Some(true) && r.metadata.campaignId == cfg.campaignId
  }

  lemma NoFilter(lower: string -> string, r: MemoryRecord)
    ensures MatchesMetadataFilter(lower, r, None)
  {
  }

  /** What is retrieved comes from stored records that may reach the conversation: all of them, or `topK`. */
  lemma RetrievedExactly(cfg: Config, memory: seq<MemoryRecord>, conversation: string, visible: seq<DialogueTurn>, fails: bool)
    ensures var found := Retrieve(cfg, memory, conversation, visible, fails);
      && (forall r :: r in found ==> r in memory && RecordFor(cfg, conversation, r))
      && (!cfg.hasMemory || fails ==> found == []) && |found| <= cfg.topK
      && (cfg.hasMemory && !fails && |BuildMemoryQuery(visible)| > 0 && |found| < cfg.topK ==>
            forall r :: r in memory && RecordFor(cfg, conversation, r) ==> r in found)
  {
    hide Filter, AllowedAudiencesFor, BuildMemoryQuery, Ranking.TopK, MayReach, MatchesMetadataFilter;
    var query := BuildMemoryQuery(visible);
    if cfg.hasMemory && !fails && |query| > 0 {
      var candidates := Filter(Selects(cfg.lower, Scope(cfg, conversation)), memory);
      var score := ScoreAgainst(cfg.sqrt, cfg.embed(query));
      var rest := Ranking.TopKIsBest(score, candidates, cfg.topK);
      var top := Ranking.TopK(score, candidates, cfg.topK);
      forall r | r in top
        ensures r in memory && RecordFor(cfg, conversation, r)
      {
        assert r in multiset(top) && r in multiset(candidates) && r in candidates;
        AllowedExactly(conversation, r.metadata.audience);
      }
      forall r | r in memory && RecordFor(cfg, conversation, r)
        ensures |top| < cfg.topK ==> r in top
      {
        AllowedExactly(conversation, r.metadata.audience);
        NoFilter(cfg.lower, r);
        assert r in candidates && r in multiset(candidates);
        assert |multiset(candidates)| == |multiset(top)| + |multiset(rest)|;
      }
    }
  }

  /** A private turn is stored under its own conversation; every other turn is the table's. */
  function AudienceFor(conversation: string): string
  {
    if IsPlayerScoped(conversation) then conversation else TABLE
  }

  /** A private line is stored for its own thread, any other for the table. */
  lemma PrivateExactly(conversation: string)
    ensures AudienceFor(conversation) == if PrivateThread(conversation) then conversation else "table"
  {
  }

  /** Warm state, roster and operator note, read from outside when the prompt is built. */
  datatype Surroundings = Surroundings(warm: int, present: int, note: Option<string>)

  datatype Prompt = Prompt(around: Surroundings, recent: seq<DialogueTurn>, retrieved: seq<(MemoryKind, string)>)

  /** `render` is the text of a prompt; `world` is what a turn's model and tool loop meets outside, by seed. */
  datatype Config = Config(campaignId: string, hasMemory: bool, topK: nat, window: nat, maxIter: int, lower: string -> string,
                           sqrt: real -> real, embed: string -> seq<real>, render: Prompt -> string, world: int -> TurnLoop.World)

  function Recent<T>(rows: seq<T>, window: nat): seq<T>
  {
    if |rows| <= window then rows else rows[|rows| - window..]
  }

  function TextOf(): DialogueTurn -> string
  {
    (t: DialogueTurn) => t.text
  }

  function BuildMemoryQuery(visible: seq<DialogueTurn>): string
  {
    Trim(Join(Project(TextOf(), Recent(visible, QUERY_WINDOW)), " "))
  }

  function ChunkOf(): MemoryRecord -> (MemoryKind, string)
  {
    (r: MemoryRecord) => (r.kind, r.text)
  }

  function Scope(cfg: Config, conversation: string): QueryOptions
  {
    QueryOptions(cfg.campaignId, None, Some(AllowedAudiencesFor(conversation)), None, false)
  }

  /** Retrieval for one turn; an embedding failure just retrieves nothing. */
  function Retrieve(cfg: Config, memory: seq<MemoryRecord>, conversation: string, visible: seq<DialogueTurn>, fails: bool): seq<MemoryRecord>
  {
    var query := BuildMemoryQuery(visible);
    if !cfg.hasMemory || fails || |query| == 0 then []
    else Nearest(cfg.lower, cfg.sqrt, memory, cfg.embed(query), Scope(cfg, conversation), cfg.topK)
  }

  function AssemblePrompt(cfg: Config, around: Surroundings, visible: seq<DialogueTurn>, records: seq<MemoryRecord>): Prompt
  {
    Prompt(around, Recent(visible, cfg.window), Project(ChunkOf(), records))
  }

  // ---- the session as a step system ----

  /** A turn: its conversation and a number the caller gives it there. */
  datatype Handle = Handle(conversation: string, number: nat)

  datatype Observation = Observation(turn: Handle, prompt: Prompt)

  datatype State = State(dialogue: seq<DialogueTurn>, memory: seq<MemoryRecord>, visible: map<Handle, seq<DialogueTurn>>,
                         prompts: map<Handle, Prompt>, observed: seq<Observation>)

  datatype Event =
    | Start(turn: Handle, speaker: string, displayName: Option<string>, text: string, at: int)
    | Ask(turn: Handle, around: Surroundings, embedFails: bool)
    | Finish(turn: Handle, seed: int, at: int)
    | Interject(line: DialogueTurn)
    | Remember(record: MemoryRecord)

  function Spoken(e: Event): DialogueTurn
    requires e.Start?
  {
    DialogueTurn(e.speaker, e.displayName, e.text, e.at, Some(AudienceFor(e.turn.conversation)), Some(e.turn.conversation))
  }

  function Narrated(turn: Handle, text: string, at: int): DialogueTurn
  {
    DialogueTurn("narrator", None, text, at, Some(AudienceFor(turn.conversation)), Some(turn.conversation))
  }

  function FirstMessage(cfg: Config, prompt: Prompt): TurnLoop.Message
  {
    TurnLoop.User([TurnLoop.TextBlock(cfg.render(prompt))])
  }

  /** The rounds of the model and tool loop on a prompt. */
  function RoundsOn(cfg: Config, prompt: Prompt, seed: int): TurnLoop.Transcript
  {
    TurnLoop.TurnTranscript(cfg.world(seed), FirstMessage(cfg, prompt), cfg.maxIter)
  }

  function StopOn(cfg: Config, prompt: Prompt, seed: int): TurnLoop.TurnStop
  {
    var t := RoundsOn(cfg, prompt, seed);
    TurnLoop.Verdict(cfg.world(seed), t.rounds, t.interrupted)
  }

  function NarrationOn(cfg: Config, prompt: Prompt, seed: int): string
  {
    TurnLoop.NarrationOf(RoundsOn(cfg, prompt, seed).rounds)
  }

  /** The narration is stored unless there is none or the session went down mid-turn. */
  function Stored(cfg: Config, s: State, turn: Handle, seed: int, at: int): seq<DialogueTurn>
    requires turn in s.prompts
  {
    var prompt := s.prompts[turn];
    if |NarrationOn(cfg, prompt, seed)| > 0 && StopOn(cfg, prompt, seed) != TurnLoop.AbortedFoundryDown
    then [Narrated(turn, NarrationOn(cfg, prompt, seed), at)] else []
  }

  function Step(cfg: Config, s: State, e: Event): State
  {
    match e
    case Start(turn, _, _, _, _) =>
      var dialogue := s.dialogue + [Spoken(e)];
      s.(dialogue := dialogue, visible := s.visible[turn := Filter(VisibleIn(turn.conversation), dialogue)])
    case Ask(turn, around, embedFails) =>
      if turn !in s.visible then s
      else
        var visible := s.visible[turn];
        var prompt := AssemblePrompt(cfg, around, visible, Retrieve(cfg, s.memory, turn.conversation, visible, embedFails));
        s.(prompts := s.prompts[turn := prompt], observed := s.observed + [Observation(turn, prompt)])
    case Finish(turn, seed, at) =>
      if turn !in s.prompts then s else s.(dialogue := s.dialogue + Stored(cfg, s, turn, seed, at))
    case Interject(line) => s.(dialogue := s.dialogue + [line])
    case Remember(record) => s.(memory := Put(s.memory, record))
  }

  function Run(cfg: Config, s: State, es: seq<Event>): State
    decreases |es|
  {
    if |es| == 0 then s else Run(cfg, Step(cfg, s, es[0]), es[1..])
  }

  // ---- what an observer outside some private conversations can see ----

  /** The private conversations hidden from the observer. */
  type Hiding = string -> bool

  ghost predicate OnlyPrivate(hidden: Hiding)
  {
    forall a :: hidden(a) ==> IsPlayerScoped(a)
  }

  function HidesEvent(hidden: Hiding, e: Event): bool
  {
    match e
    case Start(turn, _, _, _, _) => hidden(turn.conversation)
    case Ask(turn, _, _) => hidden(turn.conversation)
    case Finish(turn, _, _) => hidden(turn.conversation)
    case Interject(line) => hidden(AudienceOf(line))
    case Remember(record) => hidden(EffectiveAudience(record))
  }

  function ShownEvent(hidden: Hiding): Event -> bool
  {
    (e: Event) => !HidesEvent(hidden, e)
  }

  function ShownTurn(hidden: Hiding): DialogueTurn -> bool
  {
    (t: DialogueTurn) => !hidden(AudienceOf(t))
  }

  function ShownRecord(hidden: Hiding): MemoryRecord -> bool
  {
    (r: MemoryRecord) => !hidden(EffectiveAudience(r))
  }

  function ShownObservation(hidden: Hiding): Observation -> bool
  {
    (o: Observation) => !hidden(o.turn.conversation)
  }

  function ShownTo<V>(hidden: Hiding, m: map<Handle, V>): map<Handle, V>
  {
    map h | h in m && !hidden(h.conversation) :: m[h]
  }

  /** The session with everything private to the hidden conversations struck out. */
  function Low(hidden: Hiding, s: State): State
  {
    State(Filter(ShownTurn(hidden), s.dialogue), Filter(ShownRecord(hidden), s.memory), ShownTo(hidden, s.visible),
          ShownTo(hidden, s.prompts), Filter(ShownObservation(hidden), s.observed))
  }

  /** Record ids tell hidden records from the others, so no upsert crosses over. */
  ghost predicate IdsKeepSides(hidden: Hiding, secretId: string -> bool, memory: seq<MemoryRecord>)
  {
    forall r :: r in memory ==> secretId(r.id) == hidden(EffectiveAudience(r))
  }

  ghost predicate EventsKeepSides(hidden: Hiding, secretId: string -> bool, es: seq<Event>)
  {
    forall i :: 0 <= i < |es| && es[i].Remember? ==> secretId(es[i].record.id) == hidden(EffectiveAudience(es[i].record))
  }

  // ---- each ingredient of the prompt ignores what is hidden ----

  lemma AllowedIsShown(hidden: Hiding, conversation: string, a: string)
    requires OnlyPrivate(hidden) && !hidden(conversation) && a in AllowedAudiencesFor(conversation)
    ensures !hidden(a)
  {
  }

  lemma VisibleIgnoresHidden(hidden: Hiding, conversation: string, dialogue: seq<DialogueTurn>)
    requires OnlyPrivate(hidden) && !hidden(conversation)
    ensures Filter(VisibleIn(conversation), Filter(ShownTurn(hidden), dialogue)) == Filter(VisibleIn(conversation), dialogue)
  {
    hide Filter, OnlyPrivate, AllowedAudiencesFor;
    forall t | t in dialogue && VisibleIn(conversation)(t)
      ensures ShownTurn(hidden)(t)
    {
      AllowedIsShown(hidden, conversation, AudienceOf(t));
    }
    FilterWeaker(VisibleIn(conversation), ShownTurn(hidden), dialogue);
  }

  lemma RetrieveIgnoresHidden(cfg: Config, hidden: Hiding, memory: seq<MemoryRecord>, conversation: string,
                              visible: seq<DialogueTurn>, fails: bool)
    requires OnlyPrivate(hidden) && !hidden(conversation)
    ensures Retrieve(cfg, Filter(ShownRecord(hidden), memory), conversation, visible, fails)
         == Retrieve(cfg, memory, conversation, visible, fails)
  {
    hide Filter, OnlyPrivate, AllowedAudiencesFor, EffectiveAudience, BuildMemoryQuery;
    var selects := Selects(cfg.lower, Scope(cfg, conversation));
    forall r | r in memory && selects(r)
      ensures ShownRecord(hidden)(r)
    {
      AllowedIsShown(hidden, conversation, EffectiveAudience(r));
    }
    FilterWeaker(selects, ShownRecord(hidden), memory);
  }

  /** An upsert acts on its own side alone when no record of the other side has its id. */
  lemma {:induction false} PutOnOwnSide(keep: MemoryRecord -> bool, memory: seq<MemoryRecord>, r: MemoryRecord)
    requires forall x :: x in memory && x.id == r.id ==> keep(x) == keep(r)
    ensures Filter(keep, Put(memory, r)) == if keep(r) then Put(Filter(keep, memory), r) else Filter(keep, memory)
    decreases |memory|
  {
    if |memory| > 0 {
      hide Filter;
      var tail := memory[1..];
      assert memory[0] in memory && forall x :: x in tail ==> x in memory;
      PutOnOwnSide(keep, tail, r);
      FilterCons(keep, memory[0], tail);
      FilterCons(keep, memory[0], Put(tail, r));
      FilterCons(keep, r, tail);
      assert memory == [memory[0]] + tail;
      if keep(memory[0]) { PutCons(memory[0], Filter(keep, tail), r); }
    } else {
      assert memory == [];
    }
  }

  lemma PutKeepsSides(hidden: Hiding, secretId: string -> bool, memory: seq<MemoryRecord>, r: MemoryRecord)
    requires IdsKeepSides(hidden, secretId, memory) && secretId(r.id) == hidden(EffectiveAudience(r))
    ensures IdsKeepSides(hidden, secretId, Put(memory, r))
    ensures Filter(ShownRecord(hidden), Put(memory, r))
         == if hidden(EffectiveAudience(r)) then Filter(ShownRecord(hidden), memory) else Put(Filter(ShownRecord(hidden), memory), r)
  {
    hide Filter, Put, EffectiveAudience;
    PutMembers(memory, r);
    PutOnOwnSide(ShownRecord(hidden), memory, r);
  }

  ghost predicate NoShownId(keep: MemoryRecord -> bool, memory: seq<MemoryRecord>, id: string)
  {
    forall x :: x in memory && keep(x) ==> x.id != id
  }

  lemma NoShownIdCons(keep: MemoryRecord -> bool, memory: seq<MemoryRecord>, id: string)
    requires UniqueIds(memory) && |memory| > 0
    ensures memory[0].id != id ==> (NoShownId(keep, memory, id) <==> NoShownId(keep, memory[1..], id))
    ensures memory[0].id == id ==> (NoShownId(keep, memory, id) <==> !keep(memory[0]))
    ensures UniqueIds(memory[1..])
  {
    HeadIsUnique(memory);
  }

  lemma SameTails<T>(x: T, a: seq<T>, b: seq<T>)
    ensures [x] + a == [x] + b <==> a == b
    ensures [x] + a != a
  {
    assert ([x] + a)[1..] == a && ([x] + b)[1..] == b;
    assert |[x] + a| == |a| + 1;
  }

  /** A hidden upsert goes unseen exactly when no shown record has its id. */
  lemma {:induction false} HiddenPutExactly(keep: MemoryRecord -> bool, memory: seq<MemoryRecord>, r: MemoryRecord)
    requires UniqueIds(memory) && !keep(r)
    ensures Filter(keep, Put(memory, r)) == Filter(keep, memory) <==> NoShownId(keep, memory, r.id)
    decreases |memory|
  {
    hide Filter, UniqueIds, NoShownId;
    if |memory| > 0 {
      var tail := memory[1..];
      assert memory == [memory[0]] + tail;
      NoShownIdCons(keep, memory, r.id);
      HiddenPutExactly(keep, tail, r);
      FilterCons(keep, memory[0], tail);
      FilterCons(keep, memory[0], Put(tail, r));
      FilterCons(keep, r, tail);
      SameTails(memory[0], Filter(keep, tail), Filter(keep, Put(tail, r)));
    } else {
      NothingPutOver(keep, memory, r);
    }
  }

  lemma NothingPutOver(keep: MemoryRecord -> bool, memory: seq<MemoryRecord>, r: MemoryRecord)
    requires |memory| == 0 && !keep(r)
    ensures Filter(keep, Put(memory, r)) == Filter(keep, memory) && NoShownId(keep, memory, r.id)
  {
    assert [r][1..] == [];
  }

  lemma HeadIsUnique(memory: seq<MemoryRecord>)
    requires UniqueIds(memory) && |memory| > 0
    ensures forall x :: x in memory[1..] ==> x.id != memory[0].id
    ensures forall x :: x in memory <==> x == memory[0] || x in memory[1..]
  {
    var tail := memory[1..];
    forall x | x in tail
      ensures x.id != memory[0].id
    {
      var k :| 0 <= k < |tail| && tail[k] == x;
      assert memory[k + 1] == x;
    }
    assert memory == [memory[0]] + tail;
  }

  lemma PutCons(x: MemoryRecord, rows: seq<MemoryRecord>, r: MemoryRecord)
    ensures Put([x] + rows, r) == if x.id == r.id then [r] + rows else [x] + Put(rows, r)
  {
    assert ([x] + rows)[1..] == rows;
  }

  // ---- the session object ----

  /** `runTurn`, cut where it awaits: each method is one stretch that runs without interleaving. */
  class Session {
    const cfg: Config
    const store: InMemoryMemoryStore
    var dialogue: seq<DialogueTurn>
    var visible: map<Handle, seq<DialogueTurn>>
    var prompts: map<Handle, Prompt>
    var observed: seq<Observation>

    ghost predicate Valid()
      reads this
    {
      cfg.lower == store.lower && cfg.sqrt == store.sqrt
    }

    ghost function View(): State
      reads this, store
    {
      State(dialogue, store.records, visible, prompts, observed)
    }

    constructor (cfg: Config, store: InMemoryMemoryStore, past: seq<DialogueTurn>)
      requires cfg.lower == store.lower && cfg.sqrt == store.sqrt
      ensures Valid() && this.cfg == cfg && this.store == store
      ensures View() == State(past, store.records, map[], map[], [])
    {
      this.cfg, this.store := cfg, store;
      dialogue, visible, prompts, observed := past, map[], map[], [];
    }

    method StartTurn(turn: Handle, speaker: string, displayName: Option<string>, text: string, at: int)
      requires Valid()
      modifies this
      ensures Valid() && View() == Step(cfg, old(View()), Start(turn, speaker, displayName, text, at))
      ensures turn in visible && visible[turn] == Filter(LinesFor(turn.conversation), dialogue)
    {
      VisibleExactly(turn.conversation, dialogue + [Spoken(Start(turn, speaker, displayName, text, at))]);
      dialogue := dialogue + [Spoken(Start(turn, speaker, displayName, text, at))];
      visible := visible[turn := Filter(VisibleIn(turn.conversation), dialogue)];
    }

    method BuildPrompt(turn: Handle, around: Surroundings, embedFails: bool) returns (prompt: Prompt)
      requires Valid() && turn in visible
      modifies this
      ensures Valid() && View() == Step(cfg, old(View()), Ask(turn, around, embedFails)) && prompts[turn] == prompt
      ensures prompt.around == around && LastOf(prompt.recent, visible[turn], cfg.window)
      ensures ChunksFrom(cfg, turn.conversation, prompt.retrieved, store.records)
    {
      PromptExactly(cfg, store.records, turn.conversation, around, visible[turn], embedFails);
      var query := BuildMemoryQuery(visible[turn]);
      var records := [];
      if cfg.hasMemory && !embedFails && |query| > 0 {
        records := store.Query(cfg.embed(query), Scope(cfg, turn.conversation), cfg.topK);
      }
      prompt := AssemblePrompt(cfg, around, visible[turn], records);
      prompts := prompts[turn := prompt];
      observed := observed + [Observation(turn, prompt)];
    }

    method FinishTurn(turn: Handle, seed: int, at: int)
      requires Valid() && turn in prompts
      modifies this
      ensures Valid() && View() == Step(cfg, old(View()), Finish(turn, seed, at))
    {
      hide TurnLoop.TurnTranscript, TurnLoop.Chained, TurnLoop.Stopped, TurnLoop.Verdict, TurnLoop.NarrationOf, TurnLoop.DispatchesOf;
      var out, _, _, _ := TurnLoop.RunLlmIterations(cfg.world(seed), FirstMessage(cfg, prompts[turn]), cfg.maxIter, false);
      if |out.narration| > 0 && out.stopReason != TurnLoop.AbortedFoundryDown {
        dialogue := dialogue + [Narrated(turn, out.narration, at)];
      } else {
        assert dialogue + [] == dialogue;
      }
    }
  }
}
