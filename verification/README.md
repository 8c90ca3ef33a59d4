# Skeinkeeper core: a Dafny model

This project models the hard core of Skeinkeeper, an AI Dungeon Master that listens to a voice
table, calls a language model with tools, talks to a Foundry add-on over a gateway, and keeps
long-term memory. To verify it: `dafny verify dfyconfig.toml` (Dafny 4.11).

State machines are written twice: as a step function on a datatype of the component's fields, about
which the theorems are proved over whole runs, and as a class with those fields whose methods are
proved to take exactly those steps. Every `await` of the original is a boundary between two steps. What a step
function decides (whom a line may reach, where speech goes, which stamp is newer, who may connect) is stated a
second time in terms of the raw inputs, and the two are proved equal.

| module | what it models |
|---|---|
| `Markers`, `StreamingSegmenter`, `SegmenterRefinement`, `NarrationTheorems`, `NarrationHeld`, `NarrationSentences`, `NarrationVoices` | the streaming narration segmenter and the batch marker parser it refines |
| `Isolation`, `IsolationTheorems`, `PromptContents` | how a turn's prompt is built, with concurrent turns; side-channel isolation |
| `TurnLoop`, `TurnTheorems` | the model and tool loop of a turn |
| `MemoryStore`, `Ranking`, `Cosine` | memory records, the in-memory store, ranking, similarity |
| `IndexRefresh`, `IndexTheorems`, `IndexFailures`, `IndexSync`, `IndexInterleaving`, `IndexReports`, `SingleFlight` | the incremental world index |
| `LanceStore`, `LanceTable`, `MemoryErasure` | the packed vector store, its queries, player erasure over it |
| `ColumnCrypto`, `PiiMigration`, `PiiReads`, `PiiAtRest`, `Erasure` | PII migration in place, subject matching, reads and lookups, erasure |
| `SerialWriter`, `Lifecycle`, `LifecycleTheorems`, `LifecycleCauses` | the FIFO mutex and the Foundry-down pause and resume protocol |
| `Dispatcher`, `DispatcherTheorems`, `Semaphore` | tool dispatch and the side-channel turn semaphore |
| `Speech`, `SpeechRoutes`, `TurnInput` | where captured speech goes in the always-listening loop |
| `Gateway`, `GatewayTheorems` | the add-on gateway's requests, timers, sockets and hello waiters |
| `EventQueue`, `IdentityMap` | the async queue, the router's merge, the identity map |
| `Options`, `Seqs`, `Tables`, `Text` | shared helpers |

Assumed of the outside, as parameters: the model's streams and the dispatcher's answers, the embedding
function, the square root (`Cosine.IsSqrt`), lower-casing, the cipher and the hash (`ColumnCrypto.Enabled`:
ciphertext is tagged and decrypts to its plaintext, tagged text never decrypts to itself, other text passes,
hashes are 64 hex digits), clocks, timers (a timer may fire at any time while armed) and the order in which
enabled steps are taken.
Two strings hash alike only if they are equal, for the ids of the rows and the subject at hand
(`PiiMigration.CompanionFits`, `PiiAtRest.Keeps`, `ColumnCrypto.TokenTellsApart`).

Where the code does not do what its documentation promises, the model follows the code, shows an input, and
states exactly when the promise is kept:

| promise | input | kept exactly when |
|---|---|---|
| no finished sentence waits in the streaming segmenter | `UnclosedBracketHolds` | `SentenceHeldExactly` |
| a surface's first skip of an episode is reported | `SkipSwallowed` | `SkipsCoalesced` |
| the semaphore's limit is never passed | `LimitCanBePassed` | `LimitKeptExactly` |
| no handler body starts while paused | `QueuedBodyOutlivesPause` | `PausedStartExactly`, `NoneStartsWhilePaused` |
| record ids tell entries apart | `RecordIdsCollide` | `CampaignsCollideExactly`, `SameCampaignInjective` |
| a lawful run of refreshes stays in step | `SyncTakesRecord`, `BlankEntryIsLost` | `RunsStayInStepExactly`, `SyncAgrees` |
| the two memory stores answer alike | `EmptyKindsDiffer`, `EmptyAudiencesDiffer` | `StoresAgreeExactly`, `FirstBatchExactly` |
| packing a record round-trips | `ReservedKeyIsLost` | `RoundTripExactly` |
| a hidden upsert is invisible | `CrossingUpsertIsSeen` | `HiddenUpsertUnseenExactly` |
| migration commutes with erasure | `HashShapedSubjectOvermatches` | `MigrationCommutesWithErasure` |
| migration changes nothing readers get | `TaggedColumnsAreLost` | `MigrationKeepsReadings`, `LookupsSurvive` |
| merged speech can be told apart | `LineBreakIsAmbiguous` | `MergeKeepsEverything` |
| one report line per erasure adapter | `FailingLogAddsLine` | `ReportIsComplete` |

## Model

| member | source | states |
|---|---|---|
| NarrationTheorems.StreamRefinesBatch | orchestrator/src/voice/streaming_segmenter.ts:39-133 | for every narration and every way of cutting it into chunks, the streamed segments split each segment of the batch parse into one or more of the same voice, losing only white space between the pieces; so every batch split is a stream split |
| NarrationTheorems.StreamSpeaksTheBatch | orchestrator/src/voice/streaming_segmenter.ts:39-118 | the (voice, non-white-space character) pairs of all pushes and the flush are exactly those of the batch parse, in order |
| NarrationSentences.SameRuns | orchestrator/src/voice/streaming_segmenter.ts:39-118 | one division of the narration into runs: the batch parser says each run whole, and the stream, however chunked, says each sentence by sentence, cutting behind white space after one of .!? and closing punctuation and nowhere else |
| NarrationSentences.BracketlessStream | orchestrator/src/voice/streaming_segmenter.ts:58-80 | a narration without brackets is streamed as exactly its own sentences |
| NarrationVoices.ParseExactly | orchestrator/src/voice/markers.ts:21-50 | without a marker a text is one trimmed run in the current voice; otherwise the run before the first bracket that spells npc: in any case, and then the rest in the voice whose name the bracket holds: its lower-cased words, one space apart |
| NarrationVoices.SameVoiceExactly | orchestrator/src/voice/markers.ts:23-25 | two markers name one voice exactly when their lower-cased names have the same words |
| NarrationVoices.VoicesAreTidy | orchestrator/src/voice/markers.ts:23-25 | a voice has exactly the characters of the lower-cased name that are not white space, in single-spaced words |
| NarrationVoices.StreamedVoicesAreNamed | orchestrator/src/voice/streaming_segmenter.ts:82-133 | every character voice of a stream is that of a marker in the narration |
| NarrationTheorems.NothingCompleteWaits | orchestrator/src/voice/streaming_segmenter.ts:58-80 | after any prefix of a stream, the segment in front of any open bracket contains no finished sentence |
| NarrationHeld.SentenceHeldExactly | orchestrator/src/voice/streaming_segmenter.ts:58-118 | after any text fed, what is held back, open bracket included, contains a finished sentence exactly when the text has an unclosed NPC bracket with a finished sentence in it |
| NarrationHeld.UnclosedBracketHolds | orchestrator/src/voice/streaming_segmenter.ts:82-118 | a concrete text whose finished sentence waits in a bracket that never closes |
| StreamingSegmenter.ChunkingIsIrrelevant | orchestrator/src/voice/streaming_segmenter.ts:39-56 | the segments emitted do not depend on the chunking |
| SegmenterRefinement.BatchReadsTokens | orchestrator/src/voice/markers.ts:37-50 | the batch parse equals the parse of the token stream in which only voice changes cut, whatever text is waiting |
| SegmenterRefinement.StreamReadsTokens | orchestrator/src/voice/streaming_segmenter.ts:58-118 | from any state outside a bracket, the character machine emits what the token reading with sentence cuts emits: a disproved bracket is re-read as literal text |
| Markers.NextMatchIsLeftmost | orchestrator/src/voice/markers.ts:21-21 | the match found is the leftmost substring the marker expression matches, and its end is the only possible end |
| Markers.ParseNarrationSegments | orchestrator/src/voice/markers.ts:37-50 | the loop over the expression's matches returns the recursive batch parse, which ParseExactly spells out |
| StreamingSegmenter.StreamingNarrationSegmenter.Push | orchestrator/src/voice/streaming_segmenter.ts:40-45 | the fields after a chunk and the segments returned are those of running the machine over its characters, which SameRuns and StreamedVoicesAreNamed spell out |
| StreamingSegmenter.StreamingNarrationSegmenter.Flush | orchestrator/src/voice/streaming_segmenter.ts:48-56 | an open bracket becomes literal text and the last segment is emitted |
| StreamingSegmenter.StreamingNarrationSegmenter.Consume | orchestrator/src/voice/streaming_segmenter.ts:58-80 | one character outside or inside a bracket, with the fall-back that re-reads it as text |
| IsolationTheorems.Isolated | orchestrator/src/session.ts:598-655 | two-run isolation: sessions that agree on everything not private to the hidden conversations, in their past and their events, build the same prompts for everybody else at every step |
| IsolationTheorems.RunCommutes | orchestrator/src/session.ts:598-701 | striking out the hidden conversations before a run or after it gives the same session, for any interleaving of turns, interjections and new memories |
| IsolationTheorems.CrossingUpsertIsSeen | orchestrator/src/memory/store.ts:147-149 | for every shown record a turn would retrieve, a hidden upsert under its id makes that turn's prompt lose it |
| IsolationTheorems.HiddenUpsertUnseenExactly | orchestrator/src/memory/store.ts:147-149 | a hidden upsert is invisible to everybody else exactly when no shown record has its id |
| IsolationTheorems.OthersPrivateTurnsDoNotMatter | orchestrator/src/audience.ts:27-40 | the table and player X are built the same prompts with or without everybody else's private turns and memories |
| Isolation.VisibleIgnoresHidden | orchestrator/src/session.ts:606-608 | the visible dialogue of a conversation is unchanged when what is hidden from it is struck out first |
| Isolation.RetrieveIgnoresHidden | orchestrator/src/memory/retrieval.ts:32-55 | so are the top-K records retrieved for it, with their ties |
| Isolation.PutKeepsSides | orchestrator/src/memory/store.ts:147-149 | an upsert of a hidden record leaves the shown records alone and an upsert of a shown one acts on them alone, given ids that tell the sides apart |
| IsolationTheorems.PromptsStayPermitted | orchestrator/src/audience.ts:27-40 | over any run, a dialogue line reaches a prompt only if its audience is allowed in that conversation |
| IsolationTheorems.RetrievalPermitted | orchestrator/src/memory/retrieval.ts:32-55 | every record retrieved is stored, live and of an allowed audience |
| PromptContents.PromptsHoldOnly | orchestrator/src/audience.ts:27-40 | over any run, every line of every prompt, and the record behind every chunk, is the table's, or else the game master's in a prompt of the table, or the player's own in a prompt of that player |
| PromptContents.PrivatePromptsAreClean | orchestrator/src/audience.ts:27-40 | a line in a prompt of a private thread is unmarked, the table's or that thread's own, so no gm line and no other player's reaches it |
| PromptContents.StartShowsExactly | orchestrator/src/session.ts:598-608 | starting a turn stores its line for its own thread or for the table, and shows the turn every stored line that may reach it, in order, and no other |
| PromptContents.InterjectionReaches | orchestrator/src/session.ts:598-608 | an interjection is seen by every later turn it may reach |
| PromptContents.QueryExactly | orchestrator/src/memory/retrieval.ts:19-30 | the memory query has the words of the last six visible lines, in order |
| Isolation.RetrievedExactly | orchestrator/src/memory/retrieval.ts:32-55 | what is retrieved are live records of the campaign that may reach the conversation, all of them or as many as asked for |
| IsolationTheorems.OwnPrivateTurnsReachTheirPlayer | orchestrator/src/session.ts:598-651 | the line that starts a turn is the last one of that turn's own prompt, in any conversation, under any name and whatever else happens in between |
| Isolation.Session.StartTurn | orchestrator/src/session.ts:598-608 | the player line is appended and, in the same stretch, the turn is shown exactly the lines that may reach its conversation |
| Isolation.Session.BuildPrompt | orchestrator/src/session.ts:625-655 | the prompt is the end of what the turn was shown, as long as the window, with chunks of stored records that may reach its conversation |
| Isolation.Session.FinishTurn | orchestrator/src/session.ts:540-701 | the turn's loop is run and its narration appended to the dialogue, unless it is empty or a dispatch was answered foundry-down |
| IsolationTheorems.WentDownStoresNothing | orchestrator/src/session.ts:540-701 | a turn adds no line exactly when its loop narrated nothing or some dispatch of it was answered foundry-down, its last; otherwise it adds the one line of the narrator for its thread or for the table |
| TurnLoop.RunLlmIterations | orchestrator/src/session.ts:406-581 | the rounds made, their narration, dispatches, stop reason, error and number; at most the cap of calls; the segments are those of the whole returned narration |
| TurnLoop.TranscriptFits | orchestrator/src/session.ts:406-581 | the rounds the loop makes are a chain of calls that stops exactly where the loop must and stays within the cap |
| TurnLoop.ReadingRelays | orchestrator/src/session.ts:447-476 | a stream is read as its texts joined, its tool calls in its own order, the stop reason it gave last, and its first failure, which ends the reading |
| TurnTheorems.StopReasonExactly | orchestrator/src/session.ts:494-573 | a turn whose last stream did not fail stops as a refusal or normally, by the stream's last stop reason, when it asked for no tool; else as foundry-down when the last answer said so; else at the cap |
| TurnTheorems.FailureExactly | orchestrator/src/session.ts:466-492 | a failing stream ends the turn as an error, or as aborted when the signal was given or the failure is a cancellation |
| TurnTheorems.ExchangeExactly | orchestrator/src/session.ts:499-568 | an answered round adds the text, if any, and the tool uses in the stream's order, then one result per use in the same order |
| TurnLoop.EveryCallIsPaired | orchestrator/src/session.ts:436-568 | at every model call roles alternate, starting with the user, and each assistant tool-use id list is nonempty and equals the next user message's result id list |
| TurnLoop.FoundryDownIsFinal | orchestrator/src/session.ts:540-567 | the turn stops as aborted-foundry-down exactly when some dispatch was answered so, and no dispatch and no call follow it |
| TurnLoop.CapReachedExactly | orchestrator/src/session.ts:425-573 | max_tool_iterations is reported exactly when the cap was reached by a fully answered round |
| TurnLoop.RunRound | orchestrator/src/session.ts:436-568 | one call: the round holds what its stream relays up to the first failure, the calls are dispatched in that order, and the exchange is appended only when all were answered |
| TurnLoop.DispatchAll | orchestrator/src/session.ts:540-563 | calls are dispatched in order up to the first foundry-down answer; results are in the order of the calls |
| IndexTheorems.SyncAgrees | orchestrator/src/autosetup/index-refresh.ts:267-333 | after a sync the live records of the campaign and source are exactly the entries read (ids, texts, stamps) if and only if every entry to be written has text and every other one already agreed |
| IndexReports.EntryAfterSync | orchestrator/src/autosetup/index-refresh.ts:285-315 | after a sync an entry with text is live, field by field as read, when it was not live before or its stamp comes after the stored one; otherwise its live record is unchanged |
| IndexReports.VanishedAfterSync | orchestrator/src/autosetup/index-refresh.ts:317-326 | a live record whose entry is gone keeps every field but is tombstoned |
| IndexReports.CountsAreDifferences | orchestrator/src/autosetup/index-refresh.ts:285-326 | added are the ids read and not live, updated the live ones read with a later stamp, deleted the live ones no longer read |
| IndexRefresh.ShouldUpdateExactly | orchestrator/src/autosetup/index-refresh.ts:329-333 | a stamp is newer than one it differs from upward at the first difference, or that it continues, and than none |
| IndexReports.RefreshReads | orchestrator/src/autosetup/index-refresh.ts:65-175 | a refresh reads the four sources in order and counts a failed read as an empty one |
| IndexReports.CutExactly | orchestrator/src/memory/ingest.ts:35-68 | an embedding failure leaves the 64 records of each earlier batch |
| IndexTheorems.RunsStayInStep | orchestrator/src/autosetup/index-refresh.ts:65-175 | over any run of refreshes of mutually unentangled campaigns whose edits carry later stamps, in the order of strings, every campaign and source agrees with its last reading after every refresh, revivals and failed reads included |
| IndexTheorems.RunsStayInStepExactly | orchestrator/src/autosetup/index-refresh.ts:65-175 | all such runs over a set of campaigns stay in step if and only if no two of the campaign ids are entangled |
| IndexTheorems.SyncTakesRecord | orchestrator/src/autosetup/index-refresh.ts:302-315 | syncing an entry whose record id an entangled campaign uses takes that campaign's agreed record away |
| IndexInterleaving.CampaignsDoNotInterfere | orchestrator/src/autosetup/index-refresh.ts:50-63 | however refreshes of several campaigns interleave at their awaits, completed or cut, a campaign entangled with none of the others is left exactly the records its own attempts would leave it one after another |
| IndexInterleaving.InterleavedRefreshAgrees | orchestrator/src/autosetup/index-refresh.ts:267-327 | a refresh that completes among other campaigns' refreshes agrees with what it read |
| IndexFailures.CompletedRefreshAgrees | orchestrator/src/autosetup/index-refresh.ts:246-327 | however many refreshes of a run were cut short by a failing embedding call, each one that completes leaves the live records equal to what it read, if stamps rise per entry over all readings |
| IndexTheorems.SyncElsewhere | orchestrator/src/autosetup/index-refresh.ts:267-327 | every other source of the campaign and every campaign not entangled with it keeps its agreement with its own reading |
| IndexTheorems.SyncFrame | orchestrator/src/autosetup/index-refresh.ts:267-327 | a record whose id is not one of this campaign and source is not touched |
| IndexTheorems.RepeatRefreshIsIdle | orchestrator/src/autosetup/index-refresh.ts:267-333 | a second sync of the same reading changes nothing and reports zeros |
| IndexTheorems.GoodReadHeals | orchestrator/src/autosetup/index-refresh.ts:205-224 | after a failed read tombstoned a source, the next good read restores agreement whatever its stamps |
| IndexTheorems.BlankEntryIsLost | orchestrator/src/memory/ingest.ts:32-32 | synced into an empty index, an entry is agreed with exactly when some part of its text is not blank |
| IndexTheorems.EmbeddedSpeaks | orchestrator/src/autosetup/index-refresh.ts:335-340 | the joined and trimmed text of an entry is nonblank exactly when one of its parts is |
| IndexRefresh.LiveAfterSync | orchestrator/src/autosetup/index-refresh.ts:285-327 | what is live for an entry afterwards: freshly written if it needed writing and has text, otherwise what was live before |
| IndexRefresh.RecordIdInjective | orchestrator/src/autosetup/index-refresh.ts:305-305 | record ids tell campaigns, sources and entries apart for any two campaigns that are not entangled, one and the same campaign included |
| IndexRefresh.SameCampaignInjective | orchestrator/src/autosetup/index-refresh.ts:305-305 | within one campaign record ids tell sources and entries apart, whatever its id holds |
| IndexRefresh.CampaignsCollideExactly | orchestrator/src/autosetup/index-refresh.ts:305-305 | two campaigns have a record id in common if and only if one campaign id is the other one, a colon and a source name, up to its end or to a colon |
| IndexRefresh.RecordIdsCollide | orchestrator/src/autosetup/index-refresh.ts:305-305 | a concrete pair of campaigns and entries that share a record id |
| IndexRefresh.IngestColdEntries | orchestrator/src/memory/ingest.ts:27-70 | every usable entry is upserted in batches; if a batch throws, exactly the earlier batches are stored |
| IndexSync.SyncSource | orchestrator/src/autosetup/index-refresh.ts:267-327 | the new store and the added, updated and deleted counts as set differences; when an embedding batch throws, exactly the earlier batches are stored and nothing counts as deleted |
| IndexSync.Plan | orchestrator/src/autosetup/index-refresh.ts:285-299 | what is to be ingested and the counts of added and updated entries |
| IndexSync.Bury | orchestrator/src/autosetup/index-refresh.ts:317-326 | exactly the live records whose entries are gone are tombstoned, in any order of visits |
| IndexSync.RunRefresh | orchestrator/src/autosetup/index-refresh.ts:65-175 | whatever embedding calls fail, the store is the one after the four attempts in turn, each reported against the store it found, and the errors are the failed reads and then the sources cut short |
| SingleFlight.OneRunPerCampaign | orchestrator/src/autosetup/index-refresh.ts:50-63 | a campaign never has two unsettled refreshes, and a caller is given the unsettled one if there is one |
| MemoryStore.InMemoryMemoryStore.Upsert | orchestrator/src/memory/store.ts:147-149 | one record per id, in order of first insertion, as a map update per record |
| MemoryStore.InMemoryMemoryStore.Query | orchestrator/src/memory/store.ts:151-158 | the stable top-K by cosine similarity of the records that match the options |
| MemoryStore.InMemoryMemoryStore.DeleteByAudience | orchestrator/src/memory/store.ts:203-211 | exactly the records of that effective audience go, and the count is their number |
| MemoryStore.PutAllUpdates | orchestrator/src/memory/store.ts:147-149 | upserting in sequence is updating the id map in sequence and keeps ids unique |
| MemoryStore.QueryExactly | orchestrator/src/memory/store.ts:151-183 | the answer holds records asked for, field by field, most similar first; one asked for is left out only when as many others at least as similar are there |
| MemoryStore.FilterExactly | orchestrator/src/memory/store.ts:103-126 | a filter agrees in location and quest up to case, in source and id exactly, and in some keyword up to case |
| MemoryStore.PutKeepsPlaces | orchestrator/src/memory/store.ts:147-149 | an upsert keeps every record's place and puts a new id at the end |
| Ranking.TopKIsBest | orchestrator/src/memory/store.ts:153-157 | the top K are K of the candidates or all of them, descending, and none left out scores higher |
| Ranking.RankedIsStable | orchestrator/src/memory/store.ts:155-155 | records of one score keep the order they came in |
| Cosine.SimilarityBounded | orchestrator/src/memory/store.ts:128-140 | for vectors of any lengths the similarity lies in [-1, 1] |
| Cosine.SimilarityExactly | orchestrator/src/memory/store.ts:128-140 | the similarity times the two lengths is the dot product and has its sign; a vector without length is similar to nothing |
| Cosine.SelfSimilar | orchestrator/src/memory/store.ts:128-140 | a vector with a length has similarity 1 to itself |
| Cosine.DotBounded | orchestrator/src/memory/store.ts:128-140 | the accumulated dot product squared is at most the product of the accumulated squared norms |
| Cosine.CosineSimilarity | orchestrator/src/memory/store.ts:128-140 | the accumulating loop computes the similarity of the common prefix |
| LanceStore.RoundTripExactly | plugins/memory-lance/src/lance_memory_store.ts:68-137 | packing then unpacking gives the normal form back if and only if the deltas leave the reserved key alone |
| LanceStore.MetadataQueryAgrees | plugins/memory-lance/src/lance_memory_store.ts:174-182 | a metadata query over packed rows is the in-memory store's answer in normal form |
| LanceStore.VectorQueryIsPrefix | plugins/memory-lance/src/lance_memory_store.ts:183-196 | without empty lists the vector query returns a prefix of the exact live top-K, and all of it exactly when enough live records were fetched |
| LanceStore.OverFetchSuffices | plugins/memory-lance/src/lance_memory_store.ts:185-195 | at most 3K tombstones among the first 4K ranked records give the exact answer |
| LanceStore.EmptyListsSearchEverything | plugins/memory-lance/src/lance_memory_store.ts:215-226 | in the vector search an empty list of kinds or audiences restricts nothing |
| LanceStore.EmptyListsSelectNothing | orchestrator/src/memory/store.ts:173-183 | in memory an empty list of kinds or audiences selects nothing |
| LanceStore.StoresAgreeExactly | plugins/memory-lance/src/lance_memory_store.ts:183-196 | the two stores give the same answer exactly when: without empty lists, enough live records were fetched; with one, nothing was asked for or nothing live was fetched |
| LanceStore.EmptyKindsDiffer | plugins/memory-lance/src/lance_memory_store.ts:217-220 | every live record is found by the vector search and not in memory when the list of kinds is empty |
| LanceStore.EmptyAudiencesDiffer | plugins/memory-lance/src/lance_memory_store.ts:221-224 | and likewise, whatever its audience, when the list of audiences is empty |
| LanceTable.LanceMemoryStore.Upsert | plugins/memory-lance/src/lance_memory_store.ts:159-169 | the table is the packed form of what the in-memory store would hold, except after a first batch that repeats an id |
| LanceTable.FirstBatchExactly | plugins/memory-lance/src/lance_memory_store.ts:159-169 | a first batch leaves what the in-memory store would hold exactly when its ids are distinct |
| LanceTable.LanceMemoryStore.QueryByMetadata | plugins/memory-lance/src/lance_memory_store.ts:171-182 | the answer is the in-memory one, in normal form |
| LanceTable.LanceMemoryStore.QueryByVector | plugins/memory-lance/src/lance_memory_store.ts:183-196 | with empty lists read as no lists, the answer is a prefix of the exact live top-K, the whole of it exactly when enough live records were fetched, and at most K long |
| LanceTable.LanceMemoryStore.DeleteByAudience | plugins/memory-lance/src/lance_memory_store.ts:263-270 | the same records go as from the in-memory store |
| MemoryErasure.DeletePlayer | plugins/memory-lance/src/memory_adapter.ts:51-56 | exactly the records under the hashed or the legacy token go, and the counts add up |
| MemoryErasure.SharedRecordsSurvive | plugins/memory-lance/src/memory_adapter.ts:52-56 | no table or gm record is private to any player |
| PiiMigration.MigrationCommutesWithErasure | server/src/pii_migrate.ts:47-119 | migrating then erasing and erasing then migrating leave the same decrypted rows, hashes and tokens if and only if no dialogue row is overmatched, that is, addressed by raw id to a player whose hash is the erased subject's id |
| PiiMigration.InterruptionIsRepaired | server/src/pii_migrate.ts:47-119 | a run stopped after any of its row updates and run again leaves the same decrypted rows, hashes and tokens as one uninterrupted run |
| PiiMigration.SecondRunIsIdle | server/src/pii_migrate.ts:47-119 | a second full run updates no row and counts none |
| PiiAtRest.NothingPlainIsLeft | server/src/pii_migrate.ts:47-119 | after a full run every tested column of all five tables is encrypted, and the other encrypted columns and the tokens hold nothing in the clear exactly when the rows it skips did not |
| PiiAtRest.DialogueAtRest | server/src/pii_migrate.ts:83-97 | a plain row has speaker, text and name sealed, its companion filled in and raw tokens replaced by digests; a tagged one is unchanged |
| PiiAtRest.ErasureTakesExactly | server/src/adapters/dialogue-adapter.ts:43-59 | in a plain, half or fully migrated database, erasing a subject takes exactly the rows of its tenant that decrypt to it or are addressed to it |
| PiiAtRest.ConsentIsNewest | server/src/tenant_db.ts:367-384 | the consent state is the action of the newest row of the tenant and purpose that decrypts to the subject |
| PiiAtRest.MappingIsNewest | server/src/tenant_db.ts:244-281 | a mapping lookup finds the newest row of the tenant and campaign that decrypts to the player or Foundry user |
| PiiReads.LookupsSurvive | server/src/tenant_db.ts:244-281 | after migration the consent lookups answer as before, and the mapping lookups find the same row and return it decrypted as before exactly when that row is not garbled |
| PiiReads.MigrationKeepsReadings | server/src/pii_columns.ts:14-37 | over all five tables, readers get exactly what they got before if and only if no mapping and no dialogue row is garbled: plain in the column the migration tests and tagged in another encrypted one |
| PiiReads.DialogueReadsSurvive | server/src/pii_columns.ts:30-37 | a dialogue row reads as before exactly when it is not garbled, and all but its text and name always does |
| PiiReads.MappingReadsSurvive | server/src/pii_columns.ts:18-28 | a mapping row reads as before exactly when it is not garbled, and all but its Foundry id and name always does |
| PiiReads.TaggedColumnsAreLost | server/src/pii_columns.ts:18-37 | a fitting row whose name starts with the ciphertext tag is lost to both mapping lookups, and so is such a line of dialogue |
| PiiMigration.HashShapedSubjectOvermatches | server/src/adapters/dialogue-adapter.ts:43-50 | a row that migration makes erasure take from another player, for every player with a raw id |
| PiiMigration.DialogueKeepsSubject | server/src/adapters/dialogue-adapter.ts:43-50 | a migrated dialogue row matches a subject exactly when it did before or is overmatched |
| PiiMigration.ConsentKeepsSubject | server/src/adapters/consents-adapter.ts:29-34 | a migrated consent row matches a subject exactly when it did before |
| ColumnCrypto.RewriteOnce | server/src/pii_migrate.ts:40-45 | rewriting a token twice is rewriting it once: no token is hashed twice |
| ColumnCrypto.RewriteMatches | server/src/audience.ts:48-69 | a rewritten token names a subject exactly when the original did or its player hashes onto the subject's id |
| PiiMigration.Db.EncryptPiiColumns | server/src/pii_migrate.ts:47-119 | stopped after any number of row updates, the tables are partly migrated and that many rows are counted; not stopped, all five are migrated in place and the counts are those of the plain rows |
| PiiMigration.Db.EncryptDialogues | server/src/pii_migrate.ts:83-97 | the dialogue loop migrates exactly the rows with a plain speaker, as far as it gets |
| PiiMigration.Db.DeletePlayer | server/src/adapters/dialogue-adapter.ts:52-59 | exactly the subject's rows go from the three player tables |
| Erasure.Erase | server/src/erasure.ts:97-188 | exactly the adapters of the scope act: all snapshots come before any deletion, every one then deletes once whatever the others do, and the report and the log are theirs |
| Erasure.ReportIsComplete | server/src/erasure.ts:110-163 | the totals are the adapters' totals; there is one report line per adapter except that a failing log insert adds a second line and a failure |
| Erasure.RemaindersExactly | server/src/erasure.ts:110-163 | the remainders and errors reported are those of the adapters, under their names and in their order |
| LifecycleTheorems.ResumeProtocol | orchestrator/src/sessions/lifecycle.ts:176-220 | under any interleaving pause and resume rows alternate, a request inside its preflight finds the session paused, at most one is inside, and one ok is given per completed episode |
| LifecycleTheorems.OnlyPreflightActivates | orchestrator/src/sessions/lifecycle.ts:180-205 | a passing preflight always ends the pause and writes its row, and nothing else ever activates the session |
| LifecycleCauses.PausesExactly | orchestrator/src/sessions/lifecycle.ts:119-158 | from an active session exactly three things pause it, each with its own cause, stamp, error and one row: the add-on going, the emit failures in reach numbering the threshold, and that many heartbeat failures in a row since the last success or resume |
| LifecycleCauses.PausedAbsorbs | orchestrator/src/sessions/lifecycle.ts:207-220 | while paused, reports change neither the phase nor the rows |
| LifecycleCauses.ConcludingExactly | orchestrator/src/sessions/lifecycle.ts:183-204 | a throwing preflight is passed on, critical gaps fail the request, and any other outcome resumes and resets both detectors |
| LifecycleCauses.DurationExactly | orchestrator/src/sessions/lifecycle.ts:180-200 | the duration in a resume row is the time from the pause it ends to the entry of the request that ended it |
| LifecycleCauses.DefaultsPause | orchestrator/src/sessions/lifecycle.ts:90-92 | by default the third emit failure within thirty seconds and the second heartbeat failure in a row pause the session |
| LifecycleTheorems.EmitPauseExact | orchestrator/src/sessions/lifecycle.ts:130-140 | a failure pauses the session exactly when the failures still reached by all later ones number the threshold; with a monotone clock these are the ones within the window since the last success or resume |
| LifecycleTheorems.PruningIsExact | orchestrator/src/sessions/lifecycle.ts:134-135 | pruning at each failure keeps exactly the failures every later one still reaches |
| LifecycleTheorems.ActiveIsCalm | orchestrator/src/sessions/lifecycle.ts:130-158 | while active neither detector has reached its threshold |
| LifecycleTheorems.SkipsCoalesced | orchestrator/src/sessions/lifecycle.ts:164-174 | a surface is reported skipped at most once per episode, and its first skip of an episode goes unreported exactly when the last episode that reported it began in the same millisecond |
| LifecycleTheorems.SkipSwallowed | orchestrator/src/sessions/lifecycle.ts:164-174 | two pauses in one millisecond swallow the second episode's report |
| Lifecycle.SessionLifecycleController.OnEmitFailure | orchestrator/src/sessions/lifecycle.ts:130-140 | push, prune, and pause at the threshold |
| Lifecycle.SessionLifecycleController.ResumeEnters | orchestrator/src/sessions/lifecycle.ts:179-182 | a request that finds the session active is answered at once, otherwise it computes the paused duration and awaits its preflight |
| Lifecycle.SessionLifecycleController.ResumeConcludes | orchestrator/src/sessions/lifecycle.ts:183-204 | a throwing or critical preflight changes nothing; any other activates, resets both detectors and writes the row |
| Lifecycle.SessionLifecycleController.BecomePaused | orchestrator/src/sessions/lifecycle.ts:207-220 | one row per episode; later causes are absorbed |
| SerialWriter.MutualExclusion | orchestrator/src/util/mutex.ts:21-34 | however the microtasks interleave at most one section runs, in the order asked for, and the depth counts those not yet gone |
| SerialWriter.NeverStuck | orchestrator/src/util/mutex.ts:22-28 | a chain with work left always has a step to take, so a throwing section blocks nobody |
| SerialWriter.Mutex.RunExclusive | orchestrator/src/util/mutex.ts:21-34 | a section is chained behind all earlier ones |
| Speech.SpeechIsConserved | orchestrator/src/always_listening_session.ts:190-366 | every utterance is in exactly one place, each path in arrival order: recorded unmapped, consumed or buffered, replayed, queued, held or dropped; and a response consumes exactly the fragments judged |
| SpeechRoutes.WhereSpeechGoes | orchestrator/src/always_listening_session.ts:268-293 | over any run, an utterance is for good recorded as unmapped iff the last presence report blocked its speaker; otherwise held, replayed or dropped iff the last phase event was a pause; otherwise buffered or answered |
| SpeechRoutes.LullExactly | orchestrator/src/always_listening_session.ts:298-356 | a lull acts only on an active and ready session: present, consenting newcomers without a character who are not blocked are welcomed in one turn over the whole buffer; else a nonempty buffer goes to the decider |
| SpeechRoutes.DecisionExactly | orchestrator/src/always_listening_session.ts:346-365 | over any run, a decision to respond is one turn over exactly what was judged, and one not to is none |
| SpeechRoutes.HeldOnlyWhilePaused | orchestrator/src/always_listening_session.ts:193-205 | fragments are held only during a pause: a resume hands all of them over for replay |
| SpeechRoutes.HoldExactly | orchestrator/src/sessions/input-buffer.ts:26-32 | below the bound nothing is dropped, at the bound exactly the oldest fragment |
| SpeechRoutes.GreetedExactly | orchestrator/src/always_listening_session.ts:328-345 | those greeted are those welcomed in a turn that has ended |
| Speech.WelcomedOnce | orchestrator/src/always_listening_session.ts:307-345 | nobody is given the onboarding welcome twice in a session |
| Speech.HoldDrops | orchestrator/src/sessions/input-buffer.ts:26-32 | holding one more fragment drops at most the single oldest one and keeps the order of the rest |
| Speech.PausedInputBuffer.Push | orchestrator/src/sessions/input-buffer.ts:26-32 | what is held is what was pushed since the last drain without the dropped oldest ones, and nothing is dropped below the bound |
| Speech.PausedInputBuffer.Drain | orchestrator/src/sessions/input-buffer.ts:44-49 | all that is held, in order of arrival, and both counters reset |
| Speech.TranscriptionBuffer.Append | orchestrator/src/voice/buffer.ts:43-46 | only final fragments are kept |
| Speech.AlwaysListeningLoop.OnUtterance | orchestrator/src/always_listening_session.ts:268-293 | by the state it meets, an utterance is recorded unmapped when its speaker is blocked, pushed to the pause buffer when the session is paused, and buffered otherwise |
| Speech.AlwaysListeningLoop.OnLull | orchestrator/src/always_listening_session.ts:298-356 | nothing while paused or not ready; onboarding takes the whole buffer; otherwise a nonempty buffer goes to the decider |
| Speech.AlwaysListeningLoop.OnDecision | orchestrator/src/always_listening_session.ts:353-365 | a response drains the buffer that was judged |
| Speech.AlwaysListeningLoop.OnResumed | orchestrator/src/always_listening_session.ts:193-197 | the held fragments join the replay queue in order |
| TurnInput.MergeKeepsEverything | orchestrator/src/always_listening_session.ts:135-154 | the lines of overlapping speakers can be read back one by one from the merged text exactly when no name or text among them holds a newline; the text is attributed to the last speaker |
| Gateway.EveryRequestSettlesOnce | plugins/vtt-foundry/src/foundry_gateway.ts:150-241 | over any run issued requests are the disjoint union of those settled, each once, and those pending, each with an armed timer; hello is known exactly while an admitted socket is held; every hello waiter is answered at most once |
| Gateway.StrangersAreInert | plugins/vtt-foundry/src/foundry_gateway.ts:260-283 | a frame from a socket that is not held settles nothing and raises nothing, and only an acceptable hello can change who is held |
| GatewayTheorems.HelloExactly | plugins/vtt-foundry/src/foundry_gateway.ts:285-360 | a hello takes the connection exactly when its version starts with 13. or 14., it carries the pairing secret, or is local when that is blank, and nobody else is connected; all waiters are then answered, in order; any other hello only loses its socket |
| GatewayTheorems.ConnectedIsEntitled | plugins/vtt-foundry/src/foundry_gateway.ts:285-360 | over any run, whoever is connected came in by such a hello, which is the one known |
| GatewayTheorems.ResponseExactly | plugins/vtt-foundry/src/foundry_gateway.ts:362-380 | a response settles the pending request of its id with what it says and disarms its timer; any other does nothing |
| GatewayTheorems.EventExactly | plugins/vtt-foundry/src/foundry_gateway.ts:382-406 | a departure is announced, a chat line with a sender and a text is passed on, and nothing else happens |
| GatewayTheorems.RequestExactly | plugins/vtt-foundry/src/foundry_gateway.ts:191-211 | a request is sent and timed over an open connection and refused at once otherwise |
| GatewayTheorems.EndExactly | plugins/vtt-foundry/src/foundry_gateway.ts:150-241 | the connected socket's close rejects everything pending as gone and announces it; closing the gateway rejects it as closed; any other close does nothing |
| GatewayTheorems.WaitingExactly | plugins/vtt-foundry/src/foundry_gateway.ts:172-189 | a caller is told a known hello at once and is timed otherwise; a timer answers its own caller alone |
| Gateway.SettledOnlyBy | plugins/vtt-foundry/src/foundry_gateway.ts:191-283 | what can settle requests: a response of the held socket, the request's own timer, a request without connection, a disconnect or a close |
| Gateway.EndSettlesEverything | plugins/vtt-foundry/src/foundry_gateway.ts:232-241 | a disconnect or a close rejects each pending request once and leaves nothing pending |
| Gateway.FoundryGateway.DoRequest | plugins/vtt-foundry/src/foundry_gateway.ts:191-211 | a request is pending with its timer armed, or rejected at once when no open socket is held |
| Gateway.FoundryGateway.OnHello | plugins/vtt-foundry/src/foundry_gateway.ts:285-360 | version, authorization and duplicate checks in order; a hello that passes them answers every waiter |
| Gateway.FoundryGateway.OnRes | plugins/vtt-foundry/src/foundry_gateway.ts:362-380 | a known id is settled by its response and disarmed; an unknown one is ignored |
| Gateway.FoundryGateway.OnSocketClose | plugins/vtt-foundry/src/foundry_gateway.ts:232-241 | only the held socket's close rejects what is pending and reports gone |
| Gateway.FoundryGateway.Close | plugins/vtt-foundry/src/foundry_gateway.ts:150-157 | everything pending is rejected as closed and the socket is let go |
| Dispatcher.OneMutationAtATime | orchestrator/src/registry.ts:221-226 | across any overlap of dispatches at most one mutating body runs, and they start in dispatch order, whether or not handlers throw |
| Dispatcher.OneRowPerDispatch | orchestrator/src/registry.ts:158-260 | every answered dispatch has exactly one audit row, with its own result, and no other has one |
| DispatcherTheorems.EveryDispatchIsExplained | orchestrator/src/registry.ts:158-260 | over any run, a dispatch that came in while paused, names no tool, is the model's on a gated tool without a granted fudge, or has input its tool refuses is answered for the first such reason and its handler never runs; every other handler runs once out of the queue and its answer tells whether it threw |
| DispatcherTheorems.SerializedExactly | orchestrator/src/registry.ts:221-226 | a handler is queued on the mutex exactly when there is one and its tool changes the world |
| Dispatcher.PausedEntriesNeverRun | orchestrator/src/registry.ts:164-177 | a dispatch entered while paused is answered so at once and its handler never runs |
| Dispatcher.PausedStartExactly | orchestrator/src/registry.ts:158-226 | over any run a handler body starts while paused exactly when a queued dispatch is let begin, and that dispatch is serialized and passed its gate while active |
| Dispatcher.NoneStartsWhilePaused | orchestrator/src/registry.ts:222-226 | no body starts while paused if and only if no queued dispatch is let begin then; without a serializer none ever does |
| Dispatcher.DrainedPauseIsQuiet | orchestrator/src/registry.ts:164-226 | a pause that finds the queue empty starts no body until the session is active again |
| Dispatcher.QueuedBodyOutlivesPause | orchestrator/src/registry.ts:222-226 | a handler already queued on the mutex may start after a pause |
| Dispatcher.ToolDispatcher.Dispatch | orchestrator/src/registry.ts:158-226 | the refusals in order, each audited at once; otherwise the handler is queued if it mutates or started |
| Semaphore.SemaphoreLaws | orchestrator/src/side_channel/coordinator.ts:183-198 | the counter is the permits held, no permit idles while anyone waits, wakes follow the queue, and holders pass the limit only by the acquires granted inside a release-to-resume gap |
| Semaphore.LimitKeptExactly | orchestrator/src/side_channel/coordinator.ts:183-198 | over every run holders and woken waiters stay within the limit if and only if no acquire is granted while woken waiters already fill what the counter leaves free |
| Semaphore.LimitCanBePassed | orchestrator/src/side_channel/coordinator.ts:183-198 | a concrete run passes the limit because the hand-off is not atomic |
| Semaphore.TurnSemaphore.DoRelease | orchestrator/src/side_channel/coordinator.ts:194-198 | the counter drops before the woken waiter raises it again |
| EventQueue.NothingLostOrReordered | orchestrator/src/surfaces/async_queue.ts:10-39 | delivered, in flight and queued items are exactly what was pushed before the close; items and a parked consumer never coexist; the end comes after every item |
| EventQueue.MergeIsShuffle | orchestrator/src/surfaces/router.ts:94-104 | restricted to one source the merged stream is that source's events in order; when it ends every event of every source was delivered, and it never ends after a source failed |
| EventQueue.EndedMergeDrains | orchestrator/src/surfaces/router.ts:94-104 | once every source has ended, at once if there is none, what is queued can be consumed to the end of the stream |
| EventQueue.AsyncQueue.DoPush | orchestrator/src/surfaces/async_queue.ts:10-15 | a push after close is dropped, one with a parked consumer is handed over, any other is queued |
| IdentityMap.HeldExactly | orchestrator/src/side_channel/identity_map.ts:13-20 | after any binds the two maps are mutual inverses and hold exactly the pairs bound with no later bind of either id |
| IdentityMap.SideChannelIdentityMap.Bind | orchestrator/src/side_channel/identity_map.ts:13-20 | both stale directions are dropped before the pair is set |
| IdentityMap.SideChannelIdentityMap.DiscordIdForFoundryUser | orchestrator/src/side_channel/identity_map.ts:22-24 | the Discord id last bound to that Foundry user and not rebound since, if any |

## Left out

- IsolationTheorems.Isolated: assumes record ids tell hidden records from the others (`IdsKeepSides`), because an upsert replaces by id alone (`HiddenUpsertUnseenExactly` says exactly when that shows); nothing in the repository upserts a record for one player's audience today. A turn's audience is its conversation id when that is player-scoped, as the side-channel coordinator sends it.
- IsolationTheorems.RunCommutes: is about prompts within a session; warm state, roster and notes are inputs read from outside, so what a private turn's tools do to the shared world is not followed, and the end-of-session summary over unfiltered dialogue is not part of it.
- IndexTheorems.RunsStayInStep: starts from a store without live indexed records and takes refreshes one after another whose embedding calls succeed; `IndexFailures.CompletedRefreshAgrees` and `IndexInterleaving.InterleavedRefreshAgrees` are the forms for failing calls and for refreshes that interleave. Extracted location, quest and keyword keys are carried but not compared, because an edit elsewhere can make them stale without a new stamp.
- IndexSync.RunRefresh: the four readings are inputs, and key extraction is not modelled.
- LanceStore.VectorQueryIsPrefix: takes the table's own distance as any fixed score, ties in table order; empty lists are the subject of `StoresAgreeExactly`.
- LanceTable.LanceMemoryStore.Upsert: merged rows are taken to keep their place.
- Gateway.EveryRequestSettlesOnce: requests left pending on a socket that was replaced after it stopped being open wait for their timer, as in the code; closing the gateway leaves hello waiters to their timers.
- GatewayTheorems.EventExactly: the list of recipients of a chat line is not carried.
- Dispatcher.OneRowPerDispatch: takes an audit sink that does not throw; a sink that throws after a success would be called a second time.
- Speech.SpeechIsConserved: is for the configuration with a pause buffer; without one a paused session keeps buffering, and a turn that throws ends the loop.
- PiiReads.LookupsSurvive: rows of one confirmation time are taken in id order; the hash companions that migration fills in and the hashed form of tokens are left out of the comparison of readings, and are compared by `PiiMigration.InterruptionIsRepaired` instead.
- IndexInterleaving.CampaignsDoNotInterfere: lets a refresh store any number of records at a time and fail after any number of them, which covers batches of 64.
- Strings are sequences of Unicode characters: UTF-16 code units and unpaired surrogates, and the host's case mapping, are not modelled. Stamps are compared character by character.
- Free-form JSON values are opaque, apart from the reserved object of the packed form; JSON text encoding is taken to round-trip.
- Real cryptography, key derivation, salt files and the refusal to migrate without a passphrase.
- Discord, speech-to-text and text-to-speech, LanceDB, SQLite and the model client: only the logic around them.
- Presence and consent prompts, identity preflight wording, masking fillers, playback and barge-in timing in the always-listening loop.
- The side-channel coordinator's whisper coalescing and its pump: the semaphore and the pause buffer are modelled, the timers that join texts are not.
- Router fan-out of outbound emits with timeouts: a filter and one result per surface.
- Prompt text formatting, telemetry, audit rows of turns, warm-state reads, and the surface emission after a turn.
- Campaign-scope deletions of the SQL adapters, exports, and the rendering of erasure reports.
- Transition handlers that call back into the lifecycle controller from within a transition.
