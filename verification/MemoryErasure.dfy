/** Player erasure over the memory store (plugins/memory-lance/src/memory_adapter.ts). */
module MemoryErasure {
  import opened Options
  import opened Tables
  import opened ColumnCrypto
  import opened MemoryStore

  /** Private to the subject under the hashed token or the legacy raw one. */
  function PrivateTo(c: PiiCrypto, subjectId: string): MemoryRecord -> bool
  {
    (r: MemoryRecord) => EffectiveAudience(r) == PlayerAudience(c, subjectId) || EffectiveAudience(r) == PLAYER_PREFIX + subjectId
  }

  /** Both tokens are erased, nothing else is, and the count is the number of records gone. */
  method DeletePlayer(c: PiiCrypto, store: InMemoryMemoryStore, subjectId: string) returns (recordsDeleted: nat)
    requires store.Valid()
    modifies store
    ensures store.Valid() && store.records == Filter(Not(PrivateTo(c, subjectId)), old(store.records))
    ensures recordsDeleted + |store.records| == old(|store.records|)
  {
    var hashed := store.DeleteByAudience(PlayerAudience(c, subjectId));
    var legacy := store.DeleteByAudience(PLAYER_PREFIX + subjectId);
    NeitherToken(c, subjectId, old(store.records));
    recordsDeleted := hashed + legacy;
  }

  lemma {:induction false} NeitherToken(c: PiiCrypto, subjectId: string, records: seq<MemoryRecord>)
    ensures Filter(Not(ForAudience(PLAYER_PREFIX + subjectId)), Filter(Not(ForAudience(PlayerAudience(c, subjectId))), records))
         == Filter(Not(PrivateTo(c, subjectId)), records)
    decreases |records|
  {
    if |records| > 0 {
      var tail := records[1..];
      NeitherToken(c, subjectId, tail);
      var kept := Filter(Not(ForAudience(PlayerAudience(c, subjectId))), tail);
      assert ([records[0]] + kept)[1..] == kept;
    }
  }

  /** Shared records outlive any player's erasure: neither the table's nor the gm's are private to anyone. */
  lemma SharedRecordsSurvive(c: PiiCrypto, subjectId: string, r: MemoryRecord)
    requires !IsPlayerScoped(EffectiveAudience(r)) && |subjectId| > 0 && |c.hash(subjectId)| > 0
    ensures !PrivateTo(c, subjectId)(r)
  {
    assert IsPlayerScoped(PLAYER_PREFIX + subjectId) && IsPlayerScoped(PlayerAudience(c, subjectId));
  }
}
