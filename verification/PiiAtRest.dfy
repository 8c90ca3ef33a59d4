/** What the migration leaves in the tables, and which rows belong to a subject, by what they decrypt to (server/src/). */
module PiiAtRest {
  import opened Options
  import opened Tables
  import opened ColumnCrypto
  import opened PiiMigration
  import opened PiiReads

  // ---- no plain value, no raw token ----

  predicate Sealed(c: PiiCrypto, stored: string, plain: string)
  {
    |stored| >= 4 && stored[..4] == "gcm:" && c.dec(stored) == Some(plain)
  }

  predicate SealedOption(c: PiiCrypto, stored: Option<string>, plain: Option<string>)
  {
    match plain
    case None => stored == None
    case Some(p) => stored.Some? && Sealed(c, stored.value, p)
  }

  predicate Plain(value: string)
  {
    |value| < 4 || value[..4] != "gcm:"
  }

  predicate HexDigest(s: string)
  {
    |s| == 64 && forall i :: 0 <= i < 64 ==> s[i] in "0123456789abcdef"
  }

  /** Names a player by something that is no digest. */
  predicate RawToken(token: string)
  {
    |token| > 7 && token[..7] == "player:" && !HexDigest(token[7..])
  }

  lemma TagExactly(value: string)
    ensures IsCiphertext(value) <==> !Plain(value)
  {
    assert CIPHERTEXT_PREFIX <= value <==> |value| >= 4 && value[..4] == "gcm:";
  }

  lemma DigestExactly(s: string)
    ensures IsHashedToken(s) <==> HexDigest(s)
  {
    forall c: char ensures ('0' <= c <= '9' || 'a' <= c <= 'f') <==> c in "0123456789abcdef" {
      HexExactly(c);
    }
  }

  lemma HexExactly(c: char)
    ensures ('0' <= c <= '9' || 'a' <= c <= 'f') <==> c in "0123456789abcdef"
  {
    var hex := "0123456789abcdef";
    if '0' <= c <= '9' {
      assert hex[c as int - '0' as int] == c;
    } else if 'a' <= c <= 'f' {
      assert hex[c as int - 'a' as int + 10] == c;
    }
  }

  /** A raw token becomes the digest of the name in it; every other token stays; none is raw afterwards. */
  lemma TokenExactly(c: PiiCrypto, token: string)
    requires Enabled(c)
    ensures var t := RewriteToken(c, token);
      && !RawToken(t) && t == if RawToken(token) then "player:" + c.hash(token[7..]) else token
  {
    hide IsHashedToken, HexDigest;
    if |token| > 7 { DigestExactly(token[7..]); }
    assert PLAYER_PREFIX <= token <==> |token| >= 7 && token[..7] == "player:";
    if |token| > 7 && token[..7] == "player:" {
      var hashed := c.hash(token[7..]);
      assert IsHashedToken(hashed);
      DigestExactly(hashed);
      assert ("player:" + hashed)[7..] == hashed;
    }
  }

  lemma SealsExactly(c: PiiCrypto, stored: string, plain: string)
    requires Seals(c, stored, plain)
    ensures Sealed(c, stored, plain)
  {
    TagExactly(stored);
  }

  lemma SealsOptionExactly(c: PiiCrypto, stored: Option<string>, plain: Option<string>)
    requires SealsOption(c, stored, plain)
    ensures SealedOption(c, stored, plain)
  {
    if plain.Some? { SealsExactly(c, stored.value, plain.value); }
  }

  lemma ConsentAtRest(c: PiiCrypto, r: ConsentRow, r': ConsentRow)
    requires ConsentMigration(c, r, r')
    ensures if Plain(r.subjectId)
      then Sealed(c, r'.subjectId, r.subjectId) && r' == r.(subjectId := r'.subjectId, subjectIdHash := Some(c.hash(r.subjectId)))
      else r' == r
  {
    TagExactly(r.subjectId);
    if Plain(r.subjectId) { SealsExactly(c, r'.subjectId, r.subjectId); }
  }

  lemma MappingAtRest(c: PiiCrypto, r: MappingRow, r': MappingRow)
    requires MappingMigration(c, r, r')
    ensures if Plain(r.discordUserId)
      then
        && Sealed(c, r'.discordUserId, r.discordUserId) && r'.discordUserIdHash == Some(c.hash(r.discordUserId))
        && SealedOption(c, r'.foundryUserId, r.foundryUserId) && SealedOption(c, r'.displayName, r.displayName)
        && (r.foundryUserId.Some? ==> r'.foundryUserIdHash == Some(c.hash(r.foundryUserId.value)))
        && (r.foundryUserId.None? ==> r'.foundryUserIdHash == r.foundryUserIdHash)
        && r' == r.(discordUserId := r'.discordUserId, discordUserIdHash := r'.discordUserIdHash, foundryUserId := r'.foundryUserId,
                    foundryUserIdHash := r'.foundryUserIdHash, displayName := r'.displayName)
      else r' == r
  {
    TagExactly(r.discordUserId);
    if Plain(r.discordUserId) {
      SealsExactly(c, r'.discordUserId, r.discordUserId);
      SealsOptionExactly(c, r'.foundryUserId, r.foundryUserId);
      SealsOptionExactly(c, r'.displayName, r.displayName);
    }
  }

  lemma DialogueAtRest(c: PiiCrypto, r: DialogueRow, r': DialogueRow)
    requires Enabled(c) && DialogueMigration(c, r, r')
    ensures if Plain(r.speaker)
      then
        && Sealed(c, r'.speaker, r.speaker) && r'.speakerHash == Some(c.hash(r.speaker)) && Sealed(c, r'.text, r.text)
        && SealedOption(c, r'.displayName, r.displayName) && !RawToken(r'.audience) && !RawToken(r'.conversationId)
        && r'.audience == (if RawToken(r.audience) then "player:" + c.hash(r.audience[7..]) else r.audience)
        && r'.conversationId == (if RawToken(r.conversationId) then "player:" + c.hash(r.conversationId[7..]) else r.conversationId)
        && r' == r.(speaker := r'.speaker, speakerHash := r'.speakerHash, text := r'.text, displayName := r'.displayName,
                    audience := r'.audience, conversationId := r'.conversationId)
      else r' == r
  {
    TagExactly(r.speaker);
    if Plain(r.speaker) {
      SealsExactly(c, r'.speaker, r.speaker);
      SealsExactly(c, r'.text, r.text);
      SealsOptionExactly(c, r'.displayName, r.displayName);
      hide RewriteToken, RawToken, Enabled;
      TokenExactly(c, r.audience);
      TokenExactly(c, r.conversationId);
    }
  }

  lemma SettingAtRest(c: PiiCrypto, r: SettingRow, r': SettingRow)
    requires SettingMigration(c, r, r')
    ensures if Plain(r.value) then Sealed(c, r'.value, r.value) && r' == r.(value := r'.value) else r' == r
  {
    TagExactly(r.value);
    if Plain(r.value) { SealsExactly(c, r'.value, r.value); }
  }

  lemma AuditAtRest(c: PiiCrypto, r: AuditRow, r': AuditRow)
    requires AuditMigration(c, r, r')
    ensures if Plain(r.payloadJson) then Sealed(c, r'.payloadJson, r.payloadJson) && r' == r.(payloadJson := r'.payloadJson) else r' == r
  {
    TagExactly(r.payloadJson);
    if Plain(r.payloadJson) { SealsExactly(c, r'.payloadJson, r.payloadJson); }
  }

  ghost predicate NothingPlain(t: PiiTables)
  {
    && (forall i :: 0 <= i < |t.consents| ==> !Plain(t.consents[i].subjectId))
    && (forall i :: 0 <= i < |t.mappings| ==> !Plain(t.mappings[i].discordUserId))
    && (forall i :: 0 <= i < |t.dialogue| ==> !Plain(t.dialogue[i].speaker))
    && (forall i :: 0 <= i < |t.settings| ==> !Plain(t.settings[i].value))
    && (forall i :: 0 <= i < |t.audit| ==> !Plain(t.audit[i].payloadJson))
  }

  /** The other encrypted columns hold nothing in the clear, and the tokens no raw name. */
  ghost predicate RestClear(t: PiiTables)
  {
    && (forall i :: 0 <= i < |t.mappings| ==> NotPlain(t.mappings[i].foundryUserId) && NotPlain(t.mappings[i].displayName))
    && (forall i :: 0 <= i < |t.dialogue| ==>
          && !Plain(t.dialogue[i].text) && NotPlain(t.dialogue[i].displayName)
          && !RawToken(t.dialogue[i].audience) && !RawToken(t.dialogue[i].conversationId))
  }

  predicate NotPlain(value: Option<string>)
  {
    value.Some? ==> !Plain(value.value)
  }

  /** The rows that the migration skips already hold nothing in the clear. */
  ghost predicate SkippedClear(t: PiiTables)
  {
    && (forall i :: 0 <= i < |t.mappings| && !Plain(t.mappings[i].discordUserId) ==>
          NotPlain(t.mappings[i].foundryUserId) && NotPlain(t.mappings[i].displayName))
    && (forall i :: 0 <= i < |t.dialogue| && !Plain(t.dialogue[i].speaker) ==>
          && !Plain(t.dialogue[i].text) && NotPlain(t.dialogue[i].displayName)
          && !RawToken(t.dialogue[i].audience) && !RawToken(t.dialogue[i].conversationId))
  }

  /**
   * After a full run every tested column is encrypted in all five tables, and the other encrypted columns and the tokens
   * of the whole database are clear of plain values exactly when those of the skipped rows were.
   */
  lemma NothingPlainIsLeft(c: PiiCrypto, t: PiiTables, t': PiiTables)
    requires Enabled(c) && Migrated(c, t, t')
    ensures NothingPlain(t') && (RestClear(t') <==> SkippedClear(t))
  {
    hide Enabled, RawToken, Plain, ConsentMigration, MappingMigration, DialogueMigration, SettingMigration, AuditMigration;
    forall i | 0 <= i < |t.consents| ensures !Plain(t'.consents[i].subjectId) {
      assert ConsentMigrated(c)(t.consents[i], t'.consents[i]);
      ConsentAtRest(c, t.consents[i], t'.consents[i]);
      SealedIsNotPlain(c, t'.consents[i].subjectId, t.consents[i].subjectId);
    }
    forall i | 0 <= i < |t.settings| ensures !Plain(t'.settings[i].value) {
      assert SettingMigrated(c)(t.settings[i], t'.settings[i]);
      SettingAtRest(c, t.settings[i], t'.settings[i]);
      SealedIsNotPlain(c, t'.settings[i].value, t.settings[i].value);
    }
    forall i | 0 <= i < |t.audit| ensures !Plain(t'.audit[i].payloadJson) {
      assert AuditMigrated(c)(t.audit[i], t'.audit[i]);
      AuditAtRest(c, t.audit[i], t'.audit[i]);
      SealedIsNotPlain(c, t'.audit[i].payloadJson, t.audit[i].payloadJson);
    }
    forall i | 0 <= i < |t.mappings| ensures MappingClears(t.mappings[i], t'.mappings[i]) {
      assert MappingMigrated(c)(t.mappings[i], t'.mappings[i]);
      MappingCleared(c, t.mappings[i], t'.mappings[i]);
    }
    forall i | 0 <= i < |t.dialogue| ensures DialogueClears(t.dialogue[i], t'.dialogue[i]) {
      assert DialogueMigrated(c)(t.dialogue[i], t'.dialogue[i]);
      DialogueCleared(c, t.dialogue[i], t'.dialogue[i]);
    }
  }

  lemma SealedIsNotPlain(c: PiiCrypto, stored: string, plain: string)
    ensures Sealed(c, stored, plain) ==> !Plain(stored)
  {
  }

  predicate MappingClears(r: MappingRow, r': MappingRow)
  {
    && !Plain(r'.discordUserId)
    && if Plain(r.discordUserId) then NotPlain(r'.foundryUserId) && NotPlain(r'.displayName) else r' == r
  }

  lemma MappingCleared(c: PiiCrypto, r: MappingRow, r': MappingRow)
    requires MappingMigration(c, r, r')
    ensures MappingClears(r, r')
  {
    hide MappingMigration;
    MappingAtRest(c, r, r');
  }

  predicate DialogueClears(r: DialogueRow, r': DialogueRow)
  {
    && !Plain(r'.speaker)
    && if Plain(r.speaker) then
         !Plain(r'.text) && NotPlain(r'.displayName) && !RawToken(r'.audience) && !RawToken(r'.conversationId)
       else r' == r
  }

  lemma DialogueCleared(c: PiiCrypto, r: DialogueRow, r': DialogueRow)
    requires Enabled(c) && DialogueMigration(c, r, r')
    ensures DialogueClears(r, r')
  {
    hide DialogueMigration, RawToken, Enabled;
    DialogueAtRest(c, r, r');
  }

  // ---- whose rows erasure takes ----

  /** The companion of a column is the hash of what the column decrypts to, or missing while it is plain; hashes tell it from `subject`. */
  predicate Keeps(c: PiiCrypto, column: string, companion: Option<string>, subject: string)
  {
    var value := c.dec(column);
    && value.Some? && (companion == Some(c.hash(value.value)) || (Plain(column) && companion == None))
    && (c.hash(value.value) == c.hash(subject) ==> value.value == subject)
  }

  /** The column decrypts to the subject. */
  predicate Says(c: PiiCrypto, column: string, subject: string)
  {
    c.dec(column) == Some(subject)
  }

  lemma KeptColumn(c: PiiCrypto, column: string, companion: Option<string>, subject: string)
    requires Enabled(c) && Keeps(c, column, companion, subject) && Plain(subject)
    ensures companion == Some(c.hash(subject)) || column == subject <==> Says(c, column, subject)
  {
    TagExactly(column);
    TagExactly(subject);
    assert c.dec(subject) == Some(subject);
    if Plain(column) { assert c.dec(column) == Some(column); }
  }

  function TakenConsent(c: PiiCrypto, tenant: string, subject: string): ConsentRow -> bool
  {
    (r: ConsentRow) => r.tenantId == tenant && Says(c, r.subjectId, subject)
  }

  function TakenMapping(c: PiiCrypto, tenant: string, subject: string): MappingRow -> bool
  {
    (r: MappingRow) => r.tenantId == tenant && Says(c, r.discordUserId, subject)
  }

  /** Spoken by the subject, or told to the subject alone. */
  function TakenLine(c: PiiCrypto, tenant: string, subject: string): DialogueRow -> bool
  {
    (r: DialogueRow) => r.tenantId == tenant
      && (Says(c, r.speaker, subject) || r.audience == "player:" + c.hash(subject) || r.audience == "player:" + subject)
  }

  ghost predicate AllKept(c: PiiCrypto, t: PiiTables, subject: string)
  {
    && (forall r :: r in t.consents ==> Keeps(c, r.subjectId, r.subjectIdHash, subject))
    && (forall r :: r in t.mappings ==> Keeps(c, r.discordUserId, r.discordUserIdHash, subject))
    && (forall r :: r in t.dialogue ==> Keeps(c, r.speaker, r.speakerHash, subject))
  }

  /** In the migrated, the plain and the half-migrated database alike, erasing a subject takes the rows that decrypt to it, of its tenant alone. */
  lemma ErasureTakesExactly(c: PiiCrypto, tenant: string, subject: string, t: PiiTables)
    requires Enabled(c) && Plain(subject) && AllKept(c, t, subject)
    ensures ErasePlayer(c, tenant, subject, t)
         == t.(consents := Filter(Not(TakenConsent(c, tenant, subject)), t.consents),
               mappings := Filter(Not(TakenMapping(c, tenant, subject)), t.mappings),
               dialogue := Filter(Not(TakenLine(c, tenant, subject)), t.dialogue))
  {
    hide Filter, Enabled, Keeps, Plain, Says;
    forall r | r in t.consents
      ensures Not(ConsentOf(c, tenant, subject))(r) == Not(TakenConsent(c, tenant, subject))(r)
    {
      KeptColumn(c, r.subjectId, r.subjectIdHash, subject);
    }
    SameFilter(Not(ConsentOf(c, tenant, subject)), Not(TakenConsent(c, tenant, subject)), t.consents);
    forall r | r in t.mappings
      ensures Not(MappingOf(c, tenant, subject))(r) == Not(TakenMapping(c, tenant, subject))(r)
    {
      KeptColumn(c, r.discordUserId, r.discordUserIdHash, subject);
    }
    SameFilter(Not(MappingOf(c, tenant, subject)), Not(TakenMapping(c, tenant, subject)), t.mappings);
    forall r | r in t.dialogue
      ensures Not(DialogueOf(c, tenant, subject))(r) == Not(TakenLine(c, tenant, subject))(r)
    {
      KeptColumn(c, r.speaker, r.speakerHash, subject);
    }
    SameFilter(Not(DialogueOf(c, tenant, subject)), Not(TakenLine(c, tenant, subject)), t.dialogue);
  }

  // ---- which row answers a lookup ----

  /** Row `i` matches, and no matching row is newer, or as new and later. */
  ghost predicate Newest<R>(matches: R -> bool, time: R -> int, rows: seq<R>, i: nat)
  {
    && i < |rows| && matches(rows[i])
    && forall j :: 0 <= j < |rows| && matches(rows[j]) ==>
         time(rows[j]) < time(rows[i]) || (time(rows[j]) == time(rows[i]) && j <= i)
  }

  function ConsentAbout(c: PiiCrypto, tenant: string, subject: string, purpose: string): ConsentRow -> bool
  {
    (r: ConsentRow) => r.tenantId == tenant && Says(c, r.subjectId, subject) && r.purpose == purpose
  }

  function ConsentStamp(): ConsentRow -> int { (r: ConsentRow) => r.timestamp }

  /** The consent state of a subject is the action of its newest row for the purpose. */
  lemma ConsentIsNewest(c: PiiCrypto, tenant: string, subject: string, purpose: string, rows: seq<ConsentRow>)
    requires Enabled(c) && Plain(subject) && forall r :: r in rows ==> Keeps(c, r.subjectId, r.subjectIdHash, subject)
    ensures var state, about := CurrentState(c, tenant, subject, purpose, rows), ConsentAbout(c, tenant, subject, purpose);
      if state.None? then NoRow(about, rows)
      else exists i: nat :: Newest(about, ConsentStamp(), rows, i) && state == Some(rows[i].action)
  {
    hide Enabled, Keeps, Plain, Says, LatestIndex;
    var matching, about := ConsentFor(c, tenant, subject, purpose), ConsentAbout(c, tenant, subject, purpose);
    forall i | 0 <= i < |rows| ensures matching(rows[i]) == about(rows[i]) {
      assert rows[i] in rows;
      KeptColumn(c, rows[i].subjectId, rows[i].subjectIdHash, subject);
      assert matching(rows[i]) == (ConsentOf(c, tenant, subject)(rows[i]) && rows[i].purpose == purpose);
    }
    var i := LatestIndex(matching, ConsentTime(), rows);
    if i.Some? { assert Newest(about, ConsentStamp(), rows, i.value); }
  }

  function MappingAbout(c: PiiCrypto, tenant: string, campaign: string, subject: string): MappingRow -> bool
  {
    (r: MappingRow) => r.tenantId == tenant && r.campaignId == campaign && Says(c, r.discordUserId, subject)
  }

  function FoundryAbout(c: PiiCrypto, tenant: string, campaign: string, foundryUser: string): MappingRow -> bool
  {
    (r: MappingRow) => r.tenantId == tenant && r.campaignId == campaign && r.foundryUserId.Some? && Says(c, r.foundryUserId.value, foundryUser)
  }

  function ConfirmedStamp(): MappingRow -> int { (r: MappingRow) => r.confirmedAt }

  ghost predicate AnswersNewest(about: MappingRow -> bool, rows: seq<MappingRow>, answer: Option<MappingRow>)
  {
    if answer.None? then NoRow(about, rows)
    else exists i: nat :: Newest(about, ConfirmedStamp(), rows, i) && answer == Some(rows[i])
  }

  lemma NewestAnswers(of: MappingRow -> bool, campaign: string, about: MappingRow -> bool, rows: seq<MappingRow>)
    requires forall i :: 0 <= i < |rows| ==> about(rows[i]) == (of(rows[i]) && rows[i].campaignId == campaign)
    ensures AnswersNewest(about, rows, NewestMapping(of, campaign, rows))
  {
    hide LatestIndex;
    var matching := MappingIn(of, campaign);
    assert forall i :: 0 <= i < |rows| ==> matching(rows[i]) == about(rows[i]);
    var i := LatestIndex(matching, MappingTime(), rows);
    if i.Some? { assert Newest(about, ConfirmedStamp(), rows, i.value); }
  }

  /** A player's mapping is the newest of its campaign that decrypts to the player, and so for a Foundry user. */
  lemma MappingIsNewest(c: PiiCrypto, tenant: string, campaign: string, subject: string, rows: seq<MappingRow>)
    requires Enabled(c) && Plain(subject)
    requires forall r :: r in rows ==> Keeps(c, r.discordUserId, r.discordUserIdHash, subject)
    requires forall r :: r in rows && r.foundryUserId.Some? ==> Keeps(c, r.foundryUserId.value, r.foundryUserIdHash, subject)
    requires forall r :: r in rows && r.foundryUserId.None? ==> r.foundryUserIdHash != Some(c.hash(subject))
    ensures AnswersNewest(MappingAbout(c, tenant, campaign, subject), rows, NewestMapping(MappingOf(c, tenant, subject), campaign, rows))
    ensures AnswersNewest(FoundryAbout(c, tenant, campaign, subject), rows,
                          NewestMapping(MappingOfFoundryUser(c, tenant, subject), campaign, rows))
  {
    hide Enabled, Keeps, Plain, Says, NewestMapping, AnswersNewest;
    forall i | 0 <= i < |rows|
      ensures MappingAbout(c, tenant, campaign, subject)(rows[i])
           == (MappingOf(c, tenant, subject)(rows[i]) && rows[i].campaignId == campaign)
      ensures FoundryAbout(c, tenant, campaign, subject)(rows[i])
           == (MappingOfFoundryUser(c, tenant, subject)(rows[i]) && rows[i].campaignId == campaign)
    {
      var r := rows[i];
      assert r in rows;
      KeptColumn(c, r.discordUserId, r.discordUserIdHash, subject);
      if r.foundryUserId.Some? { KeptColumn(c, r.foundryUserId.value, r.foundryUserIdHash, subject); }
    }
    NewestAnswers(MappingOf(c, tenant, subject), campaign, MappingAbout(c, tenant, campaign, subject), rows);
    NewestAnswers(MappingOfFoundryUser(c, tenant, subject), campaign, FoundryAbout(c, tenant, campaign, subject), rows);
  }
}
