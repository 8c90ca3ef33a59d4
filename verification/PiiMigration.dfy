/**
 * The one-shot `pii:encrypt` migration (server/src/pii_migrate.ts) and the player
 * erasure it must commute with (server/src/adapters/).
 */
module PiiMigration {
  import opened Options
  import opened Tables
  import opened ColumnCrypto

  datatype ConsentRow = ConsentRow(id: nat, tenantId: string, subjectId: string, subjectIdHash: Option<string>,
                                   purpose: string, consentTextVersion: string, action: string, timestamp: int,
                                   metadata: Option<string>)

  datatype MappingRow = MappingRow(id: nat, tenantId: string, campaignId: string,
                                   discordUserId: string, discordUserIdHash: Option<string>,
                                   foundryUserId: Option<string>, foundryUserIdHash: Option<string>,
                                   foundryActorId: string, displayName: Option<string>,
                                   source: string, confirmedAt: int)

  datatype DialogueRow = DialogueRow(id: nat, tenantId: string, sessionId: string,
                                     speaker: string, speakerHash: Option<string>, displayName: Option<string>,
                                     text: string, timestamp: int, audience: string, conversationId: string)

  datatype SettingRow = SettingRow(id: nat, tenantId: string, campaignId: string, key: string, value: string, updatedAt: int)

  datatype AuditRow = AuditRow(id: nat, tenantId: string, sessionId: Option<string>, turnId: Option<string>,
                               actor: string, eventType: string, payloadJson: string, timestamp: int)

  // ---- one row encrypted, with the random nonces it draws ----

  function EncOption(c: PiiCrypto, nonce: nat, value: Option<string>): Option<string>
  {
    match value
    case None => None
    case Some(v) => Some(c.enc(nonce, v))
  }

  function HashOption(c: PiiCrypto, value: Option<string>, stored: Option<string>): Option<string>
  {
    match value
    case None => stored
    case Some(v) => Some(c.hash(v))
  }

  function EncryptConsent(c: PiiCrypto, nonce: nat, r: ConsentRow): ConsentRow
  {
    if IsCiphertext(r.subjectId) then r
    else r.(subjectId := c.enc(nonce, r.subjectId), subjectIdHash := Some(c.hash(r.subjectId)))
  }

  function EncryptMapping(c: PiiCrypto, nonce: nat, r: MappingRow): MappingRow
  {
    if IsCiphertext(r.discordUserId) then r
    else r.(discordUserId := c.enc(nonce, r.discordUserId),
            discordUserIdHash := Some(c.hash(r.discordUserId)),
            foundryUserId := EncOption(c, nonce + 1, r.foundryUserId),
            foundryUserIdHash := HashOption(c, r.foundryUserId, r.foundryUserIdHash),
            displayName := EncOption(c, nonce + 2, r.displayName))
  }

  function EncryptDialogue(c: PiiCrypto, nonce: nat, r: DialogueRow): DialogueRow
  {
    if IsCiphertext(r.speaker) then r
    else r.(speaker := c.enc(nonce, r.speaker),
            speakerHash := Some(c.hash(r.speaker)),
            text := c.enc(nonce + 1, r.text),
            displayName := EncOption(c, nonce + 2, r.displayName),
            audience := RewriteToken(c, r.audience),
            conversationId := RewriteToken(c, r.conversationId))
  }

  function EncryptSetting(c: PiiCrypto, nonce: nat, r: SettingRow): SettingRow
  {
    if IsCiphertext(r.value) then r else r.(value := c.enc(nonce, r.value))
  }

  function EncryptAudit(c: PiiCrypto, nonce: nat, r: AuditRow): AuditRow
  {
    if IsCiphertext(r.payloadJson) then r else r.(payloadJson := c.enc(nonce, r.payloadJson))
  }

  // ---- the same row, however the nonces fell ----

  predicate SealsOption(c: PiiCrypto, stored: Option<string>, plain: Option<string>)
  {
    stored.Some? == plain.Some? && (plain.Some? ==> Seals(c, stored.value, plain.value))
  }

  predicate ConsentMigration(c: PiiCrypto, r: ConsentRow, r': ConsentRow)
  {
    if IsCiphertext(r.subjectId) then r' == r
    else
      && Seals(c, r'.subjectId, r.subjectId)
      && r' == r.(subjectId := r'.subjectId, subjectIdHash := Some(c.hash(r.subjectId)))
  }

  function ConsentMigrated(c: PiiCrypto): (ConsentRow, ConsentRow) -> bool
  {
    (r: ConsentRow, r': ConsentRow) => ConsentMigration(c, r, r')
  }

  predicate MappingMigration(c: PiiCrypto, r: MappingRow, r': MappingRow)
  {
    if IsCiphertext(r.discordUserId) then r' == r
    else
      && Seals(c, r'.discordUserId, r.discordUserId)
      && SealsOption(c, r'.foundryUserId, r.foundryUserId)
      && SealsOption(c, r'.displayName, r.displayName)
      && r' == r.(discordUserId := r'.discordUserId, discordUserIdHash := Some(c.hash(r.discordUserId)),
                    foundryUserId := r'.foundryUserId,
                    foundryUserIdHash := HashOption(c, r.foundryUserId, r.foundryUserIdHash),
                    displayName := r'.displayName)
  }

  function MappingMigrated(c: PiiCrypto): (MappingRow, MappingRow) -> bool
  {
    (r: MappingRow, r': MappingRow) => MappingMigration(c, r, r')
  }

  predicate DialogueMigration(c: PiiCrypto, r: DialogueRow, r': DialogueRow)
  {
    if IsCiphertext(r.speaker) then r' == r
    else
      && Seals(c, r'.speaker, r.speaker)
      && Seals(c, r'.text, r.text)
      && SealsOption(c, r'.displayName, r.displayName)
      && r' == r.(speaker := r'.speaker, speakerHash := Some(c.hash(r.speaker)), text := r'.text,
                    displayName := r'.displayName, audience := RewriteToken(c, r.audience),
                    conversationId := RewriteToken(c, r.conversationId))
  }

  function DialogueMigrated(c: PiiCrypto): (DialogueRow, DialogueRow) -> bool
  {
    (r: DialogueRow, r': DialogueRow) => DialogueMigration(c, r, r')
  }

  predicate SettingMigration(c: PiiCrypto, r: SettingRow, r': SettingRow)
  {
    if IsCiphertext(r.value) then r' == r
    else Seals(c, r'.value, r.value) && r' == r.(value := r'.value)
  }

  function SettingMigrated(c: PiiCrypto): (SettingRow, SettingRow) -> bool
  {
    (r: SettingRow, r': SettingRow) => SettingMigration(c, r, r')
  }

  predicate AuditMigration(c: PiiCrypto, r: AuditRow, r': AuditRow)
  {
    if IsCiphertext(r.payloadJson) then r' == r
    else Seals(c, r'.payloadJson, r.payloadJson) && r' == r.(payloadJson := r'.payloadJson)
  }

  function AuditMigrated(c: PiiCrypto): (AuditRow, AuditRow) -> bool
  {
    (r: AuditRow, r': AuditRow) => AuditMigration(c, r, r')
  }

  function PlainConsent(): ConsentRow -> bool { (r: ConsentRow) => !IsCiphertext(r.subjectId) }
  function PlainMapping(): MappingRow -> bool { (r: MappingRow) => !IsCiphertext(r.discordUserId) }
  function PlainDialogue(): DialogueRow -> bool { (r: DialogueRow) => !IsCiphertext(r.speaker) }
  function PlainSetting(): SettingRow -> bool { (r: SettingRow) => !IsCiphertext(r.value) }
  function PlainAudit(): AuditRow -> bool { (r: AuditRow) => !IsCiphertext(r.payloadJson) }

  lemma EncryptionMigratesConsent(c: PiiCrypto, nonce: nat, r: ConsentRow)
    requires Enabled(c)
    ensures ConsentMigration(c, r, EncryptConsent(c, nonce, r))
  {
  }

  lemma EncryptionMigratesSetting(c: PiiCrypto, nonce: nat, r: SettingRow)
    requires Enabled(c)
    ensures SettingMigration(c, r, EncryptSetting(c, nonce, r))
  {
  }

  lemma EncryptionMigratesAudit(c: PiiCrypto, nonce: nat, r: AuditRow)
    requires Enabled(c)
    ensures AuditMigration(c, r, EncryptAudit(c, nonce, r))
  {
  }

  lemma EncryptionMigratesMapping(c: PiiCrypto, nonce: nat, r: MappingRow)
    requires Enabled(c)
    ensures MappingMigration(c, r, EncryptMapping(c, nonce, r))
  {
    var r' := EncryptMapping(c, nonce, r);
    if !IsCiphertext(r.discordUserId) {
      assert Seals(c, r'.discordUserId, r.discordUserId);
      assert SealsOption(c, r'.foundryUserId, r.foundryUserId);
      assert SealsOption(c, r'.displayName, r.displayName);
    }
  }

  lemma EncryptionMigrates(c: PiiCrypto, nonce: nat, r: DialogueRow)
    requires Enabled(c)
    ensures DialogueMigration(c, r, EncryptDialogue(c, nonce, r))
  {
    var r' := EncryptDialogue(c, nonce, r);
    if !IsCiphertext(r.speaker) {
      assert Seals(c, r'.speaker, r.speaker);
      assert Seals(c, r'.text, r.text);
      assert SealsOption(c, r'.displayName, r.displayName);
      assert r' == r.(speaker := r'.speaker, speakerHash := Some(c.hash(r.speaker)), text := r'.text,
                    displayName := r'.displayName, audience := RewriteToken(c, r.audience),
                    conversationId := RewriteToken(c, r.conversationId));
    }
  }

  // ---- decrypted rows (server/src/pii_columns.ts), hashes and tokens included ----

  function DecOption(c: PiiCrypto, value: Option<string>): Option<Option<string>>
  {
    match value
    case None => None
    case Some(v) => Some(c.dec(v))
  }

  /** A decrypted consent row; `subject` is None when the column does not decrypt. */
  datatype ConsentView = ConsentView(subject: Option<string>, rest: ConsentRow)
  datatype MappingView = MappingView(discord: Option<string>, foundry: Option<Option<string>>,
                                     name: Option<Option<string>>, rest: MappingRow)
  datatype DialogueView = DialogueView(speaker: Option<string>, text: Option<string>,
                                       name: Option<Option<string>>, rest: DialogueRow)
  datatype SettingView = SettingView(value: Option<string>, rest: SettingRow)
  datatype AuditView = AuditView(payload: Option<string>, rest: AuditRow)

  function DecryptConsent(c: PiiCrypto): ConsentRow -> ConsentView
  {
    (r: ConsentRow) => ConsentView(c.dec(r.subjectId), r.(subjectId := ""))
  }

  function DecryptMapping(c: PiiCrypto): MappingRow -> MappingView
  {
    (r: MappingRow) => MappingView(c.dec(r.discordUserId), DecOption(c, r.foundryUserId), DecOption(c, r.displayName),
                     r.(discordUserId := "", foundryUserId := None, displayName := None))
  }

  function DecryptDialogue(c: PiiCrypto): DialogueRow -> DialogueView
  {
    (r: DialogueRow) => DialogueView(c.dec(r.speaker), c.dec(r.text), DecOption(c, r.displayName),
                      r.(speaker := "", text := "", displayName := None))
  }

  function DecryptSetting(c: PiiCrypto): SettingRow -> SettingView
  {
    (r: SettingRow) => SettingView(c.dec(r.value), r.(value := ""))
  }

  function DecryptAudit(c: PiiCrypto): AuditRow -> AuditView
  {
    (r: AuditRow) => AuditView(c.dec(r.payloadJson), r.(payloadJson := ""))
  }

  // ---- the subject tests of the adapters and of the lookups ----

  function ConsentOf(c: PiiCrypto, tenant: string, subject: string): ConsentRow -> bool
  {
    (r: ConsentRow) => r.tenantId == tenant && (r.subjectIdHash == Some(c.hash(subject)) || r.subjectId == subject)
  }

  function MappingOf(c: PiiCrypto, tenant: string, subject: string): MappingRow -> bool
  {
    (r: MappingRow) => r.tenantId == tenant && (r.discordUserIdHash == Some(c.hash(subject)) || r.discordUserId == subject)
  }

  function MappingOfFoundryUser(c: PiiCrypto, tenant: string, foundryUser: string): MappingRow -> bool
  {
    (r: MappingRow) => r.tenantId == tenant && (r.foundryUserIdHash == Some(c.hash(foundryUser)) || r.foundryUserId == Some(foundryUser))
  }

  function DialogueOf(c: PiiCrypto, tenant: string, subject: string): DialogueRow -> bool
  {
    (r: DialogueRow) => r.tenantId == tenant
      && (r.speakerHash == Some(c.hash(subject)) || r.speaker == subject
          || r.audience == PlayerAudience(c, subject) || r.audience == PLAYER_PREFIX + subject)
  }

  // ---- what the rows in play must satisfy ----

  /** A companion is absent or is the hash of its plaintext, and hashing tells the plaintext from `subject`. */
  predicate CompanionFits(c: PiiCrypto, plain: string, companion: Option<string>, subject: string)
  {
    && (companion.Some? ==> companion.value == c.hash(plain))
    && (c.hash(plain) == c.hash(subject) ==> plain == subject)
  }

  predicate ConsentFits(c: PiiCrypto, r: ConsentRow, subject: string)
  {
    IsCiphertext(r.subjectId) || CompanionFits(c, r.subjectId, r.subjectIdHash, subject)
  }

  predicate MappingFits(c: PiiCrypto, r: MappingRow, subject: string)
  {
    IsCiphertext(r.discordUserId) || CompanionFits(c, r.discordUserId, r.discordUserIdHash, subject)
  }

  predicate FoundryFits(c: PiiCrypto, r: MappingRow, foundryUser: string)
  {
    IsCiphertext(r.discordUserId) || r.foundryUserId.None?
    || CompanionFits(c, r.foundryUserId.value, r.foundryUserIdHash, foundryUser)
  }

  predicate DialogueFits(c: PiiCrypto, r: DialogueRow, subject: string)
  {
    IsCiphertext(r.speaker)
    || (CompanionFits(c, r.speaker, r.speakerHash, subject) && TokenTellsApart(c, r.audience, subject))
  }

  // ---- rows: subject tests survive, decrypted rows do not depend on the nonces ----

  lemma ConsentKeepsSubject(c: PiiCrypto, r: ConsentRow, r': ConsentRow, tenant: string, subject: string)
    requires Enabled(c) && ConsentMigration(c, r, r') && ConsentFits(c, r, subject) && !IsCiphertext(subject)
    ensures ConsentOf(c, tenant, subject)(r') == ConsentOf(c, tenant, subject)(r)
  {
  }

  lemma MappingKeepsSubject(c: PiiCrypto, r: MappingRow, r': MappingRow, tenant: string, subject: string)
    requires Enabled(c) && MappingMigration(c, r, r') && !IsCiphertext(subject)
    ensures MappingFits(c, r, subject) ==> MappingOf(c, tenant, subject)(r') == MappingOf(c, tenant, subject)(r)
    ensures FoundryFits(c, r, subject) ==>
      MappingOfFoundryUser(c, tenant, subject)(r') == MappingOfFoundryUser(c, tenant, subject)(r)
  {
  }

  /**
   * A row that comes to match only by being migrated: it is not the subject's, but
   * the player its audience names by raw id hashes onto the subject's own id.
   */
  predicate Overmatched(c: PiiCrypto, r: DialogueRow, tenant: string, subject: string)
  {
    && r.tenantId == tenant
    && !IsCiphertext(r.speaker)
    && !DialogueOf(c, tenant, subject)(r)
    && HashesOnto(c, r.audience, subject)
  }

  /** Migration never takes a row from its subject, and gives it exactly the overmatched ones. */
  lemma DialogueKeepsSubject(c: PiiCrypto, r: DialogueRow, r': DialogueRow, tenant: string, subject: string)
    requires Enabled(c) && DialogueMigration(c, r, r') && DialogueFits(c, r, subject) && !IsCiphertext(subject)
    ensures DialogueOf(c, tenant, subject)(r') <==> DialogueOf(c, tenant, subject)(r) || Overmatched(c, r, tenant, subject)
  {
    if !IsCiphertext(r.speaker) {
      RewriteMatches(c, r.audience, subject);
    }
  }

  /** An overmatched row: erasing the player whose id is the hash of `victim` takes what was said to `victim`. */
  lemma HashShapedSubjectOvermatches(c: PiiCrypto, victim: string)
    returns (r: DialogueRow, r': DialogueRow, subject: string)
    requires Enabled(c) && |victim| > 0 && !IsHashedToken(victim)
    ensures subject == c.hash(victim) && DialogueMigration(c, r, r') && r.audience == PLAYER_PREFIX + victim
    ensures !DialogueOf(c, "t", subject)(r) && DialogueOf(c, "t", subject)(r')
  {
    subject := c.hash(victim);
    r := DialogueRow(0, "t", "s", "narrator", None, None, "", 0, PLAYER_PREFIX + victim, "table");
    assert !IsCiphertext("narrator") by { assert "narrator"[0] != CIPHERTEXT_PREFIX[0]; }
    r' := EncryptDialogue(c, 0, r);
    TokenSuffix(victim);
    TokenSuffix(subject);
    TokenSuffix(c.hash(subject));
    assert IsHashedToken(subject) && IsHashedToken(c.hash(subject));
    EncryptionMigrates(c, 0, r);
  }

  // ---- the whole database ----

  datatype PiiTables = PiiTables(consents: seq<ConsentRow>, mappings: seq<MappingRow>, dialogue: seq<DialogueRow>,
                                 settings: seq<SettingRow>, audit: seq<AuditRow>)

  datatype DecryptedTables = DecryptedTables(consents: seq<ConsentView>, mappings: seq<MappingView>,
                                             dialogue: seq<DialogueView>, settings: seq<SettingView>,
                                             audit: seq<AuditView>)

  ghost predicate Migrated(c: PiiCrypto, t: PiiTables, t': PiiTables)
  {
    && RowWise(ConsentMigrated(c), t.consents, t'.consents)
    && RowWise(MappingMigrated(c), t.mappings, t'.mappings)
    && RowWise(DialogueMigrated(c), t.dialogue, t'.dialogue)
    && RowWise(SettingMigrated(c), t.settings, t'.settings)
    && RowWise(AuditMigrated(c), t.audit, t'.audit)
  }

  /** A run that stopped somewhere: every row is either still untouched or migrated. */
  ghost predicate PartlyMigrated(c: PiiCrypto, t: PiiTables, t': PiiTables)
  {
    && RowWise(OrUntouched(ConsentMigrated(c)), t.consents, t'.consents)
    && RowWise(OrUntouched(MappingMigrated(c)), t.mappings, t'.mappings)
    && RowWise(OrUntouched(DialogueMigrated(c)), t.dialogue, t'.dialogue)
    && RowWise(OrUntouched(SettingMigrated(c)), t.settings, t'.settings)
    && RowWise(OrUntouched(AuditMigrated(c)), t.audit, t'.audit)
  }

  function Decrypted(c: PiiCrypto, t: PiiTables): DecryptedTables
  {
    DecryptedTables(Project(DecryptConsent(c), t.consents), Project(DecryptMapping(c), t.mappings),
                    Project(DecryptDialogue(c), t.dialogue), Project(DecryptSetting(c), t.settings),
                    Project(DecryptAudit(c), t.audit))
  }

  /** Player erasure over the three tables that hold player rows. */
  function ErasePlayer(c: PiiCrypto, tenant: string, subject: string, t: PiiTables): PiiTables
  {
    t.(consents := Filter(Not(ConsentOf(c, tenant, subject)), t.consents),
       mappings := Filter(Not(MappingOf(c, tenant, subject)), t.mappings),
       dialogue := Filter(Not(DialogueOf(c, tenant, subject)), t.dialogue))
  }

  ghost predicate Fits(c: PiiCrypto, t: PiiTables, subject: string)
  {
    && !IsCiphertext(subject)
    && (forall i :: 0 <= i < |t.consents| ==> ConsentFits(c, t.consents[i], subject))
    && (forall i :: 0 <= i < |t.mappings| ==> MappingFits(c, t.mappings[i], subject))
    && (forall i :: 0 <= i < |t.dialogue| ==> DialogueFits(c, t.dialogue[i], subject))
  }

  ghost predicate NoneOvermatched(c: PiiCrypto, tenant: string, subject: string, rows: seq<DialogueRow>)
  {
    forall i :: 0 <= i < |rows| ==> !Overmatched(c, rows[i], tenant, subject)
  }

  lemma RawIdsNeverOvermatch(c: PiiCrypto, tenant: string, subject: string, rows: seq<DialogueRow>)
    requires Enabled(c)
    ensures !IsHashedToken(subject) ==> NoneOvermatched(c, tenant, subject, rows)
  {
  }

  /**
   * Erasing a player and migrating commute, the surviving rows decrypting to the
   * same rows, hashes and tokens, exactly when no dialogue row is overmatched.
   */
  lemma MigrationCommutesWithErasure(c: PiiCrypto, tenant: string, subject: string,
                                     t: PiiTables, migrated: PiiTables, erasedThenMigrated: PiiTables)
    requires Enabled(c) && Fits(c, t, subject)
    requires Migrated(c, t, migrated)
    requires Migrated(c, ErasePlayer(c, tenant, subject, t), erasedThenMigrated)
    ensures Decrypted(c, ErasePlayer(c, tenant, subject, migrated)) == Decrypted(c, erasedThenMigrated)
      <==> NoneOvermatched(c, tenant, subject, t.dialogue)
    ensures !IsHashedToken(subject) ==> NoneOvermatched(c, tenant, subject, t.dialogue)
  {
    hide Project, Filter, Enabled, NoneOvermatched;
    RawIdsNeverOvermatch(c, tenant, subject, t.dialogue);
    CommuteConsents(c, tenant, subject, t.consents, migrated.consents, erasedThenMigrated.consents);
    CommuteMappings(c, tenant, subject, t.mappings, migrated.mappings, erasedThenMigrated.mappings);
    CommuteDialogue(c, tenant, subject, t.dialogue, migrated.dialogue, erasedThenMigrated.dialogue);
    SameView(SettingMigrated(c), DecryptSetting(c), t.settings, migrated.settings, erasedThenMigrated.settings);
    SameView(AuditMigrated(c), DecryptAudit(c), t.audit, migrated.audit, erasedThenMigrated.audit);
  }

  lemma CommuteConsents(c: PiiCrypto, tenant: string, subject: string, rows: seq<ConsentRow>,
                        early: seq<ConsentRow>, late: seq<ConsentRow>)
    requires Enabled(c) && !IsCiphertext(subject) && forall i :: 0 <= i < |rows| ==> ConsentFits(c, rows[i], subject)
    requires RowWise(ConsentMigrated(c), rows, early)
    requires RowWise(ConsentMigrated(c), Filter(Not(ConsentOf(c, tenant, subject)), rows), late)
    ensures Project(DecryptConsent(c), Filter(Not(ConsentOf(c, tenant, subject)), early)) == Project(DecryptConsent(c), late)
  {
    forall i | 0 <= i < |rows|
      ensures Not(ConsentOf(c, tenant, subject))(early[i]) == Not(ConsentOf(c, tenant, subject))(rows[i])
    {
      ConsentKeepsSubject(c, rows[i], early[i], tenant, subject);
    }
    FilterCommutes(ConsentMigrated(c), Not(ConsentOf(c, tenant, subject)), DecryptConsent(c), rows, early, late);
  }

  lemma CommuteMappings(c: PiiCrypto, tenant: string, subject: string, rows: seq<MappingRow>,
                        early: seq<MappingRow>, late: seq<MappingRow>)
    requires Enabled(c) && !IsCiphertext(subject) && forall i :: 0 <= i < |rows| ==> MappingFits(c, rows[i], subject)
    requires RowWise(MappingMigrated(c), rows, early)
    requires RowWise(MappingMigrated(c), Filter(Not(MappingOf(c, tenant, subject)), rows), late)
    ensures Project(DecryptMapping(c), Filter(Not(MappingOf(c, tenant, subject)), early)) == Project(DecryptMapping(c), late)
  {
    forall i | 0 <= i < |rows|
      ensures Not(MappingOf(c, tenant, subject))(early[i]) == Not(MappingOf(c, tenant, subject))(rows[i])
    {
      MappingKeepsSubject(c, rows[i], early[i], tenant, subject);
    }
    forall i, j | 0 <= i < |rows| && 0 <= j < |late| && MappingMigrated(c)(rows[i], late[j])
      ensures DecryptMapping(c)(early[i]) == DecryptMapping(c)(late[j])
    {
      MappingSettled(c, rows[i], early[i], late[j]);
    }
    FilterCommutes(MappingMigrated(c), Not(MappingOf(c, tenant, subject)), DecryptMapping(c), rows, early, late);
  }

  lemma CommuteDialogue(c: PiiCrypto, tenant: string, subject: string, rows: seq<DialogueRow>,
                        early: seq<DialogueRow>, late: seq<DialogueRow>)
    requires Enabled(c) && !IsCiphertext(subject) && forall i :: 0 <= i < |rows| ==> DialogueFits(c, rows[i], subject)
    requires RowWise(DialogueMigrated(c), rows, early)
    requires RowWise(DialogueMigrated(c), Filter(Not(DialogueOf(c, tenant, subject)), rows), late)
    ensures Project(DecryptDialogue(c), Filter(Not(DialogueOf(c, tenant, subject)), early)) == Project(DecryptDialogue(c), late)
      <==> NoneOvermatched(c, tenant, subject, rows)
  {
    var others := Not(DialogueOf(c, tenant, subject));
    forall i | 0 <= i < |rows|
      ensures others(early[i]) <==> others(rows[i]) && !Overmatched(c, rows[i], tenant, subject)
    {
      DialogueKeepsSubject(c, rows[i], early[i], tenant, subject);
    }
    if NoneOvermatched(c, tenant, subject, rows) {
      forall i, j | 0 <= i < |rows| && 0 <= j < |late| && DialogueMigrated(c)(rows[i], late[j])
        ensures DecryptDialogue(c)(early[i]) == DecryptDialogue(c)(late[j])
      {
        DialogueSettled(c, rows[i], early[i], late[j]);
      }
      FilterCommutes(DialogueMigrated(c), others, DecryptDialogue(c), rows, early, late);
    } else {
      FilterShrinks(others, rows, early);
    }
  }

  /** Two migrations of one table decrypt alike when each row's view is settled by its original. */
  lemma SameView<R, V>(rel: (R, R) -> bool, view: R -> V, rows: seq<R>, a: seq<R>, b: seq<R>)
    requires RowWise(rel, rows, a) && RowWise(rel, rows, b)
    requires forall i :: 0 <= i < |rows| && rel(rows[i], a[i]) && rel(rows[i], b[i]) ==> view(a[i]) == view(b[i])
    ensures Project(view, a) == Project(view, b)
  {
  }

  // ---- views are settled by the original row; a second migration is the identity ----

  lemma DialogueSettled(c: PiiCrypto, r: DialogueRow, a: DialogueRow, b: DialogueRow)
    requires DialogueMigration(c, r, a) && DialogueMigration(c, r, b)
    ensures DecryptDialogue(c)(a) == DecryptDialogue(c)(b)
  {
    if !IsCiphertext(r.speaker) {
      var va, vb := DecryptDialogue(c)(a), DecryptDialogue(c)(b);
      assert va.speaker == vb.speaker && va.text == vb.text && va.name == vb.name;
      assert va.rest == vb.rest;
    }
  }

  lemma DialogueTwice(c: PiiCrypto, r: DialogueRow, a: DialogueRow, b: DialogueRow)
    requires DialogueMigration(c, r, a) && DialogueMigration(c, a, b)
    ensures b == a
  {
  }

  lemma MappingSettled(c: PiiCrypto, r: MappingRow, a: MappingRow, b: MappingRow)
    requires MappingMigration(c, r, a) && MappingMigration(c, r, b)
    ensures DecryptMapping(c)(a) == DecryptMapping(c)(b)
  {
    if !IsCiphertext(r.discordUserId) {
      var va, vb := DecryptMapping(c)(a), DecryptMapping(c)(b);
      assert va.discord == vb.discord && va.foundry == vb.foundry && va.name == vb.name;
      assert va.rest == vb.rest;
    }
  }

  /** Rerunning after an interruption relates the finished table to the original one. */
  lemma RerunTable<R>(rel: (R, R) -> bool, rows: seq<R>, mid: seq<R>, fin: seq<R>)
    requires RowWise(OrUntouched(rel), rows, mid) && RowWise(rel, mid, fin)
    requires forall i :: 0 <= i < |rows| && rel(rows[i], mid[i]) && rel(mid[i], fin[i]) ==> fin[i] == mid[i]
    ensures RowWise(rel, rows, fin)
  {
    forall i | 0 <= i < |rows|
      ensures rel(rows[i], fin[i])
    {
      assert OrUntouched(rel)(rows[i], mid[i]) && rel(mid[i], fin[i]);
    }
  }

  lemma RerunMigrates(c: PiiCrypto, t: PiiTables, mid: PiiTables, fin: PiiTables)
    requires PartlyMigrated(c, t, mid) && Migrated(c, mid, fin)
    ensures Migrated(c, t, fin)
  {
    RerunTable(ConsentMigrated(c), t.consents, mid.consents, fin.consents);
    RerunTable(MappingMigrated(c), t.mappings, mid.mappings, fin.mappings);
    forall i | 0 <= i < |t.dialogue| && DialogueMigration(c, t.dialogue[i], mid.dialogue[i])
                                     && DialogueMigrated(c)(mid.dialogue[i], fin.dialogue[i])
      ensures fin.dialogue[i] == mid.dialogue[i]
    {
      DialogueTwice(c, t.dialogue[i], mid.dialogue[i], fin.dialogue[i]);
    }
    RerunTable(DialogueMigrated(c), t.dialogue, mid.dialogue, fin.dialogue);
    RerunTable(SettingMigrated(c), t.settings, mid.settings, fin.settings);
    RerunTable(AuditMigrated(c), t.audit, mid.audit, fin.audit);
  }

  lemma MappingViewsAgree(c: PiiCrypto, rows: seq<MappingRow>, a: seq<MappingRow>, b: seq<MappingRow>)
    requires RowWise(MappingMigrated(c), rows, a) && RowWise(MappingMigrated(c), rows, b)
    ensures Project(DecryptMapping(c), a) == Project(DecryptMapping(c), b)
  {
    forall i | 0 <= i < |rows|
      ensures DecryptMapping(c)(a[i]) == DecryptMapping(c)(b[i])
    {
      MappingSettled(c, rows[i], a[i], b[i]);
    }
    SameView(MappingMigrated(c), DecryptMapping(c), rows, a, b);
  }

  lemma DialogueViewsAgree(c: PiiCrypto, rows: seq<DialogueRow>, a: seq<DialogueRow>, b: seq<DialogueRow>)
    requires RowWise(DialogueMigrated(c), rows, a) && RowWise(DialogueMigrated(c), rows, b)
    ensures Project(DecryptDialogue(c), a) == Project(DecryptDialogue(c), b)
  {
    forall i | 0 <= i < |rows|
      ensures DecryptDialogue(c)(a[i]) == DecryptDialogue(c)(b[i])
    {
      DialogueSettled(c, rows[i], a[i], b[i]);
    }
    SameView(DialogueMigrated(c), DecryptDialogue(c), rows, a, b);
  }

  lemma AllViewsAgree(c: PiiCrypto, t: PiiTables, a: PiiTables, b: PiiTables)
    requires Migrated(c, t, a) && Migrated(c, t, b)
    ensures Decrypted(c, a) == Decrypted(c, b)
  {
    hide Project;
    SameView(ConsentMigrated(c), DecryptConsent(c), t.consents, a.consents, b.consents);
    MappingViewsAgree(c, t.mappings, a.mappings, b.mappings);
    DialogueViewsAgree(c, t.dialogue, a.dialogue, b.dialogue);
    SameView(SettingMigrated(c), DecryptSetting(c), t.settings, a.settings, b.settings);
    SameView(AuditMigrated(c), DecryptAudit(c), t.audit, a.audit, b.audit);
  }

  /**
   * A run interrupted after any of its row updates and run again leaves the same
   * decrypted rows, hashes and tokens as one uninterrupted run.
   */
  lemma InterruptionIsRepaired(c: PiiCrypto, t: PiiTables, interrupted: PiiTables, rerun: PiiTables, once: PiiTables)
    requires PartlyMigrated(c, t, interrupted) && Migrated(c, interrupted, rerun) && Migrated(c, t, once)
    ensures Decrypted(c, rerun) == Decrypted(c, once)
  {
    RerunMigrates(c, t, interrupted, rerun);
    AllViewsAgree(c, t, rerun, once);
  }

  /** A second full run finds nothing to encrypt and updates no row. */
  lemma SecondRunIsIdle(c: PiiCrypto, t: PiiTables, first: PiiTables, second: PiiTables)
    requires Migrated(c, t, first) && Migrated(c, first, second)
    ensures second == first && Counts(first) == NONE_ENCRYPTED
  {
    forall i | 0 <= i < |t.dialogue|
      ensures second.dialogue[i] == first.dialogue[i] && !PlainDialogue()(first.dialogue[i])
    {
      DialogueTwice(c, t.dialogue[i], first.dialogue[i], second.dialogue[i]);
    }
    assert second.consents == first.consents && second.mappings == first.mappings && second.dialogue == first.dialogue;
    assert second.settings == first.settings && second.audit == first.audit;
    CountZero(PlainConsent(), first.consents);
    CountZero(PlainMapping(), first.mappings);
    CountZero(PlainDialogue(), first.dialogue);
    CountZero(PlainSetting(), first.settings);
    CountZero(PlainAudit(), first.audit);
  }

  // ---- the migration and the adapters as they run ----

  datatype PiiMigrateResult = PiiMigrateResult(consents: nat, mappings: nat, dialogue: nat, settings: nat, audit: nat)

  const NONE_ENCRYPTED := PiiMigrateResult(0, 0, 0, 0, 0)

  function Counts(t: PiiTables): PiiMigrateResult
  {
    PiiMigrateResult(Count(PlainConsent(), t.consents), Count(PlainMapping(), t.mappings),
                     Count(PlainDialogue(), t.dialogue), Count(PlainSetting(), t.settings),
                     Count(PlainAudit(), t.audit))
  }

  function Total(r: PiiMigrateResult): nat
  {
    r.consents + r.mappings + r.dialogue + r.settings + r.audit
  }

  function Min(a: nat, b: nat): nat
  {
    if a <= b then a else b
  }

  class Db {
    var consents: seq<ConsentRow>
    var mappings: seq<MappingRow>
    var dialogue: seq<DialogueRow>
    var settings: seq<SettingRow>
    var audit: seq<AuditRow>
    /** Source of fresh nonces. */
    var entropy: nat

    ghost function View(): PiiTables
      reads this
    {
      PiiTables(consents, mappings, dialogue, settings, audit)
    }

    /**
     * The five loops. Each row update commits by itself, so a run may end after any
     * of them: this one ends after `stopAfter`, if the tables have as many plain rows.
     */
    method EncryptPiiColumns(c: PiiCrypto, stopAfter: nat) returns (result: PiiMigrateResult)
      requires Enabled(c)
      modifies this
      ensures PartlyMigrated(c, old(View()), View())
      ensures Total(result) == Min(stopAfter, Total(Counts(old(View()))))
      ensures Total(Counts(old(View()))) <= stopAfter ==>
        Migrated(c, old(View()), View()) && result == Counts(old(View()))
    {
      hide RowWise, OrUntouched, Count, Enabled;
      var n1 := EncryptConsents(c, stopAfter);
      var n2 := EncryptMappings(c, stopAfter - n1);
      var n3 := EncryptDialogues(c, stopAfter - n1 - n2);
      var n4 := EncryptSettings(c, stopAfter - n1 - n2 - n3);
      var n5 := EncryptAudits(c, stopAfter - n1 - n2 - n3 - n4);
      result := PiiMigrateResult(n1, n2, n3, n4, n5);
    }

    method EncryptConsents(c: PiiCrypto, budget: nat) returns (n: nat)
      requires Enabled(c)
      modifies `consents, `entropy
      ensures RowWise(OrUntouched(ConsentMigrated(c)), old(consents), consents)
      ensures n == Min(budget, Count(PlainConsent(), old(consents)))
      ensures Count(PlainConsent(), old(consents)) <= budget ==> RowWise(ConsentMigrated(c), old(consents), consents)
    {
      hide RowWise, Reached, Enabled, OrUntouched, ConsentMigration;
      n := 0;
      var rows := consents;
      ReachedNone(ConsentMigrated(c), rows);
      for i := 0 to |rows|
        invariant |consents| == |rows| && Reached(ConsentMigrated(c), rows, consents, i) && n == Count(PlainConsent(), rows[..i]) <= budget
      {
        CountUpTo(PlainConsent(), rows, i);
        EncryptionMigratesConsent(c, entropy, rows[i]);
        var r := EncryptConsent(c, entropy, rows[i]);
        ReachNext(ConsentMigrated(c), rows, consents, i, r);
        if !IsCiphertext(rows[i].subjectId) {
          if n == budget {
            ReachedSoFar(ConsentMigrated(c), rows, consents, i);
            return;
          }
          consents := consents[i := r];
          entropy := entropy + 1;
          n := n + 1;
        }
      }
      ReachedSoFar(ConsentMigrated(c), rows, consents, |rows|);
      assert rows[..|rows|] == rows;
    }

    method EncryptMappings(c: PiiCrypto, budget: nat) returns (n: nat)
      requires Enabled(c)
      modifies `mappings, `entropy
      ensures RowWise(OrUntouched(MappingMigrated(c)), old(mappings), mappings)
      ensures n == Min(budget, Count(PlainMapping(), old(mappings)))
      ensures Count(PlainMapping(), old(mappings)) <= budget ==> RowWise(MappingMigrated(c), old(mappings), mappings)
    {
      hide RowWise, Reached, Enabled, OrUntouched, MappingMigration;
      n := 0;
      var rows := mappings;
      ReachedNone(MappingMigrated(c), rows);
      for i := 0 to |rows|
        invariant |mappings| == |rows| && Reached(MappingMigrated(c), rows, mappings, i) && n == Count(PlainMapping(), rows[..i]) <= budget
      {
        CountUpTo(PlainMapping(), rows, i);
        EncryptionMigratesMapping(c, entropy, rows[i]);
        var r := EncryptMapping(c, entropy, rows[i]);
        ReachNext(MappingMigrated(c), rows, mappings, i, r);
        if !IsCiphertext(rows[i].discordUserId) {
          if n == budget {
            ReachedSoFar(MappingMigrated(c), rows, mappings, i);
            return;
          }
          mappings := mappings[i := r];
          entropy := entropy + 3;
          n := n + 1;
        }
      }
      ReachedSoFar(MappingMigrated(c), rows, mappings, |rows|);
      assert rows[..|rows|] == rows;
    }

    method EncryptDialogues(c: PiiCrypto, budget: nat) returns (n: nat)
      requires Enabled(c)
      modifies `dialogue, `entropy
      ensures RowWise(OrUntouched(DialogueMigrated(c)), old(dialogue), dialogue)
      ensures n == Min(budget, Count(PlainDialogue(), old(dialogue)))
      ensures Count(PlainDialogue(), old(dialogue)) <= budget ==> RowWise(DialogueMigrated(c), old(dialogue), dialogue)
    {
      hide RowWise, Reached, Enabled, OrUntouched, DialogueMigration;
      n := 0;
      var rows := dialogue;
      ReachedNone(DialogueMigrated(c), rows);
      for i := 0 to |rows|
        invariant |dialogue| == |rows| && Reached(DialogueMigrated(c), rows, dialogue, i) && n == Count(PlainDialogue(), rows[..i]) <= budget
      {
        CountUpTo(PlainDialogue(), rows, i);
        EncryptionMigrates(c, entropy, rows[i]);
        var r := EncryptDialogue(c, entropy, rows[i]);
        ReachNext(DialogueMigrated(c), rows, dialogue, i, r);
        if !IsCiphertext(rows[i].speaker) {
          if n == budget {
            ReachedSoFar(DialogueMigrated(c), rows, dialogue, i);
            return;
          }
          dialogue := dialogue[i := r];
          entropy := entropy + 3;
          n := n + 1;
        }
      }
      ReachedSoFar(DialogueMigrated(c), rows, dialogue, |rows|);
      assert rows[..|rows|] == rows;
    }

    method EncryptSettings(c: PiiCrypto, budget: nat) returns (n: nat)
      requires Enabled(c)
      modifies `settings, `entropy
      ensures RowWise(OrUntouched(SettingMigrated(c)), old(settings), settings)
      ensures n == Min(budget, Count(PlainSetting(), old(settings)))
      ensures Count(PlainSetting(), old(settings)) <= budget ==> RowWise(SettingMigrated(c), old(settings), settings)
    {
      hide RowWise, Reached, Enabled, OrUntouched, SettingMigration;
      n := 0;
      var rows := settings;
      ReachedNone(SettingMigrated(c), rows);
      for i := 0 to |rows|
        invariant |settings| == |rows| && Reached(SettingMigrated(c), rows, settings, i) && n == Count(PlainSetting(), rows[..i]) <= budget
      {
        CountUpTo(PlainSetting(), rows, i);
        EncryptionMigratesSetting(c, entropy, rows[i]);
        var r := EncryptSetting(c, entropy, rows[i]);
        ReachNext(SettingMigrated(c), rows, settings, i, r);
        if !IsCiphertext(rows[i].value) {
          if n == budget {
            ReachedSoFar(SettingMigrated(c), rows, settings, i);
            return;
          }
          settings := settings[i := r];
          entropy := entropy + 1;
          n := n + 1;
        }
      }
      ReachedSoFar(SettingMigrated(c), rows, settings, |rows|);
      assert rows[..|rows|] == rows;
    }

    method EncryptAudits(c: PiiCrypto, budget: nat) returns (n: nat)
      requires Enabled(c)
      modifies `audit, `entropy
      ensures RowWise(OrUntouched(AuditMigrated(c)), old(audit), audit)
      ensures n == Min(budget, Count(PlainAudit(), old(audit)))
      ensures Count(PlainAudit(), old(audit)) <= budget ==> RowWise(AuditMigrated(c), old(audit), audit)
    {
      hide RowWise, Reached, Enabled, OrUntouched, AuditMigration;
      n := 0;
      var rows := audit;
      ReachedNone(AuditMigrated(c), rows);
      for i := 0 to |rows|
        invariant |audit| == |rows| && Reached(AuditMigrated(c), rows, audit, i) && n == Count(PlainAudit(), rows[..i]) <= budget
      {
        CountUpTo(PlainAudit(), rows, i);
        EncryptionMigratesAudit(c, entropy, rows[i]);
        var r := EncryptAudit(c, entropy, rows[i]);
        ReachNext(AuditMigrated(c), rows, audit, i, r);
        if !IsCiphertext(rows[i].payloadJson) {
          if n == budget {
            ReachedSoFar(AuditMigrated(c), rows, audit, i);
            return;
          }
          audit := audit[i := r];
          entropy := entropy + 1;
          n := n + 1;
        }
      }
      ReachedSoFar(AuditMigrated(c), rows, audit, |rows|);
      assert rows[..|rows|] == rows;
    }

    /** The player scope of the three deletion adapters; returns the number of rows removed. */
    method DeletePlayer(c: PiiCrypto, tenant: string, subject: string) returns (removed: nat)
      modifies this
      ensures View() == ErasePlayer(c, tenant, subject, old(View()))
      ensures removed + |consents| + |mappings| + |dialogue| == old(|consents| + |mappings| + |dialogue|)
    {
      var before := |consents| + |mappings| + |dialogue|;
      consents := Filter(Not(ConsentOf(c, tenant, subject)), consents);
      mappings := Filter(Not(MappingOf(c, tenant, subject)), mappings);
      dialogue := Filter(Not(DialogueOf(c, tenant, subject)), dialogue);
      removed := before - |consents| - |mappings| - |dialogue|;
    }
  }
}
