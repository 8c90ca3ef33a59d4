/**
 * What readers get from the PII tables before and after the migration: decrypted rows
 * (server/src/pii_columns.ts) and the subject lookups (server/src/tenant_db.ts).
 */
module PiiReads {
  import opened Options
  import opened Tables
  import opened ColumnCrypto
  import opened PiiMigration

  // ---- decrypted rows up to hashing: no companions, and tokens in their hashed form ----

  function SeenConsent(c: PiiCrypto, r: ConsentRow): ConsentView
  {
    var v := DecryptConsent(c)(r);
    v.(rest := v.rest.(subjectIdHash := None))
  }

  function SeenMapping(c: PiiCrypto, r: MappingRow): MappingView
  {
    var v := DecryptMapping(c)(r);
    v.(rest := v.rest.(discordUserIdHash := None, foundryUserIdHash := None))
  }

  function SeenDialogue(c: PiiCrypto, r: DialogueRow): DialogueView
  {
    var v := DecryptDialogue(c)(r);
    v.(rest := v.rest.(speakerHash := None, audience := RewriteToken(c, r.audience),
                       conversationId := RewriteToken(c, r.conversationId)))
  }

  function Consents(c: PiiCrypto): ConsentRow -> ConsentView { (r: ConsentRow) => SeenConsent(c, r) }
  function Mappings(c: PiiCrypto): MappingRow -> MappingView { (r: MappingRow) => SeenMapping(c, r) }
  function Dialogue(c: PiiCrypto): DialogueRow -> DialogueView { (r: DialogueRow) => SeenDialogue(c, r) }

  /** Everything the read paths return. */
  function Reading(c: PiiCrypto, t: PiiTables): DecryptedTables
  {
    DecryptedTables(Project(Consents(c), t.consents), Project(Mappings(c), t.mappings),
                    Project(Dialogue(c), t.dialogue), Project(DecryptSetting(c), t.settings),
                    Project(DecryptAudit(c), t.audit))
  }

  // ---- the rows the migration garbles: plain by the column it tests, tagged in another ----

  predicate Tagged(value: Option<string>)
  {
    value.Some? && IsCiphertext(value.value)
  }

  predicate GarblesMapping(r: MappingRow)
  {
    !IsCiphertext(r.discordUserId) && (Tagged(r.foundryUserId) || Tagged(r.displayName))
  }

  predicate GarblesDialogue(r: DialogueRow)
  {
    !IsCiphertext(r.speaker) && (IsCiphertext(r.text) || Tagged(r.displayName))
  }

  lemma OptionSurvives(c: PiiCrypto, stored: Option<string>, plain: Option<string>)
    requires Enabled(c) && SealsOption(c, stored, plain)
    ensures DecOption(c, stored) == DecOption(c, plain) <==> !Tagged(plain)
  {
    if plain.Some? {
      var p := plain.value;
      assert DecOption(c, stored).value == Some(p) && DecOption(c, plain).value == c.dec(p);
      assert if IsCiphertext(p) then c.dec(p) != Some(p) else c.dec(p) == Some(p);
    }
  }

  /** A decrypted consent reads as before, whatever is in the row. */
  lemma ConsentReadsSurvive(c: PiiCrypto, r: ConsentRow, r': ConsentRow)
    requires Enabled(c) && ConsentMigration(c, r, r')
    ensures SeenConsent(c, r') == SeenConsent(c, r)
  {
    assert r'.(subjectId := "", subjectIdHash := None) == r.(subjectId := "", subjectIdHash := None);
  }

  /** A decrypted mapping reads as before exactly when the row is not garbled; its Discord id and the rest always do. */
  lemma MappingReadsSurvive(c: PiiCrypto, r: MappingRow, r': MappingRow)
    requires Enabled(c) && MappingMigration(c, r, r')
    ensures SeenMapping(c, r') == SeenMapping(c, r) <==> !GarblesMapping(r)
    ensures SeenMapping(c, r') == SeenMapping(c, r).(foundry := SeenMapping(c, r').foundry, name := SeenMapping(c, r').name)
  {
    if !IsCiphertext(r.discordUserId) {
      OptionSurvives(c, r'.foundryUserId, r.foundryUserId);
      OptionSurvives(c, r'.displayName, r.displayName);
      assert c.dec(r.discordUserId) == Some(r.discordUserId);
      var v, v' := SeenMapping(c, r), SeenMapping(c, r');
      assert v'.rest == v.rest && v'.discord == v.discord;
      assert v.foundry == DecOption(c, r.foundryUserId) && v'.foundry == DecOption(c, r'.foundryUserId);
    }
  }

  /** A decrypted dialogue row reads as before exactly when it is not garbled; all but text and name always do. */
  lemma DialogueReadsSurvive(c: PiiCrypto, r: DialogueRow, r': DialogueRow)
    requires Enabled(c) && DialogueMigration(c, r, r')
    ensures SeenDialogue(c, r') == SeenDialogue(c, r) <==> !GarblesDialogue(r)
    ensures SeenDialogue(c, r')
         == SeenDialogue(c, r).(text := SeenDialogue(c, r').text, name := SeenDialogue(c, r').name)
  {
    if !IsCiphertext(r.speaker) {
      OptionSurvives(c, r'.displayName, r.displayName);
      RewriteOnce(c, r.audience);
      RewriteOnce(c, r.conversationId);
      assert c.dec(r.speaker) == Some(r.speaker);
      var v, v' := SeenDialogue(c, r), SeenDialogue(c, r');
      assert v'.rest == v.rest && v'.speaker == v.speaker;
      assert v'.text == Some(r.text) && (v'.text == v.text <==> !IsCiphertext(r.text));
    }
  }

  lemma SettingReadsSurvive(c: PiiCrypto, r: SettingRow, r': SettingRow)
    requires Enabled(c) && SettingMigration(c, r, r')
    ensures DecryptSetting(c)(r') == DecryptSetting(c)(r)
  {
    assert r'.(value := "") == r.(value := "");
  }

  lemma AuditReadsSurvive(c: PiiCrypto, r: AuditRow, r': AuditRow)
    requires Enabled(c) && AuditMigration(c, r, r')
    ensures DecryptAudit(c)(r') == DecryptAudit(c)(r)
  {
    assert r'.(payloadJson := "") == r.(payloadJson := "");
  }

  // ---- whole tables ----

  function MappingGarbled(): MappingRow -> bool { (r: MappingRow) => GarblesMapping(r) }
  function DialogueGarbled(): DialogueRow -> bool { (r: DialogueRow) => GarblesDialogue(r) }

  ghost predicate NoRow<R>(p: R -> bool, rows: seq<R>)
  {
    forall i :: 0 <= i < |rows| ==> !p(rows[i])
  }

  /** A view survives on a table exactly when it survives on each row. */
  lemma ViewSurvives<R, V>(view: R -> V, garbled: R -> bool, rows: seq<R>, rows': seq<R>)
    requires |rows'| == |rows| && forall i :: 0 <= i < |rows| ==> (view(rows'[i]) == view(rows[i]) <==> !garbled(rows[i]))
    ensures Project(view, rows') == Project(view, rows) <==> NoRow(garbled, rows)
  {
    var a, b := Project(view, rows'), Project(view, rows);
    assert forall i :: 0 <= i < |rows| ==> a[i] == view(rows'[i]) && b[i] == view(rows[i]);
    if NoRow(garbled, rows) {
      assert a == b;
    }
  }

  /** The migration leaves everything readers get unchanged exactly when no mapping and no dialogue row is garbled. */
  lemma MigrationKeepsReadings(c: PiiCrypto, t: PiiTables, t': PiiTables)
    requires Enabled(c) && Migrated(c, t, t')
    ensures Reading(c, t') == Reading(c, t) <==> NoRow(MappingGarbled(), t.mappings) && NoRow(DialogueGarbled(), t.dialogue)
  {
    ConsentTable(c, t.consents, t'.consents);
    MappingTable(c, t.mappings, t'.mappings);
    DialogueTable(c, t.dialogue, t'.dialogue);
    SettingTable(c, t.settings, t'.settings);
    AuditTable(c, t.audit, t'.audit);
  }

  lemma ConsentTable(c: PiiCrypto, rows: seq<ConsentRow>, rows': seq<ConsentRow>)
    requires Enabled(c) && RowWise(ConsentMigrated(c), rows, rows')
    ensures Project(Consents(c), rows') == Project(Consents(c), rows)
  {
    forall i | 0 <= i < |rows| ensures Consents(c)(rows'[i]) == Consents(c)(rows[i]) {
      ConsentReadsSurvive(c, rows[i], rows'[i]);
    }
  }

  lemma MappingTable(c: PiiCrypto, rows: seq<MappingRow>, rows': seq<MappingRow>)
    requires Enabled(c) && RowWise(MappingMigrated(c), rows, rows')
    ensures Project(Mappings(c), rows') == Project(Mappings(c), rows) <==> NoRow(MappingGarbled(), rows)
  {
    forall i | 0 <= i < |rows|
      ensures Mappings(c)(rows'[i]) == Mappings(c)(rows[i]) <==> !MappingGarbled()(rows[i])
    {
      MappingReadsSurvive(c, rows[i], rows'[i]);
    }
    ViewSurvives(Mappings(c), MappingGarbled(), rows, rows');
  }

  lemma DialogueTable(c: PiiCrypto, rows: seq<DialogueRow>, rows': seq<DialogueRow>)
    requires Enabled(c) && RowWise(DialogueMigrated(c), rows, rows')
    ensures Project(Dialogue(c), rows') == Project(Dialogue(c), rows) <==> NoRow(DialogueGarbled(), rows)
  {
    forall i | 0 <= i < |rows|
      ensures Dialogue(c)(rows'[i]) == Dialogue(c)(rows[i]) <==> !DialogueGarbled()(rows[i])
    {
      DialogueReadsSurvive(c, rows[i], rows'[i]);
    }
    ViewSurvives(Dialogue(c), DialogueGarbled(), rows, rows');
  }

  lemma SettingTable(c: PiiCrypto, rows: seq<SettingRow>, rows': seq<SettingRow>)
    requires Enabled(c) && RowWise(SettingMigrated(c), rows, rows')
    ensures Project(DecryptSetting(c), rows') == Project(DecryptSetting(c), rows)
  {
    forall i | 0 <= i < |rows| ensures DecryptSetting(c)(rows'[i]) == DecryptSetting(c)(rows[i]) {
      SettingReadsSurvive(c, rows[i], rows'[i]);
    }
  }

  lemma AuditTable(c: PiiCrypto, rows: seq<AuditRow>, rows': seq<AuditRow>)
    requires Enabled(c) && RowWise(AuditMigrated(c), rows, rows')
    ensures Project(DecryptAudit(c), rows') == Project(DecryptAudit(c), rows)
  {
    forall i | 0 <= i < |rows| ensures DecryptAudit(c)(rows'[i]) == DecryptAudit(c)(rows[i]) {
      AuditReadsSurvive(c, rows[i], rows'[i]);
    }
  }

  // ---- subject lookups ----

  function ConsentFor(c: PiiCrypto, tenant: string, subject: string, purpose: string): ConsentRow -> bool
  {
    (r: ConsentRow) => ConsentOf(c, tenant, subject)(r) && r.purpose == purpose
  }

  function MappingIn(of: MappingRow -> bool, campaign: string): MappingRow -> bool
  {
    (r: MappingRow) => of(r) && r.campaignId == campaign
  }

  function ConsentTime(): ConsentRow -> int { (r: ConsentRow) => r.timestamp }
  function MappingTime(): MappingRow -> int { (r: MappingRow) => r.confirmedAt }

  /** `consents.currentState`: the action of the newest matching row; rows are in id order. */
  function CurrentState(c: PiiCrypto, tenant: string, subject: string, purpose: string, rows: seq<ConsentRow>): Option<string>
  {
    var i := LatestIndex(ConsentFor(c, tenant, subject, purpose), ConsentTime(), rows);
    if i.None? then None else Some(rows[i.value].action)
  }

  function NewestMapping(of: MappingRow -> bool, campaign: string, rows: seq<MappingRow>): Option<MappingRow>
  {
    var i := LatestIndex(MappingIn(of, campaign), MappingTime(), rows);
    if i.None? then None else Some(rows[i.value])
  }

  /** `currentForPlayer` and `currentForFoundryUser`: the newest matching mapping, decrypted. */
  function CurrentMapping(c: PiiCrypto, of: MappingRow -> bool, campaign: string, rows: seq<MappingRow>): Option<MappingView>
  {
    match NewestMapping(of, campaign, rows)
    case None => None
    case Some(r) => Some(SeenMapping(c, r))
  }

  /** Migration keeps every consent answer, and every mapping answer except that of a garbled row. */
  lemma LookupsSurvive(c: PiiCrypto, tenant: string, subject: string, purpose: string, campaign: string,
                       t: PiiTables, t': PiiTables)
    requires Enabled(c) && Fits(c, t, subject) && Migrated(c, t, t')
    requires forall i :: 0 <= i < |t.mappings| ==> FoundryFits(c, t.mappings[i], subject)
    ensures CurrentState(c, tenant, subject, purpose, t'.consents) == CurrentState(c, tenant, subject, purpose, t.consents)
    ensures AnswersAlike(c, MappingOf(c, tenant, subject), campaign, t.mappings, t'.mappings)
    ensures AnswersAlike(c, MappingOfFoundryUser(c, tenant, subject), campaign, t.mappings, t'.mappings)
  {
    ConsentAnswers(c, tenant, subject, purpose, t.consents, t'.consents);
    forall i | 0 <= i < |t.mappings|
      ensures MappingOf(c, tenant, subject)(t'.mappings[i]) == MappingOf(c, tenant, subject)(t.mappings[i])
      ensures MappingOfFoundryUser(c, tenant, subject)(t'.mappings[i]) == MappingOfFoundryUser(c, tenant, subject)(t.mappings[i])
    {
      MappingKeepsSubject(c, t.mappings[i], t'.mappings[i], tenant, subject);
    }
    MappingAnswers(c, MappingOf(c, tenant, subject), campaign, t.mappings, t'.mappings);
    MappingAnswers(c, MappingOfFoundryUser(c, tenant, subject), campaign, t.mappings, t'.mappings);
  }

  /** The lookup finds the same mapping in both tables, and reads it alike exactly when that row is not garbled. */
  ghost predicate AnswersAlike(c: PiiCrypto, of: MappingRow -> bool, campaign: string,
                               rows: seq<MappingRow>, rows': seq<MappingRow>)
  {
    var found, a, a' := NewestMapping(of, campaign, rows), CurrentMapping(c, of, campaign, rows), CurrentMapping(c, of, campaign, rows');
    && (a'.Some? <==> found.Some?)
    && (a' == a <==> found.None? || !GarblesMapping(found.value))
    && (found.Some? ==> a'.value == a.value.(foundry := a'.value.foundry, name := a'.value.name))
  }

  lemma ConsentAnswers(c: PiiCrypto, tenant: string, subject: string, purpose: string,
                       rows: seq<ConsentRow>, rows': seq<ConsentRow>)
    requires Enabled(c) && !IsCiphertext(subject) && RowWise(ConsentMigrated(c), rows, rows')
    requires forall i :: 0 <= i < |rows| ==> ConsentFits(c, rows[i], subject)
    ensures CurrentState(c, tenant, subject, purpose, rows') == CurrentState(c, tenant, subject, purpose, rows)
  {
    forall i | 0 <= i < |rows|
      ensures ConsentFor(c, tenant, subject, purpose)(rows'[i]) == ConsentFor(c, tenant, subject, purpose)(rows[i])
      ensures rows'[i].timestamp == rows[i].timestamp && rows'[i].action == rows[i].action
    {
      assert ConsentMigrated(c)(rows[i], rows'[i]);
      ConsentKeepsSubject(c, rows[i], rows'[i], tenant, subject);
    }
    LatestAgrees(ConsentFor(c, tenant, subject, purpose), ConsentTime(), rows', rows);
  }

  lemma MappingAnswers(c: PiiCrypto, of: MappingRow -> bool, campaign: string, rows: seq<MappingRow>, rows': seq<MappingRow>)
    requires Enabled(c) && RowWise(MappingMigrated(c), rows, rows')
    requires forall i :: 0 <= i < |rows| ==> of(rows'[i]) == of(rows[i])
    ensures AnswersAlike(c, of, campaign, rows, rows')
  {
    forall i | 0 <= i < |rows|
      ensures rows'[i].confirmedAt == rows[i].confirmedAt && rows'[i].campaignId == rows[i].campaignId
    {
      assert MappingMigrated(c)(rows[i], rows'[i]);
    }
    LatestAgrees(MappingIn(of, campaign), MappingTime(), rows', rows);
    var i := LatestIndex(MappingIn(of, campaign), MappingTime(), rows);
    if i.Some? {
      MappingReadsSurvive(c, rows[i.value], rows'[i.value]);
    }
  }

  /**
   * Rows that fit yet do not survive: a display name that starts with the ciphertext
   * tag is lost to both mapping lookups, and so is a spoken line that does.
   */
  lemma TaggedColumnsAreLost(c: PiiCrypto, subject: string) returns (t: PiiTables, t': PiiTables)
    requires Enabled(c) && !IsCiphertext(subject)
    ensures |t.mappings| == |t'.mappings| == 1 && |t.dialogue| == |t'.dialogue| == 1
    ensures Fits(c, t, subject) && FoundryFits(c, t.mappings[0], subject) && Migrated(c, t, t')
    ensures forall of :: of == MappingOf(c, "t", subject) || of == MappingOfFoundryUser(c, "t", subject) ==>
      CurrentMapping(c, of, "c", t'.mappings) != CurrentMapping(c, of, "c", t.mappings)
    ensures Dialogue(c)(t.dialogue[0]).text != Dialogue(c)(t'.dialogue[0]).text == Some("gcm:hello")
  {
    var m := MappingRow(0, "t", "c", subject, None, Some(subject), None, "actor", Some("gcm:Bob"), "auto", 0);
    var d := DialogueRow(0, "t", "s", subject, None, None, "gcm:hello", 0, "table", "table");
    t := PiiTables([], [m], [d], [], []);
    t' := PiiTables([], [EncryptMapping(c, 0, m)], [EncryptDialogue(c, 3, d)], [], []);
    EncryptionMigratesMapping(c, 0, m);
    EncryptionMigrates(c, 3, d);
  }
}
