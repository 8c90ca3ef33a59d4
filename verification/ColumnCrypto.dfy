/** The contract of per-column encryption and of player tokens (server/src/column_crypto.ts, server/src/audience.ts). */
module ColumnCrypto {
  import opened Options

  const CIPHERTEXT_PREFIX := "gcm:"
  const PLAYER_PREFIX := "player:"

  /**
   * `enc` takes the random nonce as its first argument; `dec` yields nothing when
   * decryption fails. The cipher and the hash themselves are left open.
   */
  datatype PiiCrypto = PiiCrypto(enc: (nat, string) -> string, dec: string -> Option<string>, hash: string -> string)

  predicate IsCiphertext(value: string)
  {
    CIPHERTEXT_PREFIX <= value
  }

  predicate IsHashedToken(suffix: string)
  {
    |suffix| == 64 && forall i :: 0 <= i < 64 ==> '0' <= suffix[i] <= '9' || 'a' <= suffix[i] <= 'f'
  }

  /**
   * Encryption is switched on: ciphertext is tagged and decrypts, plaintext passes,
   * hashes are 64 hex digits. Tagged text is longer than what it decrypts to, so
   * it never decrypts to itself.
   */
  ghost predicate Enabled(c: PiiCrypto)
  {
    && (forall n, p :: IsCiphertext(c.enc(n, p)) && c.dec(c.enc(n, p)) == Some(p))
    && (forall s :: if IsCiphertext(s) then c.dec(s) != Some(s) else c.dec(s) == Some(s))
    && (forall s :: IsHashedToken(c.hash(s)))
  }

  /** `stored` is some encryption of `plain`. */
  predicate Seals(c: PiiCrypto, stored: string, plain: string)
  {
    IsCiphertext(stored) && c.dec(stored) == Some(plain)
  }

  predicate IsPlayerScoped(value: string)
  {
    PLAYER_PREFIX <= value && |value| > |PLAYER_PREFIX|
  }

  function PlayerIdOf(value: string): Option<string>
  {
    if IsPlayerScoped(value) then Some(value[|PLAYER_PREFIX|..]) else None
  }

  function PlayerAudience(c: PiiCrypto, discordId: string): string
  {
    PLAYER_PREFIX + c.hash(discordId)
  }

  /** `player:<rawId>` becomes `player:<hash>`; hashed and non-player tokens stay. */
  function RewriteToken(c: PiiCrypto, token: string): string
  {
    var suffix := PlayerIdOf(token);
    if suffix.None? || IsHashedToken(suffix.value) then token else PlayerAudience(c, suffix.value)
  }

  lemma TokenSuffix(suffix: string)
    ensures |suffix| > 0 ==> PlayerIdOf(PLAYER_PREFIX + suffix) == Some(suffix)
    ensures |suffix| == 0 ==> PlayerIdOf(PLAYER_PREFIX + suffix) == None
  {
    var t := PLAYER_PREFIX + suffix;
    assert t[..|PLAYER_PREFIX|] == PLAYER_PREFIX && t[|PLAYER_PREFIX|..] == suffix;
  }

  lemma TokenParts(token: string)
    requires IsPlayerScoped(token)
    ensures token == PLAYER_PREFIX + PlayerIdOf(token).value
  {
    assert token == token[..|PLAYER_PREFIX|] + token[|PLAYER_PREFIX|..];
  }

  lemma SameSuffix(a: string, b: string)
    requires PLAYER_PREFIX + a == PLAYER_PREFIX + b
    ensures a == b
  {
    assert (PLAYER_PREFIX + a)[|PLAYER_PREFIX|..] == a && (PLAYER_PREFIX + b)[|PLAYER_PREFIX|..] == b;
  }

  /** No token is ever hashed twice. */
  lemma RewriteOnce(c: PiiCrypto, token: string)
    requires Enabled(c)
    ensures RewriteToken(c, RewriteToken(c, token)) == RewriteToken(c, token)
  {
    var suffix := PlayerIdOf(token);
    if suffix.Some? && !IsHashedToken(suffix.value) {
      assert IsHashedToken(c.hash(suffix.value));
      TokenSuffix(c.hash(suffix.value));
    }
  }

  /** Hashing tells the player named in a raw token apart from `subject`. */
  predicate TokenTellsApart(c: PiiCrypto, token: string, subject: string)
  {
    var suffix := PlayerIdOf(token);
    suffix.Some? && !IsHashedToken(suffix.value) && c.hash(suffix.value) == c.hash(subject) ==> suffix.value == subject
  }

  predicate Names(c: PiiCrypto, token: string, subject: string)
  {
    token == PlayerAudience(c, subject) || token == PLAYER_PREFIX + subject
  }

  /** The token names, by raw id, a player whose hash is the very string `subject`. */
  predicate HashesOnto(c: PiiCrypto, token: string, subject: string)
  {
    var suffix := PlayerIdOf(token);
    suffix.Some? && !IsHashedToken(suffix.value) && c.hash(suffix.value) == subject
  }

  /**
   * After the rewrite a token names `subject` exactly when it did before or its
   * player hashes onto that string; a raw token then names it by hash alone.
   */
  lemma RewriteMatches(c: PiiCrypto, token: string, subject: string)
    requires Enabled(c) && TokenTellsApart(c, token, subject)
    ensures var t := RewriteToken(c, token);
      && (Names(c, t, subject) <==> Names(c, token, subject) || HashesOnto(c, token, subject))
      && (|subject| > 0 && !IsHashedToken(subject) ==> (t == PlayerAudience(c, subject) <==> Names(c, token, subject)))
  {
    assert IsHashedToken(c.hash(subject));
    TokenSuffix(subject);
    TokenSuffix(c.hash(subject));
    var suffix := PlayerIdOf(token);
    if suffix.Some? {
      TokenParts(token);
      if !IsHashedToken(suffix.value) {
        var hashed := c.hash(suffix.value);
        assert IsHashedToken(hashed);
        if RewriteToken(c, token) == PLAYER_PREFIX + subject { SameSuffix(hashed, subject); }
        if RewriteToken(c, token) == PlayerAudience(c, subject) { SameSuffix(hashed, c.hash(subject)); }
      }
    }
  }
}
