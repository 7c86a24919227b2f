/**
 * models/RefreshToken.js: a refresh token lives seven days from its
 * creation, may be revoked, and is valid while neither has happened. Times
 * are milliseconds since the epoch; the clock reading `now` is a parameter
 * and the random token text is chosen by the caller.
 */
module RefreshTokens {
  import opened Wrappers

  /** 7 * 24 * 60 * 60 * 1000 */
  const TokenLifetime := 604800000

  /** `deviceInfo`: the client's User-Agent header and address, when known. */
  datatype DeviceInfo = DeviceInfo(userAgent: Option<string>, ip: Option<string>)

  class RefreshToken {
    const token: string
    /** The id of the user the token was issued to. */
    const user: nat
    const expiresAt: int
    const deviceInfo: DeviceInfo
    const createdAt: int
    var isRevoked: bool

    /** The record `createToken(userId, deviceInfo = {})` stores at time now. */
    constructor (token: string, user: nat, deviceInfo: Option<DeviceInfo>, now: int)
      ensures this.token == token && this.user == user
      ensures expiresAt == now + TokenLifetime && createdAt == now
      ensures this.deviceInfo == (if deviceInfo.Some? then deviceInfo.value else DeviceInfo(None, None))
      ensures !isRevoked
    {
      this.token := token;
      this.user := user;
      this.expiresAt := now + TokenLifetime;
      this.deviceInfo := if deviceInfo.Some? then deviceInfo.value else DeviceInfo(None, None);
      this.createdAt := now;
      this.isRevoked := false;
    }

    /** `isValid()` at time now: not revoked and not yet expired. */
    predicate IsValid(now: int)
      reads this
    {
      !isRevoked && expiresAt > now
    }

    /** `revoke()`: the flag is set, whatever it was; nothing else changes. */
    method Revoke()
      modifies this
      ensures isRevoked
    {
      isRevoked := true;
    }
  }

  /** A token created at time created is no longer valid from seven days later on. */
  lemma ExpiresAfterLifetime(t: RefreshToken, created: int, now: int)
    requires t.expiresAt == created + TokenLifetime
    ensures t.IsValid(now) ==> now < created + TokenLifetime
    ensures now >= created + TokenLifetime ==> !t.IsValid(now)
  {
  }

  /** A token that is not revoked stays valid up to, and not including, its expiry. */
  lemma ValidUntilExpiry(t: RefreshToken, created: int, now: int)
    requires t.expiresAt == created + TokenLifetime && !t.isRevoked
    requires created <= now < created + TokenLifetime
    ensures t.IsValid(now)
  {
  }

  /** A revoked token is valid at no time at all. */
  lemma RevokedNeverValid(t: RefreshToken)
    requires t.isRevoked
    ensures forall now :: !t.IsValid(now)
  {
  }

  /** With the flag unchanged, an invalid token stays invalid as time goes on. */
  lemma InvalidStaysInvalid(t: RefreshToken, earlier: int, later: int)
    requires earlier <= later && !t.IsValid(earlier)
    ensures !t.IsValid(later)
  {
  }

  /** Revoking twice leaves the token as revoking once does. */
  method RevokeTwice(t: RefreshToken)
    modifies t
    ensures t.isRevoked
    ensures forall now :: !t.IsValid(now)
  {
    t.Revoke();
    t.Revoke();
    RevokedNeverValid(t);
  }

  datatype StoreError = DuplicateToken

  /** The refresh-token collection, indexed by the unique token text. */
  class TokenStore {
    var tokens: map<string, RefreshToken>

    constructor ()
      ensures tokens == map[]
    {
      tokens := map[];
    }

    /** Every record is filed under its own token text. */
    predicate Valid()
      reads this, tokens.Values
    {
      forall k :: k in tokens ==> tokens[k].token == k
    }

    /** `RefreshToken.findOne({ token })` */
    function FindOne(token: string): (r: Option<RefreshToken>)
      reads this
      ensures r.Some? <==> token in tokens
      ensures r.Some? ==> r.value == tokens[token]
    {
      if token in tokens then Some(tokens[token]) else None
    }

    /** `findValidToken(token)` at time now: the query `{ token, isRevoked: false, expiresAt: { $gt: now } }`. */
    function FindValidToken(token: string, now: int): (r: Option<RefreshToken>)
      reads this, tokens.Values
      ensures r.Some? <==> token in tokens && !tokens[token].isRevoked && tokens[token].expiresAt > now
      ensures r.Some? ==> r.value == tokens[token]
      ensures r.Some? && Valid() ==> r.value.token == token
    {
      if token in tokens && !tokens[token].isRevoked && tokens[token].expiresAt > now then Some(tokens[token]) else None
    }

    /** `createToken(userId, deviceInfo)` with the generated text token at time now: refused when the text is taken. */
    method CreateToken(token: string, user: nat, deviceInfo: Option<DeviceInfo>, now: int)
      returns (r: Result<RefreshToken, StoreError>)
      requires Valid()
      modifies this
      ensures Valid()
      ensures token in old(tokens) ==> r == Failure(DuplicateToken) && tokens == old(tokens)
      ensures token !in old(tokens) ==>
                && r.Success? && fresh(r.value)
                && tokens == old(tokens)[token := r.value]
                && r.value.token == token && r.value.user == user
                && r.value.expiresAt == now + TokenLifetime && !r.value.isRevoked
    {
      if token in tokens {
        return Failure(DuplicateToken);
      }
      var t := new RefreshToken(token, user, deviceInfo, now);
      tokens := tokens[token := t];
      return Success(t);
    }
  }

  /** findValidToken finds exactly the stored record for the text when that record is valid. */
  lemma FindValidIsFindOneAndValid(s: TokenStore, token: string, now: int)
    requires s.Valid()
    ensures s.FindValidToken(token, now).Some? <==> s.FindOne(token).Some? && s.FindOne(token).value.IsValid(now)
    ensures s.FindValidToken(token, now).Some? ==> s.FindValidToken(token, now) == s.FindOne(token)
  {
  }

  /** A freshly created token is found valid for its whole lifetime and never after it. */
  method CreateThenFind(s: TokenStore, token: string, user: nat, now: int, later: int)
    requires s.Valid() && token !in s.tokens && now <= later
    modifies s
    ensures s.Valid()
    ensures s.FindValidToken(token, later).Some? <==> later < now + TokenLifetime
  {
    var r := s.CreateToken(token, user, None, now);
  }
}
