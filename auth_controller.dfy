/**
 * controllers/authController.js: what each auth handler reads, in which
 * order it checks, what it writes to the user and refresh-token stores, and
 * which status and message it ends with. A handler that fails sets the
 * status and throws; `Fail` records that status and the error's message. A
 * handler that dereferences a user that does not exist throws a TypeError:
 * `Crash`. An error thrown with no status set anywhere reaches Express's
 * final handler, which answers 500 because `res.statusCode` is still 200:
 * `Unhandled`. The signed access token, the random refresh-token text and the
 * clock are parameters.
 */
module AuthController {
  import opened Wrappers
  import opened Js
  import opened Users
  import opened RefreshTokens

  datatype Outcome =
    | Ok(status: int, message: string, data: JsValue)
    | Fail(status: int, message: string)
    | Crash
    | Unhandled(status: int)

  const InvalidCredentials := "Invalid credentials"
  const AccountLocked := "Account is temporarily locked due to too many failed login attempts"

  /** The `{ access_token, refresh_token, user: { id, name, email, role } }` of register and login. */
  function AuthData(m: UserModel, u: User, refreshText: string): (d: JsValue)
    ensures Get(d, "access_token") == Str(m.accessToken(u.id))
    ensures Get(d, "refresh_token") == Str(refreshText)
    ensures Get(Get(d, "user"), "id") == Num(u.id) && Get(Get(d, "user"), "email") == Str(u.email)
  {
    Obj(map[
      "access_token" := Str(m.accessToken(u.id)),
      "refresh_token" := Str(refreshText),
      "user" := Obj(map["id" := Num(u.id), "name" := Str(u.name), "email" := Str(u.email), "role" := Str(u.role)])])
  }

  /**
   * The failure a duplicate refresh-token text ends in. The driver's error
   * (code 11000 on `token`) carries no status and the handler set none, and
   * `errorHandler` is never dispatched, so Express's final handler answers 500.
   */
  const DuplicateTokenFailure := Unhandled(500)

  /** The record `User.create({ name, email, password })` stores, before it is given an id. */
  function NewUser(m: UserModel, name: string, email: string, password: string): (u: User)
    ensures u.name == name && u.email == email && u.password == Some(password)
    ensures !u.isEmailVerified && !u.isGoogleLinked && u.loginAttempts == 0
  {
    User(0, name, email, Some(password), m.defaultRole, false, None, None, None, None, 0, None, None, None, None, false)
  }

  /** `register`: refused for a taken email; otherwise one user is added, then a refresh token is issued. */
  method Register(users: UserStore, tokens: TokenStore, m: UserModel,
                  name: string, email: string, password: string,
                  refreshText: string, device: DeviceInfo, now: int)
    returns (o: Outcome)
    requires users.Valid() && tokens.Valid()
    modifies users, tokens
    ensures users.Valid() && tokens.Valid()
    ensures old(users.FindByEmail(email)).Some? ==>
              o == Fail(400, "User already exists") && users.users == old(users.users) && tokens.tokens == old(tokens.tokens)
    ensures old(users.FindByEmail(email)).None? ==>
              var u := NewUser(m, name, email, password).(id := |old(users.users)|);
              && users.users == old(users.users) + [u]
              && (refreshText in old(tokens.tokens) ==> o == DuplicateTokenFailure && tokens.tokens == old(tokens.tokens))
              && (refreshText !in old(tokens.tokens) ==>
                    && o == Ok(201, "User registered successfully", AuthData(m, u, refreshText))
                    && refreshText in tokens.tokens && tokens.tokens[refreshText].user == u.id
                    && tokens.tokens == old(tokens.tokens)[refreshText := tokens.tokens[refreshText]]
                    && tokens.tokens[refreshText].expiresAt == now + TokenLifetime
                    && tokens.tokens[refreshText].IsValid(now))
  {
    if users.FindByEmail(email).Some? {
      return Fail(400, "User already exists");
    }
    var u := users.Add(NewUser(m, name, email, password));
    var r := tokens.CreateToken(refreshText, u.id, Some(device), now);
    if r.Failure? {
      return DuplicateTokenFailure;
    }
    return Ok(201, "User registered successfully", AuthData(m, u, refreshText));
  }

  /** The user record a successful login saves: attempts reset when there were any, then lastLogin stamped. */
  function LoggedIn(m: UserModel, u: User, now: int): (v: User)
    ensures v.lastLogin == Some(now) && v.id == u.id && v.email == u.email && v.password == u.password
    ensures u.loginAttempts > 0 ==> (v.loginAttempts, v.lockUntil) == m.resetLoginAttempts(u)
    ensures u.loginAttempts <= 0 ==> v.loginAttempts == u.loginAttempts && v.lockUntil == u.lockUntil
  {
    var reset := if u.loginAttempts > 0 then
                   var (a, l) := m.resetLoginAttempts(u); u.(loginAttempts := a, lockUntil := l)
                 else u;
    reset.(lastLogin := Some(now))
  }

  /**
   * `login`: an unknown email, then a locked account, then a wrong password
   * fail in this order; only the wrong password touches the account, through
   * incLoginAttempts. A successful login saves LoggedIn and issues a token.
   */
  method Login(users: UserStore, tokens: TokenStore, m: UserModel,
               email: string, password: string, refreshText: string, device: DeviceInfo, now: int)
    returns (o: Outcome)
    requires users.Valid() && tokens.Valid()
    modifies users, tokens
    ensures users.Valid() && tokens.Valid()
    ensures var found := old(users.FindByEmail(email));
            && (found.None? ==>
                  o == Fail(401, InvalidCredentials) && users.users == old(users.users) && tokens.tokens == old(tokens.tokens))
            && (found.Some? && m.isLocked(old(users.users)[found.value], now) ==>
                  o == Fail(423, AccountLocked) && users.users == old(users.users) && tokens.tokens == old(tokens.tokens))
            && (found.Some? && !m.isLocked(old(users.users)[found.value], now)
                && !m.comparePassword(old(users.users)[found.value], password) ==>
                  var u := old(users.users)[found.value];
                  var (a, l) := m.incLoginAttempts(u, now);
                  && o == Fail(401, InvalidCredentials)
                  && users.users == old(users.users)[found.value := u.(loginAttempts := a, lockUntil := l)]
                  && tokens.tokens == old(tokens.tokens))
            && (found.Some? && !m.isLocked(old(users.users)[found.value], now)
                && m.comparePassword(old(users.users)[found.value], password) ==>
                  var u := LoggedIn(m, old(users.users)[found.value], now);
                  && users.users == old(users.users)[found.value := u]
                  && (refreshText in old(tokens.tokens) ==> o == DuplicateTokenFailure && tokens.tokens == old(tokens.tokens))
                  && (refreshText !in old(tokens.tokens) ==>
                        && o == Ok(200, "Login successful", AuthData(m, u, refreshText))
                        && refreshText in tokens.tokens && tokens.tokens[refreshText].user == u.id
                        && tokens.tokens == old(tokens.tokens)[refreshText := tokens.tokens[refreshText]]
                        && tokens.tokens[refreshText].expiresAt == now + TokenLifetime
                        && tokens.tokens[refreshText].IsValid(now)))
  {
    var found := users.FindByEmail(email);
    if found.None? {
      return Fail(401, InvalidCredentials);
    }
    var u := users.users[found.value];
    if m.isLocked(u, now) {
      return Fail(423, AccountLocked);
    }
    if !m.comparePassword(u, password) {
      var (a, l) := m.incLoginAttempts(u, now);
      users.Put(u.(loginAttempts := a, lockUntil := l));
      return Fail(401, InvalidCredentials);
    }
    if u.loginAttempts > 0 {
      var (a, l) := m.resetLoginAttempts(u);
      u := u.(loginAttempts := a, lockUntil := l);
    }
    u := u.(lastLogin := Some(now));
    users.Put(u);
    var r := tokens.CreateToken(refreshText, u.id, Some(device), now);
    if r.Failure? {
      return DuplicateTokenFailure;
    }
    return Ok(200, "Login successful", AuthData(m, u, refreshText));
  }

  /** Whether logout revokes the record stored under k. */
  predicate LogoutTargets(refreshText: Option<string>, k: string) {
    refreshText == Some(k) && k != ""
  }

  /**
   * `logout`: always succeeds; the stored record for a non-empty token is
   * revoked, every other record keeps its flag, and no record is added or removed.
   */
  method Logout(tokens: TokenStore, refreshText: Option<string>) returns (o: Outcome)
    requires tokens.Valid()
    modifies tokens.tokens.Values
    ensures o == Ok(200, "Logged out successfully", EmptyObject)
    ensures tokens.tokens == old(tokens.tokens) && tokens.Valid()
    ensures forall k :: k in tokens.tokens ==>
              tokens.tokens[k].isRevoked == (old(tokens.tokens[k].isRevoked) || LogoutTargets(refreshText, k))
  {
    if refreshText.Some? && refreshText.value != "" {
      var t := tokens.FindOne(refreshText.value);
      if t.Some? {
        t.value.Revoke();
      }
    }
    return Ok(200, "Logged out successfully", EmptyObject);
  }

  /** Logging out twice with the same token leaves the tokens as logging out once does. */
  method LogoutTwice(tokens: TokenStore, refreshText: Option<string>)
    requires tokens.Valid()
    modifies tokens.tokens.Values
    ensures forall k :: k in tokens.tokens ==>
              tokens.tokens[k].isRevoked == (old(tokens.tokens[k].isRevoked) || LogoutTargets(refreshText, k))
  {
    var _ := Logout(tokens, refreshText);
    var _ := Logout(tokens, refreshText);
  }

  /**
   * `refreshToken`: a missing token fails 400, a token that is not valid now
   * fails 401; otherwise a new access token for the token's user is returned.
   * Neither store changes. A token whose user no longer exists makes the
   * handler read `_id` of null.
   */
  method Refresh(users: UserStore, tokens: TokenStore, m: UserModel, refreshText: Option<string>, now: int)
    returns (o: Outcome)
    ensures refreshText.None? || refreshText.value == "" ==> o == Fail(400, "Refresh token is required")
    ensures refreshText.Some? && refreshText.value != "" ==>
              var found := tokens.FindValidToken(refreshText.value, now);
              && (found.None? ==> o == Fail(401, "Invalid or expired refresh token"))
              && (found.Some? && found.value.user >= |users.users| ==> o == Crash)
              && (found.Some? && found.value.user < |users.users| ==>
                    o == Ok(200, "Token refreshed successfully",
                            Obj(map["access_token" := Str(m.accessToken(found.value.user))])))
  {
    if refreshText.None? || refreshText.value == "" {
      return Fail(400, "Refresh token is required");
    }
    var found := tokens.FindValidToken(refreshText.value, now);
    if found.None? {
      return Fail(401, "Invalid or expired refresh token");
    }
    if found.value.user >= |users.users| {
      return Crash;
    }
    return Ok(200, "Token refreshed successfully", Obj(map["access_token" := Str(m.accessToken(found.value.user))]));
  }

  /** A revoked token is refused by the refresh handler at any time. */
  lemma RefreshRefusesRevoked(tokens: TokenStore, k: string, now: int)
    requires k in tokens.tokens && tokens.tokens[k].isRevoked
    ensures tokens.FindValidToken(k, now).None?
  {
  }

  /** `verifyEmail`: the first user holding token with an expiry after now is verified and the token consumed. */
  method VerifyEmail(users: UserStore, token: string, now: int) returns (o: Outcome)
    requires users.Valid()
    modifies users
    ensures users.Valid()
    ensures var found := old(users.FindByEmailToken(token, now));
            && (found.None? ==> o == Fail(400, "Invalid or expired verification token") && users.users == old(users.users))
            && (found.Some? ==>
                  && o == Ok(200, "Email verified successfully", EmptyObject)
                  && users.users == old(users.users)[found.value := old(users.users)[found.value].(
                       isEmailVerified := true, emailVerificationToken := None, emailVerificationExpires := None)])
  {
    var found := users.FindByEmailToken(token, now);
    if found.None? {
      return Fail(400, "Invalid or expired verification token");
    }
    var u := users.users[found.value];
    users.Put(u.(isEmailVerified := true, emailVerificationToken := None, emailVerificationExpires := None));
    return Ok(200, "Email verified successfully", EmptyObject);
  }

  /** No two users hold the same live verification token. */
  predicate EmailTokenUnique(users: seq<User>, token: string, now: int) {
    forall i, j :: 0 <= i < j < |users| && EmailTokenMatches(users[i], token, now) ==> !EmailTokenMatches(users[j], token, now)
  }

  /** A verification token is good for one use: the same token is refused the second time. */
  method VerifyEmailOnce(users: UserStore, token: string, now: int, later: int) returns (first: Outcome, second: Outcome)
    requires users.Valid() && EmailTokenUnique(users.users, token, now) && later >= now
    modifies users
    ensures first.Ok? ==> second == Fail(400, "Invalid or expired verification token")
  {
    first := VerifyEmail(users, token, now);
    ghost var before := users.users;
    second := VerifyEmail(users, token, later);
    if first.Ok? {
      forall j | 0 <= j < |before| ensures !EmailTokenMatches(before[j], token, later) {
      }
    }
  }

  /**
   * `resendEmailVerification` for the signed-in user id: an already verified
   * user fails 400; otherwise a fresh token and expiry are stored.
   */
  method ResendEmailVerification(users: UserStore, m: UserModel, userId: nat, now: int) returns (o: Outcome)
    requires users.Valid()
    modifies users
    ensures users.Valid()
    ensures userId >= |old(users.users)| ==> o == Crash && users.users == old(users.users)
    ensures userId < |old(users.users)| ==>
              var u := old(users.users)[userId];
              && (u.isEmailVerified ==> o == Fail(400, "Email is already verified") && users.users == old(users.users))
              && (!u.isEmailVerified ==>
                    var (t, e) := m.emailVerificationToken(u, now);
                    && o == Ok(200, "Verification email sent", EmptyObject)
                    && users.users == old(users.users)[userId := u.(emailVerificationToken := Some(t), emailVerificationExpires := Some(e))])
  {
    if userId >= |users.users| {
      return Crash;
    }
    var u := users.users[userId];
    if u.isEmailVerified {
      return Fail(400, "Email is already verified");
    }
    var (t, e) := m.emailVerificationToken(u, now);
    users.Put(u.(emailVerificationToken := Some(t), emailVerificationExpires := Some(e)));
    return Ok(200, "Verification email sent", EmptyObject);
  }

  /** `resetPassword`: an unknown email fails 404; otherwise a reset token and expiry are stored. */
  method ResetPassword(users: UserStore, m: UserModel, email: string, now: int) returns (o: Outcome)
    requires users.Valid()
    modifies users
    ensures users.Valid()
    ensures var found := old(users.FindByEmail(email));
            && (found.None? ==> o == Fail(404, "User not found") && users.users == old(users.users))
            && (found.Some? ==>
                  var u := old(users.users)[found.value];
                  var (t, e) := m.passwordResetToken(u, now);
                  && o == Ok(200, "Password reset email sent", EmptyObject)
                  && users.users == old(users.users)[found.value := u.(passwordResetToken := Some(t), passwordResetExpires := Some(e))])
  {
    var found := users.FindByEmail(email);
    if found.None? {
      return Fail(404, "User not found");
    }
    var u := users.users[found.value];
    var (t, e) := m.passwordResetToken(u, now);
    users.Put(u.(passwordResetToken := Some(t), passwordResetExpires := Some(e)));
    return Ok(200, "Password reset email sent", EmptyObject);
  }

  /** `confirmPasswordReset`: the first user holding a live reset token gets the new password and the token is consumed. */
  method ConfirmPasswordReset(users: UserStore, token: string, password: string, now: int) returns (o: Outcome)
    requires users.Valid()
    modifies users
    ensures users.Valid()
    ensures var found := old(users.FindByResetToken(token, now));
            && (found.None? ==> o == Fail(400, "Invalid or expired reset token") && users.users == old(users.users))
            && (found.Some? ==>
                  var u := old(users.users)[found.value];
                  && o == Ok(200, "Password reset successfully", EmptyObject)
                  && users.users == old(users.users)[found.value :=
                       u.(password := Some(password), passwordResetToken := None, passwordResetExpires := None)])
  {
    var found := users.FindByResetToken(token, now);
    if found.None? {
      return Fail(400, "Invalid or expired reset token");
    }
    var u := users.users[found.value];
    users.Put(u.(password := Some(password), passwordResetToken := None, passwordResetExpires := None));
    return Ok(200, "Password reset successfully", EmptyObject);
  }

  /** No two users hold the same live reset token. */
  predicate ResetTokenUnique(users: seq<User>, token: string, now: int) {
    forall i, j :: 0 <= i < j < |users| && ResetTokenMatches(users[i], token, now) ==> !ResetTokenMatches(users[j], token, now)
  }

  /** A reset token is good for one use. */
  method ConfirmPasswordResetOnce(users: UserStore, token: string, p1: string, p2: string, now: int, later: int)
    returns (first: Outcome, second: Outcome)
    requires users.Valid() && ResetTokenUnique(users.users, token, now) && later >= now
    modifies users
    ensures first.Ok? ==> second == Fail(400, "Invalid or expired reset token")
  {
    first := ConfirmPasswordReset(users, token, p1, now);
    ghost var before := users.users;
    second := ConfirmPasswordReset(users, token, p2, later);
    if first.Ok? {
      forall j | 0 <= j < |before| ensures !ResetTokenMatches(before[j], token, later) {
      }
    }
  }

  /** `changePassword` for the signed-in user id: the new password is stored only when the current one matches. */
  method ChangePassword(users: UserStore, m: UserModel, userId: nat, current: string, newPassword: string)
    returns (o: Outcome)
    requires users.Valid()
    modifies users
    ensures users.Valid()
    ensures userId >= |old(users.users)| ==> o == Crash && users.users == old(users.users)
    ensures userId < |old(users.users)| ==>
              var u := old(users.users)[userId];
              && (!m.comparePassword(u, current) ==>
                    o == Fail(400, "Current password is incorrect") && users.users == old(users.users))
              && (m.comparePassword(u, current) ==>
                    o == Ok(200, "Password changed successfully", EmptyObject)
                    && users.users == old(users.users)[userId := u.(password := Some(newPassword))])
  {
    if userId >= |users.users| {
      return Crash;
    }
    var u := users.users[userId];
    if !m.comparePassword(u, current) {
      return Fail(400, "Current password is incorrect");
    }
    users.Put(u.(password := Some(newPassword)));
    return Ok(200, "Password changed successfully", EmptyObject);
  }
}
