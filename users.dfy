/**
 * The user records the auth handlers and the Google strategy read and
 * update. models/User.js is not part of this model: its account-lockout
 * helpers, password comparison and token generators are parameters (a
 * `UserModel`), and a user's id is its position in the store.
 */
module Users {
  import opened Wrappers

  /** The fields of a user document the modelled code reads or writes; times are epoch milliseconds. */
  datatype User = User(
    id: nat,
    name: string,
    email: string,
    /** None for an account created through Google. */
    password: Option<string>,
    role: string,
    isEmailVerified: bool,
    emailVerificationToken: Option<string>,
    emailVerificationExpires: Option<int>,
    passwordResetToken: Option<string>,
    passwordResetExpires: Option<int>,
    loginAttempts: int,
    lockUntil: Option<int>,
    lastLogin: Option<int>,
    googleId: Option<string>,
    googleEmail: Option<string>,
    isGoogleLinked: bool)

  /** The behaviour of models/User.js the handlers call, left uninterpreted. */
  datatype UserModel = UserModel(
    /** `user.comparePassword(candidate)` */
    comparePassword: (User, string) -> bool,
    /** The `isLocked` virtual at time now. */
    isLocked: (User, int) -> bool,
    /** `incLoginAttempts()` at time now: the new (loginAttempts, lockUntil). */
    incLoginAttempts: (User, int) -> (int, Option<int>),
    /** `resetLoginAttempts()`: the new (loginAttempts, lockUntil). */
    resetLoginAttempts: User -> (int, Option<int>),
    /** `generateEmailVerificationToken()` at time now: the token and its expiry. */
    emailVerificationToken: (User, int) -> (string, int),
    /** `generatePasswordResetToken()` at time now: the token and its expiry. */
    passwordResetToken: (User, int) -> (string, int),
    /** The signed access token for a user id. */
    accessToken: nat -> string,
    /** The role a new user gets. */
    defaultRole: string)

  /** The first position whose user satisfies p, as `findOne` returns the first match. */
  function FindFirst(users: seq<User>, p: User -> bool): (r: Option<nat>)
    ensures r.Some? ==> r.value < |users| && p(users[r.value])
    ensures r.Some? ==> forall j :: 0 <= j < r.value ==> !p(users[j])
    ensures r.None? ==> forall j :: 0 <= j < |users| ==> !p(users[j])
  {
    if |users| == 0 then None
    else if p(users[0]) then Some(0)
    else match FindFirst(users[1..], p)
      case None => None
      case Some(k) => Some(k + 1)
  }

  /** The query `{ emailVerificationToken: token, emailVerificationExpires: { $gt: now } }`. */
  predicate EmailTokenMatches(u: User, token: string, now: int) {
    u.emailVerificationToken == Some(token) && u.emailVerificationExpires.Some? && u.emailVerificationExpires.value > now
  }

  /** The query `{ passwordResetToken: token, passwordResetExpires: { $gt: now } }`. */
  predicate ResetTokenMatches(u: User, token: string, now: int) {
    u.passwordResetToken == Some(token) && u.passwordResetExpires.Some? && u.passwordResetExpires.value > now
  }

  /** The users collection. */
  class UserStore {
    var users: seq<User>

    constructor ()
      ensures users == []
    {
      users := [];
    }

    /** Every user sits at the position its id names. */
    predicate Valid()
      reads this
    {
      forall i :: 0 <= i < |users| ==> users[i].id == i
    }

    /** `User.findOne({ email })` */
    function FindByEmail(email: string): (r: Option<nat>)
      reads this
      ensures r.Some? ==> r.value < |users| && users[r.value].email == email
      ensures r.None? <==> forall j :: 0 <= j < |users| ==> users[j].email != email
    {
      FindFirst(users, (u: User) => u.email == email)
    }

    /** `User.findOne({ googleId })` */
    function FindByGoogleId(googleId: string): (r: Option<nat>)
      reads this
      ensures r.Some? ==> r.value < |users| && users[r.value].googleId == Some(googleId)
      ensures r.None? <==> forall j :: 0 <= j < |users| ==> users[j].googleId != Some(googleId)
    {
      FindFirst(users, (u: User) => u.googleId == Some(googleId))
    }

    /** The user verifyEmail finds for token at time now. */
    function FindByEmailToken(token: string, now: int): (r: Option<nat>)
      reads this
      ensures r.Some? ==> r.value < |users| && EmailTokenMatches(users[r.value], token, now)
      ensures r.None? <==> forall j :: 0 <= j < |users| ==> !EmailTokenMatches(users[j], token, now)
    {
      FindFirst(users, (u: User) => EmailTokenMatches(u, token, now))
    }

    /** The user confirmPasswordReset finds for token at time now. */
    function FindByResetToken(token: string, now: int): (r: Option<nat>)
      reads this
      ensures r.Some? ==> r.value < |users| && ResetTokenMatches(users[r.value], token, now)
      ensures r.None? <==> forall j :: 0 <= j < |users| ==> !ResetTokenMatches(users[j], token, now)
    {
      FindFirst(users, (u: User) => ResetTokenMatches(u, token, now))
    }

    /** `user.save()` of a user already stored. */
    method Put(u: User)
      requires Valid() && u.id < |users|
      modifies this
      ensures Valid()
      ensures users == old(users)[u.id := u]
    {
      users := users[u.id := u];
    }

    /** Saving a new user: it gets the next id. */
    method Add(u: User) returns (stored: User)
      requires Valid()
      modifies this
      ensures Valid()
      ensures stored == u.(id := |old(users)|)
      ensures users == old(users) + [stored]
    {
      stored := u.(id := |users|);
      users := users + [stored];
    }
  }
}
