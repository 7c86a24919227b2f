/**
 * config/passport.js: the check that the Google OAuth settings are present,
 * and the Google strategy's choice between an account already holding the
 * Google id, an account with the same email, and a new account.
 */
module Passport {
  import opened Wrappers
  import opened Users

  const RequiredOAuthKeys: seq<string> := ["GOOGLE_CLIENT_ID", "GOOGLE_CLIENT_SECRET", "GOOGLE_CALLBACK_URL"]

  /** `!process.env[key]`: the variable is unset or empty. */
  predicate Unset(env: map<string, string>, key: string) {
    key !in env || env[key] == ""
  }

  /** `keys.filter(key => !process.env[key])` */
  function MissingKeys(env: map<string, string>, keys: seq<string>): (missing: seq<string>)
    ensures |missing| <= |keys|
    ensures forall k :: k in missing <==> k in keys && Unset(env, k)
  {
    if |keys| == 0 then []
    else (if Unset(env, keys[0]) then [keys[0]] else []) + MissingKeys(env, keys[1..])
  }

  /** `validateGoogleOAuthConfig()` over the environment env. */
  function ValidateGoogleOAuthConfig(env: map<string, string>): (ok: bool)
    ensures ok <==> forall k :: k in RequiredOAuthKeys ==> !Unset(env, k)
  {
    var missing := MissingKeys(env, RequiredOAuthKeys);
    assert |missing| > 0 ==> missing[0] in missing;
    |missing| == 0
  }

  /** All three settings present, and only then, enable the strategy. */
  lemma {:induction false} ConfigNeedsAllThree(env: map<string, string>)
    ensures ValidateGoogleOAuthConfig(env) <==>
              !Unset(env, "GOOGLE_CLIENT_ID") && !Unset(env, "GOOGLE_CLIENT_SECRET") && !Unset(env, "GOOGLE_CALLBACK_URL")
  {
    assert RequiredOAuthKeys[0] == "GOOGLE_CLIENT_ID";
    assert RequiredOAuthKeys[1] == "GOOGLE_CLIENT_SECRET";
    assert RequiredOAuthKeys[2] == "GOOGLE_CALLBACK_URL";
  }

  /** The parts of the Google profile the strategy reads; `emails` holds the `value`s in order. */
  datatype Profile = Profile(id: string, displayName: string, emails: seq<string>)

  /** The account created for a profile nobody holds: linked, verified, and without a password. */
  function GoogleUser(p: Profile, email: string, role: string): (u: User)
    ensures u.googleId == Some(p.id) && u.googleEmail == Some(email) && u.isGoogleLinked
    ensures u.name == p.displayName && u.email == email && u.isEmailVerified && u.password.None?
  {
    User(0, p.displayName, email, None, role, true, None, None, None, None, 0, None, None, Some(p.id), Some(email), true)
  }

  function GoogleIdMatch(users: seq<User>, p: Profile): Option<nat> {
    FindFirst(users, (u: User) => u.googleId == Some(p.id))
  }

  function EmailMatch(users: seq<User>, email: string): Option<nat> {
    FindFirst(users, (u: User) => u.email == email)
  }

  /** The message of the TypeError `profile.emails[0].value` throws when the profile has no email. */
  const NoEmailError := "Cannot read properties of undefined (reading 'value')"

  /**
   * The strategy callback as a function of the stored users: the users
   * afterwards, and the id handed to done (or the error).
   */
  function AfterGoogleLogin(users: seq<User>, p: Profile, role: string): (r: (seq<User>, Result<nat, string>))
    ensures r.1.Failure? ==> r.0 == users && |p.emails| == 0 && r.1.error == NoEmailError
  {
    match GoogleIdMatch(users, p)
    case Some(i) =>
      if users[i].isGoogleLinked then (users, Success(i))
      else if |p.emails| == 0 then (users, Failure(NoEmailError))
      else (users[i := users[i].(isGoogleLinked := true, googleEmail := Some(p.emails[0]))], Success(i))
    case None =>
      if |p.emails| == 0 then (users, Failure(NoEmailError))
      else match EmailMatch(users, p.emails[0])
        case Some(j) =>
          (users[j := users[j].(googleId := Some(p.id), googleEmail := Some(p.emails[0]), isGoogleLinked := true)], Success(j))
        case None =>
          (users + [GoogleUser(p, p.emails[0], role).(id := |users|)], Success(|users|))
  }

  /** `GoogleStrategy`'s verify callback over the store; `role` is the role User.js gives a new account. */
  method GoogleVerify(store: UserStore, p: Profile, role: string) returns (r: Result<nat, string>)
    requires store.Valid()
    modifies store
    ensures store.Valid()
    ensures (store.users, r) == AfterGoogleLogin(old(store.users), p, role)
  {
    var byId := store.FindByGoogleId(p.id);
    if byId.Some? {
      var u := store.users[byId.value];
      if !u.isGoogleLinked {
        if |p.emails| == 0 {
          return Failure(NoEmailError);
        }
        store.Put(u.(isGoogleLinked := true, googleEmail := Some(p.emails[0])));
      }
      return Success(byId.value);
    }
    if |p.emails| == 0 {
      return Failure(NoEmailError);
    }
    var byEmail := store.FindByEmail(p.emails[0]);
    if byEmail.Some? {
      var u := store.users[byEmail.value];
      store.Put(u.(googleId := Some(p.id), googleEmail := Some(p.emails[0]), isGoogleLinked := true));
      return Success(byEmail.value);
    }
    var created := store.Add(GoogleUser(p, p.emails[0], role));
    return Success(created.id);
  }

  /** An account holding the Google id wins over one holding the email, whoever that is. */
  lemma GoogleIdTakesPriority(users: seq<User>, p: Profile, role: string, i: nat)
    requires i < |users| && users[i].googleId == Some(p.id)
    requires forall k :: 0 <= k < i ==> users[k].googleId != Some(p.id)
    ensures var (after, r) := AfterGoogleLogin(users, p, role);
            && (r.Success? ==> r.value == i)
            && |after| == |users|
            && (users[i].isGoogleLinked ==> after == users && r == Success(i))
            && (!users[i].isGoogleLinked && |p.emails| > 0 ==>
                  after == users[i := users[i].(isGoogleLinked := true, googleEmail := Some(p.emails[0]))])
  {
  }

  /** With no account holding the Google id, the first account with the profile's email is linked and nothing else moves. */
  lemma LinksByEmail(users: seq<User>, p: Profile, role: string)
    requires GoogleIdMatch(users, p).None? && |p.emails| > 0
    requires EmailMatch(users, p.emails[0]).Some?
    ensures var j := EmailMatch(users, p.emails[0]).value;
            var (after, r) := AfterGoogleLogin(users, p, role);
            && r == Success(j) && users[j].email == p.emails[0]
            && |after| == |users|
            && after[j] == users[j].(googleId := Some(p.id), googleEmail := Some(p.emails[0]), isGoogleLinked := true)
            && forall k :: 0 <= k < |users| && k != j ==> after[k] == users[k]
  {
  }

  /** With no account holding the Google id or the email, exactly one account is added. */
  lemma CreatesWhenUnknown(users: seq<User>, p: Profile, role: string)
    requires |p.emails| > 0
    requires forall k :: 0 <= k < |users| ==> users[k].googleId != Some(p.id) && users[k].email != p.emails[0]
    ensures var (after, r) := AfterGoogleLogin(users, p, role);
            && r == Success(|users|)
            && after == users + [GoogleUser(p, p.emails[0], role).(id := |users|)]
  {
  }

  /** The callback adds at most one account, only when it creates one, and names an account that exists. */
  lemma {:induction false} AtMostOneNewUser(users: seq<User>, p: Profile, role: string)
    ensures var (after, r) := AfterGoogleLogin(users, p, role);
            && |users| <= |after| <= |users| + 1
            && (|after| == |users| + 1 ==> after[..|users|] == users)
            && (|after| == |users| + 1 <==> r == Success(|users|) && GoogleIdMatch(users, p).None?
                                              && |p.emails| > 0 && EmailMatch(users, p.emails[0]).None?)
            && (r.Success? ==> r.value < |after|)
  {
    var m := GoogleIdMatch(users, p);
    if m.None? && |p.emails| > 0 {
      var e := EmailMatch(users, p.emails[0]);
      if e.Some? {
        assert e.value < |users|;
      }
    }
  }

  /** A profile without any email fails unless an already linked account holds its Google id. */
  lemma NoEmailFails(users: seq<User>, p: Profile, role: string)
    requires |p.emails| == 0
    ensures var (after, r) := AfterGoogleLogin(users, p, role);
            && after == users
            && (r.Failure? <==> GoogleIdMatch(users, p).None? || !users[GoogleIdMatch(users, p).value].isGoogleLinked)
  {
  }
}
