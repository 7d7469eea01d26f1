/** Google sign-in: whether it is enabled, and the verify callback that finds,
    links or creates the local account for a Google profile. */
module PassportConfig {
  import opened JsText

  /** Google sign-in is enabled only when both credentials are set and each is
      longer than 20 characters. */
  predicate IsGoogleConfigured(clientId: Option<string>, clientSecret: Option<string>) {
    Truthy(clientId) && Truthy(clientSecret) && |clientId.value| > 20 && |clientSecret.value| > 20
  }

  /** Placeholder credentials (empty or short) leave Google sign-in off. */
  lemma ShortCredentialsDisable(clientId: Option<string>, clientSecret: Option<string>)
    requires clientId.None? || clientSecret.None? || |clientId.value| <= 20 || |clientSecret.value| <= 20
    ensures !IsGoogleConfigured(clientId, clientSecret)
  {
  }

  datatype GoogleProfile = GoogleProfile(id: string, displayName: string, emails: seq<string>, photos: seq<string>)

  datatype Account = Account(
    id: string, name: string, email: string, googleId: Option<string>, avatar: Option<string>)

  /** What the callback hands to `done`: the user, or an error. */
  datatype Verdict = Authenticated(user: Account) | Failed

  function IndexWhere(users: seq<Account>, googleId: Option<string>, email: Option<string>): (r: Option<nat>)
    ensures r.Some? ==> r.value < |users| && Matches(users[r.value], googleId, email)
    ensures r.Some? ==> forall j :: 0 <= j < r.value ==> !Matches(users[j], googleId, email)
    ensures r.None? ==> forall j :: 0 <= j < |users| ==> !Matches(users[j], googleId, email)
  {
    if users == [] then None
    else if Matches(users[0], googleId, email) then Some(0)
    else match IndexWhere(users[1..], googleId, email)
      case None => None
      case Some(k) => Some(k + 1)
  }

  /** A lookup either by googleId (`email` None) or by email (`googleId` None). */
  predicate Matches(u: Account, googleId: Option<string>, email: Option<string>) {
    (googleId.Some? && u.googleId == googleId) || (email.Some? && u.email == email.value)
  }

  /** The outcome of the verify callback on a store, as a verdict and the new store.
      `newId` is the id the store gives a created user. */
  function Resolve(users: seq<Account>, p: GoogleProfile, newId: string): (r: (Verdict, seq<Account>))
  {
    match IndexWhere(users, Some(p.id), None)
    case Some(k) => (Authenticated(users[k]), users)
    case None =>
      if p.emails == [] then (Failed, users)
      else match IndexWhere(users, None, Some(p.emails[0]))
        case Some(k) =>
          var linked := users[k].(googleId := Some(p.id));
          (Authenticated(linked), users[k := linked])
        case None =>
          if p.photos == [] then (Failed, users)
          else
            var created := Account(newId, p.displayName, p.emails[0], Some(p.id), Some(p.photos[0]));
            (Authenticated(created), users + [created])
  }

  /** The lookup order: an account already linked to the Google id wins, unchanged;
      failing that the first account with the profile's first email is linked;
      failing that a new account is created from the profile.  A profile without
      an email, or one that needs a new account and has no photo, makes the
      callback throw (`profile.emails[0].value` or `profile.photos[0].value` on
      an empty list) and fails with the store unchanged. */
  lemma ResolveOrder(users: seq<Account>, p: GoogleProfile, newId: string)
    ensures IndexWhere(users, Some(p.id), None).Some? ==>
      Resolve(users, p, newId) == (Authenticated(users[IndexWhere(users, Some(p.id), None).value]), users)
    ensures IndexWhere(users, Some(p.id), None).None? && p.emails != [] && IndexWhere(users, None, Some(p.emails[0])).Some? ==>
      var k := IndexWhere(users, None, Some(p.emails[0])).value;
      var linked := users[k].(googleId := Some(p.id));
      Resolve(users, p, newId) == (Authenticated(linked), users[k := linked])
    ensures IndexWhere(users, Some(p.id), None).None? && p.emails != [] && IndexWhere(users, None, Some(p.emails[0])).None?
            && p.photos != [] ==>
      var created := Account(newId, p.displayName, p.emails[0], Some(p.id), Some(p.photos[0]));
      Resolve(users, p, newId) == (Authenticated(created), users + [created])
    ensures Resolve(users, p, newId).0.Failed? <==>
      IndexWhere(users, Some(p.id), None).None?
      && (p.emails == [] || (IndexWhere(users, None, Some(p.emails[0])).None? && p.photos == []))
    ensures Resolve(users, p, newId).0.Authenticated? ==> Resolve(users, p, newId).0.user.googleId == Some(p.id)
    ensures Resolve(users, p, newId).0.Failed? ==> Resolve(users, p, newId).1 == users
  {
  }

  /** Once a profile has been resolved, resolving it again finds the same account
      by its Google id and changes nothing: linking and creating happen once. */
  lemma ResolveIsStable(users: seq<Account>, p: GoogleProfile, newId: string, laterId: string)
    requires Resolve(users, p, newId).0.Authenticated?
    ensures var (v, after) := Resolve(users, p, newId);
      Resolve(after, p, laterId) == (v, after)
  {
    var (v, after) := Resolve(users, p, newId);
    match IndexWhere(users, Some(p.id), None)
    case Some(k) =>
    case None =>
      match IndexWhere(users, None, Some(p.emails[0]))
      case Some(k) =>
        assert forall j :: 0 <= j < k ==> after[j] == users[j];
        FirstMatch(after, Some(p.id), k);
      case None =>
        FirstMatch(after, Some(p.id), |users|);
  }

  lemma {:induction false} FirstMatch(users: seq<Account>, googleId: Option<string>, k: nat)
    requires k < |users| && Matches(users[k], googleId, None)
    requires forall j :: 0 <= j < k ==> !Matches(users[j], googleId, None)
    ensures IndexWhere(users, googleId, None) == Some(k)
  {
    if k > 0 {
      FirstMatch(users[1..], googleId, k - 1);
    }
  }

  /** The user store the callback reads and writes. */
  class UserStore {
    var users: seq<Account>

    constructor (users: seq<Account>)
      ensures this.users == users
    {
      this.users := users;
    }

    /** The verify callback: `storeUp` false stands for a query or save that throws,
        which reaches `done(error, null)` with nothing changed. */
    method Verify(p: GoogleProfile, newId: string, storeUp: bool) returns (v: Verdict)
      modifies this
      ensures storeUp ==> (v, users) == Resolve(old(users), p, newId)
      ensures !storeUp ==> v == Failed && users == old(users)
    {
      if !storeUp {
        return Failed;
      }
      var byGoogle := IndexWhere(users, Some(p.id), None);
      if byGoogle.Some? {
        return Authenticated(users[byGoogle.value]);
      }
      if p.emails == [] {
        return Failed;
      }
      var byEmail := IndexWhere(users, None, Some(p.emails[0]));
      if byEmail.Some? {
        var k := byEmail.value;
        var linked := users[k].(googleId := Some(p.id));
        users := users[k := linked];
        return Authenticated(linked);
      }
      if p.photos == [] {
        return Failed;
      }
      var created := Account(newId, p.displayName, p.emails[0], Some(p.id), Some(p.photos[0]));
      users := users + [created];
      v := Authenticated(created);
    }
  }
}
