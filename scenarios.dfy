/**
 * Client code: what a caller can conclude from the contracts alone about the
 * sign-in sequences worth checking end to end.
 */
module Scenarios {
  import opened Wrappers
  import opened JsStrings
  import opened Roles
  import opened Store
  import opened NextAuth

  /**
   * A first SAML sign-in whose profile claims ADMIN then OWNER for the team
   * creates the user, links the account and makes the user an OWNER.
   */
  method FirstSamlSignIn(
    options: AuthOptions, email: string, tenant: string, isBusinessEmail: string -> bool, token: Uuid, now: int)
    requires options.db.Valid() && options.db.canLinkAccount
    requires options.db.users == map[] && options.db.accounts == map[] && options.db.members == map[]
    requires options.db.teams == map[tenant := Team(tenant, None)] && options.config.groupPrefix == None
    requires email != "" && isBusinessEmail(email) && !IsCredentialsCallback(options.exchange.request)
    modifies options.db, options.exchange
  {
    var db := options.db;
    var user := Identity(7, Str("Jackson"), Some(email));
    var account := Account(SAML_PROVIDER, "idp-1", None, None, None);
    var profile := Profile(tenant, Some(["admin", "owner"]), None);
    var id := db.nextUserId;

    OwnerWinsInEitherOrder(MEMBER);
    assert ClaimsOf(profile) == ["admin", "owner"];
    assert TeamRole(Team(tenant, None), profile, None) == OWNER;
    var r := options.SignIn(Some(user), Some(account), Some(profile), isBusinessEmail, token, now, now);
    assert r == Allowed;
    assert db.users[email].id == id;
    assert db.members == map[(tenant, id) := OWNER];
    assert db.accounts == map[KeyFor(account) := AccountRecord(id, account)];
  }

  /** Signing in again with an account already linked changes no account and no membership. */
  method RepeatSignIn(
    options: AuthOptions, user: Identity, account: Account, profile: Profile,
    isBusinessEmail: string -> bool, token: Uuid, now: int)
    requires options.db.Valid() && !IsCredentialsCallback(options.exchange.request)
    requires options.PassesGates(Some(user), Some(account), isBusinessEmail)
    requires account.provider != MAGIC_LINK_PROVIDER
    requires user.email.value in options.db.users
    requires KeyFor(account) in options.db.accounts
    requires options.db.accounts[KeyFor(account)].userId == options.db.users[user.email.value].id
    modifies options.db, options.exchange
  {
    var db := options.db;
    var accountsBefore, membersBefore, usersBefore := db.accounts, db.members, db.users;
    var r := options.SignIn(Some(user), Some(account), Some(profile), isBusinessEmail, token, now, now);
    assert r == Allowed;
    assert db.accounts == accountsBefore && db.members == membersBefore && db.users == usersBefore;
  }

  /** Magic link for an email nobody has signed up with is refused and creates nothing. */
  method MagicLinkForUnknownEmail(
    options: AuthOptions, email: string, isBusinessEmail: string -> bool, token: Uuid, now: int)
    requires options.db.Valid() && email != "" && email !in options.db.users
    requires !options.config.disableNonBusinessEmailSignup && !IsCredentialsCallback(options.exchange.request)
    modifies options.db, options.exchange
  {
    var db := options.db;
    var usersBefore, accountsBefore := db.users, db.accounts;
    var user := Identity(3, Null, Some(email));
    var account := Account(MAGIC_LINK_PROVIDER, email, None, None, None);
    var r := options.SignIn(Some(user), Some(account), None, isBusinessEmail, token, now, now);
    assert r == Denied;
    assert db.users == usersBefore && db.accounts == accountsBefore;
  }
}
