/**
 * The sign-in decision procedure of the authentication options: the credentials
 * `authorize` check, the `signIn` callback with account linking and team-role
 * assignment, the per-request JWT `encode`/`decode` override, the `jwt` callback
 * and the `fromDate` expiry arithmetic.
 */
module NextAuth {
  import opened Wrappers
  import opened JsStrings
  import opened Roles
  import opened Store

  const SESSION_COOKIE := "next-auth.session-token"
  /** Session lifetime in seconds: thirty days. */
  const SESSION_MAX_AGE := 30 * 24 * 60 * 60
  const WORK_EMAIL_ONLY := "/auth/login?error=allow-only-work-email"
  const MAGIC_LINK_PROVIDER := "email"
  const SAML_PROVIDER := "boxyhq-saml"
  /** The `type` every account linked by the callback is stored with. */
  const LINKED_ACCOUNT_KIND := "oauth"

  /** The environment flags the procedure reads. */
  datatype Config = Config(confirmEmail: bool, disableNonBusinessEmailSignup: bool, groupPrefix: Option<string>)

  /** Errors the callbacks throw themselves (storage errors are `StoreError`). */
  datatype AuthError =
    | NoCredentials       // 'no-credentials'
    | RecaptchaRejected   // whatever the reCAPTCHA validation throws
    | InvalidCredentials  // 'invalid-credentials'
    | ConfirmYourEmail    // 'confirm-your-email'
    | NotAnObject         // `'name' in session` on a missing session
    | PasswordCheckFailed // whatever the password check throws, e.g. on a user without a hash

  /** A version 4 UUID in its 36-character text form, as `uuidv4()` returns it. */
  type Uuid = s: string | |s| == 36 witness "00000000-0000-4000-8000-000000000000"

  /** Signed JWT claims, opaque to this procedure except for `name`. */
  type Token = map<string, string>

  // ---------------------------------------------------------------- authorize

  datatype Credentials = Credentials(email: Option<string>, password: Option<string>, recaptchaToken: Option<string>)

  /** The user object `authorize` hands back on success. */
  datatype SessionUser = SessionUser(id: UserId, name: string, email: string)

  /** `authorize` either returns a user, returns `null`, or throws. */
  datatype Authorization = Granted(user: SessionUser) | Declined | Threw(error: AuthError)

  /**
   * The credentials provider's `authorize`. The gates run in order: missing
   * credentials, reCAPTCHA, empty email or password, unknown user, unverified
   * email (when confirmation is on), wrong password.
   */
  function Authorize(
    credentials: Option<Credentials>,
    users: map<string, User>,
    confirmEmail: bool,
    recaptchaAccepts: Option<string> -> bool,
    verifyPassword: (string, Option<string>) -> Option<bool>): (r: Authorization)
    ensures r == Threw(NoCredentials) <==> credentials.None?
    ensures r == Threw(RecaptchaRejected) <==>
              credentials.Some? && !recaptchaAccepts(credentials.value.recaptchaToken)
    ensures r == Declined <==>
              && credentials.Some? && recaptchaAccepts(credentials.value.recaptchaToken)
              && !(Truthy(credentials.value.email) && Truthy(credentials.value.password))
    ensures r.Granted? <==>
              && credentials.Some? && recaptchaAccepts(credentials.value.recaptchaToken)
              && Truthy(credentials.value.email) && Truthy(credentials.value.password)
              && credentials.value.email.value in users
              && (confirmEmail ==> users[credentials.value.email.value].emailVerified)
              && verifyPassword(credentials.value.password.value, users[credentials.value.email.value].password) == Some(true)
    ensures r == Threw(ConfirmYourEmail) <==>
              && ReachesUserLookup(credentials, recaptchaAccepts)
              && credentials.value.email.value in users
              && confirmEmail && !users[credentials.value.email.value].emailVerified
    ensures r == Threw(InvalidCredentials) <==>
              && ReachesUserLookup(credentials, recaptchaAccepts)
              && (|| credentials.value.email.value !in users
                  || (&& (confirmEmail ==> users[credentials.value.email.value].emailVerified)
                      && verifyPassword(credentials.value.password.value, users[credentials.value.email.value].password) == Some(false)))
    ensures r == Threw(PasswordCheckFailed) <==>
              && ReachesUserLookup(credentials, recaptchaAccepts)
              && credentials.value.email.value in users
              && (confirmEmail ==> users[credentials.value.email.value].emailVerified)
              && verifyPassword(credentials.value.password.value, users[credentials.value.email.value].password).None?
    ensures r.Granted? ==>
              var u := users[credentials.value.email.value];
              r.user == SessionUser(u.id, u.name, u.email)
  {
    if credentials.None? then Threw(NoCredentials)
    else
      var c := credentials.value;
      if !recaptchaAccepts(c.recaptchaToken) then Threw(RecaptchaRejected)
      else if !Truthy(c.email) || !Truthy(c.password) then Declined
      else if c.email.value !in users then Threw(InvalidCredentials)
      else
        var u := users[c.email.value];
        if confirmEmail && !u.emailVerified then Threw(ConfirmYourEmail)
        else match verifyPassword(c.password.value, u.password)
          case None => Threw(PasswordCheckFailed)
          case Some(false) => Threw(InvalidCredentials)
          case Some(true) => Granted(SessionUser(u.id, u.name, u.email))
  }

  /** Credentials that pass reCAPTCHA and carry a non-empty email and password reach the user lookup. */
  predicate ReachesUserLookup(credentials: Option<Credentials>, recaptchaAccepts: Option<string> -> bool) {
    && credentials.Some? && recaptchaAccepts(credentials.value.recaptchaToken)
    && Truthy(credentials.value.email) && Truthy(credentials.value.password)
  }

  /** In every store, an email nobody registered is rejected as invalid credentials, whatever the password. */
  lemma UnknownEmailRejected(
    c: Credentials, users: map<string, User>, confirmEmail: bool,
    recaptchaAccepts: Option<string> -> bool, verifyPassword: (string, Option<string>) -> Option<bool>)
    requires ReachesUserLookup(Some(c), recaptchaAccepts) && c.email.value !in users
    ensures Authorize(Some(c), users, confirmEmail, recaptchaAccepts, verifyPassword) == Threw(InvalidCredentials)
  {
  }

  /**
   * An unknown email and a wrong password for a known, confirmed one are
   * answered with the same error.
   */
  lemma UnknownUserLooksLikeWrongPassword(
    known: Credentials, unknown: Credentials, users: map<string, User>, confirmEmail: bool,
    recaptchaAccepts: Option<string> -> bool, verifyPassword: (string, Option<string>) -> Option<bool>)
    requires recaptchaAccepts(known.recaptchaToken) && recaptchaAccepts(unknown.recaptchaToken)
    requires Truthy(known.email) && Truthy(known.password) && Truthy(unknown.email) && Truthy(unknown.password)
    requires unknown.email.value !in users
    requires known.email.value in users
    requires confirmEmail ==> users[known.email.value].emailVerified
    requires verifyPassword(known.password.value, users[known.email.value].password) == Some(false)
    ensures Authorize(Some(unknown), users, confirmEmail, recaptchaAccepts, verifyPassword)
         == Authorize(Some(known), users, confirmEmail, recaptchaAccepts, verifyPassword)
         == Threw(InvalidCredentials)
  {
  }

  /**
   * A user created by a first sign-in has no password hash; the password check is
   * still called, with nothing to compare against, and its answer or failure decides.
   */
  lemma PasswordlessUserAnswerIsTheCheck(
    c: Credentials, users: map<string, User>, confirmEmail: bool,
    recaptchaAccepts: Option<string> -> bool, verifyPassword: (string, Option<string>) -> Option<bool>)
    requires ReachesUserLookup(Some(c), recaptchaAccepts) && c.email.value in users
    requires users[c.email.value].password.None?
    requires confirmEmail ==> users[c.email.value].emailVerified
    ensures var r := Authorize(Some(c), users, confirmEmail, recaptchaAccepts, verifyPassword);
            match verifyPassword(c.password.value, None)
            case None => r == Threw(PasswordCheckFailed)
            case Some(ok) => r == if ok then Granted(SessionUser(users[c.email.value].id, users[c.email.value].name, users[c.email.value].email))
                                  else Threw(InvalidCredentials)
  {
  }

  /**
   * With confirmation on, an unverified account is reported as such before the
   * password is checked, so the answer does not depend on the password.
   */
  lemma UnverifiedEmailCheckedBeforePassword(
    c: Credentials, users: map<string, User>,
    recaptchaAccepts: Option<string> -> bool, verifyPassword: (string, Option<string>) -> Option<bool>)
    requires recaptchaAccepts(c.recaptchaToken) && Truthy(c.email) && Truthy(c.password)
    requires c.email.value in users && !users[c.email.value].emailVerified
    ensures Authorize(Some(c), users, true, recaptchaAccepts, verifyPassword) == Threw(ConfirmYourEmail)
  {
  }

  // ------------------------------------------------------- request and cookies

  /** The parts of the request the procedure reads: the catch-all route segments and the method. */
  datatype Request = Request(nextauth: Option<seq<string>>, httpMethod: string)

  /** A POST to the credentials provider's callback route. */
  predicate IsCredentialsCallback(req: Request)
    ensures IsCredentialsCallback(req) ==> req.nextauth.Some? && req.httpMethod == "POST"
  {
    && req.nextauth.Some?
    && "callback" in req.nextauth.value
    && "credentials" in req.nextauth.value
    && req.httpMethod == "POST"
  }

  /**
   * The route segments are tested for membership, not position: the credentials
   * callback is recognised only on POST and only for the credentials provider.
   */
  lemma CredentialsCallbackRoutes(other: string)
    requires other != "credentials"
    ensures IsCredentialsCallback(Request(Some(["callback", "credentials"]), "POST"))
    ensures IsCredentialsCallback(Request(Some(["credentials", "callback"]), "POST"))
    ensures !IsCredentialsCallback(Request(Some(["callback", "credentials"]), "GET"))
    ensures !IsCredentialsCallback(Request(Some(["callback", other]), "POST"))
    ensures !IsCredentialsCallback(Request(None, "POST"))
  {
    assert ["callback", "credentials"][1] == "credentials";
    assert ["credentials", "callback"][0] == "credentials";
    assert "credentials" !in ["callback", other];
  }

  /** A `Set-Cookie` header written to the response. */
  datatype CookieHeader = CookieHeader(name: string, value: string, expires: int)

  /**
   * One request/response pair. Setting a cookie both writes a `Set-Cookie`
   * header and updates the request's cookie jar, so a later read in the same
   * request sees the new value.
   */
  class Exchange {
    const request: Request
    var cookies: map<string, string>
    var setCookies: seq<CookieHeader>

    constructor (request: Request, cookies: map<string, string>)
      ensures this.request == request && this.cookies == cookies && setCookies == []
    {
      this.request := request;
      this.cookies := cookies;
      setCookies := [];
    }

    /** `getCookie(name, { req, res })`: the value in the jar, if any. */
    function GetCookie(name: string): (r: Option<string>)
      reads this
      ensures r.Some? <==> name in cookies
      ensures r.Some? ==> r.value == cookies[name]
    {
      if name in cookies then Some(cookies[name]) else None
    }

    method SetCookie(name: string, value: string, expires: int)
      modifies this
      ensures cookies == old(cookies)[name := value]
      ensures setCookies == old(setCookies) + [CookieHeader(name, value, expires)]
      ensures GetCookie(name) == Some(value)
    {
      cookies := cookies[name := value];
      setCookies := setCookies + [CookieHeader(name, value, expires)];
    }
  }

  /** `fromDate(time, date)`: `time` seconds after the instant `date`, in milliseconds. */
  function FromDate(time: int, date: int): (r: int)
    ensures time >= 0 ==> r >= date
    ensures (r - date) % 1000 == 0 && (r - date) / 1000 == time
  {
    date + time * 1000
  }

  /** A minted session lasts thirty days, counted in milliseconds from the clock reading. */
  lemma SessionLastsThirtyDays(now: int)
    ensures FromDate(SESSION_MAX_AGE, now) - now == 2_592_000_000
  {
  }

  /** A later clock reading never gives an earlier expiry. */
  lemma FromDateMonotone(time: int, date1: int, date2: int)
    ensures FromDate(time, date1) <= FromDate(time, date2) <==> date1 <= date2
  {
  }

  // ------------------------------------------------------------- signIn inputs

  /** The user object next-auth passes to `signIn`. */
  datatype Identity = Identity(id: UserId, name: JsString, email: Option<string>)

  /** The provider account next-auth passes to `signIn`. */
  datatype Account = Account(
    provider: string,
    providerAccountId: string,
    scope: Option<string>,
    tokenType: Option<string>,
    accessToken: Option<string>)

  /** The SAML profile: the requested tenant and the role or group claims. */
  datatype Profile = Profile(tenant: string, roles: Option<seq<string>>, groups: Option<seq<string>>)

  /** `signIn` returns `true`, `false`, a redirect path, or throws. */
  datatype SignInOutcome = Allowed | Denied | RedirectTo(url: string) | Aborted(error: StoreError)

  /** The identity has a user, a non-empty email and an account. */
  predicate Complete(user: Option<Identity>, account: Option<Account>)
    ensures Complete(user, account) ==> user.Some? && user.value.email.Some? && user.value.email.value != ""
    ensures account.None? ==> !Complete(user, account)
  {
    user.Some? && Truthy(user.value.email) && account.Some?
  }

  /** `profile.roles || profile.groups || []`: an empty `roles` array still wins, being truthy. */
  function ClaimsOf(profile: Profile): (r: seq<string>)
    ensures profile.roles.Some? ==> r == profile.roles.value
    ensures forall c :: c in r ==> c in profile.roles.GetOr([]) || c in profile.groups.GetOr([])
    ensures profile.roles.None? && profile.groups.Some? ==> r == profile.groups.value
  {
    match profile.roles
    case Some(roles) => roles
    case None => profile.groups.GetOr([])
  }

  /** `team.defaultRole || Role.MEMBER`. */
  function StartingRole(team: Team): (r: Role)
    ensures team.defaultRole.Some? ==> r == team.defaultRole.value
    ensures team.defaultRole.None? ==> r == MEMBER
  {
    team.defaultRole.GetOr(MEMBER)
  }

  /** The role a first-time SAML user receives in `team`. */
  function TeamRole(team: Team, profile: Profile, groupPrefix: Option<string>): Role {
    ResolvedRole(StartingRole(team), ClaimsOf(profile), groupPrefix)
  }

  function KeyFor(account: Account): AccountKey {
    (account.provider, account.providerAccountId)
  }

  /** The row `linkAccount` asks the adapter to store. */
  function AccountRecord(userId: UserId, account: Account): LinkedAccount {
    LinkedAccount(userId, account.provider, account.providerAccountId, LINKED_ACCOUNT_KIND,
                  account.scope, account.tokenType, account.accessToken)
  }

  /** `linkAccount` throws when the adapter links accounts and the key is taken. */
  predicate LinkThrows(canLink: bool, accounts: map<AccountKey, LinkedAccount>, account: Account) {
    canLink && KeyFor(account) in accounts
  }

  /** The linked accounts after `linkAccount(userId, account)`. */
  function AfterLink(canLink: bool, accounts: map<AccountKey, LinkedAccount>, userId: UserId, account: Account)
    : map<AccountKey, LinkedAccount>
  {
    if canLink && KeyFor(account) !in accounts
    then accounts[KeyFor(account) := AccountRecord(userId, account)]
    else accounts
  }

  // ----------------------------------------------------- linkAccount, linkToTeam

  /** `linkAccount(user, account)`: a no-op when the adapter has no `linkAccount`. */
  method LinkAccount(db: Database, userId: UserId, account: Account) returns (r: Result<(), StoreError>)
    requires db.Valid() && userId < db.nextUserId
    modifies db
    ensures db.Valid()
    ensures r == if LinkThrows(db.canLinkAccount, old(db.accounts), account) then Err(DuplicateAccount) else Ok(())
    ensures db.accounts == AfterLink(db.canLinkAccount, old(db.accounts), userId, account)
    ensures db.users == old(db.users) && db.nextUserId == old(db.nextUserId) && db.teams == old(db.teams)
    ensures db.members == old(db.members) && db.sessions == old(db.sessions)
  {
    if db.canLinkAccount {
      r := db.CreateAccount(AccountRecord(userId, account));
    } else {
      r := Ok(());
    }
  }

  /**
   * `linkToTeam(profile, userId)`: finds the requested team (throwing when there
   * is none), resolves the role from the claims and adds the membership.
   */
  method LinkToTeam(db: Database, profile: Profile, userId: UserId, groupPrefix: Option<string>)
    returns (r: Result<(), StoreError>)
    requires db.Valid() && userId < db.nextUserId
    requires forall m :: m in db.members ==> m.1 != userId
    modifies db
    ensures db.Valid()
    ensures profile.tenant !in old(db.teams) ==> r == Err(TeamNotFound) && db.members == old(db.members)
    ensures profile.tenant in old(db.teams) ==>
              && r == Ok(())
              && db.members == old(db.members)[(profile.tenant, userId) := TeamRole(old(db.teams)[profile.tenant], profile, groupPrefix)]
    ensures db.users == old(db.users) && db.nextUserId == old(db.nextUserId) && db.accounts == old(db.accounts)
    ensures db.teams == old(db.teams) && db.sessions == old(db.sessions)
  {
    var found := db.GetTeam(profile.tenant);
    if found.Err? {
      return Err(found.error);
    }
    var team := found.value;
    var role := ResolveRole(StartingRole(team), ClaimsOf(profile), groupPrefix);
    db.AddTeamMember(team.id, userId, role);
    r := Ok(());
  }

  // ------------------------------------------------------------ the callbacks

  /** The options built for one request: the callbacks close over its exchange. */
  class AuthOptions {
    const config: Config
    const db: Database
    const exchange: Exchange

    constructor (config: Config, db: Database, exchange: Exchange)
      ensures this.config == config && this.db == db && this.exchange == exchange
    {
      this.config := config;
      this.db := db;
      this.exchange := exchange;
    }

    /** The business-email policy turns the identity away. */
    predicate PolicyDenies(email: string, isBusinessEmail: string -> bool) {
      config.disableNonBusinessEmailSignup && !isBusinessEmail(email)
    }

    /** The identity passes the two checks that precede any storage call. */
    predicate PassesGates(user: Option<Identity>, account: Option<Account>, isBusinessEmail: string -> bool) {
      Complete(user, account) && !PolicyDenies(user.value.email.value, isBusinessEmail)
    }

    /** Minting a session on this request throws, the token being taken. */
    predicate MintThrows(sessions: map<string, Session>, sessionToken: string) {
      IsCredentialsCallback(exchange.request) && db.canCreateSession && sessionToken in sessions
    }

    /** The procedure gets past the gates and the session minting to the user lookup. */
    predicate ReachesLookup(
      user: Option<Identity>, account: Option<Account>, isBusinessEmail: string -> bool,
      sessions: map<string, Session>, sessionToken: string)
    {
      PassesGates(user, account, isBusinessEmail) && !MintThrows(sessions, sessionToken)
    }

    /**
     * The session-minting block of `signIn` on the credentials callback: stores a
     * session record when the adapter can, then sets the session cookie. Each
     * expiry is computed from its own clock reading.
     */
    method MintSession(userId: UserId, sessionToken: Uuid, recordNow: int, cookieNow: int)
      returns (r: Result<(), StoreError>)
      requires db.Valid()
      modifies db, exchange
      ensures db.Valid()
      ensures db.users == old(db.users) && db.nextUserId == old(db.nextUserId) && db.accounts == old(db.accounts)
      ensures db.teams == old(db.teams) && db.members == old(db.members)
      ensures db.canCreateSession && sessionToken in old(db.sessions) ==>
                r == Err(DuplicateSessionToken) && unchanged(db) && unchanged(exchange)
      ensures !(db.canCreateSession && sessionToken in old(db.sessions)) ==>
                && r == Ok(())
                && db.sessions == (if db.canCreateSession
                                   then old(db.sessions)[sessionToken := Session(userId, FromDate(SESSION_MAX_AGE, recordNow))]
                                   else old(db.sessions))
                && exchange.cookies == old(exchange.cookies)[SESSION_COOKIE := sessionToken]
                && exchange.setCookies == old(exchange.setCookies)
                                          + [CookieHeader(SESSION_COOKIE, sessionToken, FromDate(SESSION_MAX_AGE, cookieNow))]
    {
      if db.canCreateSession {
        var created := db.CreateSession(sessionToken, userId, FromDate(SESSION_MAX_AGE, recordNow));
        if created.Err? {
          return created;
        }
      }
      exchange.SetCookie(SESSION_COOKIE, sessionToken, FromDate(SESSION_MAX_AGE, cookieNow));
      r := Ok(());
    }

    /**
     * The `signIn` callback. `isBusinessEmail`, the UUID and the two clock
     * readings (one per `fromDate` call) are supplied by the caller.
     */
    method SignIn(
      user: Option<Identity>, account: Option<Account>, profile: Option<Profile>,
      isBusinessEmail: string -> bool, sessionToken: Uuid, recordNow: int, cookieNow: int)
      returns (r: SignInOutcome)
      requires db.Valid()
      modifies db, exchange
      ensures db.Valid() && db.teams == old(db.teams)
      // Incomplete identities are refused before anything is read or written.
      ensures !Complete(user, account) ==> r == Denied && unchanged(db) && unchanged(exchange)
      // The business-email policy redirects, again before anything is read or written.
      ensures Complete(user, account) && PolicyDenies(user.value.email.value, isBusinessEmail) ==>
                r == RedirectTo(WORK_EMAIL_ONLY) && unchanged(db) && unchanged(exchange)
      // Only the credentials callback touches sessions and cookies.
      ensures PassesGates(user, account, isBusinessEmail) && !IsCredentialsCallback(exchange.request) ==>
                unchanged(exchange) && db.sessions == old(db.sessions)
      ensures PassesGates(user, account, isBusinessEmail) && MintThrows(old(db.sessions), sessionToken) ==>
                r == Aborted(DuplicateSessionToken) && unchanged(db) && unchanged(exchange)
      ensures ReachesLookup(user, account, isBusinessEmail, old(db.sessions), sessionToken)
              && IsCredentialsCallback(exchange.request) ==>
                && exchange.setCookies == old(exchange.setCookies)
                                          + [CookieHeader(SESSION_COOKIE, sessionToken, FromDate(SESSION_MAX_AGE, cookieNow))]
                && exchange.cookies == old(exchange.cookies)[SESSION_COOKIE := sessionToken]
                && db.sessions == (if db.canCreateSession
                                   then old(db.sessions)[sessionToken := Session(user.value.id, FromDate(SESSION_MAX_AGE, recordNow))]
                                   else old(db.sessions))
      // Magic link: allowed exactly for a known email; nothing is created or linked.
      ensures ReachesLookup(user, account, isBusinessEmail, old(db.sessions), sessionToken)
              && account.value.provider == MAGIC_LINK_PROVIDER ==>
                && r == (if user.value.email.value in old(db.users) then Allowed else Denied)
                && db.users == old(db.users) && db.nextUserId == old(db.nextUserId)
                && db.accounts == old(db.accounts) && db.members == old(db.members)
      // First sign-in: one user created, the account linked to it, and for SAML a team role.
      ensures ReachesLookup(user, account, isBusinessEmail, old(db.sessions), sessionToken)
              && account.value.provider != MAGIC_LINK_PROVIDER
              && user.value.email.value !in old(db.users) ==>
                var email, acct := user.value.email.value, account.value;
                var created := User(old(db.nextUserId), Interpolate(user.value.name), email, None, false);
                var joinsTeam := acct.provider == SAML_PROVIDER && profile.Some?;
                && db.users == old(db.users)[email := created]
                && db.nextUserId == old(db.nextUserId) + 1
                && db.accounts == AfterLink(db.canLinkAccount, old(db.accounts), created.id, acct)
                && (LinkThrows(db.canLinkAccount, old(db.accounts), acct) ==>
                      r == Aborted(DuplicateAccount) && db.members == old(db.members))
                && (!LinkThrows(db.canLinkAccount, old(db.accounts), acct) && !joinsTeam ==>
                      r == Allowed && db.members == old(db.members))
                && (!LinkThrows(db.canLinkAccount, old(db.accounts), acct) && joinsTeam
                    && profile.value.tenant !in old(db.teams) ==>
                      r == Aborted(TeamNotFound) && db.members == old(db.members))
                && (!LinkThrows(db.canLinkAccount, old(db.accounts), acct) && joinsTeam
                    && profile.value.tenant in old(db.teams) ==>
                      && r == Allowed
                      && db.members == old(db.members)[(profile.value.tenant, created.id) :=
                                         TeamRole(old(db.teams)[profile.value.tenant], profile.value, config.groupPrefix)])
      // Returning user: the account is linked only if the user has none; no membership changes.
      ensures ReachesLookup(user, account, isBusinessEmail, old(db.sessions), sessionToken)
              && account.value.provider != MAGIC_LINK_PROVIDER
              && user.value.email.value in old(db.users) ==>
                var existing, acct := old(db.users)[user.value.email.value], account.value;
                && db.users == old(db.users) && db.nextUserId == old(db.nextUserId)
                && db.members == old(db.members)
                && (HasAccountFor(old(db.accounts), existing.id) ==>
                      r == Allowed && db.accounts == old(db.accounts))
                && (!HasAccountFor(old(db.accounts), existing.id) ==>
                      && db.accounts == AfterLink(db.canLinkAccount, old(db.accounts), existing.id, acct)
                      && r == if LinkThrows(db.canLinkAccount, old(db.accounts), acct) then Aborted(DuplicateAccount) else Allowed)
    {
      if user.None? || !Truthy(user.value.email) || account.None? {
        return Denied;
      }
      var identity, acct := user.value, account.value;
      var email := identity.email.value;
      if config.disableNonBusinessEmailSignup && !isBusinessEmail(email) {
        return RedirectTo(WORK_EMAIL_ONLY);
      }

      if IsCredentialsCallback(exchange.request) {
        var minted := MintSession(identity.id, sessionToken, recordNow, cookieNow);
        if minted.Err? {
          return Aborted(minted.error);
        }
      }

      var existing := db.GetUser(email);

      if acct.provider == MAGIC_LINK_PROVIDER {
        return if existing.Some? then Allowed else Denied;
      }

      if existing.None? {
        var newUser := db.CreateUser(Interpolate(identity.name), email);
        var linked := LinkAccount(db, newUser.id, acct);
        if linked.Err? {
          return Aborted(linked.error);
        }
        if acct.provider == SAML_PROVIDER && profile.Some? {
          var joined := LinkToTeam(db, profile.value, newUser.id, config.groupPrefix);
          if joined.Err? {
            return Aborted(joined.error);
          }
        }
        return Allowed;
      }

      if !HasAccountFor(db.accounts, existing.value.id) {
        var linked := LinkAccount(db, existing.value.id, acct);
        if linked.Err? {
          return Aborted(linked.error);
        }
      }
      return Allowed;
    }

    /**
     * The JWT `encode` override: on the credentials callback the "token" is the
     * session cookie's value, or '' when there is none; elsewhere the library signs.
     */
    function Encode(libraryEncode: Token -> string, token: Token): (jwt: string)
      reads exchange
      ensures IsCredentialsCallback(exchange.request) ==> jwt == exchange.GetCookie(SESSION_COOKIE).GetOr("")
      ensures !IsCredentialsCallback(exchange.request) ==> jwt == libraryEncode(token)
    {
      if IsCredentialsCallback(exchange.request) then
        var cookie := exchange.GetCookie(SESSION_COOKIE);
        if cookie.Some? && cookie.value != "" then cookie.value else ""
      else
        libraryEncode(token)
    }

    /** The JWT `decode` override: no token on the credentials callback, the library elsewhere. */
    function Decode(libraryDecode: string -> Option<Token>, jwt: string): (token: Option<Token>)
      ensures IsCredentialsCallback(exchange.request) ==> token == None
      ensures !IsCredentialsCallback(exchange.request) ==> token == libraryDecode(jwt)
    {
      if IsCredentialsCallback(exchange.request) then None else libraryDecode(jwt)
    }
  }

  /**
   * Away from the credentials callback, encode then decode gives back the claims
   * whenever the library's pair does; on it, decode never yields a token.
   */
  lemma EncodeThenDecode(options: AuthOptions, libraryEncode: Token -> string,
                         libraryDecode: string -> Option<Token>, token: Token)
    requires libraryDecode(libraryEncode(token)) == Some(token)
    ensures !IsCredentialsCallback(options.exchange.request) ==>
              options.Decode(libraryDecode, options.Encode(libraryEncode, token)) == Some(token)
    ensures IsCredentialsCallback(options.exchange.request) ==>
              options.Decode(libraryDecode, options.Encode(libraryEncode, token)) == None
  {
  }

  /**
   * A password sign-in as the library drives it on the credentials callback:
   * `signIn`, then `encode` of the session. When sign-in is allowed, the encoded
   * value is the freshly minted session token, and decoding yields nothing.
   */
  method PasswordSignIn(
    options: AuthOptions, user: Identity, account: Account, isBusinessEmail: string -> bool,
    sessionToken: Uuid, recordNow: int, cookieNow: int, libraryEncode: Token -> string,
    libraryDecode: string -> Option<Token>, claims: Token)
    returns (r: SignInOutcome, jwt: string, decoded: Option<Token>)
    requires options.db.Valid() && IsCredentialsCallback(options.exchange.request)
    modifies options.db, options.exchange
    ensures options.db.Valid()
    ensures r == Allowed ==> jwt == sessionToken && decoded == None
    ensures r == Allowed && options.db.canCreateSession ==>
              sessionToken in options.db.sessions && options.db.sessions[sessionToken].userId == user.id
  {
    r := options.SignIn(Some(user), Some(account), None, isBusinessEmail, sessionToken, recordNow, cookieNow);
    jwt := options.Encode(libraryEncode, claims);
    decoded := options.Decode(libraryDecode, jwt);
  }

  // ---------------------------------------------------------------- jwt callback

  /** The `jwt` callback renames the user: an update trigger with a non-empty session name. */
  predicate Renames(trigger: Option<string>, session: Option<map<string, string>>) {
    trigger == Some("update") && session.Some? && "name" in session.value && session.value["name"] != ""
  }

  /**
   * The `jwt` callback: on an update carrying a name, the token with that name;
   * otherwise the token unchanged. An update without a session object throws.
   */
  function Jwt(token: Token, trigger: Option<string>, session: Option<map<string, string>>)
    : (r: Result<Token, AuthError>)
    ensures r.Err? <==> trigger == Some("update") && session.None?
    ensures r.Ok? && !Renames(trigger, session) ==> r.value == token
    ensures r.Ok? && Renames(trigger, session) ==>
              && r.value.Keys == token.Keys + {"name"}
              && r.value["name"] == session.value["name"]
              && forall k :: k in token && k != "name" ==> r.value[k] == token[k]
  {
    if trigger == Some("update") then
      if session.None? then Err(NotAnObject)
      else if "name" in session.value && session.value["name"] != "" then Ok(token["name" := session.value["name"]])
      else Ok(token)
    else Ok(token)
  }

  /** Replaying the same update leaves the token as the first one left it. */
  lemma JwtIdempotent(token: Token, trigger: Option<string>, session: Option<map<string, string>>)
    requires Jwt(token, trigger, session).Ok?
    ensures Jwt(Jwt(token, trigger, session).value, trigger, session) == Jwt(token, trigger, session)
  {
    if Renames(trigger, session) {
      var named := token["name" := session.value["name"]];
      assert named["name" := session.value["name"]] == named;
    }
  }
}
