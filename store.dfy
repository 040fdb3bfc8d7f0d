/**
 * The persistence the sign-in procedure talks to (the database adapter and the
 * user/account/team models), as maps held by one object that the operations update.
 */
module Store {
  import opened Wrappers
  import opened Roles

  /** Users are numbered by the store as it creates them, standing for database-generated ids. */
  type UserId = nat

  datatype User = User(id: UserId, name: string, email: string, password: Option<string>, emailVerified: bool)

  /** A user's binding to one account at an external provider. */
  datatype LinkedAccount = LinkedAccount(
    userId: UserId,
    provider: string,
    providerAccountId: string,
    kind: string,
    scope: Option<string>,
    tokenType: Option<string>,
    accessToken: Option<string>)

  /** Linked accounts are unique per (provider, providerAccountId). */
  type AccountKey = (string, string)

  function KeyOf(a: LinkedAccount): AccountKey {
    (a.provider, a.providerAccountId)
  }

  datatype Team = Team(id: string, defaultRole: Option<Role>)

  datatype Session = Session(userId: UserId, expires: int)

  /** Errors a storage call throws. */
  datatype StoreError =
    | DuplicateSessionToken  // the session token is already stored
    | DuplicateAccount       // (provider, providerAccountId) is already linked
    | TeamNotFound           // no team has the requested id

  /** Some account of the user is linked (what `getAccount({ userId })` finds). */
  predicate HasAccountFor(accounts: map<AccountKey, LinkedAccount>, userId: UserId) {
    exists k :: k in accounts && accounts[k].userId == userId
  }

  /** Once an account row is stored for a user, `getAccount({ userId })` finds one. */
  lemma LinkedAccountIsFound(accounts: map<AccountKey, LinkedAccount>, account: LinkedAccount)
    ensures HasAccountFor(accounts[KeyOf(account) := account], account.userId)
    ensures forall u :: HasAccountFor(accounts, u) && KeyOf(account) !in accounts ==>
              HasAccountFor(accounts[KeyOf(account) := account], u)
  {
    var linked := accounts[KeyOf(account) := account];
    assert KeyOf(account) in linked && linked[KeyOf(account)].userId == account.userId;
    forall u | HasAccountFor(accounts, u) && KeyOf(account) !in accounts
      ensures HasAccountFor(linked, u)
    {
      var k :| k in accounts && accounts[k].userId == u;
      assert k in linked && linked[k].userId == u;
    }
  }

  class Database {
    /** Whether the adapter implements `createSession` and `linkAccount`. */
    const canCreateSession: bool
    const canLinkAccount: bool

    var users: map<string, User>                // by email, which is unique
    var accounts: map<AccountKey, LinkedAccount>
    var teams: map<string, Team>                // by team id
    var members: map<(string, UserId), Role>    // (team id, user id) -> role
    var sessions: map<string, Session>          // by session token
    var nextUserId: UserId

    ghost predicate Valid()
      reads this
    {
      && (forall e :: e in users ==> users[e].email == e && users[e].id < nextUserId)
      && (forall k :: k in accounts ==> KeyOf(accounts[k]) == k && accounts[k].userId < nextUserId)
      && (forall t :: t in teams ==> teams[t].id == t)
      && (forall m :: m in members ==> m.1 < nextUserId)
    }

    constructor (canCreateSession: bool, canLinkAccount: bool, teams: map<string, Team>)
      requires forall t :: t in teams ==> teams[t].id == t
      ensures Valid()
      ensures this.canCreateSession == canCreateSession && this.canLinkAccount == canLinkAccount
      ensures this.teams == teams
      ensures users == map[] && accounts == map[] && members == map[] && sessions == map[]
    {
      this.canCreateSession := canCreateSession;
      this.canLinkAccount := canLinkAccount;
      this.teams := teams;
      users, accounts, members, sessions := map[], map[], map[], map[];
      nextUserId := 0;
    }

    /** `getUser({ email })`: exact match on the unique email. */
    function GetUser(email: string): (r: Option<User>)
      reads this
      ensures r.Some? <==> email in users
      ensures r.Some? ==> r.value == users[email]
      ensures r.Some? && Valid() ==> r.value.email == email
    {
      if email in users then Some(users[email]) else None
    }

    /**
     * `createUser({ name, email })`. The caller has just looked the email up and
     * found nothing; a duplicate could only come from a concurrent sign-in.
     */
    method CreateUser(name: string, email: string) returns (user: User)
      requires Valid() && email !in users
      modifies this
      ensures Valid()
      ensures user == User(old(nextUserId), name, email, None, false)
      ensures users == old(users)[email := user] && nextUserId == old(nextUserId) + 1
      ensures accounts == old(accounts) && teams == old(teams)
      ensures members == old(members) && sessions == old(sessions)
    {
      user := User(nextUserId, name, email, None, false);
      users := users[email := user];
      nextUserId := nextUserId + 1;
    }

    /** The adapter's `linkAccount`: inserts the row, throwing on a duplicate key. */
    method CreateAccount(account: LinkedAccount) returns (r: Result<(), StoreError>)
      requires Valid() && account.userId < nextUserId
      modifies this
      ensures Valid()
      ensures KeyOf(account) in old(accounts) ==> r == Err(DuplicateAccount) && accounts == old(accounts)
      ensures KeyOf(account) !in old(accounts) ==> r == Ok(()) && accounts == old(accounts)[KeyOf(account) := account]
      ensures users == old(users) && nextUserId == old(nextUserId) && teams == old(teams)
      ensures members == old(members) && sessions == old(sessions)
    {
      if KeyOf(account) in accounts {
        return Err(DuplicateAccount);
      }
      accounts := accounts[KeyOf(account) := account];
      r := Ok(());
    }

    /** `getTeam({ id })`, which throws when no team has that id. */
    function GetTeam(id: string): (r: Result<Team, StoreError>)
      reads this
      ensures r.Ok? <==> id in teams
      ensures r.Err? ==> r.error == TeamNotFound
      ensures r.Ok? && Valid() ==> r.value.id == id
    {
      if id in teams then Ok(teams[id]) else Err(TeamNotFound)
    }

    /** `addTeamMember(teamId, userId, role)` for a user who is not yet a member. */
    method AddTeamMember(teamId: string, userId: UserId, role: Role)
      requires Valid() && userId < nextUserId && (teamId, userId) !in members
      modifies this
      ensures Valid()
      ensures members == old(members)[(teamId, userId) := role]
      ensures users == old(users) && nextUserId == old(nextUserId) && accounts == old(accounts)
      ensures teams == old(teams) && sessions == old(sessions)
    {
      members := members[(teamId, userId) := role];
    }

    /** The adapter's `createSession`: inserts the record, throwing on a duplicate token. */
    method CreateSession(token: string, userId: UserId, expires: int) returns (r: Result<(), StoreError>)
      requires Valid()
      modifies this
      ensures Valid()
      ensures token in old(sessions) ==> r == Err(DuplicateSessionToken) && unchanged(this)
      ensures token !in old(sessions) ==> r == Ok(()) && sessions == old(sessions)[token := Session(userId, expires)]
      ensures users == old(users) && nextUserId == old(nextUserId) && accounts == old(accounts)
      ensures teams == old(teams) && members == old(members)
    {
      if token in sessions {
        return Err(DuplicateSessionToken);
      }
      sessions := sessions[token := Session(userId, expires)];
      r := Ok(());
    }
  }
}
