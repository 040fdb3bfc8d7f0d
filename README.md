# Sign-in decision procedure, modelled in Dafny

This project models the authentication core of a multi-tenant SaaS application
built on next-auth: the options object that `getAuthOptions(req, res)` builds in
`lib/nextAuth.ts`, and the server-side half of the unlock-account page.

- **`authorize`** (credentials provider) runs its gates in order: missing
  credentials, reCAPTCHA, empty email or password (returns `null`), unknown user,
  unverified email when confirmation is on, wrong password. It yields
  `{id, name, email}` only when every gate passes.
- **`signIn`** refuses incomplete identities and applies the business-email
  policy before any storage call. On a POST to the credentials callback it mints a
  session record (when the adapter can) and sets the `next-auth.session-token`
  cookie. It then looks the user up by email. Magic link admits only known
  users. A first-time user is created and the account linked, plus a team role
  for SAML. A returning user gets the account linked only when none is linked
  yet.
- **`linkToTeam`** starts from the team's default role (MEMBER when unset),
  strips the group prefix, upper-cases each claim, and scans: ADMIN upgrades
  unless the role is OWNER, and OWNER is terminal. The loop is proved equal to a
  left fold of "take the higher role". That fold is proved to be the least upper
  bound of the start role and the recognised claims, so the result does not
  depend on the order of the claims.
- **JWT `encode`/`decode`**: on the credentials callback, encode returns the
  session cookie (or `''`) and decode returns nothing. Everywhere else both
  delegate to the library.
- **`jwt` callback**: an `update` carrying a non-empty name renames the token.
  Nothing else changes.
- **Unlock account**: a missing token gives "not found". An unknown token gives
  the invalid-link error without resend. An expired one gives the expired-link
  error with resend. A usable one unlocks the account, deletes the token and
  redirects. A used token is unknown afterwards.

The stores (users, linked accounts, teams, memberships, sessions) are map-valued
fields of a `Database` object. Each storage call is a method that states its
whole effect. The request/response pair is an `Exchange` object. Its cookie jar
is the one `getCookie` reads, and it also holds the list of `Set-Cookie` headers
written. Oracles are parameters: `verifyPassword`, `validateRecaptcha`,
`isBusinessEmail`, `isVerificationTokenExpired`, the UUID, the clock and
next-auth's signed `encode`/`decode`.

Points where the code's behaviour is easy to misread:

- The first gate tests `user`, `user.email` and `account`. It does not test the
  provider name.
- The session short-circuit is keyed on the request: the route segments contain
  `callback` and `credentials`, and the method is POST. It is not keyed on the
  provider.
- `fromDate` reads the clock once for the session record and again for the
  cookie, after the awaited `createSession`. The two expiries are equal only
  when both readings are equal. `SignIn` therefore takes two clock readings.
- On a returning user's credentials sign-in with no linked account, the
  credentials account itself is linked, because the code links it.

## Model

| member | source | states |
|---|---|---|
| `NextAuth.Authorize` | lib/nextAuth.ts:42-79 | throws `no-credentials` exactly when credentials are absent, and the reCAPTCHA error exactly when it fails; returns `null` exactly when email or password is empty; after those gates, throws `confirm-your-email` exactly for a known unverified user when confirmation is on, throws `invalid-credentials` exactly for an unknown email or a password check that answers false, throws the password check's own error exactly when that check fails instead of answering, and grants exactly when the user exists, is verified whenever confirmation is on, and the password verifies; the granted object is that user's id, name and email |
| `NextAuth.UnknownEmailRejected` | lib/nextAuth.ts:55-59 | in every store, an email nobody registered throws `invalid-credentials`, whatever the password |
| `NextAuth.UnknownUserLooksLikeWrongPassword` | lib/nextAuth.ts:55-72 | an unknown email and a wrong password for a known, confirmed user both throw the same `invalid-credentials` |
| `NextAuth.PasswordlessUserAnswerIsTheCheck` | lib/nextAuth.ts:65-72 | for a user without a password hash (every user a first sign-in creates), the outcome is whatever the password check makes of a missing hash: grant, `invalid-credentials`, or its own error |
| `NextAuth.UnverifiedEmailCheckedBeforePassword` | lib/nextAuth.ts:61-72 | with confirmation on, an unverified user gets `confirm-your-email` whatever the password |
| `NextAuth.AuthOptions.SignIn` | lib/nextAuth.ts:155-229 | incomplete identity: `false` with no change; policy: exactly the work-email redirect with no change; only the credentials callback touches cookies and sessions; magic link: `true` iff the email is known, nothing created or linked; first-time: exactly one user with that name and email, the account linked to it, a membership only for SAML with a profile (role from `TeamRole`), storage errors propagated; returning user: linked only when no account is linked, memberships untouched; teams never change |
| `NextAuth.AuthOptions.MintSession` | lib/nextAuth.ts:168-191 | one `Set-Cookie` for the session cookie, carrying the token and an expiry from the second clock reading; a session record with the same token and an expiry from the first reading exactly when the adapter supports `createSession`; a duplicate token throws before the cookie is set and changes nothing |
| `NextAuth.PasswordSignIn` | lib/nextAuth.ts:257-289 | after an allowed sign-in on the credentials callback, `encode` yields the freshly minted session token, `decode` yields nothing, and the session record belongs to the identity's id |
| `NextAuth.LinkAccount` | lib/nextAuth.ts:296-308 | with an adapter that links, stores the account row (kind `oauth`, scope and tokens) for the user, or throws on a taken (provider, providerAccountId); without one, changes nothing |
| `NextAuth.LinkToTeam` | lib/nextAuth.ts:310-338 | an unknown tenant throws and adds nothing; otherwise adds exactly the membership (tenant, user) with the resolved role |
| `Roles.ResolveRole` | lib/nextAuth.ts:319-335 | the scan with `continue` and `break` returns the fold reference `ResolvedRole` |
| `Roles.ResolvedRoleIsLeastUpperBound` | lib/nextAuth.ts:317-335 | the resolved role is at least the start role and every recognised claim, and equals the start role or one of the claims |
| `Roles.OwnerIsTerminal` | lib/nextAuth.ts:331-334 | once OWNER, no later claim changes the role |
| `Roles.AdminWithoutOwner` | lib/nextAuth.ts:324-330 | with an ADMIN claim and no OWNER claim, the role is ADMIN, unless the start role is OWNER, which ADMIN never replaces |
| `Roles.UnrecognisedClaimsKeepStart` | lib/nextAuth.ts:317-335 | when no claim is recognised, the team's start role stands |
| `Roles.ResolvedRoleIgnoresOrder` | lib/nextAuth.ts:319-335 | two claim lists with the same elements resolve to the same role |
| `Roles.OwnerWinsInEitherOrder` | lib/nextAuth.ts:319-335 | `["owner","admin"]` and `["admin","owner"]` both resolve to OWNER from any start role |
| `Roles.ClaimedRole` | lib/nextAuth.ts:324-334 | a claim is recognised only as ADMIN or OWNER; a MEMBER claim is ignored |
| `Roles.PrefixedClaimResolvesAsBare` | lib/nextAuth.ts:320-322 | a claim that starts with the configured prefix resolves as the bare claim does |
| `Roles.UnprefixedClaimComparedAsIs` | lib/nextAuth.ts:320-325 | a claim in which the prefix does not occur is compared unstripped |
| `Roles.PrefixMatchedCaseSensitively` | lib/nextAuth.ts:320-325 | the prefix is stripped before upper-casing, so `APP-OWNER` under the prefix `app-` keeps its prefix and is not recognised |
| `JsStrings.ReplaceFirst` | lib/nextAuth.ts:321 | `replace(prefix, '')` removes exactly the first occurrence of the prefix (the text before it and after it are kept), and leaves a claim without one unchanged |
| `JsStrings.ReplaceFirstStripsLeading` | lib/nextAuth.ts:321 | a claim that starts with the prefix loses exactly that prefix |
| `JsStrings.Upper` | lib/nextAuth.ts:325 | `toUpperCase` keeps the length and maps each character |
| `NextAuth.AuthOptions.Encode` | lib/nextAuth.ts:257-275 | on the credentials callback, the session cookie's value or `''`; elsewhere the library's encoding |
| `NextAuth.AuthOptions.Decode` | lib/nextAuth.ts:276-289 | on the credentials callback, no token; elsewhere the library's decoding |
| `NextAuth.EncodeThenDecode` | lib/nextAuth.ts:256-289 | away from the credentials callback, encode then decode returns the claims whenever the library's pair does; on it, decode yields nothing |
| `NextAuth.FromDate` | lib/nextAuth.ts:340-342 | `fromDate(time, date)` lies exactly `time` whole seconds after `date`, never before it for a non-negative `time` |
| `NextAuth.FromDateMonotone` | lib/nextAuth.ts:340-342 | a later clock reading gives a later or equal expiry, and conversely |
| `NextAuth.SessionLastsThirtyDays` | lib/nextAuth.ts:340-342 | `fromDate(30*24*60*60, now)` is 2,592,000,000 ms after `now` |
| `NextAuth.Jwt` | lib/nextAuth.ts:248-254 | throws only on an update without a session object; on an update with a non-empty name, the name is set and every other claim kept; otherwise the token unchanged |
| `NextAuth.JwtIdempotent` | lib/nextAuth.ts:248-254 | replaying the same update changes nothing further |
| `NextAuth.Exchange.SetCookie` | lib/nextAuth.ts:186-190 | appends exactly one `Set-Cookie` and updates the jar, so `getCookie` then reads the new value |
| `NextAuth.Exchange.GetCookie` | lib/nextAuth.ts:263 | the cookie's value exactly when the jar holds that name |
| `NextAuth.IsCredentialsCallback` | lib/nextAuth.ts:168-171 | only a POST with route segments can be the credentials callback |
| `NextAuth.CredentialsCallbackRoutes` | lib/nextAuth.ts:168-171 | the segments are tested by membership, so either order of `callback` and `credentials` matches on POST; a GET, another provider or no segments do not |
| `NextAuth.Complete` | lib/nextAuth.ts:159 | a complete identity has a user with a non-empty email; without an account it is never complete |
| `NextAuth.ClaimsOf` | lib/nextAuth.ts:316 | `roles`, when present, is used even if empty; otherwise `groups`; every claim comes from the profile |
| `NextAuth.StartingRole` | lib/nextAuth.ts:317 | the team's default role when set, otherwise MEMBER |
| `JsStrings.Interpolate` | lib/nextAuth.ts:208-209 | a string interpolates as itself, a missing name as the text `undefined` or `null` |
| `Store.Database.GetUser` | lib/nextAuth.ts:198 | finds a user exactly when the email is stored, and the user found has that email |
| `Store.Database.GetTeam` | lib/nextAuth.ts:311-313 | the team exactly when the id is stored, with that id; otherwise throws team-not-found |
| `Store.HasAccountFor` | lib/nextAuth.ts:222 | some stored account row belongs to the user, which is what `getAccount({ userId })` finding one means |
| `Store.LinkedAccountIsFound` | lib/nextAuth.ts:222 | after an account row is stored, `getAccount({ userId })` finds an account for its user, and users who had one keep it |
| `Store.Database.CreateUser` | lib/nextAuth.ts:207-210 | adds exactly one user with a fresh id, the given name and email, unverified and without password; nothing else changes |
| `Store.Database.CreateAccount` | lib/nextAuth.ts:298-306 | stores the row under its (provider, providerAccountId), or throws when that key is taken |
| `Store.Database.AddTeamMember` | lib/nextAuth.ts:337 | adds exactly the (team, user) membership with the role |
| `Store.Database.CreateSession` | lib/nextAuth.ts:179-183 | stores the session under its token, or throws and changes nothing when the token is taken |
| `UnlockAccount.Classify` | pages/auth/unlock-account.tsx:102-132 | absent or empty token: missing; not stored: unknown; stored and expired: expired; stored and unexpired: usable |
| `UnlockAccount.PageFor` | pages/auth/unlock-account.tsx:104-144 | not found exactly for a missing token; a non-permanent redirect to `/auth/login?success=account-unlocked` exactly for a usable one; otherwise the matching error text, echoing the token, with resend enabled exactly when expired |
| `UnlockAccount.UsedTokenIsUnknown` | pages/auth/unlock-account.tsx:110-137 | after the token is deleted, the same link shows the invalid-link error without resend |
| `UnlockAccount.AccountLocks.GetServerSideProps` | pages/auth/unlock-account.tsx:99-145 | returns the page for the token's class; only a redirect unlocks the identifier and deletes the token, and the token is then unknown; every other outcome changes nothing |
| `UnlockAccount.AccountLocks.UnlockAccount` | pages/auth/unlock-account.tsx:135 | the identifier is no longer locked |
| `UnlockAccount.AccountLocks.DeleteVerificationToken` | pages/auth/unlock-account.tsx:136 | the token is removed, nothing else changes |

The `Scenarios` module holds client code that uses only these contracts:

- a first SAML sign-in with claims `["admin","owner"]` ends as OWNER of the team;
- a repeat sign-in with a linked account changes nothing;
- a magic link for an unknown email is refused.

## Left out

- Provider registration at module load (lib/nextAuth.ts:31-137). It only pushes library provider objects, chosen by environment flags.
- The `session` callback (lib/nextAuth.ts:231-246). It copies an id into the session object and is not part of the sign-in decision.
- `verifyPassword` (hashing), `validateRecaptcha` (network), `isBusinessEmail`, `isVerificationTokenExpired`, `uuidv4`, `Date.now` and next-auth's signed `encode`/`decode` are parameters. Their implementations are not part of this model.
- The Prisma adapter and the user, account, team and verification-token models are not part of this model. They are represented by map-valued fields.
- lib/accountLock is not part of this model. `unlockAccount(identifier)` is represented as removing the identifier from a set of locked accounts.
- `Promise.allSettled` on unlock: the two storage effects never fail in the model. In the source their failures are swallowed, and the redirect is the same either way.
- `console.log` calls, the React component of the unlock page, and all other UI.
- Storage failures: every adapter call (`getUser`, `createUser`, `linkAccount`, `getAccount`, `getTeam`, `addTeamMember`, `createSession`) is assumed to succeed, apart from the modelled duplicate account, duplicate session token and missing team. In the source any other failure propagates, aborts the sign-in and keeps the writes made before it. `NextAuth.AuthOptions.SignIn`'s `Allowed` outcomes on the first-time and returning-user paths hold only under this assumption.
- Concurrency: simultaneous sign-ins for one email could race on the unique email or membership. `Store.Database.CreateUser` and `Store.Database.AddTeamMember` therefore require that the email or membership is not yet present. A taken account key and a taken session token are modelled as thrown errors.
- JsStrings.Upper: maps ASCII letters only; JavaScript's full Unicode case mapping (which can change length, or map a non-ASCII letter onto an ASCII one) is not modelled.
- A `token` query given as an array, and a SAML profile without `requested`, are not modelled. The source would treat the array as truthy and throw a `TypeError` on the missing `requested`.
- User ids are naturals handed out by the store in creation order, in place of database-generated ids. Nothing depends on their form.
