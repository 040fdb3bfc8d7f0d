/**
 * The server side of the unlock-account page: classify the `token` query
 * parameter, and only for a known, unexpired token unlock the account, delete
 * the token and redirect to the login page.
 */
module UnlockAccount {
  import opened Wrappers
  import opened JsStrings

  const INVALID_LINK :=
    "The link is invalid or has already been used. Please contact support if you need further assistance."
  const EXPIRED_LINK :=
    "The link has expired. Please request a new one if you still need to unlock your account."
  const UNLOCKED_DESTINATION := "/auth/login?success=account-unlocked"

  /** A stored verification token: whose account it unlocks and its value. */
  datatype VerificationToken = VerificationToken(identifier: string, token: string, expires: int)

  /** The four cases the page distinguishes. */
  datatype TokenStatus =
    | Missing                                          // no (or an empty) `token` parameter
    | Unknown(token: string)                           // no stored token has that value
    | Expired(token: string, record: VerificationToken)
    | Usable(record: VerificationToken)

  /** What `getServerSideProps` returns. */
  datatype PageResult =
    | NotFound
    | ErrorProps(error: string, enableRequestNewToken: bool, token: string)
    | Redirect(destination: string, permanent: bool)

  /** Classification of the query token against the stored tokens and the expiry test. */
  function Classify(
    query: Option<string>, tokens: map<string, VerificationToken>, isExpired: VerificationToken -> bool)
    : (status: TokenStatus)
    ensures status.Missing? <==> !Truthy(query)
    ensures status.Unknown? <==> Truthy(query) && query.value !in tokens
    ensures status.Expired? <==> Truthy(query) && query.value in tokens && isExpired(tokens[query.value])
    ensures status.Usable? <==> Truthy(query) && query.value in tokens && !isExpired(tokens[query.value])
    ensures status.Unknown? || status.Expired? ==> status.token == query.value
    ensures status.Expired? || status.Usable? ==> status.record == tokens[query.value]
  {
    if !Truthy(query) then Missing
    else if query.value !in tokens then Unknown(query.value)
    else if isExpired(tokens[query.value]) then Expired(query.value, tokens[query.value])
    else Usable(tokens[query.value])
  }

  /** The page each case produces. */
  function PageFor(status: TokenStatus): (page: PageResult)
    ensures page.NotFound? <==> status.Missing?
    ensures page.Redirect? <==> status.Usable?
    ensures page.Redirect? ==> page == Redirect(UNLOCKED_DESTINATION, false)
    ensures page.ErrorProps? ==> page.token == status.token
    ensures page.ErrorProps? ==> (page.enableRequestNewToken <==> status.Expired?)
    ensures page.ErrorProps? ==> page.error == if status.Expired? then EXPIRED_LINK else INVALID_LINK
  {
    match status
    case Missing => NotFound
    case Unknown(token) => ErrorProps(INVALID_LINK, false, token)
    case Expired(token, _) => ErrorProps(EXPIRED_LINK, true, token)
    case Usable(_) => Redirect(UNLOCKED_DESTINATION, false)
  }

  /** Once used, a token is unknown: the same link then shows the invalid-link error. */
  lemma UsedTokenIsUnknown(
    query: Option<string>, tokens: map<string, VerificationToken>, isExpired: VerificationToken -> bool)
    requires Classify(query, tokens, isExpired).Usable?
    ensures PageFor(Classify(query, tokens - {query.value}, isExpired))
         == ErrorProps(INVALID_LINK, false, query.value)
  {
  }

  /** The verification tokens and the set of locked accounts the page acts on. */
  class AccountLocks {
    var tokens: map<string, VerificationToken>
    var locked: set<string>

    ghost predicate Valid()
      reads this
    {
      forall t :: t in tokens ==> tokens[t].token == t
    }

    constructor (tokens: map<string, VerificationToken>, locked: set<string>)
      requires forall t :: t in tokens ==> tokens[t].token == t
      ensures Valid() && this.tokens == tokens && this.locked == locked
    {
      this.tokens := tokens;
      this.locked := locked;
    }

    /**
     * `getServerSideProps`. Unlocking the account and deleting the token happen
     * only for a usable token, and are the only changes.
     */
    method GetServerSideProps(query: Option<string>, isExpired: VerificationToken -> bool)
      returns (page: PageResult)
      requires Valid()
      modifies this
      ensures Valid()
      ensures page == PageFor(Classify(query, old(tokens), isExpired))
      ensures page.Redirect? ==>
                && locked == old(locked) - {old(tokens)[query.value].identifier}
                && tokens == old(tokens) - {query.value}
                && Classify(query, tokens, isExpired).Unknown?
      ensures !page.Redirect? ==> locked == old(locked) && tokens == old(tokens)
    {
      if !Truthy(query) {
        return NotFound;
      }
      var token := query.value;
      if token !in tokens {
        return ErrorProps(INVALID_LINK, false, token);
      }
      var record := tokens[token];
      if isExpired(record) {
        return ErrorProps(EXPIRED_LINK, true, token);
      }
      UnlockAccount(record.identifier);
      DeleteVerificationToken(record.token);
      page := Redirect(UNLOCKED_DESTINATION, false);
    }

    /** `unlockAccount(identifier)`: the account is no longer locked. */
    method UnlockAccount(identifier: string)
      modifies this
      ensures locked == old(locked) - {identifier} && tokens == old(tokens)
    {
      locked := locked - {identifier};
    }

    /** `deleteVerificationToken(token)`. */
    method DeleteVerificationToken(token: string)
      requires Valid()
      modifies this
      ensures Valid()
      ensures tokens == old(tokens) - {token} && locked == old(locked)
    {
      tokens := tokens - {token};
    }
  }
}
