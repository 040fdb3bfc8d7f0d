/**
 * Team-role resolution for a first-time SAML sign-in: the loop of `linkToTeam`
 * that scans role/group claims against the ordering MEMBER < ADMIN < OWNER.
 */
module Roles {
  import opened Wrappers
  import opened JsStrings

  datatype Role = MEMBER | ADMIN | OWNER

  /** Position of a role in the ordering MEMBER < ADMIN < OWNER. */
  function Rank(r: Role): nat {
    match r
    case MEMBER => 0
    case ADMIN => 1
    case OWNER => 2
  }

  predicate AtLeast(a: Role, b: Role) {
    Rank(a) >= Rank(b)
  }

  /** The higher of `current` and the role a claim names; an unrecognised claim leaves `current`. */
  function Raise(current: Role, claimed: Option<Role>): Role {
    match claimed
    case None => current
    case Some(c) => if Rank(c) > Rank(current) then c else current
  }

  /** A claim after the group prefix is stripped (when one is configured) and upper-cased. */
  function Normalized(claim: string, groupPrefix: Option<string>): string {
    Upper(if Truthy(groupPrefix) then ReplaceFirst(claim, groupPrefix.value) else claim)
  }

  /** The role a claim grants: only "ADMIN" and "OWNER" are recognised, everything else is ignored. */
  function ClaimedRole(claim: string, groupPrefix: Option<string>): (r: Option<Role>)
    ensures r != Some(MEMBER)
  {
    var n := Normalized(claim, groupPrefix);
    if n == "ADMIN" then Some(ADMIN)
    else if n == "OWNER" then Some(OWNER)
    else None
  }

  /**
   * Reference definition of the resolved role: the starting role raised by every
   * recognised claim, taken left to right, with no early exit.
   */
  function ResolvedRole(start: Role, claims: seq<string>, groupPrefix: Option<string>): Role
    decreases |claims|
  {
    if claims == [] then start
    else ResolvedRole(Raise(start, ClaimedRole(claims[0], groupPrefix)), claims[1..], groupPrefix)
  }

  /**
   * The resolved role is the least upper bound of the starting role and the
   * recognised claims: at least each of them, and equal to one of them.
   */
  lemma {:induction false} ResolvedRoleIsLeastUpperBound(start: Role, claims: seq<string>, groupPrefix: Option<string>)
    ensures AtLeast(ResolvedRole(start, claims, groupPrefix), start)
    ensures forall i :: 0 <= i < |claims| && ClaimedRole(claims[i], groupPrefix).Some? ==>
              AtLeast(ResolvedRole(start, claims, groupPrefix), ClaimedRole(claims[i], groupPrefix).value)
    ensures ResolvedRole(start, claims, groupPrefix) == start ||
            exists i :: 0 <= i < |claims| && ClaimedRole(claims[i], groupPrefix) == Some(ResolvedRole(start, claims, groupPrefix))
    decreases |claims|
  {
    if claims != [] {
      var next := Raise(start, ClaimedRole(claims[0], groupPrefix));
      var rest := claims[1..];
      var r := ResolvedRole(start, claims, groupPrefix);
      ResolvedRoleIsLeastUpperBound(next, rest, groupPrefix);
      assert r == ResolvedRole(next, rest, groupPrefix);
      forall i | 0 <= i < |claims| && ClaimedRole(claims[i], groupPrefix).Some?
        ensures AtLeast(r, ClaimedRole(claims[i], groupPrefix).value)
      {
        if i > 0 {
          assert claims[i] == rest[i - 1];
        }
      }
      if r != next {
        var j :| 0 <= j < |rest| && ClaimedRole(rest[j], groupPrefix) == Some(r);
        assert claims[j + 1] == rest[j];
      }
    }
  }

  /** OWNER is terminal: no claim after it changes the resolved role. */
  lemma OwnerIsTerminal(claims: seq<string>, groupPrefix: Option<string>)
    ensures ResolvedRole(OWNER, claims, groupPrefix) == OWNER
  {
    ResolvedRoleIsLeastUpperBound(OWNER, claims, groupPrefix);
  }

  /** The resolved role does not depend on the order in which the claims arrive. */
  lemma ResolvedRoleIgnoresOrder(start: Role, a: seq<string>, b: seq<string>, groupPrefix: Option<string>)
    requires multiset(a) == multiset(b)
    ensures ResolvedRole(start, a, groupPrefix) == ResolvedRole(start, b, groupPrefix)
  {
    var ra := ResolvedRole(start, a, groupPrefix);
    var rb := ResolvedRole(start, b, groupPrefix);
    ResolvedRoleIsLeastUpperBound(start, a, groupPrefix);
    ResolvedRoleIsLeastUpperBound(start, b, groupPrefix);
    if ra != start {
      var i :| 0 <= i < |a| && ClaimedRole(a[i], groupPrefix) == Some(ra);
      assert a[i] in multiset(b);
      var j :| 0 <= j < |b| && b[j] == a[i];
      assert AtLeast(rb, ra);
    }
    if rb != start {
      var j :| 0 <= j < |b| && ClaimedRole(b[j], groupPrefix) == Some(rb);
      assert b[j] in multiset(a);
      var i :| 0 <= i < |a| && a[i] == b[j];
      assert AtLeast(ra, rb);
    }
  }

  /** With no recognised claim the team's starting role stands. */
  lemma UnrecognisedClaimsKeepStart(start: Role, claims: seq<string>, groupPrefix: Option<string>)
    requires forall i :: 0 <= i < |claims| ==> ClaimedRole(claims[i], groupPrefix).None?
    ensures ResolvedRole(start, claims, groupPrefix) == start
  {
    ResolvedRoleIsLeastUpperBound(start, claims, groupPrefix);
  }

  /** ADMIN claims raise a MEMBER or ADMIN start to ADMIN, and never lower an OWNER start. */
  lemma AdminWithoutOwner(start: Role, claims: seq<string>, groupPrefix: Option<string>)
    requires exists i :: 0 <= i < |claims| && ClaimedRole(claims[i], groupPrefix) == Some(ADMIN)
    requires forall i :: 0 <= i < |claims| ==> ClaimedRole(claims[i], groupPrefix) != Some(OWNER)
    ensures ResolvedRole(start, claims, groupPrefix) == if start == OWNER then OWNER else ADMIN
  {
    ResolvedRoleIsLeastUpperBound(start, claims, groupPrefix);
  }

  /** The two claim orders of the sign-in scenario both resolve to OWNER, from any start. */
  lemma OwnerWinsInEitherOrder(start: Role)
    ensures ResolvedRole(start, ["owner", "admin"], None) == OWNER
    ensures ResolvedRole(start, ["admin", "owner"], None) == OWNER
  {
    UpperIs("owner", "OWNER");
    UpperIs("admin", "ADMIN");
    ResolvedRoleIsLeastUpperBound(start, ["owner", "admin"], None);
    ResolvedRoleIsLeastUpperBound(start, ["admin", "owner"], None);
    assert ClaimedRole(["owner", "admin"][0], None) == Some(OWNER);
    assert ClaimedRole(["admin", "owner"][1], None) == Some(OWNER);
  }

  /** A claim carrying the configured prefix resolves as the bare claim does, whatever its case. */
  lemma PrefixedClaimResolvesAsBare(groupPrefix: string, claim: string)
    requires groupPrefix != ""
    ensures ClaimedRole(groupPrefix + claim, Some(groupPrefix)) == ClaimedRole(claim, None)
  {
    ReplaceFirstStripsLeading(groupPrefix, claim);
  }

  /** A claim in which the configured prefix does not occur is compared unstripped. */
  lemma UnprefixedClaimComparedAsIs(groupPrefix: string, claim: string)
    requires forall j: nat :: !OccursAt(claim, groupPrefix, j)
    ensures ClaimedRole(claim, Some(groupPrefix)) == ClaimedRole(claim, None)
  {
  }

  /**
   * The prefix is stripped before upper-casing, so it matches case-sensitively:
   * an upper-cased claim such as "APP-OWNER" keeps the prefix "app-" and is not
   * recognised.
   */
  lemma PrefixMatchedCaseSensitively()
    ensures ClaimedRole("APP-OWNER", Some("app-")) == None
  {
    AbsentWithoutFirstChar("APP-OWNER", "app-");
    UnprefixedClaimComparedAsIs("app-", "APP-OWNER");
    assert Upper("APP-OWNER")[0] == 'A' != 'O';
  }

  /** A pattern whose first character never appears in `s` does not occur in `s`. */
  lemma AbsentWithoutFirstChar(s: string, pat: string)
    requires |pat| > 0
    requires forall k :: 0 <= k < |s| ==> s[k] != pat[0]
    ensures forall j: nat :: !OccursAt(s, pat, j)
  {
    forall j: nat ensures !OccursAt(s, pat, j) {
      if j + |pat| <= |s| {
        assert s[j..j + |pat|][0] == s[j] != pat[0];
      }
    }
  }

  /**
   * The scan of `linkToTeam`: ADMIN upgrades unless the role is already OWNER and
   * moves on; OWNER sets the role and stops; other claims are skipped.
   */
  method ResolveRole(start: Role, claims: seq<string>, groupPrefix: Option<string>) returns (role: Role)
    ensures role == ResolvedRole(start, claims, groupPrefix)
  {
    role := start;
    var i := 0;
    while i < |claims|
      invariant 0 <= i <= |claims|
      invariant ResolvedRole(role, claims[i..], groupPrefix) == ResolvedRole(start, claims, groupPrefix)
    {
      var upper := Normalized(claims[i], groupPrefix);
      ResolvedRoleStep(role, claims, i, groupPrefix);
      ScanMatchesRaise(role, claims[i], groupPrefix);
      if upper == "ADMIN" && role != OWNER {
        role := ADMIN;
        i := i + 1;
        continue;
      }
      if upper == "OWNER" {
        OwnerIsTerminal(claims[i + 1..], groupPrefix);
        role := OWNER;
        break;
      }
      i := i + 1;
    }
    if i == |claims| {
      assert claims[i..] == [];
    }
  }

  /** Each branch of the scan's body agrees with `Raise`. */
  lemma ScanMatchesRaise(role: Role, claim: string, groupPrefix: Option<string>)
    ensures var upper := Normalized(claim, groupPrefix);
            && (upper == "ADMIN" && role != OWNER ==> Raise(role, ClaimedRole(claim, groupPrefix)) == ADMIN)
            && (upper == "OWNER" ==> Raise(role, ClaimedRole(claim, groupPrefix)) == OWNER)
            && (!(upper == "ADMIN" && role != OWNER) && upper != "OWNER" ==>
                  Raise(role, ClaimedRole(claim, groupPrefix)) == role)
  {
  }

  /** One step of the scan: the claim at `i` raises the role, then the rest follow. */
  lemma ResolvedRoleStep(role: Role, claims: seq<string>, i: nat, groupPrefix: Option<string>)
    requires i < |claims|
    ensures ResolvedRole(role, claims[i..], groupPrefix)
         == ResolvedRole(Raise(role, ClaimedRole(claims[i], groupPrefix)), claims[i + 1..], groupPrefix)
  {
    assert claims[i..][0] == claims[i];
    assert claims[i..][1..] == claims[i + 1..];
  }
}
