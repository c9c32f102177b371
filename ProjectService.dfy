/** The two pure pieces of the project service: the project-role gate and
    the formatting of a new API key. */
module Projects {

  /** `Array.prototype.indexOf` / `String.prototype.indexOf` on one element:
      the first position holding `x`, or -1. */
  function IndexOf<T(==)>(s: seq<T>, x: T): (i: int)
    ensures -1 <= i < |s|
    ensures i == -1 <==> x !in s
    ensures 0 <= i ==> s[i] == x && x !in s[..i]
  {
    if s == [] then -1
    else if s[0] == x then 0
    else
      var j := IndexOf(s[1..], x);
      if j < 0 then -1
      else
        assert s[..j + 1] == [s[0]] + s[1..][..j];
        j + 1
  }

  /** No role is listed twice. */
  predicate NoDuplicates<T(==)>(s: seq<T>) {
    forall i, j | 0 <= i < j < |s| :: s[i] != s[j]
  }

  /** In a duplicate-free list every element is found at its own position. */
  lemma IndexOfListed<T>(s: seq<T>, i: nat)
    requires NoDuplicates(s)
    requires i < |s|
    ensures IndexOf(s, s[i]) == i
  {
    assert s[i] in s;
  }

  // ---------------------------------------------------------------------------
  // Role gate

  /** The `RequestError` the gate throws. */
  datatype RequestError = RequestError(message: string, status: int)

  datatype Gate = Admitted | Refused(error: RequestError)

  /** `requireProjectRole(ctx, minRole)` against the ordered list
      `projectRoles` (lowest first): refuses with 403 when the minimum role
      comes later in the list than the caller's role, whose index is -1 when
      it is not listed at all. */
  function RequireProjectRole(projectRoles: seq<string>, callerRole: string, minRole: string): (r: Gate)
    ensures r.Refused? <==> IndexOf(projectRoles, minRole) > IndexOf(projectRoles, callerRole)
    ensures r.Refused? ==> r.error == RequestError("minimum project role " + minRole + " is required", 403)
    ensures callerRole == minRole ==> r.Admitted?
    ensures callerRole !in projectRoles && minRole in projectRoles ==> r.Refused?
  {
    if IndexOf(projectRoles, minRole) > IndexOf(projectRoles, callerRole) then
      Refused(RequestError("minimum project role " + minRole + " is required", 403))
    else
      Admitted
  }

  /** Between listed roles the gate is the list's order: the role at
      position `caller` passes the minimum at position `min` exactly when
      `min` is not later than `caller`. */
  lemma AdmittedIffNotLower(projectRoles: seq<string>, caller: nat, min: nat)
    requires NoDuplicates(projectRoles)
    requires caller < |projectRoles| && min < |projectRoles|
    ensures RequireProjectRole(projectRoles, projectRoles[caller], projectRoles[min]).Admitted? <==> min <= caller
  {
    IndexOfListed(projectRoles, caller);
    IndexOfListed(projectRoles, min);
  }

  /** Monotonicity: a role that passes a minimum is passed by every role
      listed after it. */
  lemma HigherRoleAdmitted(projectRoles: seq<string>, lower: nat, higher: nat, minRole: string)
    requires NoDuplicates(projectRoles)
    requires lower <= higher < |projectRoles|
    requires RequireProjectRole(projectRoles, projectRoles[lower], minRole).Admitted?
    ensures RequireProjectRole(projectRoles, projectRoles[higher], minRole).Admitted?
  {
    IndexOfListed(projectRoles, lower);
    IndexOfListed(projectRoles, higher);
  }

  // ---------------------------------------------------------------------------
  // API keys

  /** `s.replace(c, '')` with a one-character string pattern: only the first
      occurrence of `c` is removed. */
  function RemoveFirst(s: string, c: char): (r: string)
    ensures c !in s ==> r == s
    ensures c in s ==> r == s[..IndexOf(s, c)] + s[IndexOf(s, c) + 1..]
  {
    if s == [] then []
    else if s[0] == c then s[1..]
    else [s[0]] + RemoveFirst(s[1..], c)
  }

  /** Exactly one `c` goes, so a string with several keeps the rest. */
  lemma {:induction false} RemoveFirstCount(s: string, c: char)
    ensures c in s ==> multiset(RemoveFirst(s, c))[c] == multiset(s)[c] - 1
  {
    if c in s {
      var i := IndexOf(s, c);
      var before, after := s[..i], s[i + 1..];
      assert s == before + [c] + after;
      assert multiset(s) == multiset(before) + multiset{c} + multiset(after);
      assert multiset(RemoveFirst(s, c)) == multiset(before) + multiset(after);
    }
  }

  /** `generateApiKey(scope)` over a given uuid: `pk_` for public scope,
      `sk_` for any other, then the uuid without its first dash. */
  function GenerateApiKey(scope: string, uuid: string): (key: string)
    ensures |key| >= 3
    ensures key[..3] == (if scope == "public" then "pk_" else "sk_")
    ensures key[3..] == RemoveFirst(uuid, '-')
  {
    (if scope == "public" then "pk" else "sk") + "_" + RemoveFirst(uuid, '-')
  }

  predicate IsHexDigit(ch: char) {
    '0' <= ch <= '9' || 'a' <= ch <= 'f' || 'A' <= ch <= 'F'
  }

  /** The 8-4-4-4-12 textual form of a uuid. */
  predicate IsCanonicalUuid(u: string) {
    && |u| == 36
    && forall i | 0 <= i < 36 :: if i == 8 || i == 13 || i == 18 || i == 23 then u[i] == '-' else IsHexDigit(u[i])
  }

  /** For a canonical uuid the key is the prefix, the first group and the
      rest of the uuid with its three remaining dashes in place. */
  lemma ApiKeyOfCanonicalUuid(scope: string, u: string)
    requires IsCanonicalUuid(u)
    ensures |GenerateApiKey(scope, u)| == 38
    ensures GenerateApiKey(scope, u)[3..11] == u[..8]
    ensures GenerateApiKey(scope, u)[11..] == u[9..]
    ensures forall i | 3 <= i < 38 :: GenerateApiKey(scope, u)[i] == '-' <==> (i == 15 || i == 20 || i == 25)
  {
    assert u[8] == '-';
    forall i | 0 <= i < 8 ensures u[i] != '-' {
      assert IsHexDigit(u[i]);
    }
    assert '-' !in u[..8];
    assert IndexOf(u, '-') == 8;
    var key := GenerateApiKey(scope, u);
    assert key[3..] == u[..8] + u[9..];
    forall i | 3 <= i < 38 ensures key[i] == '-' <==> (i == 15 || i == 20 || i == 25) {
      if i < 11 {
        assert key[i] == u[i - 3];
      } else {
        assert key[i] == u[i - 2];
      }
    }
  }
}
