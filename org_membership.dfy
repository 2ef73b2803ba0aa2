/** getUserOrgMembership, which internal/provider/user_data_source.go and
    internal/provider/users_data_source.go each define with the same body: find the first
    organisation, in list order, that has the user as an owner or a member, checking owners
    first. */
module OrgMembership {
  import opened TfValues

  /** One organisation as the search sees it: its id and the replies to the owner and member
      listings, None when a listing failed or came back nil. */
  datatype OrgListing = OrgListing(id: string, owners: Option<seq<string>>, members: Option<seq<string>>)

  predicate IsOwner(org: OrgListing, user: string)
  {
    org.owners.Some? && user in org.owners.value
  }

  predicate IsMember(org: OrgListing, user: string)
  {
    org.members.Some? && user in org.members.value
  }

  predicate Holds(org: OrgListing, user: string)
  {
    IsOwner(org, user) || IsMember(org, user)
  }

  /** Organisation `i` is the first in the list that holds the user. */
  predicate FirstHolder(orgs: seq<OrgListing>, user: string, i: int)
  {
    0 <= i < |orgs| && Holds(orgs[i], user) && forall j :: 0 <= j < i ==> !Holds(orgs[j], user)
  }

  /** There is only one first holder. */
  lemma FirstHolderUnique(orgs: seq<OrgListing>, user: string, i: int, k: int)
    requires FirstHolder(orgs, user, i) && FirstHolder(orgs, user, k)
    ensures i == k
  {
  }

  /** (orgId, role) names organisation `i` as the first holder, with the role it holds. */
  predicate ReportsFirst(orgs: seq<OrgListing>, user: string, i: int, orgId: string, role: string)
  {
    FirstHolder(orgs, user, i) && orgId == orgs[i].id && role == if IsOwner(orgs[i], user) then "owner" else "member"
  }

  /** The (organisation id, role) pair the search reports, as a specification. */
  function FirstMembership(orgs: seq<OrgListing>, user: string): (string, string)
  {
    if |orgs| == 0 then ("", "")
    else if IsOwner(orgs[0], user) then (orgs[0].id, "owner")
    else if IsMember(orgs[0], user) then (orgs[0].id, "member")
    else FirstMembership(orgs[1..], user)
  }

  /** The search reports the first holding organisation, as owner when the user owns it and as
      member otherwise, and ("", "") exactly when no organisation holds the user. */
  lemma {:induction false} FirstMembershipIsFirst(orgs: seq<OrgListing>, user: string)
    ensures var (orgId, role) := FirstMembership(orgs, user);
      && (role == "" <==> forall i :: 0 <= i < |orgs| ==> !Holds(orgs[i], user))
      && (role == "" ==> orgId == "")
      && (role != "" ==> exists i :: ReportsFirst(orgs, user, i, orgId, role))
  {
    if |orgs| > 0 && !Holds(orgs[0], user) {
      FirstMembershipIsFirst(orgs[1..], user);
      var (orgId, role) := FirstMembership(orgs, user);
      assert forall i :: 1 <= i < |orgs| ==> orgs[i] == orgs[1..][i - 1];
      if role != "" {
        var k :| ReportsFirst(orgs[1..], user, k, orgId, role);
        assert ReportsFirst(orgs, user, k + 1, orgId, role);
      } else {
        forall i | 0 <= i < |orgs| ensures !Holds(orgs[i], user) {
          if i > 0 { assert !Holds(orgs[1..][i - 1], user); }
        }
      }
    } else if |orgs| > 0 {
      var (orgId, role) := FirstMembership(orgs, user);
      assert ReportsFirst(orgs, user, 0, orgId, role);
    }
  }

  /** Conversely, the first holding organisation is the one the search reports, with its role. */
  lemma FirstHolderIsReported(orgs: seq<OrgListing>, user: string)
    ensures forall i :: FirstHolder(orgs, user, i) ==>
      FirstMembership(orgs, user) == (orgs[i].id, if IsOwner(orgs[i], user) then "owner" else "member")
  {
    forall i | FirstHolder(orgs, user, i)
      ensures FirstMembership(orgs, user) == (orgs[i].id, if IsOwner(orgs[i], user) then "owner" else "member")
    {
      FirstMembershipIsFirst(orgs, user);
      var (orgId, role) := FirstMembership(orgs, user);
      var k :| ReportsFirst(orgs, user, k, orgId, role);
      FirstHolderUnique(orgs, user, i, k);
    }
  }

  /** getUserOrgMembership: a failed organisation listing is returned as an error; a failed
      owner or member listing only skips that check. */
  method GetUserOrgMembership(orgs: Result<seq<OrgListing>>, userId: string)
    returns (orgId: string, orgRole: string, err: Option<string>)
    ensures orgs.Err? ==> orgId == "" && orgRole == "" && err == Some("failed to get organizations: " + orgs.msg)
    ensures orgs.Ok? ==> err.None? && (orgId, orgRole) == FirstMembership(orgs.value, userId)
  {
    if orgs.Err? {
      return "", "", Some("failed to get organizations: " + orgs.msg);
    }
    var list := orgs.value;
    var i := 0;
    while i < |list|
      invariant 0 <= i <= |list|
      invariant FirstMembership(list, userId) == FirstMembership(list[i..], userId)
    {
      var org := list[i];
      assert list[i..][0] == org && list[i..][1..] == list[i + 1..];
      if org.owners.Some? {
        var owners := org.owners.value;
        var k := 0;
        while k < |owners|
          invariant 0 <= k <= |owners|
          invariant forall m :: 0 <= m < k ==> owners[m] != userId
        {
          if owners[k] == userId {
            return org.id, "owner", None;
          }
          k := k + 1;
        }
      }
      if org.members.Some? {
        var members := org.members.value;
        var k := 0;
        while k < |members|
          invariant 0 <= k <= |members|
          invariant forall m :: 0 <= m < k ==> members[m] != userId
        {
          if members[k] == userId {
            return org.id, "member", None;
          }
          k := k + 1;
        }
      }
      i := i + 1;
    }
    return "", "", None;
  }

  /** The org_id and org_role the user data sources store for a search outcome: both null when
      the search failed or found nothing (an empty organisation id), both set otherwise. */
  function MembershipFields(orgs: Result<seq<OrgListing>>, userId: string): (r: (TfString, TfString))
    ensures r.0.Null? <==> r.1.Null?
    ensures r.1.Known? ==> r.1.s == "owner" || r.1.s == "member"
    ensures orgs.Err? ==> r == (Null, Null)
    ensures orgs.Ok? && (forall i :: 0 <= i < |orgs.value| ==> !Holds(orgs.value[i], userId)) ==> r == (Null, Null)
    ensures r.0.Known? ==> orgs.Ok? && r.0.s != "" && r.1.Known? && exists i :: ReportsFirst(orgs.value, userId, i, r.0.s, r.1.s)
    ensures orgs.Ok? ==> forall i :: FirstHolder(orgs.value, userId, i) && orgs.value[i].id != "" ==>
      r == (Known(orgs.value[i].id), Known(if IsOwner(orgs.value[i], userId) then "owner" else "member"))
  {
    FirstMembershipIsFirst(if orgs.Ok? then orgs.value else [], userId);
    FirstHolderIsReported(if orgs.Ok? then orgs.value else [], userId);
    if orgs.Err? then (Null, Null)
    else
      var (orgId, orgRole) := FirstMembership(orgs.value, userId);
      if orgId != "" then (Known(orgId), Known(orgRole)) else (Null, Null)
  }
}
