/** Read of the influxdb_users data source (internal/provider/users_data_source.go). */
module UsersDataSource {
  import opened TfValues
  import opened UserResource
  import opened OrgMembership

  /** The entry Read builds for one user whose membership search saw `orgs`: the password is
      never assigned and stays null. */
  function UserEntry(user: ApiUser, orgs: Result<seq<OrgListing>>): (r: UserModel)
    requires user.id.Some?
    ensures r.password == Null && r.orgId.Null? == r.orgRole.Null?
    ensures r.id == Known(user.id.value) && r.name == Known(user.name) && r.status == Known(user.status)
    ensures (r.orgId, r.orgRole) == MembershipFields(orgs, user.id.value)
  {
    var (orgId, orgRole) := MembershipFields(orgs, user.id.value);
    UserModel(Known(user.id.value), Known(user.name), Null, orgId, orgRole, Known(user.status))
  }

  /** The loop body of Read, lines 118-144: the entry for one user and whether its membership
      search failed. */
  method BuildEntry(user: ApiUser, orgs: Result<seq<OrgListing>>) returns (entry: UserModel, failed: bool)
    requires user.id.Some?
    ensures entry == UserEntry(user, orgs)
    ensures failed <==> orgs.Err?
  {
    entry := UserModel(Known(user.id.value), Known(user.name), Null, Null, Null, Known(user.status));
    var orgId, orgRole, err := GetUserOrgMembership(orgs, user.id.value);
    failed := err.Some?;
    if err.Some? {
      entry := entry.(orgId := Null, orgRole := Null);
    } else if orgId != "" {
      entry := entry.(orgId := Known(orgId), orgRole := Known(orgRole));
    } else {
      entry := entry.(orgId := Null, orgRole := Null);
    }
  }

  /** The number of the first `n` membership searches whose organisation listing failed. */
  function FailedSearches(orgsFor: nat -> Result<seq<OrgListing>>, n: nat): nat
  {
    if n == 0 then 0 else FailedSearches(orgsFor, n - 1) + (if orgsFor(n - 1).Err? then 1 else 0)
  }

  /** The warnings of the first `n` searches: one per failed search, in user order. */
  function Warnings(orgsFor: nat -> Result<seq<OrgListing>>, n: nat): (r: seq<Diagnostic>)
    ensures |r| == FailedSearches(orgsFor, n)
    ensures forall i :: 0 <= i < |r| ==> r[i] == WarningOf("Unable to get organization membership for user")
  {
    if n == 0 then []
    else Warnings(orgsFor, n - 1) + (if orgsFor(n - 1).Err? then [WarningOf("Unable to get organization membership for user")] else [])
  }

  /** Every listed user carries an id (the loop dereferences it). */
  predicate HaveIds(users: seq<ApiUser>)
  {
    forall i :: 0 <= i < |users| ==> users[i].id.Some?
  }

  /** The entries of the first `n` users, in API order. */
  function Entries(users: seq<ApiUser>, orgsFor: nat -> Result<seq<OrgListing>>, n: nat): (r: seq<UserModel>)
    requires n <= |users| && HaveIds(users)
    ensures |r| == n
    ensures forall i :: 0 <= i < n ==> r[i] == UserEntry(users[i], orgsFor(i))
  {
    if n == 0 then [] else Entries(users, orgsFor, n - 1) + [UserEntry(users[n - 1], orgsFor(n - 1))]
  }

  /** Read: one entry per listed user, in API order. `orgsFor(i)` is the reply to the
      organisation listing made for the i-th user; a failure there is a warning for that user
      only and the loop goes on. */
  method Read(users: Result<seq<ApiUser>>, orgsFor: nat -> Result<seq<OrgListing>>)
    returns (state: Option<GoSlice<UserModel>>, diags: seq<Diagnostic>)
    requires users.Ok? ==> HaveIds(users.value)
    ensures users.Err? ==> state == None && diags == [ErrorOf("Unable to list users")]
    ensures users.Ok? ==> state.Some? && (state.value.Nil? <==> users.value == [])
    ensures users.Ok? ==> Elements(state.value) == Entries(users.value, orgsFor, |users.value|)
    ensures users.Ok? ==> diags == Warnings(orgsFor, |users.value|)
  {
    if users.Err? {
      return None, [ErrorOf("Unable to list users")];
    }
    var list := users.value;
    var result: GoSlice<UserModel> := Nil;
    diags := [];
    var i := 0;
    while i < |list|
      invariant 0 <= i <= |list|
      invariant result.Nil? <==> i == 0
      invariant Elements(result) == Entries(list, orgsFor, i)
      invariant diags == Warnings(orgsFor, i)
    {
      var userState, failed := BuildEntry(list[i], orgsFor(i));
      assert Entries(list, orgsFor, i + 1) == Entries(list, orgsFor, i) + [userState];
      if failed {
        diags := diags + [WarningOf("Unable to get organization membership for user")];
      }
      result := Append(result, userState);
      i := i + 1;
    }
    state := Some(result);
  }
}
