/** Read of the influxdb_user data source (internal/provider/user_data_source.go). */
module UserDataSource {
  import opened TfValues
  import opened UserResource
  import opened OrgMembership

  /** Read: a null id is rejected before any lookup; a failed user lookup is an error; a failed
      membership search is only a warning and leaves org_id and org_role null. The API user's
      id is dereferenced by the source, so a found user must carry one. */
  method Read(config: UserModel, found: Result<ApiUser>, orgs: Result<seq<OrgListing>>)
    returns (state: Option<UserModel>, diags: seq<Diagnostic>)
    requires found.Ok? ==> found.value.id.Some?
    ensures config.id.Null? ==> state == None && diags == [ErrorOf("Id is empty")]
    ensures !config.id.Null? && found.Err? ==> state == None && diags == [ErrorOf("Unable to retrieves user")]
    ensures !config.id.Null? && found.Ok? ==>
      && state.Some?
      && state.value.id == Known(found.value.id.value)
      && state.value.name == Known(found.value.name)
      && state.value.status == Known(found.value.status)
      && state.value.password == Null
      && (state.value.orgId, state.value.orgRole) == MembershipFields(orgs, found.value.id.value)
      && diags == if orgs.Err? then [WarningOf("Unable to get organization membership for user")] else []
  {
    if config.id.Null? {
      return None, [ErrorOf("Id is empty")];
    }
    if found.Err? {
      return None, [ErrorOf("Unable to retrieves user")];
    }
    var user := found.value;
    var userState := UserModel(Known(user.id.value), Known(user.name), Null, Null, Null, Known(user.status));
    diags := [];
    var orgId, orgRole, err := GetUserOrgMembership(orgs, user.id.value);
    if err.Some? {
      diags := [WarningOf("Unable to get organization membership for user")];
      userState := userState.(orgId := Null, orgRole := Null);
    } else if orgId != "" {
      userState := userState.(orgId := Known(orgId), orgRole := Known(orgRole));
    } else {
      userState := userState.(orgId := Null, orgRole := Null);
    }
    state := Some(userState);
  }
}
