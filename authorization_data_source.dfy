/** Read of the influxdb_authorization data source (internal/provider/authorization_data_source.go):
    the same search by id as the resource, then the matched authorization's permissions
    appended to the configured list and its scalar fields written over the configuration. */
module AuthorizationDataSource {
  import opened TfValues
  import opened Authorization

  /** Go's append of a whole list, one element at a time: a nil slice stays nil when nothing
      is appended. */
  function AppendAll<T>(s: GoSlice<T>, xs: seq<T>): (r: GoSlice<T>)
    ensures Elements(r) == Elements(s) + xs
    ensures r.Nil? <==> s.Nil? && xs == []
  {
    if xs == [] then s else Slice(Elements(s) + xs)
  }

  /** The state the data source stores for the matched authorization. */
  function Matched(config: AuthorizationModel, a: DomainAuthorization): (r: AuthorizationModel)
    ensures Elements(r.permissions) == Elements(config.permissions) + PermissionModels(a.permissions)
    ensures r.id == Known(a.id) && r.token == StringPointerValue(a.token) && r.status == Known(a.status)
    ensures r.org == StringPointerValue(a.org) && r.orgId == StringPointerValue(a.orgId)
    ensures r.description == Known(a.description)
    ensures r.createdAt == Known(a.createdAt.text) && r.updatedAt == Known(a.updatedAt.text)
    ensures r.userId == config.userId && r.user == config.user
  {
    config.(
      permissions := AppendAll(config.permissions, PermissionModels(a.permissions)),
      id := StringPointerValue(Some(a.id)), org := StringPointerValue(a.org),
      orgId := StringPointerValue(a.orgId), token := StringPointerValue(a.token),
      createdAt := Known(a.createdAt.text), updatedAt := Known(a.updatedAt.text),
      description := Known(a.description), status := Known(a.status))
  }

  /** Read, lines 145-212. The listing is an input; None means no state is set. The
      configured id is dereferenced, so it must not be null. */
  method Read(config: AuthorizationModel, listing: Result<seq<DomainAuthorization>>)
    returns (state: Option<AuthorizationModel>, diags: seq<Diagnostic>)
    requires !config.id.Null?
    ensures listing.Err? ==> state.None? && diags == [ErrorOf("Error getting Authorizations")]
    ensures listing.Ok? && (forall i :: 0 <= i < |listing.value| ==> listing.value[i].id != ValueString(config.id)) ==>
      state.None? && diags == [ErrorOf("Authorization not found")]
    ensures listing.Ok? && (exists i :: 0 <= i < |listing.value| && listing.value[i].id == ValueString(config.id)) ==>
      diags == [] && exists i :: FirstWithId(listing.value, ValueString(config.id), i) && state == Some(Matched(config, listing.value[i]))
  {
    if listing.Err? {
      return None, [ErrorOf("Error getting Authorizations")];
    }
    var wanted := ValueStringPointer(config.id).value;
    var authorization := FindAuthorization(listing.value, wanted);
    if authorization.None? {
      return None, [ErrorOf("Authorization not found")];
    }
    var a := authorization.value;
    var s := config;
    for i := 0 to |a.permissions|
      invariant s == config.(permissions := AppendAll(config.permissions, PermissionModels(a.permissions[..i])))
    {
      assert a.permissions[..i + 1] == a.permissions[..i] + [a.permissions[i]];
      s := s.(permissions := Append(s.permissions, PermissionToModel(a.permissions[i])));
    }
    assert a.permissions[..|a.permissions|] == a.permissions;
    s := s.(
      id := StringPointerValue(Some(a.id)), org := StringPointerValue(a.org),
      orgId := StringPointerValue(a.orgId), token := StringPointerValue(a.token),
      createdAt := Known(a.createdAt.text), updatedAt := Known(a.updatedAt.text),
      description := Known(a.description), status := Known(a.status));
    return Some(s), [];
  }

  /** An authorization without permissions leaves an unset (null) permission list null, where
      the resource's getPermissions would store an empty list. */
  lemma NoPermissionsStayNull(config: AuthorizationModel, a: DomainAuthorization)
    requires config.permissions.Nil? && a.permissions == []
    ensures Matched(config, a).permissions.Nil?
  {
  }

  /** The data source and the resource agree on the permissions of an authorization whenever
      the configuration lists none. */
  lemma AgreesWithResource(config: AuthorizationModel, a: DomainAuthorization)
    requires Elements(config.permissions) == []
    ensures Elements(Matched(config, a).permissions) == Elements(Refreshed(config, a).permissions)
  {
  }
}
