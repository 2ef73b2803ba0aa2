/** The decisions inside the influxdb_authorization resource
    (internal/provider/authorization_resource.go, with the record of authorization_model.go):
    the search by id, the status sent on update, the conversion of permissions between the
    API's records and Terraform's, and the value sets the schema validates. */
module Authorization {
  import opened TfValues

  /** domain.Resource: the optional fields are Go pointers. */
  datatype DomainResource = DomainResource(
    id: Option<string>, name: Option<string>, org: Option<string>, orgId: Option<string>, resourceType: string)

  /** domain.Permission */
  datatype DomainPermission = DomainPermission(action: string, resource: DomainResource)

  /** domain.Authorization as the provider reads it. Id, description, status and permissions
      are dereferenced unguarded by the code, so they are plain values here. */
  datatype DomainAuthorization = DomainAuthorization(
    id: string, org: Option<string>, orgId: Option<string>, token: Option<string>,
    createdAt: Instant, updatedAt: Instant, description: string, status: string,
    permissions: seq<DomainPermission>)

  /** AuthorizationPermissionResourceModel */
  datatype ResourceModel = ResourceModel(id: TfString, name: TfString, org: TfString, orgId: TfString, resourceType: TfString)

  /** AuthorizationPermissionModel */
  datatype PermissionModel = PermissionModel(action: TfString, resource: ResourceModel)

  /** AuthorizationModel */
  datatype AuthorizationModel = AuthorizationModel(
    id: TfString, token: TfString, status: TfString, description: TfString, orgId: TfString,
    org: TfString, userId: TfString, user: TfString, createdAt: TfString, updatedAt: TfString,
    permissions: GoSlice<PermissionModel>)

  // ---------------------------------------------------------------------------------------
  // Search by id

  /** `i` is the first authorization in the listing whose id is `id`. */
  predicate FirstWithId(auths: seq<DomainAuthorization>, id: string, i: int)
  {
    0 <= i < |auths| && auths[i].id == id && forall j :: 0 <= j < i ==> auths[j].id != id
  }

  /** The search loop of Read (and of the data source's Read): the first authorization with
      the wanted id, or none when no authorization has it. */
  method FindAuthorization(auths: seq<DomainAuthorization>, id: string) returns (found: Option<DomainAuthorization>)
    ensures found.None? <==> forall i :: 0 <= i < |auths| ==> auths[i].id != id
    ensures found.Some? ==> exists i :: FirstWithId(auths, id, i) && found.value == auths[i]
  {
    found := None;
    var i := 0;
    while i < |auths|
      invariant 0 <= i <= |auths|
      invariant forall j :: 0 <= j < i ==> auths[j].id != id
    {
      if auths[i].id == id {
        found := Some(auths[i]);
        assert FirstWithId(auths, id, i);
        break;
      }
      i := i + 1;
    }
  }

  // ---------------------------------------------------------------------------------------
  // Permissions, in both directions

  /** One API permission as Terraform stores it (the loop body of getPermissions). */
  function PermissionToModel(p: DomainPermission): PermissionModel
  {
    PermissionModel(
      Known(p.action),
      ResourceModel(
        StringPointerValue(p.resource.id), StringPointerValue(p.resource.name),
        StringPointerValue(p.resource.org), StringPointerValue(p.resource.orgId),
        Known(p.resource.resourceType)))
  }

  /** One planned permission as the create request carries it (the loop body in Create). */
  function PermissionToDomain(m: PermissionModel): DomainPermission
  {
    DomainPermission(
      ValueString(m.action),
      DomainResource(
        ValueStringPointer(m.resource.id), ValueStringPointer(m.resource.name),
        ValueStringPointer(m.resource.org), ValueStringPointer(m.resource.orgId),
        ValueString(m.resource.resourceType)))
  }

  /** An optional attribute after it is sent and echoed back: an unknown value becomes a
      known "", null and known values are kept. */
  function Settle(v: TfString): TfString
  {
    if v.Unknown? then Known("") else v
  }

  /** A planned permission as it is stored after the API echoes the request entry back: the
      required attributes are known (their ValueString text) and every optional one is settled. */
  function Echoed(m: PermissionModel): PermissionModel
  {
    PermissionModel(
      Known(ValueString(m.action)),
      ResourceModel(
        Settle(m.resource.id), Settle(m.resource.name), Settle(m.resource.org), Settle(m.resource.orgId),
        Known(ValueString(m.resource.resourceType))))
  }

  /** A planned permission with every required attribute set and no unknown optional one. */
  predicate Settled(m: PermissionModel)
  {
    m.action.Known? && m.resource.resourceType.Known?
    && !m.resource.id.Unknown? && !m.resource.name.Unknown?
    && !m.resource.org.Unknown? && !m.resource.orgId.Unknown?
  }

  /** An API permission survives being stored and sent again unchanged. */
  lemma DomainRoundTrip(p: DomainPermission)
    ensures PermissionToDomain(PermissionToModel(p)) == p
  {
    ValueRoundTrip(p.resource.id);
    ValueRoundTrip(p.resource.name);
    ValueRoundTrip(p.resource.org);
    ValueRoundTrip(p.resource.orgId);
  }

  /** Any planned permission, sent and echoed back, is stored as Echoed gives it; only a
      settled one is stored exactly as planned. */
  lemma ModelRoundTrip(m: PermissionModel)
    ensures PermissionToModel(PermissionToDomain(m)) == Echoed(m)
    ensures Settled(m) ==> Echoed(m) == m
  {
    PointerRoundTrip(m.resource.id);
    PointerRoundTrip(m.resource.name);
    PointerRoundTrip(m.resource.org);
    PointerRoundTrip(m.resource.orgId);
  }

  /** The resource name is computed only, so it is unknown in every plan Create reads: no
      create plan is settled, and its name comes back as a known "". */
  lemma UnknownNameComesBackEmpty(m: PermissionModel)
    requires m.resource.name.Unknown?
    ensures !Settled(m)
    ensures PermissionToModel(PermissionToDomain(m)).resource.name == Known("")
    ensures PermissionToModel(PermissionToDomain(m)) != m
  {
  }

  /** The element-wise images of a permission list, in order. */
  function PermissionModels(ps: seq<DomainPermission>): (r: seq<PermissionModel>)
    ensures |r| == |ps|
    ensures forall i :: 0 <= i < |ps| ==> r[i] == PermissionToModel(ps[i])
  {
    seq(|ps|, i requires 0 <= i < |ps| => PermissionToModel(ps[i]))
  }

  function PermissionDomains(ms: seq<PermissionModel>): (r: seq<DomainPermission>)
    ensures |r| == |ms|
    ensures forall i :: 0 <= i < |ms| ==> r[i] == PermissionToDomain(ms[i])
  {
    seq(|ms|, i requires 0 <= i < |ms| => PermissionToDomain(ms[i]))
  }

  /** getPermissions: starts from an empty, non-nil slice and appends one entry per API
      permission, so the result is never null, even for no permissions. */
  method GetPermissions(permissions: seq<DomainPermission>) returns (state: GoSlice<PermissionModel>)
    ensures state.Slice?
    ensures state.elems == PermissionModels(permissions)
  {
    state := Slice([]);
    for i := 0 to |permissions|
      invariant state.Slice? && state.elems == PermissionModels(permissions[..i])
    {
      assert permissions[..i + 1] == permissions[..i] + [permissions[i]];
      state := Append(state, PermissionToModel(permissions[i]));
    }
    assert permissions[..|permissions|] == permissions;
  }

  /** The permission list of the create request: starts from a nil slice and appends one
      request entry per planned permission, in order; nil when nothing is planned. */
  method BuildPermissionRequests(plan: GoSlice<PermissionModel>) returns (permissions: GoSlice<DomainPermission>)
    ensures Elements(permissions) == PermissionDomains(Elements(plan))
    ensures permissions.Nil? <==> |Elements(plan)| == 0
  {
    permissions := Nil;
    var planned := Elements(plan);
    for i := 0 to |planned|
      invariant Elements(permissions) == PermissionDomains(planned[..i])
      invariant permissions.Nil? <==> i == 0
    {
      assert planned[..i + 1] == planned[..i] + [planned[i]];
      permissions := Append(permissions, PermissionToDomain(planned[i]));
    }
    assert planned[..|planned|] == planned;
  }

  /** Reading back the permissions of an authorization created from a plan gives the echoed
      plan, element by element and in order; the plan itself only when every entry is settled. */
  lemma {:induction false} PermissionsRoundTrip(plan: seq<PermissionModel>)
    ensures |PermissionModels(PermissionDomains(plan))| == |plan|
    ensures forall i :: 0 <= i < |plan| ==> PermissionModels(PermissionDomains(plan))[i] == Echoed(plan[i])
    ensures (forall i :: 0 <= i < |plan| ==> Settled(plan[i])) ==> PermissionModels(PermissionDomains(plan)) == plan
  {
    forall i | 0 <= i < |plan| ensures PermissionModels(PermissionDomains(plan))[i] == Echoed(plan[i]) {
      ModelRoundTrip(plan[i]);
    }
    if forall i :: 0 <= i < |plan| ==> Settled(plan[i]) {
      forall i | 0 <= i < |plan| ensures PermissionModels(PermissionDomains(plan))[i] == plan[i] {
        ModelRoundTrip(plan[i]);
      }
    }
  }

  /** And every API list survives the opposite trip. */
  lemma {:induction false} DomainsRoundTrip(ps: seq<DomainPermission>)
    ensures PermissionDomains(PermissionModels(ps)) == ps
  {
    forall i | 0 <= i < |ps| ensures PermissionDomains(PermissionModels(ps))[i] == ps[i] {
      DomainRoundTrip(ps[i]);
    }
  }

  // ---------------------------------------------------------------------------------------
  // Status

  /** domain.AuthorizationUpdateRequestStatus */
  datatype UpdateStatus = Active | Inactive

  /** The JSON text of each status. */
  function StatusText(st: UpdateStatus): string
  {
    match st
    case Active => "active"
    case Inactive => "inactive"
  }

  /** Update, lines 330-335: "active" selects Active and every other text, including the ""
      of a null or unknown plan, selects Inactive. */
  function StatusFor(planned: TfString): (r: UpdateStatus)
    ensures r == Active <==> planned == Known("active")
    ensures r == Inactive <==> planned != Known("active")
  {
    if ValueString(planned) == "active" then Active else Inactive
  }

  /** On every value the schema accepts, the mapping is the inverse of the status text. */
  lemma StatusRoundTrip(planned: TfString, st: UpdateStatus)
    ensures ValidStatus(planned) && planned.Known? ==> StatusText(StatusFor(planned)) == planned.s
    ensures StatusFor(Known(StatusText(st))) == st
  {
  }

  // ---------------------------------------------------------------------------------------
  // Schema validation

  /** The status attribute after its default: a null configuration becomes "active". */
  function DefaultStatus(configured: TfString): (r: TfString)
    ensures configured.Null? ==> r == Known("active")
    ensures !configured.Null? ==> r == configured
  {
    if configured.Null? then Known("active") else configured
  }

  /** stringvalidator.OneOf checks known values only. */
  predicate OneOf(v: TfString, allowed: set<string>)
  {
    v.Known? ==> v.s in allowed
  }

  predicate ValidStatus(v: TfString)
  {
    OneOf(v, {"active", "inactive"})
  }

  predicate ValidAction(v: TfString)
  {
    OneOf(v, {"read", "write"})
  }

  /** The resource types the schema lists, lines 159-186. */
  const ResourceTypes: set<string> := {
    "authorizations", "buckets", "dashboards", "orgs", "tasks", "telegrafs", "users",
    "variables", "secrets", "labels", "views", "documents", "notificationRules",
    "notificationEndpoints", "checks", "dbrp", "annotations", "sources", "scrapers",
    "notebooks", "remotes", "replications", "instance", "flows", "functions", "subscriptions"
  }

  predicate ValidPermission(p: PermissionModel)
  {
    ValidAction(p.action) && OneOf(p.resource.resourceType, ResourceTypes)
  }

  /** listvalidator.UniqueValues */
  predicate UniquePermissions(ps: seq<PermissionModel>)
  {
    forall i, j :: 0 <= i < j < |ps| ==> ps[i] != ps[j]
  }

  /** A configuration the schema accepts. */
  predicate ValidConfig(m: AuthorizationModel)
  {
    ValidStatus(m.status)
    && UniquePermissions(Elements(m.permissions))
    && forall i :: 0 <= i < |Elements(m.permissions)| ==> ValidPermission(Elements(m.permissions)[i])
  }

  /** A valid configuration always sends a status it means: after the default, a valid
      status is exactly "active" or "inactive" and Update sends that status. */
  lemma ValidStatusIsSent(configured: TfString)
    requires ValidStatus(configured) && !configured.Unknown?
    ensures StatusText(StatusFor(DefaultStatus(configured))) == DefaultStatus(configured).s
  {
  }

  /** Two planned permissions give the same request entry exactly when they are stored the
      same after the echo, so listvalidator.UniqueValues on the plan rules out a repeated
      request entry only among plans whose echoes differ. */
  lemma UniqueRequests(plan: seq<PermissionModel>)
    ensures forall i, j :: 0 <= i < |plan| && 0 <= j < |plan| ==>
      (PermissionDomains(plan)[i] == PermissionDomains(plan)[j] <==> Echoed(plan[i]) == Echoed(plan[j]))
  {
    forall i, j | 0 <= i < |plan| && 0 <= j < |plan|
      ensures PermissionDomains(plan)[i] == PermissionDomains(plan)[j] <==> Echoed(plan[i]) == Echoed(plan[j])
    {
      ModelRoundTrip(plan[i]);
      ModelRoundTrip(plan[j]);
      DomainRoundTrip(PermissionToDomain(plan[i]));
      DomainRoundTrip(PermissionToDomain(plan[j]));
    }
  }

  /** The plan Create reads for a configured permission: the computed-only name is unknown,
      and an unset org or org_id (optional and computed, with no prior state to carry over) is
      unknown too. */
  function PlannedAtCreate(c: PermissionModel): (m: PermissionModel)
    ensures m.action == c.action && m.resource.id == c.resource.id && m.resource.resourceType == c.resource.resourceType
    ensures m.resource.name.Unknown? && !m.resource.org.Null? && !m.resource.orgId.Null?
  {
    c.(resource := c.resource.(
      name := Unknown,
      org := if c.resource.org.Null? then Unknown else c.resource.org,
      orgId := if c.resource.orgId.Null? then Unknown else c.resource.orgId))
  }

  /** listvalidator.UniqueValues checks the configuration: an entry with no org and one with
      an empty org are distinct there, yet their plans send the same request entry. */
  lemma UniquePlanCanRepeatRequest()
    ensures var unset := PermissionModel(Known("read"), ResourceModel(Null, Null, Null, Null, Known("buckets")));
      var empty := PermissionModel(Known("read"), ResourceModel(Null, Null, Known(""), Null, Known("buckets")));
      && UniquePermissions([unset, empty]) && ValidPermission(unset) && ValidPermission(empty)
      && PermissionDomains([PlannedAtCreate(unset), PlannedAtCreate(empty)])[0]
         == PermissionDomains([PlannedAtCreate(unset), PlannedAtCreate(empty)])[1]
  {
  }

  /** A configuration the schema accepts sends only the actions and resource types it lists. */
  lemma ValidConfigSendsValidRequests(m: AuthorizationModel)
    requires ValidConfig(m)
    ensures forall i :: 0 <= i < |Elements(m.permissions)| && Elements(m.permissions)[i].action.Known? ==>
      PermissionDomains(Elements(m.permissions))[i].action in {"read", "write"}
    ensures forall i :: 0 <= i < |Elements(m.permissions)| && Elements(m.permissions)[i].resource.resourceType.Known? ==>
      PermissionDomains(Elements(m.permissions))[i].resource.resourceType in ResourceTypes
  {
  }

  // ---------------------------------------------------------------------------------------
  // Read

  /** The state Read stores for the matched authorization: id, organisation, times,
      description, status and permissions are refreshed; token and user fields are kept. */
  function Refreshed(state: AuthorizationModel, a: DomainAuthorization): (r: AuthorizationModel)
    ensures r.token == state.token && r.userId == state.userId && r.user == state.user
    ensures r.id == Known(a.id) && r.status == Known(a.status) && r.description == Known(a.description)
    ensures r.org == StringPointerValue(a.org) && r.orgId == StringPointerValue(a.orgId)
    ensures r.createdAt == Known(a.createdAt.text) && r.updatedAt == Known(a.updatedAt.text)
    ensures r.permissions == Slice(PermissionModels(a.permissions))
  {
    state.(
      id := StringPointerValue(Some(a.id)), org := StringPointerValue(a.org),
      orgId := StringPointerValue(a.orgId),
      createdAt := Known(a.createdAt.text), updatedAt := Known(a.updatedAt.text),
      description := Known(a.description), status := Known(a.status),
      permissions := Slice(PermissionModels(a.permissions)))
  }

  /** Read, lines 263-317. The listing is an input; a failed listing or a missing id leaves
      the state as it was and reports an error. The stored id is dereferenced, so it must
      not be null. */
  method Read(state: AuthorizationModel, listing: Result<seq<DomainAuthorization>>)
    returns (newState: AuthorizationModel, diags: seq<Diagnostic>)
    requires !state.id.Null?
    ensures listing.Err? ==> newState == state && diags == [ErrorOf("Error getting Authorizations")]
    ensures listing.Ok? && (forall i :: 0 <= i < |listing.value| ==> listing.value[i].id != ValueString(state.id)) ==>
      newState == state && diags == [ErrorOf("Authorization not found")]
    ensures listing.Ok? && (exists i :: 0 <= i < |listing.value| && listing.value[i].id == ValueString(state.id)) ==>
      diags == [] && exists i :: FirstWithId(listing.value, ValueString(state.id), i) && newState == Refreshed(state, listing.value[i])
  {
    if listing.Err? {
      return state, [ErrorOf("Error getting Authorizations")];
    }
    var wanted := ValueStringPointer(state.id).value;
    var authorization := FindAuthorization(listing.value, wanted);
    if authorization.None? {
      return state, [ErrorOf("Authorization not found")];
    }
    var permissions := GetPermissions(authorization.value.permissions);
    newState := state.(
      id := StringPointerValue(Some(authorization.value.id)),
      org := StringPointerValue(authorization.value.org),
      orgId := StringPointerValue(authorization.value.orgId),
      createdAt := Known(authorization.value.createdAt.text),
      updatedAt := Known(authorization.value.updatedAt.text),
      description := Known(authorization.value.description),
      status := Known(authorization.value.status),
      permissions := permissions);
    diags := [];
  }
}
