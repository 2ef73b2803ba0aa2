# terraform-provider-influxdb: the decisions inside the provider, in Dafny

The InfluxDB Terraform provider is mostly glue between Terraform's plugin framework and the
InfluxDB v2 client library. This project models the few places where that glue decides
something, and proves what those decisions guarantee:

- **Label properties.** The label resource builds a property map for the server on create and
  update, and converts the API's properties back to Terraform. On update, a removed key is sent
  as `""`, which the server treats as a deletion. The doc comment of `convertLabelProperties`
  (internal/provider/label_model.go:20) says an empty map becomes null, but the code only checks
  for nil; the model follows the code.
- **Organisation membership of users.** `manageOrgMembership` turns an (old organisation, new
  organisation, old role, new role) transition into remove and add calls. Not-found errors on
  removal are tolerated. The module also covers the change gate in Update, the removal before
  Delete, the fields Read keeps, and the membership search both user data sources run
  (first organisation in list order, owners before members).
- **Provider configuration.** Configure resolves the URL and token from configuration over the
  `INFLUXDB_URL`/`INFLUXDB_TOKEN` environment. It rejects unknown and missing values, then picks
  token login or username/password sign-in.
- **Authorizations.** This covers the search by id in the resource and the data source, the
  status sent on update, and the conversions of permissions between the API's records and
  Terraform's, in both directions. It also covers the value sets the schema accepts.
- **Buckets.** A bucket's first retention rule is converted from seconds to whole days, in Go's
  truncating int64 division. A bucket without rules gets 0 days.
- **Tasks.** The nil-to-null conversion helpers of `task_model.go`.

Terraform values are `TfString = Null | Unknown | Known(s)`, with the same shape for maps and
lists (module `TfValues`). A Go pointer is an `Option`, and a Go slice that may be nil is a
`GoSlice = Nil | Slice(elems)`; the difference matters because nil becomes a null list.
Diagnostics are a sequence of (severity, attribute, summary) records. Every call into the
InfluxDB client is an input to the model:

- a `Result` for listings and lookups;
- an `Option<string>` error for sign-in and ping;
- a reply function `Action -> Reply` for membership calls.

The membership calls are also recorded as a trace of `Action`s.

One module per core source file: `LabelModel`, `LabelResource`, `UserResource`,
`OrgMembership` (the search both user data sources define), `UserDataSource`,
`UsersDataSource`, `Provider`, `Authorization`, `AuthorizationDataSource`, `BucketDataSource`,
`BucketsDataSource` and `TaskModel`. Loops in the source are loops here, with their
invariants. Each such method's contract ties it to a specification function, and the
properties are proved about those functions.

## Model

| member | source | states |
|---|---|---|
| TfValues.Contains | internal/provider/user_resource.go:424 | the substring scan is true exactly when `sub` occurs in `s` at some offset |
| TfValues.Append | internal/provider/authorization_data_source.go:194 | append always yields a non-nil slice whose elements are the old ones followed by the new one |
| LabelModel.ConvertLabelProperties | internal/provider/label_model.go:21-28 | null exactly when the wrapper or its map is nil; never unknown; otherwise the same keys, each with its value as a known string |
| LabelModel.EmptyPropertiesAreNotNull | internal/provider/label_model.go:22-26 | a non-nil empty map converts to an empty known map, not to null (only nil is checked) |
| LabelResource.ValueStrings | internal/provider/label_resource.go:191-197 | the text map has exactly the planned keys, each with the planned value's text |
| LabelResource.CreateProperties | internal/provider/label_resource.go:87-97 | properties are attached exactly when the planned map is known and not null, and then carry every planned key with its text |
| LabelResource.CreateRoundTrip | internal/provider/label_resource.go:87-97 | with all planned values known, converting the echoed create properties gives back the planned map |
| LabelResource.UpdateMap | internal/provider/label_resource.go:190-217 | the key set of the update is exactly the planned keys plus the known prior keys; planned keys carry planned text; prior-only keys carry "" |
| LabelResource.UpdateProperties | internal/provider/label_resource.go:190-217 | the three loops build exactly UpdateMap |
| LabelResource.KeptKeyKeepsPlannedValue | internal/provider/label_resource.go:201-208 | a key in both plan and state keeps its planned value and is never blanked |
| LabelResource.RemovedBlockBlanksEverything | internal/provider/label_resource.go:209-216 | with a null or unknown plan, every known prior key is sent as "" and nothing else is sent |
| LabelResource.BothNullSendsNothing | internal/provider/label_resource.go:190-216 | with both plan and state null, the update map is empty |
| LabelResource.ApplyUpdate | internal/provider/label_resource.go:199-211 | under the server semantics the comments describe, a key sent as "" is removed, a key sent with text is set, and other keys are untouched |
| LabelResource.UpdateReachesPlan | internal/provider/label_resource.go:186-217 | if the server holds no key outside state and plan and no planned value is empty, applying the update leaves exactly the planned properties (none for a removed block) |
| LabelResource.PropertiesAfterUpdate | internal/provider/label_resource.go:237-248 | a null plan stores null properties whatever the response holds; otherwise the converted response is stored |
| LabelResource.UpdateRoundTrip | internal/provider/label_resource.go:237-248 | update followed by read-back stores exactly the plan, for known non-empty planned values |
| LabelResource.EmptyPlannedValueIsLost | internal/provider/label_resource.go:190-217 | an empty planned value is sent as a removal, so the plan {"a": ""} over a null state is stored as an empty map and does not round-trip |
| UserResource.IsNotFoundError | internal/provider/user_resource.go:418-425 | false for no error; otherwise true iff the message contains "not found" or "404" |
| UserResource.Issue | internal/provider/user_resource.go:354-369 | one call is appended to the trace; its error is swallowed iff the call succeeded or is a removal that failed with a not-found error; otherwise the wrapped message is returned |
| UserResource.AllToleratedAppend | internal/provider/user_resource.go:350-415 | the calls of two consecutive stages are all tolerated iff those of each stage are |
| UserResource.FailedStage | internal/provider/user_resource.go:358-368 | an intolerable reply ends the run: the calls issued so far and that error form the outcome, whatever was planned after |
| UserResource.IssueAfter | internal/provider/user_resource.go:354-369 | after tolerated calls, a planned call either ends the run with the outcome promised for the whole plan, or is tolerated and joins the trace |
| UserResource.ManageOrgMembership | internal/provider/user_resource.go:350-415 | the planned calls are issued in order up to the first intolerable reply; the error is that call's wrapped message, and there is none iff every planned call is tolerated |
| UserResource.NoChangeNoCalls | internal/provider/user_resource.go:352-398 | the same organisation and role plan no call |
| UserResource.CallShape | internal/provider/user_resource.go:352-411 | at most two calls, at most one removal and one add, and every removal precedes every add |
| UserResource.SwitchOrganisation | internal/provider/user_resource.go:352-411 | switching organisations removes the old role from the old organisation and then adds the new role to the new one |
| UserResource.ChangeRole | internal/provider/user_resource.go:376-411 | a role change inside one organisation removes the old role and then adds the new one |
| UserResource.LeaveIssuesNoAdd | internal/provider/user_resource.go:301-303 | with no new organisation only the removal from the old one is planned, and no add |
| UserResource.AddErrorsAreNotTolerated | internal/provider/user_resource.go:399-410 | a failed add is never swallowed |
| UserResource.MembershipArgs | internal/provider/user_resource.go:253-269 | the derived old/new organisation and role are the ValueString texts, "" for null or unknown |
| UserResource.CreateMembership | internal/provider/user_resource.go:139-150 | a null or unknown planned role issues no call; a known one issues a prefix of the planned calls from no organisation and no role: all of them when every one is tolerated, otherwise up to and including the first one not tolerated, which gives an "Error managing organization membership" error |
| UserResource.CreatePlansOnlyTheAdd | internal/provider/user_resource.go:139-150 | at create the only planned call is the add to the planned organisation, and a role without an organisation id plans no call at all |
| UserResource.UpdateMembership | internal/provider/user_resource.go:253-281 | no change means no call and no diagnostic; otherwise a prefix of the planned calls: all of them when every one is tolerated, otherwise up to and including the first one not tolerated, with an "Error managing organization membership" error |
| UserResource.LeaveOrganisation | internal/provider/user_resource.go:300-311 | exactly the planned leave calls are issued, all of them removals, whether or not they succeed; the run failed iff a planned removal is not tolerated |
| UserResource.DeleteUserWithMembership | internal/provider/user_resource.go:291-323 | the trace is exactly the planned leave calls followed by the delete call, in every case; a failed removal is only a "Warning removing user from organization"; there is an error iff the delete itself failed |
| UserResource.ReadUser | internal/provider/user_resource.go:160-196 | a failed lookup keeps the state with "User not found"; otherwise id, name and status come from the API and password, org_id and org_role are kept |
| OrgMembership.FirstMembershipIsFirst | internal/provider/user_data_source.go:168-191 | the reported organisation is the first in list order that holds the user, as owner if it owns it and as member otherwise; ("", "") exactly when none holds the user |
| OrgMembership.GetUserOrgMembership | internal/provider/user_data_source.go:160-192 | a failed organisation listing gives ("", "", wrapped error); otherwise no error and the first membership, with failed owner or member listings skipped |
| OrgMembership.MembershipFields | internal/provider/user_data_source.go:128-147 | org_id and org_role are null together; the role is owner or member; a failed search or no membership gives both null; a set org_id names the first holding organisation, and conversely the first holding organisation, when its id is not empty, is stored with the role the user holds there (owner before member) |
| OrgMembership.FirstHolderUnique | internal/provider/user_data_source.go:168-188 | only one organisation is the first to hold the user |
| OrgMembership.FirstHolderIsReported | internal/provider/user_data_source.go:168-188 | the search reports the first holding organisation's id, as owner when the user owns it and as member otherwise |
| UserDataSource.Read | internal/provider/user_data_source.go:91-157 | a null id is "Id is empty" before any lookup; a failed lookup is "Unable to retrieves user"; otherwise id, name and status are known, password is null, the org fields come from the search, and a warning appears iff the search failed |
| UsersDataSource.UserEntry | internal/provider/users_data_source.go:117-145 | an entry's id, name and status are the API user's; its password is null; its org_id and org_role are exactly MembershipFields of that user's search |
| UsersDataSource.BuildEntry | internal/provider/users_data_source.go:117-145 | the loop body builds exactly UserEntry and reports whether that user's search failed |
| UsersDataSource.Warnings | internal/provider/users_data_source.go:126-131 | one "Unable to get organization membership for user" warning per failed search among the first n, and no other diagnostic |
| UsersDataSource.Entries | internal/provider/users_data_source.go:117-145 | the first n entries, the i-th being UserEntry of the i-th user with its own search reply |
| UsersDataSource.Read | internal/provider/users_data_source.go:103-155 | a failed listing is "Unable to list users"; otherwise the stored list is exactly Entries of all users (one per user, in API order), null iff there are no users, and the diagnostics are exactly Warnings of all searches while the loop goes on |
| Provider.Configure | internal/provider/provider.go:72-194 | unknown URL or token errors stop before the environment is read; a non-null configured value overrides the environment even when empty; missing URL and missing credentials are both reported before one return; no username selects the token client, and a username selects sign-in with an empty token |
| Provider.ConfiguredEmptyUrlIsMissing | internal/provider/provider.go:111-136 | a configured empty URL is reported missing whatever INFLUXDB_URL holds |
| Provider.EnvironmentOnlyForNull | internal/provider/provider.go:106-118 | non-null configured values make the environment irrelevant |
| Provider.PasswordNotChecked | internal/provider/provider.go:128-146 | replacing the password never changes the missing-value errors, and a URL with a username is enough whatever the token and the password |
| Authorization.FindAuthorization | internal/provider/authorization_resource.go:284-291 | none exactly when no authorization has the id; otherwise the first one that has it |
| Authorization.DomainRoundTrip | internal/provider/authorization_resource.go:411-428 | an API permission stored in Terraform and sent back is unchanged |
| Authorization.ModelRoundTrip | internal/provider/authorization_resource.go:209-223 | any planned permission, sent and echoed, is stored as Echoed: required fields as their known text, unknown optional fields as a known "", the rest as planned; a settled one is stored exactly as planned |
| Authorization.UnknownNameComesBackEmpty | internal/provider/authorization_resource.go:135-138 | the computed-only resource name is unknown in a create plan, so no create plan is settled and the name comes back as a known "" |
| Authorization.PermissionModels | internal/provider/authorization_resource.go:413-426 | one model per API permission, same length and order |
| Authorization.PermissionDomains | internal/provider/authorization_resource.go:210-223 | one request entry per planned permission, same length and order |
| Authorization.GetPermissions | internal/provider/authorization_resource.go:411-429 | the result is never nil, even for no permissions, and holds one converted entry per permission, in order |
| Authorization.BuildPermissionRequests | internal/provider/authorization_resource.go:209-223 | one request entry per planned permission in order, and a nil slice exactly when nothing is planned |
| Authorization.PermissionsRoundTrip | internal/provider/authorization_resource.go:209-253 | the permissions read back from a create request are the echoed plan, entry by entry and in order, and the plan itself when every entry is settled |
| Authorization.DomainsRoundTrip | internal/provider/authorization_resource.go:411-428 | every API permission list survives being stored and sent again |
| Authorization.StatusFor | internal/provider/authorization_resource.go:330-335 | Active exactly for a known "active"; every other value, null and unknown included, gives Inactive |
| Authorization.StatusRoundTrip | internal/provider/authorization_resource.go:66-74 | on every status the schema accepts, the text of the chosen status is the planned text, and each status maps back to itself |
| Authorization.DefaultStatus | internal/provider/authorization_resource.go:70 | an unset status becomes "active"; a set one is kept |
| Authorization.ValidStatusIsSent | internal/provider/authorization_resource.go:66-74 | after the default, a valid status is sent as exactly the configured text |
| Authorization.UniqueRequests | internal/provider/authorization_resource.go:113-115 | two planned permissions give the same request entry iff their echoes are equal |
| Authorization.PlannedAtCreate | internal/provider/authorization_resource.go:135-154 | in a create plan the action, id and type are as configured, the computed name is unknown, and org and org_id are never null (unset ones are unknown) |
| Authorization.UniquePlanCanRepeatRequest | internal/provider/authorization_resource.go:113-115 | two configuration entries that UniqueValues accepts (one with no org, one with an empty org) have create plans that send the same request entry |
| Authorization.ValidConfigSendsValidRequests | internal/provider/authorization_resource.go:121-186 | a configuration the schema accepts sends only "read" or "write" actions and only the listed resource types |
| Authorization.Refreshed | internal/provider/authorization_resource.go:302-310 | Read refreshes id, organisation, organisation id, creation and update times, status, description and permissions, and keeps the token and the user fields |
| Authorization.Read | internal/provider/authorization_resource.go:263-317 | a failed listing and a missing id both keep the state and report an error ("Error getting Authorizations", "Authorization not found"); otherwise the state is refreshed from the first authorization with the id |
| AuthorizationDataSource.AppendAll | internal/provider/authorization_data_source.go:182-195 | the appended elements follow the existing ones, and the slice stays nil only when it was nil and nothing is appended |
| AuthorizationDataSource.Matched | internal/provider/authorization_data_source.go:182-204 | the response permissions are appended in order, and the scalar fields are overwritten from the match |
| AuthorizationDataSource.Read | internal/provider/authorization_data_source.go:145-212 | a failed listing is "Error getting Authorizations" and a missing id is "Authorization not found"; otherwise the state stored is that of the first authorization with the configured id |
| AuthorizationDataSource.NoPermissionsStayNull | internal/provider/authorization_data_source.go:182-195 | with no permissions, an unset list stays null |
| AuthorizationDataSource.AgreesWithResource | internal/provider/authorization_data_source.go:182-195 | when the configuration lists no permissions, the data source stores the same permissions as the resource's Read |
| BucketDataSource.TruncDivRoundsTowardZero | internal/provider/bucket_data_source.go:128 | Go's integer division rounds toward zero from both sides |
| BucketDataSource.TruncationVersusEuclidean | internal/provider/bucket_data_source.go:128 | Go's and Dafny's quotients agree on a non-negative dividend or an exact division; otherwise Go's is one more |
| BucketDataSource.NestedTruncDiv | internal/provider/bucket_data_source.go:128 | dividing in two steps is dividing once by the product |
| BucketDataSource.RetentionDays | internal/provider/bucket_data_source.go:126-129 | 0 days without rules; otherwise the first rule's seconds divided by 86400, rounded toward zero, still an int64 |
| BucketDataSource.FirstRuleOnly | internal/provider/bucket_data_source.go:127-128 | only the first retention rule is consulted |
| BucketDataSource.DaysBound | internal/provider/bucket_data_source.go:128 | a non-negative retention is the whole number of days it contains |
| BucketDataSource.DefaultRetentionIsThirtyDays | internal/provider/bucket_resource.go:88-89 | the default of 2592000 seconds is 30 days |
| BucketDataSource.BelowOneDayIsZero | internal/provider/buckets_data_source.go:127 | less than 86400 seconds, 0 ("infinite") included, is 0 days |
| BucketDataSource.BucketState | internal/provider/bucket_data_source.go:131-141 | every field is the bucket's own: id, organisation id, type, schema type, name and the two times are known, a nil description is null, and the days are RetentionDays of its rules |
| BucketDataSource.Read | internal/provider/bucket_data_source.go:99-149 | a null name is "Name is empty"; a failed lookup by name is "Bucket not found"; otherwise the bucket's state |
| BucketDataSource.NullNameNeedsNoLookup | internal/provider/bucket_data_source.go:107-116 | for a null name the result does not depend on the lookup at all |
| BucketsDataSource.Read | internal/provider/buckets_data_source.go:111-151 | a failed listing is "Unable to list buckets"; otherwise one entry per bucket, in order, and a null list for no buckets |
| BucketsDataSource.EntryRetention | internal/provider/buckets_data_source.go:125-128 | an entry has 0 days without rules and below one day, otherwise the first rule's seconds / 86400 rounded toward zero |
| TaskModel.ConvertLinkToString | internal/provider/task_model.go:187-192 | null exactly for a nil link, else its text |
| TaskModel.ConvertTimeToString | internal/provider/task_model.go:195-200 | null exactly for a nil time, else its RFC 3339 rendering |
| TaskModel.ConvertTaskStatusToString | internal/provider/task_model.go:203-208 | null exactly for a nil status, else its text |
| TaskModel.ConvertLinksToObject | internal/provider/task_model.go:139-184 | null object exactly for nil links; each link attribute is null exactly when that link is nil |
| TaskModel.LinksRoundTrip | internal/provider/task_model.go:147-166 | the object determines the links it came from: no link is lost or invented |
| TaskModel.LabelValue | internal/provider/task_model.go:100-126 | a label keeps its id, name and org id, and its properties are converted, null for nil properties |
| TaskModel.LabelValues | internal/provider/task_model.go:99-127 | one label object per label, same length and order |
| TaskModel.LabelsToList | internal/provider/task_model.go:76-136 | nil or empty labels give a null list; otherwise a known list with one element per label, in order |
| TaskModel.ConvertLabelsToList | internal/provider/task_model.go:76-136 | the loop builds exactly LabelsToList |
| TaskModel.NilAndEmptyLabelsAgree | internal/provider/task_model.go:77 | nil and empty label lists both convert to null |
| TaskModel.LabelsExtend | internal/provider/task_model.go:99-127 | converting one more label appends its object at the end |
| TaskModel.ConvertDomainTaskToModel | internal/provider/task_model.go:45-73 | flux, id, name and org id are always known; each string pointer field is StringPointerValue of the task's field (null exactly when nil, its text otherwise); labels, links, times and statuses go through their converters |

## Left out

- Calls into the InfluxDB client and the network (listing, finding, creating, updating and
  deleting, SignIn, Ping) are inputs: their replies are parameters and their effects are not
  modelled.
- Time formatting: an instant carries its `String()` and RFC 3339 renderings, and only its nil
  case is modelled.
- Diagnostics from framework value constructors (`MapValueFrom`, `ObjectValue`, `ListValue`) and
  from reading and writing plan, state and configuration are taken as never failing. The
  "error converting properties" fallbacks of `convertLabelsToList` are therefore not modelled.
  Diagnostic detail texts and `tflog` logging are left out.
- Dereferences of pointers the code does not guard would panic on nil. The model makes them
  plain values, or requires them to be present. They are:
  - an API user's id;
  - an API user's status (internal/provider/user_resource.go:185,
    internal/provider/user_data_source.go:123, internal/provider/users_data_source.go:121);
  - an authorization's id, description, status and permissions;
  - a bucket's id, org id and types;
  - the ids of an organisation, an owner and a member in the membership search
    (internal/provider/user_data_source.go:170-184, internal/provider/users_data_source.go:168-182);
  - the creation and update times of an authorization or a bucket, whose `String()` is taken on
    a possibly nil `*time.Time` (internal/provider/authorization_resource.go:306-307,
    internal/provider/authorization_data_source.go:201-202,
    internal/provider/bucket_data_source.go:138-139);
  - the state's user id in Delete (`*state.Id.ValueStringPointer()`,
    internal/provider/user_resource.go:303 and 314), which the model does not carry because
    the recorded calls leave out the user id.
- UserDataSource.Read: requires a found user to carry an id, because the source dereferences it.
- UsersDataSource.Read: requires every listed user to carry an id, for the same reason.
- Authorization.Read: requires a non-null state id, because the source dereferences its pointer.
- AuthorizationDataSource.Read: requires a non-null configured id, for the same reason.
- The user resource's Create is modelled only in its membership step (CreateMembership). The
  create call and the password call that precede it are single calls; an error from either ends
  Create. Update
  before its membership step is not modelled either: the user update call, and the password
  call, which Update issues only when the planned password differs from the state's
  (internal/provider/user_resource.go:239-248).
- LabelResource.UpdateRoundTrip: requires every planned value to be non-empty, because an
  empty value is sent as a removal and does not round-trip; EmptyPlannedValueIsLost exhibits
  that case.
- The remaining fields of the authorization create request are plain pointer copies of the
  plan and are not modelled.
- LabelResource.ApplyUpdate: states the server's deletion semantics as laid out in the
  source comments. The server is not part of this model.
- Membership calls are recorded without the user id. Every call of one run concerns the same
  user.
- The provider's resource and data source registration lists, schemas, metadata, import and
  per-resource Configure are not modelled.
- The pure pass-through CRUD files are not modelled: tasks, buckets and organisations
  resources, and the organisation, label and task data sources.
