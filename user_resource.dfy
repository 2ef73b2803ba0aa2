/** The organisation-membership logic of the influxdb_user resource
    (internal/provider/user_resource.go): manageOrgMembership, isNotFoundError, the change gate
    in Update, the membership handling in Delete and the fields Read preserves.

    Every call to the organisations API is an Action appended to a trace; the API's reply to
    each call is an oracle input. All calls concern the one user being managed, so the user id
    is left out of the actions. */
module UserResource {
  import opened TfValues

  datatype Action =
    | RemoveOwner(org: string)
    | RemoveMember(org: string)
    | AddOwner(org: string)
    | AddMember(org: string)
    | DeleteUser

  predicate IsRemoval(a: Action)
  {
    a.RemoveOwner? || a.RemoveMember?
  }

  predicate IsAdd(a: Action)
  {
    a.AddOwner? || a.AddMember?
  }

  /** The reply of the remote API to one call. */
  datatype Reply = Done | Failed(msg: string)

  /** UserModel: the state of an influxdb_user resource. */
  datatype UserModel = UserModel(
    id: TfString, name: TfString, password: TfString,
    orgId: TfString, orgRole: TfString, status: TfString)

  /** isNotFoundError: no error is not a not-found error; otherwise the message decides. */
  function IsNotFoundError(err: Option<string>): (r: bool)
    ensures err.None? ==> !r
    ensures err.Some? ==> (r <==> (exists i :: OccursAt(err.value, "not found", i)) || (exists i :: OccursAt(err.value, "404", i)))
  {
    if err.None? then false
    else Contains(err.value, "not found") || Contains(err.value, "404")
  }

  /** The removal call for a role; any role other than owner or member issues none. */
  function RemovalFor(org: string, role: string): seq<Action>
  {
    if role == "owner" then [RemoveOwner(org)]
    else if role == "member" then [RemoveMember(org)]
    else []
  }

  /** The add call for a role; any role other than owner or member issues none. */
  function AddFor(org: string, role: string): seq<Action>
  {
    if role == "owner" then [AddOwner(org)]
    else if role == "member" then [AddMember(org)]
    else []
  }

  /** The removal from the old organisation when the organisation changes (lines 352-371). */
  function CrossRemoval(oldOrg: string, newOrg: string, oldRole: string): seq<Action>
  {
    if oldOrg != "" && oldOrg != newOrg then RemovalFor(oldOrg, oldRole) else []
  }

  /** The removal of the old role when only the role changes (lines 376-395). */
  function RoleRemoval(oldOrg: string, newOrg: string, oldRole: string, newRole: string): seq<Action>
  {
    if newOrg != "" && oldOrg == newOrg && oldRole != newRole && oldRole != "" then RemovalFor(oldOrg, oldRole) else []
  }

  /** The add to the new organisation when anything changed (lines 398-411). */
  function NewAdd(oldOrg: string, newOrg: string, oldRole: string, newRole: string): seq<Action>
  {
    if newOrg != "" && (oldOrg != newOrg || oldRole != newRole) then AddFor(newOrg, newRole) else []
  }

  /** The calls manageOrgMembership issues when every call succeeds, in order. */
  function PlannedCalls(oldOrg: string, newOrg: string, oldRole: string, newRole: string): seq<Action>
  {
    CrossRemoval(oldOrg, newOrg, oldRole) + RoleRemoval(oldOrg, newOrg, oldRole, newRole) + NewAdd(oldOrg, newOrg, oldRole, newRole)
  }

  /** `a` is an initial segment of `b`. */
  predicate IsPrefix(a: seq<Action>, b: seq<Action>)
  {
    |a| <= |b| && a == b[..|a|]
  }

  /** A reply the code carries on after: success, or a not-found error on a removal. */
  predicate Tolerated(a: Action, r: Reply)
  {
    r.Done? || (IsRemoval(a) && IsNotFoundError(Some(r.msg)))
  }

  predicate AllTolerated(calls: seq<Action>, reply: Action -> Reply)
  {
    forall i :: 0 <= i < |calls| ==> Tolerated(calls[i], reply(calls[i]))
  }

  lemma AllToleratedAppend(a: seq<Action>, b: seq<Action>, reply: Action -> Reply)
    ensures AllTolerated(a + b, reply) <==> AllTolerated(a, reply) && AllTolerated(b, reply)
  {
    if AllTolerated(a, reply) && AllTolerated(b, reply) {
      forall i | 0 <= i < |a + b| ensures Tolerated((a + b)[i], reply((a + b)[i])) {
        if i >= |a| { assert (a + b)[i] == b[i - |a|]; }
      }
    }
    if AllTolerated(a + b, reply) {
      forall i | 0 <= i < |a| ensures Tolerated(a[i], reply(a[i])) {
        assert (a + b)[i] == a[i];
      }
      forall i | 0 <= i < |b| ensures Tolerated(b[i], reply(b[i])) {
        assert (a + b)[|a| + i] == b[i];
      }
    }
  }

  /** The error manageOrgMembership wraps around a failed call. */
  function ErrorMessage(a: Action, msg: string): string
  {
    match a
    case RemoveOwner(org) => "failed to remove user as owner from organization " + org + ": " + msg
    case RemoveMember(org) => "failed to remove user as member from organization " + org + ": " + msg
    case AddOwner(org) => "failed to add user as owner to organization " + org + ": " + msg
    case AddMember(org) => "failed to add user as member to organization " + org + ": " + msg
    case DeleteUser => msg
  }

  /** One API call of manageOrgMembership: a removal swallows a not-found error, an add
      swallows nothing. */
  method Issue(trace: seq<Action>, call: Action, reply: Action -> Reply) returns (trace': seq<Action>, err: Option<string>)
    ensures trace' == trace + [call]
    ensures err.None? <==> Tolerated(call, reply(call))
    ensures err.Some? ==> err.value == ErrorMessage(call, reply(call).msg)
  {
    trace' := trace + [call];
    var r := reply(call);
    err := None;
    if r.Failed? {
      if !IsRemoval(call) || !IsNotFoundError(Some(r.msg)) {
        err := Some(ErrorMessage(call, r.msg));
      }
    }
  }

  /** The outcome manageOrgMembership promises for `planned` once `trace` has been issued:
      every planned call up to the first intolerable reply, and that reply's error. */
  predicate Outcome(planned: seq<Action>, trace: seq<Action>, err: Option<string>, reply: Action -> Reply)
  {
    && IsPrefix(trace, planned)
    && (err.None? <==> AllTolerated(planned, reply))
    && (err.None? ==> trace == planned)
    && (err.Some? ==>
          && trace != [] && AllTolerated(trace[..|trace| - 1], reply)
          && !Tolerated(trace[|trace| - 1], reply(trace[|trace| - 1]))
          && err.value == ErrorMessage(trace[|trace| - 1], reply(trace[|trace| - 1]).msg))
  }

  /** The run stopped at its last call: every earlier call was tolerated and the last was not. */
  predicate StoppedAtLast(trace: seq<Action>, reply: Action -> Reply)
  {
    trace != [] && AllTolerated(trace[..|trace| - 1], reply) && !Tolerated(trace[|trace| - 1], reply(trace[|trace| - 1]))
  }

  /** A stage that failed ends the run: its outcome stands for any later planned calls. */
  lemma FailedStage(done: seq<Action>, stage: seq<Action>, rest: seq<Action>, err: Option<string>, reply: Action -> Reply)
    requires |stage| == 1 && AllTolerated(done, reply) && err.Some?
    requires !Tolerated(stage[0], reply(stage[0])) && err.value == ErrorMessage(stage[0], reply(stage[0]).msg)
    ensures Outcome(done + stage + rest, done + stage, err, reply)
  {
    var planned := done + stage + rest;
    assert planned[|done|] == stage[0];
    assert (done + stage)[..|done + stage| - 1] == done;
    assert planned[..|done + stage|] == done + stage;
  }

  /** One planned call issued after the tolerated calls `done`: either the run ends here with
      the outcome promised for every plan that continues with `rest`, or the call joins the
      tolerated ones. */
  method IssueAfter(done: seq<Action>, call: Action, ghost rest: seq<Action>, reply: Action -> Reply)
    returns (trace: seq<Action>, err: Option<string>)
    requires AllTolerated(done, reply)
    ensures err.Some? ==> Outcome(done + [call] + rest, trace, err, reply)
    ensures err.None? ==> trace == done + [call] && AllTolerated(trace, reply)
  {
    trace, err := Issue(done, call, reply);
    if err.Some? {
      FailedStage(done, [call], rest, err, reply);
    } else {
      AllToleratedAppend(done, [call], reply);
    }
  }

  /** manageOrgMembership: issues the planned calls in order and stops at the first reply it
      does not tolerate, returning that call's wrapped error. */
  method ManageOrgMembership(oldOrg: string, newOrg: string, oldRole: string, newRole: string, reply: Action -> Reply)
    returns (trace: seq<Action>, err: Option<string>)
    ensures Outcome(PlannedCalls(oldOrg, newOrg, oldRole, newRole), trace, err, reply)
  {
    ghost var cross := CrossRemoval(oldOrg, newOrg, oldRole);
    ghost var roleRemoval := RoleRemoval(oldOrg, newOrg, oldRole, newRole);
    ghost var add := NewAdd(oldOrg, newOrg, oldRole, newRole);
    ghost var planned := PlannedCalls(oldOrg, newOrg, oldRole, newRole);
    assert planned == cross + roleRemoval + add;
    trace := [];
    err := None;
    if oldOrg != "" && oldOrg != newOrg {
      if oldRole == "owner" || oldRole == "member" {
        var call := if oldRole == "owner" then RemoveOwner(oldOrg) else RemoveMember(oldOrg);
        assert cross == [call];
        assert planned == [] + [call] + (roleRemoval + add);
        trace, err := IssueAfter(trace, call, roleRemoval + add, reply);
        if err.Some? {
          return;
        }
      }
    }
    assert trace == cross && AllTolerated(trace, reply);
    if newOrg != "" {
      if oldOrg == newOrg && oldRole != newRole && oldRole != "" {
        if oldRole == "owner" || oldRole == "member" {
          var call := if oldRole == "owner" then RemoveOwner(oldOrg) else RemoveMember(oldOrg);
          assert roleRemoval == [call];
          trace, err := IssueAfter(trace, call, add, reply);
          if err.Some? {
            return;
          }
        }
      }
      assert trace == cross + roleRemoval && AllTolerated(trace, reply);
      if oldOrg != newOrg || oldRole != newRole {
        if newRole == "owner" || newRole == "member" {
          var call := if newRole == "owner" then AddOwner(newOrg) else AddMember(newOrg);
          assert add == [call];
          assert planned == cross + roleRemoval + [call] + [];
          trace, err := IssueAfter(trace, call, [], reply);
          if err.Some? {
            return;
          }
        }
      }
    }
    assert trace == planned && AllTolerated(trace, reply);
  }

  /** No change of organisation or role means no call at all. */
  lemma NoChangeNoCalls(org: string, role: string)
    ensures PlannedCalls(org, org, role, role) == []
  {
  }

  /** At most one removal and at most one add, and every removal precedes every add. */
  lemma {:induction false} CallShape(oldOrg: string, newOrg: string, oldRole: string, newRole: string)
    ensures var p := PlannedCalls(oldOrg, newOrg, oldRole, newRole);
      |p| <= 2
      && (forall i :: 0 <= i < |p| ==> IsRemoval(p[i]) || IsAdd(p[i]))
      && (forall i, j :: 0 <= i < j < |p| ==> IsRemoval(p[i]) && IsAdd(p[j]))
  {
    var p := PlannedCalls(oldOrg, newOrg, oldRole, newRole);
    var rem1 := CrossRemoval(oldOrg, newOrg, oldRole);
    var rem2 := RoleRemoval(oldOrg, newOrg, oldRole, newRole);
    var add := NewAdd(oldOrg, newOrg, oldRole, newRole);
    assert p == rem1 + rem2 + add;
    assert rem1 == [] || rem2 == [];
    assert |rem1 + rem2| <= 1 && |add| <= 1;
  }

  /** Switching organisations removes the old role from the old organisation, then adds the
      new role to the new one. */
  lemma SwitchOrganisation(oldOrg: string, newOrg: string, oldRole: string, newRole: string)
    requires oldOrg != "" && newOrg != "" && oldOrg != newOrg
    ensures PlannedCalls(oldOrg, newOrg, oldRole, newRole) == RemovalFor(oldOrg, oldRole) + AddFor(newOrg, newRole)
  {
  }

  /** A role change inside one organisation removes the old role before adding the new one. */
  lemma ChangeRole(org: string, oldRole: string, newRole: string)
    requires org != "" && oldRole != "" && oldRole != newRole
    ensures PlannedCalls(org, org, oldRole, newRole) == RemovalFor(org, oldRole) + AddFor(org, newRole)
  {
  }

  /** Leaving every organisation (the path Delete uses) issues no add. */
  lemma LeaveIssuesNoAdd(oldOrg: string, oldRole: string)
    ensures PlannedCalls(oldOrg, "", oldRole, "") == if oldOrg != "" then RemovalFor(oldOrg, oldRole) else []
  {
  }

  /** A tolerated reply to an add is only a success: add errors are never swallowed. */
  lemma AddErrorsAreNotTolerated(a: Action, msg: string)
    requires IsAdd(a)
    ensures !Tolerated(a, Failed(msg))
  {
  }

  /** The org and role arguments Update derives; the null and unknown guards give exactly
      ValueString, because ValueString already reads null and unknown as "". */
  function MembershipArgs(state: UserModel, plan: UserModel): (r: (string, string, string, string))
    ensures r == (ValueString(state.orgId), ValueString(plan.orgId), ValueString(state.orgRole), ValueString(plan.orgRole))
  {
    var oldOrgId := if !state.orgId.Null? then ValueString(state.orgId) else "";
    var newOrgId := if !plan.orgId.Null? && !plan.orgId.Unknown? then ValueString(plan.orgId) else "";
    var oldRole := if !state.orgRole.Null? then ValueString(state.orgRole) else "";
    var newRole := if !plan.orgRole.Null? && !plan.orgRole.Unknown? then ValueString(plan.orgRole) else "";
    (oldOrgId, newOrgId, oldRole, newRole)
  }

  /** The membership part of Update, lines 253-281: manageOrgMembership runs only when the
      organisation or the role changed, and its error becomes an error diagnostic. */
  method UpdateMembership(state: UserModel, plan: UserModel, reply: Action -> Reply)
    returns (trace: seq<Action>, diags: seq<Diagnostic>)
    ensures var (oldOrg, newOrg, oldRole, newRole) := MembershipArgs(state, plan);
      && (oldOrg == newOrg && oldRole == newRole ==> trace == [] && diags == [])
      && IsPrefix(trace, PlannedCalls(oldOrg, newOrg, oldRole, newRole))
      && (diags == [] <==> AllTolerated(PlannedCalls(oldOrg, newOrg, oldRole, newRole), reply))
      && (diags == [] ==> trace == PlannedCalls(oldOrg, newOrg, oldRole, newRole))
      && (diags != [] ==> StoppedAtLast(trace, reply) && diags == [ErrorOf("Error managing organization membership")])
  {
    var (oldOrg, newOrg, oldRole, newRole) := MembershipArgs(state, plan);
    trace, diags := [], [];
    if oldOrg != newOrg || oldRole != newRole {
      var err;
      trace, err := ManageOrgMembership(oldOrg, newOrg, oldRole, newRole, reply);
      if err.Some? {
        diags := [ErrorOf("Error managing organization membership")];
      }
    } else {
      NoChangeNoCalls(oldOrg, oldRole);
    }
  }

  /** The membership part of Create, lines 139-150: manageOrgMembership runs, with no old
      organisation or role, only when a role is planned; its error becomes an error diagnostic. */
  method CreateMembership(plan: UserModel, reply: Action -> Reply) returns (trace: seq<Action>, diags: seq<Diagnostic>)
    ensures plan.orgRole.Null? || plan.orgRole.Unknown? ==> trace == [] && diags == []
    ensures plan.orgRole.Known? ==>
      var planned := PlannedCalls("", ValueString(plan.orgId), "", plan.orgRole.s);
      && IsPrefix(trace, planned)
      && (diags == [] <==> AllTolerated(planned, reply))
      && (diags == [] ==> trace == planned)
      && (diags != [] ==> StoppedAtLast(trace, reply) && diags == [ErrorOf("Error managing organization membership")])
  {
    trace, diags := [], [];
    if !plan.orgRole.Null? && !plan.orgRole.Unknown? {
      var orgRole := ValueString(plan.orgRole);
      var err;
      trace, err := ManageOrgMembership("", ValueString(plan.orgId), "", orgRole, reply);
      if err.Some? {
        diags := [ErrorOf("Error managing organization membership")];
      }
    }
  }

  /** At create only the add can be planned, and a role planned without an organisation id
      (null, unknown or empty) issues no call at all and reports nothing. */
  lemma CreatePlansOnlyTheAdd(org: string, role: string)
    ensures PlannedCalls("", org, "", role) == if org != "" then AddFor(org, role) else []
  {
  }

  /** The removal calls Delete plans: leaving the recorded organisation with the recorded
      role, when both are set. */
  function LeaveCalls(state: UserModel): seq<Action>
  {
    if !state.orgId.Null? && !state.orgRole.Null? then
      PlannedCalls(ValueString(state.orgId), "", ValueString(state.orgRole), "")
    else []
  }

  /** The first part of Delete, lines 300-311: leave the recorded organisation when both an
      organisation and a role are recorded; `failed` says the membership run returned an error. */
  method LeaveOrganisation(state: UserModel, reply: Action -> Reply) returns (removals: seq<Action>, failed: bool)
    ensures removals == LeaveCalls(state)
    ensures forall i :: 0 <= i < |removals| ==> IsRemoval(removals[i])
    ensures failed <==> !AllTolerated(LeaveCalls(state), reply)
  {
    removals, failed := [], false;
    if !state.orgId.Null? && !state.orgRole.Null? {
      var orgRole := ValueString(state.orgRole);
      var err;
      removals, err := ManageOrgMembership(ValueString(state.orgId), "", orgRole, "", reply);
      LeaveIssuesNoAdd(ValueString(state.orgId), orgRole);
      failed := err.Some?;
    }
  }

  /** Delete, lines 300-322: a user recorded with an organisation and a role is first removed
      from it; a failure there is only a warning, and the user is deleted in every case. */
  method DeleteUserWithMembership(state: UserModel, reply: Action -> Reply)
    returns (trace: seq<Action>, diags: seq<Diagnostic>)
    ensures trace != [] && trace[|trace| - 1] == DeleteUser
    ensures trace == LeaveCalls(state) + [DeleteUser]
    ensures forall i :: 0 <= i < |trace| - 1 ==> IsRemoval(trace[i])
    ensures diags ==
      (if AllTolerated(LeaveCalls(state), reply) then [] else [WarningOf("Warning removing user from organization")])
      + (if reply(DeleteUser).Failed? then [ErrorOf("Error deleting user")] else [])
    ensures HasError(diags) <==> reply(DeleteUser).Failed?
  {
    var removals, failed := LeaveOrganisation(state, reply);
    diags := if failed then [WarningOf("Warning removing user from organization")] else [];
    trace := removals + [DeleteUser];
    assert trace[..|trace| - 1] == removals;
    if reply(DeleteUser).Failed? {
      diags := diags + [ErrorOf("Error deleting user")];
      assert diags[|diags| - 1].severity == Error;
    }
  }

  /** The user as the API returns it. */
  datatype ApiUser = ApiUser(id: Option<string>, name: string, status: string)

  /** Read, lines 170-189: a failed lookup leaves state as it was with a "User not found" error;
      otherwise id, name and status come from the API while password, organisation and role,
      which the API does not return, are carried over from the prior state. */
  function ReadUser(state: UserModel, found: Result<ApiUser>): (r: (UserModel, seq<Diagnostic>))
    ensures found.Err? ==> r == (state, [ErrorOf("User not found")])
    ensures found.Ok? ==> r.1 == []
    ensures found.Ok? ==> r.0.password == state.password && r.0.orgId == state.orgId && r.0.orgRole == state.orgRole
    ensures found.Ok? ==> r.0.id == StringPointerValue(found.value.id)
    ensures found.Ok? ==> r.0.name == Known(found.value.name) && r.0.status == Known(found.value.status)
  {
    match found
    case Err(_) => (state, [ErrorOf("User not found")])
    case Ok(user) =>
      (UserModel(StringPointerValue(user.id), Known(user.name), state.password, state.orgId, state.orgRole, Known(user.status)), [])
  }
}
