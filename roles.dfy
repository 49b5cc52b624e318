/**
 * The Roles page: the company's employees, optionally narrowed to one
 * role, and the per-employee role change. An accepted change rewrites the
 * employee's role in the full list and in the shown list, after which the
 * filter effect runs again, so the shown list is always the filter of the
 * full list once effects have settled.
 */
module Roles {
  import opened Wrappers
  import opened JsText
  import opened Http
  import Seqs

  datatype Role = Role(id: string, name: string)

  /** An employee record as the employees endpoint returns it. */
  datatype Employee = Employee(
    id: string,
    roleId: string,
    companyName: string,
    contactPerson: string,
    email: string,
    phone: string,
    role: Role)

  /** The value of the role selector that shows every employee. */
  const AllRoles := "all"

  // ---------------------------------------------------------------------
  // The role filter
  // ---------------------------------------------------------------------

  /** The filter effect: everyone for `'all'`, otherwise those whose `role.id` is the selected role. */
  function FilterByRole(all: seq<Employee>, selected: string): (r: seq<Employee>)
    ensures |r| <= |all|
    ensures selected == AllRoles ==> r == all
    ensures selected != AllRoles ==> forall e :: e in r <==> e in all && e.role.id == selected
  {
    if selected == AllRoles then all else Seqs.Filter(all, (e: Employee) => e.role.id == selected)
  }

  /** The filter keeps the employees' order: it distributes over concatenation. */
  lemma FilterKeepsOrder(a: seq<Employee>, b: seq<Employee>, selected: string)
    ensures FilterByRole(a + b, selected) == FilterByRole(a, selected) + FilterByRole(b, selected)
  {
    if selected != AllRoles {
      Seqs.FilterAppend(a, b, (e: Employee) => e.role.id == selected);
    }
  }

  /** On a single employee the filter keeps it exactly when it holds the selected role (or every role is selected). */
  lemma FilterSingle(e: Employee, selected: string)
    ensures FilterByRole([e], selected) == (if selected == AllRoles || e.role.id == selected then [e] else [])
  {
    if selected != AllRoles {
      assert [e][1..] == [];
    }
  }

  // ---------------------------------------------------------------------
  // The role update
  // ---------------------------------------------------------------------

  /** `roles.find(role => role.id === newRoleId)`: the first role with that id. */
  function FindRole(roles: seq<Role>, id: string): (r: Option<Role>)
    ensures r.None? <==> forall i :: 0 <= i < |roles| ==> roles[i].id != id
    ensures r.Some? ==> exists i :: 0 <= i < |roles| && roles[i] == r.value && (forall j :: 0 <= j < i ==> roles[j].id != id)
    ensures r.Some? ==> r.value.id == id
  {
    if roles == [] then None
    else if roles[0].id == id then Some(roles[0])
    else
      var r := FindRole(roles[1..], id);
      if r.Some? then
        var i :| 0 <= i < |roles[1..]| && roles[1..][i] == r.value && (forall j :: 0 <= j < i ==> roles[1..][j].id != id);
        assert roles[i + 1] == r.value && forall j :: 0 <= j < i + 1 ==> roles[j].id != id;
        r
      else
        r
  }

  /** `updateEmployee`: the employee with the given id takes the new role and role id; any other is unchanged. */
  function UpdateEmployee(employeeId: string, newRole: Role, emp: Employee): Employee {
    if emp.id == employeeId then emp.(role := newRole, roleId := newRole.id) else emp
  }

  /** `list.map(updateEmployee)`. */
  function UpdateRole(es: seq<Employee>, employeeId: string, newRole: Role): (r: seq<Employee>)
    ensures |r| == |es|
    ensures forall i :: 0 <= i < |es| && es[i].id == employeeId ==> r[i] == es[i].(role := newRole, roleId := newRole.id)
    ensures forall i :: 0 <= i < |es| && es[i].id != employeeId ==> r[i] == es[i]
  {
    Seqs.Map(es, (e: Employee) => UpdateEmployee(employeeId, newRole, e))
  }

  /** Updating keeps every employee's identity and contact fields; only role and role id move. */
  lemma UpdateKeepsIdentity(es: seq<Employee>, employeeId: string, newRole: Role)
    ensures forall i :: 0 <= i < |es| ==>
      UpdateRole(es, employeeId, newRole)[i].(role := es[i].role, roleId := es[i].roleId) == es[i]
  {
  }

  /**
   * Updating and filtering commute when the change does not move any
   * updated employee into or out of the selected role; this is when the
   * in-place `map` of the shown list already agrees with the filter.
   */
  lemma {:induction false} FilterUpdateCommute(all: seq<Employee>, employeeId: string, newRole: Role, selected: string)
    requires selected == AllRoles ||
      forall i :: 0 <= i < |all| && all[i].id == employeeId ==> (all[i].role.id == selected <==> newRole.id == selected)
    ensures FilterByRole(UpdateRole(all, employeeId, newRole), selected) == UpdateRole(FilterByRole(all, selected), employeeId, newRole)
    decreases |all|
  {
    if all != [] && selected != AllRoles {
      var e := all[0];
      var rest := all[1..];
      assert all == [e] + rest;
      var u := UpdateRole(all, employeeId, newRole);
      assert u == [u[0]] + UpdateRole(rest, employeeId, newRole);
      FilterKeepsOrder([u[0]], UpdateRole(rest, employeeId, newRole), selected);
      FilterKeepsOrder([e], rest, selected);
      FilterSingle(u[0], selected);
      FilterSingle(e, selected);
      FilterUpdateCommute(rest, employeeId, newRole, selected);
      var f := FilterByRole(rest, selected);
      if e.role.id == selected {
        assert UpdateRole([e] + f, employeeId, newRole) == [u[0]] + UpdateRole(f, employeeId, newRole);
      }
    }
  }

  /** An employee given a role other than the selected one is not among the employees shown once the filter has run again. */
  lemma MovedEmployeeLeavesView(all: seq<Employee>, employeeId: string, newRole: Role, selected: string)
    requires selected != AllRoles && newRole.id != selected
    ensures forall e :: e in FilterByRole(UpdateRole(all, employeeId, newRole), selected) ==> e.id != employeeId
  {
    var u := UpdateRole(all, employeeId, newRole);
    forall e | e in FilterByRole(u, selected) ensures e.id != employeeId {
      var i :| 0 <= i < |u| && u[i] == e;
    }
  }

  // ---------------------------------------------------------------------
  // Responses and messages
  // ---------------------------------------------------------------------

  /** `EmployeesResponse`; `data` is absent when it is not an array. */
  datatype EmployeesResponse = EmployeesResponse(status: bool, message: Option<string>, data: Option<seq<Employee>>)

  /** `RolesResponse`; `data` is absent when it is not an array. */
  datatype RolesResponse = RolesResponse(status: bool, message: Option<string>, data: Option<seq<Role>>)

  /** `RoleUpdateResponse`, reduced to what the handler reads. */
  datatype RoleUpdateResponse = RoleUpdateResponse(status: bool, message: Option<string>)

  /** The body of `PUT /b2b/roles/user-role`. */
  datatype RoleUpdateRequest = RoleUpdateRequest(employeeId: string, roleId: string)

  /** A list response is used only when `status` is true and `data` is an array. */
  predicate Accepted<T>(status: bool, data: Option<T>) {
    status && data.Some?
  }

  const EmployeesRefused := "Failed to fetch employees"
  const EmployeesError := "Error loading employees"
  const RolesRefused := "Failed to fetch roles"
  const RolesError := "Error loading roles"
  const RoleUpdated := "Employee role updated successfully"
  const RoleNotFound := "Role not found in available roles"
  const UpdateRefused := "Failed to update employee role"
  const UpdateError := "Error updating employee role"

  /** Every failure text of the page is the server's message or the error's own when truthy, and the default otherwise. */
  lemma FailureTextPrecedence(e: HttpError, fallback: string)
    requires fallback in {EmployeesError, RolesError, UpdateError}
    ensures ServerThenErrorMessage(e, fallback) != ""
    ensures !TruthyOpt(e.serverMessage) && !TruthyOpt(e.message) ==> ServerThenErrorMessage(e, fallback) == fallback
  {
    assert |EmployeesError| > 0 && |RolesError| > 0 && |UpdateError| > 0;
  }

  // ---------------------------------------------------------------------
  // The page
  // ---------------------------------------------------------------------

  class RolesPage {
    /** The employees shown. */
    var employees: seq<Employee>
    /** Every employee fetched, kept for filtering. */
    var allEmployees: seq<Employee>
    var roles: seq<Role>
    var selectedRole: string
    var loading: bool
    var rolesLoading: bool
    var error: Option<string>
    /** The employee whose role change is in flight. */
    var updatingEmployeeId: Option<string>
    /** Every role change sent so far. */
    var updates: seq<RoleUpdateRequest>
    /** Every toast so far. */
    var toasts: seq<Toast>

    /** Effects have settled: the employees shown are the filter of all employees. */
    ghost predicate Settled()
      reads this
    {
      employees == FilterByRole(allEmployees, selectedRole)
    }

    constructor()
      ensures Settled()
      ensures employees == [] && allEmployees == [] && roles == [] && selectedRole == AllRoles
      ensures loading && rolesLoading && error.None? && updatingEmployeeId.None? && updates == [] && toasts == []
    {
      employees := [];
      allEmployees := [];
      roles := [];
      selectedRole := AllRoles;
      loading := true;
      rolesLoading := true;
      error := None;
      updatingEmployeeId := None;
      updates := [];
      toasts := [];
    }

    /** The filter effect, run whenever `selectedRole` or `allEmployees` changes. */
    method ApplyRoleFilter()
      modifies this`employees
      ensures Settled()
    {
      if selectedRole == AllRoles {
        employees := allEmployees;
      } else {
        var selected := selectedRole;
        employees := Seqs.Filter(allEmployees, (e: Employee) => e.role.id == selected);
      }
    }

    /**
     * `fetchEmployees`: an accepted list replaces both lists (and the
     * filter runs again); a refusal or a failure sets the error text and
     * toasts it.
     */
    method LoadEmployees(o: Outcome<EmployeesResponse>)
      requires Settled()
      modifies this`employees, this`allEmployees, this`loading, this`error, this`toasts
      ensures Settled() && !loading
      ensures o.Response? && Accepted(o.body.status, o.body.data) ==>
        allEmployees == o.body.data.value && error == old(error) && toasts == old(toasts)
      ensures o.Response? && !Accepted(o.body.status, o.body.data) ==>
        allEmployees == old(allEmployees) && employees == old(employees) &&
        error == Some(OrOpt(o.body.message, EmployeesRefused)) && toasts == old(toasts) + [ErrorToast(OrOpt(o.body.message, EmployeesRefused))]
      ensures o.Thrown? ==>
        allEmployees == old(allEmployees) && employees == old(employees) &&
        error == Some(ServerThenErrorMessage(o.error, EmployeesError)) &&
        toasts == old(toasts) + [ErrorToast(ServerThenErrorMessage(o.error, EmployeesError))]
    {
      loading := true;
      match o {
        case Response(response) =>
          if response.status && response.data.Some? {
            employees := response.data.value;
            allEmployees := response.data.value;
            ApplyRoleFilter();
          } else {
            var message := OrOpt(response.message, EmployeesRefused);
            error := Some(message);
            toasts := toasts + [ErrorToast(message)];
          }
        case Thrown(e) =>
          var message := ServerThenErrorMessage(e, EmployeesError);
          error := Some(message);
          toasts := toasts + [ErrorToast(message)];
      }
      loading := false;
    }

    /** `fetchRoles`: an accepted list replaces the roles; otherwise only a toast, no error text. */
    method LoadRoles(o: Outcome<RolesResponse>)
      modifies this`roles, this`rolesLoading, this`toasts
      ensures !rolesLoading
      ensures o.Response? && Accepted(o.body.status, o.body.data) ==> roles == o.body.data.value && toasts == old(toasts)
      ensures o.Response? && !Accepted(o.body.status, o.body.data) ==>
        roles == old(roles) && toasts == old(toasts) + [ErrorToast(OrOpt(o.body.message, RolesRefused))]
      ensures o.Thrown? ==> roles == old(roles) && toasts == old(toasts) + [ErrorToast(ServerThenErrorMessage(o.error, RolesError))]
    {
      rolesLoading := true;
      match o {
        case Response(response) =>
          if response.status && response.data.Some? {
            roles := response.data.value;
          } else {
            toasts := toasts + [ErrorToast(OrOpt(response.message, RolesRefused))];
          }
        case Thrown(e) =>
          toasts := toasts + [ErrorToast(ServerThenErrorMessage(e, RolesError))];
      }
      rolesLoading := false;
    }

    /** `handleRoleChange`, followed by the filter effect it triggers. */
    method HandleRoleChange(roleId: string)
      modifies this`selectedRole, this`employees
      ensures Settled()
      ensures selectedRole == roleId
    {
      selectedRole := roleId;
      ApplyRoleFilter();
    }

    /** The part of `updateEmployeeRole` before the call resolves: the employee is marked in flight and the change is sent. */
    method BeginRoleUpdate(employeeId: string, newRoleId: string) returns (request: RoleUpdateRequest)
      modifies this`updatingEmployeeId, this`updates
      ensures request == RoleUpdateRequest(employeeId, newRoleId)
      ensures updatingEmployeeId == Some(employeeId) && updates == old(updates) + [request]
    {
      updatingEmployeeId := Some(employeeId);
      request := RoleUpdateRequest(employeeId, newRoleId);
      updates := updates + [request];
    }

    /**
     * The part of `updateEmployeeRole` after the call resolves. An accepted
     * change to a known role rewrites that employee in both lists, and the
     * filter effect then runs again because the full list changed; an
     * unknown role, a refusal or a failure changes neither list. Nothing
     * is in flight afterwards, on every path.
     */
    method FinishRoleUpdate(employeeId: string, newRoleId: string, o: Outcome<RoleUpdateResponse>)
      requires Settled()
      modifies this`employees, this`allEmployees, this`updatingEmployeeId, this`toasts
      ensures Settled()
      ensures updatingEmployeeId.None?
      ensures o.Response? && o.body.status && FindRole(roles, newRoleId).Some? ==>
        allEmployees == UpdateRole(old(allEmployees), employeeId, FindRole(roles, newRoleId).value) &&
        toasts == old(toasts) + [SuccessToast(OrOpt(o.body.message, RoleUpdated))]
      ensures !(o.Response? && o.body.status && FindRole(roles, newRoleId).Some?) ==>
        allEmployees == old(allEmployees) && employees == old(employees)
      ensures o.Response? && o.body.status && FindRole(roles, newRoleId).None? ==> toasts == old(toasts) + [ErrorToast(RoleNotFound)]
      ensures o.Response? && !o.body.status ==> toasts == old(toasts) + [ErrorToast(OrOpt(o.body.message, UpdateRefused))]
      ensures o.Thrown? ==> toasts == old(toasts) + [ErrorToast(ServerThenErrorMessage(o.error, UpdateError))]
    {
      match o {
        case Response(response) =>
          if response.status {
            var newRole := FindRole(roles, newRoleId);
            if newRole.Some? {
              allEmployees := UpdateRole(allEmployees, employeeId, newRole.value);
              employees := UpdateRole(employees, employeeId, newRole.value);
              toasts := toasts + [SuccessToast(OrOpt(response.message, RoleUpdated))];
              ApplyRoleFilter();
            } else {
              toasts := toasts + [ErrorToast(RoleNotFound)];
            }
          } else {
            toasts := toasts + [ErrorToast(OrOpt(response.message, UpdateRefused))];
          }
        case Thrown(e) =>
          toasts := toasts + [ErrorToast(ServerThenErrorMessage(e, UpdateError))];
      }
      updatingEmployeeId := None;
    }

    /**
     * `updateEmployeeRole` as one step: the change is sent, the lists
     * change only for an accepted change to a known role, and nothing is
     * in flight afterwards.
     */
    method UpdateEmployeeRole(employeeId: string, newRoleId: string, o: Outcome<RoleUpdateResponse>) returns (request: RoleUpdateRequest)
      requires Settled()
      modifies this`employees, this`allEmployees, this`updatingEmployeeId, this`toasts, this`updates
      ensures Settled()
      ensures request == RoleUpdateRequest(employeeId, newRoleId) && updates == old(updates) + [request]
      ensures updatingEmployeeId.None?
      ensures o.Response? && o.body.status && FindRole(roles, newRoleId).Some? ==>
        allEmployees == UpdateRole(old(allEmployees), employeeId, FindRole(roles, newRoleId).value)
      ensures !(o.Response? && o.body.status && FindRole(roles, newRoleId).Some?) ==>
        allEmployees == old(allEmployees) && employees == old(employees)
    {
      request := BeginRoleUpdate(employeeId, newRoleId);
      FinishRoleUpdate(employeeId, newRoleId, o);
    }
  }
}
