/**
 * The organization roles and permissions of the authorization policy, and the
 * strings they are written as when handed to the policy engine.
 */
module OrganizationRbac {
  import opened Wrappers

  const MEMBER_ROLE: string := "member"
  const LEADER_ROLE: string := "leader"

  const READ_PERM: string := "read"
  const CREATE_PROJECTS_PERM: string := "create_projects"
  const LIST_PROJECTS_PERM: string := "list_projects"
  const CREATE_ROLE_ASSIGNMENTS_PERM: string := "create_role_assignments"
  const LIST_ROLE_ASSIGNMENTS_PERM: string := "list_role_assignments"
  const UPDATE_ROLE_ASSIGNMENTS_PERM: string := "update_role_assignments"
  const DELETE_ROLE_ASSIGNMENTS_PERM: string := "delete_role_assignments"

  datatype Role = Member | Leader

  datatype Permission =
    | Read
    | CreateProjects
    | ListProjects
    | CreateRoleAssignments
    | ListRoleAssignments
    | UpdateRoleAssignments
    | DeleteRoleAssignments

  /** A value handed to the policy engine; roles and permissions are passed as strings. */
  datatype PolarValue = PolarString(s: string)

  /** `Display for Role`. */
  function RoleToString(role: Role): (r: string)
    ensures r == MEMBER_ROLE || r == LEADER_ROLE
    ensures r == MEMBER_ROLE <==> role.Member?
  {
    match role
    case Member => MEMBER_ROLE
    case Leader => LEADER_ROLE
  }

  /** `FromStr for Role`: an exact, case-sensitive match; anything else is an error carrying the input. */
  function ParseRole(s: string): (r: Result<Role, string>)
    ensures r.Ok? <==> s == MEMBER_ROLE || s == LEADER_ROLE
    ensures r.Err? ==> r.error == s
  {
    if s == MEMBER_ROLE then Ok(Member)
    else if s == LEADER_ROLE then Ok(Leader)
    else Err(s)
  }

  /** `ToPolar for Role`. */
  function RoleToPolar(role: Role): (r: PolarValue)
    ensures ParseRole(r.s) == Ok(role)
  {
    PolarString(RoleToString(role))
  }

  /** `Display for Permission`: a non-empty snake-case name. */
  function PermissionToString(permission: Permission): (r: string)
    ensures |r| > 0
    ensures forall i :: 0 <= i < |r| ==> 'a' <= r[i] <= 'z' || r[i] == '_'
  {
    match permission
    case Read => READ_PERM
    case CreateProjects => CREATE_PROJECTS_PERM
    case ListProjects => LIST_PROJECTS_PERM
    case CreateRoleAssignments => CREATE_ROLE_ASSIGNMENTS_PERM
    case ListRoleAssignments => LIST_ROLE_ASSIGNMENTS_PERM
    case UpdateRoleAssignments => UPDATE_ROLE_ASSIGNMENTS_PERM
    case DeleteRoleAssignments => DELETE_ROLE_ASSIGNMENTS_PERM
  }

  /** `ToPolar for Permission`. */
  function PermissionToPolar(permission: Permission): (r: PolarValue)
    ensures forall q: Permission :: PermissionToString(q) == r.s ==> q == permission
  {
    PolarString(PermissionToString(permission))
  }

  /** Parsing what a role displays as gives the role back. */
  lemma RoleRoundTrip(role: Role)
    ensures ParseRole(RoleToString(role)) == Ok(role)
  {
  }

  /** A successful parse is undone by display: the two accepted strings are the only role strings. */
  lemma ParseThenDisplay(s: string)
    requires ParseRole(s).Ok?
    ensures RoleToString(ParseRole(s).value) == s
  {
  }

  /** Other spellings, such as a capitalised one, are refused. */
  lemma ParseIsCaseSensitive()
    ensures ParseRole("Member") == Err("Member") && ParseRole("LEADER") == Err("LEADER") && ParseRole("") == Err("")
  {
  }

  /** Distinct permissions display as distinct strings. */
  lemma PermissionStringsInjective(p: Permission, q: Permission)
    requires PermissionToString(p) == PermissionToString(q)
    ensures p == q
  {
  }

  /** Distinct roles display as distinct strings. */
  lemma RoleStringsInjective(a: Role, b: Role)
    requires RoleToString(a) == RoleToString(b)
    ensures a == b
  {
  }

  /** The policy engine sees exactly the displayed string. */
  lemma PolarIsDisplay(role: Role, permission: Permission)
    ensures RoleToPolar(role).s == RoleToString(role)
    ensures PermissionToPolar(permission).s == PermissionToString(permission)
  {
  }
}
