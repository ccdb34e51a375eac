/**
 * Role constants and the access rules every page uses (src/utils/roleHelpers.js).
 * A profile is the row of the `profiles` table the front end holds for the
 * signed-in user; `None` stands for a missing (null) profile.
 */
module Roles {
  import opened Wrappers

  const SuperAdmin: string := "super_admin"
  const Admin: string := "admin"
  const Client: string := "client"

  /**
   * The `is_active` column as a JavaScript value. The rules below compare it
   * with `=== true`, the route guard tests its truthiness, and the two differ
   * for a value that is truthy without being the boolean `true`.
   */
  datatype Activity =
    | Flag(b: bool)        // a boolean
    | Absent               // null or undefined
    | Other(truthy: bool)  // any other JavaScript value, truthy or not

  /** `is_active === true` */
  predicate IsExactlyTrue(a: Activity)
  {
    a == Flag(true)
  }

  /** `!!is_active` */
  predicate IsTruthy(a: Activity)
  {
    a == Flag(true) || a == Other(true)
  }

  datatype Profile = Profile(id: string, role: string, isActive: Activity, fullName: Option<string>)

  /** A task as far as the rules look at it: who created it and who it is assigned to (either may be null). */
  datatype Task = Task(createdBy: Option<string>, assignedTo: Option<string>)

  /** A present profile whose `is_active` is exactly `true`. */
  predicate Active(p: Option<Profile>)
  {
    p.Some? && IsExactlyTrue(p.value.isActive)
  }

  /** `hasRole(profile, role)`: the profile is present, carries the role and is active. */
  predicate HasRole(p: Option<Profile>, role: string)
    ensures HasRole(p, role) <==> Active(p) && p.value.role == role
  {
    p.Some? && p.value.role == role && p.value.isActive == Flag(true)
  }

  predicate IsSuperAdmin(p: Option<Profile>)
    ensures IsSuperAdmin(p) <==> Active(p) && p.value.role == SuperAdmin
  {
    HasRole(p, SuperAdmin)
  }

  predicate IsAdmin(p: Option<Profile>)
    ensures IsAdmin(p) <==> Active(p) && p.value.role == Admin
  {
    HasRole(p, Admin)
  }

  predicate IsClient(p: Option<Profile>)
    ensures IsClient(p) <==> Active(p) && p.value.role == Client
  {
    HasRole(p, Client)
  }

  predicate IsAdminOrAbove(p: Option<Profile>)
    ensures IsAdminOrAbove(p) <==> Active(p) && (p.value.role == SuperAdmin || p.value.role == Admin)
  {
    IsSuperAdmin(p) || IsAdmin(p)
  }

  predicate CanManageUsers(p: Option<Profile>)
    ensures CanManageUsers(p) <==> Active(p) && p.value.role == SuperAdmin
  {
    IsSuperAdmin(p)
  }

  /** The client id is accepted and not consulted (the assignment check is a placeholder in the source). */
  predicate CanManageClients(p: Option<Profile>, clientId: Option<string>)
    ensures CanManageClients(p, clientId) <==> Active(p) && p.value.role == SuperAdmin
  {
    if IsSuperAdmin(p) then true else false
  }

  predicate CanManageCalendar(p: Option<Profile>, targetUserId: Option<string>)
    ensures CanManageCalendar(p, targetUserId) <==>
      Active(p) && (p.value.role == SuperAdmin || p.value.role == Admin
                    || (p.value.role == Client && targetUserId == Some(p.value.id)))
  {
    if IsSuperAdmin(p) then true
    else if IsAdmin(p) then true
    else if IsClient(p) && targetUserId == Some(p.value.id) then true
    else false
  }

  predicate CanCreateTasks(p: Option<Profile>)
    ensures CanCreateTasks(p) <==> Active(p) && (p.value.role == SuperAdmin || p.value.role == Admin)
  {
    IsAdminOrAbove(p)
  }

  predicate CanViewTask(p: Option<Profile>, task: Task)
    ensures CanViewTask(p, task) <==>
      Active(p) && (p.value.role == SuperAdmin
                    || (p.value.role == Admin && task.createdBy == Some(p.value.id))
                    || (p.value.role == Client && task.assignedTo == Some(p.value.id)))
  {
    if IsSuperAdmin(p) then true
    else if IsAdmin(p) && task.createdBy == Some(p.value.id) then true
    else if IsClient(p) && task.assignedTo == Some(p.value.id) then true
    else false
  }

  /** The three role names are pairwise different. */
  lemma RolesDistinct()
    ensures SuperAdmin != Admin && SuperAdmin != Client && Admin != Client
  {
  }

  /** `hasRole` holds exactly for a present profile with that role whose `is_active` is the boolean `true`. */
  lemma HasRoleExactly(p: Option<Profile>, role: string)
    ensures HasRole(p, role) <==> p.Some? && p.value.role == role && IsExactlyTrue(p.value.isActive)
    ensures p.None? ==> !HasRole(p, role)
    ensures p.Some? && p.value.isActive == Other(true) ==> !HasRole(p, role)
  {
  }

  /** A profile holds at most one role at a time. */
  lemma AtMostOneRole(p: Option<Profile>)
    ensures !(IsSuperAdmin(p) && IsAdmin(p))
    ensures !(IsSuperAdmin(p) && IsClient(p))
    ensures !(IsAdmin(p) && IsClient(p))
  {
  }

  /** A missing or inactive profile is denied by every rule, whatever the other arguments. */
  lemma InactiveDeniedEverywhere(p: Option<Profile>, clientId: Option<string>, target: Option<string>, task: Task)
    requires !Active(p)
    ensures !IsAdminOrAbove(p) && !CanManageUsers(p) && !CanManageClients(p, clientId)
    ensures !CanManageCalendar(p, target) && !CanCreateTasks(p) && !CanViewTask(p, task)
  {
  }

  /** Admin-or-above means an active super_admin or an active admin; an active client never qualifies. */
  lemma AdminOrAboveExactly(p: Option<Profile>)
    ensures IsAdminOrAbove(p) <==> Active(p) && (p.value.role == SuperAdmin || p.value.role == Admin)
    ensures IsClient(p) ==> !IsAdminOrAbove(p)
  {
  }

  /** Managing users and managing clients are both exactly "active super_admin"; the client id never matters. */
  lemma ManageIsSuperAdmin(p: Option<Profile>, clientId: Option<string>, otherClientId: Option<string>)
    ensures CanManageUsers(p) <==> IsSuperAdmin(p)
    ensures CanManageClients(p, clientId) <==> IsSuperAdmin(p)
    ensures CanManageClients(p, clientId) == CanManageClients(p, otherClientId)
  {
  }

  /** Staff manage every calendar; a client manages only the calendar whose id is its own. */
  lemma CalendarRule(p: Option<Profile>, target: Option<string>)
    ensures IsAdminOrAbove(p) ==> CanManageCalendar(p, target)
    ensures IsClient(p) ==> (CanManageCalendar(p, target) <==> target == Some(p.value.id))
    ensures CanManageCalendar(p, target) ==> Active(p)
  {
  }

  /** Super admins see every task, admins the ones they created, clients the ones assigned to them. */
  lemma ViewTaskRule(p: Option<Profile>, task: Task)
    ensures IsSuperAdmin(p) ==> CanViewTask(p, task)
    ensures IsAdmin(p) ==> (CanViewTask(p, task) <==> task.createdBy == Some(p.value.id))
    ensures IsClient(p) ==> (CanViewTask(p, task) <==> task.assignedTo == Some(p.value.id))
    ensures CanViewTask(p, task) ==> IsSuperAdmin(p) || IsAdmin(p) || IsClient(p)
  {
  }

  /** Creating tasks is granted exactly to admins and above. */
  lemma CreateTasksIsAdminOrAbove(p: Option<Profile>)
    ensures CanCreateTasks(p) <==> IsAdminOrAbove(p)
  {
  }
}
