/**
 * AdminRoleController: a super administrator replaces a user's roles. The
 * requested roles are filtered to the known ones, an empty result becomes
 * {USER}, and the last SUPER_ADMIN cannot lose that role.
 */
module AdminRoles {

  import opened Wrappers
  import opened Users

  const SuperAdmin := "SUPER_ADMIN"
  const Allowed: set<string> := {"USER", "ADMIN", SuperAdmin}
  const UserNotFound := "User not found"
  const CannotRemoveLastSuperAdmin := "Cannot remove the last SUPER_ADMIN"

  /**
   * The roles `updateRoles` stores for a request; `None` stands for a
   * `null` role set.
   */
  function SafeRoles(requested: Option<set<string>>): (safe: set<string>)
    ensures safe <= Allowed && safe != {}
    ensures requested.GetOr({}) * Allowed <= safe
    ensures safe != requested.GetOr({}) * Allowed ==> safe == {"USER"} && requested.GetOr({}) * Allowed == {}
  {
    var kept := requested.GetOr({}) * Allowed;
    if kept == {} then {"USER"} else kept
  }

  /** Sanitising a sanitised role set returns it unchanged. */
  lemma SafeRolesIdempotent(requested: Option<set<string>>)
    ensures SafeRoles(Some(SafeRoles(requested))) == SafeRoles(requested)
  {
    var safe := SafeRoles(requested);
    assert safe * Allowed == safe;
  }

  /** The sanitising loop of `updateRoles`, over the request's roles in any order. */
  method Sanitize(requested: Option<set<string>>) returns (safeRoles: set<string>)
    ensures safeRoles == SafeRoles(requested)
  {
    safeRoles := {};
    if requested.Some? {
      var rest := requested.value;
      while rest != {}
        invariant rest <= requested.value
        invariant safeRoles == (requested.value - rest) * Allowed
        decreases rest
      {
        var r :| r in rest;
        if r in Allowed {
          safeRoles := safeRoles + {r};
        }
        rest := rest - {r};
      }
    }
    if safeRoles == {} {
      safeRoles := safeRoles + {"USER"};
    }
  }

  /** The update takes SUPER_ADMIN away from a holder; a `null` role set counts. */
  predicate RemovingSuper(current: set<string>, requested: Option<set<string>>) {
    SuperAdmin in current && (requested.None? || SuperAdmin !in requested.value)
  }

  datatype RolesResponse =
    | RolesUpdated(userId: string, roles: set<string>)
    | Error(httpStatus: nat, reason: string)

  /**
   * `updateRoles` on the user `userId` holding `current` (`None` when no
   * such user exists), with `superAdmins` users holding SUPER_ADMIN: the
   * response and the roles afterwards.
   */
  function UpdateRolesStep(userId: string, current: Option<set<string>>, requested: Option<set<string>>, superAdmins: nat)
    : (r: (RolesResponse, Option<set<string>>))
    ensures current.None? ==> r == (Error(404, UserNotFound), None)
    ensures current.Some? && RemovingSuper(current.value, requested) && superAdmins <= 1 ==>
      r == (Error(400, CannotRemoveLastSuperAdmin), current)
    ensures current.Some? && !(RemovingSuper(current.value, requested) && superAdmins <= 1) ==>
      r == (RolesUpdated(userId, SafeRoles(requested)), Some(SafeRoles(requested)))
  {
    if current.None? then (Error(404, UserNotFound), None)
    else if RemovingSuper(current.value, requested) && superAdmins <= 1 then (Error(400, CannotRemoveLastSuperAdmin), current)
    else (RolesUpdated(userId, SafeRoles(requested)), Some(SafeRoles(requested)))
  }

  /** A holder of SUPER_ADMIN who is the only one keeps it, whatever is requested. */
  lemma LastSuperAdminKeepsRole(userId: string, current: set<string>, requested: Option<set<string>>, superAdmins: nat)
    requires SuperAdmin in current && superAdmins <= 1
    ensures var r := UpdateRolesStep(userId, Some(current), requested, superAdmins).1;
      r.Some? && SuperAdmin in r.value
  {
    if !RemovingSuper(current, requested) {
      assert SuperAdmin in requested.value * Allowed;
    }
  }

  /** Whatever is stored is a non-empty set of known roles. */
  lemma StoredRolesAllowed(userId: string, current: set<string>, requested: Option<set<string>>, superAdmins: nat)
    requires current <= Allowed && current != {}
    ensures var r := UpdateRolesStep(userId, Some(current), requested, superAdmins).1;
      r.Some? && r.value <= Allowed && r.value != {}
  {
  }

  /**
   * `updateRoles`: `target` is the user with the path's id (`null` when
   * there is none); `superAdmins` is what `countByRolesContaining` returns.
   */
  method UpdateRoles(target: User?, requested: Option<set<string>>, superAdmins: nat) returns (resp: RolesResponse)
    modifies Found(target)`roles
    ensures target == null ==> resp == Error(404, UserNotFound)
    ensures target != null ==>
      (resp, Some(target.roles)) == UpdateRolesStep(target.id, Some(old(target.roles)), requested, superAdmins)
  {
    if target == null {
      return Error(404, UserNotFound);
    }
    var removingSuper := SuperAdmin in target.roles && (requested.None? || SuperAdmin !in requested.value);
    if removingSuper {
      if superAdmins <= 1 {
        return Error(400, CannotRemoveLastSuperAdmin);
      }
    }
    var safeRoles := Sanitize(requested);
    target.roles := safeRoles;
    resp := RolesUpdated(target.id, target.roles);
  }
}
