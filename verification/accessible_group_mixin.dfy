/** The group extension of the access facet (tk.accessible.group.mixin):
    access through groups only, and whole-set operations on the custom groups
    attached to a record. The custom groups live in the access facet, so
    every operation here works on an `Access` object. */
module GroupAccess {
  import opened Identity
  import opened AccessGroups
  import opened Accessible

  /** `allowed_group_users_ids` as this mixin computes it: the users of the
      allowed system groups together with the members of the active custom
      groups. */
  function AllowedGroupUsers(a: Access, env: Env): (users: set<UserId>)
    reads a, a.customGroups
    ensures a.CustomGroupUsers() <= users
    ensures a.SystemGroupUsers(env) <= users
    ensures users <= a.AllAllowedUsers(env)
  {
    a.SystemGroupUsers(env) + a.CustomGroupUsers()
  }

  /** `get_all_group_users`: like the above, but inactive custom groups count
      when asked to. */
  function GetAllGroupUsers(a: Access, env: Env, includeInactive: bool): set<UserId>
    reads a, a.customGroups
  {
    a.SystemGroupUsers(env) +
    set g, u | g in a.customGroups && (includeInactive || g.active) && u in g.users :: u
  }

  /** `can_manage_groups`: an administrator, the owner, a co-owner or an
      explicit user. Unlike `can_grant_access`, co-owners are included. */
  predicate CanManageGroups(a: Access, actor: User)
    reads a, a.ownership
  {
    actor.isAdmin || a.OwnsOrCoOwns(actor.id) || actor.id in a.allowedUsers
  }

  /** `check_user_group_access`: the user shares a system group with the
      record or is a member of an active attached custom group. */
  predicate CheckUserGroupAccess(a: Access, user: User)
    reads a, a.customGroups
  {
    user.groups * a.allowedGroups != {} || a.InActiveCustomGroup(user.id)
  }

  /** `active_custom_groups_count` */
  function ActiveCustomGroupsCount(a: Access): (n: nat)
    reads a, a.customGroups
    ensures n <= |a.customGroups|
    ensures n > 0 <==> exists g :: g in a.customGroups && g.active
  {
    var active := set g | g in a.customGroups && g.active;
    SubsetCardinality(active, a.customGroups);
    ActiveGroupWitness(a);
    |active|
  }

  /** The active attached groups form a non-empty set exactly when one of
      the attached groups is active. */
  lemma ActiveGroupWitness(a: Access)
    ensures (set g | g in a.customGroups && g.active) != {} <==> exists g :: g in a.customGroups && g.active
  {
    var active := set h | h in a.customGroups && h.active;
    if active != {} {
      var g :| g in active;
      assert g in a.customGroups && g.active;
    }
    if exists g :: g in a.customGroups && g.active {
      var g :| g in a.customGroups && g.active;
      assert g in active;
    }
  }

  /** Whoever may grant access may manage groups; a co-owner may manage
      groups without being able to grant access. */
  lemma GrantImpliesManage(a: Access, actor: User)
    ensures a.CanGrantAccess(actor) ==> CanManageGroups(a, actor)
    ensures (a.ownership != null && actor.id in a.ownership.coOwners && a.ownership.owner != Some(actor.id) &&
             !actor.isAdmin && actor.id !in a.allowedUsers) ==>
            CanManageGroups(a, actor) && !a.CanGrantAccess(actor)
  {
  }

  /** The two definitions of the group users agree: `get_all_group_users()`
      with its default is the computed `allowed_group_users_ids`, and the
      inactive groups can only add to it. */
  lemma {:induction false} GroupUsersAgree(a: Access, env: Env)
    ensures GetAllGroupUsers(a, env, false) == AllowedGroupUsers(a, env)
    ensures GetAllGroupUsers(a, env, false) <= GetAllGroupUsers(a, env, true)
  {
    assert (set g, u | g in a.customGroups && (false || g.active) && u in g.users :: u) == a.CustomGroupUsers();
  }

  /** For a user as the identity provider knows them, access through groups
      is exactly membership of the group users. */
  lemma GroupAccessIsGroupUser(a: Access, env: Env, user: User)
    requires user.id in env.users && env.users[user.id] == user
    ensures CheckUserGroupAccess(a, user) <==> user.id in AllowedGroupUsers(a, env)
  {
    SharedGroupIsGroupUser(a, env, user);
    CustomMembership(a, user.id);
  }

  /** `add_custom_access_group`: inactive groups are refused; adding a group
      already attached changes nothing and logs nothing. */
  method AddCustomAccessGroup(a: Access, actor: User, now: int, g: AccessGroup, reason: string) returns (r: Outcome)
    modifies a`customGroups, a`log
    ensures r == (if !old(CanManageGroups(a, actor)) then Fail(AccessError)
                  else if !g.active then Fail(ValidationError(InactiveGroup))
                  else Ok)
    ensures r.Ok? ==> a.customGroups == old(a.customGroups) + {g}
    ensures r.Ok? ==> g.users <= a.CustomGroupUsers()
    ensures r.Ok? ==> a.log == old(a.log) + (if g in old(a.customGroups) then []
                                             else [AccessLog("add_custom_group", NoTarget, reason, actor.id, now)])
    ensures r.Fail? ==> unchanged(a)
  {
    if !CanManageGroups(a, actor) {
      return Fail(AccessError);
    }
    if !g.active {
      return Fail(ValidationError(InactiveGroup));
    }
    if g !in a.customGroups {
      a.customGroups := a.customGroups + {g};
      a.log := a.log + [AccessLog("add_custom_group", NoTarget, reason, actor.id, now)];
    }
    forall u | u in g.users
      ensures u in a.CustomGroupUsers()
    {
      CustomMembership(a, u);
    }
    return Ok;
  }

  /** `remove_custom_access_group`: removing a group that is not attached
      changes nothing and logs nothing. */
  method RemoveCustomAccessGroup(a: Access, actor: User, now: int, g: AccessGroup, reason: string) returns (r: Outcome)
    modifies a`customGroups, a`log
    ensures r == (if old(CanManageGroups(a, actor)) then Ok else Fail(AccessError))
    ensures r.Ok? ==> a.customGroups == old(a.customGroups) - {g}
    ensures r.Ok? ==> a.log == old(a.log) + (if g in old(a.customGroups)
                                             then [AccessLog("remove_custom_group", NoTarget, reason, actor.id, now)]
                                             else [])
    ensures r.Fail? ==> unchanged(a)
  {
    if !CanManageGroups(a, actor) {
      return Fail(AccessError);
    }
    if g in a.customGroups {
      a.customGroups := a.customGroups - {g};
      a.log := a.log + [AccessLog("remove_custom_group", NoTarget, reason, actor.id, now)];
    }
    return Ok;
  }

  /** `replace_custom_access_groups`: all or nothing. One inactive group in
      the list refuses the whole replacement; otherwise the attached groups
      become exactly the listed ones. */
  method ReplaceCustomAccessGroups(a: Access, actor: User, now: int, gs: seq<AccessGroup>, reason: string)
    returns (r: Outcome)
    modifies a`customGroups, a`log
    ensures r == (if !old(CanManageGroups(a, actor)) then Fail(AccessError)
                  else if exists i :: 0 <= i < |gs| && !gs[i].active then Fail(ValidationError(InactiveGroup))
                  else Ok)
    ensures r.Ok? ==> a.customGroups == Elems(gs)
    ensures r.Ok? ==> forall g :: g in a.customGroups ==> g.active
    ensures r.Ok? ==> a.log == old(a.log) + [AccessLog("replace_custom_groups", NoTarget, reason, actor.id, now)]
    ensures r.Fail? ==> unchanged(a)
  {
    if !CanManageGroups(a, actor) {
      return Fail(AccessError);
    }
    var i := 0;
    while i < |gs|
      invariant 0 <= i <= |gs|
      invariant forall j :: 0 <= j < i ==> gs[j].active
    {
      if !gs[i].active {
        return Fail(ValidationError(InactiveGroup));
      }
      i := i + 1;
    }
    a.customGroups := Elems(gs);
    a.log := a.log + [AccessLog("replace_custom_groups", NoTarget, reason, actor.id, now)];
    return Ok;
  }

  /** `clear_all_custom_groups`: afterwards no custom group is attached; a
      row is logged only when there was one. */
  method ClearAllCustomGroups(a: Access, actor: User, now: int, reason: string) returns (r: Outcome)
    modifies a`customGroups, a`log
    ensures r == (if old(CanManageGroups(a, actor)) then Ok else Fail(AccessError))
    ensures r.Ok? ==> a.customGroups == {} && a.CustomGroupUsers() == {}
    ensures r.Ok? ==> a.log == old(a.log) + (if old(a.customGroups) == {} then []
                                             else [AccessLog("clear_custom_groups", NoTarget, reason, actor.id, now)])
    ensures r.Fail? ==> unchanged(a)
  {
    if !CanManageGroups(a, actor) {
      return Fail(AccessError);
    }
    if a.customGroups != {} {
      a.customGroups := {};
      a.log := a.log + [AccessLog("clear_custom_groups", NoTarget, reason, actor.id, now)];
    }
    return Ok;
  }
}
