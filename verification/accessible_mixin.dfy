/** The access facet (tk.accessible.mixin): a four-level visibility policy,
    explicit grants to users, system groups and custom groups, and a
    record-wide access window. `CheckUserAccess` is the access evaluation;
    the grant and revoke commands need `CanGrantAccess`. */
module Accessible {
  import opened Identity
  import opened Ownable
  import opened AccessGroups

  datatype AccessLevel = Public | Internal | Restricted | Private

  /** The selection key of each level. */
  function LevelKey(l: AccessLevel): string
  {
    match l
    case Public => "public"
    case Internal => "internal"
    case Restricted => "restricted"
    case Private => "private"
  }

  /** `level in dict(selection)`: only the four keys name a level, and each
      names the level whose key it is. */
  function ParseLevel(s: string): (r: Option<AccessLevel>)
    ensures r.Some? <==> s in {"public", "internal", "restricted", "private"}
    ensures r.Some? ==> LevelKey(r.value) == s
  {
    if s == "public" then Some(Public)
    else if s == "internal" then Some(Internal)
    else if s == "restricted" then Some(Restricted)
    else if s == "private" then Some(Private)
    else None
  }

  /** Whom an access-log row is about. */
  datatype AccessTarget =
    | NoTarget
    | TargetUser(user: UserId)
    | TargetGroup(group: GroupId)
    | TargetCustomGroup(customGroup: AccessGroup)
    | TargetUsers(users: set<UserId>)

  /** One row of the access log. */
  datatype AccessLog = AccessLog(action: string, target: AccessTarget, reason: string, actor: UserId, date: int)

  /** The fields `tk.access.log` declares (models/access_log.py:10-66). */
  const AccessLogFields: set<string> :=
    {"model_name", "res_id", "action", "target_user_id", "target_group_id", "reason",
     "extra_info", "user_id", "date", "display_name", "record_reference"}

  /** The keys of the log's `action` selection. */
  const AccessLogActions: set<string> :=
    {"grant_user", "revoke_user", "grant_group", "revoke_group", "change_level"}

  /** The fields `_log_access_change` writes into every row it creates. */
  const AccessLogFieldsWritten: set<string> :=
    {"model_name", "res_id", "action", "target_user_id", "target_group_id", "target_custom_group_id",
     "reason", "extra_info", "user_id", "date"}

  /** The ORM's `create` accepts a row only when every field written is
      declared and the action is one of the selection's keys; otherwise it
      raises ValueError. */
  predicate AccessLogAccepted(written: set<string>, action: string)
  {
    written <= AccessLogFields && action in AccessLogActions
  }

  /** As written, no access-log row is ever accepted, whatever its action:
      `target_custom_group_id` is not a field of the log. Without that field
      exactly the five listed actions would be accepted. */
  lemma AccessLogAlwaysRejected(action: string)
    ensures !AccessLogAccepted(AccessLogFieldsWritten, action)
    ensures AccessLogAccepted(AccessLogFieldsWritten - {"target_custom_group_id"}, action) <==> action in AccessLogActions
  {
    assert "target_custom_group_id" in AccessLogFieldsWritten - AccessLogFields;
  }

  class Access {
    /** The ownership facet of the same record, if it has one. */
    const ownership: Ownership?
    /** The description of the model the facet is attached to. */
    const modelDescription: string

    var level: AccessLevel
    var allowedUsers: set<UserId>
    var allowedGroups: set<GroupId>
    var customGroups: set<AccessGroup>
    var startDate: Option<int>
    var endDate: Option<int>
    var log: seq<AccessLog>

    constructor (ownership: Ownership?, modelDescription: string)
      ensures this.ownership == ownership && this.modelDescription == modelDescription
      ensures level == Internal && allowedUsers == {} && allowedGroups == {} && customGroups == {}
      ensures startDate == None && endDate == None && log == []
    {
      this.ownership := ownership;
      this.modelDescription := modelDescription;
      level := Internal;
      allowedUsers, allowedGroups, customGroups := {}, {}, {};
      startDate, endDate := None, None;
      log := [];
    }

    /** `is_access_expired`: an end date strictly before now. */
    predicate IsAccessExpired(now: int)
      reads this
    {
      endDate.Some? && endDate.value < now
    }

    /** A start date strictly after now. */
    predicate NotYetStarted(now: int)
      reads this
    {
      startDate.Some? && startDate.value > now
    }

    predicate InWindow(now: int)
      reads this
    {
      !IsAccessExpired(now) && !NotYetStarted(now)
    }

    /** The user owns or co-owns the record (false without an ownership facet). */
    predicate OwnsOrCoOwns(u: UserId)
      reads this, ownership
    {
      ownership != null && ownership.IsOwnerOrCoOwner(u)
    }

    /** The user belongs to an active custom group granted on the record. */
    predicate InActiveCustomGroup(u: UserId)
      reads this, customGroups
    {
      exists g :: g in customGroups && g.active && u in g.users
    }

    /** `custom_group_users_ids`: the members of the active custom groups. */
    function CustomGroupUsers(): set<UserId>
      reads this, customGroups
    {
      set g, u | g in customGroups && g.active && u in g.users :: u
    }

    /** `allowed_group_users_ids` as this mixin computes it: the users of the
        allowed system groups. */
    function SystemGroupUsers(env: Env): set<UserId>
      reads this
    {
      set g, u | g in allowedGroups && u in GroupUsers(env, g) :: u
    }

    /** `all_allowed_users_ids`: explicit users and both kinds of group users. */
    function AllAllowedUsers(env: Env): set<UserId>
      reads this, customGroups
    {
      allowedUsers + SystemGroupUsers(env) + CustomGroupUsers()
    }

    /** `can_grant_access`: an administrator, the owner, or a user already
        granted explicitly. Co-owners are not included. */
    predicate CanGrantAccess(actor: User)
      reads this, ownership
    {
      actor.isAdmin || (ownership != null && ownership.owner == Some(actor.id)) || actor.id in allowedUsers
    }

    /** `_check_user_access`. The record-wide window is checked first, so
        outside it nobody has access, administrators and owners included.
        Inside it, administrators, the owner and co-owners always have access;
        everyone else is judged by the level. */
    predicate CheckUserAccess(user: User, now: int): (granted: bool)
      reads this, ownership, customGroups
      ensures IsAccessExpired(now) ==> !granted
      ensures NotYetStarted(now) ==> !granted
      ensures InWindow(now) && (user.isAdmin || OwnsOrCoOwns(user.id)) ==> granted
      ensures granted && !user.isAdmin && !OwnsOrCoOwns(user.id) && level != Public ==>
        user.isInternal || user.id in allowedUsers || user.groups * allowedGroups != {} || InActiveCustomGroup(user.id)
    {
      if IsAccessExpired(now) then false
      else if startDate.Some? && startDate.value > now then false
      else if user.isAdmin then true
      else if ownership != null && ownership.owner == Some(user.id) then true
      else if ownership != null && user.id in ownership.coOwners then true
      else match level
        case Public => true
        case Internal => user.isInternal
        case Restricted => user.id in allowedUsers || user.groups * allowedGroups != {} || InActiveCustomGroup(user.id)
        case Private => user.id in allowedUsers || InActiveCustomGroup(user.id)
    }

    /** `check_user_has_access`: unknown users have no access. */
    predicate CheckUserHasAccess(env: Env, u: UserId): (granted: bool)
      reads this, ownership, customGroups
      ensures u !in env.users ==> !granted
      ensures u in env.users && InWindow(env.now) && env.users[u].isAdmin ==> granted
      ensures !InWindow(env.now) ==> !granted
    {
      u in env.users && CheckUserAccess(env.users[u], env.now)
    }

    /** `_compute_custom_group_users_ids`, one group at a time. */
    method ComputeCustomGroupUsers() returns (users: set<UserId>)
      ensures users == CustomGroupUsers()
    {
      users := {};
      var rest := customGroups;
      while rest != {}
        invariant rest <= customGroups
        invariant users == set g, u | g in customGroups - rest && g.active && u in g.users :: u
        decreases rest
      {
        var g :| g in rest;
        if g.active {
          users := users + g.users;
        }
        rest := rest - {g};
      }
    }

    /** `_compute_allowed_group_users_ids` of this mixin, one group at a time. */
    method ComputeSystemGroupUsers(env: Env) returns (users: set<UserId>)
      ensures users == SystemGroupUsers(env)
    {
      users := {};
      var rest := allowedGroups;
      while rest != {}
        invariant rest <= allowedGroups
        invariant users == set g, u | g in allowedGroups - rest && u in GroupUsers(env, g) :: u
        decreases rest
      {
        var g :| g in rest;
        users := users + GroupUsers(env, g);
        rest := rest - {g};
      }
    }

    /** `grant_access_to_user`: the user joins the explicit users (nothing
        happens to the set if already there); given dates overwrite the window. */
    method GrantAccessToUser(actor: User, env: Env, u: UserId, start: Option<int>, end: Option<int>, reason: string)
      returns (r: Outcome)
      modifies this`allowedUsers, this`startDate, this`endDate, this`log
      ensures r == (if !old(CanGrantAccess(actor)) then Fail(AccessError)
                    else if u !in env.users then Fail(ValidationError(InvalidUser))
                    else Ok)
      ensures r.Ok? ==> allowedUsers == old(allowedUsers) + {u}
      ensures r.Ok? ==> startDate == Override(start, old(startDate)) && endDate == Override(end, old(endDate))
      ensures r.Ok? ==> log == old(log) + [AccessLog("grant_user", TargetUser(u), reason, actor.id, env.now)]
      ensures r.Ok? && Consistent(env) && level in {Restricted, Private} && InWindow(env.now) ==>
        CheckUserAccess(env.users[u], env.now)
      ensures r.Fail? ==> unchanged(this)
    {
      if !CanGrantAccess(actor) {
        return Fail(AccessError);
      }
      if u !in env.users {
        return Fail(ValidationError(InvalidUser));
      }
      if u !in allowedUsers {
        allowedUsers := allowedUsers + {u};
      }
      startDate, endDate := Override(start, startDate), Override(end, endDate);
      log := log + [AccessLog("grant_user", TargetUser(u), reason, actor.id, env.now)];
      return Ok;
    }

    /** `grant_access_to_user` as written: the grant goes through, then the
        log row is refused by the ORM (see `AccessLogAlwaysRejected`) and the
        whole command is rolled back. The same happens to every command of
        this facet that logs. */
    method GrantAccessToUserAsWritten(actor: User, env: Env, u: UserId, start: Option<int>, end: Option<int>, reason: string)
      returns (r: Outcome)
      modifies this`allowedUsers, this`startDate, this`endDate, this`log
      ensures r == (if !old(CanGrantAccess(actor)) then Fail(AccessError)
                    else if u !in env.users then Fail(ValidationError(InvalidUser))
                    else Fail(ValueError))
      ensures unchanged(this)
    {
      var users0, start0, end0, log0 := allowedUsers, startDate, endDate, log;
      r := GrantAccessToUser(actor, env, u, start, end, reason);
      if r.Ok? {
        AccessLogAlwaysRejected("grant_user");
        if !AccessLogAccepted(AccessLogFieldsWritten, "grant_user") {
          allowedUsers, startDate, endDate, log := users0, start0, end0, log0;
          r := Fail(ValueError);
        }
      }
    }

    /** `revoke_access_from_user`: the user leaves the explicit users. On a
        private record that user then has no access unless an override or an
        active custom group still grants it. */
    method RevokeAccessFromUser(actor: User, env: Env, u: UserId, reason: string) returns (r: Outcome)
      modifies this`allowedUsers, this`log
      ensures r == (if !old(CanGrantAccess(actor)) then Fail(AccessError)
                    else if u !in env.users then Fail(ValidationError(InvalidUser))
                    else Ok)
      ensures r.Ok? ==> allowedUsers == old(allowedUsers) - {u}
      ensures r.Ok? ==> log == old(log) + [AccessLog("revoke_user", TargetUser(u), reason, actor.id, env.now)]
      ensures r.Ok? && Consistent(env) && level == Private && !env.users[u].isAdmin && !OwnsOrCoOwns(u) && !InActiveCustomGroup(u) ==>
        !CheckUserAccess(env.users[u], env.now)
      ensures r.Fail? ==> unchanged(this)
    {
      if !CanGrantAccess(actor) {
        return Fail(AccessError);
      }
      if u !in env.users {
        return Fail(ValidationError(InvalidUser));
      }
      if u in allowedUsers {
        allowedUsers := allowedUsers - {u};
      }
      log := log + [AccessLog("revoke_user", TargetUser(u), reason, actor.id, env.now)];
      return Ok;
    }

    /** `grant_access_to_group` */
    method GrantAccessToGroup(actor: User, env: Env, g: GroupId, start: Option<int>, end: Option<int>, reason: string)
      returns (r: Outcome)
      modifies this`allowedGroups, this`startDate, this`endDate, this`log
      ensures r == (if !old(CanGrantAccess(actor)) then Fail(AccessError)
                    else if g !in env.groups then Fail(ValidationError(InvalidGroup))
                    else Ok)
      ensures r.Ok? ==> allowedGroups == old(allowedGroups) + {g}
      ensures r.Ok? ==> startDate == Override(start, old(startDate)) && endDate == Override(end, old(endDate))
      ensures r.Ok? ==> log == old(log) + [AccessLog("grant_group", TargetGroup(g), reason, actor.id, env.now)]
      ensures r.Fail? ==> unchanged(this)
    {
      if !CanGrantAccess(actor) {
        return Fail(AccessError);
      }
      if g !in env.groups {
        return Fail(ValidationError(InvalidGroup));
      }
      if g !in allowedGroups {
        allowedGroups := allowedGroups + {g};
      }
      startDate, endDate := Override(start, startDate), Override(end, endDate);
      log := log + [AccessLog("grant_group", TargetGroup(g), reason, actor.id, env.now)];
      return Ok;
    }

    /** `revoke_access_from_group` */
    method RevokeAccessFromGroup(actor: User, env: Env, g: GroupId, reason: string) returns (r: Outcome)
      modifies this`allowedGroups, this`log
      ensures r == (if !old(CanGrantAccess(actor)) then Fail(AccessError)
                    else if g !in env.groups then Fail(ValidationError(InvalidGroup))
                    else Ok)
      ensures r.Ok? ==> allowedGroups == old(allowedGroups) - {g}
      ensures r.Ok? ==> log == old(log) + [AccessLog("revoke_group", TargetGroup(g), reason, actor.id, env.now)]
      ensures r.Fail? ==> unchanged(this)
    {
      if !CanGrantAccess(actor) {
        return Fail(AccessError);
      }
      if g !in env.groups {
        return Fail(ValidationError(InvalidGroup));
      }
      if g in allowedGroups {
        allowedGroups := allowedGroups - {g};
      }
      log := log + [AccessLog("revoke_group", TargetGroup(g), reason, actor.id, env.now)];
      return Ok;
    }

    /** `grant_access_to_custom_group`: inactive groups are refused. Once
        granted, members of the group see a restricted or private record
        inside the window. */
    method GrantAccessToCustomGroup(actor: User, now: int, g: AccessGroup, start: Option<int>, end: Option<int>, reason: string)
      returns (r: Outcome)
      modifies this`customGroups, this`startDate, this`endDate, this`log
      ensures r == (if !old(CanGrantAccess(actor)) then Fail(AccessError)
                    else if !g.active then Fail(ValidationError(InactiveGroup))
                    else Ok)
      ensures r.Ok? ==> customGroups == old(customGroups) + {g}
      ensures r.Ok? ==> startDate == Override(start, old(startDate)) && endDate == Override(end, old(endDate))
      ensures r.Ok? ==> log == old(log) + [AccessLog("grant_custom_group", TargetCustomGroup(g), reason, actor.id, now)]
      ensures r.Ok? ==> forall user: User :: user.id in g.users && level in {Restricted, Private} && InWindow(now) ==>
        CheckUserAccess(user, now)
      ensures r.Fail? ==> unchanged(this)
    {
      if !CanGrantAccess(actor) {
        return Fail(AccessError);
      }
      if !g.active {
        return Fail(ValidationError(InactiveGroup));
      }
      if g !in customGroups {
        customGroups := customGroups + {g};
      }
      startDate, endDate := Override(start, startDate), Override(end, endDate);
      log := log + [AccessLog("grant_custom_group", TargetCustomGroup(g), reason, actor.id, now)];
      return Ok;
    }

    /** `revoke_access_from_custom_group` */
    method RevokeAccessFromCustomGroup(actor: User, now: int, g: AccessGroup, reason: string) returns (r: Outcome)
      modifies this`customGroups, this`log
      ensures r == (if old(CanGrantAccess(actor)) then Ok else Fail(AccessError))
      ensures r.Ok? ==> customGroups == old(customGroups) - {g}
      ensures r.Ok? ==> log == old(log) + [AccessLog("revoke_custom_group", TargetCustomGroup(g), reason, actor.id, now)]
      ensures r.Fail? ==> unchanged(this)
    {
      if !CanGrantAccess(actor) {
        return Fail(AccessError);
      }
      if g in customGroups {
        customGroups := customGroups - {g};
      }
      log := log + [AccessLog("revoke_custom_group", TargetCustomGroup(g), reason, actor.id, now)];
      return Ok;
    }

    /** `create_and_assign_custom_group`: a new active group with the given
        members, attached to the record. Without members the group's
        constraint refuses the creation. */
    method CreateAndAssignCustomGroup(actor: User, now: int, name: string, ids: seq<UserId>, groupType: GroupType, reason: string)
      returns (r: Result<AccessGroup>)
      modifies this`customGroups, this`log
      ensures !old(CanGrantAccess(actor)) ==> r == Failure(AccessError)
      ensures old(CanGrantAccess(actor)) && ids == [] ==> r == Failure(ValidationError(EmptyActiveGroup))
      ensures old(CanGrantAccess(actor)) && ids != [] ==> r.Success?
      ensures r.Success? ==> fresh(r.value) && r.value.active && r.value.Valid() && r.value.users == Elems(ids)
      ensures r.Success? ==> r.value.name == name && r.value.groupType == groupType
      ensures r.Success? ==> r.value.description == "Access group created for " + modelDescription + " record"
      ensures r.Success? ==> customGroups == old(customGroups) + {r.value}
      ensures r.Success? ==> log == old(log) + [AccessLog("create_assign_custom_group", TargetCustomGroup(r.value), reason, actor.id, now)]
      ensures r.Failure? ==> unchanged(this)
    {
      if !CanGrantAccess(actor) {
        return Failure(AccessError);
      }
      r := Create(name, "Access group created for " + modelDescription + " record", groupType, ids);
      if r.Success? {
        customGroups := customGroups + {r.value};
        log := log + [AccessLog("create_assign_custom_group", TargetCustomGroup(r.value), reason, actor.id, now)];
      }
    }

    /** `set_access_level`: the level is given by its key; any other text is refused. */
    method SetAccessLevel(actor: User, now: int, key: string, reason: string) returns (r: Outcome)
      modifies this`level, this`log
      ensures r == (if !old(CanGrantAccess(actor)) then Fail(AccessError)
                    else if ParseLevel(key).None? then Fail(ValidationError(InvalidLevel))
                    else Ok)
      ensures r.Ok? ==> LevelKey(level) == key
      ensures r.Ok? ==> log == old(log) + [AccessLog("change_level", NoTarget, reason, actor.id, now)]
      ensures r.Fail? ==> unchanged(this)
    {
      if !CanGrantAccess(actor) {
        return Fail(AccessError);
      }
      var parsed := ParseLevel(key);
      if parsed.None? {
        return Fail(ValidationError(InvalidLevel));
      }
      level := parsed.value;
      log := log + [AccessLog("change_level", NoTarget, reason, actor.id, now)];
      return Ok;
    }

    /** `set_access_duration`: given dates overwrite the window; absent ones
        leave it. */
    method SetAccessDuration(actor: User, now: int, start: Option<int>, end: Option<int>, reason: string) returns (r: Outcome)
      modifies this`startDate, this`endDate, this`log
      ensures r == (if old(CanGrantAccess(actor)) then Ok else Fail(AccessError))
      ensures r.Ok? ==> startDate == Override(start, old(startDate)) && endDate == Override(end, old(endDate))
      ensures r.Ok? ==> log == old(log) + [AccessLog("change_duration", NoTarget, reason, actor.id, now)]
      ensures r.Fail? ==> unchanged(this)
    {
      if !CanGrantAccess(actor) {
        return Fail(AccessError);
      }
      startDate, endDate := Override(start, startDate), Override(end, endDate);
      log := log + [AccessLog("change_duration", NoTarget, reason, actor.id, now)];
      return Ok;
    }

    /** `bulk_grant_access_to_users`: all listed users become explicit users;
        a row is logged only when one of them was new. */
    method BulkGrantAccessToUsers(actor: User, env: Env, ids: seq<UserId>, start: Option<int>, end: Option<int>, reason: string)
      returns (r: Outcome)
      modifies this`allowedUsers, this`startDate, this`endDate, this`log
      ensures r == (if !old(CanGrantAccess(actor)) then Fail(AccessError)
                    else if ids == [] then Fail(ValidationError(EmptyList))
                    else if !AllKnown(env, ids) then Fail(ValidationError(InvalidUser))
                    else Ok)
      ensures r.Ok? ==> allowedUsers == old(allowedUsers) + Elems(ids)
      ensures r.Ok? ==> startDate == Override(start, old(startDate)) && endDate == Override(end, old(endDate))
      ensures r.Ok? ==> log == old(log) + (if Elems(ids) <= old(allowedUsers) then []
                                           else [AccessLog("bulk_grant_users", NoTarget, reason, actor.id, env.now)])
      ensures r.Fail? ==> unchanged(this)
    {
      if !CanGrantAccess(actor) {
        return Fail(AccessError);
      }
      if ids == [] {
        return Fail(ValidationError(EmptyList));
      }
      if !AllKnown(env, ids) {
        return Fail(ValidationError(InvalidUser));
      }
      var present, newcomers := SplitByMembership(ids, allowedUsers);
      assert allowedUsers + Elems(newcomers) == allowedUsers + Elems(ids);
      if newcomers != [] {
        assert newcomers[0] in Elems(newcomers);
        allowedUsers := allowedUsers + Elems(newcomers);
        log := log + [AccessLog("bulk_grant_users", NoTarget, reason, actor.id, env.now)];
      } else {
        assert Elems(newcomers) == {};
      }
      startDate, endDate := Override(start, startDate), Override(end, endDate);
      return Ok;
    }

    /** `bulk_revoke_access_from_users`: the listed users that are explicit
        users lose that grant; a row is logged only when there was one.
        Unknown ids are not checked here. */
    method BulkRevokeAccessFromUsers(actor: User, now: int, ids: seq<UserId>, reason: string) returns (r: Outcome)
      modifies this`allowedUsers, this`log
      ensures r == (if !old(CanGrantAccess(actor)) then Fail(AccessError)
                    else if ids == [] then Fail(ValidationError(EmptyList))
                    else Ok)
      ensures r.Ok? ==> allowedUsers == old(allowedUsers) - Elems(ids)
      ensures r.Ok? ==> log == old(log) + (if Elems(ids) * old(allowedUsers) == {} then []
                                           else [AccessLog("bulk_revoke_users", NoTarget, reason, actor.id, now)])
      ensures r.Fail? ==> unchanged(this)
    {
      if !CanGrantAccess(actor) {
        return Fail(AccessError);
      }
      if ids == [] {
        return Fail(ValidationError(EmptyList));
      }
      var existing, absent := SplitByMembership(ids, allowedUsers);
      assert allowedUsers - Elems(existing) == allowedUsers - Elems(ids);
      if existing != [] {
        assert existing[0] in Elems(existing);
        allowedUsers := allowedUsers - Elems(existing);
        log := log + [AccessLog("bulk_revoke_users", NoTarget, reason, actor.id, now)];
      } else {
        assert Elems(existing) == {};
      }
      return Ok;
    }
  }

  /** Membership of an active custom group is membership of the custom-group users. */
  lemma CustomMembership(a: Access, u: UserId)
    ensures a.InActiveCustomGroup(u) <==> u in a.CustomGroupUsers()
  {
    if a.InActiveCustomGroup(u) {
      var g :| g in a.customGroups && g.active && u in g.users;
      assert u in (set g, v | g in a.customGroups && g.active && v in g.users :: v);
    }
  }

  /** A user, as the identity provider knows them, shares a system group with
      the record exactly when they are among the allowed group users. */
  lemma SharedGroupIsGroupUser(a: Access, env: Env, user: User)
    requires user.id in env.users && env.users[user.id] == user
    ensures user.groups * a.allowedGroups != {} <==> user.id in a.SystemGroupUsers(env)
  {
    if user.groups * a.allowedGroups != {} {
      var g :| g in user.groups * a.allowedGroups;
      assert user.id in GroupUsers(env, g);
    }
    if user.id in a.SystemGroupUsers(env) {
      var g :| g in a.allowedGroups && user.id in GroupUsers(env, g);
      assert g in user.groups * a.allowedGroups;
    }
  }

  /** On a restricted record, a user who is neither administrator, owner nor
      co-owner has access inside the window exactly when they are among all
      allowed users: explicit, system-group or active custom-group users.
      Inactive custom groups never grant. */
  lemma RestrictedMeansAllowed(a: Access, env: Env, user: User)
    requires user.id in env.users && env.users[user.id] == user
    requires a.level == Restricted && a.InWindow(env.now)
    requires !user.isAdmin && !a.OwnsOrCoOwns(user.id)
    ensures a.CheckUserAccess(user, env.now) <==> user.id in a.AllAllowedUsers(env)
  {
    SharedGroupIsGroupUser(a, env, user);
    CustomMembership(a, user.id);
  }

  /** On a private record the system groups do not count: such a user has
      access inside the window exactly when they are an explicit user or a
      member of an active custom group. */
  lemma PrivateIgnoresSystemGroups(a: Access, env: Env, user: User)
    requires a.level == Private && a.InWindow(env.now)
    requires !user.isAdmin && !a.OwnsOrCoOwns(user.id)
    ensures a.CheckUserAccess(user, env.now) <==> user.id in a.allowedUsers + a.CustomGroupUsers()
  {
    CustomMembership(a, user.id);
  }

  /** Inside the window, a public record is open to everyone and an
      internal one to exactly the internal users (besides the overrides). */
  lemma OpenLevels(a: Access, user: User, now: int)
    requires a.InWindow(now) && !user.isAdmin && !a.OwnsOrCoOwns(user.id)
    ensures a.level == Public ==> a.CheckUserAccess(user, now)
    ensures a.level == Internal ==> (a.CheckUserAccess(user, now) <==> user.isInternal)
  {
  }

  /** The restricted-access scenario: an owner sets the level to restricted;
      a user without any grant is denied; after the owner grants that user
      explicitly, the user has access. */
  method RestrictedGrantScenario(a: Access, owner: User, env: Env, stranger: UserId) returns (before: bool, after: bool)
    requires a.ownership != null && a.ownership.owner == Some(owner.id)
    requires Consistent(env) && stranger in env.users && a.InWindow(env.now)
    requires var s := env.users[stranger]; !s.isAdmin && !a.OwnsOrCoOwns(stranger)
    requires stranger !in a.allowedUsers && env.users[stranger].groups * a.allowedGroups == {}
    requires !a.InActiveCustomGroup(stranger)
    modifies a
    ensures !before && after
  {
    var r1 := a.SetAccessLevel(owner, env.now, "restricted", "");
    assert r1 == Ok && a.level == Restricted;
    before := a.CheckUserAccess(env.users[stranger], env.now);
    var r2 := a.GrantAccessToUser(owner, env, stranger, None, None, "");
    assert r2 == Ok;
    after := a.CheckUserAccess(env.users[stranger], env.now);
  }
}
