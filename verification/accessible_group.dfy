/** Custom access groups (tk.accessible.group): ad-hoc sets of users that a
    record can be opened to, with a lifecycle of their own. */
module AccessGroups {
  import opened Identity

  datatype GroupType = Project | Department | Temporary | Custom

  class AccessGroup {
    var name: string
    var description: string
    var groupType: GroupType
    var users: set<UserId>
    var active: bool

    /** The `_check_user_ids` constraint: an active group has at least one user. */
    predicate Valid()
      reads this
    {
      active ==> users != {}
    }

    /** Creating a group stores it active (the field's default). The
        constraint is checked on creation, so the members must not be empty:
        callers that may pass no users go through `Create`. */
    constructor (name: string, description: string, groupType: GroupType, users: set<UserId>)
      requires users != {}
      ensures Valid() && active
      ensures this.name == name && this.description == description
      ensures this.groupType == groupType && this.users == users
    {
      this.name := name;
      this.description := description;
      this.groupType := groupType;
      this.users := users;
      this.active := true;
    }

    /** `user_count`: an active group that satisfies its constraint never
        counts zero users. */
    function UserCount(): (n: nat)
      reads this
      ensures Valid() && active ==> n > 0
      ensures n == 0 <==> users == {}
    {
      |users|
    }

    /** `add_users`: an empty list is refused with `false`; otherwise the
        members become the old members together with the given ones. Only the
        users not yet present are written, and adding can never break the
        constraint. */
    method AddUsers(ids: seq<UserId>) returns (done: bool)
      modifies this`users
      ensures old(Valid()) ==> Valid()
      ensures ids != [] ==> Valid()
      ensures done <==> ids != []
      ensures users == old(users) + Elems(ids)
    {
      if ids == [] {
        return false;
      }
      var existing, newcomers := SplitByMembership(ids, users);
      if newcomers != [] {
        users := users + Elems(newcomers);
      }
      assert users == old(users) + Elems(ids);
      assert ids[0] in users;
      return true;
    }

    /** `remove_users`: an empty list is refused with `false`. Otherwise the
        users present are removed, unless that would leave an active group
        without users, which the constraint rejects (and the write is rolled
        back). When none of the listed users is a member nothing is written,
        so the constraint is not checked. Members not named stay. */
    method RemoveUsers(ids: seq<UserId>) returns (r: Result<bool>)
      modifies this`users
      ensures old(Valid()) ==> Valid()
      ensures ids == [] ==> r == Success(false) && users == old(users)
      ensures ids != [] && EmptiesActive(old(users), ids) ==>
        r == Failure(ValidationError(EmptyActiveGroup)) && users == old(users)
      ensures ids != [] && !EmptiesActive(old(users), ids) ==>
        r == Success(true) && users == old(users) - Elems(ids)
    {
      if ids == [] {
        return Success(false);
      }
      var existing, absent := SplitByMembership(ids, users);
      assert users - Elems(existing) == users - Elems(ids);
      if existing != [] {
        assert existing[0] in Elems(existing);
        if active && users - Elems(existing) == {} {
          return Failure(ValidationError(EmptyActiveGroup));
        }
        users := users - Elems(existing);
      } else {
        assert Elems(existing) == {};
      }
      return Success(true);
    }

    /** Removing the listed users would write a removal that leaves this
        active group without users. */
    predicate EmptiesActive(members: set<UserId>, ids: seq<UserId>)
      reads this
    {
      active && members * Elems(ids) != {} && members - Elems(ids) == {}
    }

    /** `toggle_active` as written: the flag flips and nothing else is
        checked, because the constraint is declared on `user_ids` only. */
    method ToggleActiveAsWritten()
      modifies this`active
      ensures active == !old(active)
    {
      active := !active;
    }

    /** `toggle_active` with the constraint honoured: deactivating always
        succeeds; activating a group without users is refused. */
    method ToggleActive() returns (r: Outcome)
      requires Valid()
      modifies this`active
      ensures Valid()
      ensures r.Ok? <==> old(active) || users != {}
      ensures r.Ok? ==> active == !old(active)
      ensures r.Fail? ==> r.error == ValidationError(EmptyActiveGroup) && active == old(active)
    {
      if !active && users == {} {
        return Fail(ValidationError(EmptyActiveGroup));
      }
      active := !active;
      return Ok;
    }
  }

  /** Creating a group as `create` does: the members come from a list that
      may be empty, and an active group without members violates the
      constraint. */
  method Create(name: string, description: string, groupType: GroupType, ids: seq<UserId>)
    returns (r: Result<AccessGroup>)
    ensures r.Failure? <==> ids == []
    ensures r.Failure? ==> r.error == ValidationError(EmptyActiveGroup)
    ensures r.Success? ==> fresh(r.value) && r.value.Valid() && r.value.active
    ensures r.Success? ==> r.value.name == name && r.value.description == description
    ensures r.Success? ==> r.value.groupType == groupType && r.value.users == Elems(ids)
  {
    if ids == [] {
      return Failure(ValidationError(EmptyActiveGroup));
    }
    assert ids[0] in Elems(ids);
    var g := new AccessGroup(name, description, groupType, Elems(ids));
    return Success(g);
  }

  /** `create_project_team_group` */
  method CreateProjectTeamGroup(projectName: string, ids: seq<UserId>) returns (r: Result<AccessGroup>)
    ensures r.Failure? <==> ids == []
    ensures r.Success? ==> fresh(r.value) && r.value.Valid() && r.value.active
    ensures r.Success? ==> r.value.name == "Project Team - " + projectName
    ensures r.Success? ==> r.value.groupType == Project && r.value.users == Elems(ids)
  {
    r := Create("Project Team - " + projectName,
                "Access group for " + projectName + " project team members", Project, ids);
  }

  /** `create_department_group` */
  method CreateDepartmentGroup(departmentName: string, ids: seq<UserId>) returns (r: Result<AccessGroup>)
    ensures r.Failure? <==> ids == []
    ensures r.Success? ==> fresh(r.value) && r.value.Valid() && r.value.active
    ensures r.Success? ==> r.value.name == "Department - " + departmentName
    ensures r.Success? ==> r.value.groupType == Department && r.value.users == Elems(ids)
  {
    r := Create("Department - " + departmentName,
                "Access group for " + departmentName + " department", Department, ids);
  }

  /** Toggling twice restores the flag. */
  method ToggleTwiceRestores(g: AccessGroup)
    modifies g`active
    ensures g.active == old(g.active)
  {
    g.ToggleActiveAsWritten();
    g.ToggleActiveAsWritten();
  }

  /** The input that breaks the constraint with `toggle_active` as written:
      a group is deactivated, emptied (allowed while inactive) and toggled
      again; it ends up active with no users. */
  method ToggleActiveBreaksConstraint(u: UserId) returns (g: AccessGroup)
    ensures g.active && g.users == {} && !g.Valid()
  {
    g := new AccessGroup("g", "", Custom, {u});
    g.ToggleActiveAsWritten();
    var r := g.RemoveUsers([u]);
    g.ToggleActiveAsWritten();
  }

  /** The same sequence with the corrected toggle: the last step is refused
      and the group stays inactive and valid. */
  method ToggleActiveKeepsConstraint(u: UserId) returns (g: AccessGroup, last: Outcome)
    ensures last == Fail(ValidationError(EmptyActiveGroup))
    ensures !g.active && g.users == {} && g.Valid()
  {
    g := new AccessGroup("g", "", Custom, {u});
    var r1 := g.ToggleActive();
    var r2 := g.RemoveUsers([u]);
    last := g.ToggleActive();
  }
}
