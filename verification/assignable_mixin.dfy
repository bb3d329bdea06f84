/** The assignment facet (tk.assignable.mixin): a set of assignees with a
    status, a priority, an optional deadline and description, and its own
    log. Most commands need `can_assign`; start and complete need the actor
    to be an assignee. */
module Assignable {
  import opened Identity
  import opened Ownable
  import opened Accessible
  import opened Delegation

  datatype AssignmentStatus = Unassigned | Assigned | InProgress | Completed | Cancelled

  datatype Priority = Low | Normal | High | Urgent

  /** One row of the assignment log: the assignees before and after. */
  datatype AssignmentLog = AssignmentLog(action: string, oldUsers: set<UserId>, newUsers: set<UserId>,
                                         reason: string, actor: UserId, date: int)

  class Assignment {
    /** The ownership and access facets of the same record, if it has them. */
    const ownership: Ownership?
    const access: Access?

    var assignedUsers: set<UserId>
    var assigner: Option<UserId>
    var assignmentDate: Option<int>
    var deadline: Option<int>
    var status: AssignmentStatus
    var description: Option<string>
    var priority: Priority
    var log: seq<AssignmentLog>

    /** An unassigned record has no assignees, and the facets of one record
        share one ownership facet. */
    predicate Valid()
      reads this
    {
      (status == Unassigned ==> assignedUsers == {}) &&
      (access != null ==> access.ownership == ownership)
    }

    constructor (ownership: Ownership?, access: Access?)
      requires access != null ==> access.ownership == ownership
      ensures Valid()
      ensures this.ownership == ownership && this.access == access
      ensures assignedUsers == {} && status == Unassigned && priority == Normal
      ensures assigner == None && assignmentDate == None && deadline == None && description == None && log == []
    {
      this.ownership := ownership;
      this.access := access;
      assignedUsers := {};
      assigner, assignmentDate, deadline := None, None, None;
      status := Unassigned;
      description := None;
      priority := Normal;
      log := [];
    }

    /** `is_assigned` */
    predicate IsAssigned()
      reads this
    {
      assignedUsers != {}
    }

    /** `is_overdue`: a deadline strictly before now on work that is assigned
        or in progress. */
    predicate IsOverdue(now: int)
      reads this
    {
      deadline.Some? && deadline.value < now && status in {Assigned, InProgress}
    }

    /** `assigned_user_count` */
    function AssignedUserCount(): (n: nat)
      reads this
      ensures n == 0 <==> !IsAssigned()
    {
      |assignedUsers|
    }

    /** `is_assigned_to_me` */
    predicate IsAssignedToMe(actor: User)
      reads this
    {
      actor.id in assignedUsers
    }

    /** `can_assign`: the shared delegation test, where holding the record
        means being an assignee. */
    predicate CanAssign(actor: User)
      reads this, ownership, access, if access == null then {} else access.customGroups
    {
      Eligible(ownership, access, actor, actor.id in assignedUsers)
    }

    /** `assign_to_users`: administrators bypass `can_assign`; the list must
        be non-empty and name existing users. The assignees become exactly the
        listed users, the status assigned; deadline and description change
        only when given. */
    method AssignToUsers(actor: User, env: Env, ids: seq<UserId>, newDeadline: Option<int>,
                         newDescription: Option<string>, newPriority: Priority, reason: string)
      returns (r: Outcome)
      requires Valid()
      modifies this`assignedUsers, this`assigner, this`assignmentDate, this`deadline, this`status,
               this`description, this`priority, this`log
      ensures Valid()
      ensures r == (if !old(CanAssign(actor)) && !actor.isAdmin then Fail(AccessError)
                    else if ids == [] then Fail(ValidationError(EmptyList))
                    else if !AllKnown(env, ids) then Fail(ValidationError(InvalidUser))
                    else Ok)
      ensures r.Ok? ==> assignedUsers == Elems(ids) && IsAssigned()
      ensures r.Ok? ==> status == Assigned && priority == newPriority
      ensures r.Ok? ==> assigner == Some(actor.id) && assignmentDate == Some(env.now)
      ensures r.Ok? ==> deadline == Override(newDeadline, old(deadline))
      ensures r.Ok? ==> description == OverrideText(newDescription, old(description))
      ensures r.Ok? ==> log == old(log) + [AssignmentLog("assign_multiple", old(assignedUsers), Elems(ids), reason, actor.id, env.now)]
      ensures r.Ok? && newDeadline.Some? && newDeadline.value < env.now ==> IsOverdue(env.now)
      ensures r.Fail? ==> unchanged(this)
    {
      if !CanAssign(actor) && !actor.isAdmin {
        return Fail(AccessError);
      }
      if ids == [] {
        return Fail(ValidationError(EmptyList));
      }
      if !AllKnown(env, ids) {
        return Fail(ValidationError(InvalidUser));
      }
      assert ids[0] in Elems(ids);
      log := log + [AssignmentLog("assign_multiple", assignedUsers, Elems(ids), reason, actor.id, env.now)];
      assignedUsers := Elems(ids);
      assigner, assignmentDate := Some(actor.id), Some(env.now);
      status, priority := Assigned, newPriority;
      deadline := Override(newDeadline, deadline);
      description := OverrideText(newDescription, description);
      return Ok;
    }

    /** `add_assignee`: adding a present assignee changes nothing and logs
        nothing. The first assignee also sets the assigner, the date and the
        status assigned. */
    method AddAssignee(actor: User, env: Env, u: UserId, reason: string) returns (r: Outcome)
      requires Valid()
      modifies this`assignedUsers, this`assigner, this`assignmentDate, this`status, this`log
      ensures Valid()
      ensures r == (if !old(CanAssign(actor)) then Fail(AccessError)
                    else if u !in env.users then Fail(ValidationError(InvalidUser))
                    else Ok)
      ensures r.Ok? ==> assignedUsers == old(assignedUsers) + {u}
      ensures r.Ok? && u in old(assignedUsers) ==> unchanged(this)
      ensures r.Ok? && u !in old(assignedUsers) ==>
        log == old(log) + [AssignmentLog("add_assignee", {}, {u}, reason, actor.id, env.now)]
      ensures r.Ok? && old(assignedUsers) == {} ==>
        status == Assigned && assigner == Some(actor.id) && assignmentDate == Some(env.now)
      ensures r.Ok? && old(assignedUsers) != {} ==>
        status == old(status) && assigner == old(assigner) && assignmentDate == old(assignmentDate)
      ensures r.Fail? ==> unchanged(this)
    {
      if !CanAssign(actor) {
        return Fail(AccessError);
      }
      if u !in env.users {
        return Fail(ValidationError(InvalidUser));
      }
      if u !in assignedUsers {
        assignedUsers := assignedUsers + {u};
        if |assignedUsers| == 1 {
          assignmentDate, assigner, status := Some(env.now), Some(actor.id), Assigned;
        } else {
          assert old(assignedUsers) != {};
        }
        log := log + [AssignmentLog("add_assignee", {}, {u}, reason, actor.id, env.now)];
      }
      return Ok;
    }

    /** `remove_assignee`: removing a non-assignee changes nothing and logs
        nothing. Removing the last assignee makes the record unassigned. */
    method RemoveAssignee(actor: User, env: Env, u: UserId, reason: string) returns (r: Outcome)
      requires Valid()
      modifies this`assignedUsers, this`status, this`log
      ensures Valid()
      ensures r == (if !old(CanAssign(actor)) then Fail(AccessError)
                    else if u !in env.users then Fail(ValidationError(InvalidUser))
                    else Ok)
      ensures r.Ok? ==> assignedUsers == old(assignedUsers) - {u}
      ensures r.Ok? && u !in old(assignedUsers) ==> unchanged(this)
      ensures r.Ok? && u in old(assignedUsers) ==>
        status == (if assignedUsers == {} then Unassigned else old(status)) &&
        log == old(log) + [AssignmentLog("remove_assignee", {u}, {}, reason, actor.id, env.now)]
      ensures r.Fail? ==> unchanged(this)
    {
      if !CanAssign(actor) {
        return Fail(AccessError);
      }
      if u !in env.users {
        return Fail(ValidationError(InvalidUser));
      }
      if u in assignedUsers {
        assignedUsers := assignedUsers - {u};
        if assignedUsers == {} {
          status := Unassigned;
        }
        log := log + [AssignmentLog("remove_assignee", {u}, {}, reason, actor.id, env.now)];
      }
      return Ok;
    }

    /** `reassign_to_users`: unlike `assign_to_users`, no administrator
        bypass and no check for an empty list, so an empty list leaves an
        assigned record without assignees. */
    method ReassignToUsers(actor: User, env: Env, ids: seq<UserId>, reason: string) returns (r: Outcome)
      requires Valid()
      modifies this`assignedUsers, this`assigner, this`assignmentDate, this`status, this`log
      ensures Valid()
      ensures r == (if !old(CanAssign(actor)) then Fail(AccessError)
                    else if !AllKnown(env, ids) then Fail(ValidationError(InvalidUser))
                    else Ok)
      ensures r.Ok? ==> assignedUsers == Elems(ids) && status == Assigned
      ensures r.Ok? ==> assigner == Some(actor.id) && assignmentDate == Some(env.now)
      ensures r.Ok? ==> log == old(log) + [AssignmentLog("reassign_multiple", old(assignedUsers), Elems(ids), reason, actor.id, env.now)]
      ensures r.Fail? ==> unchanged(this)
    {
      if !CanAssign(actor) {
        return Fail(AccessError);
      }
      if !AllKnown(env, ids) {
        return Fail(ValidationError(InvalidUser));
      }
      log := log + [AssignmentLog("reassign_multiple", assignedUsers, Elems(ids), reason, actor.id, env.now)];
      assignedUsers := Elems(ids);
      assigner, assignmentDate := Some(actor.id), Some(env.now);
      status := Assigned;
      return Ok;
    }

    /** `unassign_all` */
    method UnassignAll(actor: User, now: int, reason: string) returns (r: Outcome)
      requires Valid()
      modifies this`assignedUsers, this`status, this`log
      ensures Valid()
      ensures r == (if old(CanAssign(actor)) then Ok else Fail(AccessError))
      ensures r.Ok? ==> !IsAssigned() && status == Unassigned && !IsOverdue(now)
      ensures r.Ok? ==> log == old(log) + [AssignmentLog("unassign_all", old(assignedUsers), {}, reason, actor.id, now)]
      ensures r.Fail? ==> unchanged(this)
    {
      if !CanAssign(actor) {
        return Fail(AccessError);
      }
      log := log + [AssignmentLog("unassign_all", assignedUsers, {}, reason, actor.id, now)];
      assignedUsers, status := {}, Unassigned;
      return Ok;
    }

    /** `start_assignment`: an assignee or an administrator; the previous
        status is not checked. */
    method StartAssignment(actor: User, now: int, reason: string) returns (r: Outcome)
      requires Valid()
      modifies this`status, this`log
      ensures Valid()
      ensures r == (if actor.id !in assignedUsers && !actor.isAdmin then Fail(AccessError) else Ok)
      ensures r.Ok? ==> status == InProgress
      ensures r.Ok? ==> (IsOverdue(now) <==> deadline.Some? && deadline.value < now)
      ensures r.Ok? ==> log == old(log) + [AssignmentLog("start", {}, {actor.id}, reason, actor.id, now)]
      ensures r.Fail? ==> unchanged(this)
    {
      if actor.id !in assignedUsers && !actor.isAdmin {
        return Fail(AccessError);
      }
      status := InProgress;
      log := log + [AssignmentLog("start", {}, {actor.id}, reason, actor.id, now)];
      return Ok;
    }

    /** `complete_assignment`: an assignee or an administrator; the previous
        status is not checked. Completed work is never overdue. */
    method CompleteAssignment(actor: User, now: int, reason: string) returns (r: Outcome)
      requires Valid()
      modifies this`status, this`log
      ensures Valid()
      ensures r == (if actor.id !in assignedUsers && !actor.isAdmin then Fail(AccessError) else Ok)
      ensures r.Ok? ==> status == Completed && !IsOverdue(now)
      ensures r.Ok? ==> log == old(log) + [AssignmentLog("complete", {}, {actor.id}, reason, actor.id, now)]
      ensures r.Fail? ==> unchanged(this)
    {
      if actor.id !in assignedUsers && !actor.isAdmin {
        return Fail(AccessError);
      }
      status := Completed;
      log := log + [AssignmentLog("complete", {}, {actor.id}, reason, actor.id, now)];
      return Ok;
    }

    /** `cancel_assignment`: the assignees are cleared and the status is
        cancelled. */
    method CancelAssignment(actor: User, now: int, reason: string) returns (r: Outcome)
      requires Valid()
      modifies this`assignedUsers, this`status, this`log
      ensures Valid()
      ensures r == (if old(CanAssign(actor)) then Ok else Fail(AccessError))
      ensures r.Ok? ==> !IsAssigned() && status == Cancelled && !IsOverdue(now)
      ensures r.Ok? ==> log == old(log) + [AssignmentLog("cancel", old(assignedUsers), {}, reason, actor.id, now)]
      ensures r.Fail? ==> unchanged(this)
    {
      if !CanAssign(actor) {
        return Fail(AccessError);
      }
      log := log + [AssignmentLog("cancel", assignedUsers, {}, reason, actor.id, now)];
      assignedUsers, status := {}, Cancelled;
      return Ok;
    }
  }

  /** Adding the same assignee twice: the second call succeeds, changes
      nothing and logs nothing. */
  method AddAssigneeTwice(a: Assignment, actor: User, env: Env, u: UserId)
    returns (first: Outcome, second: Outcome, logAfterFirst: seq<AssignmentLog>)
    requires a.Valid() && a.CanAssign(actor) && u in env.users
    modifies a
    ensures first == Ok && second == Ok
    ensures u in a.assignedUsers && a.log == logAfterFirst
  {
    first := a.AddAssignee(actor, env, u, "");
    logAfterFirst := a.log;
    second := a.AddAssignee(actor, env, u, "");
  }
}
