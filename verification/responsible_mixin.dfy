/** The responsibility facet (tk.responsible.mixin): primary and secondary
    responsible users, who delegated, a start date and an optional end date,
    and its own log. Every command needs `can_delegate`; only the two
    assign commands let administrators bypass it. */
module Responsible {
  import opened Identity
  import opened Ownable
  import opened Accessible
  import opened Delegation

  /** One row of the responsibility log: the users before and after. */
  datatype ResponsibilityLog = ResponsibilityLog(action: string, oldUsers: set<UserId>, newUsers: set<UserId>,
                                                 reason: string, actor: UserId, date: int)

  /** The keys of the log's `action` selection (models/responsibility_log.py:20-34).
      The ORM's `create` raises ValueError for any other action. */
  const ResponsibilityLogActions: set<string> :=
    {"assign", "delegate", "revoke", "transfer", "escalate", "add_secondary", "remove_secondary",
     "assign_multiple", "delegate_multiple", "transfer_multiple", "add_responsible",
     "remove_responsible", "revoke_all"}

  class Responsibility {
    /** The ownership and access facets of the same record, if it has them. */
    const ownership: Ownership?
    const access: Access?

    var primary: set<UserId>
    var secondary: set<UserId>
    var startDate: int
    var endDate: Option<int>
    var delegatedBy: Option<UserId>
    var description: Option<string>
    var log: seq<ResponsibilityLog>

    /** A new record starts its responsibility now, with nobody responsible. */
    constructor (ownership: Ownership?, access: Access?, now: int)
      ensures this.ownership == ownership && this.access == access
      ensures primary == {} && secondary == {} && startDate == now
      ensures endDate == None && delegatedBy == None && description == None && log == []
    {
      this.ownership := ownership;
      this.access := access;
      primary, secondary := {}, {};
      startDate := now;
      endDate, delegatedBy, description := None, None, None;
      log := [];
    }

    /** `is_responsibility_active`: somebody is primarily responsible and the
        end date, if any, is strictly after now. Secondary users do not count. */
    predicate IsResponsibilityActive(now: int)
      reads this
    {
      primary != {} && (endDate.None? || endDate.value > now)
    }

    /** `is_responsibility_expired`: an end date strictly before now. */
    predicate IsResponsibilityExpired(now: int)
      reads this
    {
      endDate.Some? && endDate.value < now
    }

    /** `responsibility_count` */
    function ResponsibilityCount(): (n: nat)
      reads this
      ensures n == 0 <==> primary == {}
    {
      |primary|
    }

    /** `secondary_responsibility_count` */
    function SecondaryResponsibilityCount(): (n: nat)
      reads this
      ensures n == 0 <==> secondary == {}
    {
      |secondary|
    }

    /** `can_delegate`: the shared delegation test, where holding the record
        means being primary or secondary responsible. */
    predicate CanDelegate(actor: User)
      reads this, ownership, access, if access == null then {} else access.customGroups
    {
      Eligible(ownership, access, actor, actor.id in primary + secondary)
    }

    /** `assign_responsibility`: administrators bypass `can_delegate`; the
        list must be non-empty and name existing users. The primary users
        become exactly the listed ones; the secondary users stay. */
    method AssignResponsibility(actor: User, env: Env, ids: seq<UserId>, newEnd: Option<int>,
                                newDescription: Option<string>, reason: string) returns (r: Outcome)
      modifies this`primary, this`startDate, this`delegatedBy, this`endDate, this`description, this`log
      ensures r == (if !old(CanDelegate(actor)) && !actor.isAdmin then Fail(AccessError)
                    else if ids == [] then Fail(ValidationError(EmptyList))
                    else if !AllKnown(env, ids) then Fail(ValidationError(InvalidUser))
                    else Ok)
      ensures r.Ok? ==> primary == Elems(ids) && primary != {}
      ensures r.Ok? ==> startDate == env.now && delegatedBy == Some(actor.id)
      ensures r.Ok? ==> endDate == Override(newEnd, old(endDate))
      ensures r.Ok? ==> description == OverrideText(newDescription, old(description))
      ensures r.Ok? ==> log == old(log) + [ResponsibilityLog("assign_multiple", old(primary), Elems(ids), reason, actor.id, env.now)]
      ensures r.Ok? && (endDate.None? || endDate.value > env.now) ==> IsResponsibilityActive(env.now)
      ensures r.Fail? ==> unchanged(this)
    {
      if !CanDelegate(actor) && !actor.isAdmin {
        return Fail(AccessError);
      }
      if ids == [] {
        return Fail(ValidationError(EmptyList));
      }
      if !AllKnown(env, ids) {
        return Fail(ValidationError(InvalidUser));
      }
      assert ids[0] in Elems(ids);
      log := log + [ResponsibilityLog("assign_multiple", primary, Elems(ids), reason, actor.id, env.now)];
      primary := Elems(ids);
      startDate, delegatedBy := env.now, Some(actor.id);
      endDate := Override(newEnd, endDate);
      description := OverrideText(newDescription, description);
      return Ok;
    }

    /** `assign_secondary_responsibility`: like the above for the secondary
        users only; nothing else is written. */
    method AssignSecondaryResponsibility(actor: User, env: Env, ids: seq<UserId>, reason: string) returns (r: Outcome)
      modifies this`secondary, this`log
      ensures r == (if !old(CanDelegate(actor)) && !actor.isAdmin then Fail(AccessError)
                    else if ids == [] then Fail(ValidationError(EmptyList))
                    else if !AllKnown(env, ids) then Fail(ValidationError(InvalidUser))
                    else Ok)
      ensures r.Ok? ==> secondary == Elems(ids) && secondary != {}
      ensures r.Ok? ==> log == old(log) + [ResponsibilityLog("assign_secondary_multiple", old(secondary), Elems(ids), reason, actor.id, env.now)]
      ensures r.Fail? ==> unchanged(this)
    {
      if !CanDelegate(actor) && !actor.isAdmin {
        return Fail(AccessError);
      }
      if ids == [] {
        return Fail(ValidationError(EmptyList));
      }
      if !AllKnown(env, ids) {
        return Fail(ValidationError(InvalidUser));
      }
      assert ids[0] in Elems(ids);
      log := log + [ResponsibilityLog("assign_secondary_multiple", secondary, Elems(ids), reason, actor.id, env.now)];
      secondary := Elems(ids);
      return Ok;
    }

    /** `_change_responsibility`: no administrator bypass and no check for an
        empty list. The primary users become exactly the listed ones, and the
        actor becomes the delegator. */
    method ChangeResponsibility(actor: User, env: Env, ids: seq<UserId>, action: string, reason: string)
      returns (r: Outcome)
      modifies this`primary, this`delegatedBy, this`startDate, this`log
      ensures r == (if !old(CanDelegate(actor)) then Fail(AccessError)
                    else if !AllKnown(env, ids) then Fail(ValidationError(InvalidUser))
                    else Ok)
      ensures r.Ok? ==> primary == Elems(ids) && delegatedBy == Some(actor.id) && startDate == env.now
      ensures r.Ok? ==> log == old(log) + [ResponsibilityLog(action, old(primary), Elems(ids), reason, actor.id, env.now)]
      ensures r.Fail? ==> unchanged(this)
    {
      if !CanDelegate(actor) {
        return Fail(AccessError);
      }
      if !AllKnown(env, ids) {
        return Fail(ValidationError(InvalidUser));
      }
      log := log + [ResponsibilityLog(action, primary, Elems(ids), reason, actor.id, env.now)];
      primary := Elems(ids);
      delegatedBy, startDate := Some(actor.id), env.now;
      return Ok;
    }

    /** `_change_secondary_responsibility`: only the secondary users change. */
    method ChangeSecondaryResponsibility(actor: User, env: Env, ids: seq<UserId>, action: string, reason: string)
      returns (r: Outcome)
      modifies this`secondary, this`log
      ensures r == (if !old(CanDelegate(actor)) then Fail(AccessError)
                    else if !AllKnown(env, ids) then Fail(ValidationError(InvalidUser))
                    else Ok)
      ensures r.Ok? ==> secondary == Elems(ids)
      ensures r.Ok? ==> log == old(log) + [ResponsibilityLog(action, old(secondary), Elems(ids), reason, actor.id, env.now)]
      ensures r.Fail? ==> unchanged(this)
    {
      if !CanDelegate(actor) {
        return Fail(AccessError);
      }
      if !AllKnown(env, ids) {
        return Fail(ValidationError(InvalidUser));
      }
      log := log + [ResponsibilityLog(action, secondary, Elems(ids), reason, actor.id, env.now)];
      secondary := Elems(ids);
      return Ok;
    }

    /** `_change_secondary_responsibility` as written: the change goes
        through, then the log row is created with the given action, which the
        ORM refuses unless the log's selection lists it; a refusal rolls the
        whole command back. `delegate_secondary_responsibility` and
        `transfer_secondary_responsibility` pass actions it does not list. */
    method ChangeSecondaryResponsibilityAsWritten(actor: User, env: Env, ids: seq<UserId>, action: string, reason: string)
      returns (r: Outcome)
      modifies this`secondary, this`log
      ensures r == (if !old(CanDelegate(actor)) then Fail(AccessError)
                    else if !AllKnown(env, ids) then Fail(ValidationError(InvalidUser))
                    else if action !in ResponsibilityLogActions then Fail(ValueError)
                    else Ok)
      ensures action in {"delegate_secondary_multiple", "transfer_secondary_multiple"} ==> r.Fail?
      ensures r.Ok? ==> secondary == Elems(ids)
      ensures r.Ok? ==> log == old(log) + [ResponsibilityLog(action, old(secondary), Elems(ids), reason, actor.id, env.now)]
      ensures r.Fail? ==> unchanged(this)
    {
      var secondary0, log0 := secondary, log;
      r := ChangeSecondaryResponsibility(actor, env, ids, action, reason);
      if r.Ok? && action !in ResponsibilityLogActions {
        secondary, log := secondary0, log0;
        r := Fail(ValueError);
      }
    }

    /** `delegate_responsibility` */
    method DelegateResponsibility(actor: User, env: Env, ids: seq<UserId>, reason: string) returns (r: Outcome)
      modifies this`primary, this`delegatedBy, this`startDate, this`log
      ensures r == (if !old(CanDelegate(actor)) then Fail(AccessError)
                    else if !AllKnown(env, ids) then Fail(ValidationError(InvalidUser))
                    else Ok)
      ensures r.Ok? ==> primary == Elems(ids) && delegatedBy == Some(actor.id) && startDate == env.now
      ensures r.Ok? ==> log == old(log) + [ResponsibilityLog("delegate_multiple", old(primary), Elems(ids), reason, actor.id, env.now)]
      ensures r.Fail? ==> unchanged(this)
    {
      r := ChangeResponsibility(actor, env, ids, "delegate_multiple", reason);
    }

    /** `transfer_responsibility`: the same change, logged as a transfer. */
    method TransferResponsibility(actor: User, env: Env, ids: seq<UserId>, reason: string) returns (r: Outcome)
      modifies this`primary, this`delegatedBy, this`startDate, this`log
      ensures r == (if !old(CanDelegate(actor)) then Fail(AccessError)
                    else if !AllKnown(env, ids) then Fail(ValidationError(InvalidUser))
                    else Ok)
      ensures r.Ok? ==> primary == Elems(ids) && delegatedBy == Some(actor.id) && startDate == env.now
      ensures r.Ok? ==> log == old(log) + [ResponsibilityLog("transfer_multiple", old(primary), Elems(ids), reason, actor.id, env.now)]
      ensures r.Fail? ==> unchanged(this)
    {
      r := ChangeResponsibility(actor, env, ids, "transfer_multiple", reason);
    }

    /** `delegate_secondary_responsibility` */
    method DelegateSecondaryResponsibility(actor: User, env: Env, ids: seq<UserId>, reason: string) returns (r: Outcome)
      modifies this`secondary, this`log
      ensures r == (if !old(CanDelegate(actor)) then Fail(AccessError)
                    else if !AllKnown(env, ids) then Fail(ValidationError(InvalidUser))
                    else Ok)
      ensures r.Ok? ==> secondary == Elems(ids)
      ensures r.Ok? ==> log == old(log) + [ResponsibilityLog("delegate_secondary_multiple", old(secondary), Elems(ids), reason, actor.id, env.now)]
      ensures r.Fail? ==> unchanged(this)
    {
      r := ChangeSecondaryResponsibility(actor, env, ids, "delegate_secondary_multiple", reason);
    }

    /** `transfer_secondary_responsibility` */
    method TransferSecondaryResponsibility(actor: User, env: Env, ids: seq<UserId>, reason: string) returns (r: Outcome)
      modifies this`secondary, this`log
      ensures r == (if !old(CanDelegate(actor)) then Fail(AccessError)
                    else if !AllKnown(env, ids) then Fail(ValidationError(InvalidUser))
                    else Ok)
      ensures r.Ok? ==> secondary == Elems(ids)
      ensures r.Ok? ==> log == old(log) + [ResponsibilityLog("transfer_secondary_multiple", old(secondary), Elems(ids), reason, actor.id, env.now)]
      ensures r.Fail? ==> unchanged(this)
    {
      r := ChangeSecondaryResponsibility(actor, env, ids, "transfer_secondary_multiple", reason);
    }

    /** `add_responsible_user`: insertion into the chosen set; a row is
        logged only when the user was not there yet. */
    method AddResponsibleUser(actor: User, env: Env, u: UserId, isSecondary: bool, reason: string) returns (r: Outcome)
      modifies this`primary, this`secondary, this`log
      ensures r == (if !old(CanDelegate(actor)) then Fail(AccessError)
                    else if u !in env.users then Fail(ValidationError(InvalidUser))
                    else Ok)
      ensures r.Ok? && isSecondary ==> secondary == old(secondary) + {u} && primary == old(primary)
      ensures r.Ok? && !isSecondary ==> primary == old(primary) + {u} && secondary == old(secondary)
      ensures r.Ok? ==>
        log == old(log) +
               (if isSecondary && u !in old(secondary) then [ResponsibilityLog("add_secondary", {}, {u}, reason, actor.id, env.now)]
                else if !isSecondary && u !in old(primary) then [ResponsibilityLog("add_responsible", {}, {u}, reason, actor.id, env.now)]
                else [])
      ensures r.Fail? ==> unchanged(this)
    {
      if !CanDelegate(actor) {
        return Fail(AccessError);
      }
      if u !in env.users {
        return Fail(ValidationError(InvalidUser));
      }
      if isSecondary {
        if u !in secondary {
          secondary := secondary + {u};
          log := log + [ResponsibilityLog("add_secondary", {}, {u}, reason, actor.id, env.now)];
        }
      } else {
        if u !in primary {
          primary := primary + {u};
          log := log + [ResponsibilityLog("add_responsible", {}, {u}, reason, actor.id, env.now)];
        }
      }
      return Ok;
    }

    /** `remove_responsible_user`: deletion from the chosen set; a row is
        logged only when the user was there. */
    method RemoveResponsibleUser(actor: User, env: Env, u: UserId, isSecondary: bool, reason: string) returns (r: Outcome)
      modifies this`primary, this`secondary, this`log
      ensures r == (if !old(CanDelegate(actor)) then Fail(AccessError)
                    else if u !in env.users then Fail(ValidationError(InvalidUser))
                    else Ok)
      ensures r.Ok? && isSecondary ==> secondary == old(secondary) - {u} && primary == old(primary)
      ensures r.Ok? && !isSecondary ==> primary == old(primary) - {u} && secondary == old(secondary)
      ensures r.Ok? ==>
        log == old(log) +
               (if isSecondary && u in old(secondary) then [ResponsibilityLog("remove_secondary", {u}, {}, reason, actor.id, env.now)]
                else if !isSecondary && u in old(primary) then [ResponsibilityLog("remove_responsible", {u}, {}, reason, actor.id, env.now)]
                else [])
      ensures r.Fail? ==> unchanged(this)
    {
      if !CanDelegate(actor) {
        return Fail(AccessError);
      }
      if u !in env.users {
        return Fail(ValidationError(InvalidUser));
      }
      if isSecondary {
        if u in secondary {
          secondary := secondary - {u};
          log := log + [ResponsibilityLog("remove_secondary", {u}, {}, reason, actor.id, env.now)];
        }
      } else {
        if u in primary {
          primary := primary - {u};
          log := log + [ResponsibilityLog("remove_responsible", {u}, {}, reason, actor.id, env.now)];
        }
      }
      return Ok;
    }

    /** `revoke_all_responsibility`: both sets end empty, so responsibility
        is no longer active; a row is logged only when either set had users. */
    method RevokeAllResponsibility(actor: User, now: int, reason: string) returns (r: Outcome)
      modifies this`primary, this`secondary, this`log
      ensures r == (if old(CanDelegate(actor)) then Ok else Fail(AccessError))
      ensures r.Ok? ==> primary == {} && secondary == {} && !IsResponsibilityActive(now)
      ensures r.Ok? ==>
        log == old(log) +
               (if old(primary) == {} && old(secondary) == {} then []
                else [ResponsibilityLog("revoke_all", old(primary) + old(secondary), {}, reason, actor.id, now)])
      ensures r.Fail? ==> unchanged(this)
    {
      if !CanDelegate(actor) {
        return Fail(AccessError);
      }
      var oldPrimary, oldSecondary := primary, secondary;
      primary, secondary := {}, {};
      if oldPrimary != {} || oldSecondary != {} {
        log := log + [ResponsibilityLog("revoke_all", oldPrimary + oldSecondary, {}, reason, actor.id, now)];
      }
      return Ok;
    }

    /** `escalate_responsibility`: the target alone becomes primary
        responsible, the secondary users are cleared and the actor becomes
        the delegator. */
    method EscalateResponsibility(actor: User, env: Env, target: UserId, reason: string) returns (r: Outcome)
      modifies this`primary, this`secondary, this`delegatedBy, this`startDate, this`log
      ensures r == (if !old(CanDelegate(actor)) then Fail(AccessError)
                    else if target !in env.users then Fail(ValidationError(InvalidUser))
                    else Ok)
      ensures r.Ok? ==> primary == {target} && secondary == {}
      ensures r.Ok? ==> delegatedBy == Some(actor.id) && startDate == env.now
      ensures r.Ok? ==> log == old(log) + [ResponsibilityLog("escalate", old(primary) + old(secondary), {target}, reason, actor.id, env.now)]
      ensures r.Ok? && (endDate.None? || endDate.value > env.now) ==> IsResponsibilityActive(env.now)
      ensures r.Fail? ==> unchanged(this)
    {
      if !CanDelegate(actor) {
        return Fail(AccessError);
      }
      if target !in env.users {
        return Fail(ValidationError(InvalidUser));
      }
      log := log + [ResponsibilityLog("escalate", primary + secondary, {target}, reason, actor.id, env.now)];
      primary, secondary := {target}, {};
      delegatedBy, startDate := Some(actor.id), env.now;
      return Ok;
    }
  }

  /** Expired responsibility is never active; at the end date itself it is
      neither; the secondary users play no part in either. */
  lemma ExpiryAndActivity(resp: Responsibility, now: int)
    ensures resp.IsResponsibilityExpired(now) ==> !resp.IsResponsibilityActive(now)
    ensures resp.endDate == Some(now) ==> !resp.IsResponsibilityActive(now) && !resp.IsResponsibilityExpired(now)
    ensures resp.primary == {} ==> !resp.IsResponsibilityActive(now)
    ensures resp.primary != {} && !resp.IsResponsibilityExpired(now) && resp.endDate != Some(now) ==>
      resp.IsResponsibilityActive(now)
  {
  }

  /** Revoking twice: the second call writes nothing. It either succeeds with
      nothing to log or, because the actor no longer holds the record, is
      refused; either way state and log are as the first call left them. */
  method RevokeAllTwice(resp: Responsibility, actor: User, now: int)
    returns (first: Outcome, second: Outcome, logAfterFirst: seq<ResponsibilityLog>)
    modifies resp`primary, resp`secondary, resp`log
    ensures first.Ok? ==> second == Ok || second == Fail(AccessError)
    ensures first.Ok? ==> resp.primary == {} && resp.secondary == {} && resp.log == logAfterFirst
  {
    first := resp.RevokeAllResponsibility(actor, now, "");
    logAfterFirst := resp.log;
    second := resp.RevokeAllResponsibility(actor, now, "");
  }
}
