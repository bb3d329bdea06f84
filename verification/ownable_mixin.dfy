/** The ownership facet (tk.ownable.mixin): an owner, a set of co-owners and
    the previous owner, with transfer, release, claim and co-owner
    management. Every successful command appends one ownership log row. */
module Ownable {
  import opened Identity

  /** One row of the ownership log. */
  datatype OwnershipLog = OwnershipLog(
    action: string, oldOwner: Option<UserId>, newOwner: Option<UserId>,
    reason: string, actor: UserId, date: int)

  /** Why `add_multiple_co_owners` stops at a user of the batch. */
  datatype Conflict = OwnerInBatch | CoOwnerInBatch(user: UserId)

  /** The first user of the batch, in order, that is the owner or already a
      co-owner; the check for the owner comes first for each user. */
  function FirstConflict(ids: seq<UserId>, owner: Option<UserId>, coOwners: set<UserId>): Option<Conflict>
  {
    if ids == [] then None
    else if owner == Some(ids[0]) then Some(OwnerInBatch)
    else if ids[0] in coOwners then Some(CoOwnerInBatch(ids[0]))
    else FirstConflict(ids[1..], owner, coOwners)
  }

  /** The batch is accepted exactly when no user in it is the owner or a
      co-owner, whatever the order. */
  lemma {:induction false} FirstConflictNoneIff(ids: seq<UserId>, owner: Option<UserId>, coOwners: set<UserId>)
    ensures FirstConflict(ids, owner, coOwners) == None <==>
      forall i :: 0 <= i < |ids| ==> owner != Some(ids[i]) && ids[i] !in coOwners
  {
    if ids != [] {
      FirstConflictNoneIff(ids[1..], owner, coOwners);
      assert forall i :: 1 <= i < |ids| ==> ids[i] == ids[1..][i - 1];
    }
  }

  /** A reported co-owner conflict names a user of the batch who is a co-owner. */
  lemma {:induction false} FirstConflictNamesCoOwner(ids: seq<UserId>, owner: Option<UserId>, coOwners: set<UserId>)
    ensures FirstConflict(ids, owner, coOwners).Some? && FirstConflict(ids, owner, coOwners).value.CoOwnerInBatch? ==>
      FirstConflict(ids, owner, coOwners).value.user in coOwners &&
      FirstConflict(ids, owner, coOwners).value.user in ids
  {
    if ids != [] && owner != Some(ids[0]) && ids[0] !in coOwners {
      FirstConflictNamesCoOwner(ids[1..], owner, coOwners);
    }
  }

  /** The loop of `add_multiple_co_owners` that checks each user before
      anything is written. */
  method FindConflict(ids: seq<UserId>, owner: Option<UserId>, coOwners: set<UserId>) returns (c: Option<Conflict>)
    ensures c == FirstConflict(ids, owner, coOwners)
  {
    var i := 0;
    while i < |ids|
      invariant 0 <= i <= |ids|
      invariant FirstConflict(ids[i..], owner, coOwners) == FirstConflict(ids, owner, coOwners)
    {
      assert ids[i..][1..] == ids[i + 1..];
      if owner == Some(ids[i]) {
        return Some(OwnerInBatch);
      }
      if ids[i] in coOwners {
        return Some(CoOwnerInBatch(ids[i]));
      }
      i := i + 1;
    }
    return None;
  }

  class Ownership {
    var owner: Option<UserId>
    var coOwners: set<UserId>
    var previousOwner: Option<UserId>
    var ownershipDate: int
    var log: seq<OwnershipLog>

    /** A new record is owned by the user who creates it. */
    constructor (creator: UserId, now: int)
      ensures owner == Some(creator) && coOwners == {} && previousOwner == None
      ensures ownershipDate == now && log == []
    {
      owner := Some(creator);
      coOwners := {};
      previousOwner := None;
      ownershipDate := now;
      log := [];
    }

    /** `is_owner_or_co_owner` */
    predicate IsOwnerOrCoOwner(u: UserId)
      reads this
    {
      owner == Some(u) || u in coOwners
    }

    /** `get_all_owners`: exactly the owner and co-owners; empty exactly when
        the record is not owned. */
    function GetAllOwners(): (all: set<UserId>)
      reads this
      ensures forall u :: u in all <==> IsOwnerOrCoOwner(u)
      ensures all == {} <==> !IsOwned()
    {
      (if owner.Some? then {owner.value} else {}) + coOwners
    }

    /** `is_owned`: an owner or at least one co-owner. */
    predicate IsOwned()
      reads this
    {
      owner.Some? || coOwners != {}
    }

    /** `is_owned_by_me` */
    predicate IsOwnedByMe(actor: User)
      reads this
    {
      IsOwnerOrCoOwner(actor.id)
    }

    /** `co_owner_count` */
    function CoOwnerCount(): (n: nat)
      reads this
      ensures n == 0 <==> coOwners == {}
    {
      |coOwners|
    }

    /** `can_transfer` (and `can_release`, computed identically): the owner
        or an administrator. */
    predicate CanTransfer(actor: User)
      reads this
    {
      owner == Some(actor.id) || actor.isAdmin
    }

    /** `can_manage_co_owners`: the owner, a co-owner or an administrator. */
    predicate CanManageCoOwners(actor: User)
      reads this
      ensures CanTransfer(actor) ==> CanManageCoOwners(actor)
    {
      IsOwnerOrCoOwner(actor.id) || actor.isAdmin
    }

    /** `transfer_ownership` */
    method TransferOwnership(actor: User, env: Env, newOwner: UserId, reason: string) returns (r: Outcome)
      modifies this`owner, this`previousOwner, this`ownershipDate, this`log
      ensures r == (if !old(CanTransfer(actor)) then Fail(AccessError)
                    else if newOwner !in env.users then Fail(ValidationError(InvalidUser))
                    else Ok)
      ensures r.Ok? ==> owner == Some(newOwner) && previousOwner == old(owner) && ownershipDate == env.now
      ensures r.Ok? ==> log == old(log) + [OwnershipLog("transfer", old(owner), Some(newOwner), reason, actor.id, env.now)]
      ensures r.Fail? ==> unchanged(this)
    {
      if !CanTransfer(actor) {
        return Fail(AccessError);
      }
      if newOwner !in env.users {
        return Fail(ValidationError(InvalidUser));
      }
      var oldOwner := owner;
      previousOwner, owner, ownershipDate := oldOwner, Some(newOwner), env.now;
      log := log + [OwnershipLog("transfer", oldOwner, Some(newOwner), reason, actor.id, env.now)];
      return Ok;
    }

    /** `release_ownership` */
    method ReleaseOwnership(actor: User, now: int, reason: string) returns (r: Outcome)
      modifies this`owner, this`previousOwner, this`ownershipDate, this`log
      ensures r == (if old(CanTransfer(actor)) then Ok else Fail(AccessError))
      ensures r.Ok? ==> owner == None && previousOwner == old(owner) && ownershipDate == now
      ensures r.Ok? ==> log == old(log) + [OwnershipLog("release", old(owner), None, reason, actor.id, now)]
      ensures r.Fail? ==> unchanged(this)
    {
      if !CanTransfer(actor) {
        return Fail(AccessError);
      }
      var oldOwner := owner;
      previousOwner, owner, ownershipDate := oldOwner, None, now;
      log := log + [OwnershipLog("release", oldOwner, None, reason, actor.id, now)];
      return Ok;
    }

    /** `claim_ownership`: anyone may claim a record without an owner; the
        previous owner is left as it was. */
    method ClaimOwnership(actor: User, now: int, reason: string) returns (r: Outcome)
      modifies this`owner, this`ownershipDate, this`log
      ensures r == (if old(owner).Some? then Fail(ValidationError(AlreadyOwned)) else Ok)
      ensures r.Ok? ==> owner == Some(actor.id) && ownershipDate == now
      ensures r.Ok? ==> log == old(log) + [OwnershipLog("claim", None, Some(actor.id), reason, actor.id, now)]
      ensures r.Fail? ==> unchanged(this)
    {
      if owner.Some? {
        return Fail(ValidationError(AlreadyOwned));
      }
      owner, ownershipDate := Some(actor.id), now;
      log := log + [OwnershipLog("claim", None, Some(actor.id), reason, actor.id, now)];
      return Ok;
    }

    /** `add_co_owner`: the added user is neither the owner nor already a
        co-owner, so afterwards that user is a co-owner distinct from the owner. */
    method AddCoOwner(actor: User, env: Env, u: UserId, reason: string) returns (r: Outcome)
      modifies this`coOwners, this`log
      ensures r == (if !old(CanManageCoOwners(actor)) then Fail(AccessError)
                    else if u !in env.users then Fail(ValidationError(InvalidUser))
                    else if owner == Some(u) then Fail(ValidationError(OwnerAsCoOwner))
                    else if u in old(coOwners) then Fail(ValidationError(AlreadyCoOwner))
                    else Ok)
      ensures r.Ok? ==> coOwners == old(coOwners) + {u} && owner != Some(u)
      ensures r.Ok? ==> log == old(log) + [OwnershipLog("add_co_owner", None, Some(u), reason, actor.id, env.now)]
      ensures r.Fail? ==> unchanged(this)
    {
      if !CanManageCoOwners(actor) {
        return Fail(AccessError);
      }
      if u !in env.users {
        return Fail(ValidationError(InvalidUser));
      }
      if owner == Some(u) {
        return Fail(ValidationError(OwnerAsCoOwner));
      }
      if u in coOwners {
        return Fail(ValidationError(AlreadyCoOwner));
      }
      coOwners := coOwners + {u};
      log := log + [OwnershipLog("add_co_owner", None, Some(u), reason, actor.id, env.now)];
      return Ok;
    }

    /** `remove_co_owner`: only that user leaves the co-owners. */
    method RemoveCoOwner(actor: User, env: Env, u: UserId, reason: string) returns (r: Outcome)
      modifies this`coOwners, this`log
      ensures r == (if !old(CanManageCoOwners(actor)) then Fail(AccessError)
                    else if u !in env.users then Fail(ValidationError(InvalidUser))
                    else if u !in old(coOwners) then Fail(ValidationError(NotCoOwner))
                    else Ok)
      ensures r.Ok? ==> coOwners == old(coOwners) - {u} && |coOwners| == |old(coOwners)| - 1
      ensures r.Ok? ==> log == old(log) + [OwnershipLog("remove_co_owner", Some(u), None, reason, actor.id, env.now)]
      ensures r.Fail? ==> unchanged(this)
    {
      if !CanManageCoOwners(actor) {
        return Fail(AccessError);
      }
      if u !in env.users {
        return Fail(ValidationError(InvalidUser));
      }
      if u !in coOwners {
        return Fail(ValidationError(NotCoOwner));
      }
      coOwners := coOwners - {u};
      log := log + [OwnershipLog("remove_co_owner", Some(u), None, reason, actor.id, env.now)];
      return Ok;
    }

    /** `add_multiple_co_owners`: all or nothing. Every user is validated
        before the first one is inserted; on success none of the added users
        is the owner. */
    method AddMultipleCoOwners(actor: User, env: Env, ids: seq<UserId>, reason: string) returns (r: Outcome)
      modifies this`coOwners, this`log
      ensures !old(CanManageCoOwners(actor)) ==> r == Fail(AccessError)
      ensures old(CanManageCoOwners(actor)) && ids == [] ==> r == Fail(ValidationError(EmptyList))
      ensures old(CanManageCoOwners(actor)) && ids != [] && !AllKnown(env, ids) ==> r == Fail(ValidationError(InvalidUser))
      ensures old(CanManageCoOwners(actor)) && ids != [] && AllKnown(env, ids) ==>
        r == match FirstConflict(ids, owner, old(coOwners))
             case None => Ok
             case Some(OwnerInBatch) => Fail(ValidationError(OwnerAsCoOwner))
             case Some(CoOwnerInBatch(_)) => Fail(ValidationError(AlreadyCoOwner))
      ensures r.Ok? ==> coOwners == old(coOwners) + Elems(ids) && (owner.Some? ==> owner.value !in Elems(ids))
      ensures r.Ok? ==> log == old(log) + [OwnershipLog("add_multiple_co_owners", None, None, reason, actor.id, env.now)]
      ensures r.Fail? ==> unchanged(this)
    {
      if !CanManageCoOwners(actor) {
        return Fail(AccessError);
      }
      if ids == [] {
        return Fail(ValidationError(EmptyList));
      }
      if !AllKnown(env, ids) {
        return Fail(ValidationError(InvalidUser));
      }
      var c := FindConflict(ids, owner, coOwners);
      match c {
        case Some(OwnerInBatch) =>
          return Fail(ValidationError(OwnerAsCoOwner));
        case Some(CoOwnerInBatch(_)) =>
          return Fail(ValidationError(AlreadyCoOwner));
        case None =>
      }
      FirstConflictNoneIff(ids, owner, coOwners);
      coOwners := coOwners + Elems(ids);
      log := log + [OwnershipLog("add_multiple_co_owners", None, None, reason, actor.id, env.now)];
      return Ok;
    }

    /** `remove_all_co_owners`: refused when there is nothing to remove. */
    method RemoveAllCoOwners(actor: User, now: int, reason: string) returns (r: Outcome)
      modifies this`coOwners, this`log
      ensures r == (if !old(CanManageCoOwners(actor)) then Fail(AccessError)
                    else if old(coOwners) == {} then Fail(ValidationError(NoCoOwners))
                    else Ok)
      ensures r.Ok? ==> coOwners == {}
      ensures r.Ok? ==> log == old(log) + [OwnershipLog("remove_all_co_owners", None, None, reason, actor.id, now)]
      ensures r.Fail? ==> unchanged(this)
    {
      if !CanManageCoOwners(actor) {
        return Fail(AccessError);
      }
      if coOwners == {} {
        return Fail(ValidationError(NoCoOwners));
      }
      coOwners := {};
      log := log + [OwnershipLog("remove_all_co_owners", None, None, reason, actor.id, now)];
      return Ok;
    }
  }

  /** The previous owner always records the owner before the last transfer
      or release: a transfer followed by a release leaves the transferee as
      previous owner, and a claim afterwards does not touch it. */
  method TransferReleaseClaim(o: Ownership, admin: User, env: Env, b: UserId, c: User)
    requires admin.isAdmin && b in env.users
    modifies o
    ensures o.owner == Some(c.id) && o.previousOwner == Some(b)
    ensures |o.log| == |old(o.log)| + 3
  {
    var r1 := o.TransferOwnership(admin, env, b, "handover");
    var r2 := o.ReleaseOwnership(admin, env.now, "");
    var r3 := o.ClaimOwnership(c, env.now, "");
  }
}
