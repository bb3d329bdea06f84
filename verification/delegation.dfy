/** The permission test shared by `can_assign` (assignment facet) and
    `can_delegate` (responsibility facet). Both compute the same three
    sub-checks on the record's other facets and differ only in which users
    "hold" the record already (the assignees, or the primary and secondary
    responsible users); the test is defined once here. */
module Delegation {
  import opened Identity
  import opened Ownable
  import opened Accessible

  /** `has_basic_permission`: an internal user or an administrator. */
  predicate BasicPermission(actor: User)
  {
    actor.isInternal || actor.isAdmin
  }

  /** `has_ownership`: false without an ownership facet; otherwise the actor
      owns or co-owns the record, or nobody owns it. */
  predicate OwnershipStanding(own: Ownership?, actor: User)
    reads own
  {
    own != null && (own.owner == Some(actor.id) || actor.id in own.coOwners || own.owner.None?)
  }

  /** `has_access`: true without an access facet and on public and internal
      records. On a private record with an ownership facet only the owner and
      co-owners; on a private record without one, true. On a restricted
      record the explicit users, users sharing a system group, the owner,
      co-owners and members of active custom groups. The access window is
      not consulted. */
  predicate AccessStanding(own: Ownership?, acc: Access?, actor: User)
    reads own, acc, if acc == null then {} else acc.customGroups
  {
    if acc == null then true
    else match acc.level
      case Private => own == null || own.owner == Some(actor.id) || actor.id in own.coOwners
      case Restricted =>
        actor.id in acc.allowedUsers || actor.groups * acc.allowedGroups != {} ||
        (own != null && (own.owner == Some(actor.id) || actor.id in own.coOwners)) ||
        acc.InActiveCustomGroup(actor.id)
      case Public => true
      case Internal => true
  }

  /** `can_assign` / `can_delegate`: basic permission, and the actor already
      holds the record, has ownership standing, has access standing, or is
      an administrator. */
  predicate Eligible(own: Ownership?, acc: Access?, actor: User, holds: bool)
    reads own, acc, if acc == null then {} else acc.customGroups
  {
    BasicPermission(actor) && (holds || OwnershipStanding(own, actor) || AccessStanding(own, acc, actor) || actor.isAdmin)
  }

  /** What the test comes down to in the common cases. */
  lemma EligibleCases(own: Ownership?, acc: Access?, actor: User, holds: bool)
    ensures actor.isAdmin ==> Eligible(own, acc, actor, holds)
    ensures !BasicPermission(actor) ==> !Eligible(own, acc, actor, holds)
    ensures acc == null || acc.level in {Public, Internal} ==>
      (Eligible(own, acc, actor, holds) <==> BasicPermission(actor))
    ensures own != null && own.owner.None? ==> (Eligible(own, acc, actor, holds) <==> BasicPermission(actor))
  {
  }

  /** On a private record owned by someone else, an explicit grant does not
      help: only holding the record or being an administrator does. */
  lemma PrivateNeedsOwnership(own: Ownership, acc: Access, actor: User, holds: bool)
    requires acc.level == Private && own.owner.Some? && !own.IsOwnerOrCoOwner(actor.id)
    ensures Eligible(own, acc, actor, holds) <==> BasicPermission(actor) && (holds || actor.isAdmin)
  {
  }

  /** On a restricted record whose access facet shares the ownership facet,
      anyone with basic permission whom the access evaluation admits passes
      the test. The converse fails: the test ignores the access window. */
  lemma RestrictedAccessGivesEligibility(own: Ownership?, acc: Access, actor: User, holds: bool, now: int)
    requires acc.ownership == own && acc.level == Restricted
    requires BasicPermission(actor) && acc.CheckUserAccess(actor, now)
    ensures Eligible(own, acc, actor, holds)
  {
  }
}
