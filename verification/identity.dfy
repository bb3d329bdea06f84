/** Identities supplied by the external identity provider, the outcome and
    error vocabulary shared by every facet, and the recordset helpers the
    facets use on lists of ids. */
module Identity {

  type UserId = nat
  type GroupId = nat

  datatype Option<T> = None | Some(value: T)

  /** A user as the identity provider reports it. `isAdmin` is membership of
      the settings group (base.group_system), `isInternal` of the internal-user
      group (base.group_user); the two flags are independent here. `groups` are
      the system groups the user belongs to. */
  datatype User = User(id: UserId, isAdmin: bool, isInternal: bool, groups: set<GroupId>)

  /** What a command consults besides the record: the clock, the users that
      exist (by id) and the system groups that exist. */
  datatype Env = Env(now: int, users: map<UserId, User>, groups: set<GroupId>)

  /** The identity provider files every user under that user's own id. */
  predicate Consistent(env: Env)
  {
    forall u :: u in env.users ==> env.users[u].id == u
  }

  /** Which validation message a command raised. */
  datatype Problem =
    | InvalidUser        // a user id that does not exist
    | InvalidGroup       // a system group id that does not exist
    | InactiveGroup      // a custom group that is not active
    | EmptyList          // "At least one user must be specified"
    | InvalidLevel       // an access level outside the four values
    | AlreadyOwned       // claim on a record that has an owner
    | OwnerAsCoOwner     // the owner cannot be added as a co-owner
    | AlreadyCoOwner     // the user already is a co-owner
    | NotCoOwner         // the user is not a co-owner
    | NoCoOwners         // nothing to remove
    | EmptyActiveGroup   // the custom-group constraint: an active group needs a user

  datatype Error =
    | AccessError                  // a permission predicate was false
    | ValidationError(problem: Problem)
    | NameError                    // the example models raise an exception class they never imported
    | ValueError                   // the ORM refused a log row: an undeclared field or an unlisted selection value

  /** The result of a command: on failure nothing changed and nothing was logged. */
  datatype Outcome = Ok | Fail(error: Error)

  datatype Result<T> = Success(value: T) | Failure(error: Error)

  /** The set of ids in a list of ids (a recordset built by `browse`). */
  function Elems<T>(s: seq<T>): set<T>
  {
    set x | x in s
  }

  lemma ElemsAppend<T>(s: seq<T>, x: T)
    ensures Elems(s + [x]) == Elems(s) + {x}
  {
    assert forall y :: y in s + [x] <==> y in s || y == x;
  }

  /** `all(user.exists() for user in users)` */
  predicate AllKnown(env: Env, ids: seq<UserId>)
  {
    forall i :: 0 <= i < |ids| ==> ids[i] in env.users
  }

  /** The users of one system group (`group.users`). */
  function GroupUsers(env: Env, g: GroupId): set<UserId>
  {
    set id | id in env.users && g in env.users[id].groups
  }

  /** `if value:` overwrite, otherwise keep the current value. */
  function Override<T>(given: Option<T>, current: Option<T>): Option<T>
  {
    if given.Some? then given else current
  }

  /** `if description:` on a text: only a non-empty text overwrites. */
  function OverrideText(given: Option<string>, current: Option<string>): (r: Option<string>)
    ensures given.Some? && given.value != "" ==> r == given
    ensures (given.None? || given.value == "") ==> r == current
  {
    if given.Some? && given.value != "" then given else current
  }

  /** A subset is no larger than its superset, and as large only when it is
      the whole superset. */
  lemma SubsetCardinality<T>(small: set<T>, big: set<T>)
    requires small <= big
    ensures |small| <= |big|
    ensures |small| == |big| <==> small == big
  {
    assert big == small + (big - small);
    if |small| == |big| {
      assert |big - small| == 0;
    }
  }

  /** `recordset.filtered(lambda u: u in s)` and its complement, as the
      mixins compute them one user at a time. */
  method SplitByMembership(ids: seq<UserId>, s: set<UserId>) returns (inside: seq<UserId>, outside: seq<UserId>)
    ensures Elems(inside) == Elems(ids) * s
    ensures Elems(outside) == Elems(ids) - s
    ensures |inside| + |outside| == |ids|
  {
    inside, outside := [], [];
    var i := 0;
    while i < |ids|
      invariant 0 <= i <= |ids|
      invariant Elems(inside) == Elems(ids[..i]) * s
      invariant Elems(outside) == Elems(ids[..i]) - s
      invariant |inside| + |outside| == i
    {
      assert ids[..i + 1] == ids[..i] + [ids[i]];
      ElemsAppend(ids[..i], ids[i]);
      if ids[i] in s {
        ElemsAppend(inside, ids[i]);
        inside := inside + [ids[i]];
      } else {
        ElemsAppend(outside, ids[i]);
        outside := outside + [ids[i]];
      }
      i := i + 1;
    }
    assert ids[..i] == ids;
  }
}
