# Comprehensive toolkit: ownership, assignment, access and responsibility facets in Dafny

This project models the core of an Odoo add-on that attaches four "facets" to business
records. Each facet is a mixin with its own fields, commands and audit log:

- **Ownership** (`tk.ownable.mixin`) holds an owner, co-owners and the previous owner. Its
  commands are transfer, release, claim and co-owner management.
- **Access** (`tk.accessible.mixin`) has a four-level policy: public, internal, restricted and
  private. Access can be granted to explicit users, to system groups and to custom access
  groups, and a record-wide window limits it in time. `_check_user_access` decides who sees
  the record.
- **Group access** (`tk.accessible.group.mixin`) adds access checks that look only at groups,
  and whole-set operations on the attached custom groups.
- **Assignment** (`tk.assignable.mixin`) holds the assignees, a status, a priority and a
  deadline.
- **Responsibility** (`tk.responsible.mixin`) holds primary and secondary responsible users,
  who delegated, and an optional end date.
- **Custom access groups** (`tk.accessible.group`) are sets of users with their own
  lifecycle. An active group must have at least one member.
- **Example models** show how the facets are used: a project task whose start is gated by its
  dependencies and which drives its assignment, a project that counts its tasks, and a
  document review workflow.

How the model is built:

- Each facet is a Dafny `class` whose fields the commands update in place. Every command
  returns `Ok` or `Fail(error)`, where the error is `AccessError`, `ValidationError(problem)`,
  `NameError` or `ValueError`. `ValueError` is raised when the ORM refuses a log row.
- A failed command leaves the facet untouched and logs nothing. Odoo rolls back the whole
  transaction when a command raises.
- A successful command states its complete new state, including the log rows it appends.
- The Python mixins are combined by multiple inheritance. The model composes them instead: a
  facet holds `const` links to the ownership and access facets of the same record.
  `hasattr(record, 'owner_id')` becomes "the link is not null".
- The identity provider becomes a value `Env(now, users, groups)`: the clock, the users that
  exist, and the system groups that exist. A `User` carries an administrator flag
  (`base.group_system`), an internal-user flag (`base.group_user`) and its system groups.

Files: `identity.dfy` (shared vocabulary), `accessible_group.dfy`, `ownable_mixin.dfy`,
`accessible_mixin.dfy`, `accessible_group_mixin.dfy`, `delegation.dfy` (the permission test
that `can_assign` and `can_delegate` share), `assignable_mixin.dfy`, `responsible_mixin.dfy`
and `example_models.dfy`.

Behaviour of the code that the model follows as written:

- The access window is checked before the administrator, owner and co-owner overrides, so
  nobody has access outside it.
- `can_grant_access` does not include co-owners. `can_manage_groups` does include them.
- `start_assignment` and `complete_assignment` do not check the current status.
- Active responsibility looks only at the primary users. When an end date is set, it must be
  strictly after now.
- The example models raise `ValidationError` but never import it, so every refusal there is
  modelled as `NameError`.
- `reassign_to_users`, `_change_responsibility` and `_change_secondary_responsibility` accept
  an empty list. An empty list leaves an assigned record with no assignees, or a record with
  no primary responsible users.

## Model

| member | source | states |
|---|---|---|
| Identity.SplitByMembership | models/accessible_mixin.py:394-400 | The listed ids split into those already in a set and the others: exactly the intersection and the difference, with lengths adding up to the list's length. |
| Identity.SubsetCardinality | examples/example_models.py:150-158 | A subset is never larger than its superset, and as large only when it is the whole superset. The completed-task count and the active-group count rely on this. |
| AccessGroups.AccessGroup.constructor | models/accessible_group.py:45-49 | A new group is active and satisfies the non-empty-when-active constraint. |
| AccessGroups.AccessGroup.UserCount | models/accessible_group.py:40-43 | The count is zero exactly when the group has no users, and never zero for a valid active group. |
| AccessGroups.AccessGroup.AddUsers | models/accessible_group.py:58-72 | An empty list returns false and changes nothing. Otherwise the members become old ∪ given, and the group then satisfies the constraint, even if it did not before. A valid group stays valid. |
| AccessGroups.AccessGroup.RemoveUsers | models/accessible_group.py:74-87 | An empty list returns false. Otherwise the members become old \ given. A removal that would empty an active group is refused by the constraint and leaves the members as they were. When no listed user is a member nothing is written and the result is true, even for an active group with no users. A valid group stays valid. |
| AccessGroups.AccessGroup.ToggleActiveAsWritten | models/accessible_group.py:95-98 | The active flag flips; nothing is checked. |
| AccessGroups.AccessGroup.ToggleActive | models/accessible_group.py:95-98 | Corrected toggle: it flips the flag unless that would activate a group with no users. The constraint is preserved. |
| AccessGroups.Create | models/accessible_group.py:45-49 | Creating an active group fails exactly when the user list is empty. On success the group is active, valid and has exactly the listed users. |
| AccessGroups.CreateProjectTeamGroup | models/accessible_group.py:100-108 | Creates a group named "Project Team - name" of type project with the given users. It fails exactly when the list is empty. |
| AccessGroups.CreateDepartmentGroup | models/accessible_group.py:110-118 | Creates a group named "Department - name" of type department with the given users. It fails exactly when the list is empty. |
| AccessGroups.ToggleTwiceRestores | models/accessible_group.py:95-98 | Toggling twice restores the active flag. |
| AccessGroups.ToggleActiveBreaksConstraint | models/accessible_group.py:45-49 | Deactivate, remove the last user, toggle: the group ends active with no users. |
| AccessGroups.ToggleActiveKeepsConstraint | models/accessible_group.py:45-49 | With the corrected toggle, the last step of the same sequence is refused and the group stays valid. |
| Ownable.FirstConflictNoneIff | models/ownable_mixin.py:236-240 | The batch check passes exactly when no user in the batch is the owner or a co-owner. |
| Ownable.FirstConflictNamesCoOwner | models/ownable_mixin.py:236-240 | A reported co-owner conflict names a user of the batch who is a co-owner. |
| Ownable.FirstConflict | models/ownable_mixin.py:236-240 | Definition: the first batch user, in order, who is the owner or already a co-owner, with the owner test first. |
| Ownable.FindConflict | models/ownable_mixin.py:236-240 | The validation loop returns the first conflict in batch order, owner test first. |
| Ownable.Ownership.constructor | models/ownable_mixin.py:8-35 | A new record is owned by its creator, with no co-owners and no previous owner. |
| Ownable.Ownership.GetAllOwners | models/ownable_mixin.py:285-291 | The result is exactly the owner and the co-owners. It is empty exactly when the record is not owned (`is_owned`). |
| Ownable.Ownership.IsOwnerOrCoOwner | models/ownable_mixin.py:278-283 | Definition: the user is the owner or a co-owner. |
| Ownable.Ownership.IsOwned | models/ownable_mixin.py:74-78 | Definition: an owner or at least one co-owner. |
| Ownable.Ownership.IsOwnedByMe | models/ownable_mixin.py:110-116 | Definition: the actor is the owner or a co-owner. |
| Ownable.Ownership.CanTransfer | models/ownable_mixin.py:89-104 | Definition: the owner or an administrator; `can_release` is computed the same way. |
| Ownable.Ownership.CoOwnerCount | models/ownable_mixin.py:106-108 | Zero exactly when there are no co-owners. |
| Ownable.Ownership.CanManageCoOwners | models/ownable_mixin.py:81-96 | Whoever may transfer (owner or administrator) may manage co-owners. |
| Ownable.Ownership.TransferOwnership | models/ownable_mixin.py:118-139 | Allowed only for the owner or an administrator, and only to an existing user. The previous owner becomes the old owner, the owner the new one, and exactly one "transfer" row is logged. |
| Ownable.Ownership.ReleaseOwnership | models/ownable_mixin.py:141-158 | Owner or administrator. The owner becomes empty, the previous owner the old owner, and one "release" row is logged. |
| Ownable.Ownership.ClaimOwnership | models/ownable_mixin.py:160-174 | Fails when an owner exists; there is no permission check. Otherwise the owner becomes the actor and the previous owner is untouched. |
| Ownable.Ownership.AddCoOwner | models/ownable_mixin.py:176-197 | Owner, co-owner or administrator. Refuses unknown users, the owner and existing co-owners. On success the user is a co-owner distinct from the owner. |
| Ownable.Ownership.RemoveCoOwner | models/ownable_mixin.py:199-217 | Refuses a non-member. On success only that user leaves the co-owners. |
| Ownable.Ownership.AddMultipleCoOwners | models/ownable_mixin.py:219-253 | All or nothing. The checks run in order: permission, empty list, unknown users, first conflict in the batch. On success co-owners = old ∪ batch, and the owner is not among them. |
| Ownable.Ownership.RemoveAllCoOwners | models/ownable_mixin.py:255-276 | Refused when there are no co-owners. Otherwise the co-owners end empty. |
| Ownable.TransferReleaseClaim | models/ownable_mixin.py:118-174 | After transfer to b, release and claim by c, the owner is c, the previous owner is b, and three rows are logged. |
| Accessible.ParseLevel | models/accessible_mixin.py:9-15 | Exactly the four selection keys name a level, each the level whose key it is. |
| Accessible.Access.constructor | models/accessible_mixin.py:9-15 | A new record is internal, with no grants and no window. |
| Accessible.Access.CheckUserAccess | models/accessible_mixin.py:139-190 | Outside the window (expired, or not yet started) nobody has access, administrators and owners included. Inside it, administrators, the owner and co-owners always have access. Any other user granted on a non-public record is internal, an explicit user, in a shared system group or in an active custom group. |
| Accessible.Access.IsAccessExpired | models/accessible_mixin.py:90-96 | Definition: an end date strictly before now. |
| Accessible.Access.NotYetStarted | models/accessible_mixin.py:146-149 | Definition: a start date strictly after now. |
| Accessible.Access.CustomGroupUsers | models/accessible_mixin.py:107-115 | Definition: the members of the active attached custom groups. |
| Accessible.Access.SystemGroupUsers | models/accessible_mixin.py:98-105 | Definition: the users of the allowed system groups. |
| Accessible.Access.AllAllowedUsers | models/accessible_mixin.py:117-122 | Definition: explicit users ∪ system-group users ∪ custom-group users. |
| Accessible.Access.CanGrantAccess | models/accessible_mixin.py:124-131 | Definition: administrator, owner or explicit user; co-owners are not included. |
| Accessible.AccessLogAlwaysRejected | models/accessible_mixin.py:444-455 | No row written by `_log_access_change` is accepted by `tk.access.log`, whatever its action. Without `target_custom_group_id`, exactly the five actions of the log's selection would be accepted. |
| Accessible.Access.GrantAccessToUserAsWritten | models/accessible_mixin.py:192-213 | As written: the same refusals as the corrected command, and otherwise ValueError from the log row. The record is unchanged in every case. |
| Accessible.Access.CheckUserHasAccess | models/accessible_mixin.py:374-380 | Unknown users have no access, nobody has it outside the window, and administrators have it inside the window. |
| Accessible.Access.ComputeCustomGroupUsers | models/accessible_mixin.py:108-115 | The loop over custom groups computes exactly the members of the active ones. |
| Accessible.Access.ComputeSystemGroupUsers | models/accessible_mixin.py:99-105 | The loop over allowed system groups computes exactly their users. |
| Accessible.Access.GrantAccessToUser | models/accessible_mixin.py:192-213 | Refused with AccessError unless administrator, owner or explicit user, leaving state and log unchanged. Otherwise it inserts the user (idempotent), overwrites the given dates and logs "grant_user". The user then has access to a restricted or private record inside the window. |
| Accessible.Access.RevokeAccessFromUser | models/accessible_mixin.py:215-230 | Same permission. Deletes the user from the explicit users. On a private record such a user then has no access unless an override or an active custom group still grants it. |
| Accessible.Access.GrantAccessToGroup | models/accessible_mixin.py:232-253 | Same permission. Refuses an unknown group, inserts the group, overwrites the given dates and logs "grant_group". |
| Accessible.Access.RevokeAccessFromGroup | models/accessible_mixin.py:255-270 | Same permission. Refuses an unknown group, deletes the group and logs "revoke_group". |
| Accessible.Access.GrantAccessToCustomGroup | models/accessible_mixin.py:272-296 | Same permission. Refuses inactive groups. After a grant, members of the group have access to a restricted or private record inside the window. |
| Accessible.Access.RevokeAccessFromCustomGroup | models/accessible_mixin.py:298-313 | Same permission. Deletes the custom group and logs "revoke_custom_group". |
| Accessible.Access.CreateAndAssignCustomGroup | models/accessible_mixin.py:315-335 | Same permission. An empty list is refused by the group constraint. Otherwise a fresh active group with exactly the listed users and the fixed description is attached and logged. |
| Accessible.Access.SetAccessLevel | models/accessible_mixin.py:337-352 | Same permission. Any text other than the four keys is refused. On success the level's key is the given text. |
| Accessible.Access.SetAccessDuration | models/accessible_mixin.py:354-368 | Same permission. Given dates overwrite the window and absent ones keep it. |
| Accessible.Access.BulkGrantAccessToUsers | models/accessible_mixin.py:382-408 | Refuses an empty list and unknown users. The explicit users become old ∪ listed. A row is logged only when at least one user was new. |
| Accessible.Access.BulkRevokeAccessFromUsers | models/accessible_mixin.py:410-427 | Refuses an empty list. The explicit users become old \ listed. A row is logged only when one of them was present. |
| Accessible.CustomMembership | models/accessible_mixin.py:108-115 | Membership of an active attached custom group is the same as membership of the custom-group users. |
| Accessible.SharedGroupIsGroupUser | models/accessible_mixin.py:99-105 | A user shares a system group with the record exactly when the user is among the allowed group users. |
| Accessible.RestrictedMeansAllowed | models/accessible_mixin.py:167-179 | Restricted, inside the window, for a user who is neither administrator, owner nor co-owner: access holds exactly when the user is explicit, shares a system group, or is in an active custom group. Inactive groups never grant. |
| Accessible.PrivateIgnoresSystemGroups | models/accessible_mixin.py:180-188 | Private, same users: access holds exactly when the user is explicit or in an active custom group. A user who is only in an allowed system group is denied. |
| Accessible.OpenLevels | models/accessible_mixin.py:163-166 | Inside the window, public grants everyone and internal grants exactly the internal users. |
| Accessible.RestrictedGrantScenario | models/accessible_mixin.py:167-213 | After the owner sets the level to restricted, a user without grants is denied. After an explicit grant, that user has access. |
| GroupAccess.AllowedGroupUsers | models/accessible_group_mixin.py:58-74 | The group users contain the system-group users and the active custom-group users, and lie within all allowed users. |
| GroupAccess.GetAllGroupUsers | models/accessible_group_mixin.py:201-218 | Definition: system-group users ∪ members of the attached custom groups, counting inactive groups only when asked to. |
| GroupAccess.CanManageGroups | models/accessible_group_mixin.py:76-84 | Definition: administrator, owner, co-owner or explicit user. |
| GroupAccess.CheckUserGroupAccess | models/accessible_group_mixin.py:220-236 | Definition: the user shares a system group with the record or is in an active attached custom group. |
| GroupAccess.ActiveCustomGroupsCount | models/accessible_group_mixin.py:86-91 | The count never exceeds the attached groups, and is positive exactly when one of them is active. |
| GroupAccess.ActiveGroupWitness | models/accessible_group_mixin.py:86-91 | The active attached groups form a non-empty set exactly when some attached group is active. |
| GroupAccess.GrantImpliesManage | models/accessible_group_mixin.py:76-84 | Whoever may grant access may manage groups. A co-owner who is not otherwise privileged may manage groups but not grant access. |
| GroupAccess.GroupUsersAgree | models/accessible_group_mixin.py:201-218 | `get_all_group_users()` equals the computed group users, and including inactive groups only adds to it. |
| GroupAccess.GroupAccessIsGroupUser | models/accessible_group_mixin.py:220-236 | Access through groups holds exactly when the user shares a system group or is in an active attached custom group, that is, when the user is among the group users. |
| GroupAccess.AddCustomAccessGroup | models/accessible_group_mixin.py:99-119 | Refuses inactive groups. Adding is idempotent and logs only when the group was actually added. Afterwards its members are custom-group users. |
| GroupAccess.RemoveCustomAccessGroup | models/accessible_group_mixin.py:121-139 | Removing a group that is not attached changes nothing and logs nothing. |
| GroupAccess.ReplaceCustomAccessGroups | models/accessible_group_mixin.py:141-171 | All or nothing: any inactive group aborts with no change. On success the attached set equals the given set, and all of it is active. |
| GroupAccess.ClearAllCustomGroups | models/accessible_group_mixin.py:173-191 | Leaves no group attached and no custom-group users. Logs nothing when there was nothing attached. |
| Delegation.EligibleCases | models/assignable_mixin.py:103-153 | Administrators pass the test and users without basic permission fail it. Without access control, on public or internal records, and on unowned records, the test is exactly basic permission. |
| Delegation.Eligible | models/assignable_mixin.py:103-153 | Definition of the test `can_assign` and `can_delegate` share: basic permission, and the actor holds the record, has ownership standing, has access standing, or is an administrator. |
| Delegation.PrivateNeedsOwnership | models/assignable_mixin.py:126-130 | On a private record owned by someone else, only holding the record or being an administrator passes; an explicit grant does not help. |
| Delegation.RestrictedAccessGivesEligibility | models/assignable_mixin.py:131-145 | On a restricted record, a user with basic permission whom the access evaluation admits passes the test. |
| Assignable.Assignment.constructor | models/assignable_mixin.py:49-65 | A new record is unassigned with normal priority and no assignees. |
| Assignable.Assignment.AssignedUserCount | models/assignable_mixin.py:79-96 | Zero exactly when the record is not assigned (`is_assigned`). |
| Assignable.Assignment.IsAssigned | models/assignable_mixin.py:78-81 | Definition: at least one assignee. |
| Assignable.Assignment.IsOverdue | models/assignable_mixin.py:83-91 | Definition: a deadline strictly before now on work that is assigned or in progress. |
| Assignable.Assignment.IsAssignedToMe | models/assignable_mixin.py:98-101 | Definition: the actor is an assignee. |
| Assignable.Assignment.CanAssign | models/assignable_mixin.py:103-153 | Definition: the shared delegation test, where holding the record means being an assignee. |
| Assignable.Assignment.AssignToUsers | models/assignable_mixin.py:155-192 | Administrators bypass `can_assign`. The list must be non-empty and known. The assignees become exactly the listed users, with status assigned, the actor as assigner, and the given priority. Deadline and description are overwritten only when provided. A past deadline makes the record overdue. |
| Assignable.Assignment.AddAssignee | models/assignable_mixin.py:194-217 | Idempotent. The first assignee sets status assigned, assigner and date. An already present user changes nothing and logs nothing. |
| Assignable.Assignment.RemoveAssignee | models/assignable_mixin.py:219-238 | Removing the last assignee sets status unassigned. Removing a non-member changes nothing and logs nothing. |
| Assignable.Assignment.ReassignToUsers | models/assignable_mixin.py:240-264 | No administrator bypass and no empty-list check. The assignees become exactly the listed users, with status assigned. |
| Assignable.Assignment.UnassignAll | models/assignable_mixin.py:266-282 | Leaves no assignees, status unassigned, not overdue. |
| Assignable.Assignment.StartAssignment | models/assignable_mixin.py:284-294 | Only an assignee or an administrator. Sets in progress whatever the previous status. Overdue then depends only on the deadline. |
| Assignable.Assignment.CompleteAssignment | models/assignable_mixin.py:296-306 | Only an assignee or an administrator. Sets completed whatever the previous status, and completed work is not overdue. |
| Assignable.Assignment.CancelAssignment | models/assignable_mixin.py:308-323 | Leaves no assignees and status cancelled. |
| Assignable.AddAssigneeTwice | models/assignable_mixin.py:194-217 | Adding the same user twice: both calls succeed and the second logs nothing. |
| Responsible.Responsibility.constructor | models/responsible_mixin.py:27-31 | Responsibility starts now, with nobody responsible. |
| Responsible.Responsibility.ResponsibilityCount | models/responsible_mixin.py:93-95 | Zero exactly when there are no primary users. |
| Responsible.Responsibility.SecondaryResponsibilityCount | models/responsible_mixin.py:98-100 | Zero exactly when there are no secondary users. |
| Responsible.ExpiryAndActivity | models/responsible_mixin.py:75-90 | Expired responsibility is never active. At the end date itself it is neither. Without primary users it is never active, and secondary users play no part. |
| Responsible.Responsibility.AssignResponsibility | models/responsible_mixin.py:157-191 | Administrators bypass `can_delegate`. The list must be non-empty and known. The primary users become exactly the listed users and the delegator is the actor. The secondary users stay. End date and description are overwritten only if provided. |
| Responsible.Responsibility.AssignSecondaryResponsibility | models/responsible_mixin.py:193-221 | Same checks. Only the secondary users change. |
| Responsible.Responsibility.ChangeResponsibility | models/responsible_mixin.py:239-262 | `can_delegate` only, with no empty-list check. The primary users become exactly the listed users, with the actor as delegator; the secondary users stay. |
| Responsible.Responsibility.ChangeSecondaryResponsibility | models/responsible_mixin.py:264-285 | Only the secondary users change. |
| Responsible.Responsibility.DelegateResponsibility | models/responsible_mixin.py:223-225 | AccessError without `can_delegate`, ValidationError for unknown users, otherwise Ok. On success the primary users are the listed ones, the actor is the delegator, the start date is now, and "delegate_multiple" is logged. A failure changes nothing. |
| Responsible.Responsibility.TransferResponsibility | models/responsible_mixin.py:227-229 | The same as delegation, logged as "transfer_multiple". |
| Responsible.Responsibility.DelegateSecondaryResponsibility | models/responsible_mixin.py:231-233 | AccessError without `can_delegate`, ValidationError for unknown users, otherwise Ok. On success only the secondary users change, to the listed ones, and "delegate_secondary_multiple" is logged. A failure changes nothing. |
| Responsible.Responsibility.TransferSecondaryResponsibility | models/responsible_mixin.py:235-237 | The same as secondary delegation, logged as "transfer_secondary_multiple". |
| Responsible.Responsibility.ChangeSecondaryResponsibilityAsWritten | models/responsible_mixin.py:264-285 | As written: after the same refusals, an action the responsibility log's selection does not list raises ValueError and changes nothing. The delegate and transfer actions of the secondary list always fail this way. |
| Responsible.Responsibility.IsResponsibilityActive | models/responsible_mixin.py:74-81 | Definition: some primary user, and no end date or one strictly after now. |
| Responsible.Responsibility.IsResponsibilityExpired | models/responsible_mixin.py:83-90 | Definition: an end date strictly before now. |
| Responsible.Responsibility.CanDelegate | models/responsible_mixin.py:102-155 | Definition: the shared delegation test, where holding the record means being a primary or secondary responsible user. |
| Responsible.Responsibility.AddResponsibleUser | models/responsible_mixin.py:287-305 | Idempotent insertion into the chosen set, leaving the other set alone. A row is logged only when membership changed. |
| Responsible.Responsibility.RemoveResponsibleUser | models/responsible_mixin.py:307-325 | Idempotent deletion from the chosen set. A row is logged only when membership changed. |
| Responsible.Responsibility.RevokeAllResponsibility | models/responsible_mixin.py:327-345 | Both sets end empty and responsibility is inactive. A row is logged only when either set had users. |
| Responsible.Responsibility.EscalateResponsibility | models/responsible_mixin.py:347-373 | The primary users become exactly {target} and the secondary users are emptied, with the actor as delegator. |
| Responsible.RevokeAllTwice | models/responsible_mixin.py:327-345 | A second revoke writes nothing. It is either a no-op success or refused, because the actor no longer holds the record. |
| Examples.Task.constructor | examples/example_models.py:19-25 | A new task is a draft. |
| Examples.Task.IsBlocked | examples/example_models.py:71-74 | Definition: some dependency is neither done nor cancelled. |
| Examples.Task.CanStart | examples/example_models.py:71-79 | A task can start exactly when it is a draft and every dependency is done or cancelled. |
| Examples.BlockingDecidesStart | examples/example_models.py:71-79 | An unfinished dependency blocks the start; once the only dependency is finished, a draft task can start. |
| Examples.Task.ActionStartTask | examples/example_models.py:81-91 | Fails unless the task can start. Otherwise the task is in progress and its assignment is started. A refusal from the assignment undoes the action. |
| Examples.Task.ActionCompleteTask | examples/example_models.py:93-103 | Only from in progress. Then the task is done and its assignment completed, or nothing changes. |
| Examples.Task.ActionReviewTask | examples/example_models.py:105-110 | In progress to review only. |
| Examples.Project.CompletedTaskCount | examples/example_models.py:150-158 | Never more than the task count, and equal to it exactly when every task is done. |
| Examples.Project.TaskCount | examples/example_models.py:150-158 | Definition: the number of tasks. |
| Examples.Document.constructor | examples/example_models.py:202-207 | A new document is a draft. |
| Examples.Document.ActionSubmitForReview | examples/example_models.py:214-218 | Draft to review only; any other status is refused and kept. |
| Examples.Document.ActionApprove | examples/example_models.py:220-224 | Review to approved only; any other status is refused and kept. |
| Examples.DocumentWorkflow | examples/example_models.py:214-224 | A draft cannot be approved directly. After submit and approve, neither action applies any more. |

## Left out

- Wizards, the dashboard, `__manifest__.py` and `models/__init__.py` are not part of this model. They are user interface and ORM aggregation.
- The log models are reduced to the rows the commands append: action, users or target, reason, actor, date. Their display names, record references and `extra_info` text are left out.
- Accessible.Access.GrantAccessToUser, RevokeAccessFromUser, GrantAccessToGroup, RevokeAccessFromGroup, GrantAccessToCustomGroup, RevokeAccessFromCustomGroup, CreateAndAssignCustomGroup, SetAccessLevel, SetAccessDuration, BulkGrantAccessToUsers and BulkRevokeAccessFromUsers model the corrected commands of the first finding below. As written, each of them raises ValueError and is rolled back whenever it would log a row, where the model returns Ok. The as-written behaviour is modelled only for GrantAccessToUser, as GrantAccessToUserAsWritten; Accessible.AccessLogAlwaysRejected shows that every other row is refused too.
- The access log's selection also omits most actions the access commands write: "grant_custom_group", "revoke_custom_group", "create_assign_custom_group", "change_duration", "bulk_grant_users", "bulk_revoke_users", "add_custom_group", "remove_custom_group", "replace_custom_groups" and "clear_custom_groups". Adding the missing field would therefore still leave GrantAccessToCustomGroup, RevokeAccessFromCustomGroup, CreateAndAssignCustomGroup, SetAccessDuration, both Bulk commands and the four group-mixin commands failing. The model logs these actions as if they were listed.
- GroupAccess.AddCustomAccessGroup, GroupAccess.RemoveCustomAccessGroup, GroupAccess.ReplaceCustomAccessGroups and GroupAccess.ClearAllCustomGroups: the group mixin's log calls pass their arguments shifted, with a recordset in the place of the reason. Remove, replace and clear pass the old users as the target; with two or more users, reading the target's id raises "expected singleton" before any row is created. Otherwise the row is refused as in the first finding. As written, these commands therefore fail whenever they log. The model is the corrected behaviour: one row with no target and the given reason.
- Responsible.Responsibility.AssignSecondaryResponsibility, DelegateSecondaryResponsibility and TransferSecondaryResponsibility model the corrected commands of the second finding below. As written, each raises ValueError and is rolled back whenever it succeeds, because its log action is not in the responsibility log's selection. The as-written behaviour is modelled as ChangeSecondaryResponsibilityAsWritten. The as-written assign command, which logs "assign_secondary_multiple", has no twin.
- The ownership log's reason text built by string formatting in `add_multiple_co_owners` is not modelled; the given reason is logged.
- `_search_*` methods build ORM domains; they are left out.
- The identity provider (`has_group`, `groups_id`, `exists()`, `browse`) is the `Env` value. Custom groups are passed as objects, so the `exists()` checks on custom groups always pass; the "Invalid access group specified" errors and `get_users_from_group` are not modelled.
- A single id passed where a list is expected (`[user_ids] if user_ids else []`) is not modelled. The commands take sequences of ids.
- The `assignment_priority` selection is an enum here. Validation of priority strings is left out.
- Wall-clock time is the explicit `now` parameter, and dates are integers.
- Float progress percentages in the example models are left out, along with `progress = 100` on completion.
- `@api.depends` recomputation and `store=True` caching are left out; computed fields are functions of the current state.
- `tk.accessible.mixin` and `tk.accessible.group.mixin` both define `_compute_allowed_group_users_ids`. Both definitions are modelled: Accessible.Access.SystemGroupUsers and GroupAccess.AllowedGroupUsers. Which one Odoo's method resolution picks on a given model is not modelled.
- `get_group_access_summary` and the `action_*` window actions of the group mixin return UI dictionaries; they are left out.
- Project milestones have no behaviour beyond their facets; they are not modelled separately.

## Findings

| source | as written | input that shows it | evidently intended | confidence | as-written member | corrected member |
|---|---|---|---|---|---|---|
| models/accessible_group.py:95-98 | `toggle_active` flips `active` without any check. The `_check_user_ids` constraint is declared on `user_ids` only, so it does not run when only `active` is written. | An active group with one user: deactivate it, remove that user (allowed while inactive), then toggle again. The group is active with no users. | An active group never has an empty member set (models/accessible_group.py:45-49), so activating an empty group should be refused. | medium, not executed | AccessGroups.ToggleActiveBreaksConstraint | AccessGroups.AccessGroup.ToggleActive |
| models/accessible_mixin.py:444-455 | `_log_access_change` creates every row with the key `target_custom_group_id`. `tk.access.log` declares no such field (models/access_log.py:10-66), and Odoo's `create` raises ValueError for an unknown field. Every access command that logs is therefore rolled back. | The owner grants a known user access on a restricted record: `grant_access_to_user` raises instead of granting. | Each command commits its change together with its log row, because the log declares every field it is given. | medium, not executed | Accessible.Access.GrantAccessToUserAsWritten | Accessible.Access.GrantAccessToUser |
| models/responsible_mixin.py:231-237 | `delegate_secondary_responsibility` and `transfer_secondary_responsibility` log the actions "delegate_secondary_multiple" and "transfer_secondary_multiple". The responsibility log's selection (models/responsibility_log.py:20-34) lists neither, and the ORM raises ValueError for an unlisted selection value. | A user who may delegate passes a list of known users to `delegate_secondary_responsibility`: the call raises and the secondary users stay as they were. | The secondary users become the listed ones and the change is logged, as for the primary list. | medium, not executed | Responsible.Responsibility.ChangeSecondaryResponsibilityAsWritten | Responsible.Responsibility.DelegateSecondaryResponsibility |
