/** The example models built on the facets: a project task whose state
    machine is gated by its dependencies and drives its assignment, a
    project that counts its tasks, and a document review workflow. The
    module these models live in raises `ValidationError` without importing
    it, so every refusal below is a `NameError`. */
module Examples {
  import opened Identity
  import Assignable

  datatype TaskState = Draft | InProgress | Review | Done | Cancelled

  datatype DocumentStatus = DocDraft | DocReview | Approved | Archived

  /** A task is finished for its dependants when done or cancelled. */
  predicate Finished(s: TaskState)
  {
    s == Done || s == Cancelled
  }

  class Task {
    var state: TaskState
    var dependsOn: set<Task>
    /** The assignment facet of the same task. */
    const assignment: Assignable.Assignment

    constructor (assignment: Assignable.Assignment)
      ensures state == Draft && dependsOn == {} && this.assignment == assignment
    {
      state := Draft;
      dependsOn := {};
      this.assignment := assignment;
    }

    /** `is_blocked`: some dependency is neither done nor cancelled. */
    predicate IsBlocked()
      reads this, dependsOn
    {
      exists d :: d in dependsOn && !Finished(d.state)
    }

    /** `can_start`: a draft task whose dependencies are all done or cancelled. */
    predicate CanStart(): (ok: bool)
      reads this, dependsOn
      ensures ok <==> state == Draft && forall d :: d in dependsOn ==> Finished(d.state)
    {
      !IsBlocked() && state == Draft
    }

    /** `action_start_task`: refused unless the task can start; then the task
        is in progress and its assignment is started too. A refusal of the
        assignment (the actor is neither assignee nor administrator) undoes
        the whole action. */
    method ActionStartTask(actor: User, now: int) returns (r: Outcome)
      requires assignment.Valid()
      modifies this`state, assignment`status, assignment`log
      ensures assignment.Valid()
      ensures r == (if !old(CanStart()) then Fail(NameError)
                    else if actor.id !in assignment.assignedUsers && !actor.isAdmin then Fail(AccessError)
                    else Ok)
      ensures r.Ok? ==> state == InProgress && assignment.status == Assignable.InProgress
      ensures r.Ok? ==> assignment.log == old(assignment.log) + [Assignable.AssignmentLog("start", {}, {actor.id}, "Task started", actor.id, now)]
      ensures r.Fail? ==> state == old(state) && unchanged(assignment)
    {
      if !CanStart() {
        return Fail(NameError);
      }
      r := assignment.StartAssignment(actor, now, "Task started");
      if r.Ok? {
        state := InProgress;
      }
    }

    /** `action_complete_task`: only a task in progress; then it is done and
        its assignment completed, or nothing happens if the assignment
        refuses. */
    method ActionCompleteTask(actor: User, now: int) returns (r: Outcome)
      requires assignment.Valid()
      modifies this`state, assignment`status, assignment`log
      ensures assignment.Valid()
      ensures r == (if old(state) != InProgress then Fail(NameError)
                    else if actor.id !in assignment.assignedUsers && !actor.isAdmin then Fail(AccessError)
                    else Ok)
      ensures r.Ok? ==> state == Done && assignment.status == Assignable.Completed && !assignment.IsOverdue(now)
      ensures r.Ok? ==> assignment.log == old(assignment.log) + [Assignable.AssignmentLog("complete", {}, {actor.id}, "Task completed", actor.id, now)]
      ensures r.Fail? ==> state == old(state) && unchanged(assignment)
    {
      if state != InProgress {
        return Fail(NameError);
      }
      r := assignment.CompleteAssignment(actor, now, "Task completed");
      if r.Ok? {
        state := Done;
      }
    }

    /** `action_review_task`: in progress to review; the assignment is not touched. */
    method ActionReviewTask() returns (r: Outcome)
      modifies this`state
      ensures r == (if old(state) == InProgress then Ok else Fail(NameError))
      ensures state == (if r.Ok? then Review else old(state))
    {
      if state != InProgress {
        return Fail(NameError);
      }
      state := Review;
      return Ok;
    }
  }

  /** A task that depends on an unfinished task cannot start, and once every
      dependency is finished a draft task can. */
  lemma BlockingDecidesStart(t: Task, d: Task)
    requires d in t.dependsOn
    ensures !Finished(d.state) ==> t.IsBlocked() && !t.CanStart()
    ensures t.dependsOn == {d} && Finished(d.state) && t.state == Draft ==> t.CanStart()
  {
  }

  class Project {
    var tasks: set<Task>

    constructor ()
      ensures tasks == {}
    {
      tasks := {};
    }

    /** `task_count` */
    function TaskCount(): nat
      reads this
    {
      |tasks|
    }

    /** `completed_task_count`: never more than the tasks, and equal to them
        exactly when every task is done. */
    function CompletedTaskCount(): (n: nat)
      reads this, tasks
      ensures n <= TaskCount()
      ensures n == TaskCount() <==> forall t :: t in tasks ==> t.state == Done
    {
      var done := set t | t in tasks && t.state == Done;
      SubsetCardinality(done, tasks);
      |done|
    }
  }

  class Document {
    var status: DocumentStatus

    constructor ()
      ensures status == DocDraft
    {
      status := DocDraft;
    }

    /** `action_submit_for_review`: draft to review only. */
    method ActionSubmitForReview() returns (r: Outcome)
      modifies this`status
      ensures r == (if old(status) == DocDraft then Ok else Fail(NameError))
      ensures status == (if r.Ok? then DocReview else old(status))
    {
      if status != DocDraft {
        return Fail(NameError);
      }
      status := DocReview;
      return Ok;
    }

    /** `action_approve`: review to approved only. */
    method ActionApprove() returns (r: Outcome)
      modifies this`status
      ensures r == (if old(status) == DocReview then Ok else Fail(NameError))
      ensures status == (if r.Ok? then Approved else old(status))
    {
      if status != DocReview {
        return Fail(NameError);
      }
      status := Approved;
      return Ok;
    }
  }

  /** The review workflow: a new document cannot be approved directly; it is
      approved after being submitted, and then neither action applies. */
  method DocumentWorkflow() returns (doc: Document, early: Outcome, resubmit: Outcome, reapprove: Outcome)
    ensures early == Fail(NameError)
    ensures resubmit.Fail? && reapprove.Fail? && doc.status == Approved
  {
    doc := new Document();
    early := doc.ActionApprove();
    var r1 := doc.ActionSubmitForReview();
    var r2 := doc.ActionApprove();
    resubmit := doc.ActionSubmitForReview();
    reapprove := doc.ActionApprove();
  }
}
