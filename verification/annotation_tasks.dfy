/** Status classification of a single annotation task and the progress
    summary over a list of tasks (front/src/lib/utils/annotation_tasks.ts). */
module AnnotationTasks {
  import opened Wrappers

  /** The statuses a review badge can record. */
  datatype AnnotationStatus = Completed | Verified | Rejected | Assigned

  /** A badge state string the classifier's switch has no case for. */
  type UnrecognisedName = s: string | s !in {"completed", "verified", "rejected", "assigned"} witness ""

  /** The `state` of a badge as it arrives at run time: one of the known
      statuses, or any other string, which the classifier's switch ignores.
      Each string has exactly one encoding. */
  datatype BadgeState = Known(status: AnnotationStatus) | Unrecognised(name: UnrecognisedName)

  datatype StatusBadge = StatusBadge(state: BadgeState)

  /** A task as far as the classifier sees it: its uuid and its optional
      list of status badges (`status_badges` may be absent). */
  datatype AnnotationTask = AnnotationTask(uuid: string, statusBadges: Option<seq<StatusBadge>>)

  /** The displayed status: one of the badge statuses or "pending". */
  datatype TaskStatus = Pending | Status(status: AnnotationStatus)

  /** The three booleans both functions of the source accumulate per task. */
  datatype Flags = Flags(isVerified: bool, isCompleted: bool, needsReview: bool)

  /** The four running counters of the aggregation loop. */
  datatype Counters = Counters(missing: nat, needReview: nat, completed: nat, verified: nat)

  datatype ProgressSummary = ProgressSummary(missing: nat, needReview: nat, completed: nat, verified: nat, total: nat)

  /** The badges of a task, an absent list read as empty. */
  function Badges(task: AnnotationTask): seq<StatusBadge> {
    task.statusBadges.GetOr([])
  }

  /** Reference definition: some badge of `badges` records `s`. */
  predicate Occurs(badges: seq<StatusBadge>, s: AnnotationStatus) {
    exists i :: 0 <= i < |badges| && badges[i].state == Known(s)
  }

  predicate HasState(task: AnnotationTask, s: AnnotationStatus) {
    Occurs(Badges(task), s)
  }

  /** The set of badge states a list carries, forgetting order and repetition. */
  function StatesOf(badges: seq<StatusBadge>): set<BadgeState> {
    set i | 0 <= i < |badges| :: badges[i].state
  }

  /** One step of the `forEach`/`switch`: a known verified, rejected or
      completed state raises its flag; "assigned" and unrecognised states
      fall through. */
  function Mark(f: Flags, state: BadgeState): Flags {
    match state
    case Known(Verified) => f.(isVerified := true)
    case Known(Rejected) => f.(needsReview := true)
    case Known(Completed) => f.(isCompleted := true)
    case _ => f
  }

  /** The badge scan, left to right, starting with every flag false. */
  function Scan(badges: seq<StatusBadge>): (f: Flags)
    ensures f.isVerified <==> Occurs(badges, Verified)
    ensures f.isCompleted <==> Occurs(badges, Completed)
    ensures f.needsReview <==> Occurs(badges, Rejected)
  {
    if |badges| == 0 then Flags(false, false, false)
    else
      var init := badges[..|badges| - 1];
      assert forall i :: 0 <= i < |init| ==> init[i] == badges[i];
      Mark(Scan(init), badges[|badges| - 1].state)
  }

  /** getAnnotationTaskStatus: precedence rejected, verified, completed,
      pending; a missing or empty badge list is pending. */
  function GetAnnotationTaskStatus(task: AnnotationTask): (r: TaskStatus)
    ensures r == Status(Rejected) <==> HasState(task, Rejected)
    ensures r == Status(Verified) <==> !HasState(task, Rejected) && HasState(task, Verified)
    ensures r == Status(Completed) <==>
              !HasState(task, Rejected) && !HasState(task, Verified) && HasState(task, Completed)
    ensures r == Pending <==>
              !HasState(task, Rejected) && !HasState(task, Verified) && !HasState(task, Completed)
    ensures r != Status(Assigned)
  {
    match task.statusBadges
    case None => Pending
    case Some(badges) =>
      if |badges| == 0 then Pending
      else
        var f := Scan(badges);
        if f.needsReview then Status(Rejected)
        else if f.isVerified then Status(Verified)
        else if f.isCompleted then Status(Completed)
        else Pending
  }

  /** Number of tasks of `tasks` that satisfy `p`. */
  function Count(tasks: seq<AnnotationTask>, p: AnnotationTask -> bool): (n: nat)
    ensures n <= |tasks|
  {
    if |tasks| == 0 then 0
    else Count(tasks[..|tasks| - 1], p) + (if p(tasks[|tasks| - 1]) then 1 else 0)
  }

  /** The categories the progress summary counts. They overlap on purpose:
      a rejected task is never counted completed or verified, but it is
      missing exactly when it has no completed badge. */
  predicate IsMissing(task: AnnotationTask) {
    !HasState(task, Completed)
  }

  predicate NeedsReview(task: AnnotationTask) {
    HasState(task, Rejected)
  }

  predicate CountsCompleted(task: AnnotationTask) {
    HasState(task, Completed) && !HasState(task, Rejected)
  }

  predicate CountsVerified(task: AnnotationTask) {
    HasState(task, Verified) && !HasState(task, Rejected)
  }

  /** The four counters of the loop, as a fold over the task list in order. */
  function Tally(tasks: seq<AnnotationTask>): (c: Counters)
    ensures c.missing == Count(tasks, IsMissing)
    ensures c.needReview == Count(tasks, NeedsReview)
    ensures c.completed == Count(tasks, CountsCompleted)
    ensures c.verified == Count(tasks, CountsVerified)
  {
    if |tasks| == 0 then Counters(0, 0, 0, 0)
    else
      var prev := Tally(tasks[..|tasks| - 1]);
      var f := Scan(Badges(tasks[|tasks| - 1]));
      Counters(
        prev.missing + (if !f.isCompleted then 1 else 0),
        prev.needReview + (if f.needsReview then 1 else 0),
        prev.completed + (if f.isCompleted && !f.needsReview then 1 else 0),
        prev.verified + (if f.isVerified && !f.needsReview then 1 else 0))
  }

  /** computeAnnotationTasksProgress: the overlapping counts, with `total`
      the length of the list. */
  function ComputeAnnotationTasksProgress(tasks: seq<AnnotationTask>): (p: ProgressSummary)
    ensures p.total == |tasks|
    ensures p.missing == Count(tasks, IsMissing)
    ensures p.needReview == Count(tasks, NeedsReview)
    ensures p.completed == Count(tasks, CountsCompleted)
    ensures p.verified == Count(tasks, CountsVerified)
  {
    var c := Tally(tasks);
    ProgressSummary(c.missing, c.needReview, c.completed, c.verified, |tasks|)
  }
}
