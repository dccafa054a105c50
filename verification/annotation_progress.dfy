/** The annotation progress bar: task search by uuid, the "#" position of
    the current task and the counts it displays
    (front/src/lib/components/annotation/AnnotationProgress.tsx). */
module AnnotationProgress {
  import opened Wrappers
  import opened AnnotationTasks

  /** What the search box submits: the typed text, or a form event object,
      which is never strictly equal to a uuid string. */
  datatype SearchInput = Text(query: string) | FormEvent

  /** The observable outcome of a search: navigating to a task through
      `onGoToTask`, or an error notice. */
  datatype Effect = GoToTask(task: AnnotationTask) | ErrorToast(message: string)

  const TaskNotFound: string := "Task not found"

  /** Index of the first task whose uuid is `query` (`Array.find`). */
  function FindIndex(tasks: seq<AnnotationTask>, query: string): (r: Option<nat>)
    ensures r.None? <==> forall i :: 0 <= i < |tasks| ==> tasks[i].uuid != query
    ensures r.Some? ==>
              && r.value < |tasks| && tasks[r.value].uuid == query
              && forall j :: 0 <= j < r.value ==> tasks[j].uuid != query
  {
    if |tasks| == 0 then None
    else if tasks[0].uuid == query then Some(0)
    else
      match FindIndex(tasks[1..], query)
      case None => None
      case Some(k) => Some(k + 1)
  }

  /** handleSearch. A miss raises the "Task not found" notice and goes
      nowhere; a hit calls `onGoToTask`, when one is given, exactly once
      with the first task whose uuid equals the query. */
  function HandleSearch(tasks: seq<AnnotationTask>, input: SearchInput, hasOnGoToTask: bool): (effects: seq<Effect>)
    ensures input.FormEvent? ==> effects == [ErrorToast(TaskNotFound)]
    ensures input.Text? && (forall i :: 0 <= i < |tasks| ==> tasks[i].uuid != input.query) ==>
              effects == [ErrorToast(TaskNotFound)]
    ensures input.Text? && (exists i :: 0 <= i < |tasks| && tasks[i].uuid == input.query) ==>
              exists k :: && 0 <= k < |tasks| && tasks[k].uuid == input.query
                          && (forall j :: 0 <= j < k ==> tasks[j].uuid != input.query)
                          && effects == (if hasOnGoToTask then [GoToTask(tasks[k])] else [])
  {
    var found := match input
      case Text(q) => FindIndex(tasks, q)
      case FormEvent => None;
    match found
    case None => [ErrorToast(TaskNotFound)]
    case Some(k) => if hasOnGoToTask then [GoToTask(tasks[k])] else []
  }

  /** A task as a JavaScript object: its identity and its fields. Two
      objects with equal fields but different identities are different
      objects to `===`. */
  datatype TaskObject = TaskObject(ref: nat, task: AnnotationTask)

  /** `Array.indexOf`: the first position holding the very object
      `current` (strict equality on objects is identity), or -1. */
  function IndexOf(objects: seq<TaskObject>, current: TaskObject): (r: int)
    ensures -1 <= r < |objects|
    ensures r == -1 <==> forall j :: 0 <= j < |objects| ==> objects[j].ref != current.ref
    ensures 0 <= r ==> objects[r].ref == current.ref && forall j :: 0 <= j < r ==> objects[j].ref != current.ref
  {
    if |objects| == 0 then -1
    else if objects[0].ref == current.ref then 0
    else
      var k := IndexOf(objects[1..], current);
      if k == -1 then -1 else k + 1
  }

  /** The "#" label, `currentTask != null && tasks.indexOf(currentTask) + 1`:
      nothing without a current task, otherwise the 1-based position of
      that object, and 0 when the list does not hold it. */
  function PositionLabel(objects: seq<TaskObject>, current: Option<TaskObject>): (shown: Option<nat>)
    ensures current.None? <==> shown.None?
    ensures current.Some? ==> shown.value <= |objects|
    ensures current.Some? ==> (shown.value == 0 <==> forall j :: 0 <= j < |objects| ==> objects[j].ref != current.value.ref)
    ensures current.Some? && shown.value > 0 ==>
              && objects[shown.value - 1].ref == current.value.ref
              && forall j :: 0 <= j < shown.value - 1 ==> objects[j].ref != current.value.ref
  {
    match current
    case None => None
    case Some(t) => Some(IndexOf(objects, t) + 1)
  }

  /** A current task fetched on its own is a separate object: even when a
      listed task has exactly its fields, the label shows 0. */
  lemma SeparateCopyShowsZero(objects: seq<TaskObject>, current: TaskObject)
    requires forall j :: 0 <= j < |objects| ==> objects[j].ref != current.ref
    ensures PositionLabel(objects, Some(current)) == Some(0)
  {
  }

  /** When the current task is one of the listed objects, and no object is
      listed twice, the label is that object's 1-based position. */
  lemma ListedObjectShowsItsPosition(objects: seq<TaskObject>, k: nat)
    requires k < |objects|
    requires forall i, j :: 0 <= i < j < |objects| ==> objects[i].ref != objects[j].ref
    ensures PositionLabel(objects, Some(objects[k])) == Some(k + 1)
  {
  }

  /** Props handed to the ProgressBar. */
  datatype ProgressBarProps = ProgressBarProps(error: nat, verified: nat, complete: nat, total: nat)

  /** The counts on screen: "Remaining: missing/total" and the bar. */
  datatype ProgressDisplay = ProgressDisplay(remaining: nat, total: nat, bar: ProgressBarProps)

  /** The summary is consumed unchanged: remaining is the number of tasks
      with no completed badge, the bar's error segment the rejected tasks,
      and its complete and verified segments the unrejected ones. */
  function RenderProgress(tasks: seq<AnnotationTask>): (d: ProgressDisplay)
    ensures d.total == d.bar.total == |tasks|
    ensures d.remaining == Count(tasks, IsMissing)
    ensures d.bar.error == Count(tasks, NeedsReview)
    ensures d.bar.complete == Count(tasks, CountsCompleted)
    ensures d.bar.verified == Count(tasks, CountsVerified)
  {
    var p := ComputeAnnotationTasksProgress(tasks);
    ProgressDisplay(p.missing, p.total, ProgressBarProps(p.needReview, p.verified, p.completed, p.total))
  }
}
