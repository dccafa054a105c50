/** The task map: one coloured bullet per task, the current task's bullet
    marked active (front/src/lib/components/annotation_tasks/AnnotationTaskBulletList.tsx). */
module AnnotationTaskBulletList {
  import opened Wrappers
  import opened AnnotationTasks

  /** What a bullet shows: "active" for the current task, otherwise the
      task's classified status. */
  datatype BulletStatus = Active | Classified(status: TaskStatus)

  /** The button colour variants the table uses. */
  datatype Variant = Primary | Secondary | Warning | Danger | Info

  /** STATUS_TO_VARIANT. */
  const StatusToVariant: map<BulletStatus, Variant> := map[
    Classified(Pending) := Secondary,
    Classified(Status(Assigned)) := Secondary,
    Classified(Status(Completed)) := Primary,
    Classified(Status(Verified)) := Warning,
    Classified(Status(Rejected)) := Danger,
    Active := Info
  ]

  /** Every status a bullet can show has a row in the table, so the
      "secondary" fallback never fires. */
  lemma TableCoversEveryStatus(status: BulletStatus)
    ensures status in StatusToVariant
  {
    match status
    case Active =>
    case Classified(Pending) =>
    case Classified(Status(s)) =>
      match s
      case Completed =>
      case Verified =>
      case Rejected =>
      case Assigned =>
  }

  /** The table lookup with the `|| "secondary"` fallback: info only for the
      active bullet, danger, warning and primary for rejected, verified and
      completed, and secondary for pending and assigned. */
  function BulletVariant(status: BulletStatus): (v: Variant)
    ensures v == Info <==> status == Active
    ensures v == Danger <==> status == Classified(Status(Rejected))
    ensures v == Warning <==> status == Classified(Status(Verified))
    ensures v == Primary <==> status == Classified(Status(Completed))
    ensures v == Secondary <==> status == Classified(Pending) || status == Classified(Status(Assigned))
  {
    TableCoversEveryStatus(status);
    if status in StatusToVariant then StatusToVariant[status] else Secondary
  }

  /** One rendered bullet: the task it stands for (and hands to the click
      handler), its status, its colour and whether the button is disabled. */
  datatype Bullet = Bullet(task: AnnotationTask, status: BulletStatus, variant: Variant, disabled: bool)

  /** AnnotationTaskBullet: an active bullet shows "active" whatever the
      badges say, and only the active bullet is disabled. */
  function RenderBullet(task: AnnotationTask, isActive: bool): (b: Bullet)
    ensures b.task == task
    ensures b.disabled <==> isActive
    ensures b.status == Active <==> isActive
    ensures !isActive ==> b.status == Classified(GetAnnotationTaskStatus(task))
    ensures b.variant == Info <==> isActive
    ensures b.variant == BulletVariant(b.status)
  {
    var status := if isActive then Active else Classified(GetAnnotationTaskStatus(task));
    Bullet(task, status, BulletVariant(status), isActive)
  }

  /** `task.uuid === currentTask?.uuid`: with no current task nothing
      matches, since a uuid string never equals `undefined`. */
  predicate IsCurrent(task: AnnotationTask, current: Option<AnnotationTask>) {
    current.Some? && task.uuid == current.value.uuid
  }

  /** AnnotationTaskBulletList: one bullet per task, in input order. */
  function RenderBulletList(tasks: seq<AnnotationTask>, current: Option<AnnotationTask>): (bullets: seq<Bullet>)
    ensures |bullets| == |tasks|
    ensures forall i :: 0 <= i < |tasks| ==>
              bullets[i].task == tasks[i] && (bullets[i].disabled <==> IsCurrent(tasks[i], current))
    ensures forall i :: 0 <= i < |tasks| ==> bullets[i] == RenderBullet(tasks[i], IsCurrent(tasks[i], current))
  {
    seq(|tasks|, i requires 0 <= i < |tasks| => RenderBullet(tasks[i], IsCurrent(tasks[i], current)))
  }
}
