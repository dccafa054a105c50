/** Properties of the task map's bullets. */
module AnnotationTaskBulletListProperties {
  import opened Wrappers
  import opened AnnotationTasks
  import opened AnnotationTaskBulletList

  /** For a bullet that is not active the colour tells the badges apart:
      danger exactly for a rejected task, warning for a verified one that is
      not rejected, primary for a completed one that is neither, and
      secondary for the rest. */
  lemma VariantReflectsBadges(task: AnnotationTask)
    ensures var v := RenderBullet(task, false).variant;
      && (v == Danger <==> HasState(task, Rejected))
      && (v == Warning <==> !HasState(task, Rejected) && HasState(task, Verified))
      && (v == Primary <==>
            !HasState(task, Rejected) && !HasState(task, Verified) && HasState(task, Completed))
      && (v == Secondary <==>
            !HasState(task, Rejected) && !HasState(task, Verified) && !HasState(task, Completed))
      && v != Info
  {
  }

  /** Without a current task no bullet is active or disabled. */
  lemma NoCurrentNoActive(tasks: seq<AnnotationTask>)
    ensures forall i :: 0 <= i < |tasks| ==>
              var b := RenderBulletList(tasks, None)[i];
              !b.disabled && b.status != Active
  {
  }

  /** The current task's own bullet is active, and when uuids are distinct it
      is the only active one. */
  lemma CurrentBulletIsTheActiveOne(tasks: seq<AnnotationTask>, k: nat)
    requires k < |tasks|
    requires forall i, j :: 0 <= i < j < |tasks| ==> tasks[i].uuid != tasks[j].uuid
    ensures var bullets := RenderBulletList(tasks, Some(tasks[k]));
      && bullets[k].status == Active
      && forall i :: 0 <= i < |tasks| && bullets[i].status == Active ==> i == k
  {
  }
}
