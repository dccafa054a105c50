/** Properties of the task classifier and of the progress summary. */
module AnnotationTasksProperties {
  import opened Wrappers
  import opened AnnotationTasks

  /** A missing or empty badge list classifies as pending. */
  lemma NoBadgesIsPending(task: AnnotationTask)
    requires task.statusBadges == None || task.statusBadges == Some([])
    ensures GetAnnotationTaskStatus(task) == Pending
  {
  }

  /** The classifier never yields "assigned": a task whose badges are all
      "assigned" is pending. */
  lemma AllAssignedIsPending(task: AnnotationTask)
    requires forall i :: 0 <= i < |Badges(task)| ==> Badges(task)[i].state == Known(Assigned)
    ensures GetAnnotationTaskStatus(task) == Pending
  {
  }

  /** A status occurs in a badge list exactly when its state is among the
      list's states. */
  lemma OccursIffInStates(badges: seq<StatusBadge>, s: AnnotationStatus)
    ensures Occurs(badges, s) <==> Known(s) in StatesOf(badges)
  {
    if Known(s) in StatesOf(badges) {
      var i :| 0 <= i < |badges| && badges[i].state == Known(s);
    }
  }

  /** Classification and the per-task progress flags depend only on which
      states occur among the badges. */
  lemma StatesDetermineStatus(t1: AnnotationTask, t2: AnnotationTask)
    requires StatesOf(Badges(t1)) == StatesOf(Badges(t2))
    ensures Scan(Badges(t1)) == Scan(Badges(t2))
    ensures GetAnnotationTaskStatus(t1) == GetAnnotationTaskStatus(t2)
  {
    var b1, b2 := Badges(t1), Badges(t2);
    OccursIffInStates(b1, Verified);
    OccursIffInStates(b2, Verified);
    OccursIffInStates(b1, Completed);
    OccursIffInStates(b2, Completed);
    OccursIffInStates(b1, Rejected);
    OccursIffInStates(b2, Rejected);
  }

  /** Equal multisets of badges carry the same set of states. */
  lemma PermutedStates(b1: seq<StatusBadge>, b2: seq<StatusBadge>)
    requires multiset(b1) == multiset(b2)
    ensures StatesOf(b1) == StatesOf(b2)
  {
    forall st | st in StatesOf(b1)
      ensures st in StatesOf(b2)
    {
      var i :| 0 <= i < |b1| && b1[i].state == st;
      assert b1[i] in multiset(b2);
      var j :| 0 <= j < |b2| && b2[j] == b1[i];
    }
    forall st | st in StatesOf(b2)
      ensures st in StatesOf(b1)
    {
      var j :| 0 <= j < |b2| && b2[j].state == st;
      assert b2[j] in multiset(b1);
      var i :| 0 <= i < |b1| && b1[i] == b2[j];
    }
  }

  /** Reordering the badges of a task changes neither its status nor its
      progress flags. */
  lemma PermutedBadgesSameStatus(t1: AnnotationTask, t2: AnnotationTask)
    requires multiset(Badges(t1)) == multiset(Badges(t2))
    ensures Scan(Badges(t1)) == Scan(Badges(t2))
    ensures GetAnnotationTaskStatus(t1) == GetAnnotationTaskStatus(t2)
  {
    PermutedStates(Badges(t1), Badges(t2));
    StatesDetermineStatus(t1, t2);
  }

  /** Repeating one of a task's badges changes neither its status nor its
      progress flags. */
  lemma DuplicatedBadgeSameStatus(t1: AnnotationTask, t2: AnnotationTask, k: nat)
    requires k < |Badges(t1)|
    requires Badges(t2) == Badges(t1) + [Badges(t1)[k]]
    ensures Scan(Badges(t1)) == Scan(Badges(t2))
    ensures GetAnnotationTaskStatus(t1) == GetAnnotationTaskStatus(t2)
  {
    var b1, b2 := Badges(t1), Badges(t2);
    assert forall i :: 0 <= i < |b1| ==> b2[i] == b1[i];
    assert StatesOf(b2) == StatesOf(b1) by {
      forall st | st in StatesOf(b2)
        ensures st in StatesOf(b1)
      {
        var i :| 0 <= i < |b2| && b2[i].state == st;
        if i == |b1| {
          assert b1[k].state == st;
        } else {
          assert b1[i].state == st;
        }
      }
      forall st | st in StatesOf(b1)
        ensures st in StatesOf(b2)
      {
        var i :| 0 <= i < |b1| && b1[i].state == st;
        assert b2[i].state == st;
      }
    }
    StatesDetermineStatus(t1, t2);
  }

  // ---- counting ----

  lemma {:induction false} CountAppend(u: seq<AnnotationTask>, v: seq<AnnotationTask>, p: AnnotationTask -> bool)
    ensures Count(u + v, p) == Count(u, p) + Count(v, p)
    decreases |v|
  {
    if |v| == 0 {
      assert u + v == u;
    } else {
      var v' := v[..|v| - 1];
      assert (u + v)[..|u + v| - 1] == u + v';
      assert (u + v)[|u + v| - 1] == v[|v| - 1];
      CountAppend(u, v', p);
    }
  }

  /** Two predicates that agree on every task of the list count the same. */
  lemma {:induction false} CountCongruent(tasks: seq<AnnotationTask>, p: AnnotationTask -> bool, q: AnnotationTask -> bool)
    requires forall i :: 0 <= i < |tasks| ==> p(tasks[i]) == q(tasks[i])
    ensures Count(tasks, p) == Count(tasks, q)
  {
    if |tasks| > 0 {
      var init := tasks[..|tasks| - 1];
      assert forall i :: 0 <= i < |init| ==> init[i] == tasks[i];
      CountCongruent(init, p, q);
    }
  }

  /** Tasks satisfying `p` and tasks not satisfying it partition the list. */
  lemma {:induction false} CountComplement(tasks: seq<AnnotationTask>, p: AnnotationTask -> bool)
    ensures Count(tasks, p) + Count(tasks, t => !p(t)) == |tasks|
  {
    if |tasks| > 0 {
      CountComplement(tasks[..|tasks| - 1], p);
    }
  }

  /** Two predicates no task satisfies together count at most the length. */
  lemma {:induction false} CountDisjoint(tasks: seq<AnnotationTask>, p: AnnotationTask -> bool, q: AnnotationTask -> bool)
    requires forall i :: 0 <= i < |tasks| ==> !(p(tasks[i]) && q(tasks[i]))
    ensures Count(tasks, p) + Count(tasks, q) <= |tasks|
  {
    if |tasks| > 0 {
      var init := tasks[..|tasks| - 1];
      assert forall i :: 0 <= i < |init| ==> init[i] == tasks[i];
      CountDisjoint(init, p, q);
    }
  }

  /** The count is a function of the multiset of tasks: the order of the
      list does not matter. */
  lemma {:induction false} CountPermutation(a: seq<AnnotationTask>, b: seq<AnnotationTask>, p: AnnotationTask -> bool)
    requires multiset(a) == multiset(b)
    ensures Count(a, p) == Count(b, p)
    decreases |a|
  {
    if |a| == 0 {
      assert |b| == |multiset(b)| == 0;
    } else {
      var x := a[|a| - 1];
      var a' := a[..|a| - 1];
      assert a == a' + [x];
      assert x in multiset(b);
      var k :| 0 <= k < |b| && b[k] == x;
      var b' := b[..k] + b[k + 1..];
      assert b == b[..k] + [x] + b[k + 1..];
      assert multiset(b) == multiset(b[..k]) + multiset{x} + multiset(b[k + 1..]);
      assert multiset(b') == multiset(b[..k]) + multiset(b[k + 1..]);
      assert multiset(b) == multiset(b') + multiset{x};
      assert multiset(a) == multiset(a') + multiset{x};
      assert multiset(a') == multiset(a) - multiset{x};
      assert multiset(b') == multiset(b) - multiset{x};
      CountPermutation(a', b', p);
      CountAppend(b[..k] + [x], b[k + 1..], p);
      CountAppend(b[..k], [x], p);
      CountAppend(b[..k], b[k + 1..], p);
      CountAppend(a', [x], p);
    }
  }

  // ---- the progress summary ----

  /** Every count is bounded by the total, and a task counted as needing
      review is never counted completed or verified. */
  lemma ProgressBounds(tasks: seq<AnnotationTask>)
    ensures var p := ComputeAnnotationTasksProgress(tasks);
      && p.missing <= p.total && p.needReview <= p.total
      && p.completed <= p.total && p.verified <= p.total
      && p.needReview + p.completed <= p.total
      && p.needReview + p.verified <= p.total
  {
    CountDisjoint(tasks, NeedsReview, CountsCompleted);
    CountDisjoint(tasks, NeedsReview, CountsVerified);
  }

  /** `missing` counts exactly the tasks without a completed badge, whether
      rejected or not: with the completed-badge tasks it makes up the total. */
  lemma MissingComplementsCompletedBadges(tasks: seq<AnnotationTask>)
    ensures ComputeAnnotationTasksProgress(tasks).missing
              + Count(tasks, t => HasState(t, Completed)) == |tasks|
  {
    var hasCompleted := t => HasState(t, Completed);
    CountComplement(tasks, hasCompleted);
    CountCongruent(tasks, t => !hasCompleted(t), IsMissing);
  }

  predicate ClassifiedRejected(task: AnnotationTask) {
    GetAnnotationTaskStatus(task) == Status(Rejected)
  }

  /** `needReview` is the number of tasks the classifier calls rejected. */
  lemma NeedReviewCountsRejectedStatus(tasks: seq<AnnotationTask>)
    ensures ComputeAnnotationTasksProgress(tasks).needReview == Count(tasks, ClassifiedRejected)
  {
    CountCongruent(tasks, NeedsReview, ClassifiedRejected);
  }

  /** The summary does not depend on the order of the task list. */
  lemma ProgressIgnoresTaskOrder(a: seq<AnnotationTask>, b: seq<AnnotationTask>)
    requires multiset(a) == multiset(b)
    ensures ComputeAnnotationTasksProgress(a) == ComputeAnnotationTasksProgress(b)
  {
    assert |a| == |multiset(a)| == |multiset(b)| == |b|;
    CountPermutation(a, b, IsMissing);
    CountPermutation(a, b, NeedsReview);
    CountPermutation(a, b, CountsCompleted);
    CountPermutation(a, b, CountsVerified);
  }

  /** Tasks whose badges carry the same states, position by position, give
      the same summary, whatever the order or repetition of their badges. */
  lemma {:induction false} ProgressDependsOnlyOnStates(a: seq<AnnotationTask>, b: seq<AnnotationTask>)
    requires |a| == |b|
    requires forall i :: 0 <= i < |a| ==> StatesOf(Badges(a[i])) == StatesOf(Badges(b[i]))
    ensures Tally(a) == Tally(b)
  {
    if |a| > 0 {
      var a', b' := a[..|a| - 1], b[..|b| - 1];
      assert forall i :: 0 <= i < |a'| ==> a'[i] == a[i] && b'[i] == b[i];
      ProgressDependsOnlyOnStates(a', b');
      StatesDetermineStatus(a[|a| - 1], b[|b| - 1]);
    }
  }
}
