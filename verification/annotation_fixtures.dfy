/** The story fixtures of the progress bar and the task map, worked
    through the model as concrete test vectors. */
module AnnotationFixtures {
  import opened Wrappers
  import opened AnnotationTasks
  import opened AnnotationProgress
  import opened AnnotationTaskBulletList

  function Badged(uuid: string, s: AnnotationStatus): AnnotationTask {
    AnnotationTask(uuid, Some([StatusBadge(Known(s))]))
  }

  function Unbadged(uuid: string): AnnotationTask {
    AnnotationTask(uuid, Some([]))
  }

  lemma EmptyStory()
    ensures ComputeAnnotationTasksProgress([]) == ProgressSummary(0, 0, 0, 0, 0)
  {
  }

  lemma PendingStory()
    ensures ComputeAnnotationTasksProgress([Unbadged("1"), Unbadged("2")]) == ProgressSummary(2, 0, 0, 0, 2)
  {
  }

  lemma WithCompletedStory()
    ensures ComputeAnnotationTasksProgress([Badged("1", Completed), Unbadged("2")]) == ProgressSummary(1, 0, 1, 0, 2)
  {
    assert HasState(Badged("1", Completed), Completed) by {
      assert Badges(Badged("1", Completed))[0].state == Known(Completed);
    }
  }

  lemma WithRejectedStory()
    ensures ComputeAnnotationTasksProgress([Badged("1", Rejected), Unbadged("2")]) == ProgressSummary(2, 1, 0, 0, 2)
  {
    assert HasState(Badged("1", Rejected), Rejected) by {
      assert Badges(Badged("1", Rejected))[0].state == Known(Rejected);
    }
  }

  lemma WithVerifiedStory()
    ensures ComputeAnnotationTasksProgress([Badged("1", Verified), Unbadged("2")]) == ProgressSummary(2, 0, 0, 1, 2)
  {
    assert HasState(Badged("1", Verified), Verified) by {
      assert Badges(Badged("1", Verified))[0].state == Known(Verified);
    }
  }

  lemma IssuesOnlyStory()
    ensures ComputeAnnotationTasksProgress([Badged("1", Completed), Badged("2", Rejected)]) == ProgressSummary(1, 1, 1, 0, 2)
  {
    assert HasState(Badged("1", Completed), Completed) by {
      assert Badges(Badged("1", Completed))[0].state == Known(Completed);
    }
    assert HasState(Badged("2", Rejected), Rejected) by {
      assert Badges(Badged("2", Rejected))[0].state == Known(Rejected);
    }
  }

  /** A completed task, an unbadged one, and a task both rejected and
      completed: the last counts in `needReview`, is not missing, and is
      not counted completed. */
  lemma OverlappingCategories()
    ensures var rejectedCompleted := AnnotationTask("3", Some([StatusBadge(Known(Rejected)), StatusBadge(Known(Completed))]));
      ComputeAnnotationTasksProgress([Badged("1", Completed), Unbadged("2"), rejectedCompleted])
        == ProgressSummary(1, 1, 1, 0, 3)
  {
    var rejectedCompleted := AnnotationTask("3", Some([StatusBadge(Known(Rejected)), StatusBadge(Known(Completed))]));
    assert HasState(Badged("1", Completed), Completed) by {
      assert Badges(Badged("1", Completed))[0].state == Known(Completed);
    }
    assert HasState(rejectedCompleted, Rejected) && HasState(rejectedCompleted, Completed) by {
      assert Badges(rejectedCompleted)[0].state == Known(Rejected);
      assert Badges(rejectedCompleted)[1].state == Known(Completed);
    }
  }

  /** Searching the WithCompleted story: uuid "2" navigates to the second
      task, "3" and a form event raise the notice. The label shows 2 for the
      listed second object, and 0 for a separately fetched copy of it. */
  lemma SearchStory()
    ensures var tasks := [Badged("1", Completed), Unbadged("2")];
      && HandleSearch(tasks, Text("2"), true) == [GoToTask(Unbadged("2"))]
      && HandleSearch(tasks, Text("3"), true) == [ErrorToast("Task not found")]
      && HandleSearch(tasks, FormEvent, true) == [ErrorToast("Task not found")]
      && var objects := [TaskObject(1, tasks[0]), TaskObject(2, tasks[1])];
      && PositionLabel(objects, Some(objects[1])) == Some(2)
      && PositionLabel(objects, Some(TaskObject(3, Unbadged("2")))) == Some(0)
      && PositionLabel(objects, None) == None
  {
  }

  /** The Multiple story of the task map: pending, verified, rejected,
      completed and assigned tasks, none current. */
  lemma MultipleBulletsStory()
    ensures var tasks := [AnnotationTask("a", None), Badged("b", Verified), Badged("c", Rejected), Badged("d", Completed), Badged("e", Assigned)];
      var bullets := RenderBulletList(tasks, None);
      && bullets[0].variant == Secondary
      && bullets[1].variant == Warning
      && bullets[2].variant == Danger
      && bullets[3].variant == Primary
      && bullets[4].variant == Secondary
  {
    assert Badges(Badged("b", Verified))[0].state == Known(Verified);
    assert Badges(Badged("c", Rejected))[0].state == Known(Rejected);
    assert Badges(Badged("d", Completed))[0].state == Known(Completed);
  }
}
