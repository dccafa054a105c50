# Annotation-task progress and view settings, in Dafny

This project models two small, pure parts of the whombat annotation web
client's front end, and proves properties of them.

**Annotation-task status and progress.** A task carries an optional list of
status badges (`completed`, `verified`, `rejected`, `assigned`).
`getAnnotationTaskStatus` reduces the badges to one displayed status by
precedence: rejected, then verified, then completed, then pending.
`computeAnnotationTasksProgress` folds a task list into overlapping counts:
missing, needReview, completed, verified and total. Two widgets consume these:
- the task map (`AnnotationTaskBulletList`) draws one coloured bullet per task and marks the current task's bullet active;
- the progress bar (`AnnotationProgress`) searches tasks by uuid, shows the current task's 1-based position, and displays the counts.

**View settings.** A reducer over `{duration, min_freq, max_freq}` has these actions:
- `setAll` replaces the whole state, unchecked;
- three per-field setters throw on a negative value;
- `reset` returns to the value the reducer was built with;
- any other action type throws.

The application hook seeds that value from the process-wide store. The store's
view slice holds the last saved settings. The spectrogram settings menu wires
save, reset and form edits to the three settings reducers and to the store.

Everything is an immutable datatype and a pure function. Thrown errors are
`Result.Failure` values. The React, immer and zustand mechanics are explicit
functions:
- a hook is its reset target plus its current state (`Reducers.Hook`);
- a render after a store change moves the reset target and keeps the state;
- a store write is a `store -> store` function.

Files:
- `wrappers.dfy`: `Option` and `Result`.
- `annotation_tasks.dfy` and `annotation_tasks_properties.dfy`: the classifier and the aggregator, and their properties.
- `annotation_task_bullet_list.dfy` and `annotation_task_bullet_list_properties.dfy`: the task map.
- `annotation_progress.dfy`: search, position and the displayed counts.
- `annotation_fixtures.dfy`: the story fixtures as concrete test vectors.
- `reducers.dfy`: the hook shape, and the audio and spectrogram reducers reduced to `setAll` and `reset`.
- `view_settings.dfy` and `view_settings_properties.dfy`: the view reducer and its base hook.
- `view_store.dfy` and `view_store_properties.dfy`: the store's view slice.
- `app_view_settings.dfy`: the application hook.
- `settings_menu.dfy` and `settings_menu_properties.dfy`: the settings menu and whole sessions of menu events.

The base hook rebuilds its memoised reducer whenever
`initialSettings` changes. The application hook passes the store's value, so
after a save the reset target becomes the saved value. The reducer's current
state stays as it was, because a reducer hook reads its initial state only on
mount.

## Model

| member | source | states |
|---|---|---|
| AnnotationTasks.Scan | front/src/lib/utils/annotation_tasks.ts:16-32 | The badge scan raises the verified, completed and needs-review flags exactly when some badge records that state; "assigned" and unrecognised states raise nothing |
| AnnotationTasks.GetAnnotationTaskStatus | front/src/lib/utils/annotation_tasks.ts:3-47 | Rejected iff some badge is rejected; verified iff verified and not rejected; completed iff completed and neither of those; pending iff none of the three (so also for a missing or empty list); never "assigned" |
| AnnotationTasks.Tally | front/src/lib/utils/annotation_tasks.ts:52-90 | The loop's counters equal the numbers of tasks with no completed badge, with a rejected badge, completed and not rejected, and verified and not rejected |
| AnnotationTasks.ComputeAnnotationTasksProgress | front/src/lib/utils/annotation_tasks.ts:49-98 | The summary has total equal to the number of tasks, and each count is the number of tasks in its (overlapping) category |
| AnnotationTasksProperties.NoBadgesIsPending | front/src/lib/utils/annotation_tasks.ts:8-14 | A task with a missing or empty badge list is pending |
| AnnotationTasksProperties.AllAssignedIsPending | front/src/lib/utils/annotation_tasks.ts:20-46 | A task whose badges are all "assigned" is pending |
| AnnotationTasksProperties.StatesDetermineStatus | front/src/lib/utils/annotation_tasks.ts:20-46 | Two tasks whose badges carry the same set of states get the same flags and the same status |
| AnnotationTasksProperties.PermutedBadgesSameStatus | front/src/lib/utils/annotation_tasks.ts:20-32 | Reordering a task's badges changes neither its flags nor its status |
| AnnotationTasksProperties.DuplicatedBadgeSameStatus | front/src/lib/utils/annotation_tasks.ts:61-73 | Repeating one of a task's badges changes neither its flags nor its status |
| AnnotationTasksProperties.ProgressBounds | front/src/lib/utils/annotation_tasks.ts:75-96 | Every count is at most total, and needReview + completed and needReview + verified are at most total |
| AnnotationTasksProperties.MissingComplementsCompletedBadges | front/src/lib/utils/annotation_tasks.ts:83-85 | missing plus the number of tasks with a completed badge is total, whether or not those tasks are rejected |
| AnnotationTasksProperties.NeedReviewCountsRejectedStatus | front/src/lib/utils/annotation_tasks.ts:87-89 | needReview is the number of tasks the classifier calls rejected |
| AnnotationTasksProperties.ProgressIgnoresTaskOrder | front/src/lib/utils/annotation_tasks.ts:56-90 | Two task lists that are permutations of each other have the same summary |
| AnnotationTasksProperties.ProgressDependsOnlyOnStates | front/src/lib/utils/annotation_tasks.ts:61-73 | Task lists whose tasks carry the same sets of badge states, position by position, have the same counters |
| AnnotationTaskBulletList.BulletVariant | front/src/lib/components/annotation_tasks/AnnotationTaskBulletList.tsx:21-37 | The looked-up colour is info exactly for an active bullet, danger exactly for rejected, warning for verified, primary for completed, and secondary exactly for pending or assigned |
| AnnotationTaskBulletList.RenderBullet | front/src/lib/components/annotation_tasks/AnnotationTaskBulletList.tsx:30-40 | An active bullet shows "active" and the info colour whatever its badges; otherwise it shows the classifier's status; its colour is the table colour of the shown status; the button is disabled exactly when it is active |
| AnnotationTaskBulletList.RenderBulletList | front/src/lib/components/annotation_tasks/AnnotationTaskBulletList.tsx:63-84 | One bullet per task, in input order, and a bullet is active exactly when its task's uuid equals the current task's uuid; each bullet is the single-bullet rendering of its own task |
| AnnotationTaskBulletList.TableCoversEveryStatus | front/src/lib/components/annotation_tasks/AnnotationTaskBulletList.tsx:21-37 | Every bullet status has a row in the variant table, so the lookup is always defined and the "secondary" fallback never fires |
| AnnotationTaskBulletListProperties.VariantReflectsBadges | front/src/lib/components/annotation_tasks/AnnotationTaskBulletList.tsx:21-37 | For an inactive bullet: danger iff rejected, warning iff verified and not rejected, primary iff only completed, secondary iff none of the three, never info |
| AnnotationTaskBulletListProperties.NoCurrentNoActive | front/src/lib/components/annotation_tasks/AnnotationTaskBulletList.tsx:81 | With no current task no bullet is active or disabled |
| AnnotationTaskBulletListProperties.CurrentBulletIsTheActiveOne | front/src/lib/components/annotation_tasks/AnnotationTaskBulletList.tsx:77-84 | The current task's bullet is active and, with distinct uuids, no other bullet is |
| AnnotationProgress.FindIndex | front/src/lib/components/annotation/AnnotationProgress.tsx:173 | The search finds the first task whose uuid equals the query, and finds nothing exactly when no uuid equals it |
| AnnotationProgress.HandleSearch | front/src/lib/components/annotation/AnnotationProgress.tsx:171-183 | A miss, or a form event, raises only the "Task not found" notice; a hit calls onGoToTask exactly once, when given, with the first matching task |
| AnnotationProgress.IndexOf | front/src/lib/components/annotation/AnnotationProgress.tsx:208 | The first position holding the very same task object (identity, not field equality), or -1 exactly when no listed object is it |
| AnnotationProgress.PositionLabel | front/src/lib/components/annotation/AnnotationProgress.tsx:205-210 | Nothing is shown without a current task; otherwise the 1-based first position of that object, between 0 and the list length, and 0 exactly when the list does not hold that object |
| AnnotationProgress.SeparateCopyShowsZero | front/src/lib/components/annotation/AnnotationProgress.tsx:208 | A current task that is a separate object shows 0, even when a listed task has exactly its fields |
| AnnotationProgress.ListedObjectShowsItsPosition | front/src/lib/components/annotation/AnnotationProgress.tsx:208 | When the current task is the k-th listed object and no object is listed twice, the label is k + 1 |
| AnnotationProgress.RenderProgress | front/src/lib/components/annotation/AnnotationProgress.tsx:163-169 | "Remaining" shows the tasks with no completed badge out of total; the bar gets the rejected, unrejected-completed and unrejected-verified counts and total |
| AnnotationFixtures.EmptyStory | front/src/lib/components/annotation/AnnotationProgress.stories.tsx:16-22 | No tasks: every count is 0 |
| AnnotationFixtures.PendingStory | front/src/lib/components/annotation/AnnotationProgress.stories.tsx:24-42 | Two unbadged tasks: both missing, total 2 |
| AnnotationFixtures.WithCompletedStory | front/src/lib/components/annotation/AnnotationProgress.stories.tsx:44-62 | One completed and one unbadged task: missing 1, completed 1, total 2 |
| AnnotationFixtures.WithRejectedStory | front/src/lib/components/annotation/AnnotationProgress.stories.tsx:64-82 | One rejected and one unbadged task: missing 2, needReview 1, total 2 |
| AnnotationFixtures.WithVerifiedStory | front/src/lib/components/annotation/AnnotationProgress.stories.tsx:84-102 | One verified and one unbadged task: missing 2, verified 1, total 2 |
| AnnotationFixtures.IssuesOnlyStory | front/src/lib/components/annotation/AnnotationProgress.stories.tsx:126-146 | One completed and one rejected task: missing 1, needReview 1, completed 1, total 2 |
| AnnotationFixtures.OverlappingCategories | front/src/lib/utils/annotation_tasks.ts:75-89 | Completed, unbadged, and rejected-and-completed tasks: missing 1, needReview 1, completed 1, verified 0, total 3 |
| AnnotationFixtures.SearchStory | front/src/lib/components/annotation/AnnotationProgress.tsx:171-210 | On the WithCompleted tasks, uuid "2" goes to the second task, "3" and a form event raise the notice, and the label is 2 for the listed object, 0 for a separately fetched copy of it, and nothing without a current task |
| AnnotationFixtures.MultipleBulletsStory | front/src/lib/components/annotation_tasks/AnnotationTaskBulletList.stories.tsx:54-64 | Pending, verified, rejected, completed and assigned tasks get secondary, warning, danger, primary and secondary bullets |
| ViewSettingsReducer.Reduce | front/src/lib/hooks/settings/useViewSettings.ts:43-86 | Throws exactly on a negative setter value or an unknown action type; setAll replaces the state unchecked; a setter changes only its own field; reset returns the captured initial value; each negative setter fails with its own error |
| ViewSettingsReducer.Message | front/src/lib/hooks/settings/useViewSettings.ts:57-84 | Each error carries the text the reducer throws: the window-size, minimum-frequency and maximum-frequency messages, and "Unknown action: " followed by the action type |
| ViewSettingsReducer.Run | front/src/lib/hooks/settings/useViewSettings.ts:49-86 | A sequence of actions fails exactly when one of them is a refused action (a negative setter value or an unknown type), and then with the error of the first such action |
| ViewSettingsReducerProperties.MessagesDistinguishErrors | front/src/lib/hooks/settings/useViewSettings.ts:57-84 | Two different errors never carry the same message |
| ViewSettingsReducer.UseViewSettings | front/src/lib/hooks/settings/useViewSettings.ts:10-28 | On mount the state and the reset target are initialSettings, or the defaults when it is not given |
| ViewSettingsReducer.RerenderViewSettings | front/src/lib/hooks/settings/useViewSettings.ts:16-23 | A new initialSettings becomes the reset target and the current state is kept |
| ViewSettingsReducer.Dispatch | front/src/lib/hooks/settings/useViewSettings.ts:23-27 | A dispatch fails exactly when the reducer throws and never moves the reset target; on success the new state is the reducer applied to the current state: reset gives the reset target, setAll the given value, and a non-negative setter changes only its own field |
| ViewSettingsReducerProperties.ResetAfterAnyRun | front/src/lib/hooks/settings/useViewSettings.ts:78-80 | After any run of actions that did not throw, reset yields exactly the value the reducer was built with |
| ViewSettingsReducerProperties.AcceptedRunSucceeds | front/src/lib/hooks/settings/useViewSettings.ts:53-86 | A run of setAll, reset and non-negative setter actions never throws |
| ViewSettingsReducerProperties.RunPreservesValid | front/src/lib/hooks/settings/useViewSettings.ts:57-77 | From non-negative settings, with non-negative setAll values, every successful run ends in non-negative settings |
| ViewSettingsReducerProperties.MinAboveMaxAccepted | front/src/lib/hooks/settings/useViewSettings.ts:64-77 | Only the sign is checked: from any state, a non-negative minimum frequency is accepted and changes only that field, even when it is above the maximum |
| ViewSettingsReducerProperties.NegativeDurationThrows | front/src/lib/hooks/settings/useViewSettings.ts:57-63 | A negative duration throws "Window size must be non-negative" and yields no new state |
| ViewStore.CreateViewSlice | front/src/app/store/view.ts:12-13 | The store starts with the default view settings and the other slices as given |
| ViewStore.SetViewSettings | front/src/app/store/view.ts:14-20 | The argument replaces the saved view settings unchecked, and every other field is kept |
| ViewStoreProperties.LastWriteWins | front/src/app/store/view.ts:14-20 | Two saves in a row equal the second alone |
| ViewStoreProperties.SetViewSettingsIdempotent | front/src/app/store/view.ts:14-20 | Saving the same value twice equals saving it once |
| ViewStoreProperties.SaveIsUnchecked | front/src/app/store/view.ts:14-20 | Even negative settings are stored as given |
| AppViewSettings.UseAppViewSettings | front/src/app/hooks/settings/useViewSettings.ts:5-8 | On mount the reducer's state and reset target are the store's current view settings |
| AppViewSettings.RerenderAppViewSettings | front/src/app/hooks/settings/useViewSettings.ts:6-7 | After a store change the reset target is the store's value and the current settings are kept |
| Reducers.BasicReduce | front/src/app/components/spectrograms/SettingsMenu.tsx:47-68 | For the audio and spectrogram reducers as the menu uses them: setAll yields the given value and reset yields the reducer's initial value |
| SettingsMenu.ResetDispatches | front/src/app/components/spectrograms/SettingsMenu.tsx:47-52 | Reset sends exactly three reset actions, to the spectrogram, audio and view reducers in that order |
| SettingsMenu.ChangeDispatch | front/src/app/components/spectrograms/SettingsMenu.tsx:60-68 | A form edit goes to the reducer of the edited kind, as a setAll of the new value |
| SettingsMenu.MenuDispatchShapes | front/src/app/components/spectrograms/SettingsMenu.tsx:47-68 | Save dispatches nothing; reset dispatches one reset to each reducer; a form edit dispatches one whole-value setAll to its own reducer; nothing the menu sends can throw |
| SettingsMenu.HandleSave | front/src/app/components/spectrograms/SettingsMenu.tsx:29-33 | Save writes the current audio, spectrogram and view settings each into its own store slot and keeps the rest of the store |
| SettingsMenu.Step | front/src/app/components/spectrograms/SettingsMenu.tsx:29-71 | Save writes the store, keeps every reducer's state and moves each reducer's reset target to the value saved for it; reset restores each reducer's initial value and keeps the store; an edit replaces only its own reducer's state |
| SettingsMenu.MountPage | front/src/app/hooks/settings/useViewSettings.ts:5-8 | A freshly mounted page has all three hooks seeded from their store slots |
| SettingsMenuProperties.SaveKeepsReducerStates | front/src/app/components/spectrograms/SettingsMenu.tsx:29-41 | Saving leaves every reducer's state as it was |
| SettingsMenuProperties.ResetKeepsStore | front/src/app/components/spectrograms/SettingsMenu.tsx:47-52 | Resetting writes nothing to the store |
| SettingsMenuProperties.ResetThenSaveStoresInitials | front/src/app/components/spectrograms/SettingsMenu.tsx:29-52 | Reset followed by save stores each reducer's initial value |
| SettingsMenuProperties.ResetAfterSaveRestoresSaved | front/src/app/hooks/settings/useViewSettings.ts:6-7 | After a save, reset brings every reducer back to the value just saved |
| SettingsMenuProperties.RunKeepsSynced | front/src/app/hooks/settings/useViewSettings.ts:6-7 | Over any session of menu events, each reducer's reset target stays equal to its slot's saved value in the store |
| SettingsMenuProperties.ResetRestoresLastSaved | front/src/app/hooks/settings/useViewSettings.ts:6-7 | After any session, reset restores every reducer to its last saved value |
| SettingsMenuProperties.MountedPageIsSynced | front/src/app/hooks/settings/useViewSettings.ts:5-8 | A freshly mounted page has every reset target equal to its store slot |
| SettingsMenuProperties.NoSaveKeepsResetTarget | front/src/app/components/spectrograms/SettingsMenu.tsx:47-68 | A session with no save changes neither the store nor any reducer's reset target |
| SettingsMenuProperties.ResetBeforeSaveGivesDefaults | front/src/app/store/view.ts:13 | On a fresh store, before any save, reset returns the default view settings |

## Left out

- `DEFAULT_VIEW_SETTINGS` comes from `front/src/lib/constants`, which is not part of this model. It is the parameter `defaults` throughout, and every property holds for any value of it.
- The audio and spectrogram reducers, their store slices and their application hooks are not part of this model. The menu sees them only through `setAll` and `reset` (`Reducers.BasicReduce`). Their store setters are assumed to replace their own slot, like `setViewSettings`. Their application hooks are assumed to pass the store's value as the initial settings, as the view hook does, so a save moves their reset targets too (`Reducers.RerenderHook`).
- Object identity is an explicit number (`TaskObject.ref`). The model does not say how the page obtains its objects; it states the label both for a listed object and for a separately fetched copy.
- ViewSettingsReducer.Reduce: JavaScript numbers are floating point. `NaN < 0` is false, so the source accepts `NaN` in every setter. The model uses `real`, which has no `NaN` and no rounding.
- What React does after a reducer throws (rethrowing during render to an error boundary) is not modelled. A throw ends the run of actions (`Run`, `ApplyAll`) and yields no new state.
- The form layer that produces `setAll` values (`ViewSettings.tsx`, with react-hook-form, zod validation and a 300 ms debounce) is an external collaborator. The model takes its output as given.
- Toasts on save and reset, copying the current uuid to the clipboard, dialogs, shortcuts, the filter bar and the previous/next buttons are UI effects with no logic to model. Only the "Task not found" notice is kept, as an `Effect`.
- Task and badge timestamps and other task fields appear only in a bullet's tooltip. The model leaves them out. A bullet's click handler forwards its own task, which `Bullet.task` records.
- The bullet's `disabled` prop only selects a hover style and is not modelled. The button's `disabled` attribute is `isActive`, and that is modelled.
- The back-end import/export code, the router tests and the error-reporting components are outside the modelled core.
