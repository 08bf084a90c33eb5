# Volume group snapshots: a verified model

The controller of this repository turns one `DellCsiVolumeGroupSnapshot` into a consistent
set of snapshots: it selects the volumes behind the claims of a namespace, asks the CSI
driver for a group snapshot, writes one VolumeSnapshot and one VolumeSnapshotContent for
each member the driver reports, waits until they are ready, and tears them down again when
the group is deleted. This project models that controller and the object store it works on,
and proves what holds over single calls, whole reconciliations and whole histories.

## How the model is built

* **Store.** `Client.Client` holds a map of objects keyed by namespace, name and kind, and
  changes it in place; `Api` says what each call does as a function from one world to the
  next. The semantics are those of the repository's own fake client: `Status().Update` is a
  full update, and deleting a VolumeSnapshot takes its content along when the content's
  policy is Delete. Objects are values.
* **Faults.** A world carries a script of faults, one for each coming call. A call goes
  through, is refused without effect, or the process stops just before it. A process that
  has stopped, or has dereferenced a nil pointer, has no further effect
  (`Meanings.StoppedDoesNothing`), so a result for all scripts is a result for every point
  at which a run can be interrupted. A script that has run out refuses nothing.
* **Other actors.** The external snapshotter's status writes arrive between polls; the driver's
  answer, UUIDs, map iteration orders and Go's choice between a tick and the deadline are
  inputs. Users delete groups, and notices of deleted contents arrive one after the other.
* **Code.** `Controller.Reconciler` has the controller's methods, with its loops, early
  returns and in-place changes. Each is proved equal to a specification function of the world
  (`Selection`, `Members`, `Polling`, `Teardown`, `Lifecycle`); the lemmas are about those.

The modules, in order: `Kube`, `Text` (Go's string functions), `Api`, `Client`; the
specifications `Selection`, `Members`, `Polling`, `Teardown`, `Lifecycle`; the results
`Canonical`, `Covering`, `Naming`, `Isolation`, `Integrity`, `Reuse`, `Resumption`, `PassRuns`, `Resume`,
`Rerun`, `Answers`, `RoundTrip`, `CreateDelete`, `RetriedDeletion`, `ContentEvents`, `Frames`,
`GroupWrites`, `OpenGroups`, `Outcomes`, `ReconcileIntegrity`, `Histories`, `Meanings`,
`Limits`; and `Controller`.

Assumed throughout: object names are not empty and, in member lists, contain no comma; a
fresh UUID is a content name nobody uses. Where a lemma needs one of these it says so.

## What the proofs found

* The listing order of the claims decides between success and failure exactly when every volume
  can be read, some claim is skipped, some is bound and the bound ones share an array with a name
  (`Canonical.OrderMattersIff`): the array is compared with the first claim's even when that
  claim was skipped.
* A claim whose volume has no CSI source, bound or not, crashes the selection when the loop gets
  to it (`Covering.SelectionCrashesIff`) and leaves the group Pending (`Outcomes.RefusedOutcomes`).
* Reusing a VolumeSnapshot dereferences a nil handle and crashes when the read of its content
  is refused; where every snapshot is bound and no field is missing, exactly then
  (`Reuse.CrashesIffReadRefused`).
* A refused read during teardown counts as "already deleted". The finalizer goes while a listed
  member is still live exactly if a live member's read was refused and the last update was
  reached all the same (`RetriedDeletion.EarlyFinalizerIff`, `Limits.MissedReadDropsFinalizer`).
* Two driver calls for a group need not have a stored Error between them: the first call leaves
  the group open to another one exactly if none of its writes to the group went through and it
  was not in Error, or the last one stored it ready without an ID (`Histories.UnseparatedIff`,
  `Limits.RefusedPendingWrite`, `Limits.UnnamedIsCalledAgain`).
* Exactly the timeouts from 0 to 9223372036 seconds are waited for with two polls a second
  (`Polling.PollsExact`). Beyond, the nanoseconds wrap around: one second more leaves no poll,
  20000000000 seconds or a large negative timeout leave billions (`Polling.OverflowingTimeouts`).
* A stored Pending is for good: no later event changes it, and reconciling the group, deleted or
  not, does nothing (`Histories.PendingForever`). A creation stopped behind its Pending write is
  therefore never finished and never torn down (`Limits.StoppedAfterPending`).
* A group can be stored as Complete without its members: a member exists in the end exactly if
  its snapshot was there before or its two creations went through (`Answers.MemberThereIff`),
  and the wait takes no notice of missing ones (`Limits.CompleteWithoutMember`).
* Two members get the same VolumeSnapshot name exactly if their parts are equal or one base has
  another dash where the other is joined (`Naming.CollideIff`, `Naming.DistinctNamesIff`).
* A pass over the answer can be resumed exactly if it met no harmful read: a refused read of a
  snapshot with a stale handle, behind which a new content is made (`PassRuns.UnderwayIffUnharmed`).
  The orphan hides the stale handle from later passes (`Limits.StaleHandleSurvives`).
* Running a finished answer again changes nothing, whatever the listing order, exactly if no
  content with another handle refers to a member (`Rerun.RerunIdleIff`). The controller leaves such
  contents itself (`Rerun.RefusedCreateTangles`), and then resuming can change old contents an
  undisturbed pass leaves alone (`Rerun.StaleOrphanIsTaken`).
* The documentation (README.md:213) has the status `incomplete` for a group whose snapshots or
  contents could not be created. It is never stored: a group is stored as Pending, Error or
  Complete (`GroupWrites.ReconcileEffect`), and such a group as Complete if nothing unready is
  found (`Limits.CompleteWithoutMember`). The model follows the code.

## Model

| member | source | states |
|---|---|---|
| Client.Client.Get | test/shared/fake-client/fake-client.go:99-131 | a read passes the injector first and returns the object under the key or not-found; nothing changes |
| Client.Client.List | test/shared/fake-client/fake-client.go:134-228 | the listing loop yields the wanted objects in the order the map iteration takes |
| Client.Client.Create | test/shared/fake-client/fake-client.go:231-255 | stores the object under its own key, or reports that one exists and changes nothing |
| Client.Client.Update | test/shared/fake-client/fake-client.go:334-373 | replaces the object under its own key, or reports not-found; status updates are the same call |
| Client.Client.Delete | test/shared/fake-client/fake-client.go:258-315 | not-found, deletion-marked, missing content and cascade cases of a delete |
| Client.Client.ShouldFail | test/shared/fake-client/fake-client.go:38-40 | one fault of the script is spent for each call |
| Api.WriteResults | test/shared/fake-client/fake-client.go:231-373 | which creations and updates succeed, with which errors the others fail, and that these leave everything as it was |
| Api.DeleteResults | test/shared/fake-client/fake-client.go:258-315 | the same for deletions, with marked objects, missing contents and the cascade |
| Api.ListingIsExact | test/shared/fake-client/fake-client.go:154-228 | for every iteration order a listing has each wanted object exactly once and no other |
| Text.SplitJoin | controllers/dellcsivolumegroupsnapshot_controller.go:1179-1190 | splitting a joined list of comma-free names gives the names back |
| Text.JoinSplit | controllers/dellcsivolumegroupsnapshot_controller.go:1179-1190 | joining what a split gives restores the string |
| Text.MemberListRoundTrip | controllers/dellcsivolumegroupsnapshot_controller.go:291-335 | the appended and trimmed member list splits back to exactly the members; untrimmed, to the members and one empty name |
| Text.SortIsCanonical | controllers/dellcsivolumegroupsnapshot_controller.go:180 | sorting gives one list for all arrangements of the same volume IDs |
| Text.LessEqMeans | controllers/dellcsivolumegroupsnapshot_controller.go:180 | the order sorted by is that of the first characters that differ, beginnings first |
| Controller.Reconciler.MapVolIdToPvcName | controllers/dellcsivolumegroupsnapshot_controller.go:842-892 | the selection loop with its skips, early exits and nil dereference computes the specified selection |
| Controller.Reconciler.GetSourceVolIdsFromPvcName | controllers/dellcsivolumegroupsnapshot_controller.go:796-823 | reads each named claim once and selects from them |
| Controller.Reconciler.ListSourceVolIds | controllers/dellcsivolumegroupsnapshot_controller.go:767-838 | selects from the claims listed by label or namespace; fails if none is listed |
| Controller.Reconciler.GetSourceVolIds | controllers/dellcsivolumegroupsnapshot_controller.go:157-164 | chooses between names, label and namespace |
| Selection.SelectionExact | controllers/dellcsivolumegroupsnapshot_controller.go:842-892 | succeeds iff all volumes are readable, one claim is bound and all bound ones are on the first claim's array (or on "" when it is skipped); the result is exactly the bound handles in order |
| Selection.LastClaimWins | controllers/dellcsivolumegroupsnapshot_controller.go:884 | each handle maps to the last bound claim that has it |
| Selection.GatheredKeys | controllers/dellcsivolumegroupsnapshot_controller.go:876-889 | the map's keys are exactly the bound handles, and both are empty together |
| Covering.SelectsNamed | controllers/dellcsivolumegroupsnapshot_controller.go:796-823 | an undisturbed selection by names succeeds iff each listed name has its claim in the namespace and those claims, in first-occurrence order, are selectable; the result is exactly their handles and map |
| Covering.SelectsCovered | controllers/dellcsivolumegroupsnapshot_controller.go:157-164 | an undisturbed selection works on exactly the stored claims of the namespace that are named, or labelled, or all of them, each once, and succeeds iff no named one is missing and they are selectable |
| Covering.SelectionCrashesIff | controllers/dellcsivolumegroupsnapshot_controller.go:862-866 | it crashes iff the loop gets to a claim whose volume has no CSI source, and changes nothing |
| Canonical.CanonicalRequest | controllers/dellcsivolumegroupsnapshot_controller.go:180-192 | with all pairs bound, success and the sorted volume list are the same for every order of the claims |
| Canonical.CanonicalMap | controllers/dellcsivolumegroupsnapshot_controller.go:842-892 | with distinct handles the map is the same for every order of the claims |
| Canonical.RequestIgnoresListingOrder | controllers/dellcsivolumegroupsnapshot_controller.go:767-838 | any two iteration orders of the store lead to the same request |
| Canonical.OrderMattersIff | controllers/dellcsivolumegroupsnapshot_controller.go:862-880 | the outcome is the same for every order iff some volume cannot be read or the claims are not order sensitive |
| Canonical.SensitiveOrder | controllers/dellcsivolumegroupsnapshot_controller.go:862-880 | order-sensitive claims have an order that fails and one that succeeds |
| Canonical.SelectionIgnoresDuplicates | controllers/dellcsivolumegroupsnapshot_controller.go:796-823 | selecting by a list of names equals selecting by its first occurrences |
| Canonical.OneEntryPerId | controllers/dellcsivolumegroupsnapshot_controller.go:842-892 | distinct handles give as many map entries as IDs |
| Canonical.SelectionMapInjective | controllers/dellcsivolumegroupsnapshot_controller.go:842-892 | claims of different names give an injective map |
| Naming.NameMeans | controllers/dellcsivolumegroupsnapshot_controller.go:279-289 | the member name is the driver's name for the snapshot, or the group's without one, a dash and the claim of the source volume, or nothing for an unknown one |
| Naming.FallbackNamesDistinct | controllers/dellcsivolumegroupsnapshot_controller.go:282-289 | generated VolumeSnapshot names of different source volumes never collide |
| Naming.CollideIff | controllers/dellcsivolumegroupsnapshot_controller.go:285-288 | two names composed with a dash are equal iff their parts are, or one of them has another dash where the other is joined |
| Naming.DistinctNamesIff | controllers/dellcsivolumegroupsnapshot_controller.go:282-289 | the members of an answer get distinct VolumeSnapshots iff no two of them collide in that way |
| Naming.DashFreeNames | controllers/dellcsivolumegroupsnapshot_controller.go:285-286 | bases without dashes collide iff both parts are equal |
| Naming.DashedNamesCollide | controllers/dellcsivolumegroupsnapshot_controller.go:285-286 | an instance of the collision: `a` of claim `b-c` and `a-b` of claim `c` |
| Naming.DefaultHandleToken | controllers/dellcsivolumegroupsnapshot_controller.go:1244-1249 | the array of a handle `a-rest` is `a` |
| Naming.PowerstoreHandleToken | controllers/dellcsivolumegroupsnapshot_controller.go:1239-1243 | the array of a handle `v/a/...` is `a`, and "" without a slash |
| Naming.ArraysToldApart | controllers/dellcsivolumegroupsnapshot_controller.go:869-880 | two handles, PowerStore or not, pass for one system iff they are of one array |
| Naming.StoredGroupToken | controllers/dellcsivolumegroupsnapshot_controller.go:184-189 | of a stored ID `p-g` the next attempt gets exactly `g` |
| Meanings.RequestMeans | controllers/dellcsivolumegroupsnapshot_controller.go:175-192 | the request names the group and lists all selected volumes in ascending order; of a stored ID, composed or not, it hands on the part behind the last dash |
| Controller.Reconciler.CheckReadyToUse | controllers/dellcsivolumegroupsnapshot_controller.go:359-383 | one poll over the listed names with its skips and nil dereference |
| Controller.Reconciler.CheckSnapshotStatus | controllers/dellcsivolumegroupsnapshot_controller.go:385-414 | the tick/deadline loop, with the number of polls made |
| Polling.ReadyExact | controllers/dellcsivolumegroupsnapshot_controller.go:359-383 | a poll says ready iff no listed snapshot it could read has a status that is not ready |
| Polling.PollCrashesIff | controllers/dellcsivolumegroupsnapshot_controller.go:359-383 | a poll of a process that is not stopped crashes iff the first listed snapshot that stops it has a status without its readiness flag |
| Polling.WaitExact | controllers/dellcsivolumegroupsnapshot_controller.go:385-414 | the wait ends true at the first poll that finds everything ready and false iff no poll due before the deadline does, with other writers between the polls |
| Polling.PollsBounded | controllers/dellcsivolumegroupsnapshot_controller.go:385-414 | at most 180 polls without a timeout and two for each second of one, whatever fails |
| Polling.PollsOfTimeout | controllers/dellcsivolumegroupsnapshot_controller.go:386-393 | the exact number of polls a timeout leaves room for, 180 or 179 for the default |
| Polling.DeadlineFits | controllers/dellcsivolumegroupsnapshot_controller.go:386-391 | the deadline is 90 seconds without a timeout, and as many as it says, in nanoseconds, iff it is at most 9223372036 either way |
| Polling.PollsExact | controllers/dellcsivolumegroupsnapshot_controller.go:386-393 | two polls a second, the last one a matter of luck, iff the timeout is from 0 to 9223372036 |
| Polling.NoPollIff | controllers/dellcsivolumegroupsnapshot_controller.go:391-414 | a wait makes no poll iff the wrapped deadline lies before the first tick, or at it with the deadline chosen |
| Polling.OverflowingTimeouts | controllers/dellcsivolumegroupsnapshot_controller.go:391-399 | longer timeouts leave no poll at all or billions |
| Polling.TrailingCommaIsHarmless | controllers/dellcsivolumegroupsnapshot_controller.go:316-335 | polling the untrimmed list gives the verdict of the trimmed one |
| Controller.Reconciler.CheckExistingVolSnapshot | controllers/dellcsivolumegroupsnapshot_controller.go:705-764 | the reuse check of a snapshot, including its nil dereferences |
| Controller.Reconciler.ValidateExistingVolSnapcontent | controllers/dellcsivolumegroupsnapshot_controller.go:664-703 | driver, class and reference checks of a content and the request for a new handle |
| Controller.Reconciler.CheckExistingVolsnapcontent | controllers/dellcsivolumegroupsnapshot_controller.go:635-662 | validates the first listed content that refers to the snapshot |
| Controller.Reconciler.CreateVolumeSnapshot | controllers/dellcsivolumegroupsnapshot_controller.go:504-579 | reuses an existing snapshot or creates content and snapshot, with every error exit |
| Controller.Reconciler.UpdateVolumeSnapshotContentStatus | controllers/dellcsivolumegroupsnapshot_controller.go:581-633 | reads the content and, if asked, refreshes its handle and status |
| Controller.Reconciler.CreateMembers | controllers/dellcsivolumegroupsnapshot_controller.go:276-311 | the loop over the members accumulates the list and the errors without stopping |
| Controller.Reconciler.ProcessResponse | controllers/dellcsivolumegroupsnapshot_controller.go:254-357 | members, wait, new status and its write; fails iff an error was collected |
| Reuse.CrashExactly | controllers/dellcsivolumegroupsnapshot_controller.go:635-764 | a process that is not stopped crashes on the reuse path iff a field it dereferences is missing or the content could not be read |
| Reuse.CrashesIffReadRefused | controllers/dellcsivolumegroupsnapshot_controller.go:721-745 | under referential integrity with all fields there, iff the content's read is refused |
| Reuse.RefusedReadCrashes | controllers/dellcsivolumegroupsnapshot_controller.go:519-531 | handling a member with a script that refuses that read crashes and changes nothing |
| Reuse.ReuseWellDefined | controllers/dellcsivolumegroupsnapshot_controller.go:635-764 | under referential integrity it is safe, refuses exactly an unready, elsewhere-bound, other-class or mismatched one, and refreshes only a matching content |
| Reuse.FoundMeans | controllers/dellcsivolumegroupsnapshot_controller.go:651-660 | the content found is a stored one with the snapshot's namespace and name in its reference; none is found only if no listed one has them |
| Reuse.ReuseReports | controllers/dellcsivolumegroupsnapshot_controller.go:635-764 | under any faults, the exact condition on which the reuse path reports no error |
| Reuse.RefreshReports | controllers/dellcsivolumegroupsnapshot_controller.go:581-633 | the exact condition for reading back and refreshing a content without error |
| Reuse.NewMemberReports | controllers/dellcsivolumegroupsnapshot_controller.go:504-633 | a new member collects no error iff both creations and the reading back go through |
| Reuse.OldMemberReports | controllers/dellcsivolumegroupsnapshot_controller.go:519-633 | an existing one iff it is reused, a content refers to it, and that is read back and refreshed |
| Members.MemberEffect | controllers/dellcsivolumegroupsnapshot_controller.go:277-311 | one member changes the store in one of four ways; without an error of its own it is realised |
| Isolation.MemberRealised | controllers/dellcsivolumegroupsnapshot_controller.go:277-311 | for every fault script a member without an error of its own ends with its snapshot and a content that refers to it with its handle |
| Isolation.ResponseRealised | controllers/dellcsivolumegroupsnapshot_controller.go:349-356 | no collected error means this for all members |
| Answers.AnswerRealised | controllers/dellcsivolumegroupsnapshot_controller.go:254-357 | the same at the end of `processResponse`, after the wait and the status write |
| Answers.MemberThereIff | controllers/dellcsivolumegroupsnapshot_controller.go:277-348 | for every script a member's snapshot exists after the answer iff it was there before or its two creations went through |
| Answers.AllThereIff | controllers/dellcsivolumegroupsnapshot_controller.go:277-348 | so the group, Complete or not, has all its members iff no creation of a new one failed |
| Limits.CompleteWithoutMember | controllers/dellcsivolumegroupsnapshot_controller.go:316-348 | a refused content leaves a group stored Complete and ready without its member |
| Meanings.CreatedPairMeans | controllers/dellcsivolumegroupsnapshot_controller.go:894-932 | every field of a created pair: written-out names, mutual reference, handle, class, driver, policy, group label |
| Meanings.RefreshMeans | controllers/dellcsivolumegroupsnapshot_controller.go:602-620 | a refresh sets handle and status from the driver and nothing else anywhere |
| Meanings.StoredGroupMeans | controllers/dellcsivolumegroupsnapshot_controller.go:335-342 | the stored group lists exactly its members by their written-out names, with the driver's ID and time, ready iff Complete |
| Integrity.MembersKeepIntegrity | controllers/dellcsivolumegroupsnapshot_controller.go:556-576 | under every script each created snapshot names an existing content that refers back and belongs to no other |
| ReconcileIntegrity.ReconcileKeepsIntegrity | controllers/dellcsivolumegroupsnapshot_controller.go:80-243 | one reconciliation, creating or deleting, keeps referential integrity wherever it fails or stops |
| Histories.IntegrityAlways | controllers/dellcsivolumegroupsnapshot_controller.go:80-243 | referential integrity after any history of reconciliations, deletions, notices and status writes |
| Resumption.EffectKeepsUnderway | controllers/dellcsivolumegroupsnapshot_controller.go:519-633 | a change a member can make keeps a store one that the answer can be finished on, orphans with other handles included, iff it is no orphan beside a stale content |
| PassRuns.DisturbedPass | controllers/dellcsivolumegroupsnapshot_controller.go:277-311 | a pass that fails or stops anywhere, but meets no harmful read, leaves such a store |
| PassRuns.UnderwayIffUnharmed | controllers/dellcsivolumegroupsnapshot_controller.go:277-311 | it does so iff it meets no harmful read |
| Resume.StopsAreTolerable | controllers/dellcsivolumegroupsnapshot_controller.go:277-311 | stops never do harm |
| Resume.NoneStaleIsTolerable | controllers/dellcsivolumegroupsnapshot_controller.go:277-311 | nor does any fault where no snapshot has a stale handle |
| PassRuns.PassOrphans | controllers/dellcsivolumegroupsnapshot_controller.go:556-573 | a pass orphans at most one content for each fault it meets |
| Resume.UndisturbedFinishes | controllers/dellcsivolumegroupsnapshot_controller.go:277-311 | an undisturbed pass that finds all statuses missing or ready finishes every member without error |
| Resume.ResumedFinishes | controllers/dellcsivolumegroupsnapshot_controller.go:277-311 | so does one after any number of processes that failed or stopped and met no harmful read, with statuses and the group written in between |
| Resume.ResumedEqualsUndisturbed | controllers/dellcsivolumegroupsnapshot_controller.go:277-311 | resuming and a single undisturbed pass end with the same snapshots up to content names and statuses and the same handles behind them; and with the same old contents if no member had an orphan with another handle |
| Resume.ResumedOrphans | controllers/dellcsivolumegroupsnapshot_controller.go:556-573 | at most one orphan for each stop is left |
| Rerun.RerunChangesNothing | controllers/dellcsivolumegroupsnapshot_controller.go:519-633 | a pass over a finished store without such orphans creates and changes nothing |
| Rerun.RerunIdleIff | controllers/dellcsivolumegroupsnapshot_controller.go:646-660 | it does so for all choices of the runtime iff there is no such orphan |
| Rerun.StaleOrphanIsTaken | controllers/dellcsivolumegroupsnapshot_controller.go:646-660 | from any start with such an orphan, resuming can change an old content that one undisturbed pass leaves alone |
| Rerun.RefusedCreateTangles | controllers/dellcsivolumegroupsnapshot_controller.go:556-573 | a refused snapshot creation and a later answer with another handle make such a start |
| Answers.AnswerResumed | controllers/dellcsivolumegroupsnapshot_controller.go:254-357 | the same for whole runs of `processResponse`, with statuses written during their waits and in between: an undisturbed one after any number of disturbed ones finishes all members |
| Answers.AnswerEqualsUndisturbed | controllers/dellcsivolumegroupsnapshot_controller.go:254-357 | and ends where a single undisturbed one ends, up to content names and statuses |
| Limits.StaleHandleSurvives | controllers/dellcsivolumegroupsnapshot_controller.go:520-524 | after a refused read with a stale handle the undisturbed pass can leave the handle stale |
| PassRuns.HarmfulReadOrphans | controllers/dellcsivolumegroupsnapshot_controller.go:520-573 | a harmful read leaves an orphan content with the new handle |
| Controller.Reconciler.DeleteVg | controllers/dellcsivolumegroupsnapshot_controller.go:445-502 | the policy-driven bulk delete and the finalizer's removal |
| Teardown.TeardownRemovesOnlyListed | controllers/dellcsivolumegroupsnapshot_controller.go:463-481 | whatever fails, only listed live snapshots go, contents only with one that names them, and nothing is changed |
| Teardown.AttemptIsPrefix | controllers/dellcsivolumegroupsnapshot_controller.go:463-481 | an attempt that misses no read removes exactly the live members of a prefix of the list, all if it does not fail |
| Teardown.PrefixGoneExactly | controllers/dellcsivolumegroupsnapshot_controller.go:463-481 | the same for one snapshot: it is left iff it is not a live one of the prefix |
| Teardown.UnfinalizedMeans | controllers/dellcsivolumegroupsnapshot_controller.go:483-484 | only the controller's own finalizer is dropped; all others stay, in order and as often as before |
| Teardown.RetryEqualsOneShot | controllers/dellcsivolumegroupsnapshot_controller.go:463-481 | a disturbed pass over the members and an undisturbed one equal an undisturbed one |
| Teardown.MissedReadIff | controllers/dellcsivolumegroupsnapshot_controller.go:466-473 | a pass over the members that reports success leaves no live one iff no read of a live member was refused |
| RetriedDeletion.FinalizerFate | controllers/dellcsivolumegroupsnapshot_controller.go:483-499 | the stored group loses the controller's own finalizer and nothing else iff the attempt reaches its last update and that goes through; otherwise it is as it was, and an error is reported unless the policy is neither Delete nor Retain |
| RetriedDeletion.EarlyFinalizerIff | controllers/dellcsivolumegroupsnapshot_controller.go:91-99 | reconciling a deleted group, the finalizer goes while a listed member is live iff a live member's read was refused and the last update went through |
| Limits.MissedReadDropsFinalizer | controllers/dellcsivolumegroupsnapshot_controller.go:466-488 | a script that does it |
| Teardown.TeardownKeepsIntegrity | controllers/dellcsivolumegroupsnapshot_controller.go:463-481 | teardown keeps referential integrity under every script |
| RetriedDeletion.RetryEqualsOneShot | controllers/dellcsivolumegroupsnapshot_controller.go:91-99 | reconciling a deleted group again after a failed or stopped attempt leaves the store of an undisturbed attempt |
| RetriedDeletion.RetriesEqualOneShot | controllers/dellcsivolumegroupsnapshot_controller.go:91-99 | so it does after any number of such attempts, with statuses written in between, up to those |
| Controller.Reconciler.Reconcile | controllers/dellcsivolumegroupsnapshot_controller.go:80-243 | one reconciliation with all its branches, driver call and writes |
| Controller.Reconciler.Record | controllers/dellcsivolumegroupsnapshot_controller.go:204-242 | finalizer, group ID, processing and final status write |
| Outcomes.IdleOutcomes | controllers/dellcsivolumegroupsnapshot_controller.go:87-112 | what is reported for a group that is unreadable, gone, deleted too early, Complete or Pending; nothing is changed |
| Outcomes.RefusedOutcomes | controllers/dellcsivolumegroupsnapshot_controller.go:114-201 | an undisturbed reconciliation ends Pending for label and list together or a crash, and in Error for a missing or foreign class, volumes that cannot be selected, or a failing driver, changing nothing else |
| Outcomes.DriverAsked | controllers/dellcsivolumegroupsnapshot_controller.go:175-192 | otherwise the driver is asked once, for the volumes of exactly the covered claims |
| Outcomes.CallReports | controllers/dellcsivolumegroupsnapshot_controller.go:192-201 | a driver that could not be asked or failed is reported; else its answer is recorded |
| Outcomes.AnswerStartMeans | controllers/dellcsivolumegroupsnapshot_controller.go:204-223 | finalizer and group ID are added where missing, by one write each, before the answer is processed |
| Outcomes.AnswerStores | controllers/dellcsivolumegroupsnapshot_controller.go:316-356 | the processed group differs in its status alone, which is the answer's and the wait's; an error is reported iff a member or the write failed |
| Outcomes.AnswerLists | controllers/dellcsivolumegroupsnapshot_controller.go:276-342 | its list splits into the written-out names of the members |
| Outcomes.RecordReports | controllers/dellcsivolumegroupsnapshot_controller.go:204-242 | behind the driver's answer no error is reported iff all writes go through and no member fails |
| Outcomes.CreatedGroupMeans | controllers/dellcsivolumegroupsnapshot_controller.go:204-348 | the group an undisturbed creation leaves, field by field |
| RoundTrip.PairsCreated | controllers/dellcsivolumegroupsnapshot_controller.go:277-311 | an undisturbed loop creates exactly the pairs of the members |
| CreateDelete.CreatedVerdict | controllers/dellcsivolumegroupsnapshot_controller.go:316-333 | the wait in a creation, with others writing statuses, ends as `Polling.WaitExact` says and changes only statuses |
| CreateDelete.QuietVerdict | controllers/dellcsivolumegroupsnapshot_controller.go:316-333 | with no one writing, it is a success iff a poll is due before the deadline |
| CreateDelete.CreatedStore | controllers/dellcsivolumegroupsnapshot_controller.go:80-243 | an undisturbed creation adds exactly the pairs, up to the statuses written meanwhile, stores the group and calls the driver once |
| CreateDelete.CreateDeleteRoundTrip | controllers/dellcsivolumegroupsnapshot_controller.go:80-243 | create and delete with status writes at any time: exactly the old objects are left under Delete, exactly the pairs extra under Retain, up to those statuses; a group that was not found ready is not deleted |
| GroupWrites.ReconcileEffect | controllers/dellcsivolumegroupsnapshot_controller.go:80-243 | what a reconciliation can store in its group, that it calls the driver at most once, and never for a locked group |
| Histories.EveryCompleteIsSound | controllers/dellcsivolumegroupsnapshot_controller.go:204-213 | in every history a stored Complete on an unmarked group is finalized and ready |
| Histories.DeletingCompleteTearsDown | controllers/dellcsivolumegroupsnapshot_controller.go:92-99 | so deleting a Complete group always enters the teardown |
| Histories.LockedForever | controllers/dellcsivolumegroupsnapshot_controller.go:101-112 | once Pending or Complete with an ID is stored, no later reconciliation calls the driver |
| Histories.PendingForever | controllers/dellcsivolumegroupsnapshot_controller.go:91-112 | a stored Pending stays in every history, and reconciling the group, deleted or not, does nothing |
| Limits.StoppedAfterPending | controllers/dellcsivolumegroupsnapshot_controller.go:114-128 | a creation stopped behind its Pending write leaves the group Pending |
| OpenGroups.OpenIff | controllers/dellcsivolumegroupsnapshot_controller.go:101-242 | a reconciliation that calls the driver leaves its group neither closed nor in Error iff no write to it went through and it was not in Error, or the last one stored it ready without an ID |
| OpenGroups.CalledAgainIff | controllers/dellcsivolumegroupsnapshot_controller.go:101-192 | the same reconciliation, now undisturbed, calls the driver again iff the group was not closed |
| Histories.CallsAreSeparated | controllers/dellcsivolumegroupsnapshot_controller.go:101-201 | in every history two driver calls for a group have a stored Error between them, unless the first one left the group open |
| Histories.UnseparatedIff | controllers/dellcsivolumegroupsnapshot_controller.go:101-201 | reconciling again undisturbed calls the driver with no Error stored iff it did |
| Histories.CarefulCallCloses | controllers/dellcsivolumegroupsnapshot_controller.go:114-118 | it did not if its Pending write was not refused and the driver gave an ID |
| Limits.RefusedPendingWrite | controllers/dellcsivolumegroupsnapshot_controller.go:114-118 | with the Pending write refused the driver is called twice and no Error is stored |
| Limits.LockedByGroupId | controllers/dellcsivolumegroupsnapshot_controller.go:101-106 | a group created ready is Complete, and closed to further driver calls iff it has an ID |
| Limits.UnnamedIsCalledAgain | controllers/dellcsivolumegroupsnapshot_controller.go:101-106 | without one the driver is called again with no Error stored |
| Limits.SmallIsFoundReady | controllers/dellcsivolumegroupsnapshot_controller.go:80-243 | a small cluster whose group is created undisturbed and found ready |
| Limits.SmallIsCalledTwice | controllers/dellcsivolumegroupsnapshot_controller.go:101-106 | there the driver is called twice if it gives no ID |
| Controller.Reconciler.HandleSnapContentDelete | controllers/dellcsivolumegroupsnapshot_controller.go:1136-1209 | the notice of a deleted content with its lookups, write and group deletion |
| Controller.Reconciler.RemoveMember | controllers/dellcsivolumegroupsnapshot_controller.go:1181-1188 | the loop removes the first occurrence of the name and no other |
| Lifecycle.RemoveFirstMeans | controllers/dellcsivolumegroupsnapshot_controller.go:1181-1188 | what is left is the list without the first occurrence, also of a name that occurs again |
| ContentEvents.StruckList | controllers/dellcsivolumegroupsnapshot_controller.go:1179-1191 | split, remove and join on the stored list is removing the name from the members |
| ContentEvents.NoticesInAnyOrder | controllers/dellcsivolumegroupsnapshot_controller.go:1136-1209 | after any sequence of notices the stored list is the original one without the reported members, in order, and an unmarked group is gone iff none is left |
| ContentEvents.DeletedWithTheLastMember | controllers/dellcsivolumegroupsnapshot_controller.go:1197-1204 | the group's deletion is issued by the notice that takes the last member and by no earlier one |
| ContentEvents.NoticeUnderFaults | controllers/dellcsivolumegroupsnapshot_controller.go:1149-1205 | under any faults, what one notice writes and when it issues the group's deletion, whether or not the list could be written |
| ContentEvents.NoticePassedOver | controllers/dellcsivolumegroupsnapshot_controller.go:1149-1176 | a content of no stored group's snapshot is passed over |
| Meanings.StoppedDoesNothing | controllers/dellcsivolumegroupsnapshot_controller.go:80-243 | a stopped process changes nothing and calls nobody, at whichever phase it stopped |

## Left out

- gRPC connection, probing and the driver itself: the driver is a call that answers or fails.
- Informers, event filters and controller set-up: library plumbing; their events are steps of a history.
- `handleSnapCreate`, `handleSnapUpdate`, `bindContentToSnapshot`: they log or change a copy that is never written.
- `GetReference`: reduced to the snapshot's namespace and name; it cannot fail for a VolumeSnapshot.
- Logging, events, `failedMap`, error texts: errors are modelled as the fact that one occurred and for which member.
- Concurrency of handlers and conflicts of resource versions: `schemaMutex` is local and locks nothing, so steps follow one another.
- The status subresource: an update writes the whole object, as in the fake client.
- Aliasing of the pointers the fake client keeps: objects are stored by value.
- The fake client's label match: a claim is listed when its `volume-group` label has the group's value, as the selector asks; the fake also accepts the value under another label.
- Polls that take time: each poll is instantaneous, since Go may keep choosing a ready tick after the deadline.
- Deletion of contents by others: excluded from the histories that keep referential integrity; only the notices of it are steps.
- CreateDelete.CreateDeleteRoundTrip: for the class policies Delete and Retain, and for written statuses that have their readiness flag.
- Resume.ResumedEqualsUndisturbed: for contents of the group's own driver and class, and statuses that are missing or ready and bound when an undisturbed pass begins.
- Status writes during the loop over the members: others write statuses between polls and between processes; the loop looks at each member's snapshot once.
- ContentEvents.NoticesInAnyOrder: for notices whose calls all go through.
