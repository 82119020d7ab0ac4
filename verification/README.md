# cs-sync: a verified model of its replication and sync core

cs-sync keeps data in step in three ways, and this project models the core of each and proves what it is for.

* **ZFS snapshot replication** (`zfs.go`, `zfsnet.go`). Primary and backup dataset each hold a list of sync snapshots
  in named slots. A cycle takes `new`, ships it, confirms it by GUID and rotates both sides with several renames and
  destroys; after a crash everything is derived from the two lists. Modules `Snapshots`, `SnapshotProofs`, `ZfsDataset`,
  `RetentionProofs`; local mode in `ZfsLocal` as a class whose every zfs command may fail (which ones do is an input; a
  crash is a command that never ran), LAN mode in `ZfsNet`, `ZfsNetProofs` (safety), `ZfsNetPlans` (the choice of the
  base), `ZfsNetCycle`, `ZfsNetResume`, `ZfsNetRecovery`, `ZfsNetRebase` (what gets through, and from where),
  `ZfsNetRetention` (what the two sides keep) as a state machine with one step for each command and each message, and
  death of either process or loss of the connection between any two steps.
* **Three-way sync of two trees** (`internal/reconcile`, `internal/apply`, `main.go`). `Model`, `Reconcile` (the merge
  and its rename detection, in loops over trees), `FileTree` and `Executor` (the file system calls and the operations
  built on them, run in the order of `applyOrdered`), `Merge` (a reference merge that knows no operations),
  `CellSteps`, `Renames`, `Units`, `Removing` (the run, operation by operation), `Convergence` and `Edits` (a pass as a
  whole, and the fate of each single edit in it), `NextInput`, `Passes`, `NextPass`, `Settling`, `Service` (several
  passes in a row, one-way mode), `RenameDetection` (which renames are found), `Shortcut` (rename detection against
  delete-and-copy), `Examples`, `ThirdPass` (inputs on which a pass does not converge).
* **The one-way network leg** (`internal/remote`, `internal/guard`). `Guard` (delete budget, freeze, backoff,
  quarantine), `RemoteTree` (the receiver's tree), `Baseline` (what acknowledged operations make of the persisted
  baseline), `PathOrder` and `Sender` (a pass with every operation failing, refused or skipped at will: the clock and
  what becomes of each request are inputs), `SmoothPass` (passes in which nothing goes wrong), `Transfer` (block
  transfer between `sendFile` and the receiver's begin/data/end machine).

A tree entry is compared by type and by size and mtime, or link target; `Model.Node` is what is left of an entry under
that comparison, so two entries have the same identity exactly if their nodes are equal, and the file systems of the
model hold nodes. Paths are sequences of components.

## Where the code falls short of what it is for

Each of these is proved of the model, with the condition under which it happens.

* A pass makes both sides and the new baseline agree **if and only if** three things hold of its input
  (`Convergence.PassConverges`): no directory deleted on one side holds something new or changed on the other; no rename
  came with an edit that kept the size; no two new files of a side have the inode of one vanished file. The last two hold
  whenever inode numbers identify files (`Convergence.InodesSuffice`). For a single edit, whatever the rest of the trees
  looks like, `Edits.EditFate` says exactly when it is on both sides after the pass and exactly when it is on neither.
  What the failing cases cost:
  * a file created or edited below a directory that the other side deleted is copied over, then removed with the
    directory where it was made, and after the next pass neither side has it (`NextPass.NewsAreDeletedLater`). No error is
    reported;
  * after a rename with an edit of equal size the next pass takes the old content for the newer one and reverts the edit
    (`NextPass.EditIsReverted`), because rename detection compares the size only;
  * of two hard links made from one renamed file neither side has the second after the next pass
    (`NextPass.SecondLinkIsDeleted`).
* When nothing changes in between, passes that start on a prefix-closed baseline bring the two sides and the baseline
  into agreement, at the cost named above: two of them if no rename came with an edit (`Settling.TwoPassesSettle`),
  three in any case (`Settling.ThreePassesSettle`). The third has something to do exactly if the second met a deleted
  directory that holds news (`Settling.ThirdPassExactly`), and there is an input for which it has
  (`ThirdPass.ThirdPassNeeded`).
* A pass without operations returns before the new baseline is saved (`main.go:594-597`). That makes no difference to any
  later merge exactly if both sides still are what the old baseline says (`Service.EarlyReturnExact`); if they have come
  to agree on something else, a file both have got and one then deletes comes back (`Service.EarlyReturnUndoesDeletion`).
* In local ZFS mode no cycle ever resumes an interrupted receive (`ZfsLocal.LocalPair.Cycle`): the snapshot it belongs to
  is gone from the primary by then. The repository's README.md promises (line 201) that interrupted transfers are
  resumed; the model follows the code and shows that the stale partial does no harm.
* In LAN mode, asking before a rollback and with nothing approved, a pair at rest gets back in step by undisturbed
  steps **if and only if** it is in neither of two states (`ZfsNetRecovery.SettlesExactly`):
  * the primary still calls `new` what the backup already has as `n0`. That is what a lost `rotate` plan leaves, and it
    can be reached from every start (`ZfsNetCycle.BlockedIsReachable`). Nothing is sent or changed any more until the
    operator approves exactly this rollback, of what both sides have confirmed (`ZfsNetRecovery.LeftBehindForever`). With
    that approval, or with automatic rollback, one undisturbed cycle settles the pair, and with nothing else
    (`ZfsNetRecovery.GoesBackExactly`). Where the snapshot the two sides share is the primary's `new` alone there is
    nothing to approve: a primary that keeps no versions can come there in its first cycle by dying twice
    (`ZfsNetRebase.NoWayBack`), and the backup answers "no common base snapshot" for ever;
  * the backup holds a partial receive of a snapshot that the primary has destroyed. A single stream that breaks while
    the primary lives leaves that, from every start (`ZfsNetResume.TrapIsReachable`), although resuming is promised for
    this mode too. The primary is asked to resume and cannot (`ZfsNetResume.ResumeExact`), and nothing is sent as long as
    the partial is not dropped, approvals or not (`ZfsNetResume.TrapLasts`).

  Safety is not affected (`ZfsNetProofs.LanSafety`). When the backup comes to choose a base, with no partial receive and
  no failed rotation before it, it has no plan to send on exactly if a stale `new` could not be destroyed or the first of
  the two states is there (`ZfsNetPlans.BlockedExactly`); a rotation that fails ends in an error plan as well.
* An approval of a mass delete is used up by the next pass in any case, also by one that finds the wrong source, no
  connection or nothing to do; `Sender.Sender.Pass` says exactly when a pass ends in which of these ways. An approval
  whose file cannot be removed is used again, and a freeze whose file cannot be removed outlives its approval.
* The block transfer's final hash covers the blocks in the order they came, not where their offsets put them: for blocks
  of given lengths the installed file is the hashed one, whatever they contain, exactly if the offsets are sequential
  (`Transfer.InstalledIsHashed`). The sender's are (`Transfer.Link.SendFile`).

## Model

| member | source | states |
|---|---|---|
| Model.IdentityIsNode | internal/model/entry.go:38-50 | the change-detection test is an equivalence: two entries pass it exactly if they have the same node |
| SnapshotProofs.EvictFacts | zfs.go:251-268 | what making room for a new n1 keeps: slot discipline, all other slots, and no snapshot but the n1 can go |
| SnapshotProofs.ShiftFacts | zfs.go:269-273 | with n1 free, n0 becomes n1 and nothing else changes its slot |
| SnapshotProofs.PromoteFacts | zfs.go:274-276 | with n0 free, new becomes n0 and nothing else changes its slot |
| SnapshotProofs.RotatedFacts | zfs.go:243-280 | a rotation that ran through: discipline kept, new is n0, n0 is n1, at most the old n1 is gone |
| SnapshotProofs.PrunedFacts | zfs.go:282-297 | pruning touches kept slots only and keeps discipline, even when some of its destroys fail |
| ZfsDataset.Dataset.Rotate | zfs.go:243-280 | runs through if no command fails; wherever it stops, the list is one of the four between its commands, disciplined, with new where it was or as n0; only an n1 or an aged-out snapshot is ever destroyed; every rename finds its target free (what is kept: RetentionProofs.EvictedExactly) |
| ZfsDataset.Dataset.Prune | zfs.go:282-297 | the list is the pruned one except for the slots whose destroy failed, none if no command fails, and only aged-out snapshots are destroyed |
| RetentionProofs.BoundedStorage | zfs.go:251-297 | after rotation and pruning at most keepHours+1 kh, keepDays+1 kd and keepDays+1 kf snapshots, for any list before |
| RetentionProofs.StepCovers | zfs.go:251-297 | one command keeps every hour and day covered from which a snapshot was ever evicted and that is still in the window |
| RetentionProofs.HourlyCoverage | zfs.go:251-297 | over any run of rotations, every hour inside the retention window from which a snapshot was evicted with versions on has a kept snapshot made in that hour |
| RetentionProofs.DailyCoverage | zfs.go:251-297 | likewise every day inside its window has one kept for the day, whatever the hours to be kept |
| RetentionProofs.FrozenCoverage | zfs.go:258-260 | and every day from which a frozen snapshot was evicted has a frozen one, also with versions off |
| RetentionProofs.EvictedExactly | zfs.go:251-268 | under which name the evicted n1 is kept, and exactly when it is not kept at all |
| ZfsNetRetention.PrimaryCoverage | zfs.go:243-297 | over any LAN run with crashes anywhere the primary keeps the hours and days its rotations claim |
| ZfsNetRetention.BackupCoverage | zfsnet.go:284-297 | over any LAN run in ask mode without approval so does the backup, with versions on whatever the primary does |
| ZfsLocal.SettledBase | zfs.go:398-409 | with equal n0 the chosen base is the backup's newest snapshot, so there is nothing to roll back |
| ZfsLocal.LocalPair.RecoverCycle | zfs.go:306-346 | from every state a crash can leave, a recovery that succeeds ends settled (no new, same n0, newest on both); one that fails leaves a state from which recovery still works |
| ZfsLocal.LocalPair.CompleteBoth | zfs.go:324-329 | both rotations of a confirmed cycle; interrupted anywhere the pair stays recoverable |
| ZfsLocal.LocalPair.CompleteBackup | zfs.go:330-335 | the backup's rotation after the primary's, with versions on whatever the primary does: a young n1 with room is kept; interrupted anywhere the pair stays recoverable, undisturbed it succeeds |
| ZfsLocal.LocalPair.Discard | zfs.go:336-345 | an unconfirmed new is dropped on both sides, the common n0 stays |
| ZfsLocal.LocalPair.Transfer | zfs.go:377-427 | from a settled pair, whatever fails on the way, the backup either is unchanged or has exactly the new snapshot added; it is never blocked and loses nothing, whatever an old partial receive names; from any other lists, exactly when the send is blocked, and what an approval lets through |
| ZfsLocal.LocalPair.Ship | zfs.go:360-435 | success means that both sides hold the new snapshot under its GUID; the backup loses nothing either way |
| ZfsLocal.LocalPair.Finish | zfs.go:436-452 | after the confirmation both sides end with the confirmed snapshot as n0, or recoverable if interrupted |
| ZfsLocal.LocalPair.Cycle | zfs.go:349-453 | from any recoverable state: success ends settled, failure recoverable, and it succeeds if no command fails; sends exactly if something changed; a young n1 of the backup is kept, a consistency mark goes on both sides; never newly blocked; no interrupted receive is ever resumed; the backup loses only an n1, what is out of retention, or a new unknown to the primary |
| ZfsNetProofs.StepKeepsInv | zfsnet.go:120-218 | every single command, message, death and lost connection on either side keeps the protocol invariant |
| ZfsNetProofs.DecideStep | zfsnet.go:266-303 | the backup's decision over a partial receive and a left-over new keeps the invariant: it only drops a new that the primary does not know |
| ZfsNetProofs.KeepNewStep | zfsnet.go:299-303 | so does the decision whose destroy of the stale new fails unnoticed and goes on with it |
| ZfsNetProofs.ChooseStep | zfsnet.go:304-326 | the base of a plan is common to both sides and stays so until the stream is received (when a plan is given: ZfsNetPlans.ChoiceExact, ZfsNetRecovery.GoesBackExactly) |
| ZfsNetProofs.ReadDoneStep | zfsnet.go:188-195 | the primary rotates only when the backup holds its new under the same GUID |
| ZfsNetProofs.GivesUpClean | zfsnet.go:179-198 | a primary that gives a cycle up without dying does so by destroying its new, and otherwise rotates only what the backup has as new |
| ZfsNetProofs.ReadRotateNowStep | zfsnet.go:453-478 | the backup rotates on request only what the primary has already rotated |
| ZfsNetProofs.LanSafety | zfsnet.go:120-218 | in every reachable state the two sides share a snapshot, a new on the backup is unknown to the primary or its new or n0, and both lists are disciplined |
| ZfsNetProofs.StepLosesAccounted | zfsnet.go:262-327 | a step that takes a snapshot from the backup is one of four kinds, each with its condition |
| ZfsNetProofs.RollbackAccounting | zfs.go:171-181 | in ask mode over any run a backup snapshot goes only as an unknown new, as an evicted n1, out of retention, or behind a base that an approval names together with the then newest snapshot |
| ZfsNetProofs.RenamesFindTheirTargetFree | zfs.go:243-280 | every rename a rotation issues finds its target slot free, also when it resumes a rotation cut short |
| ZfsNetPlans.CommonIsNewest | zfsnet.go:307-317 | the base is the last in the hello, new apart, of the snapshots both sides have |
| ZfsNetPlans.ChoiceExact | zfsnet.go:304-326 | in a reachable state of ask mode without approval: no plan to send on exactly if a stale new is left or the primary's new is the backup's n0; otherwise both sides have the same n0 |
| ZfsNetPlans.StepKeepsUnapproved | zfsnet.go:120-218 | in ask mode without approval every step, crash and loss keeps the two sides at most one rotation apart, and an increment is only under way while they have the same n0 |
| ZfsNetPlans.BlockedExactly | zfsnet.go:304-326 | over any run in ask mode without approval: exactly when the backup's choice ends blocked or without a base |
| ZfsNetPlans.BlockedOnlyByLostPlan | zfsnet.go:304-326 | if no destroy of a stale new failed either: exactly if the primary's new is the backup's n0 |
| ZfsNetCycle.UndisturbedCycle | zfsnet.go:120-218 | from any state at rest with the same n0 on both sides, whatever new the primary has, a cycle that nothing disturbs makes the next snapshot n0 on both sides and the former n0 n1, uses up a placed approval, and takes nothing from the backup but the old n1 and a new the primary does not know |
| ZfsNetCycle.LostPlanBlocks | zfsnet.go:284-295 | when the plan kind rotate is lost after the backup rotated, the next cycle ends blocked or without a base |
| ZfsNetCycle.BlockedIsReachable | zfsnet.go:284-326 | from every start a run with two deaths of the primary ends there, with the same confirmed snapshot on both sides |
| ZfsNetResume.ResumeExact | zfsnet.go:156-162 | in every reachable state, a primary asked to resume can do so exactly if the token's snapshot still is its new |
| ZfsNetResume.TrapIsReachable | zfsnet.go:179-200 | from every start a stream that breaks while the primary lives, and one more cycle, end with a primary asked to resume a snapshot it has destroyed |
| ZfsNetResume.TrapLasts | zfsnet.go:270-275 | from then on, over any run with crashes and approvals anywhere, no snapshot is taken or sent and the backup does not change until it drops the partial |
| ZfsNetRecovery.Resumed | zfsnet.go:156-162 | otherwise the rest arrives in one undisturbed cycle, and the snapshot is new on both sides |
| ZfsNetRecovery.CaughtUp | zfsnet.go:284-292 | what is new on both sides becomes n0 on both in one undisturbed cycle, and the backup loses at most its old n1 |
| ZfsNetRecovery.RotatedFirst | zfsnet.go:293-297 | a backup that has yet to rotate what the primary has rotated does so, and the same cycle goes on to make the next snapshot n0 |
| ZfsNetRecovery.LeftBehindForever | zfsnet.go:304-326 | while the primary's new is the backup's n0 and this rollback is neither automatic nor exactly approved, no run changes either side, whatever else is approved |
| ZfsNetRecovery.RolledBack | zfsnet.go:320-326 | with the rollback approved or automatic one undisturbed cycle goes back to the common base, makes the next snapshot n0 on both sides and uses the approval up |
| ZfsNetRecovery.GoesBackExactly | zfsnet.go:304-326 | from every reachable state at rest whose primary calls new what the backup has as n0: undisturbed steps settle the pair exactly if there is a common base and the rollback is automatic or approved with exactly this base and newest snapshot |
| ZfsNetRebase.NoWayBack | zfs.go:251-276 | in its first cycle a primary without versions can by dying twice keep nothing but its new, which is no base, and then no approval helps |
| ZfsNetRecovery.SettlesExactly | zfsnet.go:120-327 | after any run in ask mode without approval: a pair at rest can be brought back to a settled state by undisturbed steps exactly if the primary's new is not the backup's n0 and the backup waits for no snapshot that the primary has destroyed |
| Reconcile.Result.Visit | internal/reconcile/reconcile.go:73-124 | the merge switch adds for one path exactly what the case distinction over the three trees demands |
| Reconcile.Result.DetectSide | internal/reconcile/rename.go:21-71 | the two map loops find exactly the renames of the specification for some order of the maps, and consume their two names |
| Reconcile.ReconcileTrees | internal/reconcile/reconcile.go:48-127 | the whole merge: both rename detections, then every path not consumed once |
| Merge.OriginOfConflict | internal/reconcile/reconcile.go:181-183 | a conflict name stands in the directory of its path and gives the path back |
| Merge.PairFits | internal/reconcile/rename.go:34-68 | what a detected rename guarantees on the three trees: old name unchanged on one side and gone on the other, new name only on the other, same size |
| Merge.PairsDisjoint | internal/reconcile/rename.go:73-76 | the names consumed for the two sides never overlap, and no new name is an old one |
| Merge.NewBaselineIsTarget | internal/reconcile/reconcile.go:48-127 | the new baseline is, path by path, the textbook merge plus the conflict copies, whatever renames were found |
| Merge.ConflictCount | internal/reconcile/reconcile.go:150-179 | the conflicts reported are exactly the paths that both sides have changed differently |
| FileTree.RenameToKeeps | internal/apply/executor.go:98-107 | the rename call keeps every entry below a directory, for files and whole subtrees, whether it succeeds or not |
| FileTree.MoveAt | internal/apply/executor.go:98-107 | renaming a file changes the two named cells and no other |
| Executor.AppliedKeepsTrees | internal/apply/executor.go:78-125 | every operation, successful or not, leaves a tree in which every entry has its directories |
| Executor.Executor.Apply | internal/apply/executor.go:67-76 | operations run in the given order, a failing one is counted and does not stop the rest |
| Executor.Executor.ApplyOrdered | main.go:839-855 | everything that creates, in order, before everything that removes, in reverse order |
| Executor.Reverse | main.go:851-853 | the in-place swap loop reverses |
| CellSteps.StepCopy | internal/apply/executor.go:207-264 | a copy of something new or changed succeeds and sets its own cell; directories it makes above are wanted there |
| CellSteps.StepRename | internal/apply/executor.go:98-104 | replaying a rename succeeds exactly if its source is still there and then moves that one entry |
| CellSteps.StepConflictRename | internal/apply/executor.go:106-110 | moving the losing version aside succeeds and touches two cells |
| Renames.RenameRun | internal/reconcile/rename.go:66-69 | the renames of one side in a row: the cells they leave, and as many failures as sources claimed twice |
| Units.OneUnit | internal/reconcile/reconcile.go:73-124 | the creating operations of any one path succeed and bring exactly its cells to what the merge plans |
| Units.AllUnits | internal/reconcile/reconcile.go:68-124 | the same for all paths in whatever order |
| Units.ClashUnit | internal/reconcile/reconcile.go:150-163 | the three operations of a double change succeed and leave the primary's version at the path and the secondary's under the conflict name, on both sides |
| Units.ClashDeleteUnit | internal/reconcile/reconcile.go:167-179 | the two operations of an edit that meets a deletion succeed and leave nothing at the path and the edit under the conflict name, on both sides |
| Removing.DeleteHalf | main.go:851-854 | no delete fails, and a path goes exactly if it, or a directory above it, was deleted on the other side while it stood unchanged here |
| Convergence.PassConverges | main.go:590-603 | a pass makes both trees and the new baseline agree if and only if the input is quiet, its renames are faithful and no two share a source; operations fail only in the last case |
| Convergence.Settles | internal/reconcile/reconcile.go:48-127 | under these conditions each side holds at each path what the reference merge says |
| Convergence.DisturbedStrays | internal/apply/executor.go:96-97 | news below a deleted directory are gone where they were made although the baseline lists them |
| Convergence.UnfaithfulStrays | internal/reconcile/rename.go:52-55 | a rename with a same-size edit leaves the two sides different |
| Convergence.SharedStrays | internal/reconcile/rename.go:48-51 | of two renames from one source the second leaves its name missing |
| Convergence.InodesSuffice | internal/reconcile/rename.go:48-55 | if on each side no two new files share an inode, and same inode and size mean same identity, then all renames that can be detected are faithful and unshared |
| Edits.EditFate | internal/reconcile/reconcile.go:73-124 | for any one edit in any sound input: it is on both sides afterwards exactly if no directory above it is dropped and it is not a rename that could not be replayed, and on neither exactly if both are the case |
| Edits.NoEditLost | internal/reconcile/reconcile.go:73-124 | in a pass that converges, every version that differs from the baseline is afterwards on both sides, under its own or its conflict name |
| Edits.DroppedFileGoes | internal/reconcile/reconcile.go:84-101 | a file deleted on one side and untouched on the other is on neither afterwards |
| Edits.ExactCell | internal/apply/executor.go:78-125 | where a pass with faithful and unshared renames ends, cell by cell, also when it does not converge: a dropped directory is there exactly if something was brought below it |
| NextInput.NextIsSound | internal/reconcile/reconcile.go:48-127 | where a pass ends, converged or not, the theorems apply again: trees, kinds of entries and baseline are what they ask for |
| NextInput.FilesAreRecorded | internal/reconcile/reconcile.go:73-124 | every file or link a side has after any pass is in the new baseline |
| NextInput.NextHasNoRenames | internal/reconcile/rename.go:18-78 | with no change in between the next pass finds no renames |
| Settling.TwoPassesSettle | main.go:590-603 | on a prefix-closed baseline with faithful renames two passes make both sides and the baseline agree, and the next is idle |
| Settling.ThreePassesSettle | main.go:590-603 | on a prefix-closed baseline three passes always do |
| Settling.ThirdPassExactly | main.go:590-603 | the third pass has operations exactly if the input of the second was not quiet |
| ThirdPass.ThirdPassNeeded | internal/reconcile/rename.go:52-55 | a concrete input for which it has |
| Passes.Fixpoint | internal/reconcile/reconcile.go:48-127 | on three trees that agree: no operation, no conflict, the same baseline |
| Passes.SecondPassIdle | internal/reconcile/reconcile.go:48-127 | after a pass that converged the next one does nothing |
| NextPass.NewsAreDeletedLater | internal/apply/executor.go:96-97 | something made below a deleted directory is left on the other side only, and after the next pass a file made so is on neither |
| NextPass.EditIsReverted | internal/reconcile/rename.go:52-55 | after a rename with a same-size edit the next pass leaves the old content on both sides |
| NextPass.SecondLinkIsDeleted | internal/reconcile/rename.go:48-55 | of two links from one source the second is on neither side after the next pass |
| Passes.Mirror | main.go:678-688 | one-way, push and pull: all operations are for the mirror, no conflict, the source is untouched, and the mirror ends equal to it exactly if the renames are faithful and unshared |
| RenameDetection.FoundExactly | internal/reconcile/rename.go:21-71 | of a file that is the only one of its inode to vanish, the renames found are exactly those to a new file of its inode and size, where the other side is clean |
| RenameDetection.FoundIsReplayed | internal/reconcile/rename.go:66-69 | a rename found becomes a rename operation, and the old name is on neither side afterwards |
| RenameDetection.WinnerRecorded | internal/reconcile/reconcile.go:73-124 | a version that keeps its name is recorded with the whole entry of the side it came from, inode included |
| RenameDetection.RecognisedNext | internal/reconcile/rename.go:21-71 | so a file changed in one pass and renamed before the next is recognised then |
| RenameDetection.SenderRecognises | internal/remote/sender.go:452-485 | the same for the sender: what it has brought over and the primary renames is renamed on the receiver |
| Shortcut.ZeroedRenames | internal/reconcile/rename.go:29-31 | without inode numbers no rename is ever found |
| Shortcut.RenamesRefineCopies | internal/reconcile/rename.go:18-78 | against the same input without inode numbers, for every sound input: always the same baseline, and the same trees exactly if the renames are faithful and unshared |
| Service.Service.Pass | main.go:588-607 | a two-way pass merges with the saved baseline; in push mode every operation is for the secondary, the primary stays as it is and the secondary ends equal to it exactly if the renames are faithful and unshared, in pull mode the other way round; the operations are applied and the baseline saved, except that without operations nothing is saved |
| Service.EarlyReturnExact | main.go:594-597 | without operations both sides agree, and throwing their baseline away makes no difference to any later merge exactly if they are what the old one says |
| Service.EarlyReturnUndoesDeletion | main.go:594-597 | with the baseline left unsaved a later deletion, of a directory too, is undone by the next pass; with it saved the merge drops the path, and a file is gone on both sides |
| Examples.FolderDeletedFails | internal/apply/executor.go:96-97 | a concrete input that is not quiet |
| Examples.RenamedAndEditedFails | internal/reconcile/rename.go:52-55 | a concrete input with an unfaithful rename |
| Examples.LinkedTwiceFails | internal/reconcile/rename.go:48-51 | a concrete input with a shared source |
| Examples.EarlyReturnFails | main.go:594-597 | a concrete input without operations on which the baseline should have been saved |
| Examples.FolderFollows | internal/apply/executor.go:96-97 | where the pass ends on the input that is not quiet, side by side |
| Examples.FolderNextIsSound | internal/reconcile/reconcile.go:48-127 | the next pass on it is one the theorems speak about, although the baseline lists a file without its directory |
| Guard.BudgetBounds | internal/guard/guard.go:72-86 | passing the check means exactly: at most MaxCount deletes, and strictly under MaxPercent+1 percent |
| Guard.BackoffDoubles | internal/guard/guard.go:132-138 | in spite of the wrapping 64-bit shift the wait is min(2^a s, 300 s) for every attempt count |
| Guard.BackoffWindow | internal/guard/guard.go:141-174 | after a failure a path is skipped for the whole backoff and then tried again, unless the tenth failure has quarantined it |
| Guard.Markers.ConsumeApproval | internal/guard/guard.go:103-111 | an approval is used up by the pass that sees it and lifts the freeze; either file may fail to go, which is not noticed |
| Guard.RetryState.Fail | internal/guard/guard.go:141-160 | attempts grow by one and reach ten exactly when the path is quarantined; other paths are untouched |
| RemoteTree.FailureAddsOnlyDirs | internal/remote/receiver.go:160-249 | a request that fails leaves at most new directories behind, also a link request that removes before it creates |
| RemoteTree.ServedKeepsTree | internal/remote/receiver.go:160-249 | the receiver's tree stays a tree under every request |
| RemoteTree.AgainIsHarmless | internal/remote/receiver.go:160-249 | a request repeated after a lost answer succeeds again and changes nothing more, except a rename |
| RemoteTree.RenameAgainFails | internal/remote/receiver.go:171-194 | a repeated rename is refused |
| Baseline.ServedMirrors | internal/remote/sender.go:452-485 | an operation served and recorded keeps the baseline describing the receiver, for every kind of operation and also for subtrees |
| Baseline.MoreDirsMirror | internal/remote/receiver.go:183-185 | directories made by requests that failed do not disturb that |
| Baseline.FilesAreExact | internal/remote/sender.go:25-36 | what describing means: the same files and links with the same identity, and every recorded directory exists |
| Baseline.GoneIsCounted | internal/remote/sender.go:194-205 | every baseline entry the primary lacks is a counted delete of its own or the old name of a rename |
| Baseline.BoundedDamage | internal/remote/sender.go:202-215 | whatever part of the pass is acknowledged, the entries that disappear other than by rename number at most the counted deletes, although one removal drops a subtree |
| Baseline.ReceiverLoss | internal/remote/sender.go:452-463 | a file that disappears from the receiver has disappeared from the baseline, so the bound holds there too |
| Baseline.FirstPass | internal/remote/sender.go:464-483 | after a pass without failures the baseline lists nothing the primary lacks |
| Baseline.SecondPass | internal/remote/sender.go:480-483 | after the next one it has the primary's identities, also of files renamed and edited |
| Baseline.TwoPassesSuffice | internal/remote/sender.go:174-296 | with an unchanged primary and nothing skipped or failed, after two passes there is nothing left to send |
| PathOrder.SendOrder | internal/remote/sender.go:233-234 | in the order sent, no directory comes after something below it, and none is removed before something below it |
| PathOrder.SortedIsOrdered | internal/remote/sender.go:233-234 | sorting by the slash-joined names orders |
| Sender.Sender.CheckSource | internal/guard/guard.go:42-59 | an unreadable device or another one than first seen is refused, and nothing else; the first known device is recorded |
| Sender.Sender.ApplyToBaseline | internal/remote/sender.go:452-485 | the loops over the entries move or drop a whole subtree of the baseline as the receiver's call did of its tree |
| Sender.Sender.Attempt | internal/remote/sender.go:251-275 | one operation is acknowledged exactly if it is carried and can be served; a failure is one attempt more, with its retry time, and quarantine exactly at ten; either way the baseline describes the receiver |
| Sender.Sender.Deliver | internal/remote/sender.go:246-276 | over all failures, refusals, backoffs and lost connections: each operation in turn is asked for exactly if it is neither in backoff or quarantine nor below a directory that could not be made, until the connection breaks; every outcome is recorded; the baseline is what the acknowledged operations make of it and describes the receiver |
| Sender.Sender.Pass | internal/remote/sender.go:174-296 | exactly when a pass is frozen, not ready (source or connection), over the budget, idle or sends; only the last sends anything; a pass over the budget needs and uses up an approval; a recorded device stays; the baseline keeps describing the receiver |
| Sender.SourceForever | internal/guard/guard.go:42-59 | over any passes the recorded device of the source never changes, and none that finds another one asks for anything |
| Sender.TenFailuresQuarantine | internal/guard/guard.go:141-160 | over any passes without a success between, each failure of a path counts, and it is quarantined exactly when ten have |
| Sender.RetryWaits | internal/guard/guard.go:162-174 | after its n-th failure a path is not asked for again before 2^n seconds, at most five minutes, have passed |
| Sender.QuarantineForever | internal/guard/guard.go:162-181 | over any later passes a quarantined path is never sent and never cleared |
| Sender.UnapprovedDamage | internal/remote/sender.go:202-215 | a pass without approval takes at most MaxCount entries and under MaxPercent+1 percent of the old baseline, old names of renames apart |
| Sender.SmoothPassesFinish | internal/remote/sender.go:174-296 | two passes in which nothing was skipped or failed leave nothing to send |
| SmoothPass.NextServed | internal/remote/receiver.go:160-249 | whatever operation of a pass is next, a receiver that is what the baseline says can serve it and is what the new baseline says |
| SmoothPass.UndisturbedIsSmooth | internal/remote/sender.go:246-276 | so a pass with a line that carries everything and nothing to retry acknowledges every operation |
| SmoothPass.TwoUndisturbedPasses | internal/remote/sender.go:174-296 | and two of them bring the receiver to an unchanged primary and leave nothing to send |
| Transfer.OpenIsSince | internal/remote/receiver.go:251-305 | the transfer in progress is about the last begin, and its hash has seen exactly the blocks since |
| Transfer.OpenExactly | internal/remote/receiver.go:251-305 | a transfer is in progress exactly if the last begin was served, no end has followed and every block since came with its own hash |
| Transfer.BadBlockEndsTransfer | internal/remote/receiver.go:289-294 | a block that is not what its hash says is refused, and until a new begin everything of its transfer is refused and no content changes |
| Transfer.SequentialFile | internal/remote/receiver.go:299-304 | with sequential offsets the temporary file holds those blocks |
| Transfer.ContentChangesOnlyAtEnd | internal/remote/receiver.go:306-326 | over any frame sequence the content of a path changes only at an end whose hash is that of the blocks received since the last begin for that path |
| Transfer.SequenceExact | internal/remote/receiver.go:297-304 | blocks of given lengths written at given offsets make the file that was hashed, whatever they contain, exactly if the offsets are sequential |
| Transfer.InstalledIsHashed | internal/remote/receiver.go:251-326 | the same for the receiver's machine over a whole transfer |
| Transfer.MisplacedBlocks | internal/remote/receiver.go:297-304 | a concrete transfer whose matching hash installs something else |
| Transfer.Receiver.Handle | internal/remote/receiver.go:251-326 | the frame loop's transfer cases update tree, content and transfer state as specified, errors included |
| Transfer.Link.SendBlocks | internal/remote/sender.go:354-377 | for every file length the blocks sent make up the file, in as many frames as full and partial blocks |
| Transfer.Link.SendFile | internal/remote/sender.go:334-391 | the file gets there exactly if it held still, all frames arrived and nothing is in the way, and then exactly the bytes read are installed, otherwise no content has changed; the sender sees a success exactly if it also hears the last answer |

## Left out

- Recursive replication (`-R`, `fixTree`) and the very first full send before `cs:sync` is set: the models start once the first snapshot is confirmed.
- Proxmox configuration properties, `cs-freeze4snap` and `cs:sync` checks: side data; only the consistency mark is kept, because it decides whether an evicted n1 becomes `kf`.
- LAN mode: a cycle may start at any time, while the code dials only if the dataset has changed or a `new` is left (`zfsnet.go:125-127`).
- LAN mode is a state machine and not a pair of classes: what it is about are interleavings of two processes, and `planBackup` and `cycleRemote` are cut there into one step for each command and message.
- RetentionProofs.HourlyCoverage: assumes that hour retention is not longer than day retention and, as do DailyCoverage and FrozenCoverage for days, that the hours of the kept snapshots have different names, because a label has no year; a change of the host's UTC offset is not modelled.
- Other holders of the datasets: nobody else touches the sync snapshots, single zfs commands are atomic, GUIDs are fresh.
- Access control lists, `acl.csv`, permission bits and the rclone/RustFS targets.
- Symbolic links in the place of a directory or as the source of a file copy: the executor follows them, the model treats a link as neither.
- Partial effects of a failing copy other than the directories made for it; a copy is taken to keep size and mtime.
- Reconcile.ReconcileTrees: visits paths in an arbitrary order instead of the sorted one; the theorems hold for every order.
- Reconcile.ConflictPath: all conflict names of a pass carry one time stamp; the code reads the clock for each.
- Convergence.PassConverges: assumes that the two trees are prefix-closed, that a path is a directory on all sides or on none, that no conflict name is taken, and that the trees do not change between scan and apply.
- Sender.Sender.SendOp: an answer is never lost after the receiver has acted; what happens then is stated for a single request (`RemoteTree.AgainIsHarmless`, `RemoteTree.RenameAgainFails`, `Transfer.Link.SendFile`).
- Sender.Sender.Pass: the source does not change between scan and send, the retry state on disk is intact (a corrupt file starts afresh), and the process does not die between an acknowledged operation and the saving of the baseline at the end of the pass (`internal/remote/sender.go:291`); after such a death the receiver is ahead of the saved baseline.
- RemoteTree.FailureAddsOnlyDirs: does not cover a link request whose symlink call fails after its remove has succeeded, for example on a full disk; the old link is gone then until the request is repeated.
- The receiver's path check (`full`), handshake, encryption, frame encoding, rate limit, lock file, watchers, status files, command line.
- Transfer.Taken: an end frame with the short text of a torn copy is a failed transfer; the receiver's error message slices twelve characters of it and would panic, which is not modelled.
