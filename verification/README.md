# Verified models of the hosting panel's crash-safe core

The panel hosts WordPress sites in Docker. Two of its duties must survive a crash at any
moment: the ownership of disk-quota projects on an XFS filesystem, and the receipts by which
panel and worker agree on what an operation did. This project models that logic in Dafny and
proves what it promises. `dafny verify dfyconfig.toml` checks everything.

Every durable write is atomic: a process can die, or a write can fail, between any two of
them, and a write can take effect although it is reported as failed (in the native helper a run
stops behind any number of its effects, by dying or by an error, which covers both). Kernel,
Docker, network and disk answer as they please; each run receives their answers as a parameter.

| file | what it models |
|---|---|
| `Common.dfy` | options, verdicts, the budget of durable writes, facts about finite sets |
| `ProjectSet.dfy` | the census's open-addressing table of project identifiers, and its sorted list |
| `Journal.dfy`, `Pinning.dfy`, `TagState.dfy` | the inode journal, its binary search, and the state of one tagging run |
| `Census.dfy` | the two cursor scans of the filesystem over untrusted replies |
| `Ownership.dfy` | the global ownership check and the check of all journals against the index |
| `TagDisk.dfy` | what tagging may do to a disk that can lose unsynced changes, over whole histories |
| `SteadyDisk.dfy` | a filesystem at rest: what truthful scans of it report at every stage of tagging |
| `Tagging.dfy` | the tagging program: survey, inode by inode, second survey |
| `Snapshot.dfy`, `Authority.dfy` | the read-only walks, and claiming: owner record, burned index, journals |
| `ClaimToTag.dfy` | from a prepared claim to tagged trees: when the claim's journal is one that tagging accepts |
| `Registry.dfy` | the worker's append-only reservation ledger and its allocator |
| `Transition.dfy` | a site's quota plan from pending over prepared to tagging and tagged |
| `Receipts.dfy`, `Installation.dfy`, `Retention.dfy` | the receipt protocol, the programs on both sides, backup retention |
| `SiteStatus.dfy` | how container states become a site's status |
| `Supervisor.dfy` | intent, guard, preflight, fence and every operation that launches a writer |
| `WriterPolicy.dfy` | the generator of the ioctl rules in the writer's seccomp profile |
| `Compose.dfy`, `RestartPolicy.dfy`, `ComposePolicy.dfy` | the three rewrites of a site's Compose file |
| `ComposeGuards.dfy` | which service's section the policy rewrite puts its guard lines in |
| `ComposeStored.dfy` | what is left of the limits when the rewrites follow one another |
| `Capacity.dfy`, `Fleet.dfy` | memory admission of one request, and over whole runs of panel and worker |
| `Measurement.dfy` | the measurement of a host from directories and Docker's answers |

## What turned out

- *Asymmetric limits.* Admission alone does not keep the memory budget. With a configuration
  below the request and live limits on both sides of it, the state between writing the new
  configuration and recreating the containers breaks the budget
  (`Capacity.AsymmetricLimitsBreakTheBudget`); `Capacity.StraddlingDecides` shows that this is
  the only way, for creations, retried creations and changes alike. It never happens on the
  panel's own runs (`Fleets.BudgetIsKept`): a change needs both containers at exactly the
  configured limit, and a creation is retried only while nothing but the recorded limit was ever
  asked for. The retried creation itself does not compare limits; it is the panel's record that
  protects it.
- *Interrupted deletion.* Reconciling twice with the same snapshot changes nothing but the check
  time, except for a site saved as deleting with nothing pending:
  `Receipts.InterruptedDeletionChangesTwice` shows such a site and `Receipts.ReconcilingAgain`
  gives the exact condition.
- *Orphaned guard.* A first run that stops right behind the launch guard leaves a marked site
  without a plan (`Transitions.QuotaTransition.Run` says exactly when,
  `Transitions.OrphanedGuardIsReachable` gives a history). A marked site gets no reservation, so
  no later run can complete until the site is deleted (`Transitions.OrphansGetNoPlan`,
  `Transitions.MarkedSitesRecoverByTheirPlan`, `Transitions.OrphanedGuardIsPermanent`).
- *Empty filesystem.* A request that is not a claim, sent first, leaves the lock behind and with
  it a filesystem on which every later claim is refused (`Authorities.OnlyAClaimComesFirst`).
- *Full census.* A claim is prepared although 65536 other identifiers are in use, all that a census
  admits. Its own identifier comes into use with the first tag, so such a claim can never be tagged:
  on truthful answers no survey of the tagged trees is accepted (`ClaimedJournals.FullCensusRefuses`).
  The journal of a prepared claim matches its filesystem exactly if there is room for the identifier
  (`ClaimedJournals.PreparedJournalMatches`).
- *Two decimals.* A CPU limit is written with two decimals. Of all valid limits exactly the whole
  quarters read back as they were (`Compose.PutGet`); validation tolerates values beside them,
  and `Compose.BesideAQuarterIsForgotten` gives one.
- *Counting guard lines.* The writer rewrite checks sums over the whole text. With both legacy
  lines below WordPress it accepts and leaves the database without a guard line
  (`ComposeGuards.ShiftedLeavesDatabaseUnguarded`); every writer is guarded exactly if every
  service but cli had its legacy line (`ComposeGuards.RewriteGuardsEachSection`).
- *Option in the path.* The writer rewrite refuses its own output if the site's quoted seccomp
  path itself contains the option's name (`ComposeGuards.OptionInPathIsRefused` gives a path),
  and otherwise leaves its output alone (`ComposePolicies.WriterRewriteIsStable`).
- *Quota records.* The quota scan makes at most 65537 calls. Behind 65536 records a further one
  is accepted only if it is the last possible identifier, even if the identifiers fit the table
  (`Census.LastRecordDecides`); `Census.DenseQuotasAreRefused` gives such a filesystem.

## Model

| member | source | states |
|---|---|---|
| `ProjectSets.ProjectSet.Probe` | deploy/storage-inventory.h:17-18 | The probe loop ends within one turn of the table, on the identifier or on a free slot, and finds the identifier exactly if it is in the set |
| `ProjectSets.ProjectSet.AddProject` | deploy/storage-inventory.h:15-22 | The table refines a set: insertion fails only for a new identifier at 65536 entries, stores no duplicate, and the counter is the size of the set |
| `ProjectSets.TableHasRoom` | deploy/storage-inventory.h:10-18 | Every probe path has a free slot, since half of the table stays free |
| `ProjectSets.PresentBeforeFree` | deploy/storage-inventory.h:17-19 | An identifier in the table is met before any free slot of its path |
| `ProjectSets.InsertKeepsWellFormed` | deploy/storage-inventory.h:17-21 | Filling the free slot of a probe breaks no other path and adds exactly the identifier |
| `ProjectSets.MemberCount` | deploy/storage-inventory.h:13-21 | The counter equals the number of nonzero slots and of members |
| `ProjectSets.ProjectSet.Collect` | deploy/storage-inventory.h:135-136 | The collected list has every member once and no zero |
| `ProjectSets.SortedCensusIsStrict` | deploy/storage-inventory.h:111-144 | Any sorted rearrangement of the collected list is strictly increasing, has no zero and lists the same set |
| `ProjectSets.CheckCensusIds` | cmd/worker/quota_registry.go:140-154 | The worker's pass over the printed list accepts exactly the strictly increasing lists without zero of at most 65536 entries |
| `Census.SeenInodesRise` | deploy/storage-inventory.h:30-49 | For any replies, inode numbers rise over all batches of the scan so far, so no inode is reported twice |
| `Census.CertifiedOnce` | deploy/storage-inventory.h:30-51 | At most one number of calls certifies an inode scan |
| `Census.QuotasCertifiedOnce` | deploy/storage-inventory.h:52-65 | At most one number of calls certifies a quota enumeration |
| `Census.LastRecordDecides` | deploy/storage-inventory.h:54-64 | Behind 65536 good records a further one is certified exactly if it is the last possible identifier |
| `Census.DenseQuotasAreRefused` | deploy/storage-inventory.h:54-64 | A concrete filesystem: 65537 records whose 65536 nonzero identifiers fit, never certified |
| `Census.AdmitsPrefix` | deploy/storage-inventory.h:43-44 | The limits and the per-inode check are monotone: what refuses a prefix refuses the whole scan |
| `Census.InodeCensus` | deploy/storage-inventory.h:29-51 | The first loop ends for any replies, and succeeds exactly on certified ones, with the set, the counts and the inode limit they imply |
| `Census.QuotaCensus` | deploy/storage-inventory.h:52-65 | The second loop succeeds exactly on certified enumerations and adds exactly their nonzero identifiers |
| `Census.CheckedCensus` | deploy/storage-inventory.h:25-66 | On success at most 1000000 inodes were scanned and the set is exactly the nonzero identifiers of both scans; refusal means that no calls certify the replies |
| `Snapshots.AuditTree` | deploy/storage-inventory.h:72-109 | The audit accepts exactly the trees whose inodes are all clean and fit the limit, and counts them |
| `Snapshots.Snapshot.CollectNodes` | deploy/storage-authority.c:84-113 | Collection succeeds exactly on collectable trees that fit, and appends exactly the inodes of the walk in order |
| `Journals.CompareNode` | deploy/storage-authority.c:115-119 | The comparison orders nodes by tree and then inode, and is zero only for the same pair |
| `Journals.NodeIndex` | deploy/storage-tagging.h:14-18 | Binary search on a sorted table finds the node of an inode and tree, or there is none |
| `Journals.InodeIndex` | deploy/storage-tagging.h:20-23 | Lookup over both trees finds the node of an inode, or there is none |
| `Journals.InodeIndexInverse` | deploy/storage-tagging.h:20-46 | On a valid journal the lookup inverts the numbering of nodes |
| `Journals.CheckNodes` | deploy/storage-tagging.h:35-41 | Adjacent comparisons establish the order of the whole table and the boundary between the trees |
| `Journals.CheckTrees` | deploy/storage-tagging.h:42-44 | The second pass accepts exactly tables without an inode in both trees |
| `Journals.ReadJournal` | deploy/storage-tagging.h:29-46 | A journal is accepted exactly if it is valid as a whole |
| `Pinning.AcceptedMarksDistinct` | deploy/storage-tagging.h:55-65 | The visits of an accepted walk name pairwise different nodes |
| `Pinning.AcceptedMarksCount` | deploy/storage-tagging.h:61-65 | An accepted walk pins as many nodes as it makes visits, so `pinned == count` means that every node was met exactly once |
| `Pinning.AllPinned` | deploy/storage-tagging.h:52-56 | The early refusal at `pinned == count` never rejects a walk that would be accepted otherwise |
| `TagStates.TagState.PinNode` | deploy/storage-tagging.h:53-65 | One visit is accepted exactly if it names a free, matching node, and then only that node changes |
| `TagStates.TagState.PinTree` | deploy/storage-tagging.h:48-83 | A walk succeeds exactly if nothing fails and all its visits are accepted, and then pins exactly them |
| `TagStates.TagState.CheckProjectInode` | deploy/storage-tagging.h:85-97 | An inode record passes if it is foreign or the record of a tagged node whose space still fits, and only owned records are counted |
| `Ownership.EqualCountsMeanExactOwnership` | deploy/storage-tagging.h:114-132 | A certified scan with as many carriers as tagged nodes leaves no foreign carrier and no missing node |
| `Ownership.VerifyGlobalProject` | deploy/storage-tagging.h:114-132 | The global check succeeds exactly on answers that show exact ownership and matching native accounting; then the carriers on the filesystem are exactly the tagged nodes |
| `Ownership.ValidateJournals` | deploy/storage-tagging.h:134-164 | Accepts exactly the directories in which every entry is a valid, indexed journal of its own site, disjoint from the target, as many as there are reservations |
| `Ownership.EveryReservationHasItsJournal` | deploy/storage-tagging.h:134-164 | After validation reservations and journals correspond one to one |
| `TagDisks.CrashesLeaveNothingHalfTagged` | deploy/storage-tagging.h:193-224 | After any runs and crashes every inode is untouched or completely tagged and nothing outside the journal changed |
| `TagDisks.AdvancesReachAtomicTagging` | deploy/storage-tagging.h:195-212 | Any advance that tags everything equals one atomic tagging |
| `TagDisks.RetryRefinesAtomicTagging` | deploy/storage-tagging.h:193-224 | A history of interrupted runs that ends with everything tagged leaves exactly what one uninterrupted tagging of the original leaves |
| `TagDisks.SecondWalkAccepts` | deploy/storage-tagging.h:213-219 | A walk that accepted the trees before accepts them after everything in the journal was tagged, from no pins at all |
| `SteadyDisks.AdvancedMatches` | deploy/storage-tagging.h:193-224 | A disk whose trees, records and identifiers fit the journal still does after any partial tagging |
| `SteadyDisks.PinsShowDisk` | deploy/storage-tagging.h:48-83 | Walking matching trees is accepted at every stage of tagging and pins exactly what the disk shows |
| `SteadyDisks.CountOnDisk` | deploy/storage-tagging.h:85-97 | A truthful scan meets the project exactly as often as nodes are pinned as tagged |
| `SteadyDisks.GlobalCheckPasses` | deploy/storage-tagging.h:114-132 | On truthful answers the global check passes at every stage of tagging |
| `SteadyDisks.SurveyPasses` | deploy/storage-tagging.h:188-192 | On matching trees and truthful answers the survey is accepted at every stage, also as the complete one once everything is tagged |
| `Tagging.TagNode` | deploy/storage-tagging.h:196-211 | One turn changes at most its own inode, completely or not at all |
| `Tagging.TagNodes` | deploy/storage-tagging.h:195-212 | The loop only advances the disk, tags everything if it passes, and passes if nothing disturbs it |
| `Tagging.Survey` | deploy/storage-tagging.h:188-192 | Both walks, the counts and the global check pass exactly on accepted surveys; then all nodes are pinned and the carriers are the tagged nodes |
| `Tagging.Certify` | deploy/storage-tagging.h:215-224 | A passed second survey certifies that the carriers on the filesystem are exactly the journal's inodes |
| `Tagging.TagData` | deploy/storage-tagging.h:166-229 | Whatever happens the disk only advances; success means all of the journal and nothing else carries the project durably; after any history of interrupted runs from a disk that matched the journal, a run with truthful answers succeeds and leaves exactly the atomic tagging of that disk |
| `Tagging.FirstSurveyShowsDisk` | deploy/storage-tagging.h:188-192 | On a disk that matches the journal and truthful answers the first survey passes and records exactly the projects on the disk |
| `Tagging.SecondSurveyAccepts` | deploy/storage-tagging.h:213-222 | After tagging everything, walks and global check of the second survey pass on truthful answers |
| `Authorities.EqualCountsMeanUnused` | deploy/storage-authority.c:225-253 | With as many journals as reservations, a pair that no journal shows is in no reservation |
| `Authorities.BurnKeepsSound` | deploy/storage-authority.c:266-281 | Burning a fresh pair and publishing its journal keeps the index free of repetition and every journal indexed |
| `Authorities.StepKeepsSound` | deploy/storage-authority.c:132-291 | No run, wherever it stops, repeats a site or project, forgets a reservation or changes a journal |
| `Authorities.InterruptedNeverChanges` | deploy/storage-authority.c:162-178 | After an interrupted initialisation or publication no later run changes anything |
| `Authorities.OnlyAClaimComesFirst` | deploy/storage-authority.c:149-178 | On an empty filesystem any other request than a claim leaves at most the lock, and then no later run changes anything |
| `Authorities.EveryHistoryIsSound` | deploy/storage-authority.c:195-282 | Over every history the index is append-only without repetition, published journals stay, and an interrupted state stays |
| `Authorities.PublishedJournalIsValid` | deploy/storage-authority.c:216-224 | A published journal is read back as valid exactly if the walks met no inode twice |
| `Authorities.ValidateIndex` | deploy/storage-authority.c:195-202 | The quadratic pass accepts exactly indexes of valid entries without repeated site or project |
| `Authorities.ScanPlans` | deploy/storage-authority.c:225-252 | The directory scan passes exactly if every name is a valid, indexed journal of this authority and no other site has the project |
| `Authorities.Authority.Open` | deploy/storage-authority.c:149-194 | Opening succeeds only with complete metadata of this requester; a first claim creates them, and an interrupted creation is never completed |
| `Authorities.Authority.Burn` | deploy/storage-authority.c:266-274 | The reservation is durable before any journal of it exists |
| `Authorities.Authority.Publish` | deploy/storage-authority.c:254-283 | Publishes the snapshot's journal once, compares it if it exists, and stops fail-closed in between |
| `Authorities.Authority.Prepare` | deploy/storage-authority.c:132-291 | One run is one step of the history, wherever it stops; success means an indexed journal of the snapshot |
| `Authorities.AdmissibleTaggingIsBalanced` | deploy/storage-authority.c:203 | Tagging is not admitted while a publication is unfinished |
| `ClaimedJournals.MarksAreVisits` | deploy/storage-tagging.h:48-83 | The walk of tagging visits exactly the inodes that the walk of the claim collected, in the same order |
| `ClaimedJournals.ClaimedTreesMatch` | deploy/storage-authority.c:206-224 | On collectable trees without a repeated inode the published journal is valid, every visit of tagging's walks is accepted, and every node is pinned |
| `ClaimedJournals.ClaimedJournalMatches` | deploy/storage-authority.c:203-283 | The journal of claimable trees whose project is unused matches the filesystem exactly if a census admits one identifier more |
| `ClaimedJournals.PreparedJournalMatches` | deploy/storage-authority.c:203-283 | The same of every claim that ended prepared on truthful answers: its checks imply that the trees are claimable and the project unused |
| `ClaimedJournals.ClaimAndTag` | deploy/storage-authority.c:132-291 | A claim that ends prepared, any crashed tagging runs and then an undisturbed one: if a census admits one identifier more, the tagging succeeds and leaves exactly the atomic tagging of the claimed trees |
| `ClaimedJournals.FullCensusRefuses` | deploy/storage-tagging.h:213-222 | Without room for the identifier no survey of the tagged trees is accepted on truthful answers |
| `Registry.ValidateLedger` | cmd/worker/quota_registry.go:114-127 | Accepts exactly valid ledgers: at most 4096 well-formed entries, no site and no pair twice |
| `Registry.CheckInventory` | cmd/worker/quota_registry.go:129-154 | Accepts exactly plausible reports with a strictly rising list |
| `Registry.FindLeastFree` | cmd/worker/quota_registry.go:311-317 | The search returns the least free identifier from 1000000 on, within the number of taken ones |
| `Registry.SearchStaysLow` | cmd/worker/quota_registry.go:311-317 | By counting, a search over n taken identifiers never goes beyond 1000000 + n |
| `Registry.FreshIdentifierBound` | cmd/worker/quota_registry.go:308-317 | A fresh identifier is at most 1069631, so exhaustion is unreachable |
| `Registry.QuotaRegistry.Load` | cmd/worker/quota_registry.go:167-262 | With a free lock and working disk the ledger loads exactly from a healthy registry, or from none at all without quota markers |
| `Registry.QuotaRegistry.Reserve` | cmd/worker/quota_registry.go:264-328 | A known site gets its entry again and nothing changes; a new one gets the least identifier free in census and ledger, appended; nothing else ever changes |
| `Registry.LedgerOnlyGrows` | cmd/worker/quota_registry.go:227-328 | Over all reservations, crashes, and new, marked and deleted sites the ledger stays valid and only grows at its end |
| `Registry.IdentifiersAreNeverReused` | cmd/worker/quota_registry.go:264-328 | A site keeps its identifier and no identifier is handed out twice on a filesystem |
| `Registry.PartialLossNeverResets` | cmd/worker/quota_registry.go:227-257 | Losing only the directory, the ledger or the sentinel never recreates the ledger |
| `Registry.PartialLossIsPermanent` | cmd/worker/quota_registry.go:227-257 | After such a loss the ledger stays as it is in every later run |
| `Transitions.QuotaTransition.ReadPlan` | cmd/worker/quota_prepare.go:49-68 | Accepts exactly a readable plan in a phase from which the direction may continue |
| `Transitions.QuotaTransition.Enroll` | cmd/worker/quota_prepare.go:108-153 | The plan on disk agrees with ledger, daemon and root, or a site without plan and marker gets its reservation |
| `Transitions.QuotaTransition.OpenAuthority` | cmd/worker/quota_prepare.go:154-180 | The ownership file is created only for a first plan, and otherwise belongs to this installation and to the plan |
| `Transitions.QuotaTransition.Announce` | cmd/worker/quota_prepare.go:181-194 | A first plan is written after its pending guard, and grounded in ledger and ownership file; the guard stays alone exactly if the disk fails behind it |
| `Transitions.QuotaTransition.Isolate` | cmd/worker/quota_prepare.go:195-219 | Passes exactly if the site is fenced and every writer and every user of its volumes is at rest |
| `Transitions.QuotaTransition.StartTagging` | cmd/worker/quota_prepare.go:226-243 | Goes on only with the matching pending guard, and has then stored the tagging phase and nothing else |
| `Transitions.QuotaTransition.Record` | cmd/worker/quota_prepare.go:260-267 | Wherever it stops nothing, the ownership file, or then also the plan is recorded; success means both |
| `Transitions.QuotaTransition.Perform` | cmd/worker/quota_prepare.go:220-267 | The helper is called once, with the mode that the stored phase demands |
| `Transitions.QuotaTransition.Run` | cmd/worker/quota_prepare.go:94-268 | One run is one step of the history; the helper follows a verified fence; every failure attempts a blocked fence; preparing never reaches tagging; a recoverable site succeeds; a first run orphans its guard exactly if the disk fails right behind it |
| `Transitions.PlansOnlyAdvance` | cmd/worker/quota_prepare.go:94-268 | Over all runs and crashes, until its site is deleted, a plan keeps its identity and never returns from tagging or tagged to pending or prepared |
| `Transitions.EveryPlanIsGrounded` | cmd/worker/quota_prepare.go:126-194 | Every plan agrees with ledger, ownership file and guard, and no guard is ever made ready |
| `Transitions.PlansShareOwnersNotProjects` | cmd/worker/quota_prepare.go:143-180 | Plans on one filesystem have one owner and daemon and different projects |
| `Transitions.IdentityOutlivesDeletion` | cmd/worker/quota_prepare.go:126-180 | A site that is deleted, created and planned again gets the owner, daemon, filesystem and project it had |
| `Transitions.RecoveryStaysOpen` | cmd/worker/quota_prepare.go:120-180 | Wherever earlier runs stopped, a site with a plan can be continued, in exactly the directions its phase allows |
| `Transitions.OrphanedGuardIsPermanent` | cmd/worker/quota_prepare.go:181-194 | A guard without a plan is never given one until its site is deleted |
| `Transitions.OrphansGetNoPlan` | cmd/worker/quota_prepare.go:116-194 | Whatever a run for a marked site without a plan meets and wherever it stops, the site still has no plan |
| `Transitions.MarkedSitesRecoverByTheirPlan` | cmd/worker/quota_prepare.go:116-194 | In every reachable state some run for a marked site can end completed exactly if the site has a plan, and then there are circumstances that make it so |
| `Transitions.OrphanedGuardIsReachable` | cmd/worker/quota_prepare.go:181-194 | A concrete history that ends with a guard and no plan |
| `Receipts.SucceededOnlyIfCompleted` | cmd/panel/runtime.go:22-45 | In every run the panel records success only of an operation that the worker completed and certified under the same ID and kind |
| `Receipts.MarkersAreResolved` | cmd/panel/runtime.go:112-178 | A pending marker is replaced only after the worker certified success, or by a check against its settled receipt |
| `Receipts.CertifiedBackupsAreListedOnce` | cmd/panel/runtime.go:117-140 | With nothing pending, every certified backup is listed exactly once with the source of its operation, unless removed on purpose |
| `Receipts.OneCheckRecovers` | cmd/panel/runtime.go:112-178 | Wherever a run stopped, one check with a settled worker leaves nothing pending and the invariant intact |
| `Receipts.StepKeepsInv` | cmd/panel/runtime.go:22-178 | Every durable step of either side keeps the protocol's invariant |
| `Receipts.ReconcilingSettles` | cmd/panel/runtime.go:112-165 | Resolving with a settled receipt leaves nothing pending |
| `Receipts.ReconcilingAgain` | cmd/panel/runtime.go:105-180 | A second look with the same snapshot changes nothing but the check time, exactly unless the site is saved as deleting with nothing pending |
| `Receipts.InterruptedDeletionChangesTwice` | cmd/panel/runtime.go:166-178 | A concrete site whose status changes again on the second look |
| `Installations.Installation.Track` | cmd/worker/runtime.go:78-118 | A known or unresolved operation is refused without a change; otherwise a pending receipt is saved |
| `Installations.Installation.Finish` | cmd/worker/runtime.go:119-141 | The final receipt says succeeded only if the work was done, and the reply follows the receipt |
| `Installations.Installation.Serve` | cmd/worker/main.go:1034-1204 | A 2xx reply is sent only after a saved succeeded receipt; undisturbed, reply and receipt tell exactly whether the work was done |
| `Installations.Installation.Settle` | cmd/worker/runtime.go:163-173 | A pending receipt becomes interrupted before anything is reported |
| `Installations.Installation.Runtime` | cmd/worker/runtime.go:149-247 | A reported receipt is never pending and is the one on disk, and the reported status is the one that the containers show |
| `SiteStatus.Observe` | cmd/worker/runtime.go:175-247 | Running exactly if both services serve, with the configured limits, under the policy, free to start and routed; stopped exactly if both rest in the same order; unhealthy otherwise; no status exactly for the named failures |
| `SiteStatus.LiveMeansInOrder` | cmd/worker/runtime.go:212-240 | A running or stopped site has both containers in order, and its status is the one of both |
| `Installations.Installation.Resolve` | cmd/panel/runtime.go:105-180 | The loop body computes the reconciliation that the lemmas speak about |
| `Installations.Installation.Reconcile` | cmd/panel/runtime.go:77-186 | A live worker operation leaves the record alone; an answered check stores exactly the reconciliation; a failed one only the health message |
| `Installations.Installation.CallTracked` | cmd/panel/runtime.go:22-45 | The marker is durable before the request and stays unless success is confirmed; undisturbed, confirmation means that the work was done |
| `Installations.Installation.Act` | cmd/panel/main.go:792-871 | Start, stop, delete and retry: gated by an unresolved operation; the record changes to the new status only with a completed operation |
| `Installations.Installation.TakeBackup` | cmd/panel/main.go:893-904 | A confirmed backup is committed together with its list entry |
| `Installations.Installation.BackupSite` | cmd/panel/main.go:873-1000 | A finished manual or scheduled backup is the one new entry of the list, with its source |
| `Installations.Installation.UpdateSite` | cmd/panel/main.go:1092-1125 | The update is requested only after the safety backup is in the stored list |
| `Installations.Installation.RestoreSite` | cmd/panel/main.go:1127-1181 | The restore is requested only after the preparation completed and the safety backup is in the stored list |
| `Installations.Installation.Prune` | cmd/panel/main.go:1002-1023 | Deletes oldest scheduled backups one by one, never more than needed, and on success leaves at most the retained number |
| `Retention.PruningKeepsTheNewest` | cmd/panel/main.go:1002-1046 | Pruning leaves manual and safety backups alone, and everything deleted is at most as new as every scheduled backup left |
| `Retention.CountScheduled` | cmd/panel/main.go:1025-1033 | Counts exactly the scheduled backups |
| `Retention.OldestScheduled` | cmd/panel/main.go:1035-1046 | Finds the first of the oldest scheduled backups, or there is none |
| `Supervisor.EveryLaunchIsCleared` | cmd/worker/quota_restart.go:267-319 | In every log of operations each writer launch follows a successful preflight of the same operation with no fence in between |
| `Supervisor.ArmedMeaning` | cmd/worker/quota_restart.go:267-300 | The recursive reading of the log equals the statement about its positions |
| `Supervisor.QuotaSite.Fence` | cmd/worker/quota_restart.go:216-239 | A clean fence has saved its intent and left every container stopped with restart off; a failing one never starts anything |
| `Supervisor.QuotaSite.Preflight` | cmd/worker/quota_restart.go:268-300 | Passes a marked site exactly if guard, Compose file, storage and every container are in order, and fences otherwise |
| `Supervisor.QuotaSite.FinishWrite` | cmd/worker/quota_restart.go:302-319 | A failing result that is no certified admission rejection goes through a blocked fence; success and certified rejections are checked again |
| `Supervisor.QuotaSite.PrepareRestore` | cmd/worker/quota_restart.go:321-336 | Success leaves maintenance intent and safe containers; failure a blocked fence |
| `Supervisor.QuotaSite.StartDatabaseTool` | cmd/worker/main.go:304-344 | The manager is launched only after a preflight, and the result is finished as above |
| `Supervisor.QuotaSite.Update` | cmd/worker/main.go:412-427 | The updater is launched only after a preflight, and the result is finished as above |
| `Supervisor.QuotaSite.Restore` | cmd/worker/main.go:788-841 | Success leaves running intent and safe containers; a failure never leaves running intent behind a clean fence |
| `Supervisor.QuotaSite.ChangeResources` | cmd/worker/resources.go:339-413 | A certified rejection had no effect on intent or containers, launched nothing, and stems from an invalid request or a full host |
| `Supervisor.QuotaSite.Start` | cmd/worker/quota_restart.go:338-379 | Every launch happens while the saved intent is blocked; success means running intent, a ready guard and both services up and safe; with working answers a start succeeds |
| `Supervisor.QuotaSite.StartAction` | cmd/worker/main.go:967-1076 | A failing start of a marked site always goes through a blocked fence, also if admission refused it |
| `Supervisor.QuotaSite.Reconcile` | cmd/worker/quota_restart.go:381-471 | With working fences WordPress runs afterwards only if the saved intent was running, the guard ready, the receipt resolved, storage verified and all containers safe; no intent is raised to running; what is in order is left alone, and stopped or blocked sites stay so |
| `Supervisor.QuotaSite.Stop` | cmd/worker/main.go:954-979 | A stopped marked site has stopped intent after a clean fence |
| `Supervisor.QuotaSite.Create` | cmd/worker/main.go:843-920 | A creation launches services and installer only for an unmarked site, in that order, and succeeds exactly if both do; a marked site is refused without a launch or a change |
| `Supervisor.ServicesUp` | cmd/worker/quota_restart.go:359-371 | True exactly if the site has two services and both are running |
| `Supervisor.Inspect` | cmd/worker/quota_restart.go:430-444 | Reports exactly whether all containers are safe and both services run |
| `Supervisor.WordPressBusy` | cmd/worker/quota_restart.go:453-461 | Finds exactly a WordPress container that is not exited, created or dead |
| `WriterPolicy.RuleMatchesRegion` | tools/build-writer-policy.py:28-33 | A rule matches a 64-bit argument exactly if its low 32 bits lie in the region of its prefix |
| `WriterPolicy.HalvesSplit` | tools/build-writer-policy.py:34-38 | The two recursive calls split the blocked commands at the middle of the region |
| `WriterPolicy.RulesAllowComplement` | tools/build-writer-policy.py:27-38 | Below any prefix some rule matches exactly the arguments of the region that are not blocked |
| `WriterPolicy.RulesAreDisjoint` | tools/build-writer-policy.py:27-38 | No argument is matched by two rules |
| `WriterPolicy.RulesPartitionCommandSpace` | tools/build-writer-policy.py:27-40 | At the root: exactly the complement, disjoint, at most 32 rules for each blocked command, and region sizes plus blocked commands sum to 2^32 |
| `WriterPolicy.Profile.StripBlocked` | tools/build-writer-policy.py:18-20 | No blocked name is left, and every other name is allowed as before |
| `WriterPolicy.Profile.AllowPrefix` | tools/build-writer-policy.py:27-38 | Appends exactly the rules of the trie to the shared list |
| `WriterPolicy.Profile.Derive` | tools/build-writer-policy.py:15-40 | In the result ioctl is allowed exactly for commands that are not blocked, the other blocked calls never, the rest as before |
| `Compose.ComposeResources` | cmd/worker/resources.go:21-78 | Succeeds exactly for files with one valid limit in each of four places and equal services, and replaces exactly those lines |
| `Compose.PutGet` | cmd/worker/resources.go:21-78 | The rewritten file is readable and reads as what was written, rounded to two decimals; as itself exactly for whole quarters |
| `Compose.PutPut` | cmd/worker/resources.go:49-61 | A second rewrite makes the first one invisible |
| `Compose.OnlyFourLinesChange` | cmd/worker/resources.go:49-61 | At most the four limit lines change and none is added or lost |
| `Compose.HeaderIsNoLimit` | cmd/worker/resources.go:27-62 | A section header never carries a limit, so rewriting moves no section |
| `Compose.QuartersAreExact` | internal/core/resources.go:15-23 | Of the valid limits exactly the whole quarters survive two decimals |
| `Compose.BesideAQuarterIsForgotten` | internal/core/resources.go:15-23 | A concrete valid limit that no rewritten file reads back |
| `Compose.Validate` | internal/core/resources.go:15-23 | Rounding to the nearest quarter decides validity |
| `StoredLimits.WriterKeepsLimits` | cmd/worker/resources.go:382-399 | The policy and restart rewrites leave the limits alone: their result is understood exactly if their input was, and reads the same |
| `StoredLimits.StoredLimitsAreRead` | cmd/worker/resources.go:382-399 | What a change of resources stores, limits first and then the policies, reads as what was asked for, rounded to two decimals |
| `Compose.ParseOfFormat` | cmd/worker/resources.go:52-61 | Parsing a formatted CPU limit returns it |
| `RestartPolicy.QuotaRestartCompose` | cmd/worker/quota_restart.go:137-157 | Succeeds exactly for files with one familiar restart line in each service, and sets exactly those to "no" |
| `RestartPolicy.RestartIsIdempotent` | cmd/worker/quota_restart.go:137-157 | The rewrite accepts its own result and leaves it alone |
| `RestartPolicy.OnlyRestartLinesChange` | cmd/worker/quota_restart.go:145-151 | At most two lines change, each a restart line |
| `ComposePolicies.MigratedMeaning` | cmd/worker/security.go:64-68 | The rewrite leaves as many guard lines as writers and no legacy option, and keeps the services recognisable |
| `ComposePolicies.WriterRewriteIsStable` | cmd/worker/security.go:39-76 | The rewrite, also with the restart rewrite on top, is a fixed point on its own output exactly if the guard line names the option once |
| `ComposePolicies.RewriteGuardsAsManyAsWriters` | cmd/worker/security.go:46-75 | Every result, also for a marked site, has as many guard lines as writers |
| `ComposeGuards.MigratedLines` | cmd/worker/security.go:67-68 | The rewritten text is the old one with its legacy options swapped in place and one guard line more, right behind the header of cli |
| `ComposeGuards.MigratedSections` | cmd/worker/security.go:67-68 | In every section the rewrite turns legacy lines into as many guard lines, with one more below cli |
| `ComposeGuards.RewriteGuardsEachSection` | cmd/worker/security.go:46-75 | Every writer's section ends with one guard line exactly if it had one already, or every writer but cli had one legacy line in its section |
| `ComposeGuards.StandardIsGuarded` | cmd/worker/main.go:28-112 | The panel's own layout meets that condition, so each of its writers gets its guard line |
| `ComposeGuards.ShiftedLeavesDatabaseUnguarded` | cmd/worker/security.go:49-68 | A concrete accepted text after whose rewrite the database has no guard line |
| `ComposeGuards.OptionInPathIsRefused` | cmd/worker/security.go:35-64 | A concrete path with which the panel's own layout is rewritten and the result refused |
| `Measurements.MeasureHost` | cmd/worker/resources.go:108-260 | The measurement reports exactly if every answer is in order, and then the claims, reserve and other usage of the host that directories, inspection and samples describe |
| `Measurements.MeasuredIsSeen` | cmd/worker/resources.go:130-169 | Measured with one site left out, a host looks as admission sees it |
| `Measurements.ManagedMeaning` | cmd/worker/resources.go:155-173 | A listed container is managed exactly if project, service and name agree and its site is not the excluded one, under its own name; rows listed under one name are the same site and service |
| `Measurements.ReadSamples` | cmd/worker/resources.go:224-253 | Samples are accepted exactly if each container that was asked for answers once and readably |
| `Capacity.AdmittedRequestFits` | cmd/worker/resources.go:288-300 | An admitted creation, retried creation or change fits the budget wherever it stops, unless limits straddle it; if it finds nothing larger it even ends an excess |
| `Capacity.AdmittedChangeFits` | cmd/worker/resources.go:370-412 | With live limits equal to the configuration, every state of an admitted change fits, also after a crash in between |
| `Capacity.StraddlingDecides` | cmd/worker/resources.go:196-202 | Straddling limits are exactly what can break the budget at some point of a request |
| `Capacity.AsymmetricLimitsBreakTheBudget` | cmd/worker/resources.go:196-202 | A concrete host and change that break it |
| `Capacity.AdmittedStartFits` | cmd/worker/main.go:1067-1073 | Starting with the saved configuration never breaks the budget and ends within it |
| `Fleets.LiveSitesAreAsConfigured` | cmd/worker/resources.go:363-369 | A configured site shown as running or stopped has exactly its configured limits |
| `Fleets.StepKeepsRecorded` | cmd/panel/main.go:685-697 | Until a site is installed it has no limits but the one its record asks for |
| `Fleets.StepKeepsFits` | cmd/panel/main.go:796-808 | No creation, retry, change, recreation or deletion breaks the budget, wherever it stops |
| `Fleets.EmptyHostFits` | cmd/worker/resources.go:196-202 | A host that starts without sites meets both conditions on the first state of the next row |
| `Fleets.BudgetIsKept` | cmd/worker/main.go:1046-1104 | Over every sequence of the panel's operations, each cut off anywhere, the budget fits in every state |

## Left out

- Kernel calls, Docker, HTTP, file locks, descriptors, JSON and time are answers and failure choices of the environment; contexts and timeouts are failures like any other.
- The lock that makes worker operations exclusive is not modelled as a lock: operations of one site are taken one after the other, and a busy worker is an answer of its own.
- A request of the panel is delivered before the next check of the worker, or lost; late delivery after a check is outside the model.
- Times in receipts, text of activity log entries, flash messages and the backup policy's schedule.
- `Installations.Installation.Act`: the first creation of a site starts in the constructor's state and is not a handler of its own; start does not apply mail settings.
- The panel's list of sites: one site's record, receipt and backups are modelled; one site's checks do not read another's.
- `Tagging.TagData`: the descriptors' lifetime, and memory exhaustion, which refuse a run before it changes anything.
- `Authorities.Authority.Prepare`: tagging inside the same command is modelled by `Tagging.TagData` behind the same opened authority.
- `Snapshots.AuditTree`: the comparison of a directory entry with the opened file is one failure choice of the entry.
- The encodings of journals, owner records and index tuples on disk; a torn append is a flag of the index.
- `Transitions.PlansOnlyAdvance`: removing a site's directory is one move; a removal cut off between its files, which leaves a site that is only deleted again, is not a state of the histories.
- `Supervisor.QuotaSite.Reconcile`: the directory loop over all sites; each site's round is independent.
- Container names and labels by which the supervisor recognises its own containers: only recognised ones are modelled.
- `Compose.ComposeResources`: number syntaxes other than plain decimals (exponents, hexadecimal, infinities) are refused, and CPU values are real numbers instead of floating point.
- `ComposePolicies.WriterRewriteIsStable`: texts are sequences of lines; splitting and joining at newlines is not modelled, nor are the refusals for a malformed site ID or an unreadable marker.
- `Measurements.MeasureHost`: sums of CPUs and free disk space, which follow the same loops with floating point or a single comparison, and the disk probes that follow.
- `Fleets.BudgetIsKept`: what other containers use changes only as far as it still fits, and a new site's random ID has nothing left from an earlier site.
- `WriterPolicy.Profile.Derive`: the baseline's other conditions (capabilities, architectures, other comparisons) are kept as they are and not interpreted; the generator's checks that the baseline has its known digest and allows ioctl once and unconditionally are not modelled.
- Integer widths where the source bounds its values first: identifiers, inode numbers and sector counts keep their width, sizes in bytes are unbounded.
- Mail settings, passwords, sessions, translations, generated views, proxying, the embedded PHP and shell scripts.
