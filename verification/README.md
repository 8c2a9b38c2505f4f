# Verification of the control plane's protocols and algorithms

A Dafny 4.11 model of a small platform-as-a-service: a backend that admits, registers and deploys applications through
Git repositories, and the scripts that guard its node. Each module models one component in the component's own form:
objects that change are classes whose methods are proved against functions of the old state, loops carry invariants,
and protocols whose requests can fail, be repeated or interleave are step systems with invariants over all runs.
`dafny verify dfyconfig.toml` checks everything.

Sums and lists that several components need are in `Common`, `Sums` and `Lines`.

| module | what it models |
|---|---|
| `Admission`, `Headroom` | judging metrics before a new deployment, and what that guarantees over whole runs of the cluster |
| `AccountLock`, `Recovery` | the lock on mutating requests, and the release of orphaned reservations |
| `GitRepo`, `SourceSetup` | atomic multi-file commits on a contended branch, and the reviewed setup built on them |
| `Seccomp` | the generator of a system call filter: a prefix cover of all but a few 32-bit words |
| `Registry` | image retention: what may be deleted without breaking a protected manifest graph |
| `PatchPolicy`, `PatchAudit`, `PatchProtocol`, `PatchHistory`, `PatchRaces` | security patches: the lockfile policy, the audit evidence, proposing a patch exactly once and on its reviewed base, and where others can interfere |
| `Outbox` | e-mail about finished deployments, with retries and a deduplicating provider |
| `Quota` | project quotas of volume directories, with a failure possible at any system call |
| `Lines`, `Kustomization`, `Domain` | text edits of a kustomization file, and the custom-domain life cycle that must agree with them |
| `Redaction` | literal redaction of log texts |
| `Events` | statistics over sync events |
| `StorageProfile` | the storage block of a registration file, printed, parsed and carried through redeploys |

## Where the code does not keep a promise

These are results: each has a concrete example or an exact condition in the table below.

- A baseline rule that names `ioctl` twice keeps its second mention, so the filter is not effective (`Seccomp`).
- An app already running is not admitted again: a redeploy that rolls out a second pod, or that gives it its first
  volume, can take the node below its floors (`Headroom`).
- A deletion gives back the reservation of an app that may still be synced; another account admitted meanwhile then
  takes its room, and the node falls below its floors (`Headroom`).
- A pod that is stopped before its successor starts is charged to nobody in between, and its successor is not admitted
  again (`Headroom`).
- Metrics up to 90 seconds old may not show an app whose reservation is gone when they are judged; the admission then
  counts nothing for it (`Headroom`).
- Recovery's reads are not one snapshot: an application synced between two of them can leave a namespace behind
  (`Recovery`).
- A commit whose answer is lost is reported as failed although it landed (`GitRepo`, `SourceSetup`).
- The list of changes of an accepted patch leaves out packages that change at their version (`PatchPolicy`).
- A proposal aimed at another base is not found by the retry after a restart, and is made again; a branch moved between
  its check and the opening of the proposal shows something else (`PatchRaces`).
- A retry of `apply` after a failure between making the directory and opening it leaves the directory closed to its group
  (`Quota`).
- A removal commit that lands without an answer leaves a row whose domain is not served, until a redeploy (`Domain`).
- A domain whose ingress landed without an answer can be deleted at once, and is still served, until a redeploy
  (`Domain`).
- Removing the entry of an application called `app` also removes that of `my-app` (`Kustomization`).
- A secret that can overlap the mark that replaces it may reappear (`Redaction`).
- A profile field that is blank, or has white space around it, is not read back as it was written; a failed read of the
  registration counts as no profile and can drop or change a stored one (`StorageProfile`).

## Model

| member | source | states |
|---|---|---|
| Admission.FoldPods | apps/backend/src/deploy/deployment-admission.service.ts:55-69 | the fold over metric rows fails on a malformed row, and otherwise holds for each pod the sum of its container requests and the maximum of its init requests, per resource |
| Admission.OrderIrrelevant | apps/backend/src/deploy/deployment-admission.service.ts:55-75 | two orders of the same rows give every pod the same usage and the node the same requested CPU and memory |
| Admission.TotalsAreRequests | apps/backend/src/deploy/deployment-admission.service.ts:74-75 | the totals over the folded pods are the sums over pods of the larger of containers and init containers |
| Admission.Total | apps/backend/src/deploy/deployment-admission.service.ts:74-75 | summing in whatever order the map yields its pods gives their sum |
| Admission.Outcomes | apps/backend/src/deploy/deployment-admission.service.ts:34-85 | when each outcome is given, in terms of the metrics alone: the shape of the answers, whether the account is seen, the state of the node, and the four margins with one unit for each account waiting |
| Admission.AdmissionService.Reserve | apps/backend/src/deploy/deployment-admission.service.ts:34-88 | the decision is a function of metrics, reservations and account; only an admission changes the reservations, to the released ones plus the new one |
| Admission.AdmissionService.Release | apps/backend/src/deploy/deployment-admission.service.ts:86 | exactly the reservations of observed accounts go |
| Headroom.AdmissionEstablishesFloors | apps/backend/src/deploy/deployment-admission.service.ts:70-87 | from any state, an admission judged on a sample taken earlier leaves CPU, memory, scratch and volume space at their floors, all requests and promises counted in full, but for what they have grown by since the sample and what it no longer charges |
| Headroom.SampleBounds | apps/backend/src/deploy/deployment-admission.service.ts:70-82 | what the metrics and unobserved reservations deduct bounds what all other accounts request and may still take |
| Headroom.OthersCharged | apps/backend/src/deploy/deployment-admission.service.ts:70-73 | whatever another account requests or is promised is charged by the metrics or by one reserved unit |
| Headroom.HeadroomChanges | apps/backend/src/deploy/deployment-admission.service.ts:70-87 | every step but an admission lowers each headroom by exactly what requests and promises grow |
| Headroom.ForeseenIff | apps/backend/src/deploy/deployment-admission.service.ts:70-87 | exactly these steps raise what is claimed beyond the sample: a rollout that adds pods or larger ones, pods without a reservation, a first volume that was not reserved, a reserved app that stops below its unit, and the loss of a reservation by an app that appeared after the sample |
| Headroom.OutgrownFollows | apps/backend/src/deploy/deployment-admission.service.ts:44-51 | metrics may be old: each reservation lost between sample and judgement, of an account the sample did not see, makes the judgement understate the claims by exactly a unit, less what the account frees |
| Headroom.InvKept | apps/backend/src/deploy/deployment-admission.service.ts:70-87 | every step keeps: each quantity has its floor, up to the growth since the sample of the last admission and what that sample no longer charged |
| Headroom.RunOwes | apps/backend/src/deploy/deployment-admission.service.ts:34-88 | every run whatsoever that contains an admission, or starts safe, ends with each quantity at its floor but for the net growth of requests since the last admission's sample, however old that was, and what it no longer charged |
| Headroom.RunIsSafe | apps/backend/src/deploy/deployment-admission.service.ts:34-88 | from any cluster, a run without such growth ends safe if it starts safe or contains an admission |
| Headroom.SafeIff | apps/backend/src/deploy/deployment-admission.service.ts:78-82 | safe means: allocatable less requested less a unit for each reserved account not yet seen leaves one CPU and 4 GiB, and free space less everything promised and not written leaves 5 GiB on either disk |
| Headroom.FillingVolumesLeavesFloor | apps/backend/src/deploy/deployment-admission.service.ts:76-82 | filling every volume to its limit still leaves 5 GiB on the data disk |
| Headroom.StepSafeIff | apps/backend/src/deploy/deployment-admission.service.ts:76-82 | a step other than an admission keeps every floor exactly when each headroom had its floor plus what requests grow by |
| Headroom.RolloutSafeIff | apps/backend/src/deploy/templates.ts:593-597 | a rollout that runs a new pod beside the old one is not admitted again; it keeps the cluster safe exactly when the CPU, memory and scratch space it adds were free above the floors |
| Headroom.RolloutExample | apps/backend/src/deploy/templates.ts:691-722 | a safe node with one pod of the template: its redeploy takes CPU, memory and scratch space below their floors, although the app stays within its unit |
| Headroom.LateVolumeSafeIff | apps/backend/src/deploy/deploy.service.ts:680 | an app seen already, or without its reservation, is not admitted again; its first volume keeps the cluster safe exactly when a whole unit was free above the floor |
| Headroom.LateVolumeExample | apps/backend/src/deploy/deploy.service.ts:680 | a safe cluster that such a late volume makes unsafe |
| Headroom.LateAppearanceSafeIff | apps/backend/src/deploy/deploy.service.ts:1061-1064 | pods without a reservation, of a deleted application that lingers or of one that is recreated, keep the cluster safe exactly when what they request was free above the floors |
| Headroom.LateAppearanceExample | apps/backend/src/deploy/deploy.service.ts:868-873 | a run: register, delete before being seen, another account is admitted to the last unit, the lingering application is synced, and every quantity is below its floor |
| Headroom.StaleMetricsExample | apps/backend/src/deploy/deployment-admission.service.ts:44-51 | a run: an account appears after the metrics were scraped and is unregistered before they are judged; the admission leaves a safe node a unit below every floor |
| Headroom.RecreateExample | apps/backend/src/deploy/templates.ts:589-597 | a run: a stateful app's pod is stopped before the new one starts, another account is admitted, and the unchanged app takes CPU, memory and scratch space below their floors |
| AccountLock.AccountMutationInterceptor.Begin | apps/backend/src/deploy/account-mutation.interceptor.ts:10-25 | a request is let in exactly when none of its keys is active; then the active set is the disjoint union of the key sets in flight |
| AccountLock.AccountMutationInterceptor.Complete | apps/backend/src/deploy/account-mutation.interceptor.ts:26-29 | completion frees the request's own keys and no others |
| AccountLock.HeldOneLess | apps/backend/src/deploy/account-mutation.interceptor.ts:26-29 | because key sets are disjoint, taking one request away takes exactly its keys away |
| AccountLock.KeysIff | apps/backend/src/deploy/account-mutation.interceptor.ts:12-21 | which requests are gated, and which of them hold the registration key, for every method and path |
| AccountLock.TrailingSlash | apps/backend/src/deploy/account-mutation.interceptor.ts:14 | slashes at the end of a path make no difference |
| AccountLock.RecoveryIff | apps/backend/src/deploy/account-mutation.interceptor.ts:15 | the release route is recognized exactly for one non-empty name between its fixed parts |
| AccountLock.ReleasePath | apps/backend/src/deploy/account-mutation.interceptor.ts:15-16 | a release request is recognized for every account name, however it is written |
| Recovery.RouteKeys | apps/backend/src/deploy/account-mutation.interceptor.ts:15-21 | each route that registers, deletes or recovers holds the account key and the registration key of its task, and the other mutating deploy routes the account key alone |
| Recovery.OneRegistrationTask | apps/backend/src/deploy/account-mutation.interceptor.ts:18-21 | at most one registration, deletion or recovery runs at a time |
| Recovery.RegistrationsHeld | apps/backend/src/deploy/account-mutation.interceptor.ts:18-21 | while a recovery runs no registration file comes or goes |
| Recovery.ReadsKept | apps/backend/src/deploy/deployment-recovery.service.ts:11-29 | what a running recovery has read about registration and application stays true until it ends |
| Recovery.ReadOrSyncedKept | apps/backend/src/deploy/deployment-recovery.service.ts:16-29 | every step keeps: a namespace or volume that a recovery has not found and that is there now has been synced since |
| Recovery.NotSyncedAgainKept | apps/backend/src/deploy/deployment-recovery.service.ts:17-24 | every step keeps: once a recovery has found no application the account is not synced again |
| Recovery.RecoveryIsSafe | apps/backend/src/deploy/deployment-recovery.service.ts:36-45 | whenever a recovery deletes a reservation, in any run, nobody registers or deletes, and the account has no registration and no application; a namespace, or a volume, of it is left exactly when it was synced after that was read and not cleared later, and exactly when that sync came before the application was read |
| Recovery.ApplicationFirstIsSafe | apps/backend/src/deploy/deployment-recovery.service.ts:17-24 | a recovery that never reads the application after the namespace, or the volumes, leaves none behind |
| Recovery.ReservationsFollow | apps/backend/src/onboarding/users.repository.ts:224-244 | in every run an account loses its reservation exactly by its own committed deletion or by a reviewed recovery that found nothing else of it, while the row has the time that was read; every other row stays as it is |
| Recovery.ReservedFollow | apps/backend/src/onboarding/users.repository.ts:228-230 | an account gets a reservation exactly when its own first registration asks for it |
| Recovery.RegisteredReserved | apps/backend/src/deploy/deploy.service.ts:680 | in every run an account is first registered only while it has a reservation, and a deletion gives the reservation back only once the file is gone |
| Recovery.RegisteredFollow | apps/backend/src/deploy/deploy.service.ts:983-992 | registration files come and go exactly with the commits of the account's own operation |
| Recovery.OthersGoOn | apps/backend/src/deploy/account-mutation.interceptor.ts:24-30 | no step but a restart ends or changes somebody else's operation |
| Recovery.Registers | apps/backend/src/deploy/deploy.service.ts:675-837 | the steps of a first registration, up to the synced application, and what each leaves |
| Recovery.RegistersAgain | apps/backend/src/deploy/deploy.service.ts:675-837 | a redeploy commits again without a reservation |
| Recovery.Unregisters | apps/backend/src/deploy/deploy.service.ts:983-1065 | the steps of a deletion, up to the cleared resources, and what each leaves |
| Recovery.Restarts | apps/backend/src/deploy/account-mutation.interceptor.ts:6-7 | a restart ends whatever is in progress and leaves everything else |
| Recovery.LateSyncExample | apps/backend/src/deploy/deployment-recovery.service.ts:17-29 | since the reads are no snapshot, a late sync between them leaves a namespace behind a deleted reservation |
| GitRepo.BuildEdits | apps/backend/src/github-app/github-app.service.ts:302-345 | the tree edits sent are first deletions of paths that are not written and then each written file once, and applied to the base tree they give the intended overlay |
| GitRepo.OverlayAt | apps/backend/src/github-app/github-app.service.ts:302-355 | what an edit makes of each path: written, deleted, or left alone |
| GitRepo.NothingIff | apps/backend/src/github-app/github-app.service.ts:347-349 | there is nothing to commit exactly when no path is written, listed for deletion, or a file under the replaced directory |
| GitRepo.DirectoryDeletions | apps/backend/src/github-app/github-app.service.ts:304-323 | exactly the files under the replaced directory that are not written are deleted |
| GitRepo.PathDeletions | apps/backend/src/github-app/github-app.service.ts:324-330 | exactly the listed paths that are not written are deleted |
| GitRepo.OnlyFromItsBase | apps/backend/src/github-app/github-app.service.ts:375-380 | a non-forced update to a commit with one parent succeeds only while that parent is the head |
| GitRepo.StepKeeps | apps/backend/src/github-app/github-app.service.ts:273-399 | any step of any writer keeps the branch a single chain in which each landed call is its parent's tree with that call's edit |
| GitRepo.ReachableInv | apps/backend/src/github-app/github-app.service.ts:273-399 | hence every reachable state is such a chain |
| GitRepo.SuccessLanded | apps/backend/src/github-app/github-app.service.ts:375-398 | a call that reports success landed exactly once, directly on the head before it, with exactly its edit |
| GitRepo.OthersLeaveNoTrace | apps/backend/src/github-app/github-app.service.ts:292-294 | a call that failed outright, or found nothing to change, never moved the branch |
| GitRepo.HeadIsReplay | apps/backend/src/github-app/github-app.service.ts:351-398 | the head tree is the replay of the landed edits in the order of the ref updates |
| GitRepo.WriteSurvives | apps/backend/src/github-app/github-app.service.ts:351-398 | what a landed call wrote stays until a later landed edit touches that path or a push changes it |
| GitRepo.CommitFilesAtomic | apps/backend/src/github-app/github-app.service.ts:273-399 | one call against arbitrary pushes: success means its edit landed on the head it read, or was not needed; an error means that only others pushed, or, when the repository could not be reached, possibly that it landed and the answer was lost; each error has its cause, and a call nobody disturbs succeeds exactly when there is something to do |
| SourceSetup.Inspect | apps/backend/src/deploy/source-setup.ts:30-55 | the plan says of each desired file what the reviewed commit holds; it fails exactly on another branch, an incomplete listing, or something other than a readable text file at a desired path |
| SourceSetup.ActionIs | apps/backend/src/deploy/source-setup.ts:38-51 | a file is created if it is not there, kept if it holds the wanted text up to Windows line ends, and otherwise left to its owner's review |
| SourceSetup.LfReplaces | apps/backend/src/deploy/source-setup.ts:51 | comparing replaces exactly the Windows line ends |
| SourceSetup.PlanStable | apps/backend/src/deploy/source-setup.ts:34-54 | a plan stays true however the branch moves |
| SourceSetup.MissingFiles | apps/backend/src/deploy/source-setup.ts:65 | the files to create are exactly those the plan marks so, with the desired text |
| SourceSetup.OverlayOnlyAdds | apps/backend/src/deploy/source-setup.ts:63-70 | the commit leaves every reviewed path as it was and adds only planned files |
| SourceSetup.CreateMissing | apps/backend/src/deploy/source-setup.ts:63-71 | on success with files to add, the head's only parent is the reviewed commit and its tree only adds planned files, whoever pushes meanwhile; a failure means that only others pushed, or that just this commit landed and its answer was lost; a reviewed plan on the current head succeeds if nothing fails |
| Seccomp.Restrict | scripts/build-user-storage-seccomp.py:16-38 | the loops compute the restricted profile, or the error, of the specification function |
| Seccomp.MatchedOnce | scripts/build-user-storage-seccomp.py:28-36 | inside a block, a request is matched by exactly one generated rule if its low word is not excluded, by none otherwise |
| Seccomp.WordsOfBlock | scripts/build-user-storage-seccomp.py:29-31 | a prefix of n bits leaves 2^(32-n) words |
| Seccomp.BlockConserved | scripts/build-user-storage-seccomp.py:28-36 | the words matched by the rules of a block and its excluded words add up to the block |
| Seccomp.WordsConserved | scripts/build-user-storage-seccomp.py:28-36 | over all rules, matched words plus excluded words are 2^32 |
| Seccomp.RuleBound | scripts/build-user-storage-seccomp.py:28-36 | there are at most 32 rules for each excluded word |
| Seccomp.OtherSyscallsUnchanged | scripts/build-user-storage-seccomp.py:20-26 | every other system call meets the same actions in the same order |
| Seccomp.IoctlActions | scripts/build-user-storage-seccomp.py:21-37 | ioctl meets what is left of the baseline rules and one allowance unless its request is excluded |
| Seccomp.IoctlRestrictedIff | scripts/build-user-storage-seccomp.py:25-37 | the restriction is effective exactly when no baseline rule names ioctl twice |
| Seccomp.RepeatedNameLeavesBlockedRequest | scripts/build-user-storage-seccomp.py:25 | a rule naming it twice leaves a blocked request allowed |
| Registry.AvailableSelects | scripts/ops/oci-storage-maintenance.py:66 | the rows considered are exactly the available ones, in their order |
| Registry.TagIsLast | scripts/ops/oci-storage-maintenance.py:68 | a version names the digest of its last row |
| Registry.RootsAre | scripts/ops/oci-storage-maintenance.py:72-80 | what is protected, row by row: what references name, rows less than two days old or of unknown name, and the three newest releases |
| Registry.ReleasedAre | scripts/ops/oci-storage-maintenance.py:73-74 | the releases are the rows named by a commit hash, newest first |
| Registry.Close | scripts/ops/oci-storage-maintenance.py:81-100 | the worklist ends; it succeeds exactly when everything reachable is readable and listed, and then keeps the least set closed under children and subjects, with the manifests of exactly that set |
| Registry.Enqueue | scripts/ops/oci-storage-maintenance.py:95-100 | children join the kept set and the worklist once each, or the first unlisted one is reported |
| Registry.ClosureIsLeast | scripts/ops/oci-storage-maintenance.py:81-100 | what can be reached from the roots is the least closed set that has them |
| Registry.ImagePlan | scripts/ops/oci-storage-maintenance.py:64-102 | a reference is missing exactly when it is neither version nor digest of an available row; otherwise it succeeds exactly when everything protected is readable and listed; the plan keeps the closure of the protected roots and offers for deletion exactly the other available versions, one for each identifier |
| Registry.YoungAndReleasedKept | scripts/ops/oci-storage-maintenance.py:73-80 | a version offered for deletion is older than two days, and is either unnamed or a release with three newer ones kept |
| Registry.RequiredSurvive | scripts/ops/oci-storage-maintenance.py:247-254 | after any part of a plan's deletions every required reference resolves as before and its whole manifest graph is still there |
| Registry.KeptListed | scripts/ops/oci-storage-maintenance.py:81-100 | whatever a plan keeps is listed |
| Registry.KeptRowsSurviveIff | scripts/ops/oci-storage-maintenance.py:101 | deleting all candidates spares every kept row exactly when no identifier is shared by a kept and another row |
| PatchPolicy.ValidatePatchResult | apps/backend/src/deploy/security-patch.policy.ts:71-108 | a result is accepted exactly when its root is unchanged, findings went down and the versions of 1 to 100 paths differ, each in an allowed way; the list then has one change for each of these paths and no other; an error tells which check failed first |
| PatchPolicy.AcceptsIff | apps/backend/src/deploy/security-patch.policy.ts:71-108 | what is accepted, version by version: what stays, goes, comes or follows which version, up to 100 changes |
| PatchPolicy.ListedIff | apps/backend/src/deploy/security-patch.policy.ts:86-106 | the listed paths are among those whose entries differ, and are all of them exactly when no path keeps its version and changes the rest of its entry |
| PatchPolicy.RestUnseen | apps/backend/src/deploy/security-patch.policy.ts:87-89 | whatever the rest of an entry is replaced by, the result is accepted as before, with the same list |
| PatchPolicy.UnlistedExample | apps/backend/src/deploy/security-patch.policy.ts:87-89 | an accepted result that changes a package at its version and does not list it |
| PatchPolicy.CheckPath | apps/backend/src/deploy/security-patch.policy.ts:89-103 | a differing path passes exactly when it is allowed against its old version, or against all old versions of its package |
| PatchPolicy.PackageNameIs | apps/backend/src/deploy/security-patch.policy.ts:81 | the package of a path is what follows its last node_modules directory |
| PatchPolicy.VersionsByName | apps/backend/src/deploy/security-patch.policy.ts:79-84 | the index has, for each package name, the old versions installed under it |
| PatchPolicy.NoDowngrade | apps/backend/src/deploy/security-patch.policy.ts:89-103 | over any chain of accepted patches a path that stays never goes down, in the precedence of section 11 of SemVer 2.0.0, never changes major, nor minor before 1.0; a suffixed version stays as it is |
| PatchPolicy.NoNewMajor | apps/backend/src/deploy/security-patch.policy.ts:95-103 | while a package stays installed somewhere, no copy of it ever brings in a major version that was not there at the start |
| PatchAudit.KeyInjective | apps/backend/src/deploy/security-patch.audit.ts:38 | the text package:id tells packages and advisories apart, whatever the package is called |
| PatchAudit.EntryLookup | apps/backend/src/deploy/security-patch.audit.ts:26-40 | an entry contributes for each advisory number its last advisory with that number |
| PatchAudit.EntriesApart | apps/backend/src/deploy/security-patch.audit.ts:38 | no entry overwrites the findings of another, so the order of the entries does not matter |
| PatchAudit.AddEntry | apps/backend/src/deploy/security-patch.audit.ts:22-40 | the inner loop rejects exactly the malformed entries, and otherwise merges what the entry contributes |
| PatchAudit.SoundIff | apps/backend/src/deploy/security-patch.audit.ts:14-42 | which reports are sound: version, counts, entries under their own names with known places, and causes that are other entries or well-formed advisories of the five severities |
| PatchAudit.Summarize | apps/backend/src/deploy/security-patch.audit.ts:14-44 | a report is summarized exactly when it is sound; the findings are then, without repetition, the last word of every entry about every advisory it names |
| PatchAudit.AcceptedIff | apps/backend/src/deploy/security-patch.audit.ts:52-61 | evidence is accepted exactly when something was vulnerable, nothing is new or more severe, and strictly fewer findings remain; a refusal names the first of these that fails |
| PatchAudit.AcceptedSplits | apps/backend/src/deploy/security-patch.audit.ts:47-50 | accepted evidence splits the findings before exactly into resolved and remaining ones |
| PatchProtocol.ProposedOnce | apps/backend/src/deploy/security-patch.service.ts:153-218 | however operations crash, fail and are retried, a plan is proposed once, unless its proposal is aimed at another base |
| PatchHistory.ProposedOnReviewedBase | apps/backend/src/deploy/security-patch.service.ts:185-212 | in every run each proposal was opened by an operation that had found the plan's base branch at the reviewed commit, without a restart in between |
| PatchHistory.OtherBaseRefused | apps/backend/src/deploy/security-patch.service.ts:189-193 | another base, or one that has moved, blocks the plan, ends the operation and does nothing else |
| PatchHistory.OtherBranchRefused | apps/backend/src/deploy/security-patch.service.ts:198-206 | so does a branch that holds anything but the plan's tree directly on the reviewed commit |
| PatchHistory.UnfitRefused | apps/backend/src/deploy/security-patch.service.ts:119-184 | so does a plan without evidence, or one whose proposal would be too long a text |
| PatchHistory.FinishProposes | apps/backend/src/deploy/security-patch.service.ts:213-218 | an operation that has found its proposal stores the plan as proposed and ends |
| PatchHistory.ProposedHasPull | apps/backend/src/deploy/security-patch.service.ts:185-218 | in every run a plan marked as proposed has a proposal |
| PatchHistory.PlansTell | apps/backend/src/deploy/security-patch.service.ts:128-146 | in every run a stored plan holds a lockfile only if both checks accepted it with the evidence beside it, whose totals are the counts shown; a failed plan holds neither |
| PatchHistory.RowsFollow | apps/backend/src/deploy/security-patch.service.ts:113-216 | a stored plan changes only by its own preparation, by a refusal for one of its four reasons, by the comparison with its base, or by having its proposal found, and goes only when it expires |
| PatchHistory.StoresIt | apps/backend/src/deploy/security-patch.service.ts:113-216 | and each of these steps stores exactly that |
| PatchHistory.AfterReading | apps/backend/src/deploy/security-patch.service.ts:157-187 | which plans an operation retires, searches a proposal for, or leaves alone |
| PatchHistory.LostReply | apps/backend/src/deploy/security-patch.service.ts:213 | after a lost reply the operation goes on exactly when the plan's branch has a proposal on its base, open or not |
| PatchProtocol.OneOpenProposal | apps/backend/src/deploy/security-patch.service.ts:83-86 | at most one proposal of a user is open on a base, unless one was moved or reopened |
| PatchProtocol.ProposalsProper | apps/backend/src/deploy/security-patch.service.ts:196-212 | every proposal is of a plan both checks accepted; the branch seen before opening it, and its tip when nobody moved the branch since, has the reviewed commit as only parent and differs from it in the lockfile alone |
| PatchProtocol.StoredPlansReviewed | apps/backend/src/deploy/security-patch.service.ts:119-145 | every stored plan that is ready, being proposed or proposed passes both checks, except those stored before evidence was kept |
| PatchProtocol.BranchesOnlyAppear | apps/backend/src/deploy/security-patch.service.ts:196-211 | no step of the service moves or removes a branch |
| PatchProtocol.OneEachKept | apps/backend/src/deploy/security-patch.service.ts:185-214 | every step keeps: an operation past its search has no standing proposal of its plan, and no two stand |
| PatchProtocol.SoundKept | apps/backend/src/deploy/security-patch.service.ts:113-163 | every step keeps stored plans and running operations reviewed |
| PatchProtocol.TipsKept | apps/backend/src/deploy/security-patch.service.ts:198-211 | every step keeps what operations know of their branch |
| PatchProtocol.RegisteredKept | apps/backend/src/deploy/security-patch.repository.ts:30-37 | every step keeps plans under their own user, so that users do not share plans |
| PatchProtocol.OneOpenKept | apps/backend/src/deploy/security-patch.service.ts:71-86 | every step keeps the one open proposal of a user and base that of the stored plan |
| PatchRaces.PushedInBetween | apps/backend/src/deploy/security-patch.service.ts:202-212 | somebody who moves the branch between check and opening decides what the proposal shows |
| PatchRaces.RetargetedProposedTwice | apps/backend/src/deploy/security-patch.service.ts:185-187 | a restart before the proposal is noted, and a change of its base, make the retry propose the plan again |
| PatchRaces.Proposes | apps/backend/src/deploy/security-patch.service.ts:185-217 | from every state, an operation nobody disturbs puts the reviewed tree on the plan's branch, or finds it there, opens one proposal and notes it |
| PatchRaces.ProposesAgain | apps/backend/src/deploy/security-patch.service.ts:185-187 | an operation on a plan that has a proposal opens none and only notes it |
| Outbox.Outbox.Queue | apps/backend/src/onboarding/users.repository.ts:482-492 | the first call for a slot fixes key and message; later ones change nothing |
| Outbox.Outbox.StartAttempt | apps/backend/src/onboarding/users.repository.ts:494-499 | an attempt keeps the first start, sets the next start five minutes on, and keeps the log's promises |
| Outbox.Outbox.Process | apps/backend/src/deploy/deploy-notifications.service.ts:41-74 | one account's turn, stopped anywhere, does what the specification of a visit says, and keeps all attempts of a slot equal in key and message, five minutes apart and within 23 hours |
| Outbox.Outbox.BeginTick | apps/backend/src/deploy/deploy-notifications.service.ts:29-30 | a tick begins exactly when mail is on and no other one is running, and keeps others from beginning |
| Outbox.Outbox.NotifyReadyDeployments | apps/backend/src/deploy/deploy-notifications.service.ts:28-82 | a tick visits the accounts in turn until it is stopped, and does nothing while another runs or mail is off |
| Outbox.VisitSends | apps/backend/src/deploy/deploy-notifications.service.ts:41-65 | a visit makes an attempt exactly when the account is there and allowed, the message is new, pending, due and within 23 hours; it then sends the slot's key and message |
| Outbox.VisitSettles | apps/backend/src/deploy/deploy-notifications.service.ts:53-74 | an accepted message is noted as sent and remembered for the account; a settled row never changes again; any other attempt leaves the row due in five minutes |
| Outbox.VisitExpires | apps/backend/src/deploy/deploy-notifications.service.ts:57-60 | from 23 hours after the first attempt on a pending message is given up, and nothing is sent |
| Outbox.AttemptsBounded | apps/backend/src/deploy/deploy-notifications.service.ts:54-65 | all attempts for a slot have one key and one message, any two are five minutes to 23 hours apart, and there are at most 276 |
| Outbox.DeliveredOnce | apps/backend/src/email/email.service.ts:33-72 | if requests arrive within an hour, a provider that remembers keys for 24 hours delivers each message at most once, whatever is lost, repeated or retried |
| Outbox.LateRequestDeliversTwice | apps/backend/src/deploy/deploy-notifications.service.ts:55-57 | one millisecond more on the way and a second copy is delivered |
| Outbox.DeliversTwice | apps/backend/src/deploy/deploy-notifications.service.ts:41-74 | two turns of the notifier that make such attempts |
| Quota.Storage.Apply | deploy/storage/quota.py:77-97 | wherever a run stops, limits come before attachment, attached directories carry their own distinct number, and a rerun can take over; an undisturbed run succeeds exactly when the input is acceptable |
| Quota.PartlySound | deploy/storage/quota.py:77-97 | every intermediate state of a run keeps these invariants |
| Quota.RerunReaches | deploy/storage/quota.py:90-93 | a rerun is accepted and ends where the first run would have, exactly unless the first one left its new directory private |
| Quota.RerunLeavesPrivate | deploy/storage/quota.py:88-93 | a run stopped right after it made the directory, and repeated with success, leaves the directory private |
| Quota.Storage.CheckSiblings | deploy/storage/quota.py:80-82 | the loop refuses exactly when another directory has the number |
| Quota.Storage.AttachAll | deploy/storage/quota.py:92 | the directory is attached first; on success everything in it is |
| Quota.Storage.Destroy | deploy/storage/quota.py:100-109 | limits go exactly when the directory is gone and nothing is accounted to it; otherwise they are kept |
| Quota.GoneFreed | deploy/storage/quota.py:106-108 | once the directory is gone the project is free exactly when nothing of it was held open and no other directory had it |
| Quota.DestroyUndoesApply | deploy/storage/quota.py:77-109 | applying to a new directory and destroying it changes nothing |
| Quota.AcceptsIff | deploy/storage/quota.py:44-94 | which directories may be applied: no collision, no leftovers for a new one, and for an existing one only attachable files within one GiB and 65536 entries |
| Quota.AppliedComplete | deploy/storage/quota.py:77-101 | after success everything below the directory is accounted to its project, which may hold one GiB in 65536 files, and so is what will be made there; a directory that was made is shared with its group, and everything else is as before |
| Quota.Storage.Create | deploy/storage/quota.py:49-51 | files that applications make keep all of this |
| Kustomization.AddIs | apps/backend/src/domain/domain.service.ts:552-561 | the edit of the text is the edit of its lines |
| Kustomization.AddLists | apps/backend/src/domain/domain.service.ts:552-561 | adding lists the entry, and adding again changes nothing |
| Kustomization.RemoveUnlists | apps/backend/src/domain/domain.service.ts:570-575 | removing leaves no line that lists the entry |
| Kustomization.OthersKept | apps/backend/src/domain/domain.service.ts:552-575 | both edits keep all other lines in their order; an entry added and removed again leaves exactly a line end behind, if the text had none and keeps a line |
| Kustomization.RemoveUndoesAddIff | apps/backend/src/domain/domain.service.ts:546-576 | removing an added entry gives back the text exactly when it ended with a line end and no list line ended with the path |
| Kustomization.OtherSurvivesIff | apps/backend/src/domain/domain.service.ts:571-574 | removing one application's entry keeps another's exactly when the other's name does not end with the first one's |
| Kustomization.AddedRendering | apps/backend/src/deploy/templates.ts:439-459 | adding to the file rendered without a domain lists the same resources as rendering it with the domain |
| Lines.SplitJoin | apps/backend/src/domain/domain.service.ts:573-575 | splitting joined lines gives them back |
| Lines.EndsWithNewline | apps/backend/src/domain/domain.service.ts:560 | a text ends with a line end exactly when its last line is empty and not the only one |
| Domain.FindForRenderIff | apps/backend/src/domain/domain.repository.ts:156-163 | in every reachable state the row to render again is there exactly when its commit is recorded |
| Domain.CustomDomain.Register | apps/backend/src/domain/domain.service.ts:185-218 | a domain is registered exactly when the application has none and nobody else has it |
| Domain.CustomDomain.Verify | apps/backend/src/domain/domain.service.ts:232-268 | the DNS is asked exactly when there is a row that is not applying or active and this domain was not checked within half a minute; otherwise nothing changes |
| Domain.CustomDomain.DnsAnswer | apps/backend/src/domain/domain.service.ts:272-302 | a failed check leaves commit and verification time alone, a passed one records the time and clears the error |
| Domain.CustomDomain.AddAnswer | apps/backend/src/domain/domain.service.ts:304-337 | the domain is served once the commit lands; the row is applying only with a recorded commit and a verification time |
| Domain.CustomDomain.Delete | apps/backend/src/domain/domain.service.ts:346-354 | a row with a recorded commit waits for its removal; without one it goes at once, and its domain is then still served exactly if it is stray: if its ingress landed without an answer and the repository was not rendered since |
| Domain.DeletedButServed | apps/backend/src/domain/domain.service.ts:352-380 | a verified domain whose commit lands without an answer is deleted and still served |
| Domain.CustomDomain.DropRow | apps/backend/src/domain/domain.service.ts:380 | once the removal has been answered the row goes, and no domain is served |
| Domain.CustomDomain.RemoveAnswer | apps/backend/src/domain/domain.service.ts:354-380 | a refused removal changes nothing; one that lands unanswered leaves the row and is the one way, with a restart, to leave it unserved |
| Domain.CustomDomain.Redeploy | apps/backend/src/deploy/deploy.service.ts:686-732 | a redeploy serves again every domain whose commit is recorded, and lists no other |
| Domain.CustomDomain.CertificateAnswer | apps/backend/src/domain/domain.service.ts:599-617 | a status read that answers late makes a row active only if that row has a recorded commit |
| Domain.CustomDomain.Restart | apps/backend/src/domain/domain.service.ts:296-307 | stopping anywhere, with the commit asked for landing or not, keeps all of this |
| Domain.AddChangesIff | apps/backend/src/domain/domain.service.ts:509-519 | the commit changes the repository exactly when the domain is not served |
| Domain.RenderKeeps | apps/backend/src/deploy/deploy.service.ts:686-732 | what a redeploy renders agrees with the row |
| Redaction.RedactValues | apps/backend/src/deploy/deployment-diagnostics.service.ts:9-11 | no value of at least four units that cannot overlap the mark occurs in the result; in particular none without square brackets |
| Redaction.ReplaceIsSplitJoin | apps/backend/src/deploy/deployment-diagnostics.service.ts:11 | splitting at a value and joining with the mark replaces its occurrences from the left |
| Redaction.NoneAppear | apps/backend/src/deploy/deployment-diagnostics.service.ts:11 | replacing a value never brings in another that cannot overlap the mark |
| Redaction.NoneLeft | apps/backend/src/deploy/deployment-diagnostics.service.ts:11 | replacing such a value leaves none of it |
| Redaction.OrderedSorted | apps/backend/src/deploy/deployment-diagnostics.service.ts:11 | the values are taken without repetition, longest first |
| Redaction.AlwaysGoneIff | apps/backend/src/deploy/deployment-diagnostics.service.ts:9-11 | a value is gone from every text, whatever else is redacted, exactly when it cannot overlap the mark |
| Events.RecoveryTimes | apps/backend/src/events/events.repository.ts:139-149 | the loop collects exactly the times from a failure to the success that follows it directly |
| Events.Summarize | apps/backend/src/events/events.repository.ts:139-174 | the statistics are the rounded means of the recoveries and of the gaps between successes, and absent exactly when there are none |
| Events.RecoveriesApart | apps/backend/src/events/events.repository.ts:141-149 | recoveries do not overlap |
| Events.RecoveriesFit | apps/backend/src/events/events.repository.ts:139-149 | together they take no longer than the events span |
| Events.RecoveriesCount | apps/backend/src/events/events.repository.ts:139-149 | there are at most as many as failures, and as successes |
| Events.GapsTelescope | apps/backend/src/events/events.repository.ts:154-160 | the gaps between successes add up to the time from the first to the last |
| Events.MeanNearest | apps/backend/src/events/events.repository.ts:150-163 | the mean is rounded to the nearest second, halves upwards |
| StorageProfile.ParseFinds | apps/backend/src/deploy/templates.ts:179-184 | reading a registration reads the first heading's block of indented lines, and nothing without one |
| StorageProfile.Defaults | apps/backend/src/deploy/templates.ts:190-203 | what a block that only names its kind stands for |
| StorageProfile.UnknownClass | apps/backend/src/deploy/templates.ts:199-200 | a class that is not supported fails the reading |
| StorageProfile.ReadBackIff | apps/backend/src/deploy/templates.ts:186-189 | a rendered field is read back exactly when it is not blank and has no white space around it |
| StorageProfile.BlockRoundTripIff | apps/backend/src/deploy/templates.ts:146-212 | the same for a whole block |
| StorageProfile.RegistrationRoundTripIff | apps/backend/src/deploy/templates.ts:141-213 | reading a rendered registration gives back its profile, or none, exactly then |
| StorageProfile.TextRoundTripIff | apps/backend/src/deploy/templates.ts:141-213 | the same for the text of the file |
| StorageProfile.EffectiveIs | apps/backend/src/deploy/deploy.service.ts:705-713 | a redeploy takes the detected profile or else the stored one, in the stored class, or without one in the class of old volumes; only new volumes get another |
| StorageProfile.KeptIff | apps/backend/src/deploy/deploy.service.ts:705-713 | one redeploy keeps a stored profile and its class exactly when the registration could be read, or was not rewritten, or detection yields a profile that gets the same class |
| StorageProfile.NeverDropped | apps/backend/src/deploy/deploy.service.ts:934-945 | over any redeploys whose reads succeed a stored profile is never dropped and its class never changes |

## Left out

- HTTP, SQL, Kubernetes, Git hosting, DNS and mail requests: their answers are parameters or free choices of a run.
- Hashing, encryption and sessions: digests stand for what they are computed from, project numbers are an arbitrary function of names.
- Clocks: times are parameters; only `Outbox` relates them, and it does not need the clock to be monotonic.
- Frontend, e-mail and chat texts, metrics and overview pages: presentation.
- The pages of `deploy-status`, `deployment-readiness`, image scanning and the caches: read-only and settled by single branches.
- Headroom.RunIsSafe: assumes that the load of pods of the platform does not grow, that an account never requests more than one reserved unit, which is two pods of the rendered template, that a deleted application's pods and volume go together, that the admitted account has no application from its sample on, and that no sample is older than the previous admission.
- GitRepo.ReachableInv: does not cover forced pushes, truncated tree listings, or a file and a directory of the same name; deleting a path that is not there counts as no change.
- GitRepo.CommitFilesAtomic: the method runs one call against pushes; the step system has any number of interleaved calls.
- SourceSetup.CreateMissing: the pull request for files that need review (`createPr`) is not modelled.
- Recovery.RecoveryIsSafe: a commit that lands only after its operation has ended, or after the process has restarted, is not modelled.
- Registry.ImagePlan: finding references in cluster objects, the backup plan and the second look before deleting are not modelled.
- Registry.RequiredSurvive: assumes that no identifier is shared by a kept and another row, the condition of `KeptRowsSurviveIff`.
- PatchPolicy.ValidatePatchResult: the check of the lockfile's form and overrides is an arbitrary predicate, because version ranges are a library's; versions are compared as the three numbers the code accepts.
- PatchAudit.Summarize: the list is in no particular order, while the code sorts it for display; advisory numbers are printed in full, also beyond the size where JavaScript prints an exponent.
- PatchProtocol.ProposedOnce: a request that lands only after its operation has ended is not modelled, nor more than one page of pull requests; any stored plan may expire, or be replaced by a new one, at any time.
- PatchProtocol.StoredPlansReviewed: preparing a plan is one step, since its user's other operations are excluded; operations are steps on values because a restart may stop them at any await.
- Outbox.DeliveredOnce: the provider is a list of arrivals and a table of keys; bounced mail is not modelled.
- Outbox.Outbox.NotifyReadyDeployments: a tick that starts while another runs returns at its first test, so the steps of two ticks are never interleaved.
- Quota.Storage.Apply: runs follow one another, and applications do not write during a run; file sizes do not change while they are read, and several calls for one file count as one.
- Domain.CustomDomain.Redeploy: one application for each account; another application's rows, left by a stop during unregistration, are not modelled.
- Domain.CustomDomain.AddAnswer: recording the commit and the new status is one step; so are reading the kustomization file and committing it, since only this service changes the files concerned, one operation of an account at a time. A push by somebody else in between would lose its edit.
- Domain.CustomDomain.Register: domain validation, whether another account has the domain, and the DNS answers behind a passed or failed check are parameters.
- Redaction.RedactValues: the pattern-based passes after the literal ones are not modelled.
- Redaction.AlwaysGoneIff: speaks of values that leave out at least one of the 65536 units.
- Events.Summarize: seconds are exact fractions, not floating-point numbers; the two queries see the same rows.
- StorageProfile.TextRoundTripIff: the patterns are modelled on lines, with the line feed as the only line end.
- StorageProfile.NeverDropped: profiles found by detection have plain fields, as its constants do.
- Account deletion: it renames the account's reservation, which then counts as one that is never observed; only its effect on notifications is modelled.
- The other steps of a registration (claiming a subdomain, creating the deploy repository, rendering its remaining files) and their order: only the commits, the admission, the storage profile and the domain they preserve are modelled.
