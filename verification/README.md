# A verified model of k8s-subvol-provisioner

The provisioner runs on every storage node of a cluster. For each pending claim it creates a ZFS
dataset or a directory and records it in a persistent volume; for each released volume it renames
or destroys the backend and then deletes the record; and for each bound claim it compares quota,
owner, mode and properties of the live volume with what claim and StorageClass declare, and plans
or applies the difference. This project models those three activities in Dafny and proves what
holds of them over all inputs, interleavings, crashes and failing calls; and where something the
code promises fails to hold, exactly when it does hold.

`dafny verify dfyconfig.toml` checks everything.

## How it is laid out

- **Text and names.** `Strings`, `Decimal` and `Paths` give the parts of Go's library that the
  code leans on; `Config`, `Templater`, `Naming` and `ZfsText` the parsers, the path template
  check, dataset and mount names, and the reading of `zfs get` output; `Subtrees` what a recursive
  removal and a rename do to a hierarchy of names; `Isolation` which volumes lie inside which under
  the example template and under override annotations.
- **One volume.** `Dataset` and `OwnerMode` say what repairing properties and walking files
  compute. `ZfsHost`, `HostTree` and `DirDriver.HostFs` are the objects that commands and system
  calls change, each of which may fail. `ZfsReconcile`, `HostTree`, `ZfsDriver` and `DirDriver` run
  the drivers' code over them and prove it against those functions. `VolumeState` puts quota, files
  and properties together: convergence, agreement of plan and apply, failure midway, birth.
- **The controller.** `Claims` and `PvBuilder` hold the API objects and what is read from them;
  `ControllerSpec` says what a pass may do to what it sees, `Controllers` (in Controller.dfy) runs
  claim, delete and state section as one worker does and proves them against it, and
  `ControllerResults` draws the conclusions. `Declarations` follows what is written in claims and
  classes, key by key, to what a pass is to bring about and what a driver is told to create;
  `Records` follows a record to what becomes of it; `HostPaths` says where on the host the drivers
  look, make and remove.
- **Whole runs.** `Protocol` cuts the sections into single steps of many workers on many nodes, with
  crashes in between; `ProtocolSafety` and `ProtocolOnce` prove what every reachable state keeps.
  `ProtocolRuns` puts together, from the stretches in `ProtocolScenes`, the runs that lose data, and
  with them the exact conditions; `ProtocolDefaults` carries these over to the default template, and
  `ProtocolListers` treats runs without deletions. `ApplyOnce` follows the apply annotation through
  arbitrary runs, `LivePasses` shows state sections to be such runs, `SectionRuns` what a section
  after another finds, and `WorkQueue` follows one key of the work queue. `VolumeExamples` has
  volumes that never come to what is wanted.

## What to know when reading it

- A pass iterates over Go maps, whose order is random. The loops here take keys in any order; the
  ghost result `order` names the keys whose command went through.
- A value set on a dataset comes back from zfs in the form zfs prints, which the function `canon`
  stands for. A property is *curable* if that form reads back as what was asked for.
- A command or call that fails leaves things alone, except a recursive removal, which may have
  removed part of its subtree, and a directory creation, which may have made part of the way.
  In the models of a single volume `zfs list` fails only when the dataset is absent; the protocol
  has the other case as well.
- Whether anything fails is open, unless the object at hand is `reliable`: then a command, call or
  request fails only for a reason that it could give, such as a property that zfs does not know or a
  file in the place of a directory. The operations say what they bring about in that case, besides
  what they keep in every other.
- `Protocol.Config` says what a system is like. `takes`: which nodes take up which claims. `adopts`:
  which claims adopt a dataset that is there. `live`: claims and records are read from the API
  server rather than from listers that may lag behind; so a claim that is gone is not taken up any
  more, though a pass begun before goes on. `failing`: a live read of a record can fail. `blind`:
  `zfs list` can fail for a dataset that is there. `exclusive`: the work queue does not hand one key
  to two workers of a node at once. `preserving`: some record asks for its volume to be preserved.
  A system is *sound* if it is live, not failing, and exclusive; results that need less say so. A
  step may be followed by an early return at any point, which also covers a command or call that
  took effect and yet reported a failure.

## Where the code does not do what it promises

- **A failed read of a record is taken for there being none.** The claim section goes on to create
  whenever reading its record does not succeed, whatever the reason
  (pkg/controller/controller.go:437-441), and the controller reads from listers that it installs
  before any worker starts (pkg/controller/controller.go:136-144, 336-348), so a record can also be
  missed because the lister is behind. Either way there is a run that leaves a record with nothing
  behind it, whatever the names are: `ProtocolRuns.MissedRecordLosesData`. That no data is lost, and
  that a record outlives its backend, hold of sound systems only, and `ProtocolRuns.SafeExactly` and
  `ProtocolRuns.RecordsOutliveExactly` say of which exactly. As deployed, with listers, the
  controller is not one. Without deletions the listers do no harm:
  `ProtocolListers.SafeUndeletedExactly`.
- **Any failure of `zfs list` is taken for the dataset being absent**
  (pkg/driver/zfs/zfs.go:76-83). `zfs create -p` then succeeds without effect and somebody else's
  dataset is recorded as the claim's: `ProtocolRuns.BlindCreateTakesOver`. One backend for each
  claim and node holds exactly without such failures: `ProtocolListers.CreatesOnceExactly`.
- A claim that nothing assigns to a node, of a class that does not wait for a consumer, is taken up
  by every node: one backend in the whole cluster holds exactly without such claims:
  `ProtocolListers.OneBackendInCluster`.
- The default template gives a claim made anew the dataset name of its predecessor. While the old
  record lingers, its deletion destroys the new claim's data: `ProtocolRuns.SharedNamesLoseData`.
  Without such claims a sound system is safe (`ProtocolDefaults.DefaultTemplateSafeExactly`), and
  with them any run in which the predecessor's record is gone before the dataset is made anew
  (`ProtocolSafety.TidyRunsSafe`).
- A claim annotated for preservation is to be preserved when it is deleted (the repository's
  README.md:73), but deletion reads the annotation from the volume record, and no record is built
  with it: `PvBuilder.PreservationNotCarried`. Preservation is therefore stated of records that
  carry the annotation, as one annotated by hand does: `ControllerResults.PreservedOrWarned`,
  `ControllerResults.DirectoryPreservedOrWarned`. Only with such a record (`preserving`) can a claim
  named as another one's quarantine come to own that volume: `ProtocolRuns.QuarantineTakenOver`.
- The example template (the repository's README.md:143) gives replicas of one owner and index the
  same path, and puts a StatefulSet's volumes inside that of a plain claim named like it. The exact
  condition is `Isolation.RenderedContainsExactly` for the text and
  `Isolation.ExampleContainsExactly` for the datasets and mount paths that result; two claims that
  share theirs are in `Isolation.TwoReplicasCollide`.
- The override annotation `subvol.io/subvol` is used unchecked (pkg/controller/controller.go:462),
  and the mount path it leads to may leave the prefix, as "../x" does (`Isolation.OverrideLeaves`):
  `Isolation.OverrideContainedExactly` says when it does not.
- "No pending changes: dataset matches the desired configuration" is also reported when driver calls
  failed, and the apply annotation is then used up. Exactly when that is so, and when it is false:
  `ControllerResults.UpToDateReportedExactly`; a volume of which it is false:
  `ControllerResults.FalseReport`. Likewise a pass that applied something uses up the annotation
  although another of its calls failed: `SectionRuns.AppliedShortExactly`, `SectionRuns.HalfApplied`.
- The apply annotation authorises exactly one pass (the repository's README.md:93) only when claims
  are read live and there is no autoApply: `ApplyOnce.OneShotExactly`. The controller reads claims
  from a lister, and `LivePasses.StaleSectionsApplyTwice` is what can come of it.
- A `quota` among the properties takes effect when a volume is created, while passes compare its
  quota with the claim's request alone, so that a volume may differ from the moment it is born:
  `VolumeState.NoDriftAtBirth` has it in its condition, `VolumeExamples.QuotaDriftsAtBirth` such a
  volume.
- An id that is 2^32-1 modulo 2^32 means "leave unchanged" to chown, so a pass that asks for it does
  not converge on a file with another id: `VolumeState.PassConvergence` has it in its condition,
  `VolumeExamples.NeverConverges` such a file.
- A pass that cannot read the StorageClass goes on as if it declared nothing, and plans to reset what
  was set on its account: `ControllerResults.UnreadClassResetsExactly`.
- A volume whose record could not be created stands in the way of every retry that does not adopt:
  `ControllerResults.OrphanBlocksRetry`.
- `zfs inherit` is given the dataset before the property (pkg/driver/zfs/zfs.go:386), the reverse of
  what the command takes. The model has the operation that is meant.

## Model

| member | source | states |
|---|---|---|
| `Protocol.SectionsGuarded` | pkg/controller/controller.go:417-431 | for any workers, interleaving, failures and crashes: a key is in a node's `inProgress` exactly while a worker of that node is inside its section, and never more than one is |
| `ProtocolRuns.SafeExactly` | pkg/controller/controller.go:417-741 | in every run every record has its dataset on the node it names, holding its own claim's data or what the claim adopted, or its own node's delete pass removed it — if and only if: of the claims one node takes up no one's dataset name equals or lies beneath another's; where records ask for preservation, only claims that adopt are in the way of a quarantine; claims and records are read as they are and no key is in two hands; and datasets that are there are seen, or every claim adopts |
| `ProtocolSafety.InvAlways` | pkg/controller/controller.go:433-441 | the invariant behind it, in every reachable state of a tidy run of a careful system: where each worker stands, what it has read still holds; what has a record or is about to have one on a node does not overlap; a claim pass that found no record and a delete pass never meet on a node |
| `ProtocolSafety.TidyRunsSafe` | pkg/controller/controller.go:461-485 | names may be used again: a run in which a claim goes on to create or adopt its dataset only while no overlapping claim has a record on the node, or is about to, loses nothing |
| `ProtocolSafety.NextKeeps` | pkg/controller/controller.go:687-741 | every tidy step of every worker of such a system, every crash and every release keeps that invariant |
| `ProtocolRuns.MissedRecordLosesData` | pkg/controller/controller.go:433-441 | when the read of a record fails or lags behind, whatever the names are: the run in which a claim pass, begun while the claim is there, makes the dataset anew while its volume is being deleted, and a record is left with nothing behind it |
| `ProtocolRuns.TwoHandsLoseData` | pkg/controller/controller.go:230-235 | were a key in two hands: the run in which a second deletion of a volume destroys the successor that a claim pass, begun while the claim is there, has made |
| `ProtocolRuns.BlindCreateTakesOver` | pkg/driver/zfs/zfs.go:76-83 | when `zfs list` fails for a dataset that is there: the run in which somebody else's dataset is recorded as that of a claim that does not adopt |
| `ProtocolRuns.SharedNamesLoseData` | pkg/driver/zfs/zfs.go:417 | for any two claims with equal or nested names, the run in which deleting one claim's volume takes the data of the other's recorded volume |
| `ProtocolRuns.QuarantineTakenOver` | pkg/driver/zfs/zfs.go:406-413 | where records ask for preservation, for any claim that does not adopt and whose dataset name a rename out of the way can put something under: the run in which it records that as its own |
| `ProtocolDefaults.DefaultTemplateSafeExactly` | pkg/controller/templater.go:60-80 | under the default template and the drivers' quarantine names: every run is safe if and only if no node takes up a claim made anew under an earlier one's namespace and name; where records ask for preservation, none that does not adopt is named as another's quarantine; claims and records are read as they are and no key is in two hands; and datasets are seen, or every claim adopts |
| `ProtocolRuns.RecordsOutliveExactly` | pkg/controller/controller.go:714-737 | a record is removed only by its own node's delete pass, for that very record, once its dataset is gone — if and only if names are apart from one another and from quarantines, claims and records are read as they are, datasets are seen, and no key is in two hands |
| `ProtocolRuns.DeletionResumes` | pkg/controller/controller.go:727-737 | a deletion cut off after the backend was removed is completed by the next attempt, changing nothing else |
| `ProtocolRuns.CrashedDeletionCompletes` | pkg/controller/controller.go:714-737 | after any run: crash the node of a released volume, and its worker can take the deletion up anew and complete it, whether the dataset is there, partly destroyed or gone; record and dataset are gone then and no other record is |
| `ProtocolRuns.CrashedClaimCompletes` | pkg/controller/controller.go:433-631 | after any run: crash a node that may take up a claim with neither record nor dataset, and its worker can give the claim both, other records staying as they are |
| `ProtocolRuns.CrashedAdoptionCompletes` | pkg/controller/controller.go:433-631 | and where a dataset is there, a claim that adopts is recorded with it as it is |
| `ProtocolRuns.PartlyDestroyed` | pkg/driver/zfs/zfs.go:416-419 | a recursive destroy that fails midway takes exactly what it says it took beneath the dataset, nothing outside, and neither the dataset itself nor the record |
| `ProtocolOnce.ProvisionedOnce` | pkg/controller/controller.go:433-441 | without deletions and with existing datasets seen, with listers lagging and record reads failing as they like: at most one successful create per node and claim, at most one record per claim UID, and that record carries the UID |
| `ProtocolListers.CreatesOnceExactly` | pkg/driver/zfs/zfs.go:76-83 | without deletions, no run gives a claim two successful creates on a node — if and only if `zfs list` never fails for a dataset that is there |
| `ProtocolListers.OneBackendInCluster` | pkg/controller/controller.go:392-415 | nor on two nodes of the cluster — if and only if, besides, every claim or its class says where it belongs, or waits for a consumer |
| `ProtocolListers.SafeUndeletedExactly` | pkg/controller/controller.go:433-441 | without deletions, with listers lagging and reads failing as they like, every record has its dataset with its claim's data — if and only if datasets are seen, or adopted whatever they hold, and claims that share a dataset name on a node share their key too, or adopt |
| `ApplyOnce.OneShotExactly` | pkg/controller/controller.go:848-852 | in every run the passes that changed the volume are at most the times it was annotated plus the authorised passes that left the annotation in place — if and only if claims are read live and there is no autoApply |
| `ApplyOnce.AppliesPaidFor` | pkg/controller/controller.go:910-948 | the bound, with its invariant, over any run with live reads and no autoApply |
| `LivePasses.PassIsARun` | pkg/controller/controller.go:807-949 | whatever a state section does, it is a run of that history: only an authorised one changes the volume, the annotation goes when it should, and a failed removal is counted |
| `LivePasses.HistoryPaidFor` | pkg/controller/controller.go:848-948 | so in any history of edits, state sections and crashes, with live reads and no autoApply, those that changed the volume are paid for |
| `LivePasses.StaleSectionsApplyTwice` | pkg/controller/controller.go:336-341 | with a lister that lags behind: two state sections that each change the volume, and the history in which one annotation pays for both |
| `SectionRuns.SectionsConverge` | pkg/controller/controller.go:848-926 | two state sections in a row, the first applying without failures: the second changes nothing, issues no command and reports the volume up to date if and only if everything was attainable |
| `SectionRuns.SmoothSectionsConverge` | pkg/controller/controller.go:848-926 | where no command fails and nothing asked for would be refused, the first of two sections brings the volume to its wish if and only if all is attainable, and if and only if the second says so, and then nothing else |
| `SectionRuns.AppliedShortExactly` | pkg/controller/controller.go:866-948 | an applying section that was asked for uses up the annotation whatever failed; it reports changes as applied and yet leaves the volume short of its wish if and only if a call that succeeded had something to do and a quota, a property or a file, each named, was left |
| `SectionRuns.HalfApplied` | pkg/controller/controller.go:884-948 | a volume whose quota is set while its properties cannot be read, reported as updated |
| `WorkQueue.Queue.Get` | pkg/controller/controller.go:230-235 | hands out the key that has been ready longest and marks it as being worked on |
| `WorkQueue.Queue.Settle` | pkg/controller/controller.go:237-249 | success and giving up reset the count of requeues, any other failure schedules one retry; a key added meanwhile is ready again, behind all that were ready before |
| `WorkQueue.AttemptsBounded` | pkg/controller/controller.go:230-254 | a key added E times is attempted at most six times E times, whatever fails and however additions are merged |
| `WorkQueue.QueueDrains` | pkg/controller/controller.go:230-254 | no run of a key is longer than a fixed multiple of its additions, so finitely many events drain |
| `WorkQueue.BoundIsTight` | pkg/controller/controller.go:252-254 | for every E there is a run of E additions with exactly that many attempts |
| `WorkQueue.RestsExactly` | pkg/controller/controller.go:237-254 | where nothing else is due, a settled key can only be woken by another addition if and only if the attempt succeeded or was the sixth failure in a row |
| `Controllers.Controller.ProcessPVC` | pkg/controller/controller.go:283-316 | a claim that is pending, unbound, of this provisioner and meant for this node is attempted, and a bound one whose volume is this provisioner's and on this node gets its live pass; with any other claim nothing at all happens, and neither kind of section does the other's work |
| `Controllers.Controller.ProcessPending` | pkg/controller/controller.go:283-299 | a pending claim without a class, of another provisioner or meant for another node is left alone; any other is attempted in its guarded section, and no dataset there was is touched |
| `Controllers.Controller.ProcessBound` | pkg/controller/controller.go:301-313 | a bound claim whose volume is unknown, another provisioner's or on another node is left alone; any other gets its live pass in its guarded section, and no dataset comes or goes |
| `Controllers.Controller.ProcessPV` | pkg/controller/controller.go:320-334 | a released volume with the Delete policy, of this provisioner and on this node, is deleted, and where no command or call fails its record goes too; any other volume is left alone, and a record goes only with its backend gone |
| `Controllers.Controller.ReconcileClaim` | pkg/controller/controller.go:417-636 | the whole of an attempt: what is refused and why, what the driver made, which record was created under a free name, what the user is told; existing volumes and records survive; where no command or call fails, what can be created is, and recorded if it can be |
| `Controllers.Controller.CreateAndRecord` | pkg/controller/controller.go:569-635 | a record is created only for a volume that exists, names that volume, and never replaces another record |
| `Records.OwnRecordOnly` | pkg/controller/controller.go:433-441 | an attempt stops at a record under its volume's name if and only if that record carries the claim's UID; another claim's record never lets it succeed, and the record it makes stops every later attempt |
| `ControllerResults.OrphanBlocksRetry` | pkg/controller/controller.go:569-631 | a volume left without a record stays as it is through any attempts that follow, and one of them gets past it if and only if it adopts |
| `Controllers.Controller.ReconcileVolumeDelete` | pkg/controller/controller.go:687-741 | the record is deleted exactly when the backend is gone and the API answered; failures leave it for the next attempt; where nothing fails the attempt succeeds |
| `ControllerResults.RetryAfterRemoval` | pkg/driver/zfs/zfs.go:397-404 | once the dataset is gone every further attempt succeeds and changes nothing |
| `ControllerResults.PreservedOrWarned` | pkg/driver/zfs/zfs.go:406-413 | over any attempts: a dataset to be preserved is whole under the first quarantine name, from which a rename restores the pool, unless its rename failed |
| `ControllerResults.OnlyOwnSubtree` | pkg/driver/zfs/zfs.go:416-419 | over any attempts without preservation, nothing outside the volume's own subtree changes |
| `ControllerResults.DirectoryPreservedOrWarned` | pkg/driver/dir/dir.go:139-178 | over any attempts: a directory to be preserved is untouched or whole under a backup name, unless a rename failed |
| `Controllers.Controller.ReconcileVolumeState` | pkg/controller/controller.go:807-949 | a live pass: when it runs, what it did to quota, files and properties, that an unauthorised one changes nothing and an idle one issues no command, what it reports, when the annotation goes; where nothing fails, each driver call succeeds that could |
| `Controllers.Controller.RunPass` | pkg/controller/controller.go:860-908 | the three driver calls made one after the other, failures reported and skipped, amount to one pass over the volume |
| `Controllers.Controller.RunDirPass` | pkg/driver/dir/dir.go:104-137 | the same calls to the directory driver: the walk over the files, and a refusal of any quota and any properties |
| `ControllerResults.DirectoryPasses` | pkg/driver/dir/dir.go:104-137 | for directory volumes, a pass after an applying one reports all well without a failure if and only if neither quota nor properties are asked for and every file in scope could be given its owner |
| `Controllers.Controller.Report` | pkg/controller/controller.go:910-948 | up to date, planned or applied, and the apply annotation removed when nothing was reported or something applied |
| `ControllerResults.UpToDateReport` | pkg/controller/controller.go:910-915 | "up to date" without a failure event is true and the pass changed nothing; a volume that is up to date is always reported so |
| `ControllerResults.UpToDateReportedExactly` | pkg/controller/controller.go:867-926 | "up to date" is reported if and only if every driver call that succeeded had nothing to do; falsely, if and only if moreover the part of a call that failed differs |
| `ControllerResults.AnyVolumeReportedUpToDate` | pkg/controller/controller.go:867-926 | so any volume whatever, all of whose driver calls fail, is reported up to date, and the annotation is used up |
| `ControllerResults.FalseReport` | pkg/controller/controller.go:867-881 | a volume that lacks the quota asked for, and the pass that calls it up to date |
| `ControllerResults.UnreadClassResetsExactly` | pkg/controller/controller.go:842-847 | when the StorageClass cannot be read, a managed property declared by it alone is planned to be reset if and only if it reads as set locally |
| `ControllerResults.DryRunLeavesVolume` | pkg/controller/controller.go:848-852 | a state section for a claim that carries dry-run leaves datasets, files and commands as they are and reports no update, whatever else the claim and its class say |
| `VolumeState.SecondPass` | pkg/controller/controller.go:860-926 | after an applying pass without failures the next pass finds nothing exactly when everything was attainable, and then leaves the volume alone even if its calls fail |
| `VolumeState.PassConvergence` | pkg/controller/controller.go:860-908 | an applying pass without failures leaves the volume up to date if and only if every drifting property can be cured and every file in scope can be given its owner |
| `VolumeState.OrdinaryIsAttainable` | pkg/driver/zfs/zfs.go:220-364 | canonical values, unambiguous ancestors and ids other than 2^32-1 are always attainable |
| `VolumeState.ApplyBrings` | pkg/driver/zfs/zfs.go:330-361 | every applying pass without failures ends in the same volume, whatever order the maps were iterated in |
| `VolumeState.ReportTruthful` | pkg/controller/controller.go:910-915 | a pass without failures reports nothing exactly when the volume was up to date |
| `VolumeState.NothingMore` | pkg/controller/controller.go:866-908 | a volume that is up to date is left as it is by any pass, dry or not, failing or not |
| `VolumeState.PlanAgreesWithApply` | pkg/controller/controller.go:848-908 | from one volume a dry run and an applying pass report the same changes up to order, differing at most in counting hard-linked files once; the dry run changes nothing |
| `VolumeState.DriftLeft` | pkg/driver/zfs/zfs.go:330-363 | wherever a pass fails: the drift left is the drift there was less exactly the keys whose command went through and cured them |
| `VolumeState.NeverWorse` | pkg/controller/controller.go:860-908 | wherever a pass fails: the quota is untouched or right, no property and no file newly differs |
| `VolumeState.NothingElseTouched` | pkg/driver/zfs/zfs.go:347-361 | whatever happens to a pass: unmanaged properties, inherited values, symlinks and files out of scope stay as they are |
| `VolumeState.CreateTimeStays` | pkg/driver/zfs/zfs.go:184-188 | whatever claim and class ask for and wherever a pass fails, the quota family, mount point, case sensitivity and encryption are not set or reset among the properties |
| `VolumeState.NoDriftAtBirth` | pkg/controller/controller.go:487-567 | the plan for a volume just created is empty if and only if it was born with the quota its claim stands for, its managed properties read back, nothing inherited looks locally set and its root can be given its owner; the quota is that one unless it is negative or `quota` is also among the properties |
| `VolumeExamples.QuotaDriftsAtBirth` | pkg/controller/controller.go:487-567 | a class with `quota=5G` and a claim that asks for none: the volume is born to lose its quota at the next pass |
| `VolumeExamples.NeverConverges` | pkg/driver/owner_mode.go:86-105 | a directory of user 0 that is to belong to user 4294967295: every applying pass succeeds, reports the owner set and leaves it as it was |
| `Dataset.ReadDataset` | pkg/driver/zfs/zfs.go:278-294 | in whatever order zfs lists the properties, the same map is read |
| `Dataset.CommandsRepair` | pkg/driver/zfs/zfs.go:330-361 | the set and inherit commands for some keys commute: any order ends in the same dataset |
| `Dataset.DriftAfterRepair` | pkg/driver/zfs/zfs.go:330-361 | after commands for some of the drift, what is left is exactly what was not repaired or cannot be cured |
| `Dataset.RepairCounts` | pkg/driver/zfs/zfs.go:330-363 | no command adds drift; each one that can cure its key removes one key of it |
| `Dataset.PassConverges` | pkg/driver/zfs/zfs.go:308-364 | one full pass removes the drift if and only if every drifting key is curable |
| `Dataset.PassPostState` | pkg/driver/zfs/zfs.go:308-364 | after a full pass: desired keys have their values, managed keys no longer desired are not set locally, everything else is unchanged |
| `Dataset.PassesConserve` | pkg/driver/zfs/zfs.go:330-363 | over any passes failing anywhere, commands issued plus drift left equal the drift at the start |
| `Dataset.OneFullPassSuffices` | pkg/driver/zfs/zfs.go:330-363 | a run with one pass that did not fail ends without drift, and passes after it issue nothing |
| `Dataset.CanonicalIsCurable` | pkg/driver/zfs/zfs.go:284-291 | a value in the form zfs prints can be cured exactly when it is a single word |
| `Dataset.InheritedIsCurable` | pkg/driver/zfs/zfs.go:302-306 | an inherited word can be cured exactly when its ancestor's name does not begin with "local" or hold a colon |
| `Dataset.ManagedAsDocumented` | README.md:117-121 | the properties taken for reconcilable are exactly the documented ones and those whose name holds a colon |
| `ZfsReconcile.ReconcileQuota` | pkg/driver/zfs/zfs.go:220-248 | reports the change there is to make, makes it unless dry, and changes nothing on any failure; where no command fails it succeeds |
| `ControllerResults.QuotaSettles` | pkg/driver/zfs/zfs.go:220-248 | after an applied reconciliation of the quota the dataset has the quota meant, and a second one changes nothing and reports nothing, whether it is dry, applied or fails |
| `ZfsReconcile.FilterProps` | pkg/driver/zfs/zfs.go:311-323 | keeps exactly user properties and reconcilable ones |
| `ZfsReconcile.SetAll` | pkg/driver/zfs/zfs.go:330-345 | each desired key that differs is set once, up to the first failure |
| `ZfsReconcile.InheritAll` | pkg/driver/zfs/zfs.go:346-361 | each locally set managed key that is not desired is inherited once, up to the first failure |
| `ZfsReconcile.ReconcileProperties` | pkg/driver/zfs/zfs.go:308-364 | in any iteration order: all of the drift is repaired and reported, or a proper part of it before a failure, which names a drifting key whose turn had come, with nothing inherited before all is set; a dry run reports the same and changes nothing; where no command fails and no setting is refused it succeeds |
| `ZfsReconcile.RunZfsSet` | pkg/driver/zfs/zfs.go:366-377 | sets one property, or nothing when dry or failing |
| `ZfsReconcile.RunZfsInherit` | pkg/driver/zfs/zfs.go:379-390 | resets one property, or nothing when dry or failing |
| `ZfsText.ParseProps` | pkg/driver/zfs/zfs.go:278-294 | the parsing loop computes the property table |
| `ZfsText.TableReadback` | pkg/driver/zfs/zfs.go:278-294 | printing any table and parsing it yields each name with the first word of its value and the last word of its source, later rows winning |
| `ZfsText.ValueReadback` | pkg/driver/zfs/zfs.go:284-291 | a value comes back as printed if and only if it is a single word |
| `ZfsText.LocallySetExactly` | pkg/driver/zfs/zfs.go:302-306 | a word's source reads as local if and only if it is, or it is inherited from an ancestor whose name begins with "local" or holds a colon |
| `ZfsText.QuotaReadback` | pkg/driver/zfs/zfs.go:211-218 | a printed quota is read back exactly when it is below 2^63 |
| `ZfsText.NoQuotaExactly` | pkg/driver/zfs/zfs.go:211-218 | exactly which texts are read as no quota: blank ones, "-", "none", and every numeral worth 0 |
| `ZfsHosts.ZfsHost.CreateDataset` | pkg/driver/zfs/zfs.go:114-146 | `zfs create -p`: makes the dataset with its settings, or succeeds without effect when it exists |
| `ZfsHosts.ZfsHost.Rename` | pkg/driver/zfs/zfs.go:409 | `zfs rename`: the whole subtree moves, and only to a free name |
| `ZfsHosts.ZfsHost.Destroy` | pkg/driver/zfs/zfs.go:417 | `zfs destroy -r`: the subtree and nothing else, or part of what is below it on failure |
| `ZfsHosts.ZfsHost.GetAll` | pkg/driver/zfs/zfs.go:265-277 | the properties, printed in any order |
| `ZfsDriver.Create` | pkg/driver/zfs/zfs.go:85-182 | an existing dataset is adopted unchanged or refused; a new one has the requested settings, owner and mode; nothing else is touched; where no command fails and zfs refuses no setting, it is made |
| `ZfsDriver.ApplyAtBirth` | pkg/driver/zfs/zfs.go:157-175 | only the root is touched, and without a warning it has the owner and mode |
| `ZfsDriver.ReconcileOwnerMode` | pkg/driver/zfs/zfs.go:250-262 | the walk of owner_mode.go at the effective path, or nothing where there is none |
| `ZfsDriver.Delete` | pkg/driver/zfs/zfs.go:392-422 | succeeds exactly when the dataset is gone: absent, renamed whole to the quarantine name, or destroyed; where no command fails it succeeds |
| `ZfsDriver.OthersIntact` | pkg/driver/zfs/zfs.go:406-419 | a volume apart from the deleted one keeps every entry, whether that was renamed or destroyed |
| `Subtrees.RenameKeeps` | pkg/driver/zfs/zfs.go:409 | a rename to a free name loses nothing: every entry is found again, the old name is free |
| `Subtrees.RenameBack` | pkg/driver/zfs/zfs.go:406-413 | renaming back restores the pool |
| `OwnerMode.VisitsAreTheTree` | pkg/driver/owner_mode.go:75-81 | the walk visits every file, directory and symlink of the tree and nothing else |
| `OwnerMode.WalkedToIs` | pkg/driver/owner_mode.go:74-112 | after a walk every visited file is fixed, once for all of its names; symlinks and everything outside are untouched |
| `OwnerMode.WalkGivesMode` | pkg/driver/owner_mode.go:97 | for any octal digits u, g, o and any digits before them, a visited file has exactly the permissions ugo after the walk |
| `OwnerMode.WalkGives` | pkg/driver/owner_mode.go:82-105 | after the walk a visited file has the very mode where that is below 01000, and the very ids modulo 2^32, the last of which leaves them as they were; what is not declared stays |
| `OwnerMode.FixedMeets` | pkg/driver/owner_mode.go:86-105 | fixing is idempotent and gives the owner exactly when no lacking id means "unchanged" |
| `OwnerMode.DryRunCounts` | pkg/driver/owner_mode.go:82-105 | a dry run counts exactly the paths that differ |
| `OwnerMode.ApplyCounts` | pkg/driver/owner_mode.go:82-105 | applying never counts more than the dry run, and the same without hard links |
| `OwnerMode.ApplyCountsExactly` | pkg/driver/owner_mode.go:82-105 | exactly what applying counts, hard links or not: each differing file once, and each further name of a file that cannot be given its owner once more |
| `OwnerMode.SecondWalk` | pkg/driver/owner_mode.go:74-112 | a second walk counts nothing exactly when every visited file could be given its owner |
| `OwnerMode.PlanMatchesApply` | pkg/driver/owner_mode.go:33-67 | the change lists of plan and apply agree, up to the counts of hard-linked files |
| `OwnerMode.OwnerConverges` | pkg/driver/owner_mode.go:33-67 | after an applying reconciliation the next reports nothing exactly when every file in scope could be given its owner |
| `HostTrees.ReconcileOwnerModeRecursive` | pkg/driver/owner_mode.go:74-112 | the walk that changes files in place counts and leaves what is specified; cut short, every file is as it was, re-owned or done |
| `HostTrees.FixRoot` | pkg/driver/owner_mode.go:33-53 | the root directory gets owner and mode, and the changes reported are those made |
| `HostTrees.ReconcileOwnerModeAtPath` | pkg/driver/owner_mode.go:19-68 | root and walk together: the reported changes, the resulting files, and what an error leaves |
| `HostTrees.TreeGives` | pkg/driver/owner_mode.go:33-112 | after a whole reconciliation without failures, the same of every file in scope that is not a symlink |
| `DirDriver.Create` | pkg/driver/dir/dir.go:41-102 | quotas are refused; an existing directory is adopted unchanged or refused; only missing directories on the way are made; the new one has owner and mode; where no call fails and nothing but directories is on the way, it is made |
| `DirDriver.Delete` | pkg/driver/dir/dir.go:139-178 | the directory is gone when it succeeds: absent, renamed whole to the backup name, or removed; nothing outside it changes; where no call fails it succeeds, and preserves what it can |
| `DirDriver.ReconcileOwnerMode` | pkg/driver/dir/dir.go:116-128 | the walk of owner_mode.go, or nothing without a mount path |
| `HostPaths.HostPathIs` | pkg/driver/dir/dir.go:54-57 | for a cleaned absolute prefix, or none, and a cleaned absolute mount path, the directory is at the one behind the other |
| `HostPaths.EffectivePathIs` | pkg/driver/zfs/zfs.go:250-262 | the zfs driver looks in the same place, and nowhere for "", "none" and "legacy" |
| `HostPaths.MadeBehind` | pkg/driver/dir/dir.go:79-102 | provisioning a directory behind a prefix makes that directory, keeps every entry there was, and makes none outside the prefix |
| `HostPaths.GoneBehind` | pkg/driver/dir/dir.go:148-178 | deleting it, by backup or removal, whole or cut short, leaves every entry outside the prefix as it is |
| `HostPaths.QuarantinesApart` | pkg/driver/zfs/zfs.go:406-409 | no two volumes, and no two seconds, share a quarantine name |
| `Naming.ClaimPathIs` | pkg/controller/templater.go:60-80 | valid claims always get "namespace/name" from the default template |
| `Naming.ClaimsApart` | pkg/controller/controller.go:461-485 | distinct valid claims get dataset names and mount paths neither of which contains the other |
| `Naming.RemovalKeepsOthers` | pkg/driver/dir/dir.go:173 | removing one subtree leaves a subtree apart from it as it is |
| `Naming.MountPathContained` | pkg/controller/controller.go:480-485 | whatever a template renders, an accepted path joined to a cleaned absolute prefix stays at or below it |
| `Isolation.RenderedContainsExactly` | README.md:143 | the example template renders, for one claim, a path that is or contains another claim's if and only if they share the namespace and are replicas of one owner and index, or the first is named like the second's owner, or they are the same plain claim |
| `Isolation.ExampleContainsExactly` | pkg/controller/controller.go:461-485 | the same of the datasets and the mount paths that claims are then given: one contains another if and only if the levels left by cleaning are a prefix of the other's |
| `Isolation.TwoReplicasCollide` | README.md:143 | the valid claims "a-r-0" and "b-r-0", two volumes of one replica, are given one path |
| `Isolation.ReplicasCollide` | pkg/controller/controller.go:461-485 | as are the volumes of any two claim templates of one replica, with one dataset and one mount path |
| `Isolation.ExamplePathIs` | pkg/controller/templater.go:60-81 | the example template gives every valid claim a path, and which: an empty owner, as that of "data--0", is cleaned away; none can be "." or ".." |
| `Isolation.OverrideContainedExactly` | pkg/controller/controller.go:462-485 | an override annotation, which nothing checks, keeps the mount path at or below the prefix if and only if the levels it climbs out of are those it goes down again |
| `Isolation.OverrideLeaves` | pkg/controller/controller.go:462-485 | the annotation "../x" leads out of the prefix "/mnt" |
| `Templater.TemplateAccepted` | pkg/controller/templater.go:75-78 | a rendered text is accepted exactly when its cleaned form does not begin with ".." |
| `Templater.ClimbsOnlyInFront` | pkg/controller/templater.go:76 | in a cleaned relative path ".." stands only in front, so the second test refuses nothing more |
| `Templater.TemplateContainment` | pkg/controller/templater.go:75-80 | every accepted path is "." or ordinary components, relative, and cleaning it again changes nothing |
| `Templater.StatefulSetRoundTrip` | pkg/controller/templater.go:39-57 | claim-owner-index comes back as those three parts, whatever hyphens the owner holds |
| `Templater.StatefulSetParts` | pkg/controller/templater.go:39-57 | exactly which names parse, and to what |
| `Templater.StatefulSetCollisions` | pkg/controller/templater.go:39-57 | exactly which distinct names parse to the same parts |
| `Templater.ContextOfReplica` | pkg/controller/templater.go:15-37 | the template gets claim, owner and index of a StatefulSet's claim, each in its place |
| `Strings.TrimSetTakes` | pkg/controller/templater.go:75 | trimming takes nothing but characters of the set off the two ends |
| `Strings.TrimSetUnwraps` | pkg/controller/templater.go:75 | and takes all of them: text in any wrapping of the set comes out as it went in |
| `Paths.CleanIdempotent` | pkg/controller/templater.go:75 | cleaning a cleaned path changes nothing |
| `Paths.JoinContained` | pkg/controller/controller.go:484 | joining a contained path appends its components to the prefix's |
| `Config.ParseKeyValueLines` | pkg/apis/config/types.go:98-119 | the parsing loop computes the settings of the text |
| `Config.KeyValueRoundTrip` | pkg/apis/config/types.go:98-119 | printing any printable map in any order as "k=v" lines and parsing it gives the map back |
| `Config.ParserImage` | pkg/apis/config/types.go:98-119 | the maps the parser can return are exactly the printable ones |
| `Config.OverlayIsConcatenation` | pkg/controller/controller.go:893-902 | overlaying the claim's properties on the StorageClass's is parsing one text under the other |
| `Config.OwnershipRoundTrip` | pkg/apis/config/types.go:63-81 | "UID:GID" of any ids is read back exactly when both are at least -2^63 and below 2^63, and refused by the part that is out of that range |
| `Config.FileModeOctal` | pkg/apis/config/types.go:83-96 | three octal digits behind any number of zeros are read as the permission bits they write |
| `Config.FileModeRefused` | pkg/apis/config/types.go:83-96 | text that is not all octal digits is refused, unless it is blank and declares nothing |
| `Decimal.SignedNumerals` | pkg/apis/config/types.go:73-79 | an id is read with either sign or none in front of its digits, within 64 bits, and not otherwise |
| `Claims.OneNodeTargeted` | pkg/controller/controller.go:392-415 | two nodes take up the same claim exactly when nothing says where it belongs and it does not wait for a consumer |
| `Claims.DeclaredAtBirth` | pkg/controller/controller.go:499-516 | what a claim declares of owner, mode and properties is what its volume is created with |
| `Declarations.PassProps` | pkg/controller/controller.go:842-902 | for any settings printed in any order into the claim's annotation and its class's parameter: a pass wants exactly the keys of both, with the claim's value wherever it has one |
| `Declarations.PassPropsWithoutClass` | pkg/controller/controller.go:842-847 | a class that is not named or cannot be read has no say in that |
| `Declarations.CreateProps` | pkg/controller/controller.go:512-516 | the same of the properties a volume is created with |
| `Declarations.PassQuota` | pkg/controller/controller.go:787-805 | the quota a pass wants: with the annotation, none for "none" and "unlimited", otherwise the size it says, and no pass at all if and only if that cannot be read; without it the request, unless that is 1 or absent |
| `Declarations.RequestOverridden` | pkg/controller/controller.go:788-799 | with the annotation there, the size requested makes no difference to any pass or creation |
| `Declarations.CreateQuota` | pkg/controller/controller.go:487-497 | the quota a volume is created with is that of a pass, none being 0 |
| `Declarations.PassOwnerMode` | pkg/controller/controller.go:873-886 | a pass enforces the owner and the octal mode written in the claim's annotations, and no defaults of the class |
| `Declarations.CreateOwnerMode` | pkg/controller/controller.go:499-510 | a volume is created with the owner and the octal mode written in the claim's annotations, or where they are empty in the class's parameters |
| `Declarations.PassApplies` | pkg/controller/controller.go:848-852 | a pass applies if and only if the claim asks for it or a class that was read always does, and the claim does not say dry-run |
| `Declarations.RefusedExactly` | pkg/controller/controller.go:443-492 | which claims are refused and for which of four reasons first; any other gets the driver its class names, "zfs" by default, and dataset and mount path under its own relative path or the accepted rendering |
| `Declarations.ParentUnwrapped` | pkg/controller/controller.go:474-478 | slashes around the parent dataset's name do not matter, however many, and a parent of nothing else is none |
| `Declarations.MountPrefixOptional` | pkg/controller/controller.go:480-485 | the driver is left to choose the mount path if and only if the prefix is "" or "/"; a slash behind another one does not matter |
| `Declarations.PassFollowsRecord` | pkg/controller/controller.go:823-841 | a pass over a recorded volume goes to the driver, dataset and mount path that were recorded |
| `Records.DeletedByPolicy` | pkg/controller/pv_builder.go:37-40 | a volume is taken up for deletion, once released and not before, if and only if its class says Delete and the controller is of its provisioner and on its node, or on none |
| `Records.RetainedForGood` | pkg/controller/controller.go:320-334 | no volume that an attempt under a class with Retain or no policy records is ever taken up for deletion, by any controller, in any phase |
| `Records.MeantNodeRecorded` | pkg/controller/controller.go:586-593 | a controller without a node of its own takes up every claim; the node it then records is the only one the claim is meant for, and where it finds none the claim is meant for every node, or for none while it waits for a consumer |
| `Records.SectionKeysApart` | pkg/controller/controller.go:417-431 | claim, state and delete sections never share a key, and two of a kind do exactly for the same object |
| `PvBuilder.RecordTies` | pkg/controller/pv_builder.go:24-107 | a record leads back to the dataset and mount path created, is taken up for deletion by the creating node and no other, is named after the claim's UID, and carries that, the claim's namespace, name and class |
| `PvBuilder.PvNameInjective` | pkg/controller/pv_builder.go:35 | records of distinct claims have distinct names |
| `PvBuilder.PreservationNotCarried` | pkg/controller/pv_builder.go:62-67 | no record that is built asks for preservation, whatever its claim says |

## Left out

- The Btrfs driver, which has no live reconciliation and creates and deletes as the modelled drivers do, and the mock driver, a test double.
- Encryption options and the loading of secrets (pkg/controller/controller.go:518-553, 743-769), a precedence chain of lookups; an early return on a secret that cannot be loaded is one more way to leave the claim section.
- Go's template engine, and the labels and annotations it may draw on: the rendered text, or its failure, is an arbitrary parameter. `resource.ParseQuantity` is an arbitrary function from text to a number or a failure.
- Informers, RBAC, the event recorder, flags and logging; the batch loops over all claims and volumes (pkg/controller/controller.go:358-389, 639-664), which nothing calls while the controller runs.
- What a property set on one dataset changes in the inherited values of datasets beneath it, and the ancestors that `zfs create -p` makes.
- A mount point that is a symlink to a directory or not a directory; the setuid, setgid and sticky bits; the umask when a directory is created, which may only clear bits.
- Text that is not valid UTF-8.
- A record's capacity, access modes and resource versions.
- The real delays of the rate limiter, and the order in which retries that are due come back.
- ProtocolRuns.SafeExactly: one provisioner that is told its node's name; a controller without one, which takes up every volume, is not part of this model. Only the provisioner deletes its records and datasets. Which nodes take up a claim, and whether it adopts, is settled for good: an annotation that changes either is not part of this model, except that `takes` may be read as "may ever take". A claim deleted before it has a record may still be taken up.
- ProtocolOnce.ProvisionedOnce: an adopting claim that finds a dataset creates nothing, and counts for none. `ProtocolListers.CreatesOnceExactly` is the part of it that needs `zfs list` to see what is there.
- ProtocolRuns.DeletionResumes: for one worker left undisturbed; that a worker is eventually scheduled is not part of this model.
- ControllerResults.RetryAfterRemoval: attempts of one volume after another with nothing else touching its pool; interleavings are the business of the protocol's invariant.
- DirDriver.Create: the attributes of the directories made on the way, and of the directory itself when none are declared, are only bounded by the permission asked for.
- LivePasses.HistoryPaidFor: that a pass cut off by a crash has changed the volume only if it was authorised is part of what a history is, as `Controllers.Controller.ReconcileVolumeState` speaks of passes that end. One claim, whose StorageClass does not change.
