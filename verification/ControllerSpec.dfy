/**
 * What the sections of pkg/controller/controller.go:256-334, 417-741, 807-949 are to do: the API
 * objects they answer with, what they report, and what each leaves behind.
 */
module ControllerSpec {
  import opened Wrappers
  import opened Decimal
  import opened Templater
  import opened Dataset
  import opened Subtrees
  import opened ZfsHosts
  import opened ZfsReconcile
  import opened OwnerMode
  import opened HostTrees
  import ZfsDriver
  import DirDriver
  import opened Claims
  import opened PvBuilder
  import opened VolumeState

  datatype ApiReply = Done | Conflict | Missing | Failed

  function ApplyRemoved(all: map<(string, string), map<string, string>>, ns: string,
                        name: string): map<(string, string), map<string, string>> {
    if (ns, name) in all then all[(ns, name) := all[(ns, name)] - {ANN_APPLY}] else all
  }

  datatype Backend = ZfsBackend | DirBackend

  /** One line of a change summary */
  datatype Change = QuotaLine(quota: QuotaChange) | OwnerLine(owner: OwnerChange) | PropLine(prop: PropChange)

  datatype Event =
    | DriverNotFound | VolumeModeUnsupported | TemplateError | QuotaResolutionFailed
    | ProvisioningFailed | VolumeAdopted(dataset: string) | PvBuildFailed | PvCreateFailed
    | ProvisioningSucceeded(pv: string)
    | DeletingFailed | PvDeleteFailed
    | VolumeUpdateFailed(what: string) | VolumeUpToDate
    | VolumeDryRun(plan: seq<Change>) | VolumeUpdated(changes: seq<Change>) | ApplyAnnotationCleanupFailed

  datatype ControllerError =
    | NoSuchDriver | BlockVolume | BadTemplate | BadQuota | BackendFailed | NotBuilt(why: BuildError)
    | ApiFailed

  // ---- Reporting a live pass ------------------------------------------------------------------

  /** The change lines of a pass, in the order they were collected */
  function Changes(res: Results): seq<Change> {
    (if res.quota.Ok? then seq(|res.quota.value|, i requires 0 <= i < |res.quota.value| => QuotaLine(res.quota.value[i])) else [])
    + (if res.owner.Ok? then seq(|res.owner.value|, i requires 0 <= i < |res.owner.value| => OwnerLine(res.owner.value[i])) else [])
    + if res.props.Ok? then seq(|res.props.value|, i requires 0 <= i < |res.props.value| => PropLine(res.props.value[i])) else []
  }

  function Failure(failed: bool, what: string): seq<Event> {
    if failed then [VolumeUpdateFailed(what)] else []
  }

  /** Each driver call that failed is reported as it fails. */
  function WithFailures(events: seq<Event>, res: Results): seq<Event> {
    events + Failure(res.quota.Err?, "quota") + Failure(res.owner.Err?, "owner/mode") + Failure(res.props.Err?, "properties")
  }

  /** A pass uses up the apply annotation when it applied something or found nothing to report. */
  predicate Consumes(res: Results, applyRequested: bool, dryRun: bool) {
    applyRequested && (Changes(res) == [] || !dryRun)
  }

  /** What a pass says about its outcome */
  function OutcomeEvents(res: Results, applyRequested: bool, dryRun: bool, patched: bool): seq<Event> {
    (if Changes(res) == [] then [VolumeUpToDate]
     else if dryRun then [VolumeDryRun(Changes(res))]
     else [VolumeUpdated(Changes(res))])
    + if Consumes(res, applyRequested, dryRun) && !patched then [ApplyAnnotationCleanupFailed] else []
  }

  /** Whether a live pass ran, and what came of it */
  datatype StatePass = Skipped | Ran(wish: StateWish, dryRun: bool, res: Results, order: seq<string>, patched: bool)

  /** The StorageClass a pass goes by: what the API returned, if the claim names one at all */
  function ClassOf(pvc: Claim, got: Option<StorageClass>): Option<StorageClass> {
    if pvc.className.Some? && pvc.className.value != "" then got else None
  }

  function StateKey(pvc: Claim): string {
    "state:" + pvc.ns + "/" + pvc.name
  }

  function ClaimKey(pvc: Claim): string {
    "pvc:" + pvc.ns + "/" + pvc.name
  }

  function DeleteKey(pv: PersistentVolume): string {
    "pv:" + pv.name
  }

  datatype ClaimPhase = Pending | Bound | Lost

  /** What a lister or the API has to say about an object */
  datatype Answer<T> = Found(value: T) | NotFound | Unknown

  /** A pending claim is meant for this provisioner and this node. */
  predicate Targeted(provisionerName: string, nodeName: string, pvc: Claim, storageClass: Answer<StorageClass>) {
    && pvc.className.Some? && pvc.className.value != ""
    && storageClass.Found? && storageClass.value.provisioner == provisionerName
    && IsNodeTargeted(nodeName, storageClass.value, pvc)
  }

  /** A claim's volume is this provisioner's and on this node. */
  predicate Ours(provisionerName: string, nodeName: string, volume: Answer<PersistentVolume>) {
    && volume.Found? && Lookup(volume.value.annotations, ANN_PROVISIONED_BY) == provisionerName
    && IsPvOnThisNode(nodeName, volume.value)
  }

  /** How an attempt to provision a claim ended */
  datatype ClaimPass =
    | NotEntered | AlreadyThere | Refused(why: ControllerError) | NotCreated
    | NotBuilt(reason: BuildError) | NotRecorded | Recorded(pv: PersistentVolume) | RecordedByOther

  function RefusalEvent(why: ControllerError): Event {
    match why
    case NoSuchDriver => DriverNotFound
    case BlockVolume => VolumeModeUnsupported
    case BadTemplate => TemplateError
    case _ => QuotaResolutionFailed
  }

  /** What the user is told about an attempt that got as far as having an outcome to tell */
  function OutcomeEvent(pvc: Claim, outcome: ClaimPass): Event {
    match outcome
    case Refused(why) => RefusalEvent(why)
    case NotBuilt(_) => PvBuildFailed
    case NotRecorded => PvCreateFailed
    case Recorded(pv) => ProvisioningSucceeded(pv.name)
    case RecordedByOther => ProvisioningSucceeded(PvName(pvc.uid))
    case _ => ProvisioningFailed
  }

  function Adopted(opts: ZfsDriver.CreateOptions, made: Option<ZfsDriver.VolumeInfo>): seq<Event> {
    if made.Some? && opts.adoptExisting then [VolumeAdopted(made.value.name)] else []
  }

  /** The record found under the claim's volume name is the claim's own. */
  predicate BelongsTo(seen: Option<PersistentVolume>, pvc: Claim) {
    seen.Some? && seen.value.claimUid == pvc.uid
  }

  /** The relative path: the claim's own, or the rendered template when it is safe */
  function RelPath(pvc: Claim, rendered: Option<string>): Option<string> {
    if Lookup(pvc.annotations, ANN_SUBVOL_PATH) != "" then Some(Lookup(pvc.annotations, ANN_SUBVOL_PATH))
    else if rendered.None? then None
    else
      match EvaluatePathTemplate(rendered.value)
      case Ok(path) => Some(path)
      case Err(_) => None
  }

  /** The node a record names: the controller's own, or where a centralised one was told to go */
  function NodeFor(nodeName: string, pvc: Claim, sc: StorageClass): string {
    if nodeName != "" then nodeName
    else if Lookup(pvc.annotations, ANN_SELECTED_NODE) != "" then Lookup(pvc.annotations, ANN_SELECTED_NODE)
    else Lookup(sc.parameters, PARAM_NODE)
  }

  datatype Plan = Plan(driver: string, backend: Backend, opts: ZfsDriver.CreateOptions)

  /** What is to be created for a claim, or why nothing is */
  function Prepare(drivers: map<string, Backend>, pvc: Claim, sc: StorageClass, rendered: Option<string>,
                   quantity: string -> Option<int>, hostPrefix: string): Result<Plan, ControllerError>
  {
    var driver := if Lookup(sc.parameters, PARAM_DRIVER) == "" then "zfs" else Lookup(sc.parameters, PARAM_DRIVER);
    if driver !in drivers then Err(NoSuchDriver)
    else if pvc.block then Err(BlockVolume)
    else if RelPath(pvc, rendered).None? then Err(BadTemplate)
    else
      match ResolveQuota(pvc, quantity)
      case Err(_) => Err(BadQuota)
      case Ok(quota) =>
        Ok(Plan(driver, drivers[driver], ProvisionOptions(pvc, sc, RelPath(pvc, rendered).value, quota, hostPrefix)))
  }

  /** What came back from the driver names the dataset and mount path that were asked for. */
  predicate MadeInfo(opts: ZfsDriver.CreateOptions, info: ZfsDriver.VolumeInfo) {
    info.name == opts.name && (opts.mountPath != "" ==> info.mountPath == opts.mountPath)
  }

  ghost predicate DatasetMade(pool0: map<string, Dataset>, pool1: map<string, Dataset>, canon: Canon,
                              inherits: string -> map<string, Setting>, opts: ZfsDriver.CreateOptions,
                              r: Option<ZfsDriver.VolumeInfo>)
  {
    if r.None? then pool1 == pool0 && (opts.name in pool0 && opts.name != "" ==> !opts.adoptExisting)
    else
      && MadeInfo(opts, r.value) && opts.name in pool1
      && if opts.name in pool0 then opts.adoptExisting && pool1 == pool0
         else
           && pool1 == pool0[opts.name := pool1[opts.name]]
           && pool1[opts.name] == NewDataset(canon, pool1[opts.name].quota, opts.props, inherits(opts.name))
           && ("quota" !in opts.props ==> pool1[opts.name].quota == if opts.quotaBytes > 0 then opts.quotaBytes else 0)
  }

  ghost predicate FilesBorn(pool0: map<string, Dataset>, attrs0: map<Ino, Attr>, attrs1: map<Ino, Attr>,
                            root: Option<Node>,
                            opts: ZfsDriver.CreateOptions, r: Option<ZfsDriver.VolumeInfo>, warned: bool)
  {
    if r.None? || opts.name in pool0 then attrs1 == attrs0
    else
      && ZfsDriver.OnlyRootTouched(attrs0, attrs1, root)
      && (!warned ==>
            attrs1 == ZfsDriver.BornAttrs(attrs0, root, ZfsDriver.EffectivePath(opts.hostPrefix, r.value.mountPath).Some?,
                                          opts.owner, opts.mode))
  }

  ghost predicate DirectoryMade(files0: map<string, DirDriver.DirEntry>, files1: map<string, DirDriver.DirEntry>,
                                opts: ZfsDriver.CreateOptions, r: Option<ZfsDriver.VolumeInfo>, warned: bool)
  {
    var path := DirDriver.HostPath(opts.hostPrefix, DirDriver.TargetPath(opts.mountPath, opts.name));
    && files0.Items <= files1.Items
    && (forall k :: k in files1 && k !in files0 ==> k in DirDriver.WayTo(path) && files1[k].Directory?)
    && (r.Some? ==>
          && MadeInfo(opts, r.value) && path in files1 && opts.quotaBytes <= 0
          && (path in files0 ==> opts.adoptExisting && files1 == files0)
          && (path !in files0 && !warned ==> DirDriver.Made(files1[path], opts.owner, opts.mode)))
  }

  /** What provisioning did to the backend: whatever happens next, nothing that was there before is lost. */
  ghost predicate Provisioned(plan: Plan, pool0: map<string, Dataset>, pool1: map<string, Dataset>,
                              attrs0: map<Ino, Attr>, attrs1: map<Ino, Attr>, root: Option<Node>,
                              files0: map<string, DirDriver.DirEntry>, files1: map<string, DirDriver.DirEntry>,
                              canon: Canon, inherits: string -> map<string, Setting>,
                              r: Option<ZfsDriver.VolumeInfo>, warned: bool)
  {
    match plan.backend
    case ZfsBackend =>
      && files1 == files0 && DatasetMade(pool0, pool1, canon, inherits, plan.opts, r)
      && FilesBorn(pool0, attrs0, attrs1, root, plan.opts, r, warned)
    case DirBackend =>
      pool1 == pool0 && attrs1 == attrs0 && DirectoryMade(files0, files1, plan.opts, r, warned)
  }

  /** Nothing stands in the way of what is to be created. */
  ghost predicate CanCreate(plan: Plan, pool: map<string, Dataset>, files: map<string, DirDriver.DirEntry>, canon: Canon) {
    match plan.backend
    case ZfsBackend =>
      && plan.opts.name != ""
      && if plan.opts.name in pool then plan.opts.adoptExisting else AllSettable(canon, plan.opts.props)
    case DirBackend =>
      var target := DirDriver.TargetPath(plan.opts.mountPath, plan.opts.name);
      var path := DirDriver.HostPath(plan.opts.hostPrefix, target);
      && plan.opts.quotaBytes <= 0 && target != ""
      && if path in files then plan.opts.adoptExisting else DirDriver.Clear(files, path)
  }

  /** How the record of an existing volume fared */
  ghost predicate Recording(pvs0: map<string, PersistentVolume>, pvs1: map<string, PersistentVolume>, pvc: Claim,
                            sc: StorageClass,
                            provisioner: string, driver: string, opts: ZfsDriver.CreateOptions, info: ZfsDriver.VolumeInfo,
                            node: string, seenAfter: Option<PersistentVolume>, outcome: ClaimPass)
  {
    var built := BuildPersistentVolume(pvc, sc, provisioner, driver, info.name,
                                       if info.mountPath != "" then info.mountPath else opts.mountPath, node);
    match outcome
    case NotBuilt(reason) => pvs1 == pvs0 && built == Err(reason)
    case NotRecorded => pvs1 == pvs0 && built.Ok?
    case Recorded(pv) => built == Ok(pv) && pv.name !in pvs0 && pvs1 == pvs0[pv.name := pv]
    case RecordedByOther => pvs1 == pvs0 && built.Ok? && built.value.name in pvs0 && BelongsTo(seenAfter, pvc)
    case _ => false
  }

  function DeleteEvents(r: Result<(), ControllerError>): seq<Event> {
    if r == Err(BackendFailed) then [DeletingFailed] else if r == Err(ApiFailed) then [PvDeleteFailed] else []
  }

  /** What a deletion did to the datasets: nothing else than the driver's Delete may do. */
  ghost predicate DatasetGone(pool0: map<string, Dataset>, pool1: map<string, Dataset>, pv: PersistentVolume,
                              now: nat, ok: bool, warned: bool) {
    var name := Lookup(pv.annotations, ANN_DATASET_NAME);
    if name == "" then !ok && pool1 == pool0
    else
      && (ok <==> name !in pool1)
      && (if name !in pool0 then pool1 == pool0
          else if PreservationRequested(pv) && !warned then
            && FreeFor(pool0, name, ZfsDriver.QuarantineName(name, now))
            && pool1 == Renamed(pool0, name, ZfsDriver.QuarantineName(name, now))
          else
            && (ok ==> pool1 == Without(pool0, name))
            && Without(pool1, name) == Without(pool0, name)
            && pool1.Items <= pool0.Items)
      && (warned ==> PreservationRequested(pv))
  }

  /** The same for a plain directory */
  ghost predicate DirectoryGone(files0: map<string, DirDriver.DirEntry>, files1: map<string, DirDriver.DirEntry>,
                                hostPrefix: string,
                                pv: PersistentVolume, now: nat, ok: bool, warned: bool)
  {
    var target := DirDriver.TargetPath(Lookup(pv.annotations, ANN_HOST_MOUNT_PATH), Lookup(pv.annotations, ANN_DATASET_NAME));
    var path := DirDriver.HostPath(hostPrefix, target);
    var backup := DirDriver.BackupPath(path, now);
    if target == "" then !ok && files1 == files0
    else
      && (ok ==> path !in files1)
      && (if path !in files0 then files1 == files0
          else if PreservationRequested(pv) && !warned && ok then
            && FreeFor(files0 - {backup}, path, backup)
            && files1 == Renamed(files0 - {backup}, path, backup)
          else
            && (ok ==> files1 == Without(files0, path))
            && (PreservationRequested(pv) && !warned ==> files1 == files0)
            && Without(files1, path) == Without(files0, path)
            && files1.Items <= files0.Items)
      && (warned ==> PreservationRequested(pv))
  }

  /** Where a directory volume's files are */
  function VolumeDir(hostPrefix: string, pv: PersistentVolume): string {
    var mountPath, name := Lookup(pv.annotations, ANN_HOST_MOUNT_PATH), Lookup(pv.annotations, ANN_DATASET_NAME);
    DirDriver.HostPath(hostPrefix, DirDriver.TargetPath(mountPath, name))
  }

  ghost predicate BackendDeleted(backend: Backend, pool0: map<string, Dataset>, pool1: map<string, Dataset>,
                                 files0: map<string, DirDriver.DirEntry>, files1: map<string, DirDriver.DirEntry>,
                                 hostPrefix: string, pv: PersistentVolume, now: nat, ok: bool, warned: bool)
  {
    match backend
    case ZfsBackend => files1 == files0 && DatasetGone(pool0, pool1, pv, now, ok, warned)
    case DirBackend => pool1 == pool0 && DirectoryGone(files0, files1, hostPrefix, pv, now, ok, warned)
  }

  /** The record names something to delete. */
  predicate NamesBackend(backend: Backend, pv: PersistentVolume) {
    match backend
    case ZfsBackend => Lookup(pv.annotations, ANN_DATASET_NAME) != ""
    case DirBackend =>
      DirDriver.TargetPath(Lookup(pv.annotations, ANN_HOST_MOUNT_PATH), Lookup(pv.annotations, ANN_DATASET_NAME)) != ""
  }

  /** The guards of processPV */
  predicate ToBeDeleted(provisionerName: string, nodeName: string, pv: PersistentVolume) {
    && Lookup(pv.annotations, ANN_PROVISIONED_BY) == provisionerName
    && pv.phase == Released && pv.reclaimPolicy == ReclaimPolicy.Delete
    && IsPvOnThisNode(nodeName, pv)
  }

  /** What a live pass is to do */
  datatype PassPlan = PassPlan(backend: Backend, name: string, mountPath: string, wish: StateWish, dryRun: bool)

  /** None when the volume cannot be reconciled live at all */
  function PlanOfPass(drivers: map<string, Backend>, pvc: Claim, pv: PersistentVolume, got: Option<StorageClass>,
                      quantity: string -> Option<int>): Option<Result<PassPlan, ControllerError>>
  {
    var driver, name := Lookup(pv.annotations, ANN_SUBVOL_DRIVER), Lookup(pv.annotations, ANN_DATASET_NAME);
    if driver !in drivers || name == "" then None
    else
      match ResolveQuota(pvc, quantity)
      case Err(_) => Some(Err(BadQuota))
      case Ok(quota) =>
        Some(Ok(PassPlan(drivers[driver], name, Lookup(pv.annotations, ANN_HOST_MOUNT_PATH),
                         WishOf(pvc, ClassOf(pvc, got), quota), !Authorised(pvc, ClassOf(pvc, got)))))
  }

  /** What a pass has said, whether it used up the annotation, and whether it is to be retried */
  ghost predicate PassReported(events0: seq<Event>, events1: seq<Event>,
                               all0: map<(string, string), map<string, string>>, all1: map<(string, string), map<string, string>>,
                               pvc: Claim, pass: StatePass, retry: bool)
    requires pass.Ran?
  {
    && events1 == WithFailures(events0, pass.res) + OutcomeEvents(pass.res, ApplyRequested(pvc), pass.dryRun, pass.patched)
    && all1 == (if Consumes(pass.res, ApplyRequested(pvc), pass.dryRun) && pass.patched
                then ApplyRemoved(all0, pvc.ns, pvc.name) else all0)
    && (retry <==> Consumes(pass.res, ApplyRequested(pvc), pass.dryRun) && !pass.patched)
  }

  /** Nothing that the pass is to do would be refused. */
  ghost predicate CanDo(plan: PassPlan, pool: map<string, Dataset>, canon: Canon) {
    match plan.backend
    case ZfsBackend =>
      && plan.name in pool && pool[plan.name].quota < INT64_LIMIT
      && (plan.dryRun || QuotaMeant(plan.wish.quota) >= 0) && AllSettable(canon, Desired(plan.wish.props))
    case DirBackend => plan.wish.quota.None? && plan.wish.props == map[]
  }

  /** A pass that issues no command: it was a dry run, or found nothing to do. */
  predicate PassIdle(pass: StatePass)
    requires pass.Ran?
  {
    pass.dryRun || (pass.res.NoFailure() && pass.res.NothingReported())
  }

  ghost predicate QuotaStep(pool0: map<string, Dataset>, pool1: map<string, Dataset>, name: string, want: Option<int>,
                            dryRun: bool, r: Result<seq<QuotaChange>, ZfsError>)
  {
    if r.Err? then pool1 == pool0
    else
      && name in pool0 && r.value == QuotaChanges(pool0[name].quota, want) && (dryRun || QuotaMeant(want) >= 0)
      && pool1 == if dryRun then pool0 else pool0[name := pool0[name].(quota := QuotaMeant(want))]
  }

  ghost predicate OwnerStep(attrs0: map<Ino, Attr>, attrs1: map<Ino, Attr>, place: Option<Node>, wish: Wish,
                            recursive: bool,
                            dryRun: bool, r: Result<seq<OwnerChange>, OwnerModeError>)
  {
    && (place.Some? ==> place.value.Dir? && Covers(attrs0, Visits("", place.value)))
    && (r.Ok? ==> r.value == TreeChanges(attrs0, place, wish, recursive, dryRun))
    && if dryRun || place.None? then attrs1 == attrs0
       else if r.Ok? then attrs1 == TreeAfter(attrs0, place, wish, recursive)
       else PartlyFixed(attrs0, attrs1, Scope(place.value, recursive), wish)
  }

  ghost predicate PropsStep(pool0: map<string, Dataset>, pool1: map<string, Dataset>, canon: Canon, name: string,
                            props: map<string, string>, dryRun: bool, r: Result<seq<PropChange>, ZfsError>, order: seq<string>)
  {
    if name !in pool0 then r.Err? && pool1 == pool0
    else
      && Ended(Current(pool0[name]), Desired(props), r, order)
      && pool1 == if dryRun then pool0 else pool0[name := Commands(pool0[name], canon, Desired(props), order)]
  }

  /** Where a driver finds the files of a volume */
  function PlaceOf(backend: Backend, root: Option<Node>, hostPrefix: string, mountPath: string): Option<Node> {
    match backend
    case ZfsBackend => ZfsDriver.Place(root, hostPrefix, mountPath)
    case DirBackend => DirDriver.LivePlace(root, mountPath)
  }

  /** A pass over one volume of the host: made as it should be, and keeping away from every other dataset. */
  ghost predicate PassOver(pool0: map<string, Dataset>, attrs0: map<Ino, Attr>, pool1: map<string, Dataset>,
                           attrs1: map<Ino, Attr>, canon: Canon, name: string, place: Option<Node>, wish: StateWish,
                           dryRun: bool, res: Results, order: seq<string>)
  {
    && OwnerStep(attrs0, attrs1, place, wish.ownerMode, wish.recursive, dryRun, res.owner)
    && if name !in pool0 then pool1 == pool0 && res.quota.Err? && res.props.Err?
       else
         && name in pool1 && pool1 == pool0[name := pool1[name]]
         && PassMade(Volume(pool0[name], attrs0), Volume(pool1[name], attrs1), place, canon, wish, dryRun, res, order)
  }

  /** The directory driver refuses whatever quota and properties are asked for. */
  ghost predicate DirPassOver(attrs0: map<Ino, Attr>, attrs1: map<Ino, Attr>, place: Option<Node>, wish: StateWish,
                              dryRun: bool, res: Results)
  {
    && OwnerStep(attrs0, attrs1, place, wish.ownerMode, wish.recursive, dryRun, res.owner)
    && res.quota == (if wish.quota.None? then Ok([]) else Err(Unsupported))
    && res.props == (if wish.props == map[] then Ok([]) else Err(Unsupported))
  }

  ghost predicate VolumePassOver(backend: Backend, pool0: map<string, Dataset>, attrs0: map<Ino, Attr>,
                                 pool1: map<string, Dataset>, attrs1: map<Ino, Attr>, canon: Canon, name: string,
                                 place: Option<Node>, pass: StatePass)
    requires pass.Ran?
  {
    match backend
    case ZfsBackend => PassOver(pool0, attrs0, pool1, attrs1, canon, name, place, pass.wish, pass.dryRun, pass.res, pass.order)
    case DirBackend => pool1 == pool0 && DirPassOver(attrs0, attrs1, place, pass.wish, pass.dryRun, pass.res)
  }

  lemma PassAssembles(pool0: map<string, Dataset>, pool1: map<string, Dataset>, pool2: map<string, Dataset>,
                      attrs0: map<Ino, Attr>, attrs1: map<Ino, Attr>, canon: Canon, name: string, place: Option<Node>,
                      wish: StateWish, dryRun: bool, res: Results, order: seq<string>)
    requires QuotaStep(pool0, pool1, name, wish.quota, dryRun, res.quota)
    requires OwnerStep(attrs0, attrs1, place, wish.ownerMode, wish.recursive, dryRun, res.owner)
    requires PropsStep(pool1, pool2, canon, name, wish.props, dryRun, res.props, order)
    ensures PassOver(pool0, attrs0, pool2, attrs1, canon, name, place, wish, dryRun, res, order)
  {
    if name in pool0 {
      DatasetAssembles(pool0[name], pool1[name], pool2[name], canon, wish, dryRun, res, order);
      StepsStayApart(pool0, pool1, pool2, name, canon, wish, dryRun, res, order);
    } else {
      assert pool1 == pool0;
    }
  }

  /** Neither step touches another dataset. */
  lemma StepsStayApart(pool0: map<string, Dataset>, pool1: map<string, Dataset>, pool2: map<string, Dataset>, name: string,
                       canon: Canon, wish: StateWish, dryRun: bool, res: Results, order: seq<string>)
    requires name in pool0 && QuotaStep(pool0, pool1, name, wish.quota, dryRun, res.quota)
    requires PropsStep(pool1, pool2, canon, name, wish.props, dryRun, res.props, order)
    ensures name in pool2 && pool2 == pool0[name := pool2[name]]
  {
  }

  lemma DatasetAssembles(ds0: Dataset, ds1: Dataset, ds2: Dataset, canon: Canon, wish: StateWish, dryRun: bool,
                         res: Results, order: seq<string>)
    requires res.quota.Ok? ==> dryRun || QuotaMeant(wish.quota) >= 0
    requires ds1 == if dryRun || res.quota.Err? then ds0 else ds0.(quota := QuotaMeant(wish.quota))
    requires Ended(Current(ds1), Desired(wish.props), res.props, order)
    requires ds2 == if dryRun then ds1 else Commands(ds1, canon, Desired(wish.props), order)
    ensures Ended(Current(ds0), Desired(wish.props), res.props, order)
    ensures ds2 == DatasetAfter(ds0, canon, wish, dryRun, res.quota.Ok?, order)
  {
    QuotaAside(ds0, ds1.quota);
    CommandsAside(ds0, ds1.quota, canon, Desired(wish.props), order);
    CommandsKeep(ds0, canon, Desired(wish.props), order, "");
  }

  lemma {:induction false} CommandsAside(ds: Dataset, quota: nat, canon: Canon, want: map<string, string>,
                                         order: seq<string>)
    ensures Commands(ds.(quota := quota), canon, want, order) == Commands(ds, canon, want, order).(quota := quota)
  {
    if order != [] {
      CommandsAside(ds, quota, canon, want, order[..|order| - 1]);
    }
  }

  // ---- Whole sections ---------------------------------------------------------------------------

  /** A controller, and what does not change of the host it runs on */
  datatype Site = Site(
    nodeName: string, provisionerName: string, hostPrefix: string, drivers: map<string, Backend>,
    root: Option<Node>, canon: Canon, inherits: string -> map<string, Setting>)

  /** What a live pass can see change; `commands` counts those that have changed the dataset or its files. */
  datatype LiveView = LiveView(
    pool: map<string, Dataset>, attrs: map<Ino, Attr>, annotations: map<(string, string), map<string, string>>,
    events: seq<Event>, commands: nat)

  /** What provisioning can see change */
  datatype ClaimView = ClaimView(
    pool: map<string, Dataset>, attrs: map<Ino, Attr>, files: map<string, DirDriver.DirEntry>,
    pvs: map<string, PersistentVolume>, events: seq<Event>)

  /** A pass over the volume, and its report */
  ghost predicate PassDone(site: Site, was: LiveView, now: LiveView, pvc: Claim, plan: PassPlan, pass: StatePass, failed: bool) {
    && pass.Ran? && pass.wish == plan.wish && pass.dryRun == plan.dryRun
    && VolumePassOver(plan.backend, was.pool, was.attrs, now.pool, now.attrs, site.canon, plan.name,
                      PlaceOf(plan.backend, site.root, site.hostPrefix, plan.mountPath), pass)
    && PassReported(was.events, now.events, was.annotations, now.annotations, pvc, pass, failed)
    && (PassIdle(pass) ==> now.commands == was.commands)
  }

  /** The state section: skipped, or a pass as planned, and reported */
  ghost predicate PlannedPass(site: Site, was: LiveView, now: LiveView, pvc: Claim,
                              plan: Option<Result<PassPlan, ControllerError>>, pass: StatePass, failed: bool)
  {
    if plan.Some? && plan.value.Ok? then PassDone(site, was, now, pvc, plan.value.value, pass, failed)
    else
      && pass == Skipped && (failed <==> plan.Some?)
      && now == was.(events := was.events + Failure(failed, "resolve quota"))
  }

  /** Where no command, call or patch fails, a planned pass runs, and fails nowhere that it could be done. */
  ghost predicate PassSmooth(was: LiveView, pvc: Claim, plan: Option<Result<PassPlan, ControllerError>>, canon: Canon,
                             pass: StatePass, failed: bool)
  {
    plan.Some? && plan.value.Ok? ==>
      && pass.Ran? && (CanDo(plan.value.value, was.pool, canon) ==> pass.res.NoFailure())
      && ((pvc.ns, pvc.name) in was.annotations ==> !failed)
  }

  /** Nothing stands in the way of a record: a node and a mount path to name, and the record's own name free. */
  predicate CanRecord(nodeName: string, pvs: map<string, PersistentVolume>, pvc: Claim, sc: StorageClass, plan: Plan,
                      made: ZfsDriver.VolumeInfo)
  {
    && PvName(pvc.uid) !in pvs && NodeFor(nodeName, pvc, sc) != ""
    && (made.mountPath != "" || plan.opts.mountPath != "")
  }

  /** Where no command or call fails, what can be created is, and recorded if it can be. */
  ghost predicate ClaimSmooth(site: Site, was: ClaimView, pvc: Claim, sc: StorageClass, plan: Result<Plan, ControllerError>,
                              outcome: ClaimPass, made: Option<ZfsDriver.VolumeInfo>, warned: bool)
  {
    plan.Ok? && CanCreate(plan.value, was.pool, was.files, site.canon) ==>
      && made.Some? && !warned
      && (CanRecord(site.nodeName, was.pvs, pvc, sc, plan.value, made.value) ==> outcome.Recorded?)
  }

  /**
   * The claim section: the record is there already, the claim is refused, or its volume is created
   * and recorded as far as it goes.
   */
  ghost predicate ClaimAttempted(site: Site, was: ClaimView, now: ClaimView, pvc: Claim, sc: StorageClass,
                                 seen: Option<PersistentVolume>, seenAfter: Option<PersistentVolume>,
                                 rendered: Option<string>, quantity: string -> Option<int>,
                                 r: Result<(), ControllerError>, outcome: ClaimPass,
                                 made: Option<ZfsDriver.VolumeInfo>, warned: bool)
  {
    if BelongsTo(seen, pvc) then r.Ok? && outcome.AlreadyThere? && now == was
    else
      PlannedClaim(site, was, now, pvc, sc, Prepare(site.drivers, pvc, sc, rendered, quantity, site.hostPrefix), seenAfter,
                   r, outcome, made, warned)
  }

  ghost predicate PlannedClaim(site: Site, was: ClaimView, now: ClaimView, pvc: Claim, sc: StorageClass,
                               plan: Result<Plan, ControllerError>, seenAfter: Option<PersistentVolume>,
                               r: Result<(), ControllerError>, outcome: ClaimPass,
                               made: Option<ZfsDriver.VolumeInfo>, warned: bool)
  {
    if plan.Ok? then PlanCarriedOut(site, was, now, pvc, sc, plan.value, seenAfter, r, outcome, made, warned)
    else
      && r == Err(plan.error) && outcome == Refused(plan.error)
      && now == was.(events := was.events + [OutcomeEvent(pvc, outcome)])
  }

  ghost predicate PlanCarriedOut(site: Site, was: ClaimView, now: ClaimView, pvc: Claim, sc: StorageClass, plan: Plan,
                                 seenAfter: Option<PersistentVolume>, r: Result<(), ControllerError>, outcome: ClaimPass,
                                 made: Option<ZfsDriver.VolumeInfo>, warned: bool)
  {
    && (r.Ok? <==> outcome.Recorded? || outcome.RecordedByOther?)
    && Provisioned(plan, was.pool, now.pool, was.attrs, now.attrs, site.root, was.files, now.files,
                   site.canon, site.inherits, made, warned)
    && now.events == was.events + Adopted(plan.opts, made) + [OutcomeEvent(pvc, outcome)]
    && match made
       case None => outcome.NotCreated? && now.pvs == was.pvs
       case Some(info) =>
         Recording(was.pvs, now.pvs, pvc, sc, site.provisionerName, plan.driver, plan.opts, info,
                   NodeFor(site.nodeName, pvc, sc), seenAfter, outcome)
  }

  /** Whatever a live pass does, no dataset comes or goes. */
  lemma PassKeepsNames(site: Site, was: LiveView, now: LiveView, pvc: Claim,
                              plan: Option<Result<PassPlan, ControllerError>>, pass: StatePass, failed: bool)
    requires PlannedPass(site, was, now, pvc, plan, pass, failed)
    ensures forall name :: name in now.pool <==> name in was.pool
  {
  }

  /** Whatever provisioning does, every dataset there was stays as it was. */
  lemma ClaimKeepsDatasets(site: Site, was: ClaimView, now: ClaimView, pvc: Claim, sc: StorageClass,
                           seen: Option<PersistentVolume>, seenAfter: Option<PersistentVolume>,
                           rendered: Option<string>, quantity: string -> Option<int>,
                           r: Result<(), ControllerError>, outcome: ClaimPass,
                           made: Option<ZfsDriver.VolumeInfo>, warned: bool)
    requires ClaimAttempted(site, was, now, pvc, sc, seen, seenAfter, rendered, quantity, r, outcome, made, warned)
    ensures forall name :: name in was.pool ==> name in now.pool && now.pool[name] == was.pool[name]
  {
    if !BelongsTo(seen, pvc) {
      PlannedClaimKeepsDatasets(site, was, now, pvc, sc, Prepare(site.drivers, pvc, sc, rendered, quantity, site.hostPrefix),
                                seenAfter, r, outcome, made, warned);
    }
  }

  lemma PlannedClaimKeepsDatasets(site: Site, was: ClaimView, now: ClaimView, pvc: Claim, sc: StorageClass,
                                  plan: Result<Plan, ControllerError>, seenAfter: Option<PersistentVolume>,
                                  r: Result<(), ControllerError>, outcome: ClaimPass,
                                  made: Option<ZfsDriver.VolumeInfo>, warned: bool)
    requires PlannedClaim(site, was, now, pvc, sc, plan, seenAfter, r, outcome, made, warned)
    ensures forall name :: name in was.pool ==> name in now.pool && now.pool[name] == was.pool[name]
  {
  }
}
