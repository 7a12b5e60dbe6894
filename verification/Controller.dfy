/**
 * pkg/controller/controller.go as one worker runs it: provisioning a claim, deleting a volume,
 * and the live pass over a volume, each inside its guarded section. Answers of listers and of
 * the API that this model does not keep are parameters.
 */
module Controllers {
  import opened Wrappers
  import opened Decimal
  import opened Dataset
  import opened ZfsHosts
  import opened ZfsReconcile
  import opened OwnerMode
  import opened HostTrees
  import ZfsDriver
  import DirDriver
  import opened Claims
  import opened PvBuilder
  import opened VolumeState
  import opened ControllerSpec

  /** The part of the API server the controller writes to */
  class Cluster {
    /** No request fails, unless the API server has a reason to refuse it. */
    const reliable: bool
    var pvs: map<string, PersistentVolume>
    /** The annotations of the claims, by namespace and name */
    var annotations: map<(string, string), map<string, string>>

    constructor (reliable: bool, pvs: map<string, PersistentVolume>,
                 annotations: map<(string, string), map<string, string>>)
      ensures this.reliable == reliable && this.pvs == pvs && this.annotations == annotations
    {
      this.reliable, this.pvs, this.annotations := reliable, pvs, annotations;
    }

    method CreatePv(pv: PersistentVolume) returns (reply: ApiReply)
      modifies this`pvs
      ensures reply.Done? ==> pv.name !in old(pvs) && pvs == old(pvs)[pv.name := pv]
      ensures reply.Conflict? ==> pv.name in old(pvs)
      ensures !reply.Done? ==> pvs == old(pvs)
      ensures !reply.Missing? && (reliable ==> !reply.Failed?)
    {
      var fails: bool := *;
      if fails && !reliable {
        return Failed;
      }
      if pv.name in pvs {
        return Conflict;
      }
      pvs := pvs[pv.name := pv];
      return Done;
    }

    method DeletePv(name: string) returns (reply: ApiReply)
      modifies this`pvs
      ensures reply.Done? ==> name in old(pvs) && pvs == old(pvs) - {name}
      ensures reply.Missing? ==> name !in old(pvs)
      ensures !reply.Done? ==> pvs == old(pvs)
      ensures !reply.Conflict? && (reliable ==> !reply.Failed?)
    {
      var fails: bool := *;
      if fails && !reliable {
        return Failed;
      }
      if name !in pvs {
        return Missing;
      }
      pvs := pvs - {name};
      return Done;
    }

    /** The patch that sets the apply annotation to null */
    method RemoveApply(ns: string, name: string) returns (ok: bool)
      modifies this`annotations
      ensures annotations == if ok then ApplyRemoved(old(annotations), ns, name) else old(annotations)
      ensures reliable && (ns, name) in old(annotations) ==> ok
    {
      ok := *;
      ok := (ok || reliable) && (ns, name) in annotations;
      if ok {
        annotations := annotations[(ns, name) := annotations[(ns, name)] - {ANN_APPLY}];
      }
    }
  }

  class Controller {
    const nodeName: string
    const provisionerName: string
    const hostPrefix: string
    const drivers: map<string, Backend>
    var inProgress: set<string>
    var events: seq<Event>

    constructor (nodeName: string, provisionerName: string, hostPrefix: string, drivers: map<string, Backend>)
      ensures this.nodeName == nodeName && this.provisionerName == provisionerName
      ensures this.hostPrefix == hostPrefix && this.drivers == drivers && inProgress == {} && events == []
    {
      this.nodeName, this.provisionerName, this.hostPrefix, this.drivers := nodeName, provisionerName, hostPrefix, drivers;
      inProgress, events := {}, [];
    }

    // ---- The live pass --------------------------------------------------------------------

    method CallQuota(zfs: ZfsHost, name: string, want: Option<int>,
                     dryRun: bool) returns (r: Result<seq<QuotaChange>, ZfsError>)
      requires zfs.Valid()
      modifies this`events, zfs`pool, zfs`mutations
      ensures zfs.Valid() && QuotaStep(old(zfs.pool), zfs.pool, name, want, dryRun, r)
      ensures events == old(events) + Failure(r.Err?, "quota")
      ensures zfs.reliable && name in old(zfs.pool) && old(zfs.pool)[name].quota < INT64_LIMIT ==>
                (dryRun || QuotaMeant(want) >= 0 ==> r.Ok?)
      ensures zfs.mutations == old(zfs.mutations) + if r.Ok? && !dryRun then |r.value| else 0
    {
      r := ReconcileQuota(zfs, name, want, dryRun);
      if r.Err? {
        events := events + [VolumeUpdateFailed("quota")];
      }
    }

    method CallOwnerMode(tree: HostTree, backend: Backend, mountPath: string, wish: Wish, recursive: bool, dryRun: bool)
      returns (r: Result<seq<OwnerChange>, OwnerModeError>)
      requires tree.Valid()
      modifies this`events, tree
      ensures tree.Valid()
      ensures OwnerStep(old(tree.attrs), tree.attrs, PlaceOf(backend, tree.root, hostPrefix, mountPath),
                        wish, recursive, dryRun, r)
      ensures events == old(events) + Failure(r.Err?, "owner/mode")
      ensures tree.reliable ==> r.Ok?
      ensures dryRun || (r.Ok? && r.value == []) ==> tree.mutations == old(tree.mutations)
    {
      match backend {
        case ZfsBackend => r := ZfsDriver.ReconcileOwnerMode(tree, hostPrefix, mountPath, wish, recursive, dryRun);
        case DirBackend => r := DirDriver.ReconcileOwnerMode(tree, mountPath, wish, recursive, dryRun);
      }
      if r.Err? {
        events := events + [VolumeUpdateFailed("owner/mode")];
      }
    }

    method CallProperties(zfs: ZfsHost, name: string, props: map<string, string>, dryRun: bool)
      returns (r: Result<seq<PropChange>, ZfsError>, ghost order: seq<string>)
      requires zfs.Valid()
      modifies this`events, zfs`pool, zfs`mutations
      ensures zfs.Valid() && PropsStep(old(zfs.pool), zfs.pool, zfs.canon, name, props, dryRun, r, order)
      ensures events == old(events) + Failure(r.Err?, "properties")
      ensures zfs.reliable && name in old(zfs.pool) && AllSettable(zfs.canon, Desired(props)) ==> r.Ok?
      ensures dryRun || (r.Ok? && r.value == []) ==> zfs.mutations == old(zfs.mutations)
    {
      r, order := ReconcileProperties(zfs, name, props, dryRun);
      if r.Err? {
        events := events + [VolumeUpdateFailed("properties")];
      }
      if name in old(zfs.pool) {
        SummaryOf(Current(old(zfs.pool)[name]), Desired(props), order);
      }
    }

    /** The three driver calls of a pass; a failure is reported and the next call made all the same. */
    method RunPass(zfs: ZfsHost, tree: HostTree, name: string, mountPath: string, wish: StateWish, dryRun: bool)
      returns (res: Results, ghost order: seq<string>)
      requires zfs.Valid() && tree.Valid()
      modifies this`events, zfs`pool, zfs`mutations, tree
      ensures zfs.Valid() && tree.Valid()
      ensures events == WithFailures(old(events), res)
      ensures PassOver(old(zfs.pool), old(tree.attrs), zfs.pool, tree.attrs, zfs.canon, name,
                       PlaceOf(ZfsBackend, tree.root, hostPrefix, mountPath), wish, dryRun, res, order)
      ensures dryRun || (res.NoFailure() && res.NothingReported()) ==>
                zfs.mutations == old(zfs.mutations) && tree.mutations == old(tree.mutations)
      ensures zfs.reliable && tree.reliable ==>
                (CanDo(PassPlan(ZfsBackend, name, mountPath, wish, dryRun), old(zfs.pool), zfs.canon) ==> res.NoFailure())
    {
      var quota := CallQuota(zfs, name, wish.quota, dryRun);
      ghost var between := zfs.pool;
      var owner := CallOwnerMode(tree, ZfsBackend, mountPath, wish.ownerMode, wish.recursive, dryRun);
      var props;
      props, order := CallProperties(zfs, name, wish.props, dryRun);
      res := Results(quota, owner, props);
      PassAssembles(old(zfs.pool), between, zfs.pool, old(tree.attrs), tree.attrs, zfs.canon, name,
                    PlaceOf(ZfsBackend, tree.root, hostPrefix, mountPath), wish, dryRun, res, order);
    }

    /** The same calls to the directory driver, which has neither quotas nor properties */
    method RunDirPass(tree: HostTree, mountPath: string, wish: StateWish, dryRun: bool) returns (res: Results)
      requires tree.Valid()
      modifies this`events, tree
      ensures tree.Valid()
      ensures events == WithFailures(old(events), res)
      ensures DirPassOver(old(tree.attrs), tree.attrs, PlaceOf(DirBackend, tree.root, hostPrefix, mountPath), wish, dryRun, res)
      ensures dryRun || (res.NoFailure() && res.NothingReported()) ==> tree.mutations == old(tree.mutations)
      ensures tree.reliable ==> res.owner.Ok?
    {
      var quota := if wish.quota.None? then Ok([]) else Err(Unsupported);
      if quota.Err? {
        events := events + [VolumeUpdateFailed("quota")];
      }
      var owner := CallOwnerMode(tree, DirBackend, mountPath, wish.ownerMode, wish.recursive, dryRun);
      var props := if wish.props == map[] then Ok([]) else Err(Unsupported);
      if props.Err? {
        events := events + [VolumeUpdateFailed("properties")];
      }
      res := Results(quota, owner, props);
    }

    /** The end of a pass: what it has to say, and the apply annotation it uses up */
    method Report(cluster: Cluster, pvc: Claim, res: Results, applyRequested: bool, dryRun: bool)
      returns (r: Result<(), ControllerError>, patched: bool)
      modifies this`events, cluster`annotations
      ensures events == old(events) + OutcomeEvents(res, applyRequested, dryRun, patched)
      ensures cluster.annotations ==
                if Consumes(res, applyRequested, dryRun) && patched then ApplyRemoved(old(cluster.annotations), pvc.ns, pvc.name)
                else old(cluster.annotations)
      ensures r.Err? <==> Consumes(res, applyRequested, dryRun) && !patched
      ensures cluster.reliable && (pvc.ns, pvc.name) in old(cluster.annotations) ==>
                (Consumes(res, applyRequested, dryRun) ==> patched)
    {
      var changes := Changes(res);
      patched := false;
      if changes == [] {
        events := events + [VolumeUpToDate];
        if applyRequested {
          patched := cluster.RemoveApply(pvc.ns, pvc.name);
          if !patched {
            events := events + [ApplyAnnotationCleanupFailed];
            return Err(ApiFailed), false;
          }
        }
        return Ok(()), patched;
      }
      if dryRun {
        events := events + [VolumeDryRun(changes)];
        return Ok(()), false;
      }
      events := events + [VolumeUpdated(changes)];
      if applyRequested {
        patched := cluster.RemoveApply(pvc.ns, pvc.name);
        if !patched {
          events := events + [ApplyAnnotationCleanupFailed];
          return Err(ApiFailed), false;
        }
      }
      return Ok(()), patched;
    }

    /** What a pass is to do, or why there is none */
    method PreparePass(pvc: Claim, pv: PersistentVolume, got: Option<StorageClass>, quantity: string -> Option<int>)
      returns (plan: Option<Result<PassPlan, ControllerError>>)
      ensures plan == PlanOfPass(drivers, pvc, pv, got, quantity)
    {
      var driver := Lookup(pv.annotations, ANN_SUBVOL_DRIVER);
      if driver !in drivers {
        return None;
      }
      var name := Lookup(pv.annotations, ANN_DATASET_NAME);
      if name == "" {
        return None;
      }
      var mountPath := Lookup(pv.annotations, ANN_HOST_MOUNT_PATH);
      var sc := ClassOf(pvc, got);
      var applyRequested := Lookup(pvc.annotations, ANN_APPLY) == "true";
      var dryRun := Lookup(pvc.annotations, ANN_DRY_RUN) == "true";
      var autoApply := sc.Some? && Lookup(sc.value.parameters, PARAM_AUTO_APPLY) == "true";
      var apply := (autoApply || applyRequested) && !dryRun;
      var quota := ResolveQuota(pvc, quantity);
      if quota.Err? {
        return Some(Err(BadQuota));
      }
      return Some(Ok(PassPlan(drivers[driver], name, mountPath, WishOf(pvc, sc, quota.value), !apply)));
    }

    /** A pass by the driver of the volume */
    method MakePass(zfs: ZfsHost, tree: HostTree, plan: PassPlan) returns (res: Results, ghost order: seq<string>)
      requires zfs.Valid() && tree.Valid()
      modifies this`events, zfs`pool, zfs`mutations, tree
      ensures zfs.Valid() && tree.Valid()
      ensures events == WithFailures(old(events), res)
      ensures VolumePassOver(plan.backend, old(zfs.pool), old(tree.attrs), zfs.pool, tree.attrs, zfs.canon, plan.name,
                             PlaceOf(plan.backend, tree.root, hostPrefix, plan.mountPath),
                             Ran(plan.wish, plan.dryRun, res, order, false))
      ensures PassIdle(Ran(plan.wish, plan.dryRun, res, order, false)) ==>
                zfs.mutations + tree.mutations == old(zfs.mutations + tree.mutations)
      ensures zfs.reliable && tree.reliable && CanDo(plan, old(zfs.pool), zfs.canon) ==> res.NoFailure()
    {
      match plan.backend {
        case ZfsBackend =>
          res, order := RunPass(zfs, tree, plan.name, plan.mountPath, plan.wish, plan.dryRun);
        case DirBackend =>
          res := RunDirPass(tree, plan.mountPath, plan.wish, plan.dryRun);
          order := [];
      }
    }

    /** A pass, and what it has to say about itself */
    method PassAndReport(zfs: ZfsHost, tree: HostTree, cluster: Cluster, pvc: Claim, plan: PassPlan)
      returns (r: Result<(), ControllerError>, ghost pass: StatePass)
      requires zfs.Valid() && tree.Valid()
      modifies this`events, zfs`pool, zfs`mutations, tree, cluster`annotations
      ensures zfs.Valid() && tree.Valid()
      ensures PassDone(Site(nodeName, provisionerName, hostPrefix, drivers, tree.root, zfs.canon, zfs.inherits),
                       old(LiveView(zfs.pool, tree.attrs, cluster.annotations, events, zfs.mutations + tree.mutations)),
                       LiveView(zfs.pool, tree.attrs, cluster.annotations, events, zfs.mutations + tree.mutations),
                       pvc, plan, pass, r.Err?)
      ensures zfs.reliable && tree.reliable && CanDo(plan, old(zfs.pool), zfs.canon) ==> pass.res.NoFailure()
      ensures cluster.reliable && (pvc.ns, pvc.name) in old(cluster.annotations) ==> r.Ok?
    {
      var res;
      ghost var order;
      res, order := MakePass(zfs, tree, plan);
      var patched;
      r, patched := Report(cluster, pvc, res, Lookup(pvc.annotations, ANN_APPLY) == "true", plan.dryRun);
      pass := Ran(plan.wish, plan.dryRun, res, order, patched);
    }

    /** The state section once it is known what to do in it */
    method StateSection(zfs: ZfsHost, tree: HostTree, cluster: Cluster, pvc: Claim,
                        plan: Option<Result<PassPlan, ControllerError>>)
      returns (r: Result<(), ControllerError>, ghost pass: StatePass)
      requires zfs.Valid() && tree.Valid()
      modifies this`events, zfs`pool, zfs`mutations, tree, cluster`annotations
      ensures zfs.Valid() && tree.Valid()
      ensures PlannedPass(Site(nodeName, provisionerName, hostPrefix, drivers, tree.root, zfs.canon, zfs.inherits),
                          old(LiveView(zfs.pool, tree.attrs, cluster.annotations, events, zfs.mutations + tree.mutations)),
                          LiveView(zfs.pool, tree.attrs, cluster.annotations, events, zfs.mutations + tree.mutations),
                          pvc, plan, pass, r.Err?)
      ensures zfs.reliable && tree.reliable && cluster.reliable ==>
                PassSmooth(old(LiveView(zfs.pool, tree.attrs, cluster.annotations, events, zfs.mutations + tree.mutations)),
                           pvc, plan, zfs.canon, pass, r.Err?)
    {
      if plan.None? {
        return Ok(()), Skipped;
      }
      if plan.value.Err? {
        events := events + [VolumeUpdateFailed("resolve quota")];
        return Err(plan.value.error), Skipped;
      }
      r, pass := PassAndReport(zfs, tree, cluster, pvc, plan.value.value);
    }

    /** The state section of a claim bound to a volume */
    method StateSectionOf(zfs: ZfsHost, tree: HostTree, cluster: Cluster, pvc: Claim, pv: PersistentVolume,
                          got: Option<StorageClass>, quantity: string -> Option<int>)
      returns (r: Result<(), ControllerError>, ghost pass: StatePass)
      requires zfs.Valid() && tree.Valid()
      modifies this`events, zfs`pool, zfs`mutations, tree, cluster`annotations
      ensures zfs.Valid() && tree.Valid()
      ensures PlannedPass(Site(nodeName, provisionerName, hostPrefix, drivers, tree.root, zfs.canon, zfs.inherits),
                          old(LiveView(zfs.pool, tree.attrs, cluster.annotations, events, zfs.mutations + tree.mutations)),
                          LiveView(zfs.pool, tree.attrs, cluster.annotations, events, zfs.mutations + tree.mutations),
                          pvc, PlanOfPass(drivers, pvc, pv, got, quantity), pass, r.Err?)
      ensures zfs.reliable && tree.reliable && cluster.reliable ==>
                PassSmooth(old(LiveView(zfs.pool, tree.attrs, cluster.annotations, events, zfs.mutations + tree.mutations)),
                           pvc, PlanOfPass(drivers, pvc, pv, got, quantity), zfs.canon, pass, r.Err?)
    {
      var plan := PreparePass(pvc, pv, got, quantity);
      r, pass := StateSection(zfs, tree, cluster, pvc, plan);
    }

    /** reconcileVolumeState: the state section, guarded */
    method ReconcileVolumeState(zfs: ZfsHost, tree: HostTree, cluster: Cluster, pvc: Claim, pv: PersistentVolume,
                                got: Option<StorageClass>, quantity: string -> Option<int>)
      returns (r: Result<(), ControllerError>, ghost pass: StatePass)
      requires zfs.Valid() && tree.Valid()
      modifies this`inProgress, this`events, zfs`pool, zfs`mutations, tree, cluster`annotations
      ensures zfs.Valid() && tree.Valid() && inProgress == old(inProgress)
      ensures StateKey(pvc) in inProgress ==>
                && r.Ok? && pass.Skipped?
                && LiveView(zfs.pool, tree.attrs, cluster.annotations, events, zfs.mutations + tree.mutations)
                   == old(LiveView(zfs.pool, tree.attrs, cluster.annotations, events, zfs.mutations + tree.mutations))
      ensures StateKey(pvc) !in inProgress ==>
                PlannedPass(Site(nodeName, provisionerName, hostPrefix, drivers, tree.root, zfs.canon, zfs.inherits),
                            old(LiveView(zfs.pool, tree.attrs, cluster.annotations, events, zfs.mutations + tree.mutations)),
                            LiveView(zfs.pool, tree.attrs, cluster.annotations, events, zfs.mutations + tree.mutations),
                            pvc, PlanOfPass(drivers, pvc, pv, got, quantity), pass, r.Err?)
      ensures StateKey(pvc) !in inProgress && zfs.reliable && tree.reliable && cluster.reliable ==>
                PassSmooth(old(LiveView(zfs.pool, tree.attrs, cluster.annotations, events, zfs.mutations + tree.mutations)),
                           pvc, PlanOfPass(drivers, pvc, pv, got, quantity), zfs.canon, pass, r.Err?)
    {
      var key := StateKey(pvc);
      if key in inProgress {
        return Ok(()), Skipped;
      }
      inProgress := inProgress + {key};
      r, pass := StateSectionOf(zfs, tree, cluster, pvc, pv, got, quantity);
      inProgress := inProgress - {key};
    }

    // ---- Deletion -------------------------------------------------------------------------

    /** The driver's part of a deletion */
    method DeleteBackend(zfs: ZfsHost, fs: DirDriver.HostFs, pv: PersistentVolume, now: nat)
      returns (ok: bool, warned: bool)
      requires zfs.Valid() && Lookup(pv.annotations, ANN_SUBVOL_DRIVER) in drivers
      modifies zfs`pool, zfs`mutations, fs
      ensures zfs.Valid()
      ensures match drivers[Lookup(pv.annotations, ANN_SUBVOL_DRIVER)]
              case ZfsBackend => fs.files == old(fs.files) && DatasetGone(old(zfs.pool), zfs.pool, pv, now, ok, warned)
              case DirBackend =>
                zfs.pool == old(zfs.pool) && DirectoryGone(old(fs.files), fs.files, hostPrefix, pv, now, ok, warned)
      ensures zfs.reliable && fs.reliable && NamesBackend(drivers[Lookup(pv.annotations, ANN_SUBVOL_DRIVER)], pv) ==> ok
    {
      var name := Lookup(pv.annotations, ANN_DATASET_NAME);
      var mountPath := Lookup(pv.annotations, ANN_HOST_MOUNT_PATH);
      var snapshotBeforeDelete := Lookup(pv.annotations, ANN_SNAPSHOT_BEFORE_DELETE) == "true";
      match drivers[Lookup(pv.annotations, ANN_SUBVOL_DRIVER)]
      case ZfsBackend =>
        var r, w := ZfsDriver.Delete(zfs, name, snapshotBeforeDelete, now);
        ok, warned := r.Ok?, w;
      case DirBackend =>
        var r, w := DirDriver.Delete(fs, mountPath, name, hostPrefix, snapshotBeforeDelete, now);
        ok, warned := r.Ok?, w;
    }

    /**
     * reconcileVolumeDelete. The record goes only after the backend is gone; a failure on the way
     * leaves the record for the next attempt, and an attempt that finds the backend gone completes
     * as soon as the API server answers.
     */
    method ReconcileVolumeDelete(zfs: ZfsHost, fs: DirDriver.HostFs, cluster: Cluster, pv: PersistentVolume, now: nat)
      returns (r: Result<(), ControllerError>, ran: bool, warned: bool)
      requires zfs.Valid()
      modifies this`inProgress, this`events, zfs`pool, zfs`mutations, fs, cluster`pvs
      ensures zfs.Valid() && inProgress == old(inProgress)
      ensures ran <==> DeleteKey(pv) !in old(inProgress) && Lookup(pv.annotations, ANN_SUBVOL_DRIVER) in drivers
      ensures !ran ==> zfs.pool == old(zfs.pool) && fs.files == old(fs.files) && cluster.pvs == old(cluster.pvs)
      ensures ran ==> BackendDeleted(drivers[Lookup(pv.annotations, ANN_SUBVOL_DRIVER)], old(zfs.pool), zfs.pool,
                                     old(fs.files), fs.files, hostPrefix, pv, now, r != Err(BackendFailed), warned)
      ensures if ran && r.Ok? then cluster.pvs == old(cluster.pvs) - {pv.name} else cluster.pvs == old(cluster.pvs)
      ensures r.Err? ==> r.error in (if ran then {BackendFailed, ApiFailed} else {NoSuchDriver})
      ensures !ran ==> (r.Ok? <==> DeleteKey(pv) in old(inProgress))
      ensures events == old(events) + DeleteEvents(r)
      ensures ran && NamesBackend(drivers[Lookup(pv.annotations, ANN_SUBVOL_DRIVER)], pv) ==>
                (zfs.reliable && fs.reliable && cluster.reliable ==> r.Ok?)
    {
      r, ran, warned := Ok(()), false, false;
      var key := DeleteKey(pv);
      if key in inProgress {
        return;
      }
      inProgress := inProgress + {key};
      if Lookup(pv.annotations, ANN_SUBVOL_DRIVER) !in drivers {
        r := Err(NoSuchDriver);
      } else {
        ran := true;
        var ok;
        ok, warned := DeleteBackend(zfs, fs, pv, now);
        if !ok {
          events := events + [DeletingFailed];
          r := Err(BackendFailed);
        } else {
          var reply := cluster.DeletePv(pv.name);
          if reply.Failed? {
            events := events + [PvDeleteFailed];
            r := Err(ApiFailed);
          }
        }
      }
      inProgress := inProgress - {key};
    }

    /** processPV: released volumes with the Delete policy that this provisioner made, on their own node */
    method ProcessPV(zfs: ZfsHost, fs: DirDriver.HostFs, cluster: Cluster, pv: PersistentVolume, now: nat)
      returns (r: Result<(), ControllerError>, ran: bool, warned: bool)
      requires zfs.Valid()
      modifies this`inProgress, this`events, zfs`pool, zfs`mutations, fs, cluster`pvs
      ensures zfs.Valid() && inProgress == old(inProgress)
      ensures ran <==> && ToBeDeleted(provisionerName, nodeName, pv) && DeleteKey(pv) !in old(inProgress)
                       && Lookup(pv.annotations, ANN_SUBVOL_DRIVER) in drivers
      ensures !ran ==> zfs.pool == old(zfs.pool) && fs.files == old(fs.files) && cluster.pvs == old(cluster.pvs)
      ensures !ToBeDeleted(provisionerName, nodeName, pv) ==> r.Ok? && events == old(events)
      ensures ToBeDeleted(provisionerName, nodeName, pv) && !ran ==> (r.Ok? <==> DeleteKey(pv) in old(inProgress))
      ensures ToBeDeleted(provisionerName, nodeName, pv) ==> events == old(events) + DeleteEvents(r)
      ensures ran ==> BackendDeleted(drivers[Lookup(pv.annotations, ANN_SUBVOL_DRIVER)], old(zfs.pool), zfs.pool,
                                     old(fs.files), fs.files, hostPrefix, pv, now, r != Err(BackendFailed), warned)
      ensures if ran && r.Ok? then cluster.pvs == old(cluster.pvs) - {pv.name} else cluster.pvs == old(cluster.pvs)
      ensures ran && NamesBackend(drivers[Lookup(pv.annotations, ANN_SUBVOL_DRIVER)], pv) ==>
                (zfs.reliable && fs.reliable && cluster.reliable ==> r.Ok?)
    {
      r, ran, warned := Ok(()), false, false;
      if Lookup(pv.annotations, ANN_PROVISIONED_BY) != provisionerName {
        return;
      }
      if pv.phase != Released {
        return;
      }
      if pv.reclaimPolicy != ReclaimPolicy.Delete {
        return;
      }
      if !IsPvOnThisNode(nodeName, pv) {
        return;
      }
      r, ran, warned := ReconcileVolumeDelete(zfs, fs, cluster, pv, now);
    }

    // ---- Provisioning -----------------------------------------------------------------------

    /** The driver's part of provisioning */
    method CreateBackend(zfs: ZfsHost, tree: HostTree, fs: DirDriver.HostFs, plan: Plan)
      returns (r: Option<ZfsDriver.VolumeInfo>, warned: bool)
      requires zfs.Valid() && tree.Valid()
      modifies zfs`pool, zfs`mutations, tree, fs
      ensures zfs.Valid() && tree.Valid()
      ensures Provisioned(plan, old(zfs.pool), zfs.pool, old(tree.attrs), tree.attrs, tree.root, old(fs.files), fs.files,
                          zfs.canon, zfs.inherits, r, warned)
      ensures zfs.reliable && tree.reliable && fs.reliable && CanCreate(plan, old(zfs.pool), old(fs.files), zfs.canon) ==>
                r.Some? && !warned
    {
      var opts := plan.opts;
      match plan.backend
      case ZfsBackend =>
        var made, w := ZfsDriver.Create(zfs, tree, opts);
        r, warned := if made.Ok? then Some(made.value) else None, w;
      case DirBackend =>
        var made, w := DirDriver.Create(fs, DirDriver.DirOptions(opts.adoptExisting, opts.name, opts.mountPath, opts.hostPrefix,
                                                                 opts.quotaBytes, opts.owner, opts.mode));
        r, warned := if made.Ok? then Some(ZfsDriver.VolumeInfo(opts.name, made.value)) else None, w;
    }

    /** The same, and what the user is told about it */
    method CreateVolume(zfs: ZfsHost, tree: HostTree, fs: DirDriver.HostFs, plan: Plan)
      returns (r: Option<ZfsDriver.VolumeInfo>, warned: bool)
      requires zfs.Valid() && tree.Valid()
      modifies this`events, zfs`pool, zfs`mutations, tree, fs
      ensures zfs.Valid() && tree.Valid()
      ensures Provisioned(plan, old(zfs.pool), zfs.pool, old(tree.attrs), tree.attrs, tree.root, old(fs.files), fs.files,
                          zfs.canon, zfs.inherits, r, warned)
      ensures zfs.reliable && tree.reliable && fs.reliable && CanCreate(plan, old(zfs.pool), old(fs.files), zfs.canon) ==>
                r.Some? && !warned
      ensures events == old(events) + if r.None? then [ProvisioningFailed] else Adopted(plan.opts, r)
    {
      r, warned := CreateBackend(zfs, tree, fs, plan);
      if r.None? {
        events := events + [ProvisioningFailed];
      } else if plan.opts.adoptExisting {
        events := events + [VolumeAdopted(r.value.name)];
      }
    }

    /** The record of a volume that exists, put into the API */
    method Record(cluster: Cluster, pvc: Claim, sc: StorageClass, driver: string, opts: ZfsDriver.CreateOptions,
                  info: ZfsDriver.VolumeInfo, seenAfter: Option<PersistentVolume>)
      returns (r: Result<(), ControllerError>, outcome: ClaimPass)
      modifies this`events, cluster`pvs
      ensures outcome.Recorded? || outcome.RecordedByOther? || outcome.NotBuilt? || outcome.NotRecorded?
      ensures r.Ok? <==> outcome.Recorded? || outcome.RecordedByOther?
      ensures Recording(old(cluster.pvs), cluster.pvs, pvc, sc, provisionerName, driver, opts, info,
                        NodeFor(nodeName, pvc, sc), seenAfter, outcome)
      ensures events == old(events) + [OutcomeEvent(pvc, outcome)]
      ensures cluster.reliable && CanRecord(nodeName, old(cluster.pvs), pvc, sc, Plan(driver, ZfsBackend, opts), info) ==>
                outcome.Recorded?
    {
      var mountPath := if info.mountPath != "" then info.mountPath else opts.mountPath;
      var built := BuildPersistentVolume(pvc, sc, provisionerName, driver, info.name, mountPath, NodeFor(nodeName, pvc, sc));
      if built.Err? {
        events := events + [PvBuildFailed];
        return Err(ControllerError.NotBuilt(built.error)), ClaimPass.NotBuilt(built.error);
      }
      var reply := cluster.CreatePv(built.value);
      outcome := Recorded(built.value);
      if !reply.Done? {
        if reply.Conflict? && BelongsTo(seenAfter, pvc) {
          outcome := RecordedByOther;
        } else {
          events := events + [PvCreateFailed];
          return Err(ApiFailed), NotRecorded;
        }
      }
      events := events + [ProvisioningSucceeded(built.value.name)];
      return Ok(()), outcome;
    }

    /** What is to be created for a claim, or why nothing is */
    method PrepareClaim(pvc: Claim, sc: StorageClass, rendered: Option<string>, quantity: string -> Option<int>)
      returns (plan: Result<Plan, ControllerError>)
      ensures plan == Prepare(drivers, pvc, sc, rendered, quantity, hostPrefix)
    {
      var driver := Lookup(sc.parameters, PARAM_DRIVER);
      if driver == "" {
        driver := "zfs";
      }
      if driver !in drivers {
        return Err(NoSuchDriver);
      }
      if pvc.block {
        return Err(BlockVolume);
      }
      var relPath := RelPath(pvc, rendered);
      if relPath.None? {
        return Err(BadTemplate);
      }
      var quota := ResolveQuota(pvc, quantity);
      if quota.Err? {
        return Err(BadQuota);
      }
      return Ok(Plan(driver, drivers[driver], ProvisionOptions(pvc, sc, relPath.value, quota.value, hostPrefix)));
    }

    /** The volume of a claim, and its record */
    method CreateAndRecord(zfs: ZfsHost, tree: HostTree, fs: DirDriver.HostFs, cluster: Cluster, pvc: Claim,
                           sc: StorageClass,
                           plan: Plan, seenAfter: Option<PersistentVolume>)
      returns (r: Result<(), ControllerError>, outcome: ClaimPass, ghost made: Option<ZfsDriver.VolumeInfo>, ghost warned: bool)
      requires zfs.Valid() && tree.Valid()
      modifies this`events, zfs`pool, zfs`mutations, tree, fs, cluster`pvs
      ensures zfs.Valid() && tree.Valid()
      ensures PlanCarriedOut(Site(nodeName, provisionerName, hostPrefix, drivers, tree.root, zfs.canon, zfs.inherits),
                             old(ClaimView(zfs.pool, tree.attrs, fs.files, cluster.pvs, events)),
                             ClaimView(zfs.pool, tree.attrs, fs.files, cluster.pvs, events),
                             pvc, sc, plan, seenAfter, r, outcome, made, warned)
      ensures zfs.reliable && tree.reliable && fs.reliable && CanCreate(plan, old(zfs.pool), old(fs.files), zfs.canon) ==>
                made.Some? && !warned
      ensures made.Some? && cluster.reliable && CanRecord(nodeName, old(cluster.pvs), pvc, sc, plan, made.value) ==>
                outcome.Recorded?
    {
      var info, w := CreateVolume(zfs, tree, fs, plan);
      made, warned := info, w;
      if info.None? {
        return Err(BackendFailed), NotCreated, made, warned;
      }
      r, outcome := Record(cluster, pvc, sc, plan.driver, plan.opts, info.value, seenAfter);
    }

    /** The claim section once it is known what to create */
    method ClaimSection(zfs: ZfsHost, tree: HostTree, fs: DirDriver.HostFs, cluster: Cluster, pvc: Claim,
                        sc: StorageClass, plan: Result<Plan, ControllerError>, seenAfter: Option<PersistentVolume>)
      returns (r: Result<(), ControllerError>, outcome: ClaimPass, ghost made: Option<ZfsDriver.VolumeInfo>, ghost warned: bool)
      requires zfs.Valid() && tree.Valid()
      modifies this`events, zfs`pool, zfs`mutations, tree, fs, cluster`pvs
      ensures zfs.Valid() && tree.Valid()
      ensures PlannedClaim(Site(nodeName, provisionerName, hostPrefix, drivers, tree.root, zfs.canon, zfs.inherits),
                           old(ClaimView(zfs.pool, tree.attrs, fs.files, cluster.pvs, events)),
                           ClaimView(zfs.pool, tree.attrs, fs.files, cluster.pvs, events),
                           pvc, sc, plan, seenAfter, r, outcome, made, warned)
      ensures zfs.reliable && tree.reliable && fs.reliable && cluster.reliable ==>
                ClaimSmooth(Site(nodeName, provisionerName, hostPrefix, drivers, tree.root, zfs.canon, zfs.inherits),
                            old(ClaimView(zfs.pool, tree.attrs, fs.files, cluster.pvs, events)),
                            pvc, sc, plan, outcome, made, warned)
    {
      if plan.Err? {
        match plan.error {
          case NoSuchDriver => events := events + [DriverNotFound];
          case BlockVolume => events := events + [VolumeModeUnsupported];
          case BadTemplate => events := events + [TemplateError];
          case _ => events := events + [QuotaResolutionFailed];
        }
        return Err(plan.error), Refused(plan.error), None, false;
      }
      r, outcome, made, warned := CreateAndRecord(zfs, tree, fs, cluster, pvc, sc, plan.value, seenAfter);
    }

    /**
     * reconcileClaim: the claim section, guarded; `seen` and `seenAfter` are what the lister has under
     * the record's name before and after.
     */
    method ReconcileClaim(zfs: ZfsHost, tree: HostTree, fs: DirDriver.HostFs, cluster: Cluster, pvc: Claim,
                          sc: StorageClass,
                          seen: Option<PersistentVolume>, seenAfter: Option<PersistentVolume>,
                          rendered: Option<string>, quantity: string -> Option<int>)
      returns (r: Result<(), ControllerError>, outcome: ClaimPass, ghost made: Option<ZfsDriver.VolumeInfo>, ghost warned: bool)
      requires zfs.Valid() && tree.Valid()
      modifies this`inProgress, this`events, zfs`pool, zfs`mutations, tree, fs, cluster`pvs
      ensures zfs.Valid() && tree.Valid() && inProgress == old(inProgress)
      ensures ClaimKey(pvc) in inProgress ==>
                && r.Ok? && outcome.NotEntered?
                && ClaimView(zfs.pool, tree.attrs, fs.files, cluster.pvs, events)
                   == old(ClaimView(zfs.pool, tree.attrs, fs.files, cluster.pvs, events))
      ensures ClaimKey(pvc) !in inProgress ==>
                ClaimAttempted(Site(nodeName, provisionerName, hostPrefix, drivers, tree.root, zfs.canon, zfs.inherits),
                               old(ClaimView(zfs.pool, tree.attrs, fs.files, cluster.pvs, events)),
                               ClaimView(zfs.pool, tree.attrs, fs.files, cluster.pvs, events),
                               pvc, sc, seen, seenAfter, rendered, quantity, r, outcome, made, warned)
      ensures ClaimKey(pvc) !in inProgress && !BelongsTo(seen, pvc) ==>
                zfs.reliable && tree.reliable && fs.reliable && cluster.reliable ==>
                ClaimSmooth(Site(nodeName, provisionerName, hostPrefix, drivers, tree.root, zfs.canon, zfs.inherits),
                            old(ClaimView(zfs.pool, tree.attrs, fs.files, cluster.pvs, events)),
                            pvc, sc, Prepare(drivers, pvc, sc, rendered, quantity, hostPrefix), outcome, made, warned)
    {
      var key := ClaimKey(pvc);
      if key in inProgress {
        return Ok(()), NotEntered, None, false;
      }
      inProgress := inProgress + {key};
      if BelongsTo(seen, pvc) {
        r, outcome, made, warned := Ok(()), AlreadyThere, None, false;
      } else {
        var plan := PrepareClaim(pvc, sc, rendered, quantity);
        r, outcome, made, warned := ClaimSection(zfs, tree, fs, cluster, pvc, sc, plan, seenAfter);
      }
      inProgress := inProgress - {key};
    }

    /** processPVC's part for a pending claim: it is provisioned when it is meant for this provisioner and this node. */
    method ProcessPending(zfs: ZfsHost, tree: HostTree, fs: DirDriver.HostFs, cluster: Cluster, pvc: Claim,
                          storageClass: Answer<StorageClass>, seen: Option<PersistentVolume>,
                          seenAfter: Option<PersistentVolume>, rendered: Option<string>, quantity: string -> Option<int>)
      returns (r: Result<(), ControllerError>, ghost outcome: ClaimPass, ghost made: Option<ZfsDriver.VolumeInfo>,
               ghost warned: bool)
      requires zfs.Valid() && tree.Valid()
      modifies this`inProgress, this`events, zfs`pool, zfs`mutations, tree, fs, cluster`pvs
      ensures zfs.Valid() && tree.Valid() && inProgress == old(inProgress)
      ensures forall name :: name in old(zfs.pool) ==> name in zfs.pool && zfs.pool[name] == old(zfs.pool)[name]
      ensures !Targeted(provisionerName, nodeName, pvc, storageClass) ==>
                && ClaimView(zfs.pool, tree.attrs, fs.files, cluster.pvs, events)
                   == old(ClaimView(zfs.pool, tree.attrs, fs.files, cluster.pvs, events))
                && (r.Err? <==> pvc.className.Some? && pvc.className.value != "" && storageClass.Unknown?)
      ensures Targeted(provisionerName, nodeName, pvc, storageClass) && ClaimKey(pvc) !in inProgress ==>
                ClaimAttempted(Site(nodeName, provisionerName, hostPrefix, drivers, tree.root, zfs.canon, zfs.inherits),
                               old(ClaimView(zfs.pool, tree.attrs, fs.files, cluster.pvs, events)),
                               ClaimView(zfs.pool, tree.attrs, fs.files, cluster.pvs, events),
                               pvc, storageClass.value, seen, seenAfter, rendered, quantity, r, outcome, made, warned)
      ensures Targeted(provisionerName, nodeName, pvc, storageClass) && ClaimKey(pvc) !in inProgress && !BelongsTo(seen, pvc) ==>
                (zfs.reliable && tree.reliable && fs.reliable && cluster.reliable ==>
                  ClaimSmooth(Site(nodeName, provisionerName, hostPrefix, drivers, tree.root, zfs.canon, zfs.inherits),
                              old(ClaimView(zfs.pool, tree.attrs, fs.files, cluster.pvs, events)), pvc, storageClass.value,
                              Prepare(drivers, pvc, storageClass.value, rendered, quantity, hostPrefix), outcome, made, warned))
    {
      outcome, made, warned := NotEntered, None, false;
      if pvc.className.None? || pvc.className.value == "" {
        return Ok(()), outcome, made, warned;
      }
      if !storageClass.Found? {
        return if storageClass.NotFound? then Ok(()) else Err(ApiFailed), outcome, made, warned;
      }
      if storageClass.value.provisioner != provisionerName || !IsNodeTargeted(nodeName, storageClass.value, pvc) {
        return Ok(()), outcome, made, warned;
      }
      ghost var was := ClaimView(zfs.pool, tree.attrs, fs.files, cluster.pvs, events);
      r, outcome, made, warned :=
        ReconcileClaim(zfs, tree, fs, cluster, pvc, storageClass.value, seen, seenAfter, rendered, quantity);
      if ClaimKey(pvc) !in inProgress {
        ClaimKeepsDatasets(Site(nodeName, provisionerName, hostPrefix, drivers, tree.root, zfs.canon, zfs.inherits),
                           was, ClaimView(zfs.pool, tree.attrs, fs.files, cluster.pvs, events),
                           pvc, storageClass.value, seen, seenAfter, rendered, quantity, r, outcome, made, warned);
      }
    }

    /** processPVC's part for a bound claim: its volume is reconciled live when it is this provisioner's and on this node. */
    method ProcessBound(zfs: ZfsHost, tree: HostTree, cluster: Cluster, pvc: Claim, volume: Answer<PersistentVolume>,
                        got: Option<StorageClass>, quantity: string -> Option<int>)
      returns (r: Result<(), ControllerError>, ghost pass: StatePass)
      requires zfs.Valid() && tree.Valid()
      modifies this`inProgress, this`events, zfs`pool, zfs`mutations, tree, cluster`annotations
      ensures zfs.Valid() && tree.Valid() && inProgress == old(inProgress)
      ensures forall name :: name in zfs.pool <==> name in old(zfs.pool)
      ensures !Ours(provisionerName, nodeName, volume) ==>
                && LiveView(zfs.pool, tree.attrs, cluster.annotations, events, zfs.mutations + tree.mutations)
                   == old(LiveView(zfs.pool, tree.attrs, cluster.annotations, events, zfs.mutations + tree.mutations))
                && (r.Err? <==> volume.Unknown?)
      ensures Ours(provisionerName, nodeName, volume) && StateKey(pvc) !in inProgress ==>
                PlannedPass(Site(nodeName, provisionerName, hostPrefix, drivers, tree.root, zfs.canon, zfs.inherits),
                            old(LiveView(zfs.pool, tree.attrs, cluster.annotations, events, zfs.mutations + tree.mutations)),
                            LiveView(zfs.pool, tree.attrs, cluster.annotations, events, zfs.mutations + tree.mutations),
                            pvc, PlanOfPass(drivers, pvc, volume.value, got, quantity), pass, r.Err?)
      ensures Ours(provisionerName, nodeName, volume) && StateKey(pvc) !in inProgress ==>
                (zfs.reliable && tree.reliable && cluster.reliable ==>
                  PassSmooth(old(LiveView(zfs.pool, tree.attrs, cluster.annotations, events, zfs.mutations + tree.mutations)),
                             pvc, PlanOfPass(drivers, pvc, volume.value, got, quantity), zfs.canon, pass, r.Err?))
    {
      pass := Skipped;
      if !volume.Found? {
        return if volume.NotFound? then Ok(()) else Err(ApiFailed), pass;
      }
      if Lookup(volume.value.annotations, ANN_PROVISIONED_BY) != provisionerName || !IsPvOnThisNode(nodeName, volume.value) {
        return Ok(()), pass;
      }
      ghost var was := LiveView(zfs.pool, tree.attrs, cluster.annotations, events, zfs.mutations + tree.mutations);
      r, pass := ReconcileVolumeState(zfs, tree, cluster, pvc, volume.value, got, quantity);
      if StateKey(pvc) !in inProgress {
        PassKeepsNames(Site(nodeName, provisionerName, hostPrefix, drivers, tree.root, zfs.canon, zfs.inherits),
                       was, LiveView(zfs.pool, tree.attrs, cluster.annotations, events, zfs.mutations + tree.mutations),
                       pvc, PlanOfPass(drivers, pvc, volume.value, got, quantity), pass, r.Err?);
      }
    }

    /**
     * processPVC. `quantity` stands for resource.ParseQuantity, the other parameters after the claim's
     * own for answers of listers and the API.
     */
    method ProcessPVC(zfs: ZfsHost, tree: HostTree, fs: DirDriver.HostFs, cluster: Cluster,
                      pvc: Claim, phase: ClaimPhase, volumeName: string, quantity: string -> Option<int>,
                      storageClass: Answer<StorageClass>, volume: Answer<PersistentVolume>, got: Option<StorageClass>,
                      seen: Option<PersistentVolume>, seenAfter: Option<PersistentVolume>, rendered: Option<string>)
      returns (r: Result<(), ControllerError>, ghost outcome: ClaimPass, ghost made: Option<ZfsDriver.VolumeInfo>,
               ghost warned: bool, ghost pass: StatePass)
      requires zfs.Valid() && tree.Valid()
      modifies this`inProgress, this`events, zfs`pool, zfs`mutations, tree, fs, cluster
      ensures zfs.Valid() && tree.Valid() && inProgress == old(inProgress)
      ensures !(phase.Pending? && volumeName == "" && Targeted(provisionerName, nodeName, pvc, storageClass)) ==>
                && cluster.pvs == old(cluster.pvs) && fs.files == old(fs.files)
                && forall name :: name in zfs.pool <==> name in old(zfs.pool)
      ensures !(phase.Bound? && volumeName != "" && Ours(provisionerName, nodeName, volume)) ==>
                && cluster.annotations == old(cluster.annotations)
                && forall name :: name in old(zfs.pool) ==> name in zfs.pool && zfs.pool[name] == old(zfs.pool)[name]
      ensures !(phase.Pending? && volumeName == "" && Targeted(provisionerName, nodeName, pvc, storageClass))
              && !(phase.Bound? && volumeName != "" && Ours(provisionerName, nodeName, volume)) ==>
                zfs.pool == old(zfs.pool) && tree.attrs == old(tree.attrs) && events == old(events)
      ensures phase.Pending? && volumeName == "" && Targeted(provisionerName, nodeName, pvc, storageClass)
              && ClaimKey(pvc) !in inProgress ==>
                ClaimAttempted(Site(nodeName, provisionerName, hostPrefix, drivers, tree.root, zfs.canon, zfs.inherits),
                               old(ClaimView(zfs.pool, tree.attrs, fs.files, cluster.pvs, events)),
                               ClaimView(zfs.pool, tree.attrs, fs.files, cluster.pvs, events),
                               pvc, storageClass.value, seen, seenAfter, rendered, quantity, r, outcome, made, warned)
      ensures phase.Bound? && volumeName != "" && Ours(provisionerName, nodeName, volume) && StateKey(pvc) !in inProgress ==>
                PlannedPass(Site(nodeName, provisionerName, hostPrefix, drivers, tree.root, zfs.canon, zfs.inherits),
                            old(LiveView(zfs.pool, tree.attrs, cluster.annotations, events, zfs.mutations + tree.mutations)),
                            LiveView(zfs.pool, tree.attrs, cluster.annotations, events, zfs.mutations + tree.mutations),
                            pvc, PlanOfPass(drivers, pvc, volume.value, got, quantity), pass, r.Err?)
    {
      outcome, made, warned, pass := NotEntered, None, false, Skipped;
      if phase.Pending? && volumeName == "" {
        r, outcome, made, warned :=
          ProcessPending(zfs, tree, fs, cluster, pvc, storageClass, seen, seenAfter, rendered, quantity);
      } else if phase.Bound? && volumeName != "" {
        r, pass := ProcessBound(zfs, tree, cluster, pvc, volume, got, quantity);
      } else {
        r := Ok(());
      }
    }
  }
}
