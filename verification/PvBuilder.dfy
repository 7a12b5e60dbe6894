/** pkg/controller/pv_builder.go: the record that ties claim, dataset, node and mount path together. */
module PvBuilder {
  import opened Wrappers
  import opened Claims

  datatype VolumePhase = Available | Bound | Released

  /** An affinity term's expression on a node label */
  datatype NodeExpression = NodeExpression(key: string, values: seq<string>)

  datatype PersistentVolume = PersistentVolume(
    name: string, annotations: map<string, string>, reclaimPolicy: ReclaimPolicy, className: string,
    claimNs: string, claimName: string, claimUid: string, localPath: string,
    affinity: Option<seq<NodeExpression>>, phase: VolumePhase)

  datatype BuildError = EmptyNodeName | EmptyMountPath

  const HOSTNAME_LABEL := "kubernetes.io/hostname"

  function PvName(uid: string): string {
    "pvc-" + uid
  }

  function BuildPersistentVolume(
      pvc: Claim, sc: StorageClass, provisionerName: string, driverName: string,
      datasetName: string, mountPath: string, nodeName: string): Result<PersistentVolume, BuildError>
  {
    if nodeName == "" then Err(EmptyNodeName)
    else if mountPath == "" then Err(EmptyMountPath)
    else
      Ok(PersistentVolume(
        PvName(pvc.uid),
        map[ANN_PROVISIONED_BY := provisionerName, ANN_SUBVOL_DRIVER := driverName,
            ANN_DATASET_NAME := datasetName, ANN_HOST_MOUNT_PATH := mountPath],
        if sc.reclaimPolicy.Some? then sc.reclaimPolicy.value else Retain,
        if pvc.className.Some? then pvc.className.value else "",
        pvc.ns, pvc.name, pvc.uid, mountPath,
        Some([NodeExpression(HOSTNAME_LABEL, [nodeName])]),
        Available))
  }

  predicate IsPvOnThisNode(nodeName: string, pv: PersistentVolume) {
    nodeName == "" || pv.affinity.None?
    || exists e :: e in pv.affinity.value && e.key == HOSTNAME_LABEL && nodeName in e.values
  }

  lemma PvNameInjective(a: string, b: string)
    ensures PvName(a) == PvName(b) ==> a == b
  {
    assert PvName(a)[4..] == a && PvName(b)[4..] == b;
  }

  predicate PreservationRequested(pv: PersistentVolume) {
    Lookup(pv.annotations, ANN_SNAPSHOT_BEFORE_DELETE) == "true"
  }

  /**
   * A volume record leads back to exactly what was provisioned: its deletion is taken up by the
   * node that created it and by no other, names the dataset and mount path that were created,
   * and belongs to the claim it was made for, whose UID gave it its name.
   */
  lemma RecordTies(pvc: Claim, sc: StorageClass, provisioner: string, driver: string,
                   dataset: string, mountPath: string, node: string, other: string)
    ensures match BuildPersistentVolume(pvc, sc, provisioner, driver, dataset, mountPath, node)
            case Err(_) => node == "" || mountPath == ""
            case Ok(pv) =>
              && (other != "" ==> (IsPvOnThisNode(other, pv) <==> other == node))
              && pv.affinity == Some([NodeExpression("kubernetes.io/hostname", [node])])
              && Lookup(pv.annotations, "subvol.io/dataset") == dataset
              && Lookup(pv.annotations, "subvol.io/mount-path") == mountPath == pv.localPath
              && Lookup(pv.annotations, "subvol.io/driver") == driver
              && Lookup(pv.annotations, "pv.kubernetes.io/provisioned-by") == provisioner
              && pv.name == "pvc-" + pvc.uid && pv.claimUid == pvc.uid && pv.claimNs == pvc.ns && pv.claimName == pvc.name
              && pv.className == (if pvc.className.Some? then pvc.className.value else "")
  {
    if node != "" && mountPath != "" {
      var pv := BuildPersistentVolume(pvc, sc, provisioner, driver, dataset, mountPath, node).value;
      assert pv.affinity.value[0] == NodeExpression(HOSTNAME_LABEL, [node]);
    }
  }

  /**
   * README.md:73 promises that a claim annotated for preservation is preserved. Deletion asks the
   * volume record, and no record is ever built with that annotation, whatever its claim says.
   */
  lemma PreservationNotCarried(pvc: Claim, sc: StorageClass, provisioner: string, driver: string,
                               dataset: string, mountPath: string, node: string)
    ensures match BuildPersistentVolume(pvc, sc, provisioner, driver, dataset, mountPath, node)
            case Ok(pv) => !PreservationRequested(pv)
            case Err(_) => true
  {
    assert ANN_SNAPSHOT_BEFORE_DELETE != ANN_PROVISIONED_BY by { assert |ANN_SNAPSHOT_BEFORE_DELETE| != |ANN_PROVISIONED_BY|; }
    assert ANN_SNAPSHOT_BEFORE_DELETE != ANN_SUBVOL_DRIVER by { assert |ANN_SNAPSHOT_BEFORE_DELETE| != |ANN_SUBVOL_DRIVER|; }
    assert ANN_SNAPSHOT_BEFORE_DELETE != ANN_DATASET_NAME by { assert |ANN_SNAPSHOT_BEFORE_DELETE| != |ANN_DATASET_NAME|; }
    assert ANN_SNAPSHOT_BEFORE_DELETE != ANN_HOST_MOUNT_PATH by { assert |ANN_SNAPSHOT_BEFORE_DELETE| != |ANN_HOST_MOUNT_PATH|; }
  }
}
