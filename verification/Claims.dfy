/**
 * The API objects the controller reads, and what it takes from them: which node is meant,
 * which quota, owner, mode and properties are wanted
 * (pkg/controller/controller.go:392-415, 443-516, 787-805, 848-902).
 */
module Claims {
  import opened Wrappers
  import opened Strings
  import opened Config
  import opened OwnerMode
  import opened Naming
  import opened ZfsDriver

  const ANN_SUBVOL_PATH := "subvol.io/subvol"
  const ANN_OWNER := "subvol.io/owner"
  const ANN_MODE := "subvol.io/mode"
  const ANN_RECURSIVE := "subvol.io/recursive"
  const ANN_SNAPSHOT_BEFORE_DELETE := "subvol.io/snapshot-before-delete"
  const ANN_ADOPT_EXISTING := "subvol.io/adopt-existing"
  const ANN_QUOTA := "subvol.io/quota"
  const ANN_PROPERTIES := "subvol.io/properties"
  const ANN_DRY_RUN := "subvol.io/dry-run"
  const ANN_APPLY := "subvol.io/apply"
  const ANN_SELECTED_NODE := "volume.kubernetes.io/selected-node"
  const ANN_PROVISIONED_BY := "pv.kubernetes.io/provisioned-by"
  const ANN_SUBVOL_DRIVER := "subvol.io/driver"
  const ANN_DATASET_NAME := "subvol.io/dataset"
  const ANN_HOST_MOUNT_PATH := "subvol.io/mount-path"

  const PARAM_DRIVER := "driver"
  const PARAM_NODE := "node"
  const PARAM_PARENT := "parent"
  const PARAM_MOUNT_PREFIX := "mountPrefix"
  const PARAM_DEFAULT_OWNER := "defaultOwner"
  const PARAM_DEFAULT_MODE := "defaultMode"
  const PARAM_AUTO_APPLY := "autoApply"
  const PARAM_PROPERTIES := "properties"

  datatype Claim = Claim(
    ns: string, name: string, uid: string, annotations: map<string, string>,
    request: Option<int>, className: Option<string>, block: bool)

  datatype ReclaimPolicy = Retain | Delete

  datatype StorageClass = StorageClass(
    name: string, provisioner: string, parameters: map<string, string>,
    waitForFirstConsumer: bool, reclaimPolicy: Option<ReclaimPolicy>)

  /** Reading a Go map: a missing key reads as "" */
  function Lookup(m: map<string, string>, k: string): string {
    if k in m then m[k] else ""
  }

  // ---- Nodes ------------------------------------------------------------------------------

  predicate IsNodeTargeted(nodeName: string, sc: StorageClass, pvc: Claim) {
    if nodeName == "" then true
    else if Lookup(pvc.annotations, ANN_SELECTED_NODE) != "" then Lookup(pvc.annotations, ANN_SELECTED_NODE) == nodeName
    else if Lookup(sc.parameters, PARAM_NODE) != "" then Lookup(sc.parameters, PARAM_NODE) == nodeName
    else !sc.waitForFirstConsumer
  }

  /** A claim is never taken up by two nodes, except when nothing at all says where it belongs. */
  lemma OneNodeTargeted(sc: StorageClass, pvc: Claim, a: string, b: string)
    requires a != "" && b != "" && a != b
    ensures IsNodeTargeted(a, sc, pvc) && IsNodeTargeted(b, sc, pvc) <==>
            && Lookup(pvc.annotations, "volume.kubernetes.io/selected-node") == "" && Lookup(sc.parameters, "node") == ""
            && !sc.waitForFirstConsumer
  {
  }

  // ---- Quota ------------------------------------------------------------------------------

  const DUMMY_STORAGE_REQUEST: int := 1

  datatype QuotaError = InvalidQuota

  /** resolveQuota; `quantity` stands for resource.ParseQuantity */
  function ResolveQuota(pvc: Claim, quantity: string -> Option<int>): Result<Option<int>, QuotaError> {
    if ANN_QUOTA in pvc.annotations then
      var raw := TrimSpace(pvc.annotations[ANN_QUOTA]);
      if raw == "none" || raw == "unlimited" then Ok(None)
      else
        match quantity(raw)
        case None => Err(InvalidQuota)
        case Some(v) => Ok(Some(v))
    else if pvc.request.Some? && pvc.request.value != DUMMY_STORAGE_REQUEST then Ok(pvc.request)
    else Ok(None)
  }

  // ---- What is wanted of a volume -----------------------------------------------------------

  /** What a live pass is to bring about */
  datatype StateWish = StateWish(quota: Option<int>, ownerMode: Wish, recursive: bool, props: map<string, string>)

  function DeclaredOwner(text: string): Option<Ownership> {
    match ParseOwnership(text)
    case Ok(owner) => owner
    case Err(_) => None
  }

  function DeclaredMode(text: string): Option<nat> {
    match ParseFileMode(text)
    case Ok(mode) => mode
    case Err(_) => None
  }

  /** The StorageClass's properties under the claim's own */
  function OverlaidProps(sc: Option<StorageClass>, pvc: Claim): map<string, string> {
    (if sc.Some? then KeyValues(Lookup(sc.value.parameters, PARAM_PROPERTIES)) else map[])
    + KeyValues(Lookup(pvc.annotations, ANN_PROPERTIES))
  }

  /** Only what the claim itself declares about owner and mode is enforced live. */
  function WishOf(pvc: Claim, sc: Option<StorageClass>, quota: Option<int>): StateWish {
    StateWish(quota,
              Wish(DeclaredOwner(Lookup(pvc.annotations, ANN_OWNER)), DeclaredMode(Lookup(pvc.annotations, ANN_MODE))),
              Lookup(pvc.annotations, ANN_RECURSIVE) == "true",
              OverlaidProps(sc, pvc))
  }

  predicate ApplyRequested(pvc: Claim) {
    Lookup(pvc.annotations, ANN_APPLY) == "true"
  }

  predicate AutoApply(sc: Option<StorageClass>) {
    sc.Some? && Lookup(sc.value.parameters, PARAM_AUTO_APPLY) == "true"
  }

  /** A pass may change the volume. */
  predicate Authorised(pvc: Claim, sc: Option<StorageClass>) {
    (AutoApply(sc) || ApplyRequested(pvc)) && Lookup(pvc.annotations, ANN_DRY_RUN) != "true"
  }

  // ---- Provisioning ---------------------------------------------------------------------------

  /** The claim's own text, or the StorageClass's default when it is empty */
  function OrDefault(text: string, default: string): string {
    if text == "" then default else text
  }

  /** The options reconcileClaim hands to the driver, for a relative path already settled */
  function ProvisionOptions(pvc: Claim, sc: StorageClass, relPath: string, quota: Option<int>,
                            hostPrefix: string): CreateOptions {
    CreateOptions(
      Lookup(pvc.annotations, ANN_ADOPT_EXISTING) == "true",
      DatasetName(Lookup(sc.parameters, PARAM_PARENT), relPath),
      MountPath(Lookup(sc.parameters, PARAM_MOUNT_PREFIX), relPath),
      hostPrefix,
      if quota.Some? then quota.value else 0,
      DeclaredOwner(OrDefault(Lookup(pvc.annotations, ANN_OWNER), Lookup(sc.parameters, PARAM_DEFAULT_OWNER))),
      DeclaredMode(OrDefault(Lookup(pvc.annotations, ANN_MODE), Lookup(sc.parameters, PARAM_DEFAULT_MODE))),
      OverlaidProps(Some(sc), pvc))
  }

  /** What the claim declares about owner and mode is what its volume is created with. */
  lemma DeclaredAtBirth(pvc: Claim, sc: StorageClass, relPath: string, quota: Option<int>, hostPrefix: string)
    ensures var opts, wish := ProvisionOptions(pvc, sc, relPath, quota, hostPrefix), WishOf(pvc, Some(sc), quota);
            && opts.props == wish.props
            && (wish.ownerMode.owner.Some? ==> opts.owner == wish.ownerMode.owner)
            && (wish.ownerMode.mode.Some? ==> opts.mode == wish.ownerMode.mode)
  {
    assert TrimSpace("") == "";
  }
}
