/** pkg/driver/zfs/zfs.go:76-182, 392-422: creating and deleting a volume. */
module ZfsDriver {
  import opened Wrappers
  import opened Strings
  import opened Decimal
  import opened Paths
  import opened Config
  import opened Subtrees
  import opened Dataset
  import opened ZfsHosts
  import opened OwnerMode
  import opened HostTrees

  datatype CreateOptions = CreateOptions(
    adoptExisting: bool, name: string, mountPath: string, hostPrefix: string, quotaBytes: int,
    owner: Option<Ownership>, mode: Option<nat>, props: map<string, string>)

  datatype VolumeInfo = VolumeInfo(name: string, mountPath: string)

  datatype VolumeError = EmptyName | AlreadyExists | CreateFailed | DestroyFailed

  /** The host path of a mount point, or None when there is no directory to look at */
  function EffectivePath(hostPrefix: string, mountPath: string): Option<string> {
    var path := if hostPrefix != "" && mountPath != "" then JoinPath(hostPrefix, mountPath) else mountPath;
    if path == "" || mountPath == "none" || mountPath == "legacy" then None else Some(path)
  }

  /** The directory a volume's files are reached through on this host, if it has one */
  function Place(root: Option<Node>, hostPrefix: string, mountPath: string): Option<Node> {
    if EffectivePath(hostPrefix, mountPath).None? then None else root
  }

  /** The mount path to report: the one asked for, or what zfs says */
  method ReportedMountPath(zfs: ZfsHost, name: string, wanted: string) returns (mountPath: string)
    ensures wanted != "" ==> mountPath == wanted
    ensures zfs.reliable && wanted == "" && name in zfs.pool && "mountpoint" in Names(zfs.pool[name]) ==>
              mountPath == TrimSpace(RowOf(zfs.pool[name], "mountpoint").value + "\n")
  {
    mountPath := wanted;
    if mountPath == "" {
      var out := zfs.GetMountpoint(name);
      if out.Some? {
        mountPath := TrimSpace(out.value);
      }
    }
  }

  /** The attributes right after creation, when no chown or chmod had to be given up on */
  function BornAttrs(attrs: map<Ino, Attr>, root: Option<Node>, applies: bool, owner: Option<Ownership>,
                     mode: Option<nat>): map<Ino, Attr>
  {
    if !applies || root.None? || root.value.ino !in attrs then attrs
    else attrs[root.value.ino := Fixed(attrs[root.value.ino], owner, mode)]
  }

  /** What creation may touch of the mounted tree: its root, and only for a volume it made. */
  ghost predicate OnlyRootTouched(was: map<Ino, Attr>, now: map<Ino, Attr>, root: Option<Node>) {
    now.Keys == was.Keys && forall ino :: ino in was && (root.None? || ino != root.value.ino) ==> now[ino] == was[ino]
  }

  /** Ownership and mode of a volume just made; a failure is only logged. */
  method ApplyAtBirth(tree: HostTree, applies: bool, owner: Option<Ownership>, mode: Option<nat>) returns (warned: bool)
    requires tree.Valid() && (tree.root.Some? ==> tree.root.value.ino in tree.attrs)
    modifies tree
    ensures tree.Valid() && OnlyRootTouched(old(tree.attrs), tree.attrs, tree.root)
    ensures !applies ==> tree.attrs == old(tree.attrs)
    ensures !warned ==> tree.attrs == BornAttrs(old(tree.attrs), tree.root, applies, owner, mode)
    ensures tree.reliable ==> !warned
  {
    warned := false;
    if !applies || tree.root.None? {
      return;
    }
    var ino := tree.root.value.ino;
    if owner.Some? {
      var ok := tree.Chown(ino, owner.value);
      warned := warned || !ok;
    }
    if mode.Some? {
      var ok := tree.Chmod(ino, Perm(mode.value));
      warned := warned || !ok;
    }
  }

  /** `tree` is the directory found at the volume's effective host path. */
  method Create(zfs: ZfsHost, tree: HostTree, opts: CreateOptions)
    returns (r: Result<VolumeInfo, VolumeError>, warned: bool)
    requires zfs.Valid() && tree.Valid()
    modifies zfs`pool, zfs`mutations, tree
    ensures zfs.Valid() && tree.Valid()
    ensures opts.name == "" ==> r == Err(EmptyName)
    ensures opts.name != "" && opts.name in old(zfs.pool) ==> (r.Ok? <==> opts.adoptExisting)
    ensures opts.name != "" && opts.name in old(zfs.pool) && r.Err? ==> r.error == AlreadyExists
    ensures opts.name != "" && opts.name !in old(zfs.pool) && r.Err? ==> r.error == CreateFailed
    ensures zfs.reliable && opts.name != "" && opts.name !in old(zfs.pool) && AllSettable(zfs.canon, opts.props) ==> r.Ok?
    ensures tree.reliable ==> !warned
    ensures opts.name == "" || opts.name in old(zfs.pool) || r.Err? ==>
              zfs.pool == old(zfs.pool) && tree.attrs == old(tree.attrs)
    ensures r.Ok? ==> r.value.name == opts.name && (opts.mountPath != "" ==> r.value.mountPath == opts.mountPath)
    ensures r.Ok? && opts.name !in old(zfs.pool) ==>
              && opts.name in zfs.pool && zfs.pool == old(zfs.pool)[opts.name := zfs.pool[opts.name]]
              && zfs.pool[opts.name] ==
                   NewDataset(zfs.canon, zfs.pool[opts.name].quota, opts.props, zfs.inherits(opts.name))
              && ("quota" !in opts.props ==> zfs.pool[opts.name].quota == if opts.quotaBytes > 0 then opts.quotaBytes else 0)
              && OnlyRootTouched(old(tree.attrs), tree.attrs, tree.root)
              && (!warned ==> tree.attrs == BornAttrs(old(tree.attrs), tree.root,
                                                      EffectivePath(opts.hostPrefix, r.value.mountPath).Some?,
                                                      opts.owner, opts.mode))
  {
    warned := false;
    if opts.name == "" {
      return Err(EmptyName), false;
    }
    RootCovered(tree);
    var exists_ := zfs.List(opts.name);
    if exists_ {
      if !opts.adoptExisting {
        return Err(AlreadyExists), false;
      }
      var adopted := ReportedMountPath(zfs, opts.name, opts.mountPath);
      return Ok(VolumeInfo(opts.name, adopted)), false;
    }
    var ok := zfs.CreateDataset(opts.name, opts.quotaBytes, opts.props);
    if !ok {
      return Err(CreateFailed), false;
    }
    var mountPath := ReportedMountPath(zfs, opts.name, opts.mountPath);
    warned := ApplyAtBirth(tree, EffectivePath(opts.hostPrefix, mountPath).Some?, opts.owner, opts.mode);
    r := Ok(VolumeInfo(opts.name, mountPath));
  }

  /** ReconcileOwnerMode; `tree` is the directory found at the volume's effective host path. */
  method ReconcileOwnerMode(tree: HostTree, hostPrefix: string, mountPath: string, wish: Wish, recursive: bool,
                            dryRun: bool)
    returns (r: Result<seq<OwnerChange>, OwnerModeError>)
    requires tree.Valid()
    modifies tree
    ensures tree.Valid()
    ensures tree.reliable ==> r.Ok?
    ensures var place := Place(tree.root, hostPrefix, mountPath);
            && (dryRun || place.None? ==> tree.attrs == old(tree.attrs) && tree.mutations == old(tree.mutations))
            && (r.Ok? ==> r.value == TreeChanges(old(tree.attrs), place, wish, recursive, dryRun))
            && (r.Ok? && !dryRun ==> tree.attrs == TreeAfter(old(tree.attrs), place, wish, recursive))
            && (r.Ok? && r.value == [] ==> tree.mutations == old(tree.mutations))
            && (r.Err? && place.Some? ==>
                  PartlyFixed(old(tree.attrs), tree.attrs, Scope(place.value, recursive), wish))
  {
    if wish.owner == None && wish.mode == None {
      NothingDeclared(tree.attrs, Place(tree.root, hostPrefix, mountPath), recursive, dryRun);
      return Ok([]);
    }
    if mountPath == "" || mountPath == "none" || mountPath == "legacy" {
      return Ok([]);
    }
    CleanNotEmpty(hostPrefix + "/" + mountPath);
    r := ReconcileOwnerModeAtPath(tree, wish, recursive, dryRun);
  }

  lemma RootCovered(tree: HostTree)
    requires tree.Valid()
    ensures tree.root.Some? ==> tree.root.value.ino in tree.attrs
  {
    if tree.root.Some? {
      assert Visits("", tree.root.value)[0] in Visits("", tree.root.value);
    }
  }

  // ---- Deletion -------------------------------------------------------------------------------

  /** The sibling name under which a volume is preserved */
  function QuarantineName(name: string, now: nat): string {
    name + "-deleted-" + FormatNat(now)
  }

  /** `warned` says that preserving the volume failed and deletion went on. */
  method Delete(zfs: ZfsHost, name: string, snapshotBeforeDelete: bool, now: nat)
    returns (r: Result<(), VolumeError>, warned: bool)
    requires zfs.Valid()
    modifies zfs`pool, zfs`mutations
    ensures zfs.Valid()
    ensures name == "" ==> r == Err(EmptyName) && zfs.pool == old(zfs.pool)
    ensures name != "" ==> (r.Ok? <==> name !in zfs.pool)
    ensures name != "" && name !in old(zfs.pool) ==> r.Ok? && zfs.pool == old(zfs.pool)
    ensures name != "" && name in old(zfs.pool) ==>
              if snapshotBeforeDelete && !warned
              then && FreeFor(old(zfs.pool), name, QuarantineName(name, now))
                   && zfs.pool == Renamed(old(zfs.pool), name, QuarantineName(name, now))
              else && (r.Ok? ==> zfs.pool == Without(old(zfs.pool), name))
                   && Without(zfs.pool, name) == Without(old(zfs.pool), name)
                   && (forall k :: k in zfs.pool ==> k in old(zfs.pool) && zfs.pool[k] == old(zfs.pool)[k])
    ensures warned ==> snapshotBeforeDelete
    ensures zfs.reliable && name != "" ==> r.Ok?
    ensures zfs.reliable && FreeFor(old(zfs.pool), name, QuarantineName(name, now)) ==> !warned
  {
    warned := false;
    if name == "" {
      return Err(EmptyName), false;
    }
    var exists_ := zfs.List(name);
    if !exists_ {
      return Ok(()), false;
    }
    if snapshotBeforeDelete {
      var preserved := zfs.Rename(name, QuarantineName(name, now));
      if preserved {
        RenameKeeps(old(zfs.pool), name, QuarantineName(name, now));
        return Ok(()), false;
      }
      warned := true;
    }
    var ok := zfs.Destroy(name);
    return if ok then Ok(()) else Err(DestroyFailed), warned;
  }

  /**
   * A quarantine never gets between another volume and its subtree: a volume apart from the
   * deleted one keeps every entry, whether the deleted one was renamed or destroyed.
   */
  lemma OthersIntact<T>(pool: map<string, T>, name: string, now: nat, other: string, k: string)
    requires !AtOrBelow(name, other) && !AtOrBelow(other, name)
    requires k in pool && AtOrBelow(other, k)
    ensures k in Without(pool, name) && Without(pool, name)[k] == pool[k]
    ensures FreeFor(pool, name, QuarantineName(name, now)) ==>
              k in Renamed(pool, name, QuarantineName(name, now)) && Renamed(pool, name, QuarantineName(name, now))[k] == pool[k]
  {
    if AtOrBelow(name, k) {
      Comparable(name, other, k);
    }
    if FreeFor(pool, name, QuarantineName(name, now)) {
      RenameKeeps(pool, name, QuarantineName(name, now));
    }
  }
}
