/** pkg/driver/dir/dir.go:27-102, 114-128, 139-178: volumes that are plain host directories. */
module DirDriver {
  import opened Wrappers
  import opened Strings
  import opened Decimal
  import opened Paths
  import opened Config
  import opened Subtrees
  import opened OwnerMode
  import opened HostTrees

  datatype DirError = QuotaUnsupported | EmptyPath | StatFailed | AlreadyExists | MkdirFailed | RemoveFailed

  datatype DirEntry = Directory(attr: Attr) | RegularFile(attr: Attr, content: string)

  /** Every name on the way to a path, itself included */
  function WayTo(path: string): set<string> {
    set i | 0 < i <= |path| && (i == |path| || path[i] == '/') :: path[..i]
  }

  /** Nothing but directories is on the way. */
  predicate Clear(files: map<string, DirEntry>, path: string) {
    forall k :: k in WayTo(path) && k in files ==> files[k].Directory?
  }

  /** The host's files, by cleaned absolute path. */
  class HostFs {
    /** No system call fails, unless something is in its way. */
    const reliable: bool
    var files: map<string, DirEntry>

    constructor (reliable: bool, files: map<string, DirEntry>)
      ensures this.reliable == reliable && this.files == files
    {
      this.reliable, this.files := reliable, files;
    }

    /** os.Stat */
    method Stat(path: string) returns (found: Option<bool>)
      ensures found.Some? ==> found.value == (path in files)
      ensures reliable ==> found.Some?
    {
      var fails: bool := *;
      found := if fails && !reliable then None else Some(path in files);
    }

    /** os.MkdirAll: the missing directories on the way, all of them or some; the umask may clear bits */
    method MkdirAll(path: string, perm: nat) returns (ok: bool)
      modifies this
      ensures forall k :: k in old(files) ==> k in files && files[k] == old(files)[k]
      ensures forall k :: k in files && k !in old(files) ==> k in WayTo(path) && files[k].Directory?
      ensures ok && path != "" ==> path in files && WayTo(path) <= files.Keys
      ensures ok && path != "" && path !in old(files) ==> files[path].attr.perm <= Perm(perm)
      ensures reliable && Clear(old(files), path) ==> ok
    {
      assert path[..|path|] == path;
      ok := *;
      ok := ok || (reliable && Clear(files, path));
      var made: set<string> := *;
      made := if ok then WayTo(path) else made * WayTo(path);
      var attr: Attr := *;
      if attr.perm > Perm(perm) {
        attr := attr.(perm := Perm(perm));
      }
      files := (map k | k in made :: Directory(attr)) + files;
    }

    method Chown(path: string, owner: Ownership) returns (ok: bool)
      requires path in files
      modifies this
      ensures files == if ok then old(files)[path := old(files)[path].(attr := Chowned(old(files)[path].attr, owner))]
                       else old(files)
      ensures reliable ==> ok
    {
      ok := *;
      ok := ok || reliable;
      if ok {
        files := files[path := files[path].(attr := Chowned(files[path].attr, owner))];
      }
    }

    method Chmod(path: string, perm: nat) returns (ok: bool)
      requires path in files
      modifies this
      ensures files == if ok then old(files)[path := old(files)[path].(attr := old(files)[path].attr.(perm := perm))]
                       else old(files)
      ensures reliable ==> ok
    {
      ok := *;
      ok := ok || reliable;
      if ok {
        files := files[path := files[path].(attr := files[path].attr.(perm := perm))];
      }
    }

    /** os.Rename of a directory: an empty directory in its way is replaced, anything else is not */
    method Rename(path: string, to: string) returns (ok: bool)
      modifies this
      ensures ok ==> path in old(files) && !AtOrBelow(path, to)
                     && (to in old(files) ==> old(files)[to].Directory?)
                     && FreeFor(old(files) - {to}, path, to)
                     && files == Renamed(old(files) - {to}, path, to)
      ensures !ok ==> files == old(files)
      ensures reliable && FreeFor(old(files), path, to) ==> ok
    {
      ok := *;
      ok := (ok || reliable) && path in files && !AtOrBelow(path, to) && path != to
            && (to in files ==> files[to].Directory?) && forall k :: k in files && k != to ==> !AtOrBelow(to, k);
      if ok {
        files := Renamed(files - {to}, path, to);
      }
    }

    /** os.RemoveAll: the whole subtree, or part of it when it fails */
    method RemoveAll(path: string) returns (ok: bool)
      modifies this
      ensures ok ==> files == Without(old(files), path)
      ensures Without(files, path) == Without(old(files), path)
      ensures forall k :: k in files ==> k in old(files) && files[k] == old(files)[k]
      ensures reliable ==> ok
    {
      ok := *;
      ok := ok || reliable;
      var lost: set<string> := *;
      files := map k | k in files && !(AtOrBelow(path, k) && (ok || k in lost)) :: files[k];
      assert ok ==> files == Without(old(files), path);
    }
  }

  datatype DirOptions = DirOptions(
    adoptExisting: bool, name: string, mountPath: string, hostPrefix: string, quotaBytes: int,
    owner: Option<Ownership>, mode: Option<nat>)

  function TargetPath(mountPath: string, name: string): string {
    if mountPath == "" then name else mountPath
  }

  /** Where the host keeps the directory; trailing slashes and the like do not matter to it. */
  function HostPath(hostPrefix: string, target: string): string {
    if hostPrefix != "" && target != "" then JoinPath(hostPrefix, target) else Clean(target)
  }

  const DEFAULT_PERM: nat := 0x1e8

  /** What creation leaves at the path, when no chown or chmod had to be given up on */
  ghost predicate Made(e: DirEntry, owner: Option<Ownership>, mode: Option<nat>) {
    && e.Directory?
    && (if mode.Some? then e.attr.perm == Perm(mode.value) else e.attr.perm <= 0x1e8)
    && (owner.Some? && Id32(owner.value.uid) != UNCHANGED ==> e.attr.uid == Id32(owner.value.uid))
    && (owner.Some? && Id32(owner.value.gid) != UNCHANGED ==> e.attr.gid == Id32(owner.value.gid))
  }

  method Create(fs: HostFs, opts: DirOptions) returns (r: Result<string, DirError>, warned: bool)
    modifies fs
    ensures opts.quotaBytes > 0 ==> r == Err(QuotaUnsupported)
    ensures opts.quotaBytes <= 0 && TargetPath(opts.mountPath, opts.name) == "" ==> r == Err(EmptyPath)
    ensures var path := HostPath(opts.hostPrefix, TargetPath(opts.mountPath, opts.name));
            && (forall k :: k in old(fs.files) ==> k in fs.files && fs.files[k] == old(fs.files)[k])
            && (forall k :: k in fs.files && k !in old(fs.files) ==> k in WayTo(path) && fs.files[k].Directory?)
            && (r.Err? && r.error != MkdirFailed ==> fs.files == old(fs.files))
            && (r.Ok? ==> r.value == TargetPath(opts.mountPath, opts.name) && path in fs.files)
            && (r.Ok? && path in old(fs.files) ==> opts.adoptExisting && fs.files == old(fs.files))
            && (r.Ok? && path !in old(fs.files) && !warned ==> Made(fs.files[path], opts.owner, opts.mode))
            && (fs.reliable ==> !warned)
            && (fs.reliable && opts.quotaBytes <= 0 && TargetPath(opts.mountPath, opts.name) != "" ==>
                  if path in old(fs.files) then r.Ok? <==> opts.adoptExisting
                  else Clear(old(fs.files), path) ==> r.Ok?)
  {
    warned := false;
    if opts.quotaBytes > 0 {
      return Err(QuotaUnsupported), false;
    }
    var target := TargetPath(opts.mountPath, opts.name);
    if target == "" {
      return Err(EmptyPath), false;
    }
    var path := HostPath(opts.hostPrefix, target);
    CleanNotEmpty(if opts.hostPrefix != "" then opts.hostPrefix + "/" + target else target);
    var found := fs.Stat(path);
    if found.None? {
      return Err(DirError.StatFailed), false;
    }
    if found.value {
      return if opts.adoptExisting then Ok(target) else Err(AlreadyExists), false;
    }
    var ok := fs.MkdirAll(path, if opts.mode.Some? then opts.mode.value else DEFAULT_PERM);
    if !ok {
      return Err(MkdirFailed), false;
    }
    assert path in WayTo(path) by {
      assert path[..|path|] == path;
    }
    if opts.owner.Some? {
      var chowned := fs.Chown(path, opts.owner.value);
      warned := warned || !chowned;
    }
    if opts.mode.Some? {
      var chmodded := fs.Chmod(path, Perm(opts.mode.value));
      warned := warned || !chmodded;
    }
    r := Ok(target);
  }

  function BackupPath(path: string, now: nat): string {
    TrimSuffix(path, '/') + "-deleted-" + FormatNat(now)
  }

  method Delete(fs: HostFs, mountPath: string, name: string, hostPrefix: string, snapshotBeforeDelete: bool, now: nat)
    returns (r: Result<(), DirError>, warned: bool)
    modifies fs
    ensures TargetPath(mountPath, name) == "" ==> r == Err(EmptyPath) && fs.files == old(fs.files)
    ensures TargetPath(mountPath, name) != "" ==>
              var path := HostPath(hostPrefix, TargetPath(mountPath, name));
              var backup := BackupPath(path, now);
              && (r.Ok? ==> path !in fs.files)
              && (r == Err(DirError.StatFailed) || path !in old(fs.files) ==> fs.files == old(fs.files))
              && (path in old(fs.files) && r != Err(DirError.StatFailed) ==>
                    if snapshotBeforeDelete && !warned
                    then r.Ok? && FreeFor(old(fs.files) - {backup}, path, backup)
                         && fs.files == Renamed(old(fs.files) - {backup}, path, backup)
                    else && (r.Ok? ==> fs.files == Without(old(fs.files), path))
                         && Without(fs.files, path) == Without(old(fs.files), path)
                         && (forall k :: k in fs.files ==> k in old(fs.files) && fs.files[k] == old(fs.files)[k]))
    ensures warned ==> snapshotBeforeDelete
    ensures fs.reliable && TargetPath(mountPath, name) != "" ==>
              var path := HostPath(hostPrefix, TargetPath(mountPath, name));
              r.Ok? && (FreeFor(old(fs.files), path, BackupPath(path, now)) ==> !warned)
  {
    warned := false;
    var target := TargetPath(mountPath, name);
    if target == "" {
      return Err(EmptyPath), false;
    }
    var path := HostPath(hostPrefix, target);
    var found := fs.Stat(path);
    if found.None? {
      return Err(DirError.StatFailed), false;
    }
    if !found.value {
      return Ok(()), false;
    }
    if snapshotBeforeDelete {
      var backup := BackupPath(path, now);
      var preserved := fs.Rename(path, backup);
      if preserved {
        RenameKeeps(old(fs.files) - {backup}, path, backup);
        return Ok(()), false;
      }
      warned := true;
    }
    var ok := fs.RemoveAll(path);
    return if ok then Ok(()) else Err(RemoveFailed), warned;
  }

  /** The directory a live pass goes to: unlike a dataset's, it is never called "none" or "legacy" */
  function LivePlace(root: Option<Node>, mountPath: string): Option<Node> {
    if mountPath == "" then None else root
  }

  /** ReconcileOwnerMode; `tree` is the directory found at the volume's host path. */
  method ReconcileOwnerMode(tree: HostTree, mountPath: string, wish: Wish, recursive: bool, dryRun: bool)
    returns (r: Result<seq<OwnerChange>, OwnerModeError>)
    requires tree.Valid()
    modifies tree
    ensures tree.Valid()
    ensures tree.reliable ==> r.Ok?
    ensures var place := LivePlace(tree.root, mountPath);
            && (dryRun || place.None? ==> tree.attrs == old(tree.attrs) && tree.mutations == old(tree.mutations))
            && (r.Ok? ==> r.value == TreeChanges(old(tree.attrs), place, wish, recursive, dryRun))
            && (r.Ok? && !dryRun ==> tree.attrs == TreeAfter(old(tree.attrs), place, wish, recursive))
            && (r.Ok? && r.value == [] ==> tree.mutations == old(tree.mutations))
            && (r.Err? && place.Some? ==> PartlyFixed(old(tree.attrs), tree.attrs, Scope(place.value, recursive), wish))
  {
    if wish.owner == None && wish.mode == None {
      NothingDeclared(tree.attrs, LivePlace(tree.root, mountPath), recursive, dryRun);
      return Ok([]);
    }
    if mountPath == "" {
      return Ok([]);
    }
    r := ReconcileOwnerModeAtPath(tree, wish, recursive, dryRun);
  }
}
