/**
 * Where on the host a volume's directory is: behind the prefix that the host's file system is
 * mounted at, and that nothing outside it is ever made or removed (pkg/driver/dir/dir.go:54-57,
 * 79-102, 114-128, 148-178; pkg/driver/zfs/zfs.go:161-170, 250-262).
 */
module HostPaths {
  import opened Wrappers
  import opened Strings
  import opened Decimal
  import opened Paths
  import opened Subtrees
  import opened PvBuilder
  import opened Claims
  import opened ControllerSpec
  import DirDriver
  import ZfsDriver

  /** A cleaned absolute path other than the root */
  predicate IsPlace(path: string) {
    Rooted(path) && Clean(path) == path && path != "/"
  }

  lemma PlaceComponents(path: string)
    requires IsPlace(path)
    ensures var levels := Components(path);
            levels != [] && Normal(levels, true) && path == "/" + Join(levels, '/') && Split(path, '/') == [""] + levels
  {
    ComponentsNormal(path);
    RenderSplit(Components(path), true);
  }

  /** Behind a prefix the path is the prefix and then the path. */
  lemma JoinedBehind(prefix: string, path: string)
    requires IsPlace(prefix) && IsPlace(path)
    ensures JoinPath(prefix, path) == prefix + path
  {
    PlaceComponents(prefix);
    PlaceComponents(path);
    var top, levels := Components(prefix), Components(path);
    JoinComponents(prefix, path);
    WalkDown(top, levels);
    RenderBehind(top, levels);
  }

  lemma RenderBehind(top: seq<string>, levels: seq<string>)
    requires top != [] && levels != []
    ensures Render(top + levels, true) == ("/" + Join(top, '/')) + ("/" + Join(levels, '/'))
  {
    RenderAppend(top, levels, true);
  }

  lemma WalkDown(top: seq<string>, levels: seq<string>)
    requires Normal(top, true) && Normal(levels, true)
    ensures Walk(top, [""] + levels, true) == top + levels
  {
    assert ([""] + levels)[1..] == levels;
    assert Normal(top + levels, true);
    WalkPushes(top, levels, true);
  }

  /** Where the directory driver finds the directory mounted at a path: behind the prefix, or there where it has none */
  lemma HostPathIs(prefix: string, path: string, name: string)
    requires (prefix == "" || IsPlace(prefix)) && IsPlace(path)
    ensures DirDriver.HostPath(prefix, DirDriver.TargetPath(path, name)) == prefix + path
  {
    if prefix != "" {
      JoinedBehind(prefix, path);
    }
  }

  /** Without a mount path the volume's name is its path. */
  lemma HostPathByName(prefix: string, name: string)
    requires (prefix == "" || IsPlace(prefix)) && IsPlace(name)
    ensures DirDriver.HostPath(prefix, DirDriver.TargetPath("", name)) == prefix + name
  {
    HostPathIs(prefix, name, name);
  }

  /** The zfs driver looks for a dataset's files in the same place, unless zfs says that it is mounted nowhere. */
  lemma EffectivePathIs(prefix: string, path: string)
    requires prefix == "" || IsPlace(prefix)
    ensures IsPlace(path) ==> ZfsDriver.EffectivePath(prefix, path) == Some(prefix + path)
    ensures path in {"", "none", "legacy"} ==> ZfsDriver.EffectivePath(prefix, path) == None
  {
    if IsPlace(path) {
      assert path[0] == '/' && "none"[0] == 'n' && "legacy"[0] == 'l';
      assert path != "none" && path != "legacy";
      if prefix != "" {
        JoinedBehind(prefix, path);
      } else {
        assert prefix + path == path;
      }
    }
  }

  // ---- Nothing outside --------------------------------------------------------------------------------

  /** Every name on the way to a path behind the prefix is on the way to the prefix, or behind it. */
  lemma WayBehind(prefix: string, path: string, k: string)
    requires IsPlace(prefix) && IsPlace(path) && k in DirDriver.WayTo(prefix + path)
    ensures k in DirDriver.WayTo(prefix) || AtOrBelow(prefix, k)
  {
    var whole := prefix + path;
    var i :| 0 < i <= |whole| && (i == |whole| || whole[i] == '/') && k == whole[..i];
    if i < |prefix| {
      assert whole[i] == prefix[i] && k == prefix[..i];
    } else if i == |prefix| {
      assert k == prefix;
    } else {
      assert k[..|prefix|] == prefix && k[|prefix|] == '/';
      assert prefix + "/" <= k;
    }
  }

  lemma BehindIsBelow(prefix: string, path: string, rest: string)
    requires Rooted(path)
    ensures AtOrBelow(prefix, prefix + path + rest)
  {
    assert prefix + path + rest == prefix + "/" + (path[1..] + rest);
  }

  /** The directory driver, given a prefix whose own way is there, makes nothing outside it. */
  lemma MadeBehind(files0: map<string, DirDriver.DirEntry>, files1: map<string, DirDriver.DirEntry>,
                   opts: ZfsDriver.CreateOptions, made: Option<ZfsDriver.VolumeInfo>, warned: bool, k: string)
    requires DirectoryMade(files0, files1, opts, made, warned)
    requires IsPlace(opts.hostPrefix) && IsPlace(opts.mountPath) && DirDriver.WayTo(opts.hostPrefix) <= files0.Keys
    ensures made.Some? ==> opts.hostPrefix + opts.mountPath in files1
    ensures k in files0 ==> k in files1 && files1[k] == files0[k]
    ensures k in files1 && k !in files0 ==> AtOrBelow(opts.hostPrefix, k)
  {
    HostPathIs(opts.hostPrefix, opts.mountPath, opts.name);
    if k in files0 {
      assert (k, files0[k]) in files0.Items;
    } else if k in files1 {
      WayBehind(opts.hostPrefix, opts.mountPath, k);
    }
  }

  lemma BackupBehind(prefix: string, path: string, now: nat)
    requires IsPlace(prefix) && IsPlace(path)
    ensures AtOrBelow(prefix, prefix + path) && AtOrBelow(prefix, DirDriver.BackupPath(prefix + path, now))
    ensures DirDriver.BackupPath(prefix + path, now) == prefix + path + "-deleted-" + FormatNat(now)
  {
    PlaceComponents(path);
    EndsInLevel(Components(path));
    var whole := prefix + path;
    assert whole[|whole| - 1] == path[|path| - 1];
    BehindIsBelow(prefix, path, "");
    assert whole + "" == whole;
    BehindIsBelow(prefix, path, "-deleted-" + FormatNat(now));
    assert whole + "-deleted-" + FormatNat(now) == whole + ("-deleted-" + FormatNat(now));
  }

  lemma {:induction false} EndsInLevel(levels: seq<string>)
    requires levels != [] && Normal(levels, true)
    ensures var path := "/" + Join(levels, '/'); path[|path| - 1] != '/'
  {
    if |levels| == 1 {
      assert Join(levels, '/') == levels[0];
      assert levels[0][|levels[0]| - 1] in levels[0];
    } else {
      assert forall i :: 0 <= i < |levels[1..]| ==> levels[1..][i] == levels[i + 1];
      EndsInLevel(levels[1..]);
    }
  }

  /** Whatever deletion does to a volume mounted behind the prefix, every entry outside the prefix stays as it is. */
  lemma GoneBehind(files0: map<string, DirDriver.DirEntry>, files1: map<string, DirDriver.DirEntry>, prefix: string,
                   pv: PersistentVolume, now: nat, ok: bool, warned: bool)
    requires DirectoryGone(files0, files1, prefix, pv, now, ok, warned)
    requires IsPlace(prefix) && IsPlace(Lookup(pv.annotations, ANN_HOST_MOUNT_PATH))
    ensures ok ==> prefix + Lookup(pv.annotations, ANN_HOST_MOUNT_PATH) !in files1
    ensures Without(files1, prefix) == Without(files0, prefix)
  {
    var mountPath := Lookup(pv.annotations, ANN_HOST_MOUNT_PATH);
    var path, backup := prefix + mountPath, DirDriver.BackupPath(prefix + mountPath, now);
    HostPathIs(prefix, mountPath, Lookup(pv.annotations, ANN_DATASET_NAME));
    BackupBehind(prefix, mountPath, now);
    if path in files0 && PreservationRequested(pv) && !warned && ok {
      RenamedBehind(files0 - {backup}, prefix, path, backup);
      assert Without(files0 - {backup}, prefix) == Without(files0, prefix);
    } else if path in files0 {
      OutsideKept(files0, files1, prefix, path);
    }
  }

  lemma OutsideKept<T>(m: map<string, T>, m': map<string, T>, prefix: string, path: string)
    requires AtOrBelow(prefix, path) && Without(m', path) == Without(m, path)
    ensures Without(m', prefix) == Without(m, prefix)
  {
    forall k | !AtOrBelow(prefix, k)
      ensures k in m <==> k in m'
      ensures k in m ==> m'[k] == m[k]
    {
      if AtOrBelow(path, k) {
        BelowBelow(prefix, path, k);
      }
      assert k in Without(m, path) <==> k in m;
      assert k in Without(m', path) <==> k in m';
    }
  }

  lemma BelowBelow(a: string, b: string, c: string)
    requires AtOrBelow(a, b) && AtOrBelow(b, c)
    ensures AtOrBelow(a, c)
  {
    if b != a && c != b {
      assert (b + "/")[..|a| + 1] == b[..|a| + 1] == a + "/";
      assert c[..|a| + 1] == (b + "/")[..|a| + 1];
    }
  }

  lemma RenamedBehind<T>(m: map<string, T>, prefix: string, path: string, to: string)
    requires FreeFor(m, path, to) && AtOrBelow(prefix, path) && AtOrBelow(prefix, to)
    ensures Without(Renamed(m, path, to), prefix) == Without(m, prefix)
  {
    forall k | !AtOrBelow(prefix, k)
      ensures k in m <==> k in Renamed(m, path, to)
      ensures k in m ==> Renamed(m, path, to)[k] == m[k]
    {
      if AtOrBelow(path, k) {
        BelowBelow(prefix, path, k);
      } else if AtOrBelow(to, k) {
        BelowBelow(prefix, to, k);
      } else {
        RenameSpares(m, path, to, k);
      }
    }
  }

  // ---- Names set aside --------------------------------------------------------------------------------

  /** The time is what comes after the last hyphen. */
  lemma TimeLast(a: string, n: nat)
    ensures var s := a + "-deleted-" + FormatNat(n);
            LastIndexOf(s, '-') == |a| + 8 && s[..|a|] == a && s[|a| + 9..] == FormatNat(n)
  {
    var head, s := a + "-deleted", a + "-deleted-" + FormatNat(n);
    assert s == head + ['-'] + FormatNat(n);
    assert forall c :: c in FormatNat(n) ==> '0' <= c <= '9';
    LastIndexOfAt(head, '-', FormatNat(n));
  }

  lemma LastHyphen(a: string, n: nat, b: string, m: nat)
    requires a + "-deleted-" + FormatNat(n) == b + "-deleted-" + FormatNat(m)
    ensures a == b && n == m
  {
    TimeLast(a, n);
    TimeLast(b, m);
    FormatNatValue(n);
    FormatNatValue(m);
  }

  /** No two volumes, and no two seconds, share a name that a dataset is set aside under. */
  lemma QuarantinesApart(a: string, b: string, now: nat, later: nat)
    ensures ZfsDriver.QuarantineName(a, now) == ZfsDriver.QuarantineName(b, later) ==> a == b && now == later
  {
    if ZfsDriver.QuarantineName(a, now) == ZfsDriver.QuarantineName(b, later) {
      LastHyphen(a, now, b, later);
    }
  }
}
