/**
 * The zfs command as the driver uses it: a pool of datasets and operations that may fail.
 * A command that fails leaves the pool alone, except a recursive destroy, which may have
 * removed part of what it was after.
 */
module ZfsHosts {
  import opened Wrappers
  import opened Strings
  import opened ZfsText
  import opened Dataset
  import opened Subtrees

  /** zfs accepts the setting, and prints it on one line. */
  predicate Settable(canon: Canon, k: string, v: string) {
    Word(k) && '\n' !in canon(k, v)
  }

  /** zfs refuses none of the settings. */
  predicate AllSettable(canon: Canon, want: map<string, string>) {
    forall k :: k in want ==> Settable(canon, k, want[k])
  }

  /** A dataset just made with the given options */
  function NewDataset(canon: Canon, quota: nat, props: map<string, string>, inherited: map<string, Setting>): Dataset {
    Dataset(quota, map k | k in props :: canon(k, props[k]), inherited)
  }

  lemma RenamedWellFormed(pool: map<string, Dataset>, name: string, to: string)
    requires forall k :: k in pool ==> WellFormed(pool[k])
    ensures forall k :: k in Renamed(pool, name, to) ==> WellFormed(Renamed(pool, name, to)[k])
  {
    MovedInjectiveAll(name, to);
    forall k | k in Relocated(pool, name, to)
      ensures WellFormed(Relocated(pool, name, to)[k])
    {
      var k' :| k' in pool && AtOrBelow(name, k') && Moved(name, to, k') == k;
      assert Relocated(pool, name, to)[k] == pool[k'];
    }
  }

  class ZfsHost {
    const canon: Canon
    /** What a dataset of a given name inherits, or has by default */
    const inherits: string -> map<string, Setting>
    /** No command fails, unless zfs refuses what it asks for. */
    const reliable: bool
    var pool: map<string, Dataset>
    /** How many commands that change the pool have succeeded */
    var mutations: nat

    ghost predicate Valid()
      reads this
    {
      && (forall name :: name in pool ==> WellFormed(pool[name]))
      && (forall name :: WellFormed(Dataset(0, map[], inherits(name))))
    }

    constructor (canon: Canon, inherits: string -> map<string, Setting>, reliable: bool, pool: map<string, Dataset>)
      requires forall name :: name in pool ==> WellFormed(pool[name])
      requires forall name :: WellFormed(Dataset(0, map[], inherits(name)))
      ensures Valid() && this.canon == canon && this.inherits == inherits && this.reliable == reliable
      ensures this.pool == pool && mutations == 0
    {
      this.canon, this.inherits, this.reliable, this.pool, mutations := canon, inherits, reliable, pool, 0;
    }

    /** `zfs list`: fails only when the dataset is absent */
    method List(name: string) returns (ok: bool)
      ensures ok == (name in pool)
    {
      ok := name in pool;
    }

    /** `zfs get -H -o property,value,source all`, in whatever order */
    method GetAll(name: string) returns (out: Option<string>)
      requires Valid()
      ensures out.Some? ==> name in pool && PropTable(out.value) == Current(pool[name])
      ensures reliable && name in pool ==> out.Some?
    {
      var fails: bool := *;
      if (fails && !reliable) || name !in pool {
        return None;
      }
      var order: seq<string> := [];
      var left := Names(pool[name]);
      while left != {}
        invariant left <= Names(pool[name])
        invariant forall k :: k in order <==> k in Names(pool[name]) - left
      {
        var k :| k in left;
        order, left := order + [k], left - {k};
      }
      ReadDataset(pool[name], order);
      out := Some(PrintTable(Rows(pool[name], order)));
    }

    /** `zfs get -H -p -o value quota` */
    method GetQuota(name: string) returns (out: Option<string>)
      ensures out.Some? ==> name in pool && out.value == QuotaText(pool[name].quota)
      ensures reliable && name in pool ==> out.Some?
    {
      var fails: bool := *;
      out := if (fails && !reliable) || name !in pool then None else Some(QuotaText(pool[name].quota));
    }

    /** `zfs get -H -o value mountpoint` */
    method GetMountpoint(name: string) returns (out: Option<string>)
      ensures out.Some? ==>
                name in pool && "mountpoint" in Names(pool[name]) && out.value == RowOf(pool[name], "mountpoint").value + "\n"
      ensures reliable && name in pool && "mountpoint" in Names(pool[name]) ==> out.Some?
    {
      var fails: bool := *;
      out := if (fails && !reliable) || name !in pool || "mountpoint" !in Names(pool[name]) then None
             else Some(RowOf(pool[name], "mountpoint").value + "\n");
    }

    /** `zfs set k=v` */
    method Set(name: string, k: string, v: string) returns (ok: bool)
      requires Valid()
      modifies this`pool, this`mutations
      ensures Valid()
      ensures ok ==> name in old(pool) && Settable(canon, k, v)
                     && pool == old(pool)[name := old(pool)[name].(local := old(pool)[name].local[k := canon(k, v)])]
      ensures !ok ==> pool == old(pool)
      ensures reliable && name in old(pool) && Settable(canon, k, v) ==> ok
      ensures mutations == old(mutations) + if ok then 1 else 0
    {
      ok := *;
      ok := (ok || reliable) && name in pool && Settable(canon, k, v);
      if ok {
        var ds := pool[name].(local := pool[name].local[k := canon(k, v)]);
        assert forall n :: n in Names(ds) ==> n == k || RowOf(ds, n) == RowOf(pool[name], n);
        pool, mutations := pool[name := ds], mutations + 1;
      }
    }

    /** `zfs inherit` of property k on the dataset */
    method Inherit(name: string, k: string) returns (ok: bool)
      requires Valid()
      modifies this`pool, this`mutations
      ensures Valid()
      ensures ok ==> name in old(pool)
                     && pool == old(pool)[name := old(pool)[name].(local := old(pool)[name].local - {k})]
      ensures !ok ==> pool == old(pool)
      ensures reliable && name in old(pool) ==> ok
      ensures mutations == old(mutations) + if ok then 1 else 0
    {
      ok := *;
      ok := (ok || reliable) && name in pool;
      if ok {
        var ds := pool[name].(local := pool[name].local - {k});
        assert forall n :: n in Names(ds) ==> n in Names(pool[name]);
        assert forall n :: n in Names(ds) && n in ds.local ==> RowOf(ds, n) == RowOf(pool[name], n);
        pool, mutations := pool[name := ds], mutations + 1;
      }
    }

    /** `zfs set quota=...`: a negative size is refused; 0 and "none" are the same */
    method SetQuota(name: string, quota: int) returns (ok: bool)
      requires Valid()
      modifies this`pool, this`mutations
      ensures Valid()
      ensures ok ==> name in old(pool) && quota >= 0
                     && pool == old(pool)[name := old(pool)[name].(quota := quota)]
      ensures !ok ==> pool == old(pool)
      ensures reliable && name in old(pool) && quota >= 0 ==> ok
      ensures mutations == old(mutations) + if ok then 1 else 0
    {
      ok := *;
      ok := (ok || reliable) && name in pool && quota >= 0;
      if ok {
        var ds := pool[name].(quota := quota);
        assert Names(ds) == Names(pool[name]);
        assert forall n :: n in Names(ds) ==> RowOf(ds, n) == RowOf(pool[name], n);
        pool, mutations := pool[name := ds], mutations + 1;
      }
    }

    /** `zfs create -p`: succeeds without effect when the dataset is there already */
    method CreateDataset(name: string, quota: int, props: map<string, string>) returns (ok: bool)
      requires Valid()
      modifies this`pool, this`mutations
      ensures Valid()
      ensures ok && name in old(pool) ==> pool == old(pool)
      ensures ok && name !in old(pool) ==>
                && name in pool && pool == old(pool)[name := pool[name]]
                && (forall k :: k in props ==> Settable(canon, k, props[k]))
                && pool[name] == NewDataset(canon, pool[name].quota, props, inherits(name))
                && ("quota" !in props ==> pool[name].quota == if quota > 0 then quota else 0)
      ensures !ok ==> pool == old(pool)
      ensures reliable && (forall k :: k in props ==> Settable(canon, k, props[k])) ==> ok
      ensures mutations == old(mutations) + if ok then 1 else 0
    {
      ok := *;
      ok := (ok || reliable) && forall k :: k in props ==> Settable(canon, k, props[k]);
      if ok {
        mutations := mutations + 1;
        if name !in pool {
          var size: nat := if quota > 0 then quota else 0;
          if "quota" in props {
            size := *;
          }
          var ds := NewDataset(canon, size, props, inherits(name));
          assert forall k :: k in Names(ds) && k !in ds.local ==>
              RowOf(ds, k) == RowOf(Dataset(0, map[], inherits(name)), k);
          pool := pool[name := ds];
        }
      }
    }

    /** `zfs rename`: the whole subtree moves to a free name */
    method Rename(name: string, to: string) returns (ok: bool)
      requires Valid()
      modifies this`pool, this`mutations
      ensures Valid()
      ensures ok ==> FreeFor(old(pool), name, to) && pool == Renamed(old(pool), name, to)
      ensures !ok ==> pool == old(pool)
      ensures reliable && FreeFor(old(pool), name, to) ==> ok
      ensures mutations == old(mutations) + if ok then 1 else 0
    {
      ok := *;
      ok := (ok || reliable) && name in pool && !AtOrBelow(name, to) && forall k :: k in pool ==> !AtOrBelow(to, k);
      if ok {
        RenamedWellFormed(pool, name, to);
        pool, mutations := Renamed(pool, name, to), mutations + 1;
      }
    }

    /** `zfs destroy -r` */
    method Destroy(name: string) returns (ok: bool)
      requires Valid()
      modifies this`pool, this`mutations
      ensures Valid()
      ensures ok ==> pool == Without(old(pool), name)
      ensures !ok ==> (name in pool <==> name in old(pool))
      ensures Without(pool, name) == Without(old(pool), name)
      ensures forall k :: k in pool ==> k in old(pool) && pool[k] == old(pool)[k]
      ensures reliable && name in old(pool) ==> ok
      ensures mutations == old(mutations) + if ok then 1 else 0
    {
      ok := *;
      ok := (ok || reliable) && name in pool;
      if ok {
        pool, mutations := Without(pool, name), mutations + 1;
      } else {
        var lost: set<string> := *;
        pool := map k | k in pool && !(AtOrBelow(name, k) && k != name && k in lost) :: pool[k];
      }
    }
  }
}
