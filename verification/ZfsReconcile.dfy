/** pkg/driver/zfs/zfs.go:220-248, 308-390: bringing quota and properties of a live dataset to the desired ones. */
module ZfsReconcile {
  import opened Wrappers
  import opened Decimal
  import opened ZfsText
  import opened Dataset
  import opened ZfsHosts

  /** Why quota or properties were not reconciled; Unsupported is what a driver without them says. */
  datatype ZfsError = ReadFailed | UnreadableQuota | SetFailed(key: string) | InheritFailed(key: string) | Unsupported

  // ---- Quota ------------------------------------------------------------------------------

  /** "quota=1G→5G", or "quota=1G→none" */
  datatype QuotaChange = QuotaChange(was: nat, becomes: Option<int>)

  /** The quota a wish stands for: none is the same as 0. */
  function QuotaMeant(want: Option<int>): int {
    if want.None? then 0 else want.value
  }

  function QuotaChanges(quota: nat, want: Option<int>): seq<QuotaChange> {
    if quota == QuotaMeant(want) then [] else [QuotaChange(quota, want)]
  }

  /** runZfsSet for the quota */
  method RunZfsSetQuota(zfs: ZfsHost, dryRun: bool, name: string, quota: int) returns (ok: bool)
    requires zfs.Valid()
    modifies zfs`pool, zfs`mutations
    ensures zfs.Valid()
    ensures dryRun ==> ok
    ensures dryRun || !ok ==> zfs.pool == old(zfs.pool) && zfs.mutations == old(zfs.mutations)
    ensures zfs.reliable && name in old(zfs.pool) && quota >= 0 ==> ok
    ensures !dryRun && ok ==>
              && name in old(zfs.pool) && quota >= 0 && zfs.mutations == old(zfs.mutations) + 1
              && zfs.pool == old(zfs.pool)[name := old(zfs.pool)[name].(quota := quota)]
  {
    if dryRun {
      return true;
    }
    ok := zfs.SetQuota(name, quota);
  }

  method ReconcileQuota(zfs: ZfsHost, name: string, quotaBytes: Option<int>, dryRun: bool)
    returns (r: Result<seq<QuotaChange>, ZfsError>)
    requires zfs.Valid()
    modifies zfs`pool, zfs`mutations
    ensures zfs.Valid()
    ensures r.Ok? ==>
              && name in old(zfs.pool) && old(zfs.pool)[name].quota < INT64_LIMIT
              && r.value == QuotaChanges(old(zfs.pool)[name].quota, quotaBytes)
    ensures r.Ok? && !dryRun ==>
              && QuotaMeant(quotaBytes) >= 0
              && zfs.pool == old(zfs.pool)[name := old(zfs.pool)[name].(quota := QuotaMeant(quotaBytes))]
              && zfs.mutations == old(zfs.mutations) + |r.value|
    ensures r.Err? || dryRun ==> zfs.pool == old(zfs.pool) && zfs.mutations == old(zfs.mutations)
    ensures r.Err? && name in zfs.pool && zfs.pool[name].quota >= INT64_LIMIT ==> r.error in {ReadFailed, UnreadableQuota}
    ensures zfs.reliable && name in old(zfs.pool) && old(zfs.pool)[name].quota < INT64_LIMIT ==>
              (dryRun || QuotaMeant(quotaBytes) >= 0 ==> r.Ok?)
  {
    var out := zfs.GetQuota(name);
    if out.None? {
      return Err(ReadFailed);
    }
    QuotaReadback(zfs.pool[name].quota);
    var parsed := ParseZfsQuota(out.value);
    if parsed.None? {
      return Err(UnreadableQuota);
    }
    var current := parsed.value;
    if quotaBytes.None? {
      if current == 0 {
        return Ok([]);
      }
      var ok := RunZfsSetQuota(zfs, dryRun, name, 0);
      return if ok then Ok([QuotaChange(current, None)]) else Err(SetFailed("quota"));
    }
    if current == quotaBytes.value {
      return Ok([]);
    }
    var ok := RunZfsSetQuota(zfs, dryRun, name, quotaBytes.value);
    return if ok then Ok([QuotaChange(current, quotaBytes)]) else Err(SetFailed("quota"));
  }

  // ---- Properties ---------------------------------------------------------------------------

  method RunZfsSet(zfs: ZfsHost, dryRun: bool, name: string, k: string, v: string) returns (ok: bool)
    requires zfs.Valid()
    modifies zfs`pool, zfs`mutations
    ensures zfs.Valid()
    ensures dryRun ==> ok
    ensures zfs.reliable && name in old(zfs.pool) && Settable(zfs.canon, k, v) ==> ok
    ensures dryRun || !ok ==> zfs.pool == old(zfs.pool) && zfs.mutations == old(zfs.mutations)
    ensures !dryRun && ok ==>
              && name in old(zfs.pool) && zfs.mutations == old(zfs.mutations) + 1
              && zfs.pool == old(zfs.pool)[name :=
                   old(zfs.pool)[name].(local := old(zfs.pool)[name].local[k := zfs.canon(k, v)])]
  {
    if dryRun {
      return true;
    }
    ok := zfs.Set(name, k, v);
  }

  method RunZfsInherit(zfs: ZfsHost, dryRun: bool, name: string, k: string) returns (ok: bool)
    requires zfs.Valid()
    modifies zfs`pool, zfs`mutations
    ensures zfs.Valid()
    ensures dryRun ==> ok
    ensures zfs.reliable && name in old(zfs.pool) ==> ok
    ensures dryRun || !ok ==> zfs.pool == old(zfs.pool) && zfs.mutations == old(zfs.mutations)
    ensures !dryRun && ok ==>
              && name in old(zfs.pool) && zfs.mutations == old(zfs.mutations) + 1
              && zfs.pool == old(zfs.pool)[name :=
                   old(zfs.pool)[name].(local := old(zfs.pool)[name].local - {k})]
  {
    if dryRun {
      return true;
    }
    ok := zfs.Inherit(name, k);
  }

  /** Dropping what is neither a user property nor safe to change live */
  method FilterProps(props: map<string, string>) returns (desired: map<string, string>)
    ensures desired == Desired(props)
  {
    desired := map[];
    var left := props.Keys;
    while left != {}
      invariant left <= props.Keys
      invariant desired == map k | k in props && k !in left && Managed(k) :: props[k]
    {
      var k :| k in left;
      left := left - {k};
      if ':' in k || k in RECONCILABLE {
        desired := desired[k := props[k]];
      }
    }
  }

  /** A pass over one dataset: where it began, and what it is to do. */
  datatype Pass = Pass(
    pool0: map<string, Dataset>, mutations0: nat, canon: Canon, name: string,
    cur: map<string, PropValue>, want: map<string, string>, drift: set<string>, dryRun: bool)
  {
    /** The pass the code is in the middle of */
    predicate Fits(onto: string, desired: map<string, string>, current: map<string, PropValue>, dry: bool) {
      name == onto && cur == current && want == desired && dryRun == dry && drift == Drift(cur, want)
    }

    /** The commands for these keys went through in this order, and no others. */
    ghost predicate Stands(zfs: ZfsHost, order: seq<string>)
      reads zfs
    {
      && name in pool0 && zfs.Valid() && zfs.canon == canon
      && zfs.pool == (if dryRun then pool0 else pool0[name := Commands(pool0[name], canon, want, order)])
      && zfs.mutations == mutations0 + if dryRun then 0 else |order|
    }

    /** All the keys seen so far have had their turn. */
    ghost predicate Progress(zfs: ZfsHost, changes: seq<PropChange>, order: seq<string>, seen: set<string>)
      reads zfs
    {
      Stands(zfs, order) && Lists(order, seen * drift) && changes == Summary(cur, want, order)
    }

    /** The error names the drifting key whose command failed; nothing is inherited before all is set. */
    ghost predicate Blames(e: ZfsError, order: seq<string>) {
      match e
      case SetFailed(k) => k in drift && k in want && k !in order && forall k' :: k' in order ==> k' in want
      case InheritFailed(k) => k in drift && k !in want && k !in order && forall k' :: k' in drift && k' in want ==> k' in order
      case _ => false
    }

    /** A command failed, with some of the drift still to repair. */
    ghost predicate CutOff(zfs: ZfsHost, failed: Option<ZfsError>, order: seq<string>)
      reads zfs
    {
      && Stands(zfs, order) && failed.Some? && Blames(failed.value, order)
      && exists done :: Lists(order, done) && done < drift
    }
  }

  lemma TurnTaken(order: seq<string>, seen: set<string>, drift: set<string>, k: string)
    requires Lists(order, seen * drift) && k !in seen
    ensures if k in drift
            then Lists(order + [k], (seen + {k}) * drift) && seen * drift < drift
            else Lists(order, (seen + {k}) * drift)
  {
    forall i | 0 <= i < |order|
      ensures order[i] != k
    {
      assert order[i] in order && order[i] in seen * drift;
    }
    assert forall k' :: k' in order + [k] <==> k' in order || k' == k;
    assert k in drift ==> k !in seen * drift;
  }

  /** The turn of one desired property */
  method SetKey(zfs: ZfsHost, ghost pass: Pass, name: string, k: string,
                desired: map<string, string>, current: map<string, PropValue>, dryRun: bool,
                before: seq<PropChange>, ghost order0: seq<string>, ghost seen: set<string>)
    returns (changes: seq<PropChange>, failed: Option<ZfsError>, ghost order: seq<string>)
    requires pass.Fits(name, desired, current, dryRun) && k in desired && k !in seen && seen <= desired.Keys
    requires pass.Progress(zfs, before, order0, seen)
    modifies zfs`pool, zfs`mutations
    ensures zfs.reliable && Settable(zfs.canon, k, desired[k]) ==> failed.None?
    ensures if failed.None? then pass.Progress(zfs, changes, order, seen + {k}) else pass.CutOff(zfs, failed, order)
  {
    changes, failed, order := before, None, order0;
    TurnTaken(order, seen, pass.drift, k);
    if k in current && current[k].value == desired[k] {
      return;
    }
    var ok := RunZfsSet(zfs, dryRun, name, k, desired[k]);
    if !ok {
      return changes, Some(SetFailed(k)), order;
    }
    changes := changes + [PropSet(k, if k in current then Some(current[k].value) else None, desired[k])];
    order := order + [k];
  }

  /** The turn of one property the dataset has */
  method InheritKey(zfs: ZfsHost, ghost pass: Pass, name: string, k: string,
                    desired: map<string, string>, current: map<string, PropValue>, dryRun: bool,
                    before: seq<PropChange>, ghost order0: seq<string>, ghost seen: set<string>)
    returns (changes: seq<PropChange>, failed: Option<ZfsError>, ghost order: seq<string>)
    requires pass.Fits(name, desired, current, dryRun) && k in current && k !in seen && desired.Keys <= seen
    requires pass.Progress(zfs, before, order0, seen)
    modifies zfs`pool, zfs`mutations
    ensures zfs.reliable ==> failed.None?
    ensures if failed.None? then pass.Progress(zfs, changes, order, seen + {k}) else pass.CutOff(zfs, failed, order)
  {
    changes, failed, order := before, None, order0;
    TurnTaken(order, seen, pass.drift, k);
    if !IsLocallySet(current[k].source) {
      return;
    }
    if ':' !in k && k !in RECONCILABLE {
      return;
    }
    var ok := RunZfsInherit(zfs, dryRun, name, k);
    if !ok {
      return changes, Some(InheritFailed(k)), order;
    }
    changes := changes + [PropInherit(k, current[k].value)];
    order := order + [k];
  }

  /** The loop over the desired properties, in any order */
  method SetAll(zfs: ZfsHost, ghost pass: Pass, name: string, desired: map<string, string>,
                current: map<string, PropValue>, dryRun: bool)
    returns (changes: seq<PropChange>, failed: Option<ZfsError>, ghost order: seq<string>)
    requires pass.Fits(name, desired, current, dryRun) && pass.Progress(zfs, [], [], {})
    modifies zfs`pool, zfs`mutations
    ensures zfs.reliable && AllSettable(zfs.canon, desired) ==> failed.None?
    ensures if failed.None? then pass.Progress(zfs, changes, order, desired.Keys) else pass.CutOff(zfs, failed, order)
  {
    changes, failed, order := [], None, [];
    var left := desired.Keys;
    ghost var seen: set<string> := {};
    while left != {} && failed.None?
      invariant seen !! left && seen + left == desired.Keys
      invariant if failed.None? then pass.Progress(zfs, changes, order, seen) else pass.CutOff(zfs, failed, order)
      invariant zfs.reliable && AllSettable(zfs.canon, desired) ==> failed.None?
      decreases left
    {
      var k :| k in left;
      changes, failed, order := SetKey(zfs, pass, name, k, desired, current, dryRun, changes, order, seen);
      left, seen := left - {k}, seen + {k};
    }
    assert left == {} ==> seen == desired.Keys;
  }

  /** The loop over the properties the dataset has, in any order */
  method InheritAll(zfs: ZfsHost, ghost pass: Pass, name: string, desired: map<string, string>,
                    current: map<string, PropValue>, dryRun: bool, before: seq<PropChange>, ghost order0: seq<string>)
    returns (changes: seq<PropChange>, failed: Option<ZfsError>, ghost order: seq<string>)
    requires pass.Fits(name, desired, current, dryRun) && pass.Progress(zfs, before, order0, desired.Keys)
    modifies zfs`pool, zfs`mutations
    ensures zfs.reliable ==> failed.None?
    ensures if failed.None? then pass.Progress(zfs, changes, order, desired.Keys + current.Keys)
            else pass.CutOff(zfs, failed, order)
  {
    changes, failed, order := before, None, order0;
    var left := current.Keys;
    ghost var seen := desired.Keys;
    while left != {} && failed.None?
      invariant left <= current.Keys && seen == desired.Keys + (current.Keys - left)
      invariant if failed.None? then pass.Progress(zfs, changes, order, seen) else pass.CutOff(zfs, failed, order)
      invariant zfs.reliable ==> failed.None?
      decreases left
    {
      var k :| k in left;
      left := left - {k};
      if k in desired {
        continue;
      }
      changes, failed, order := InheritKey(zfs, pass, name, k, desired, current, dryRun, changes, order, seen);
      seen := seen + {k};
    }
    assert left == {} ==> seen == desired.Keys + current.Keys;
  }

  /** A pass over the dataset as it is at the start */
  function PassOn(pool: map<string, Dataset>, mutations: nat, canon: Canon, name: string, props: map<string, string>,
                  dryRun: bool): Pass
    requires name in pool
  {
    var cur, want := Current(pool[name]), Desired(props);
    Pass(pool, mutations, canon, name, cur, want, Drift(cur, want), dryRun)
  }

  /** How a pass ended: all of the drift repaired and reported, or cut off before its end. */
  ghost predicate Ended(cur: map<string, PropValue>, want: map<string, string>, r: Result<seq<PropChange>, ZfsError>,
                        order: seq<string>) {
    match r
    case Ok(changes) => Lists(order, Drift(cur, want)) && changes == Summary(cur, want, order)
    case Err(e) => if e == ReadFailed then order == [] else exists done :: Lists(order, done) && done < Drift(cur, want)
  }

  /**
   * Setting what differs, then inheriting what is no longer wanted. `order` names the drifting
   * keys whose command went through (or, in a dry run, would have been issued).
   */
  method ReconcileProperties(zfs: ZfsHost, name: string, props: map<string, string>, dryRun: bool)
    returns (r: Result<seq<PropChange>, ZfsError>, ghost order: seq<string>)
    requires zfs.Valid()
    modifies zfs`pool, zfs`mutations
    ensures zfs.Valid()
    ensures name in old(zfs.pool) ==>
              var pass := PassOn(old(zfs.pool), old(zfs.mutations), zfs.canon, name, props, dryRun);
              && pass.Stands(zfs, order) && Ended(pass.cur, pass.want, r, order)
              && (r.Err? && r.error != ReadFailed ==> pass.Blames(r.error, order))
    ensures name !in old(zfs.pool) ==> r.Err? && zfs.pool == old(zfs.pool) && zfs.mutations == old(zfs.mutations)
    ensures zfs.reliable && name in old(zfs.pool) && AllSettable(zfs.canon, Desired(props)) ==> r.Ok?
  {
    order := [];
    var desired := FilterProps(props);
    var out := zfs.GetAll(name);
    if out.None? {
      return Err(ReadFailed), [];
    }
    var current := ParseProps(out.value);
    ghost var pass := PassOn(zfs.pool, zfs.mutations, zfs.canon, name, props, dryRun);
    var changes, failed;
    changes, failed, order := SetAll(zfs, pass, name, desired, current, dryRun);
    if failed.Some? {
      return Err(failed.value), order;
    }
    changes, failed, order := InheritAll(zfs, pass, name, desired, current, dryRun, changes, order);
    if failed.Some? {
      return Err(failed.value), order;
    }
    assert (desired.Keys + current.Keys) * pass.drift == pass.drift;
    r := Ok(changes);
  }
}
