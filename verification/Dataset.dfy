/**
 * One dataset as the zfs command shows it, the drift between it and a desired set of
 * properties, and what repairing some of that drift does to it
 * (pkg/driver/zfs/zfs.go:184-209, 220-248, 308-364).
 */
module Dataset {
  import opened Wrappers
  import opened Strings
  import opened ZfsText

  /** How zfs prints a value back after `zfs set`: "0700" for recordsize, say, comes back otherwise. */
  type Canon = (string, string) -> string

  /** An effective value the dataset has without having been set on it */
  datatype Setting = Setting(value: string, source: Source)

  datatype Dataset = Dataset(
    quota: nat,
    local: map<string, string>,
    inherited: map<string, Setting>)

  function Names(ds: Dataset): set<string> {
    ds.local.Keys + ds.inherited.Keys
  }

  /** The row zfs prints for a property: the local value hides the inherited one. */
  function RowOf(ds: Dataset, k: string): Row
    requires k in Names(ds)
  {
    if k in ds.local then Row(k, ds.local[k], Local)
    else Row(k, ds.inherited[k].value, ds.inherited[k].source)
  }

  function Rows(ds: Dataset, order: seq<string>): seq<Row>
    requires forall k :: k in order ==> k in Names(ds)
  {
    if order == [] then [] else [RowOf(ds, order[0])] + Rows(ds, order[1..])
  }

  /** zfs can print the dataset, and no inherited setting claims to be local. */
  ghost predicate WellFormed(ds: Dataset) {
    && (forall k :: k in Names(ds) ==> Printable(RowOf(ds, k)))
    && (forall k :: k in ds.inherited ==> Printable(Row(k, ds.inherited[k].value, ds.inherited[k].source)))
    && (forall k :: k in ds.inherited ==> ds.inherited[k].source != Local)
  }

  /** The properties as getProps sees them */
  function Current(ds: Dataset): map<string, PropValue> {
    map k | k in Names(ds) :: ReadRow(RowOf(ds, k).value, RowOf(ds, k).source)
  }

  lemma {:induction false} TableOfRows(ds: Dataset, order: seq<string>)
    requires forall k :: k in order ==> k in Names(ds)
    ensures forall k :: k in TableOf(Rows(ds, order)) <==> k in order
    ensures forall k :: k in order ==> TableOf(Rows(ds, order))[k] == Current(ds)[k]
  {
    if order != [] {
      TableOfRows(ds, order[1..]);
      TableOfOne(ds, order);
      assert forall k :: k in order <==> k == order[0] || k in order[1..];
    }
  }

  lemma TableOfOne(ds: Dataset, order: seq<string>)
    requires order != [] && forall k :: k in order ==> k in Names(ds)
    ensures order[0] in order && order[0] in Current(ds)
    ensures TableOf(Rows(ds, order)) == map[order[0] := Current(ds)[order[0]]] + TableOf(Rows(ds, order[1..]))
  {
    assert order[0] in order;
    assert Rows(ds, order)[1..] == Rows(ds, order[1..]);
    assert Rows(ds, order)[0] == RowOf(ds, order[0]);
  }

  lemma {:induction false} RowsPrintable(ds: Dataset, order: seq<string>)
    requires WellFormed(ds)
    requires forall k :: k in order ==> k in Names(ds)
    ensures forall r :: r in Rows(ds, order) ==> Printable(r)
  {
    if order != [] {
      assert order[0] in Names(ds);
      RowsPrintable(ds, order[1..]);
    }
  }

  /** Whatever order zfs lists the properties in, getProps sees the same map. */
  lemma ReadDataset(ds: Dataset, order: seq<string>)
    requires WellFormed(ds)
    requires forall k :: k in order <==> k in Names(ds)
    ensures PropTable(PrintTable(Rows(ds, order))) == Current(ds)
  {
    RowsPrintable(ds, order);
    TableReadback(Rows(ds, order));
    TableOfRows(ds, order);
  }

  // ---- Drift ------------------------------------------------------------------------------

  const RECONCILABLE: set<string> := {
    "compression", "atime", "relatime", "recordsize", "sync", "logbias", "primarycache",
    "secondarycache", "exec", "setuid", "devices", "readonly", "nbmand", "snapdir", "acltype",
    "aclinherit", "dedup", "checksum", "copies"
  }

  /** A user property, or one of the standard properties that are safe to change live. */
  predicate Managed(k: string) {
    ':' in k || k in RECONCILABLE
  }

  /** The standard properties that README.md:117-121 lists as reconciled live */
  const DOCUMENTED: seq<string> := [
    "compression", "atime", "relatime", "recordsize", "sync", "logbias", "primarycache",
    "secondarycache", "exec", "setuid", "devices", "readonly", "nbmand", "snapdir", "acltype",
    "aclinherit", "dedup", "checksum", "copies"]

  /** The code keeps to the documented list, and takes every name with a colon for a user property. */
  lemma ManagedAsDocumented(k: string)
    ensures Managed(k) <==> k in DOCUMENTED || exists i :: 0 <= i < |k| && k[i] == ':'
  {
  }

  /** What only the creation of a dataset may decide */
  const CREATE_TIME: set<string> := {
    "quota", "refquota", "reservation", "refreservation", "mountpoint", "canmount", "casesensitivity", "encryption"
  }

  lemma CreateTimeUnmanaged(k: string)
    requires k in CREATE_TIME
    ensures !Managed(k)
  {
    NoColon(k);
    assert k[0] in {'q', 'r', 'm', 'c', 'e'};
    assert k !in RECONCILABLE;
  }

  lemma NoColon(k: string)
    requires k in CREATE_TIME
    ensures ':' !in k
  {
  }

  function Desired(props: map<string, string>): map<string, string> {
    map k | k in props && Managed(k) :: props[k]
  }

  /** The pass would touch property k. */
  predicate Drifts(cur: map<string, PropValue>, want: map<string, string>, k: string) {
    if k in want then !(k in cur && cur[k].value == want[k])
    else k in cur && Managed(k) && IsLocallySet(cur[k].source)
  }

  function Drift(cur: map<string, PropValue>, want: map<string, string>): set<string> {
    set k | k in want.Keys + cur.Keys && Drifts(cur, want, k)
  }

  /** One line of a change summary */
  datatype PropChange =
    | PropSet(key: string, was: Option<string>, becomes: string)
    | PropInherit(key: string, from: string)

  /** The change that key k calls for */
  function ChangeFor(cur: map<string, PropValue>, want: map<string, string>, k: string): PropChange {
    if k in want then PropSet(k, if k in cur then Some(cur[k].value) else None, want[k])
    else PropInherit(k, if k in cur then cur[k].value else "")
  }

  /** The change list of a pass that took the given keys in that order */
  function Summary(cur: map<string, PropValue>, want: map<string, string>, order: seq<string>): seq<PropChange> {
    if order == [] then []
    else Summary(cur, want, order[..|order| - 1]) + [ChangeFor(cur, want, order[|order| - 1])]
  }

  predicate NoDuplicates(order: seq<string>) {
    forall i, j :: 0 <= i < j < |order| ==> order[i] != order[j]
  }

  /** The keys of `keys`, each once, in some order */
  ghost predicate Lists(order: seq<string>, keys: set<string>) {
    NoDuplicates(order) && forall k :: k in order <==> k in keys
  }

  // ---- Repair -----------------------------------------------------------------------------

  /** The dataset after the commands for `keys` have succeeded, in whatever order. */
  function Repaired(ds: Dataset, canon: Canon, want: map<string, string>, keys: set<string>): Dataset {
    ds.(local := map k | k in ds.local.Keys + keys && (k in keys ==> k in want) ::
                   if k in keys then canon(k, want[k]) else ds.local[k])
  }

  /** `zfs set` of a desired property, `zfs inherit` of another */
  function Command(ds: Dataset, canon: Canon, want: map<string, string>, k: string): Dataset {
    ds.(local := if k in want then ds.local[k := canon(k, want[k])] else ds.local - {k})
  }

  /** The commands for the keys, in that order */
  function Commands(ds: Dataset, canon: Canon, want: map<string, string>, order: seq<string>): Dataset {
    if order == [] then ds else Command(Commands(ds, canon, want, order[..|order| - 1]), canon, want, order[|order| - 1])
  }

  lemma RepairOneMore(ds: Dataset, canon: Canon, want: map<string, string>, keys: set<string>, k: string)
    ensures Repaired(ds, canon, want, keys + {k}) == Command(Repaired(ds, canon, want, keys), canon, want, k)
  {
  }

  /** Whatever order the commands are issued in, they end in the same dataset. */
  lemma {:induction false} CommandsRepair(ds: Dataset, canon: Canon, want: map<string, string>, order: seq<string>)
    ensures Commands(ds, canon, want, order) == Repaired(ds, canon, want, set k | k in order)
  {
    if order == [] {
      assert Repaired(ds, canon, want, set k | k in order).local == ds.local;
    } else {
      var init, k := order[..|order| - 1], order[|order| - 1];
      CommandsRepair(ds, canon, want, init);
      RepairOneMore(ds, canon, want, (set k' | k' in init), k);
      assert (set k' | k' in order) == (set k' | k' in init) + {k};
    }
  }

  lemma {:induction false} ListSize(order: seq<string>, keys: set<string>)
    requires Lists(order, keys)
    ensures |order| == |keys| && (set k | k in order) == keys
  {
    assert (set k | k in order) == keys;
    if order != [] {
      var init, k := order[..|order| - 1], order[|order| - 1];
      assert k in order;
      assert forall k' :: k' in order <==> k' in init || k' == k;
      ListSize(init, keys - {k});
    }
  }

  /**
   * The command for k leaves nothing to do: the value that was set reads back as desired, or
   * what shows through once k is inherited does not look local.
   */
  predicate Curable(ds: Dataset, canon: Canon, want: map<string, string>, k: string) {
    if k in want then ReadRow(canon(k, want[k]), Local).value == want[k]
    else k in ds.inherited ==> !IsLocallySet(ReadRow(ds.inherited[k].value, ds.inherited[k].source).source)
  }

  /** Those of the keys whose command leaves nothing to do */
  function Cured(ds: Dataset, canon: Canon, want: map<string, string>, keys: set<string>): set<string> {
    set k | k in keys && Curable(ds, canon, want, k)
  }

  /** A value already in the form zfs prints can be cured exactly when it is a single word. */
  lemma CanonicalIsCurable(ds: Dataset, canon: Canon, want: map<string, string>, k: string)
    requires k in want && canon(k, want[k]) == want[k]
    ensures Curable(ds, canon, want, k) <==> Word(want[k])
  {
    ValueReadback(want[k], Local);
  }

  /**
   * A setting that shows through as a single word can be cured unless it is inherited from a
   * dataset whose name begins with "local" or holds a ':'.
   */
  lemma InheritedIsCurable(ds: Dataset, canon: Canon, want: map<string, string>, k: string)
    requires k !in want && k in ds.inherited && Word(ds.inherited[k].value) && !ds.inherited[k].source.Local?
    requires ds.inherited[k].source.InheritedFrom? ==> Word(ds.inherited[k].source.ancestor)
    ensures Curable(ds, canon, want, k) <==>
            (ds.inherited[k].source.InheritedFrom? ==> !IsLocallySet(ds.inherited[k].source.ancestor))
  {
    LocallySetExactly(ds.inherited[k].value, ds.inherited[k].source);
  }

  lemma CurrentAfterRepair(ds: Dataset, canon: Canon, want: map<string, string>, keys: set<string>, k: string)
    ensures var was, now := Current(ds), Current(Repaired(ds, canon, want, keys));
            if k !in keys then (k in now <==> k in was) && (k in now ==> now[k] == was[k])
            else if k in want then k in now && now[k] == ReadRow(canon(k, want[k]), Local)
            else (k in now <==> k in ds.inherited)
                 && (k in now ==> now[k] == ReadRow(ds.inherited[k].value, ds.inherited[k].source))
  {
  }

  /**
   * The drift left after some of it was repaired: exactly what was not repaired, and what was
   * repaired but cannot be cured.
   */
  lemma DriftAfterRepair(ds: Dataset, canon: Canon, want: map<string, string>, keys: set<string>)
    requires keys <= Drift(Current(ds), want)
    ensures Drift(Current(Repaired(ds, canon, want, keys)), want) ==
            Drift(Current(ds), want) - Cured(ds, canon, want, keys)
  {
    var was, now := Current(ds), Current(Repaired(ds, canon, want, keys));
    forall k
      ensures k in Drift(now, want) <==> k in Drift(was, want) && !(k in keys && Curable(ds, canon, want, k))
    {
      CurrentAfterRepair(ds, canon, want, keys, k);
    }
  }

  /** A repair never adds drift, and when it can be cured each successful command removes one key of it. */
  lemma RepairCounts(ds: Dataset, canon: Canon, want: map<string, string>, keys: set<string>)
    requires keys <= Drift(Current(ds), want)
    ensures var left := Drift(Current(Repaired(ds, canon, want, keys)), want);
            && left <= Drift(Current(ds), want)
            && |left| + |Cured(ds, canon, want, keys)| == |Drift(Current(ds), want)|
  {
    DriftAfterRepair(ds, canon, want, keys);
  }

  /** One full pass converges exactly when every drifting key is curable. */
  lemma PassConverges(ds: Dataset, canon: Canon, want: map<string, string>)
    ensures var drift := Drift(Current(ds), want);
            Drift(Current(Repaired(ds, canon, want, drift)), want) == {} <==>
            forall k :: k in drift ==> Curable(ds, canon, want, k)
  {
    var drift := Drift(Current(ds), want);
    DriftAfterRepair(ds, canon, want, drift);
    var cured := Cured(ds, canon, want, drift);
    if drift - cured == {} {
      assert forall k :: k in drift ==> k !in drift - cured;
    }
  }

  /**
   * What a full pass leaves, key by key: desired keys that drifted hold the value that was set,
   * managed keys that are no longer desired and looked local are no longer set, and every other
   * local setting, quota and inherited value is as it was.
   */
  lemma PassPostState(ds: Dataset, canon: Canon, want: map<string, string>, k: string)
    requires forall w :: w in want ==> Managed(w)
    ensures var cur := Current(ds);
            var after := Repaired(ds, canon, want, Drift(cur, want));
            && after.quota == ds.quota && after.inherited == ds.inherited
            && (k in want && Curable(ds, canon, want, k) ==> k in Current(after) && Current(after)[k].value == want[k])
            && (k !in want && Managed(k) && k in cur && IsLocallySet(cur[k].source) ==> k !in after.local)
            && (!Managed(k) ==> (k in after.local <==> k in ds.local) && (k in ds.local ==> after.local[k] == ds.local[k]))
  {
    CurrentAfterRepair(ds, canon, want, Drift(Current(ds), want), k);
  }

  // ---- Repeated passes ----------------------------------------------------------------------

  /** The dataset after passes that each got through the commands for one set of keys. */
  function AfterPasses(ds: Dataset, canon: Canon, want: map<string, string>, passes: seq<set<string>>): Dataset
    decreases |passes|
  {
    if passes == [] then ds
    else AfterPasses(Repaired(ds, canon, want, passes[0]), canon, want, passes[1..])
  }

  /** Each pass repairs part of the drift it finds: all of it when no command fails. */
  predicate PassesFit(ds: Dataset, canon: Canon, want: map<string, string>, passes: seq<set<string>>)
    decreases |passes|
  {
    passes == [] ||
    (&& passes[0] <= Drift(Current(ds), want)
     && PassesFit(Repaired(ds, canon, want, passes[0]), canon, want, passes[1..]))
  }

  function CommandCount(passes: seq<set<string>>): nat {
    if passes == [] then 0 else |passes[0]| + CommandCount(passes[1..])
  }

  predicate DriftCurable(ds: Dataset, canon: Canon, want: map<string, string>) {
    forall k :: k in Drift(Current(ds), want) ==> Curable(ds, canon, want, k)
  }

  lemma PartialPass(ds: Dataset, canon: Canon, want: map<string, string>, keys: set<string>)
    requires keys <= Drift(Current(ds), want) && DriftCurable(ds, canon, want)
    ensures var next := Repaired(ds, canon, want, keys);
            Drift(Current(next), want) == Drift(Current(ds), want) - keys && DriftCurable(next, canon, want)
  {
    DriftAfterRepair(ds, canon, want, keys);
    var next := Repaired(ds, canon, want, keys);
    forall k | k in Drift(Current(next), want)
      ensures Curable(next, canon, want, k)
    {
      assert k in Drift(Current(ds), want) && Curable(ds, canon, want, k);
    }
  }

  lemma SplitCount<T>(whole: set<T>, part: set<T>)
    requires part <= whole
    ensures |whole - part| + |part| == |whole|
  {
    assert whole == (whole - part) + part;
  }

  /**
   * Any number of passes, failing wherever they like: the commands that succeeded and the drift
   * that is left add up to the drift there was. So no run issues more commands than that, and
   * once they are spent the drift is gone.
   */
  lemma {:induction false} PassesConserve(ds: Dataset, canon: Canon, want: map<string, string>,
                                          passes: seq<set<string>>)
    requires PassesFit(ds, canon, want, passes) && DriftCurable(ds, canon, want)
    ensures |Drift(Current(AfterPasses(ds, canon, want, passes)), want)| + CommandCount(passes) == |Drift(Current(ds), want)|
    decreases |passes|
  {
    if passes != [] {
      var drift := Drift(Current(ds), want);
      PartialPass(ds, canon, want, passes[0]);
      SplitCount(drift, passes[0]);
      PassesConserve(Repaired(ds, canon, want, passes[0]), canon, want, passes[1..]);
    }
  }

  lemma {:induction false} NothingLeft(ds: Dataset, canon: Canon, want: map<string, string>, passes: seq<set<string>>)
    requires PassesFit(ds, canon, want, passes) && Drift(Current(ds), want) == {}
    ensures Drift(Current(AfterPasses(ds, canon, want, passes)), want) == {}
    ensures forall i :: 0 <= i < |passes| ==> passes[i] == {}
    decreases |passes|
  {
    if passes != [] {
      PartialPass(ds, canon, want, passes[0]);
      NothingLeft(Repaired(ds, canon, want, passes[0]), canon, want, passes[1..]);
    }
  }

  /** A run with one pass that did not fail ends without drift, whatever happened before and after it. */
  lemma {:induction false} OneFullPassSuffices(
      ds: Dataset, canon: Canon, want: map<string, string>, passes: seq<set<string>>, full: nat)
    requires PassesFit(ds, canon, want, passes) && DriftCurable(ds, canon, want)
    requires full < |passes|
    requires passes[full] == Drift(Current(AfterPasses(ds, canon, want, passes[..full])), want)
    ensures Drift(Current(AfterPasses(ds, canon, want, passes)), want) == {}
    ensures forall i :: full < i < |passes| ==> passes[i] == {}
    decreases |passes|
  {
    var next := Repaired(ds, canon, want, passes[0]);
    PartialPass(ds, canon, want, passes[0]);
    if full == 0 {
      assert passes[..0] == [];
      NothingLeft(next, canon, want, passes[1..]);
    } else {
      assert passes[..full][0] == passes[0] && passes[..full][1..] == passes[1..][..full - 1];
      OneFullPassSuffices(next, canon, want, passes[1..], full - 1);
    }
    assert forall i :: 0 < i < |passes| ==> passes[i] == passes[1..][i - 1];
  }
}
