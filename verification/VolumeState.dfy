/**
 * What one live pass over a volume does as a whole, apart from how it is run: the quota, the
 * files and the properties together (pkg/controller/controller.go:860-908), and the state a
 * volume is born in (pkg/controller/controller.go:487-567).
 */
module VolumeState {
  import opened Wrappers
  import opened Strings
  import opened Config
  import opened ZfsText
  import opened Dataset
  import opened ZfsHosts
  import opened ZfsReconcile
  import opened OwnerMode
  import opened HostTrees
  import opened ZfsDriver
  import opened Claims

  /** A dataset and the files mounted from it */
  datatype Volume = Volume(ds: Dataset, attrs: map<Ino, Attr>)

  /** What the three driver calls of a pass returned */
  datatype Results = Results(
    quota: Result<seq<QuotaChange>, ZfsError>,
    owner: Result<seq<OwnerChange>, OwnerModeError>,
    props: Result<seq<PropChange>, ZfsError>)
  {
    predicate NoFailure() {
      quota.Ok? && owner.Ok? && props.Ok?
    }

    /** Nothing was reported to change, which a failed call does not contradict. */
    predicate NothingReported() {
      && (quota.Ok? ==> quota.value == [])
      && (owner.Ok? ==> owner.value == [])
      && (props.Ok? ==> props.value == [])
    }
  }

  ghost predicate Placed(vol: Volume, place: Option<Node>) {
    place.Some? ==> place.value.Dir? && Covers(vol.attrs, Visits("", place.value))
  }

  /** The three calls of one pass took the volume from `was` to `now`. */
  ghost predicate PassMade(was: Volume, now: Volume, place: Option<Node>, canon: Canon, wish: StateWish,
                           dryRun: bool, res: Results, order: seq<string>)
    requires Placed(was, place)
  {
    && (res.quota.Ok? ==>
          && res.quota.value == QuotaChanges(was.ds.quota, wish.quota)
          && (dryRun || QuotaMeant(wish.quota) >= 0))
    && (res.owner.Ok? ==>
          res.owner.value == TreeChanges(was.attrs, place, wish.ownerMode, wish.recursive, dryRun))
    && Ended(Current(was.ds), Desired(wish.props), res.props, order)
    && now.ds == DatasetAfter(was.ds, canon, wish, dryRun, res.quota.Ok?, order)
    && FilesAfter(was, now, place, wish, dryRun, res.owner.Ok?)
  }

  function DatasetAfter(ds: Dataset, canon: Canon, wish: StateWish, dryRun: bool, quotaDone: bool,
                        order: seq<string>): Dataset {
    if dryRun then ds
    else
      var q := QuotaMeant(wish.quota);
      Commands(ds, canon, Desired(wish.props), order).(quota := if quotaDone && q >= 0 then q else ds.quota)
  }

  ghost predicate FilesAfter(was: Volume, now: Volume, place: Option<Node>, wish: StateWish, dryRun: bool, done: bool)
    requires Placed(was, place)
  {
    if dryRun || place.None? then now.attrs == was.attrs
    else if done then now.attrs == TreeAfter(was.attrs, place, wish.ownerMode, wish.recursive)
    else PartlyFixed(was.attrs, now.attrs, Scope(place.value, wish.recursive), wish.ownerMode)
  }

  /** Nothing to do: no quota to change, no file and no property that drifts. */
  ghost predicate UpToDate(vol: Volume, place: Option<Node>, wish: StateWish)
    requires Placed(vol, place)
  {
    && QuotaChanges(vol.ds.quota, wish.quota) == []
    && TreeChanges(vol.attrs, place, wish.ownerMode, wish.recursive, true) == []
    && Drift(Current(vol.ds), Desired(wish.props)) == {}
  }

  /** Where an applying pass without failures ends, whatever order the keys were taken in */
  ghost function Brought(vol: Volume, place: Option<Node>, canon: Canon, wish: StateWish): Volume
    requires Placed(vol, place) && QuotaMeant(wish.quota) >= 0
  {
    var want := Desired(wish.props);
    Volume(Repaired(vol.ds, canon, want, Drift(Current(vol.ds), want)).(quota := QuotaMeant(wish.quota)),
           TreeAfter(vol.attrs, place, wish.ownerMode, wish.recursive))
  }

  /** Every drifting property can be cured, and every file in scope can be given its owner. */
  ghost predicate Attainable(vol: Volume, place: Option<Node>, canon: Canon, wish: StateWish)
    requires Placed(vol, place)
  {
    && DriftCurable(vol.ds, canon, Desired(wish.props))
    && (place.Some? ==>
          (ScopeCovered(vol.attrs, place.value, wish.recursive);
           forall v :: v in Scope(place.value, wish.recursive) && !v.symlink ==>
             Settles(vol.attrs[v.ino], wish.ownerMode.owner)))
  }

  /** Map iteration order does not show: every applying pass without failures ends in the same volume. */
  lemma ApplyBrings(was: Volume, now: Volume, place: Option<Node>, canon: Canon, wish: StateWish, res: Results,
                    order: seq<string>)
    requires Placed(was, place) && PassMade(was, now, place, canon, wish, false, res, order) && res.NoFailure()
    ensures QuotaMeant(wish.quota) >= 0 && now == Brought(was, place, canon, wish)
  {
    var want := Desired(wish.props);
    CommandsRepair(was.ds, canon, want, order);
    ListSize(order, Drift(Current(was.ds), want));
  }

  lemma QuotaAside(ds: Dataset, quota: nat)
    ensures Current(ds.(quota := quota)) == Current(ds)
  {
  }

  lemma FilesConverge(vol: Volume, place: Option<Node>, wish: StateWish, dryRun: bool)
    requires Placed(vol, place)
    ensures var after := TreeAfter(vol.attrs, place, wish.ownerMode, wish.recursive);
            TreeChanges(after, place, wish.ownerMode, wish.recursive, dryRun) == [] <==>
            place.Some? ==>
              (ScopeCovered(vol.attrs, place.value, wish.recursive);
               forall v :: v in Scope(place.value, wish.recursive) && !v.symlink ==>
                 Settles(vol.attrs[v.ino], wish.ownerMode.owner))
  {
    if place.Some? {
      OwnerConverges(vol.attrs, place.value, wish.ownerMode, wish.recursive, dryRun);
    }
  }

  /** Convergence: an applying pass without failures leaves nothing to do exactly when everything is attainable. */
  lemma PassConvergence(was: Volume, now: Volume, place: Option<Node>, canon: Canon, wish: StateWish, res: Results,
                        order: seq<string>)
    requires Placed(was, place) && PassMade(was, now, place, canon, wish, false, res, order) && res.NoFailure()
    ensures Placed(now, place)
    ensures UpToDate(now, place, wish) <==> Attainable(was, place, canon, wish)
  {
    var want := Desired(wish.props);
    ApplyBrings(was, now, place, canon, wish, res, order);
    PassConverges(was.ds, canon, want);
    QuotaAside(Repaired(was.ds, canon, want, Drift(Current(was.ds), want)), QuotaMeant(wish.quota));
    FilesConverge(was, place, wish, true);
  }

  /** No file in scope differs from the wish. */
  ghost predicate FilesMeet(vol: Volume, place: Option<Node>, wish: StateWish)
    requires Placed(vol, place)
  {
    place.Some? ==>
      (ScopeCovered(vol.attrs, place.value, wish.recursive);
       forall v :: v in Scope(place.value, wish.recursive) ==>
         !OwnerHit(vol.attrs, v, wish.ownerMode) && !ModeHit(vol.attrs, v, wish.ownerMode))
  }

  /** A fixed file is a file that meets the wish. */
  lemma MetIsFixed(vol: Volume, place: Option<Node>, wish: StateWish)
    requires Placed(vol, place) && FilesMeet(vol, place, wish)
    ensures TreeAfter(vol.attrs, place, wish.ownerMode, wish.recursive) == vol.attrs
  {
    if place.Some? {
      ScopeCovered(vol.attrs, place.value, wish.recursive);
      WalkedToIs(vol.attrs, Scope(place.value, wish.recursive), wish.ownerMode);
    }
  }

  /** The plan for the files is empty exactly when all of them meet the wish, and so is the report of applying it. */
  lemma PlanEmpty(vol: Volume, place: Option<Node>, wish: StateWish, dryRun: bool)
    requires Placed(vol, place)
    ensures TreeChanges(vol.attrs, place, wish.ownerMode, wish.recursive, dryRun) == [] <==> FilesMeet(vol, place, wish)
  {
    if place.Some? {
      var root := place.value;
      var first := Visits("", root)[..1];
      assert first == [Visit("", false, root.ino)] && first[0] in Visits("", root);
      assert Scope(root, wish.recursive)[0] in Scope(root, wish.recursive);
      if RootChanges(vol.attrs[root.ino], wish.ownerMode) == [] {
        WalkedToIs(vol.attrs, first, wish.ownerMode);
        NoChanges(vol.attrs, root, wish.ownerMode, wish.recursive, dryRun);
      }
    }
  }

  /** A volume with nothing to do is left alone by every further pass, even one that fails. */
  lemma NothingMore(was: Volume, now: Volume, place: Option<Node>, canon: Canon, wish: StateWish, dryRun: bool,
                    res: Results, order: seq<string>)
    requires Placed(was, place) && PassMade(was, now, place, canon, wish, dryRun, res, order)
    requires UpToDate(was, place, wish)
    ensures now == was && order == [] && res.NothingReported()
  {
    PlanEmpty(was, place, wish, true);
    PlanEmpty(was, place, wish, dryRun);
    MetIsFixed(was, place, wish);
    if res.props.Ok? {
      ListSize(order, {});
    }
    if place.Some? {
      UntouchedWhenMet(was, now.attrs, place.value, wish);
    }
  }

  lemma UntouchedWhenMet(was: Volume, now: map<Ino, Attr>, root: Node, wish: StateWish)
    requires Placed(was, Some(root)) && FilesMeet(was, Some(root), wish)
    ensures PartlyFixed(was.attrs, now, Scope(root, wish.recursive), wish.ownerMode) ==> now == was.attrs
  {
    ScopeCovered(was.attrs, root, wish.recursive);
  }

  /** A pass without failures that reports nothing is a truthful report. */
  lemma ReportTruthful(was: Volume, now: Volume, place: Option<Node>, canon: Canon, wish: StateWish, dryRun: bool,
                       res: Results, order: seq<string>)
    requires Placed(was, place) && PassMade(was, now, place, canon, wish, dryRun, res, order)
    requires res.NoFailure()
    ensures res.NothingReported() <==> UpToDate(was, place, wish)
  {
    PlanEmpty(was, place, wish, true);
    PlanEmpty(was, place, wish, dryRun);
    ListSize(order, Drift(Current(was.ds), Desired(wish.props)));
    SummaryOf(Current(was.ds), Desired(wish.props), order);
  }

  /**
   * Two passes in a row with the same wish, the first applying and without failures: the second,
   * dry or not, finds nothing to do exactly when everything was attainable, and then it leaves
   * the volume alone even if some of its own calls fail.
   */
  lemma SecondPass(was: Volume, mid: Volume, now: Volume, place: Option<Node>, canon: Canon, wish: StateWish,
                   first: Results, order1: seq<string>, dryRun: bool, second: Results, order2: seq<string>)
    requires Placed(was, place) && PassMade(was, mid, place, canon, wish, false, first, order1) && first.NoFailure()
    requires Placed(mid, place) && PassMade(mid, now, place, canon, wish, dryRun, second, order2)
    ensures Attainable(was, place, canon, wish) ==> now == mid && order2 == [] && second.NothingReported()
    ensures second.NoFailure() ==> (second.NothingReported() <==> Attainable(was, place, canon, wish))
  {
    PassConvergence(was, mid, place, canon, wish, first, order1);
    if Attainable(was, place, canon, wish) {
      NothingMore(mid, now, place, canon, wish, dryRun, second, order2);
    }
    if second.NoFailure() {
      ReportTruthful(mid, now, place, canon, wish, dryRun, second, order2);
    }
  }

  /** Values in the form zfs prints, and ancestors whose names are not taken for local settings */
  ghost predicate Canonical(ds: Dataset, canon: Canon, want: map<string, string>) {
    && (forall k :: k in want ==> canon(k, want[k]) == want[k] && Word(want[k]))
    && (forall k :: k in ds.inherited && Managed(k) && k !in want ==>
          && Word(ds.inherited[k].value) && !ds.inherited[k].source.Local?
          && (ds.inherited[k].source.InheritedFrom? ==>
                Word(ds.inherited[k].source.ancestor) && !IsLocallySet(ds.inherited[k].source.ancestor)))
  }

  /** Ids that chown does not take to mean "leave unchanged" */
  predicate OrdinaryIds(owner: Option<Ownership>) {
    owner.Some? ==> Id32(owner.value.uid) != UNCHANGED && Id32(owner.value.gid) != UNCHANGED
  }

  /** Canonical values and ordinary ids are attainable. */
  lemma OrdinaryIsAttainable(vol: Volume, place: Option<Node>, canon: Canon, wish: StateWish)
    requires Placed(vol, place)
    requires Canonical(vol.ds, canon, Desired(wish.props)) && OrdinaryIds(wish.ownerMode.owner)
    ensures Attainable(vol, place, canon, wish)
  {
    var want := Desired(wish.props);
    forall k | k in Drift(Current(vol.ds), want)
      ensures Curable(vol.ds, canon, want, k)
    {
      if k in want {
        CanonicalIsCurable(vol.ds, canon, want, k);
      } else if k in vol.ds.inherited {
        InheritedIsCurable(vol.ds, canon, want, k);
      }
    }
  }

  // ---- Plan and apply -------------------------------------------------------------------------

  lemma {:induction false} SummaryOf(cur: map<string, PropValue>, want: map<string, string>, order: seq<string>)
    ensures |Summary(cur, want, order)| == |order|
    ensures forall i :: 0 <= i < |order| ==> Summary(cur, want, order)[i] == ChangeFor(cur, want, order[i])
  {
    if order != [] {
      SummaryOf(cur, want, order[..|order| - 1]);
    }
  }

  lemma MultisetWithout<T>(all: seq<T>, j: nat)
    requires j < |all|
    ensures multiset(all) == multiset(all[..j] + all[j + 1..]) + multiset{all[j]}
  {
    assert all == all[..j] + [all[j]] + all[j + 1..];
  }

  lemma SummaryWithout(cur: map<string, PropValue>, want: map<string, string>, order: seq<string>, j: nat)
    requires j < |order|
    ensures multiset(Summary(cur, want, order)) ==
            multiset(Summary(cur, want, order[..j] + order[j + 1..])) + multiset{ChangeFor(cur, want, order[j])}
  {
    SummaryOf(cur, want, order);
    SummaryOf(cur, want, order[..j] + order[j + 1..]);
    var all, rest := Summary(cur, want, order), Summary(cur, want, order[..j] + order[j + 1..]);
    assert rest == all[..j] + all[j + 1..];
    MultisetWithout(all, j);
  }

  lemma ListsWithout(order: seq<string>, keys: set<string>, j: nat)
    requires Lists(order, keys) && j < |order|
    ensures Lists(order[..j] + order[j + 1..], keys - {order[j]})
  {
    var rest := order[..j] + order[j + 1..];
    assert forall i :: 0 <= i < |rest| ==> rest[i] == order[if i < j then i else i + 1];
    forall k
      ensures k in rest <==> k in order && k != order[j]
    {
      if k in order && k != order[j] {
        var i: nat :| i < |order| && order[i] == k;
        assert rest[if i < j then i else i - 1] == k;
      }
    }
  }

  /** The change list of a pass does not depend on the order of the keys, except for its own order. */
  lemma {:induction false} SummaryUpToOrder(cur: map<string, PropValue>, want: map<string, string>,
                                            a: seq<string>, b: seq<string>, keys: set<string>)
    requires Lists(a, keys) && Lists(b, keys)
    ensures multiset(Summary(cur, want, a)) == multiset(Summary(cur, want, b))
  {
    ListSize(a, keys);
    ListSize(b, keys);
    if a != [] {
      assert a[0] in keys && a[0] in b;
      var j: nat :| j < |b| && b[j] == a[0];
      ListsWithout(a, keys, 0);
      ListsWithout(b, keys, j);
      SummaryWithout(cur, want, a, 0);
      SummaryWithout(cur, want, b, j);
      SummaryUpToOrder(cur, want, a[..0] + a[1..], b[..j] + b[j + 1..], keys - {a[0]});
    }
  }

  /**
   * Plan and apply agree: from the same volume a dry run and an applying pass report the same
   * quota change, the same property changes up to order, and owner and mode changes that differ
   * at most in counting a hard-linked file once; and the dry run leaves the volume as it was.
   */
  lemma PlanAgreesWithApply(
      was: Volume, planned: Volume, applied: Volume, place: Option<Node>, canon: Canon, wish: StateWish,
      plan: Results, planOrder: seq<string>, apply: Results, applyOrder: seq<string>)
    requires Placed(was, place) && (place.Some? ==> RootAlone(place.value))
    requires PassMade(was, planned, place, canon, wish, true, plan, planOrder) && plan.NoFailure()
    requires PassMade(was, applied, place, canon, wish, false, apply, applyOrder) && apply.NoFailure()
    ensures planned == was
    ensures apply.quota == plan.quota
    ensures multiset(apply.props.value) == multiset(plan.props.value)
    ensures AgreeUpToCounts(apply.owner.value, plan.owner.value)
    ensures place.Some? && NoHardLinks(Visits("", place.value)[1..]) ==> apply.owner == plan.owner
  {
    SummaryUpToOrder(Current(was.ds), Desired(wish.props), planOrder, applyOrder, Drift(Current(was.ds), Desired(wish.props)));
    if place.Some? {
      PlanMatchesApply(was.attrs, place.value, wish.ownerMode, wish.recursive);
    }
  }

  // ---- Failure midway ---------------------------------------------------------------------------

  /** The keys whose command went through are some of the drift. */
  lemma KeysDone(cur: map<string, PropValue>, want: map<string, string>, r: Result<seq<PropChange>, ZfsError>,
                 order: seq<string>)
    requires Ended(cur, want, r, order)
    ensures var done := set k | k in order; Lists(order, done) && done <= Drift(cur, want)
  {
    if r.Err? && r.error != ReadFailed {
      var some: set<string> :| Lists(order, some) && some < Drift(cur, want);
      assert (set k | k in order) == some;
    }
  }

  lemma DriftUncured(ds: Dataset, canon: Canon, want: map<string, string>, done: set<string>)
    requires done <= Drift(Current(ds), want)
    ensures var before, left := Drift(Current(ds), want), Drift(Current(Repaired(ds, canon, want, done)), want);
            && left == before - Cured(ds, canon, want, done)
            && (DriftCurable(ds, canon, want) ==> |left| + |done| == |before|)
  {
    RepairCounts(ds, canon, want, done);
    DriftAfterRepair(ds, canon, want, done);
    if DriftCurable(ds, canon, want) {
      assert Cured(ds, canon, want, done) == done;
    }
  }

  /** The drift that is left is the drift there was, less one key for each command that went through and cured it. */
  lemma DriftLeft(was: Volume, now: Volume, place: Option<Node>, canon: Canon, wish: StateWish, res: Results,
                  order: seq<string>)
    requires Placed(was, place) && PassMade(was, now, place, canon, wish, false, res, order)
    ensures var want := Desired(wish.props);
            var before, left := Drift(Current(was.ds), want), Drift(Current(now.ds), want);
            && left == before - Cured(was.ds, canon, want, set k | k in order)
            && (DriftCurable(was.ds, canon, want) ==> |left| + |order| == |before|)
  {
    var want := Desired(wish.props);
    var done := set k | k in order;
    KeysDone(Current(was.ds), want, res.props, order);
    CommandsRepair(was.ds, canon, want, order);
    ListSize(order, done);
    QuotaAside(Commands(was.ds, canon, want, order), now.ds.quota);
    DriftUncured(was.ds, canon, want, done);
  }

  lemma {:induction false} CommandsKeep(ds: Dataset, canon: Canon, want: map<string, string>, order: seq<string>,
                                        k: string)
    ensures var after := Commands(ds, canon, want, order);
            && after.quota == ds.quota && after.inherited == ds.inherited
            && (k !in order ==> (k in after.local <==> k in ds.local) && (k in ds.local ==> after.local[k] == ds.local[k]))
  {
    if order != [] {
      CommandsKeep(ds, canon, want, order[..|order| - 1], k);
    }
  }

  /** Wherever a pass fails, the volume has come no further from what is wanted. */
  lemma NeverWorse(was: Volume, now: Volume, place: Option<Node>, canon: Canon, wish: StateWish, res: Results,
                   order: seq<string>)
    requires Placed(was, place) && PassMade(was, now, place, canon, wish, false, res, order)
    ensures Placed(now, place)
    ensures now.ds.quota == was.ds.quota || QuotaChanges(now.ds.quota, wish.quota) == []
    ensures Drift(Current(now.ds), Desired(wish.props)) <= Drift(Current(was.ds), Desired(wish.props))
    ensures place.Some? ==> forall v :: v in Visits("", place.value) ==>
              && (OwnerHit(now.attrs, v, wish.ownerMode) ==> OwnerHit(was.attrs, v, wish.ownerMode))
              && (ModeHit(now.attrs, v, wish.ownerMode) ==> ModeHit(was.attrs, v, wish.ownerMode))
  {
    DriftLeft(was, now, place, canon, wish, res, order);
    CommandsKeep(was.ds, canon, Desired(wish.props), order, "");
    if place.Some? {
      FilesNeverWorse(was, now, place.value, wish, res.owner.Ok?);
    }
  }

  lemma FilesNeverWorse(was: Volume, now: Volume, root: Node, wish: StateWish, done: bool)
    requires Placed(was, Some(root)) && FilesAfter(was, now, Some(root), wish, false, done)
    ensures Placed(now, Some(root))
    ensures forall v :: v in Visits("", root) ==>
              && (OwnerHit(now.attrs, v, wish.ownerMode) ==> OwnerHit(was.attrs, v, wish.ownerMode))
              && (ModeHit(now.attrs, v, wish.ownerMode) ==> ModeHit(was.attrs, v, wish.ownerMode))
  {
    FilesPartlyFixed(was, now, root, wish, done);
    forall v | v in Visits("", root)
      ensures OwnerHit(now.attrs, v, wish.ownerMode) ==> OwnerHit(was.attrs, v, wish.ownerMode)
      ensures ModeHit(now.attrs, v, wish.ownerMode) ==> ModeHit(was.attrs, v, wish.ownerMode)
    {
      FixedMeets(was.attrs[v.ino], wish.ownerMode.owner, wish.ownerMode.mode);
    }
  }

  lemma FilesPartlyFixed(was: Volume, now: Volume, root: Node, wish: StateWish, done: bool)
    requires Placed(was, Some(root)) && FilesAfter(was, now, Some(root), wish, false, done)
    ensures PartlyFixed(was.attrs, now.attrs, Scope(root, wish.recursive), wish.ownerMode)
  {
    var scope := Scope(root, wish.recursive);
    ScopeCovered(was.attrs, root, wish.recursive);
    WalkedIsPartlyFixed(was.attrs, scope, |scope|, wish.ownerMode);
    assert scope[..|scope|] == scope;
  }

  /**
   * Whatever happens to a pass, it keeps away from what is not its business: properties it does
   * not manage, inherited values, and every file that is not a file or directory of the scope.
   */
  lemma NothingElseTouched(was: Volume, now: Volume, place: Option<Node>, canon: Canon, wish: StateWish,
                           dryRun: bool, res: Results, order: seq<string>, k: string, ino: Ino)
    requires Placed(was, place) && PassMade(was, now, place, canon, wish, dryRun, res, order)
    ensures now.ds.inherited == was.ds.inherited
    ensures !Managed(k) ==> (k in now.ds.local <==> k in was.ds.local)
    ensures !Managed(k) && k in was.ds.local ==> now.ds.local[k] == was.ds.local[k]
    ensures (place.Some? ==> !Touches(Scope(place.value, wish.recursive), ino)) ==>
              (ino in now.attrs <==> ino in was.attrs) && (ino in was.attrs ==> now.attrs[ino] == was.attrs[ino])
  {
    CommandsKeep(was.ds, canon, Desired(wish.props), order, k);
    KeysDone(Current(was.ds), Desired(wish.props), res.props, order);
    assert k in order ==> k in Drift(Current(was.ds), Desired(wish.props));
    if !dryRun && place.Some? {
      FilesPartlyFixed(was, now, place.value, wish, res.owner.Ok?);
    }
  }

  /** However the claim or its class asks for it, no pass sets or resets what only creation may decide. */
  lemma CreateTimeStays(was: Volume, now: Volume, place: Option<Node>, canon: Canon, wish: StateWish,
                        dryRun: bool, res: Results, order: seq<string>, k: string)
    requires Placed(was, place) && PassMade(was, now, place, canon, wish, dryRun, res, order)
    requires k in CREATE_TIME
    ensures k !in order && (k in now.ds.local <==> k in was.ds.local)
    ensures k in was.ds.local ==> now.ds.local[k] == was.ds.local[k]
  {
    CreateTimeUnmanaged(k);
    NothingElseTouched(was, now, place, canon, wish, dryRun, res, order, k, 0);
    KeysDone(Current(was.ds), Desired(wish.props), res.props, order);
    assert k in order ==> k in Drift(Current(was.ds), Desired(wish.props));
  }

  // ---- Birth --------------------------------------------------------------------------------------

  /** What shows through on a new dataset where nothing is set does not look as if it were. */
  predicate InheritsQuietly(inherits: map<string, Setting>, props: map<string, string>) {
    forall k :: k in inherits && Managed(k) && k !in props ==>
      !IsLocallySet(ReadRow(inherits[k].value, inherits[k].source).source)
  }

  /** Every managed property that was asked for reads back as it was written. */
  predicate ReadsBack(canon: Canon, props: map<string, string>) {
    forall k :: k in props && Managed(k) ==> ReadRow(canon(k, props[k]), Local).value == props[k]
  }

  /** Property k of a new dataset drifts from the moment of its creation. */
  predicate BornAmiss(canon: Canon, props: map<string, string>, inherits: map<string, Setting>, k: string) {
    Managed(k) &&
    if k in props then ReadRow(canon(k, props[k]), Local).value != props[k]
    else k in inherits && IsLocallySet(ReadRow(inherits[k].value, inherits[k].source).source)
  }

  lemma BornDriftAt(canon: Canon, quota: nat, props: map<string, string>, inherits: map<string, Setting>, k: string)
    ensures k in Drift(Current(NewDataset(canon, quota, props, inherits)), Desired(props)) <==>
            BornAmiss(canon, props, inherits, k)
  {
    var ds := NewDataset(canon, quota, props, inherits);
    assert k in Names(ds) <==> k in props || k in inherits;
    assert k in Names(ds) ==>
        RowOf(ds, k) == if k in props then Row(k, canon(k, props[k]), Local) else Row(k, inherits[k].value, inherits[k].source);
  }

  lemma BornDrift(canon: Canon, quota: nat, props: map<string, string>, inherits: map<string, Setting>)
    ensures Drift(Current(NewDataset(canon, quota, props, inherits)), Desired(props)) == {} <==>
            ReadsBack(canon, props) && InheritsQuietly(inherits, props)
  {
    var drift := Drift(Current(NewDataset(canon, quota, props, inherits)), Desired(props));
    forall k
      ensures k in drift <==> BornAmiss(canon, props, inherits, k)
    {
      BornDriftAt(canon, quota, props, inherits, k);
    }
    if drift == {} {
      forall k
        ensures !BornAmiss(canon, props, inherits, k)
      {
        assert k !in drift;
      }
      assert forall k :: k in props && Managed(k) ==> !BornAmiss(canon, props, inherits, k);
      assert forall k :: k in inherits && Managed(k) ==> !BornAmiss(canon, props, inherits, k);
    }
    if ReadsBack(canon, props) && InheritsQuietly(inherits, props) {
      assert forall k :: k in drift ==> BornAmiss(canon, props, inherits, k);
    }
  }

  lemma BornFiles(attrs: map<Ino, Attr>, root: Node, recursive: bool, born: Wish, wish: Wish)
    requires root.Dir? && root.entries == [] && root.ino in attrs
    requires wish.owner.Some? ==> born.owner == wish.owner
    requires wish.mode.Some? ==> born.mode == wish.mode
    ensures Covers(attrs, Visits("", root))
    ensures OwnerChanges(BornAttrs(attrs, Some(root), true, born.owner, born.mode), root, wish, recursive, true) == [] <==>
            Settles(attrs[root.ino], wish.owner)
  {
    assert Visits("", root) == [Visit("", false, root.ino)];
    FixedMeets(attrs[root.ino], born.owner, born.mode);
    FixedMeets(attrs[root.ino], wish.owner, wish.mode);
  }

  lemma BornUpToDate(canon: Canon, inherits: map<string, Setting>, opts: CreateOptions, wish: StateWish,
                     place: Option<Node>, attrs: map<Ino, Attr>, born: Volume)
    requires place.Some? ==> place.value.Dir? && place.value.entries == [] && place.value.ino in attrs
    requires opts.props == wish.props
    requires wish.ownerMode.owner.Some? ==> opts.owner == wish.ownerMode.owner
    requires wish.ownerMode.mode.Some? ==> opts.mode == wish.ownerMode.mode
    requires born.ds == NewDataset(canon, born.ds.quota, opts.props, inherits)
    requires born.attrs == BornAttrs(attrs, place, true, opts.owner, opts.mode)
    ensures Placed(born, place)
    ensures UpToDate(born, place, wish) <==>
            && born.ds.quota == QuotaMeant(wish.quota)
            && ReadsBack(canon, wish.props) && InheritsQuietly(inherits, wish.props)
            && (place.Some? ==> Settles(attrs[place.value.ino], wish.ownerMode.owner))
  {
    BornDrift(canon, born.ds.quota, wish.props, inherits);
    if place.Some? {
      BornFiles(attrs, place.value, wish.recursive, Wish(opts.owner, opts.mode), wish.ownerMode);
    }
  }

  /**
   * No drift at birth: the plan for a volume just created, mounted as an empty directory, is
   * empty exactly when it was born with the quota its claim stands for, its properties read back
   * as written, nothing inherited looks locally set, and its root can be given its owner. The
   * quota it was born with is the one asked for, and none if that is negative, unless "quota" is
   * also among the properties: then zfs may take either.
   */
  lemma NoDriftAtBirth(
      canon: Canon, inherits: map<string, Setting>, pvc: Claim, sc: StorageClass, relPath: string,
      quota: Option<int>, hostPrefix: string, place: Option<Node>, attrs: map<Ino, Attr>, born: Volume)
    requires place.Some? ==> place.value.Dir? && place.value.entries == [] && place.value.ino in attrs
    requires var opts := ProvisionOptions(pvc, sc, relPath, quota, hostPrefix);
             && born.ds == NewDataset(canon, born.ds.quota, opts.props, inherits)
             && ("quota" !in opts.props ==> born.ds.quota == if opts.quotaBytes > 0 then opts.quotaBytes else 0)
             && born.attrs == BornAttrs(attrs, place, true, opts.owner, opts.mode)
    ensures Placed(born, place)
    ensures var wish := WishOf(pvc, Some(sc), quota);
            && (UpToDate(born, place, wish) <==>
                  && born.ds.quota == QuotaMeant(quota)
                  && ReadsBack(canon, wish.props) && InheritsQuietly(inherits, wish.props)
                  && (place.Some? ==> Settles(attrs[place.value.ino], wish.ownerMode.owner)))
            && ("quota" !in wish.props ==> (born.ds.quota == QuotaMeant(quota) <==> QuotaMeant(quota) >= 0))
  {
    DeclaredAtBirth(pvc, sc, relPath, quota, hostPrefix);
    BornUpToDate(canon, inherits, ProvisionOptions(pvc, sc, relPath, quota, hostPrefix), WishOf(pvc, Some(sc), quota),
                 place, attrs, born);
  }
}
