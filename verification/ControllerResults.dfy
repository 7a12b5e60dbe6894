/** What follows from what the controller's sections do, one after the other. */
module ControllerResults {
  import opened Wrappers
  import opened Strings
  import opened Config
  import opened ZfsText
  import opened Dataset
  import opened Subtrees
  import opened ZfsReconcile
  import opened OwnerMode
  import opened HostTrees
  import ZfsDriver
  import DirDriver
  import opened Claims
  import opened PvBuilder
  import opened VolumeState
  import opened ControllerSpec

  lemma NoChangeLines(events: seq<Event>, res: Results)
    ensures Changes(res) == [] <==> res.NothingReported()
    ensures WithFailures(events, res) == events <==> res.NoFailure()
  {
    if Changes(res) == [] {
      assert |Changes(res)| == 0;
    }
    if !res.NoFailure() {
      assert |WithFailures(events, res)| > |events|;
    }
  }

  /**
   * What "up to date" means: when the event comes without a failure event, the volume was up to
   * date and stays as it was; and a volume that is up to date is always reported so.
   */
  lemma UpToDateReport(was: Volume, now: Volume, place: Option<Node>, canon: Canon, wish: StateWish, res: Results,
                       order: seq<string>, events: seq<Event>, applyRequested: bool, dryRun: bool, patched: bool)
    requires Placed(was, place) && PassMade(was, now, place, canon, wish, dryRun, res, order)
    ensures VolumeUpToDate in OutcomeEvents(res, applyRequested, dryRun, patched) && WithFailures(events, res) == events ==>
              UpToDate(was, place, wish) && now == was
    ensures UpToDate(was, place, wish) ==> VolumeUpToDate in OutcomeEvents(res, applyRequested, dryRun, patched)
  {
    NoChangeLines(events, res);
    if res.NoFailure() {
      ReportTruthful(was, now, place, canon, wish, dryRun, res, order);
    }
    if UpToDate(was, place, wish) {
      NothingMore(was, now, place, canon, wish, dryRun, res, order);
      assert OutcomeEvents(res, applyRequested, dryRun, patched)[0] == VolumeUpToDate;
    }
  }

  /** Every driver call of a pass that succeeded had nothing to do. */
  ghost predicate NothingSeen(was: Volume, place: Option<Node>, wish: StateWish, res: Results)
    requires Placed(was, place)
  {
    && (res.quota.Ok? ==> QuotaChanges(was.ds.quota, wish.quota) == [])
    && (res.owner.Ok? ==> TreeChanges(was.attrs, place, wish.ownerMode, wish.recursive, true) == [])
    && (res.props.Ok? ==> Drift(Current(was.ds), Desired(wish.props)) == {})
  }

  /** Some driver call of a pass failed where there was something to do. */
  ghost predicate DriftMissed(was: Volume, place: Option<Node>, wish: StateWish, res: Results)
    requires Placed(was, place)
  {
    || (res.quota.Err? && QuotaChanges(was.ds.quota, wish.quota) != [])
    || (res.owner.Err? && TreeChanges(was.attrs, place, wish.ownerMode, wish.recursive, true) != [])
    || (res.props.Err? && Drift(Current(was.ds), Desired(wish.props)) != {})
  }

  /**
   * With failures "up to date" is said exactly when no call that succeeded had anything to do. So
   * it is said of a volume that is not up to date exactly when, besides, a call failed where there
   * was something to do.
   */
  lemma UpToDateReportedExactly(was: Volume, now: Volume, place: Option<Node>, canon: Canon, wish: StateWish,
                                res: Results, order: seq<string>, applyRequested: bool, dryRun: bool, patched: bool)
    requires Placed(was, place) && PassMade(was, now, place, canon, wish, dryRun, res, order)
    ensures VolumeUpToDate in OutcomeEvents(res, applyRequested, dryRun, patched) <==> NothingSeen(was, place, wish, res)
    ensures VolumeUpToDate in OutcomeEvents(res, applyRequested, dryRun, patched) && !UpToDate(was, place, wish) <==>
            NothingSeen(was, place, wish, res) && DriftMissed(was, place, wish, res)
  {
    UpToDateEvent(res, applyRequested, dryRun, patched);
    SeenIsReported(was, now, place, canon, wish, res, order, dryRun);
  }

  lemma UpToDateEvent(res: Results, applyRequested: bool, dryRun: bool, patched: bool)
    ensures VolumeUpToDate in OutcomeEvents(res, applyRequested, dryRun, patched) <==> res.NothingReported()
  {
    NoChangeLines([], res);
    var events := OutcomeEvents(res, applyRequested, dryRun, patched);
    assert res.NothingReported() ==> events[0] == VolumeUpToDate;
  }

  /** A call that succeeded reports nothing exactly when it had nothing to do. */
  lemma SeenIsReported(was: Volume, now: Volume, place: Option<Node>, canon: Canon, wish: StateWish,
                       res: Results, order: seq<string>, dryRun: bool)
    requires Placed(was, place) && PassMade(was, now, place, canon, wish, dryRun, res, order)
    ensures res.NothingReported() <==> NothingSeen(was, place, wish, res)
  {
    PlanEmpty(was, place, wish, true);
    PlanEmpty(was, place, wish, dryRun);
    if res.props.Ok? {
      ListSize(order, Drift(Current(was.ds), Desired(wish.props)));
      SummaryOf(Current(was.ds), Desired(wish.props), order);
    }
  }

  /** Any volume can meet with a pass whose every call fails; it is then reported up to date, and the annotation is used up. */
  lemma AnyVolumeReportedUpToDate(was: Volume, place: Option<Node>, canon: Canon, wish: StateWish, dryRun: bool, patched: bool)
    requires Placed(was, place)
    ensures var res := Results(Err(ReadFailed), Err(StatFailed), Err(ReadFailed));
            && PassMade(was, was, place, canon, wish, dryRun, res, [])
            && VolumeUpToDate in OutcomeEvents(res, true, dryRun, patched) && Consumes(res, true, dryRun)
  {
    var res := Results(Err(ReadFailed), Err(StatFailed), Err(ReadFailed));
    assert OutcomeEvents(res, true, dryRun, patched)[0] == VolumeUpToDate;
    if place.Some? {
      ScopeCovered(was.attrs, place.value, wish.recursive);
    }
  }

  const BARE: Volume := Volume(Dataset(0, map[], map[]), map[])
  const ONE_BYTE: StateWish := StateWish(Some(1), Wish(None, None), false, map[])

  /** For instance: a volume without the quota it is to have, whose quota cannot be read. */
  lemma FalseReport(canon: Canon, dryRun: bool, patched: bool)
    ensures var res := Results(Err(ReadFailed), Ok([]), Ok([]));
            && Placed(BARE, None) && PassMade(BARE, BARE, None, canon, ONE_BYTE, dryRun, res, [])
            && VolumeUpToDate in OutcomeEvents(res, true, dryRun, patched) && !UpToDate(BARE, None, ONE_BYTE)
  {
    var res := Results(Err(ReadFailed), Ok([]), Ok([]));
    assert Drift(Current(BARE.ds), Desired(ONE_BYTE.props)) == {};
    assert OutcomeEvents(res, true, dryRun, patched)[0] == VolumeUpToDate;
  }

  // ---- Passes in a row ----------------------------------------------------------------------------

  /** A quota that was set stays: the next reconciliation, dry or not, finds the quota wished for and leaves it. */
  lemma QuotaSettles(pool0: map<string, Dataset>, pool1: map<string, Dataset>, pool2: map<string, Dataset>, name: string,
                     want: Option<int>, first: Result<seq<QuotaChange>, ZfsError>, dryRun: bool,
                     second: Result<seq<QuotaChange>, ZfsError>)
    requires QuotaStep(pool0, pool1, name, want, false, first) && first.Ok?
    requires QuotaStep(pool1, pool2, name, want, dryRun, second)
    ensures pool2 == pool1 && pool1[name].quota == QuotaMeant(want) && (second.Ok? ==> second.value == [])
  {
    assert pool1[name := pool1[name].(quota := pool1[name].quota)] == pool1;
  }

  /**
   * A claim annotated for a dry run: whatever else it is annotated with, its volume stays as it is,
   * no command is issued, nothing is said to have been applied, and the apply annotation goes only
   * when nothing was reported to change.
   */
  lemma DryRunLeavesVolume(site: Site, was: LiveView, now: LiveView, pvc: Claim, pv: PersistentVolume,
                           got: Option<StorageClass>, quantity: string -> Option<int>, pass: StatePass, failed: bool)
    requires PlannedPass(site, was, now, pvc, PlanOfPass(site.drivers, pvc, pv, got, quantity), pass, failed)
    requires Lookup(pvc.annotations, "subvol.io/dry-run") == "true"
    ensures now.pool == was.pool && now.attrs == was.attrs && now.commands == was.commands
    ensures was.events <= now.events
    ensures forall i :: |was.events| <= i < |now.events| ==> !now.events[i].VolumeUpdated?
    ensures now.annotations != was.annotations ==> pass.Ran? && pass.res.NothingReported()
  {
    DryPlanLeavesVolume(site, was, now, pvc, PlanOfPass(site.drivers, pvc, pv, got, quantity), pass, failed);
  }

  lemma DryPlanLeavesVolume(site: Site, was: LiveView, now: LiveView, pvc: Claim,
                            plan: Option<Result<PassPlan, ControllerError>>, pass: StatePass, failed: bool)
    requires PlannedPass(site, was, now, pvc, plan, pass, failed)
    requires plan.Some? && plan.value.Ok? ==> plan.value.value.dryRun
    ensures now.pool == was.pool && now.attrs == was.attrs && now.commands == was.commands
    ensures was.events <= now.events
    ensures forall i :: |was.events| <= i < |now.events| ==> !now.events[i].VolumeUpdated?
    ensures now.annotations != was.annotations ==> pass.Ran? && pass.res.NothingReported()
  {
    if pass.Ran? {
      NoChangeLines(was.events, pass.res);
      DryEvents(was.events, pass.res, ApplyRequested(pvc), pass.patched);
    }
  }

  lemma DryEvents(events: seq<Event>, res: Results, applyRequested: bool, patched: bool)
    ensures var all := WithFailures(events, res) + OutcomeEvents(res, applyRequested, true, patched);
            events <= all && forall i :: |events| <= i < |all| ==> !all[i].VolumeUpdated?
  {
    var failures := WithFailures(events, res);
    assert forall i :: |events| <= i < |failures| ==> failures[i].VolumeUpdateFailed?;
    assert forall e :: e in OutcomeEvents(res, applyRequested, true, patched) ==> !e.VolumeUpdated?;
  }

  // ---- Retries --------------------------------------------------------------------------------------

  /** One attempt after another to create the same volume, nothing else touching the pool in between */
  ghost predicate CreateAttempts(pools: seq<map<string, Dataset>>, canon: Canon, inherits: string -> map<string, Setting>,
                                 opts: seq<ZfsDriver.CreateOptions>, made: seq<Option<ZfsDriver.VolumeInfo>>)
  {
    && |pools| == |opts| + 1 && |made| == |opts|
    && forall i :: 0 <= i < |opts| ==>
        opts[i].name == opts[0].name && DatasetMade(pools[i], pools[i + 1], canon, inherits, opts[i], made[i])
  }

  /**
   * A volume made for a claim that then failed to get its record stays as it is through all further
   * attempts, and an attempt gets past it exactly when it adopts.
   */
  lemma {:induction false} OrphanBlocksRetry(pools: seq<map<string, Dataset>>, canon: Canon,
                                             inherits: string -> map<string, Setting>, opts: seq<ZfsDriver.CreateOptions>,
                                             made: seq<Option<ZfsDriver.VolumeInfo>>, n: nat)
    requires CreateAttempts(pools, canon, inherits, opts, made)
    requires 0 < n < |opts| && opts[0].name != "" && made[0].Some?
    ensures pools[n + 1] == pools[1]
    ensures made[n].Some? <==> opts[n].adoptExisting
  {
    assert DatasetMade(pools[0], pools[0 + 1], canon, inherits, opts[0], made[0]);
    if n > 1 {
      OrphanBlocksRetry(pools, canon, inherits, opts, made, n - 1);
    }
    assert DatasetMade(pools[n], pools[n + 1], canon, inherits, opts[n], made[n]) && opts[n].name == opts[0].name;
  }

  /** One attempt after another to delete the same volume, nothing else touching the pool in between */
  ghost predicate Attempts(pools: seq<map<string, Dataset>>, pv: PersistentVolume, nows: seq<nat>, oks: seq<bool>,
                           warns: seq<bool>) {
    && |pools| == |nows| + 1 && |nows| == |oks| == |warns|
    && forall i :: 0 <= i < |nows| ==> DatasetGone(pools[i], pools[i + 1], pv, nows[i], oks[i], warns[i])
  }

  /** Once the backend is gone, every further attempt succeeds and changes nothing. */
  lemma {:induction false} RetryAfterRemoval(pools: seq<map<string, Dataset>>, pv: PersistentVolume, nows: seq<nat>,
                                             oks: seq<bool>,
                                             warns: seq<bool>, gone: nat)
    requires Attempts(pools, pv, nows, oks, warns) && Lookup(pv.annotations, ANN_DATASET_NAME) != ""
    requires gone < |pools| && Lookup(pv.annotations, ANN_DATASET_NAME) !in pools[gone]
    ensures pools[|nows|] == pools[gone]
    ensures forall i :: gone <= i < |nows| ==> oks[i]
    decreases |nows| - gone
  {
    if gone < |nows| {
      assert DatasetGone(pools[gone], pools[gone + 1], pv, nows[gone], oks[gone], warns[gone]);
      RetryAfterRemoval(pools, pv, nows, oks, warns, gone + 1);
    }
  }

  /**
   * A volume to be preserved is destroyed only after its rename failed: as long as none did, all
   * of it sits under the first attempt's quarantine name, from which it can be renamed back.
   */
  lemma PreservedOrWarned(pools: seq<map<string, Dataset>>, pv: PersistentVolume, nows: seq<nat>, oks: seq<bool>,
                          warns: seq<bool>)
    requires Attempts(pools, pv, nows, oks, warns) && |nows| > 0
    requires Lookup(pv.annotations, "subvol.io/snapshot-before-delete") == "true"
    requires Lookup(pv.annotations, ANN_DATASET_NAME) != "" && Lookup(pv.annotations, ANN_DATASET_NAME) in pools[0]
    ensures var name := Lookup(pv.annotations, ANN_DATASET_NAME);
            var kept := ZfsDriver.QuarantineName(name, nows[0]);
            !warns[0] ==>
              && FreeFor(pools[0], name, kept) && pools[|nows|] == Renamed(pools[0], name, kept)
              && Renamed(pools[|nows|], kept, name) == pools[0]
  {
    if !warns[0] {
      assert DatasetGone(pools[0], pools[0 + 1], pv, nows[0], oks[0], warns[0]);
      var name := Lookup(pv.annotations, ANN_DATASET_NAME);
      RenameBack(pools[0], name, ZfsDriver.QuarantineName(name, nows[0]));
      RetryAfterRemoval(pools, pv, nows, oks, warns, 1);
    }
  }

  /** Without preservation, attempts only ever remove from the volume's own subtree. */
  lemma {:induction false} OnlyOwnSubtree(pools: seq<map<string, Dataset>>, pv: PersistentVolume, nows: seq<nat>,
                                          oks: seq<bool>,
                                          warns: seq<bool>, n: nat)
    requires Attempts(pools, pv, nows, oks, warns) && n <= |nows|
    requires Lookup(pv.annotations, "subvol.io/snapshot-before-delete") != "true"
    ensures var name := Lookup(pv.annotations, ANN_DATASET_NAME);
            Without(pools[n], name) == Without(pools[0], name) && pools[n].Items <= pools[0].Items
  {
    if n > 0 {
      OnlyOwnSubtree(pools, pv, nows, oks, warns, n - 1);
      assert DatasetGone(pools[n - 1], pools[n - 1 + 1], pv, nows[n - 1], oks[n - 1], warns[n - 1]);
    }
  }

  ghost predicate DirectoryAttempts(runs: seq<map<string, DirDriver.DirEntry>>, hostPrefix: string,
                                    pv: PersistentVolume,
                                    nows: seq<nat>, oks: seq<bool>, warns: seq<bool>)
  {
    && |runs| == |nows| + 1 && |nows| == |oks| == |warns|
    && forall i :: 0 <= i < |nows| ==> DirectoryGone(runs[i], runs[i + 1], hostPrefix, pv, nows[i], oks[i], warns[i])
  }

  /** The directory sits, whole, beside where it was. */
  ghost predicate SetAside(was: map<string, DirDriver.DirEntry>, now: map<string, DirDriver.DirEntry>, path: string,
                           at: nat) {
    var backup := DirDriver.BackupPath(path, at);
    && FreeFor(was - {backup}, path, backup)
    && now == Renamed(was - {backup}, path, backup)
    && Renamed(now, backup, path) == was - {backup}
  }

  /**
   * A directory to be preserved is removed only after its rename failed: as long as none did, it
   * is either untouched or whole under the backup name of one of the attempts.
   */
  lemma {:induction false} DirectoryPreservedOrWarned(
      runs: seq<map<string, DirDriver.DirEntry>>, hostPrefix: string, pv: PersistentVolume,
      nows: seq<nat>, oks: seq<bool>, warns: seq<bool>, n: nat)
    requires DirectoryAttempts(runs, hostPrefix, pv, nows, oks, warns) && n <= |nows|
    requires Lookup(pv.annotations, "subvol.io/snapshot-before-delete") == "true"
    requires VolumeDir(hostPrefix, pv) in runs[0] && forall i :: 0 <= i < n ==> !warns[i]
    ensures runs[n] == runs[0] || exists at: nat :: SetAside(runs[0], runs[n], VolumeDir(hostPrefix, pv), at)
  {
    if n > 0 {
      var path := VolumeDir(hostPrefix, pv);
      DirectoryPreservedOrWarned(runs, hostPrefix, pv, nows, oks, warns, n - 1);
      assert DirectoryGone(runs[n - 1], runs[n - 1 + 1], hostPrefix, pv, nows[n - 1], oks[n - 1], warns[n - 1]);
      if runs[n - 1] == runs[0] {
        if runs[n] != runs[0] {
          RenameBack(runs[0] - {DirDriver.BackupPath(path, nows[n - 1])}, path, DirDriver.BackupPath(path, nows[n - 1]));
          assert SetAside(runs[0], runs[n], path, nows[n - 1]);
        }
      } else {
        var at: nat :| SetAside(runs[0], runs[n - 1], path, at);
        RenameFrees(runs[0] - {DirDriver.BackupPath(path, at)}, path, DirDriver.BackupPath(path, at));
        assert runs[n] == runs[n - 1];
      }
    }
  }

  /**
   * When the StorageClass cannot be read, a pass takes what it says for unsaid: a property that it
   * alone asks for is planned, or in an authorised pass made, to be reset exactly when it looks
   * locally set; which it does when a single word was set on the dataset.
   */
  lemma UnreadClassResetsExactly(ds: Dataset, pvc: Claim, sc: StorageClass, k: string)
    requires pvc.className.Some? && pvc.className.value != ""
    requires k in KeyValues(Lookup(sc.parameters, PARAM_PROPERTIES)) && Managed(k)
    requires k !in KeyValues(Lookup(pvc.annotations, ANN_PROPERTIES))
    ensures k in Desired(OverlaidProps(ClassOf(pvc, Some(sc)), pvc))
    ensures var cur, want := Current(ds), Desired(OverlaidProps(ClassOf(pvc, None), pvc));
            && (k in Drift(cur, want) <==> k in cur && IsLocallySet(cur[k].source))
            && (k in Drift(cur, want) ==> ChangeFor(cur, want, k) == PropInherit(k, cur[k].value))
    ensures k in ds.local && Word(ds.local[k]) ==> k in Current(ds) && IsLocallySet(Current(ds)[k].source)
  {
    if k in ds.local && Word(ds.local[k]) {
      LocallySetExactly(ds.local[k], Local);
    }
  }

  /**
   * Directory volumes: after an applying pass whose walk did not fail, the next one reports that
   * all is well, without a failure, exactly when every file in scope could be given its owner and
   * neither quota nor properties are asked for.
   */
  lemma DirectoryPasses(attrs0: map<Ino, Attr>, attrs1: map<Ino, Attr>, attrs2: map<Ino, Attr>, place: Option<Node>,
                        wish: StateWish, first: Results, dryRun: bool, second: Results)
    requires DirPassOver(attrs0, attrs1, place, wish, false, first) && first.owner.Ok?
    requires DirPassOver(attrs1, attrs2, place, wish, dryRun, second) && second.owner.Ok?
    ensures place.Some? ==> Covers(attrs0, Scope(place.value, wish.recursive))
    ensures second.NoFailure() && second.NothingReported() <==>
            && wish.quota.None? && wish.props == map[]
            && (place.Some? ==> forall v :: v in Scope(place.value, wish.recursive) && !v.symlink ==>
                  Settles(attrs0[v.ino], wish.ownerMode.owner))
  {
    if place.Some? {
      ScopeCovered(attrs0, place.value, wish.recursive);
      OwnerConverges(attrs0, place.value, wish.ownerMode, wish.recursive, dryRun);
    }
  }
}
