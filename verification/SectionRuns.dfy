/**
 * State sections one after another: that what one of them applied is all there is to do, and
 * exactly when one that applied something, and used up the annotation for it, has left its volume
 * short of what is wanted (pkg/controller/controller.go:848-949).
 */
module SectionRuns {
  import opened Wrappers
  import opened Decimal
  import opened Dataset
  import opened ZfsReconcile
  import opened OwnerMode
  import opened HostTrees
  import opened Claims
  import opened VolumeState
  import opened ControllerSpec
  import opened ControllerResults

  /** What a section has said, between two views */
  function Said(was: LiveView, now: LiveView): seq<Event> {
    if |was.events| <= |now.events| then now.events[|was.events|..] else []
  }

  /** The volume a section is about */
  function VolumeIn(view: LiveView, name: string): Volume
    requires name in view.pool
  {
    Volume(view.pool[name], view.attrs)
  }

  function PlaceIn(site: Site, plan: PassPlan): Option<Node> {
    PlaceOf(plan.backend, site.root, site.hostPrefix, plan.mountPath)
  }

  /** A section that ran over a dataset made one pass over it. */
  lemma SectionMadePass(site: Site, was: LiveView, now: LiveView, pvc: Claim, plan: PassPlan, pass: StatePass, failed: bool)
    requires PassDone(site, was, now, pvc, plan, pass, failed) && plan.backend.ZfsBackend? && plan.name in was.pool
    ensures pass.Ran? && plan.name in now.pool
    ensures var place := PlaceIn(site, plan);
            && Placed(VolumeIn(was, plan.name), place)
            && PassMade(VolumeIn(was, plan.name), VolumeIn(now, plan.name), place, site.canon, plan.wish, plan.dryRun,
                        pass.res, pass.order)
  {
  }

  lemma FailuresBehind(events: seq<Event>, res: Results, more: seq<Event>)
    ensures var all := WithFailures(events, res) + more;
            |events| <= |all| && all[|events|..] == WithFailures([], res) + more
  {
    assert WithFailures(events, res) == events + WithFailures([], res);
  }

  lemma SectionSaid(site: Site, was: LiveView, now: LiveView, pvc: Claim, plan: PassPlan, pass: StatePass, failed: bool)
    requires PassDone(site, was, now, pvc, plan, pass, failed)
    ensures pass.Ran?
    ensures Said(was, now) ==
            WithFailures([], pass.res) + OutcomeEvents(pass.res, ApplyRequested(pvc), plan.dryRun, pass.patched)
  {
    FailuresBehind(was.events, pass.res, OutcomeEvents(pass.res, ApplyRequested(pvc), plan.dryRun, pass.patched));
  }

  lemma UpToDateAmong(res: Results, applyRequested: bool, dryRun: bool, patched: bool)
    ensures VolumeUpToDate in WithFailures([], res) + OutcomeEvents(res, applyRequested, dryRun, patched) <==>
            res.NothingReported()
  {
    UpToDateEvent(res, applyRequested, dryRun, patched);
    assert forall e :: e in WithFailures([], res) ==> e.VolumeUpdateFailed?;
  }

  lemma SaidUpToDate(site: Site, was: LiveView, now: LiveView, pvc: Claim, plan: PassPlan, pass: StatePass, failed: bool)
    requires PassDone(site, was, now, pvc, plan, pass, failed)
    ensures pass.Ran? && (VolumeUpToDate in Said(was, now) <==> pass.res.NothingReported())
  {
    SectionSaid(site, was, now, pvc, plan, pass, failed);
    UpToDateAmong(pass.res, ApplyRequested(pvc), plan.dryRun, pass.patched);
  }

  /**
   * Two sections in a row with the same wish, nothing touching the volume in between, the first
   * applying and without failures: the second, dry or not, changes nothing and says so exactly
   * when everything was attainable.
   */
  lemma SectionsConverge(site: Site, was: LiveView, mid: LiveView, pvc: Claim, plan: PassPlan, pass: StatePass, failed: bool,
                         mid': LiveView, now: LiveView, pvc': Claim, plan': PassPlan, pass': StatePass, failed': bool)
    requires PassDone(site, was, mid, pvc, plan, pass, failed) && plan.backend.ZfsBackend? && plan.name in was.pool
    requires !plan.dryRun && pass.res.NoFailure()
    requires mid'.pool == mid.pool && mid'.attrs == mid.attrs && plan' == plan.(dryRun := plan'.dryRun)
    requires PassDone(site, mid', now, pvc', plan', pass', failed')
    ensures Placed(VolumeIn(was, plan.name), PlaceIn(site, plan))
    ensures var attainable := Attainable(VolumeIn(was, plan.name), PlaceIn(site, plan), site.canon, plan.wish);
            && pass'.Ran?
            && (attainable ==> now.pool == mid.pool && now.attrs == mid.attrs && VolumeUpToDate in Said(mid', now))
            && (pass'.res.NoFailure() ==>
                  && (VolumeUpToDate in Said(mid', now) <==> attainable)
                  && (attainable ==> now.commands == mid'.commands))
  {
    SectionMadePass(site, was, mid, pvc, plan, pass, failed);
    SectionMadePass(site, mid', now, pvc', plan', pass', failed');
    SecondPass(VolumeIn(was, plan.name), VolumeIn(mid, plan.name), VolumeIn(now, plan.name), PlaceIn(site, plan), site.canon,
               plan.wish, pass.res, pass.order, plan'.dryRun, pass'.res, pass'.order);
    SaidUpToDate(site, mid', now, pvc', plan', pass', failed');
    if Attainable(VolumeIn(was, plan.name), PlaceIn(site, plan), site.canon, plan.wish) {
      SameDatasetSamePool(mid', now, plan.name, site, pvc', plan', pass', failed');
    }
  }

  lemma SameDatasetSamePool(was: LiveView, now: LiveView, name: string, site: Site, pvc: Claim, plan: PassPlan, pass: StatePass,
                            failed: bool)
    requires PassDone(site, was, now, pvc, plan, pass, failed) && plan.backend.ZfsBackend? && plan.name == name
    requires name in was.pool && name in now.pool && now.pool[name] == was.pool[name]
    ensures now.pool == was.pool
  {
    assert was.pool[name := was.pool[name]] == was.pool;
  }

  /**
   * The same where no command, call or patch fails and nothing asked for would be refused: then the
   * first section brings the volume to its wish exactly when everything is attainable, and in that
   * case all that the second one has to say is that the volume is up to date.
   */
  lemma SmoothSectionsConverge(
      site: Site, was: LiveView, mid: LiveView, pvc: Claim, plan: PassPlan, pass: StatePass, failed: bool,
      mid': LiveView, now: LiveView, pvc': Claim, plan': PassPlan, pass': StatePass, failed': bool)
    requires PassDone(site, was, mid, pvc, plan, pass, failed) && plan.backend.ZfsBackend? && !plan.dryRun
    requires PassSmooth(was, pvc, Some(Ok(plan)), site.canon, pass, failed) && CanDo(plan, was.pool, site.canon)
    requires QuotaMeant(plan.wish.quota) < INT64_LIMIT
    requires mid'.pool == mid.pool && mid'.attrs == mid.attrs && plan' == plan.(dryRun := plan'.dryRun)
    requires PassDone(site, mid', now, pvc', plan', pass', failed') && (pvc'.ns, pvc'.name) in mid'.annotations
    requires PassSmooth(mid', pvc', Some(Ok(plan')), site.canon, pass', failed')
    ensures plan.name in was.pool && plan.name in mid.pool
    ensures var place := PlaceIn(site, plan);
            && Placed(VolumeIn(was, plan.name), place) && Placed(VolumeIn(mid, plan.name), place)
            && (UpToDate(VolumeIn(mid, plan.name), place, plan.wish) <==>
                  Attainable(VolumeIn(was, plan.name), place, site.canon, plan.wish))
            && (UpToDate(VolumeIn(mid, plan.name), place, plan.wish) <==> VolumeUpToDate in Said(mid', now))
            && (VolumeUpToDate in Said(mid', now) ==>
                  Said(mid', now) == [VolumeUpToDate] && now.pool == mid.pool && now.attrs == mid.attrs)
  {
    SectionMadePass(site, was, mid, pvc, plan, pass, failed);
    var before, after, place := VolumeIn(was, plan.name), VolumeIn(mid, plan.name), PlaceIn(site, plan);
    PassConvergence(before, after, place, site.canon, plan.wish, pass.res, pass.order);
    ApplyBrings(before, after, place, site.canon, plan.wish, pass.res, pass.order);
    assert CanDo(plan', mid'.pool, site.canon);
    SectionsConverge(site, was, mid, pvc, plan, pass, failed, mid', now, pvc', plan', pass', failed');
    SaidUpToDate(site, mid', now, pvc', plan', pass', failed');
    SectionSaid(site, mid', now, pvc', plan', pass', failed');
    if pass'.res.NothingReported() {
      OnlyUpToDate(pass'.res, ApplyRequested(pvc'), plan'.dryRun, pass'.patched);
    }
  }

  lemma OnlyUpToDate(res: Results, applyRequested: bool, dryRun: bool, patched: bool)
    requires res.NoFailure() && res.NothingReported() && (Consumes(res, applyRequested, dryRun) ==> patched)
    ensures WithFailures([], res) + OutcomeEvents(res, applyRequested, dryRun, patched) == [VolumeUpToDate]
  {
    NoChangeLines([], res);
  }

  // ---- Applied, and yet not there ---------------------------------------------------------------------

  predicate SaysApplied(events: seq<Event>) {
    exists e :: e in events && e.VolumeUpdated?
  }

  /** The quota call failed where there was a quota to change. */
  predicate QuotaShort(was: Volume, wish: StateWish, res: Results) {
    res.quota.Err? && QuotaChanges(was.ds.quota, wish.quota) != []
  }

  /** A property drifted whose command did not go through, or cannot cure it. */
  ghost predicate PropsShort(was: Volume, canon: Canon, wish: StateWish, order: seq<string>) {
    exists k :: k in Drift(Current(was.ds), Desired(wish.props)) &&
      !(k in order && Curable(was.ds, canon, Desired(wish.props), k))
  }

  /** The walk went through but some file cannot be given its owner; or it failed and some file still differs. */
  ghost predicate FilesShort(was: Volume, now: Volume, place: Option<Node>, wish: StateWish, res: Results)
    requires Placed(was, place) && Placed(now, place)
  {
    if res.owner.Ok? then
      place.Some? &&
        (ScopeCovered(was.attrs, place.value, wish.recursive);
         exists v :: v in Scope(place.value, wish.recursive) && !v.symlink && !Settles(was.attrs[v.ino], wish.ownerMode.owner))
    else !FilesMeet(now, place, wish)
  }

  lemma QuotaLeft(was: Volume, now: Volume, place: Option<Node>, canon: Canon, wish: StateWish,
                  res: Results, order: seq<string>)
    requires Placed(was, place) && PassMade(was, now, place, canon, wish, false, res, order)
    ensures QuotaChanges(now.ds.quota, wish.quota) != [] <==> QuotaShort(was, wish, res)
  {
  }

  lemma PropsLeft(was: Volume, now: Volume, place: Option<Node>, canon: Canon, wish: StateWish,
                  res: Results, order: seq<string>)
    requires Placed(was, place) && PassMade(was, now, place, canon, wish, false, res, order)
    ensures Drift(Current(now.ds), Desired(wish.props)) != {} <==> PropsShort(was, canon, wish, order)
  {
    DriftLeft(was, now, place, canon, wish, res, order);
    var want := Desired(wish.props);
    var before, left := Drift(Current(was.ds), want), Drift(Current(now.ds), want);
    assert forall k :: k in left <==> k in before && !(k in order && Curable(was.ds, canon, want, k));
    if left != {} {
      var k :| k in left;
      assert k in before;
    }
  }

  lemma FilesLeft(was: Volume, now: Volume, place: Option<Node>, canon: Canon, wish: StateWish,
                  res: Results, order: seq<string>)
    requires Placed(was, place) && PassMade(was, now, place, canon, wish, false, res, order)
    ensures Placed(now, place)
    ensures TreeChanges(now.attrs, place, wish.ownerMode, wish.recursive, true) != [] <==>
            FilesShort(was, now, place, wish, res)
  {
    NeverWorse(was, now, place, canon, wish, res, order);
    PlanEmpty(now, place, wish, true);
    if res.owner.Ok? {
      FilesConverge(was, place, wish, true);
    }
  }

  /** What an applying pass leaves undone, part by part */
  lemma LeftExactly(was: Volume, now: Volume, place: Option<Node>, canon: Canon, wish: StateWish,
                    res: Results, order: seq<string>)
    requires Placed(was, place) && PassMade(was, now, place, canon, wish, false, res, order)
    ensures Placed(now, place)
    ensures !UpToDate(now, place, wish) <==>
            QuotaShort(was, wish, res) || PropsShort(was, canon, wish, order) || FilesShort(was, now, place, wish, res)
  {
    QuotaLeft(was, now, place, canon, wish, res, order);
    PropsLeft(was, now, place, canon, wish, res, order);
    FilesLeft(was, now, place, canon, wish, res, order);
  }

  lemma AppliedEvent(res: Results, applyRequested: bool, patched: bool)
    ensures SaysApplied(WithFailures([], res) + OutcomeEvents(res, applyRequested, false, patched)) <==> !res.NothingReported()
  {
    NoChangeLines([], res);
    var all := WithFailures([], res) + OutcomeEvents(res, applyRequested, false, patched);
    assert forall e :: e in WithFailures([], res) ==> e.VolumeUpdateFailed?;
    if !res.NothingReported() {
      assert all[|WithFailures([], res)|].VolumeUpdated?;
    }
  }

  /**
   * An applying section that was asked for uses up the annotation as soon as it can be removed,
   * whatever failed. It says that it applied something, and has not brought the volume to its
   * wish, exactly when a call that succeeded had something to do and, besides, a quota, a property
   * or a file was left short.
   */
  lemma AppliedShortExactly(site: Site, was: LiveView, now: LiveView, pvc: Claim, plan: PassPlan, pass: StatePass, failed: bool)
    requires PassDone(site, was, now, pvc, plan, pass, failed) && plan.backend.ZfsBackend? && plan.name in was.pool
    requires ApplyRequested(pvc) && !plan.dryRun
    ensures pass.Ran? && plan.name in now.pool
    ensures now.annotations == if pass.patched then ApplyRemoved(was.annotations, pvc.ns, pvc.name) else was.annotations
    ensures Placed(VolumeIn(was, plan.name), PlaceIn(site, plan)) && Placed(VolumeIn(now, plan.name), PlaceIn(site, plan))
    ensures var before, after, place := VolumeIn(was, plan.name), VolumeIn(now, plan.name), PlaceIn(site, plan);
            SaysApplied(Said(was, now)) && !UpToDate(after, place, plan.wish) <==>
            && !NothingSeen(before, place, plan.wish, pass.res)
            && (QuotaShort(before, plan.wish, pass.res) || PropsShort(before, site.canon, plan.wish, pass.order)
                || FilesShort(before, after, place, plan.wish, pass.res))
  {
    SectionMadePass(site, was, now, pvc, plan, pass, failed);
    var before, after, place := VolumeIn(was, plan.name), VolumeIn(now, plan.name), PlaceIn(site, plan);
    LeftExactly(before, after, place, site.canon, plan.wish, pass.res, pass.order);
    SectionSaid(site, was, now, pvc, plan, pass, failed);
    AppliedEvent(pass.res, ApplyRequested(pvc), pass.patched);
    SeenIsReported(before, after, place, site.canon, plan.wish, pass.res, pass.order, false);
  }

  /** A quota of one byte, and a user property */
  const TAGGED: StateWish := ONE_BYTE.(props := map["a:b" := "c"])

  /** For instance: the quota is set, the properties cannot be read, and the pass says that it applied what it did. */
  lemma HalfApplied(canon: Canon, patched: bool)
    ensures var now := Volume(BARE.ds.(quota := 1), BARE.attrs);
            var res := Results(Ok([QuotaChange(0, Some(1))]), Ok([]), Err(ReadFailed));
            && Placed(BARE, None) && Placed(now, None) && PassMade(BARE, now, None, canon, TAGGED, false, res, [])
            && SaysApplied(OutcomeEvents(res, true, false, patched)) && Consumes(res, true, false)
            && !UpToDate(now, None, TAGGED)
  {
    var now := Volume(BARE.ds.(quota := 1), BARE.attrs);
    var res := Results(Ok([QuotaChange(0, Some(1))]), Ok([]), Err(ReadFailed));
    NoChangeLines([], res);
    assert OutcomeEvents(res, true, false, patched)[0].VolumeUpdated?;
    assert "a:b"[1] == ':';
    assert "a:b" in Drift(Current(now.ds), Desired(TAGGED.props));
  }
}
