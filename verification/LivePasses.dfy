/**
 * The live pass in the histories of the apply annotation: that what the state section promises of
 * one pass (pkg/controller/controller.go:848-948) makes a run of them one-shot.
 */
module LivePasses {
  import opened Wrappers
  import opened Claims
  import opened ControllerResults
  import opened ControllerSpec
  import opened VolumeState
  import opened ZfsReconcile
  import ApplyOnce
  import Dataset

  /** The pass changed its volume. */
  predicate VolumeChanged(was: LiveView, now: LiveView) {
    now.pool != was.pool || now.attrs != was.attrs
  }

  /** A pass as the history of the annotation sees it */
  function EventsOf(read: map<string, string>, pass: StatePass, changed: bool): seq<ApplyOnce.Event>
    requires pass.Ran?
  {
    [ApplyOnce.Begin(read)] + (if changed then [ApplyOnce.Mutate] else [])
    + [if Consumes(pass.res, ApplyOnce.Asks(read), pass.dryRun) then ApplyOnce.RemoveApply(pass.patched) else ApplyOnce.GiveUp]
  }

  lemma DryPassChangesNothing(site: Site, was: LiveView, now: LiveView, pvc: Claim, plan: PassPlan, pass: StatePass, failed: bool)
    requires PassDone(site, was, now, pvc, plan, pass, failed)
    ensures VolumeChanged(was, now) ==> !pass.dryRun
  {
  }

  /** The annotations of a claim that is in the cluster */
  predicate HasAnnotations(view: LiveView, pvc: Claim, annotations: map<string, string>) {
    (pvc.ns, pvc.name) in view.annotations && view.annotations[(pvc.ns, pvc.name)] == annotations
  }

  lemma RunAppend(c: ApplyOnce.Config, s: ApplyOnce.State, a: seq<ApplyOnce.Event>, b: seq<ApplyOnce.Event>)
    requires ApplyOnce.Run(c, s, a).Some?
    ensures ApplyOnce.Run(c, s, a + b) == ApplyOnce.Run(c, ApplyOnce.Run(c, s, a).value, b)
  {
    if b == [] {
      assert a + b == a;
    } else {
      assert (a + b)[..|a + b| - 1] == a + b[..|b| - 1];
      RunAppend(c, s, a, b[..|b| - 1]);
    }
  }

  lemma RunOne(c: ApplyOnce.Config, s: ApplyOnce.State, e: ApplyOnce.Event)
    ensures ApplyOnce.Run(c, s, [e]) == ApplyOnce.Next(c, s, e)
  {
    assert [e][..0] == [];
    assert ApplyOnce.Run(c, s, [e][..0]) == Some(s);
  }

  /** A pass that read the claim's annotations as given, on its way to a volume changed or not */
  lemma BeginAndMutate(c: ApplyOnce.Config, s: ApplyOnce.State, read: map<string, string>, changed: bool)
    requires s.pass.None? && (c.live ==> read == s.pvc.annotations)
    requires changed ==> Authorised(s.pvc.(annotations := read), c.sc)
    ensures var es := [ApplyOnce.Begin(read)] + if changed then [ApplyOnce.Mutate] else [];
            ApplyOnce.Run(c, s, es) ==
              Some(s.(pass := Some(ApplyOnce.LivePass(
                          ApplyOnce.Asks(read), Authorised(s.pvc.(annotations := read), c.sc), changed)),
                      mutating := s.mutating + if changed then 1 else 0))
  {
    RunOne(c, s, ApplyOnce.Begin(read));
    var begun := ApplyOnce.Next(c, s, ApplyOnce.Begin(read)).value;
    if changed {
      RunOne(c, begun, ApplyOnce.Mutate);
      RunAppend(c, s, [ApplyOnce.Begin(read)], [ApplyOnce.Mutate]);
    } else {
      assert [ApplyOnce.Begin(read)] + [] == [ApplyOnce.Begin(read)];
    }
  }

  /**
   * What the state section promises of a pass makes it a run of the history: it changes the volume
   * only if authorised, an authorised pass that was asked for ends by removing the annotation or
   * failing to, and the annotations are then what the history says.
   */
  lemma PassIsARun(c: ApplyOnce.Config, s: ApplyOnce.State, site: Site, was: LiveView, now: LiveView, pvc: Claim,
                   plan: PassPlan, pass: StatePass, failed: bool)
    requires PassDone(site, was, now, pvc, plan, pass, failed) && plan.dryRun == !Authorised(pvc, c.sc)
    requires s.pass.None? && pvc == s.pvc.(annotations := pvc.annotations)
    requires c.live ==> pvc.annotations == s.pvc.annotations
    requires HasAnnotations(was, pvc, s.pvc.annotations)
    ensures var t := ApplyOnce.Run(c, s, EventsOf(pvc.annotations, pass, VolumeChanged(was, now)));
            && t.Some? && t.value.pass.None? && t.value.sets == s.sets
            && t.value.mutating == s.mutating + (if VolumeChanged(was, now) then 1 else 0)
            && t.value.unremoved == s.unremoved + (if failed && !pass.dryRun then 1 else 0)
            && t.value.pvc == s.pvc.(annotations := t.value.pvc.annotations)
            && HasAnnotations(now, pvc, t.value.pvc.annotations)
  {
    DryPassChangesNothing(site, was, now, pvc, plan, pass, failed);
    AnnotationsAfter(site, was, now, pvc, plan, pass, failed, s.pvc.annotations);
    EventsRun(c, s, pvc.annotations, pass, VolumeChanged(was, now));
  }

  /** The events of a pass that was authorised as it should be, and changed nothing if dry */
  lemma EventsRun(c: ApplyOnce.Config, s: ApplyOnce.State, read: map<string, string>, pass: StatePass, changed: bool)
    requires s.pass.None? && (c.live ==> read == s.pvc.annotations)
    requires pass.Ran? && pass.dryRun == !Authorised(s.pvc.(annotations := read), c.sc) && (changed ==> !pass.dryRun)
    ensures var t := ApplyOnce.Run(c, s, EventsOf(read, pass, changed));
            var used := Consumes(pass.res, ApplyOnce.Asks(read), pass.dryRun);
            t == Some(s.(mutating := s.mutating + (if changed then 1 else 0),
                         unremoved := s.unremoved + (if used && !pass.patched && !pass.dryRun then 1 else 0),
                         pvc := if used && pass.patched then s.pvc.(annotations := s.pvc.annotations - {ANN_APPLY}) else s.pvc))
  {
    BeginAndMutate(c, s, read, changed);
    var first := [ApplyOnce.Begin(read)] + if changed then [ApplyOnce.Mutate] else [];
    var used := Consumes(pass.res, ApplyOnce.Asks(read), pass.dryRun);
    var last := if used then ApplyOnce.RemoveApply(pass.patched) else ApplyOnce.GiveUp;
    RunAppend(c, s, first, [last]);
    RunOne(c, ApplyOnce.Run(c, s, first).value, last);
  }

  /** What becomes of the annotations */
  lemma AnnotationsAfter(site: Site, was: LiveView, now: LiveView, pvc: Claim, plan: PassPlan, pass: StatePass, failed: bool,
                         annotations: map<string, string>)
    requires PassDone(site, was, now, pvc, plan, pass, failed) && HasAnnotations(was, pvc, annotations)
    ensures pass.Ran?
    ensures var used := Consumes(pass.res, ApplyRequested(pvc), pass.dryRun);
            && HasAnnotations(now, pvc, if used && pass.patched then annotations - {ANN_APPLY} else annotations)
            && (failed <==> used && !pass.patched)
  {
  }

  // ---- Histories ------------------------------------------------------------------------------------

  /**
   * The owner edits the claim's annotations; a pass runs; or a pass is cut off by a crash, by then
   * having changed the volume or not.
   */
  datatype Turn =
    | Edited(annotations: map<string, string>)
    | Passed(site: Site, was: LiveView, now: LiveView, pvc: Claim, plan: PassPlan, pass: StatePass, failed: bool)
    | CutOff(read: map<string, string>, changed: bool)

  function TurnEvents(turn: Turn): seq<ApplyOnce.Event>
    requires turn.Passed? ==> turn.pass.Ran?
  {
    match turn
    case Edited(annotations) => [ApplyOnce.Annotate(annotations)]
    case Passed(_, was, now, pvc, _, pass, _) => EventsOf(pvc.annotations, pass, VolumeChanged(was, now))
    case CutOff(read, changed) =>
      [ApplyOnce.Begin(read)] + (if changed then [ApplyOnce.Mutate] else []) + [ApplyOnce.Crash]
  }

  /** The turn can follow: passes keep what the state section promises, and read the annotations live. */
  ghost predicate CanFollow(c: ApplyOnce.Config, s: ApplyOnce.State, turn: Turn) {
    match turn
    case Edited(_) => true
    case Passed(site, was, now, pvc, plan, pass, failed) =>
      && PassDone(site, was, now, pvc, plan, pass, failed) && plan.dryRun == !Authorised(pvc, c.sc)
      && pvc == s.pvc && HasAnnotations(was, pvc, s.pvc.annotations)
    case CutOff(read, changed) =>
      read == s.pvc.annotations && (changed ==> Authorised(s.pvc.(annotations := read), c.sc))
  }

  function Changing(turn: Turn): nat {
    match turn
    case Edited(_) => 0
    case Passed(_, was, now, _, _, _, _) => if VolumeChanged(was, now) then 1 else 0
    case CutOff(_, changed) => if changed then 1 else 0
  }

  /** The turn was an edit that asked for a pass where nothing had asked before. */
  function Asking(pvc: Claim, turn: Turn): nat {
    if turn.Edited? && Lookup(pvc.annotations, ANN_APPLY) != "true" && Lookup(turn.annotations, ANN_APPLY) == "true" then 1 else 0
  }

  /** The turn was an authorised pass that did not get to remove the annotation. */
  function Leaving(c: ApplyOnce.Config, pvc: Claim, turn: Turn): nat {
    match turn
    case Edited(_) => 0
    case Passed(_, _, _, _, _, pass, failed) => if failed && pass.Ran? && !pass.dryRun then 1 else 0
    case CutOff(read, _) => if Authorised(pvc.(annotations := read), c.sc) then 1 else 0
  }

  lemma TurnIsARun(c: ApplyOnce.Config, s: ApplyOnce.State, turn: Turn)
    requires s.pass.None? && CanFollow(c, s, turn)
    ensures turn.Passed? ==> turn.pass.Ran?
    ensures var t := ApplyOnce.Run(c, s, TurnEvents(turn));
            && t.Some? && t.value.pass.None? && t.value.mutating == s.mutating + Changing(turn)
            && t.value.unremoved == s.unremoved + Leaving(c, s.pvc, turn)
            && t.value.sets == s.sets + Asking(s.pvc, turn)
  {
    match turn
    case Edited(annotations) => RunOne(c, s, ApplyOnce.Annotate(annotations));
    case Passed(site, was, now, pvc, plan, pass, failed) => PassIsARun(c, s, site, was, now, pvc, plan, pass, failed);
    case CutOff(read, changed) =>
      BeginAndMutate(c, s, read, changed);
      var first := [ApplyOnce.Begin(read)] + if changed then [ApplyOnce.Mutate] else [];
      RunAppend(c, s, first, [ApplyOnce.Crash]);
      RunOne(c, ApplyOnce.Run(c, s, first).value, ApplyOnce.Crash);
  }

  /** The state of the annotation after some turns */
  ghost function After(c: ApplyOnce.Config, s: ApplyOnce.State, turns: seq<Turn>): Option<ApplyOnce.State> {
    if turns == [] then Some(s)
    else
      var before := After(c, s, turns[..|turns| - 1]);
      var turn := turns[|turns| - 1];
      if before.None? || before.value.pass.Some? || !CanFollow(c, before.value, turn) then None
      else TurnIsARun(c, before.value, turn); ApplyOnce.Run(c, before.value, TurnEvents(turn))
  }

  /** How many passes changed the volume */
  function ChangingCount(turns: seq<Turn>): nat {
    if turns == [] then 0 else ChangingCount(turns[..|turns| - 1]) + Changing(turns[|turns| - 1])
  }

  /** Any history of edits, passes and crashes is a run. */
  lemma {:induction false} HistoryIsARun(c: ApplyOnce.Config, s: ApplyOnce.State, turns: seq<Turn>)
      returns (es: seq<ApplyOnce.Event>)
    requires s.pass.None? && After(c, s, turns).Some?
    ensures ApplyOnce.Run(c, s, es) == After(c, s, turns) && After(c, s, turns).value.pass.None?
    ensures After(c, s, turns).value.mutating == s.mutating + ChangingCount(turns)
  {
    if turns == [] {
      es := [];
    } else {
      var turn := turns[|turns| - 1];
      var first := HistoryIsARun(c, s, turns[..|turns| - 1]);
      var before := After(c, s, turns[..|turns| - 1]).value;
      TurnIsARun(c, before, turn);
      RunAppend(c, s, first, TurnEvents(turn));
      es := first + TurnEvents(turn);
    }
  }

  /**
   * One-shot authorisation of the controller's own passes: in any history of edits, passes that
   * keep what the state section promises, and crashes, without autoApply, the passes that changed
   * the volume are at most as many as the times it was annotated plus the authorised passes that
   * left the annotation in place.
   */
  lemma HistoryPaidFor(c: ApplyOnce.Config, s: ApplyOnce.State, turns: seq<Turn>)
    requires c.live && !AutoApply(c.sc) && ApplyOnce.Initial(s) && After(c, s, turns).Some?
    ensures var t := After(c, s, turns).value; ChangingCount(turns) <= t.sets + t.unremoved
  {
    var es := HistoryIsARun(c, s, turns);
    ApplyOnce.AppliesPaidFor(c, s, es);
  }

  // ---- Reading from a lister ------------------------------------------------------------------------

  /** A site, and the plan for a volume without files whose quota is to be one byte */
  const HERE := Site("n", "p", "", map[], None, (k: string, v: string) => v, (name: string) => map[])
  const ONE_BYTE_PLAN := PassPlan(ZfsBackend, "v", "", ONE_BYTE, false)

  function Sized(quota: nat): map<string, Dataset.Dataset> {
    map["v" := Dataset.Dataset(quota, map[], map[])]
  }

  /** The section that finds no quota, sets it, and removes the annotation */
  const SETS_QUOTA := Ran(ONE_BYTE, false, Results(Ok([QuotaChange(0, Some(1))]), Ok([]), Ok([])), [], true)

  function BeforeSet(annotations: map<(string, string), map<string, string>>, events: seq<Event>): LiveView {
    LiveView(Sized(0), map[], annotations, events, 0)
  }

  function AfterSet(pvc: Claim, was: LiveView): LiveView {
    LiveView(Sized(1), map[], ApplyRemoved(was.annotations, pvc.ns, pvc.name),
             was.events + [VolumeUpdated([QuotaLine(QuotaChange(0, Some(1)))])], 1)
  }

  lemma SetsQuota(pvc: Claim, annotations: map<(string, string), map<string, string>>, events: seq<Event>)
    requires ApplyRequested(pvc)
    ensures var was := BeforeSet(annotations, events);
            && PassDone(HERE, was, AfterSet(pvc, was), pvc, ONE_BYTE_PLAN, SETS_QUOTA, false)
            && VolumeChanged(was, AfterSet(pvc, was))
  {
    var was := BeforeSet(annotations, events);
    assert Dataset.Drift(Dataset.Current(was.pool["v"]), Dataset.Desired(ONE_BYTE.props)) == {};
    assert Changes(SETS_QUOTA.res) == [QuotaLine(QuotaChange(0, Some(1)))];
    assert Sized(1) == Sized(0)["v" := Sized(1)["v"]];
    assert Sized(0)["v"] != Sized(1)["v"];
  }

  /**
   * With a lister that lags behind, one annotation pays for two sections that each change the
   * volume: the first sets the quota and removes the annotation, the quota is taken away again by
   * hand, and the second section still sees the annotation, and sets it again.
   */
  lemma StaleSectionsApplyTwice(c: ApplyOnce.Config, s: ApplyOnce.State, asking: map<string, string>)
      returns (t: ApplyOnce.State, es: seq<ApplyOnce.Event>)
    requires !c.live && c.sc.None? && ApplyOnce.Initial(s)
    requires ApplyOnce.Asks(asking) && Lookup(asking, ANN_DRY_RUN) != "true"
    ensures var pvc := s.pvc.(annotations := asking);
            var first := BeforeSet(map[(pvc.ns, pvc.name) := asking], []);
            var second := BeforeSet(AfterSet(pvc, first).annotations, AfterSet(pvc, first).events);
            && PassDone(HERE, first, AfterSet(pvc, first), pvc, ONE_BYTE_PLAN, SETS_QUOTA, false)
            && PassDone(HERE, second, AfterSet(pvc, second), pvc, ONE_BYTE_PLAN, SETS_QUOTA, false)
            && VolumeChanged(first, AfterSet(pvc, first)) && VolumeChanged(second, AfterSet(pvc, second))
    ensures es == [ApplyOnce.Annotate(asking)] + EventsOf(asking, SETS_QUOTA, true) + EventsOf(asking, SETS_QUOTA, true)
    ensures ApplyOnce.Run(c, s, es) == Some(t) && t.mutating == 2 && t.sets == 1 && t.unremoved == 0
  {
    var pvc := s.pvc.(annotations := asking);
    var first := BeforeSet(map[(pvc.ns, pvc.name) := asking], []);
    SetsQuota(pvc, first.annotations, []);
    SetsQuota(pvc, AfterSet(pvc, first).annotations, AfterSet(pvc, first).events);
    RunOne(c, s, ApplyOnce.Annotate(asking));
    var asked := ApplyOnce.Next(c, s, ApplyOnce.Annotate(asking)).value;
    EventsRun(c, asked, asking, SETS_QUOTA, true);
    var once := ApplyOnce.Run(c, asked, EventsOf(asking, SETS_QUOTA, true)).value;
    EventsRun(c, once, asking, SETS_QUOTA, true);
    t := ApplyOnce.Run(c, once, EventsOf(asking, SETS_QUOTA, true)).value;
    RunAppend(c, s, [ApplyOnce.Annotate(asking)], EventsOf(asking, SETS_QUOTA, true));
    RunAppend(c, s, [ApplyOnce.Annotate(asking)] + EventsOf(asking, SETS_QUOTA, true), EventsOf(asking, SETS_QUOTA, true));
    es := [ApplyOnce.Annotate(asking)] + EventsOf(asking, SETS_QUOTA, true) + EventsOf(asking, SETS_QUOTA, true);
  }
}
