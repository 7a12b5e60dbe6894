/**
 * What claims and StorageClasses declare, followed to what a live pass is to bring about and what
 * a driver is told to create (pkg/controller/controller.go:443-516, 787-805, 823-902).
 */
module Declarations {
  import opened Wrappers
  import opened Strings
  import opened Decimal
  import opened Paths
  import opened Config
  import opened Templater
  import opened Naming
  import opened Claims
  import opened PvBuilder
  import opened ControllerSpec

  /** The text writes the settings, one "k=v" line each, in some order. */
  ghost predicate Writes(text: string, settings: map<string, string>, order: seq<string>) {
    Printable(settings) && (forall k :: k in order <==> k in settings) && text == PrintLines(settings, order)
  }

  /** The properties asked for are the claim's and the class's, and the claim's where both have a say. */
  ghost predicate Overlays(props: map<string, string>, mine: map<string, string>, theirs: map<string, string>) {
    && props.Keys == mine.Keys + theirs.Keys
    && forall k :: k in props ==> props[k] == if k in mine then mine[k] else theirs[k]
  }

  /** What a live pass is to do, if there is one */
  ghost predicate Passes(drivers: map<string, Backend>, pvc: Claim, pv: PersistentVolume, got: Option<StorageClass>,
                         quantity: string -> Option<int>, plan: PassPlan)
  {
    PlanOfPass(drivers, pvc, pv, got, quantity) == Some(Ok(plan))
  }

  /** What is to be created, if anything is */
  ghost predicate Creates(drivers: map<string, Backend>, pvc: Claim, sc: StorageClass, rendered: Option<string>,
                          quantity: string -> Option<int>, hostPrefix: string, plan: Plan)
  {
    Prepare(drivers, pvc, sc, rendered, quantity, hostPrefix) == Ok(plan)
  }

  // ---- Properties ---------------------------------------------------------------------------------

  lemma PlannedProps(drivers: map<string, Backend>, pvc: Claim, pv: PersistentVolume, got: Option<StorageClass>,
                     quantity: string -> Option<int>, plan: PassPlan)
    requires Passes(drivers, pvc, pv, got, quantity, plan)
    ensures plan.wish.props == OverlaidProps(ClassOf(pvc, got), pvc)
  {
  }

  lemma PassProps(drivers: map<string, Backend>, pvc: Claim, pv: PersistentVolume, sc: StorageClass,
                  quantity: string -> Option<int>, plan: PassPlan,
                  mine: map<string, string>, order: seq<string>, theirs: map<string, string>, order': seq<string>)
    requires Passes(drivers, pvc, pv, Some(sc), quantity, plan)
    requires Writes(Lookup(pvc.annotations, "subvol.io/properties"), mine, order)
    requires Writes(Lookup(sc.parameters, "properties"), theirs, order')
    requires pvc.className.Some? && pvc.className.value != ""
    ensures Overlays(plan.wish.props, mine, theirs)
  {
    PlannedProps(drivers, pvc, pv, Some(sc), quantity, plan);
    KeyValueRoundTrip(mine, order);
    KeyValueRoundTrip(theirs, order');
  }

  /** A class that cannot be read, or is not named, has no say. */
  lemma PassPropsWithoutClass(drivers: map<string, Backend>, pvc: Claim, pv: PersistentVolume, got: Option<StorageClass>,
                              quantity: string -> Option<int>, plan: PassPlan, mine: map<string, string>, order: seq<string>)
    requires Passes(drivers, pvc, pv, got, quantity, plan)
    requires Writes(Lookup(pvc.annotations, "subvol.io/properties"), mine, order)
    requires got.None? || pvc.className.None? || pvc.className.value == ""
    ensures plan.wish.props == mine
  {
    PlannedProps(drivers, pvc, pv, got, quantity, plan);
    KeyValueRoundTrip(mine, order);
    assert map[] + mine == mine;
  }

  lemma CreateProps(drivers: map<string, Backend>, pvc: Claim, sc: StorageClass, rendered: Option<string>,
                    quantity: string -> Option<int>, hostPrefix: string, plan: Plan,
                    mine: map<string, string>, order: seq<string>, theirs: map<string, string>, order': seq<string>)
    requires Creates(drivers, pvc, sc, rendered, quantity, hostPrefix, plan)
    requires Writes(Lookup(pvc.annotations, "subvol.io/properties"), mine, order)
    requires Writes(Lookup(sc.parameters, "properties"), theirs, order')
    ensures Overlays(plan.opts.props, mine, theirs)
  {
    KeyValueRoundTrip(mine, order);
    KeyValueRoundTrip(theirs, order');
  }

  // ---- Quota ----------------------------------------------------------------------------------------

  /** The annotation alone decides where there is one: none, a size, or nothing that can be read. */
  ghost predicate QuotaDeclared(pvc: Claim, quantity: string -> Option<int>, quota: Option<int>) {
    if "subvol.io/quota" in pvc.annotations then
      var text := TrimSpace(pvc.annotations["subvol.io/quota"]);
      if text == "none" || text == "unlimited" then quota.None? else quota.Some? && quantity(text) == quota
    else if pvc.request.Some? && pvc.request.value != 1 then quota == pvc.request
    else quota.None?
  }

  /** The annotation is there and cannot be read. */
  predicate QuotaUnreadable(pvc: Claim, quantity: string -> Option<int>) {
    "subvol.io/quota" in pvc.annotations &&
      var text := TrimSpace(pvc.annotations["subvol.io/quota"]);
      text != "none" && text != "unlimited" && quantity(text).None?
  }

  lemma PassQuota(drivers: map<string, Backend>, pvc: Claim, pv: PersistentVolume, got: Option<StorageClass>,
                  quantity: string -> Option<int>)
    requires Lookup(pv.annotations, "subvol.io/driver") in drivers && Lookup(pv.annotations, "subvol.io/dataset") != ""
    ensures match PlanOfPass(drivers, pvc, pv, got, quantity)
            case Some(Ok(plan)) => QuotaDeclared(pvc, quantity, plan.wish.quota) && !QuotaUnreadable(pvc, quantity)
            case Some(Err(e)) => e == BadQuota && QuotaUnreadable(pvc, quantity)
            case None => false
  {
  }

  /** With the annotation there, what the claim requests as its size makes no difference to anything. */
  lemma RequestOverridden(drivers: map<string, Backend>, pvc: Claim, request: Option<int>, pv: PersistentVolume,
                          got: Option<StorageClass>, sc: StorageClass, rendered: Option<string>,
                          quantity: string -> Option<int>, hostPrefix: string)
    requires "subvol.io/quota" in pvc.annotations
    ensures PlanOfPass(drivers, pvc.(request := request), pv, got, quantity) == PlanOfPass(drivers, pvc, pv, got, quantity)
    ensures Prepare(drivers, pvc.(request := request), sc, rendered, quantity, hostPrefix)
            == Prepare(drivers, pvc, sc, rendered, quantity, hostPrefix)
  {
    var other := pvc.(request := request);
    assert ResolveQuota(other, quantity) == ResolveQuota(pvc, quantity);
    assert RelPath(other, rendered) == RelPath(pvc, rendered);
    assert OverlaidProps(Some(sc), other) == OverlaidProps(Some(sc), pvc);
  }

  /** A driver is told the size declared, or 0 where none is. */
  lemma CreateQuota(drivers: map<string, Backend>, pvc: Claim, sc: StorageClass, rendered: Option<string>,
                    quantity: string -> Option<int>, hostPrefix: string, plan: Plan) returns (quota: Option<int>)
    requires Creates(drivers, pvc, sc, rendered, quantity, hostPrefix, plan)
    ensures QuotaDeclared(pvc, quantity, quota) && plan.opts.quotaBytes == if quota.Some? then quota.value else 0
  {
    quota := ResolveQuota(pvc, quantity).value;
  }

  // ---- Owner and mode -----------------------------------------------------------------------------------

  /** The text declares the owner, or none, or nothing that can be read. */
  ghost predicate OwnerWritten(text: string, owner: Option<Ownership>) {
    if owner.Some? then
      && -INT64_LIMIT <= owner.value.uid < INT64_LIMIT && -INT64_LIMIT <= owner.value.gid < INT64_LIMIT
      && text == FormatInt(owner.value.uid) + ":" + FormatInt(owner.value.gid)
    else TrimSpace(text) == "" || ':' !in TrimSpace(text)
  }

  /** The text declares the mode in octal, behind any zeros, or none, or nothing that can be read. */
  ghost predicate ModeWritten(text: string, mode: Option<nat>) {
    if mode.Some? then exists zeros: nat, u: nat, g: nat, o: nat :: OctalText(text, mode.value, zeros, u, g, o)
    else !IsNumeral(TrimSpace(text), 8)
  }

  /** Three octal digits, for user, group and others, behind zeros */
  predicate OctalText(text: string, mode: nat, zeros: nat, u: nat, g: nat, o: nat) {
    && u < 8 && g < 8 && o < 8 && mode == 64 * u + 8 * g + o
    && text == Zeros(zeros) + [Digit(u), Digit(g), Digit(o)]
  }

  lemma OwnerRead(text: string, owner: Option<Ownership>)
    requires OwnerWritten(text, owner)
    ensures DeclaredOwner(text) == owner
  {
    if owner.Some? {
      OwnershipRoundTrip(owner.value);
    } else if TrimSpace(text) != "" {
      SplitNone(TrimSpace(text), ':');
    }
  }

  lemma ModeRead(text: string, mode: Option<nat>)
    requires ModeWritten(text, mode)
    ensures DeclaredMode(text) == mode
  {
    if mode.Some? {
      var zeros: nat, u: nat, g: nat, o: nat :| OctalText(text, mode.value, zeros, u, g, o);
      FileModeOctal(zeros, u, g, o);
    } else {
      FileModeRefused(text);
    }
  }

  /** A pass enforces what the claim itself declares of owner and mode, whatever defaults its class has. */
  lemma PassOwnerMode(drivers: map<string, Backend>, pvc: Claim, pv: PersistentVolume, got: Option<StorageClass>,
                      quantity: string -> Option<int>, plan: PassPlan, owner: Option<Ownership>, mode: Option<nat>)
    requires Passes(drivers, pvc, pv, got, quantity, plan)
    requires OwnerWritten(Lookup(pvc.annotations, "subvol.io/owner"), owner)
    requires ModeWritten(Lookup(pvc.annotations, "subvol.io/mode"), mode)
    ensures plan.wish.ownerMode.owner == owner && plan.wish.ownerMode.mode == mode
    ensures plan.wish.recursive <==> Lookup(pvc.annotations, "subvol.io/recursive") == "true"
  {
    OwnerRead(Lookup(pvc.annotations, "subvol.io/owner"), owner);
    ModeRead(Lookup(pvc.annotations, "subvol.io/mode"), mode);
  }

  /** The claim's own text, or that of its class where it has none */
  function OwnOr(pvc: Claim, annotation: string, sc: StorageClass, parameter: string): string {
    if annotation in pvc.annotations && pvc.annotations[annotation] != "" then pvc.annotations[annotation]
    else if parameter in sc.parameters then sc.parameters[parameter]
    else ""
  }

  /** A volume is created with what the claim declares, or its class where the claim says nothing. */
  lemma CreateOwnerMode(drivers: map<string, Backend>, pvc: Claim, sc: StorageClass, rendered: Option<string>,
                        quantity: string -> Option<int>, hostPrefix: string, plan: Plan,
                        owner: Option<Ownership>, mode: Option<nat>)
    requires Creates(drivers, pvc, sc, rendered, quantity, hostPrefix, plan)
    requires OwnerWritten(OwnOr(pvc, "subvol.io/owner", sc, "defaultOwner"), owner)
    requires ModeWritten(OwnOr(pvc, "subvol.io/mode", sc, "defaultMode"), mode)
    ensures plan.opts.owner == owner && plan.opts.mode == mode
  {
    var ownerText, modeText := OwnOr(pvc, "subvol.io/owner", sc, "defaultOwner"), OwnOr(pvc, "subvol.io/mode", sc, "defaultMode");
    OwnerRead(ownerText, owner);
    ModeRead(modeText, mode);
    PreparedTexts(drivers, pvc, sc, rendered, quantity, hostPrefix, plan);
  }

  lemma PreparedTexts(drivers: map<string, Backend>, pvc: Claim, sc: StorageClass, rendered: Option<string>,
                      quantity: string -> Option<int>, hostPrefix: string, plan: Plan)
    requires Creates(drivers, pvc, sc, rendered, quantity, hostPrefix, plan)
    ensures plan.opts.owner == DeclaredOwner(OwnOr(pvc, "subvol.io/owner", sc, "defaultOwner"))
    ensures plan.opts.mode == DeclaredMode(OwnOr(pvc, "subvol.io/mode", sc, "defaultMode"))
  {
  }

  // ---- Authorisation --------------------------------------------------------------------------------------

  /** A pass applies exactly when the claim or a class that could be read asks for it, and the claim does not forbid it. */
  lemma PassApplies(drivers: map<string, Backend>, pvc: Claim, pv: PersistentVolume, got: Option<StorageClass>,
                    quantity: string -> Option<int>, plan: PassPlan)
    requires Passes(drivers, pvc, pv, got, quantity, plan)
    ensures !plan.dryRun <==>
            && !("subvol.io/dry-run" in pvc.annotations && pvc.annotations["subvol.io/dry-run"] == "true")
            && (|| ("subvol.io/apply" in pvc.annotations && pvc.annotations["subvol.io/apply"] == "true")
                || (pvc.className.Some? && pvc.className.value != "" && got.Some?
                    && "autoApply" in got.value.parameters && got.value.parameters["autoApply"] == "true"))
  {
  }

  // ---- What is refused ----------------------------------------------------------------------------------

  /** The driver a class names, "zfs" when it names none */
  function DriverOf(sc: StorageClass): string {
    if "driver" in sc.parameters && sc.parameters["driver"] != "" then sc.parameters["driver"] else "zfs"
  }

  /** The path a claim is to have: its own, or what an accepted template rendered */
  ghost predicate PathSettled(pvc: Claim, rendered: Option<string>, path: string) {
    if "subvol.io/subvol" in pvc.annotations && pvc.annotations["subvol.io/subvol"] != "" then
      path == pvc.annotations["subvol.io/subvol"]
    else
      && rendered.Some? && path == Clean(TrimSet(rendered.value, {'/', ' '}))
      && !(|path| >= 2 && path[0] == '.' && path[1] == '.')
  }

  /** A claim is refused for the first of four reasons that applies, and otherwise gets the driver and path it is meant to. */
  lemma RefusedExactly(drivers: map<string, Backend>, pvc: Claim, sc: StorageClass, rendered: Option<string>,
                       quantity: string -> Option<int>, hostPrefix: string)
    ensures match Prepare(drivers, pvc, sc, rendered, quantity, hostPrefix)
            case Err(why) =>
              if DriverOf(sc) !in drivers then why == NoSuchDriver
              else if pvc.block then why == BlockVolume
              else if !exists path :: PathSettled(pvc, rendered, path) then why == BadTemplate
              else why == BadQuota && QuotaUnreadable(pvc, quantity)
            case Ok(plan) =>
              && DriverOf(sc) in drivers && plan.driver == DriverOf(sc) && plan.backend == drivers[plan.driver]
              && !pvc.block && !QuotaUnreadable(pvc, quantity) && plan.opts.hostPrefix == hostPrefix
              && (plan.opts.adoptExisting <==> Lookup(pvc.annotations, "subvol.io/adopt-existing") == "true")
              && exists path :: PathSettled(pvc, rendered, path)
                   && plan.opts.name == DatasetName(Lookup(sc.parameters, "parent"), path)
                   && plan.opts.mountPath == MountPath(Lookup(sc.parameters, "mountPrefix"), path)
  {
    if Lookup(pvc.annotations, "subvol.io/subvol") != "" {
      assert PathSettled(pvc, rendered, pvc.annotations["subvol.io/subvol"]);
    } else if rendered.Some? {
      TemplateAccepted(rendered.value);
      var path := Clean(TrimSet(rendered.value, {'/', ' '}));
      assert HasPrefix(path, "..") <==> |path| >= 2 && path[0] == '.' && path[1] == '.';
      assert PathSettled(pvc, rendered, path) <==> RelPath(pvc, rendered).Some?;
    }
  }

  /** The parent's own slashes do not matter, however many there are at its ends. */
  lemma ParentUnwrapped(a: string, parent: string, b: string, relPath: string)
    requires parent != "" && parent[0] != '/' && parent[|parent| - 1] != '/' && forall c :: c in a || c in b ==> c == '/'
    ensures DatasetName(a + parent + b, relPath) == parent + "/" + relPath
    ensures DatasetName(a, relPath) == relPath
  {
    TrimSetUnwraps(a, parent, b, {'/'});
    TrimSetFront(a, "", {'/'});
    assert a + "" == a;
  }

  /** Without a mount prefix the choice is left to the driver; a slash behind the prefix does not matter. */
  lemma MountPrefixOptional(prefix: string, relPath: string)
    ensures MountPath(prefix, relPath) == "" <==> prefix == "" || prefix == "/"
    ensures prefix == "" || prefix[|prefix| - 1] != '/' ==> MountPath(prefix + "/", relPath) == MountPath(prefix, relPath)
  {
    if relPath == "" {
      CleanNotEmpty(TrimSuffix(prefix, '/'));
    } else {
      CleanNotEmpty(TrimSuffix(prefix, '/') + "/" + relPath);
    }
    assert (prefix + "/")[..|prefix|] == prefix;
  }

  // ---- Leading back ---------------------------------------------------------------------------------------

  /** A live pass over a recorded volume goes to the driver, the dataset and the mount path that were recorded. */
  lemma PassFollowsRecord(pvc: Claim, sc: StorageClass, provisioner: string, driver: string, dataset: string,
                          mountPath: string, node: string, drivers: map<string, Backend>, later: Claim,
                          got: Option<StorageClass>, quantity: string -> Option<int>)
    requires node != "" && mountPath != ""
    ensures var built := BuildPersistentVolume(pvc, sc, provisioner, driver, dataset, mountPath, node);
            built.Ok? &&
            match PlanOfPass(drivers, later, built.value, got, quantity)
            case None => driver !in drivers || dataset == ""
            case Some(Err(_)) => QuotaUnreadable(later, quantity)
            case Some(Ok(plan)) =>
              driver in drivers && plan.backend == drivers[driver] && plan.name == dataset && plan.mountPath == mountPath
  {
    RecordTies(pvc, sc, provisioner, driver, dataset, mountPath, node, "");
  }
}
