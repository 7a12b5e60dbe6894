/**
 * What becomes of the records that provisioning makes: which node deletes them, and whether any
 * does (pkg/controller/pv_builder.go:24-107; pkg/controller/controller.go:320-334, 392-415, 666-685).
 */
module Records {
  import opened Wrappers
  import opened Strings
  import opened Claims
  import opened PvBuilder
  import opened ControllerSpec
  import ZfsDriver

  /**
   * Deletion by policy: a released volume is taken up by its own provisioner, on its own node,
   * exactly under the policy Delete.
   */
  lemma DeletedByPolicy(pvc: Claim, sc: StorageClass, provisioner: string, driver: string, dataset: string,
                        mountPath: string, node: string, provisioner': string, node': string)
    requires node != "" && mountPath != ""
    ensures var built := BuildPersistentVolume(pvc, sc, provisioner, driver, dataset, mountPath, node);
            && built.Ok? && !ToBeDeleted(provisioner', node', built.value)
            && (ToBeDeleted(provisioner', node', built.value.(phase := Released)) <==>
                  && sc.reclaimPolicy == Some(ReclaimPolicy.Delete)
                  && provisioner' == provisioner && (node' == node || node' == ""))
  {
    RecordTies(pvc, sc, provisioner, driver, dataset, mountPath, node, node');
    var pv := BuildPersistentVolume(pvc, sc, provisioner, driver, dataset, mountPath, node).value;
    assert IsPvOnThisNode(node', pv.(phase := Released)) == IsPvOnThisNode(node', pv);
  }

  /**
   * A class with another policy, or none: no volume that an attempt under it records is ever taken
   * up for deletion, by whatever controller and in whatever phase.
   */
  lemma RetainedForGood(site: Site, was: ClaimView, now: ClaimView, pvc: Claim, sc: StorageClass,
                        seen: Option<PersistentVolume>, seenAfter: Option<PersistentVolume>,
                        rendered: Option<string>, quantity: string -> Option<int>,
                        r: Result<(), ControllerError>, outcome: ClaimPass,
                        made: Option<ZfsDriver.VolumeInfo>, warned: bool,
                        name: string, phase: VolumePhase, provisioner: string, node: string)
    requires ClaimAttempted(site, was, now, pvc, sc, seen, seenAfter, rendered, quantity, r, outcome, made, warned)
    requires sc.reclaimPolicy != Some(ReclaimPolicy.Delete) && name in now.pvs && name !in was.pvs
    ensures !ToBeDeleted(provisioner, node, now.pvs[name].(phase := phase))
  {
  }

  /** The node that a named controller records is its own. */
  lemma OwnNodeRecorded(nodeName: string, pvc: Claim, sc: StorageClass)
    requires nodeName != ""
    ensures NodeFor(nodeName, pvc, sc) == nodeName
  {
  }

  /** A central controller takes up every claim; the node that it records, if any, is the one the claim is meant for. */
  lemma MeantNodeRecorded(pvc: Claim, sc: StorageClass, other: string)
    ensures IsNodeTargeted("", sc, pvc)
    ensures NodeFor("", pvc, sc) != "" && other != "" ==> (IsNodeTargeted(other, sc, pvc) <==> other == NodeFor("", pvc, sc))
    ensures NodeFor("", pvc, sc) == "" && other != "" ==> (IsNodeTargeted(other, sc, pvc) <==> !sc.waitForFirstConsumer)
  {
  }

  /** A record without affinity belongs to every node, and every record to a central controller. */
  lemma Unbound(pv: PersistentVolume, node: string)
    requires pv.affinity.None? || node == ""
    ensures IsPvOnThisNode(node, pv)
  {
  }

  /**
   * An attempt stops at a record under its volume's name exactly when that record is the claim's
   * own; another claim's record neither passes for it nor lets the attempt succeed, and the record
   * that an attempt makes stops every later one.
   */
  lemma OwnRecordOnly(site: Site, was: ClaimView, now: ClaimView, pvc: Claim, sc: StorageClass,
                      seen: Option<PersistentVolume>, seenAfter: Option<PersistentVolume>,
                      rendered: Option<string>, quantity: string -> Option<int>,
                      r: Result<(), ControllerError>, outcome: ClaimPass,
                      made: Option<ZfsDriver.VolumeInfo>, warned: bool)
    requires ClaimAttempted(site, was, now, pvc, sc, seen, seenAfter, rendered, quantity, r, outcome, made, warned)
    ensures outcome.AlreadyThere? <==> seen.Some? && seen.value.claimUid == pvc.uid
    ensures outcome.AlreadyThere? ==> r.Ok? && now == was
    ensures r.Ok? && PvName(pvc.uid) in was.pvs && !outcome.AlreadyThere? ==>
              outcome.RecordedByOther? && seenAfter.Some? && seenAfter.value.claimUid == pvc.uid
    ensures r.Ok? && PvName(pvc.uid) !in was.pvs && !outcome.AlreadyThere? ==>
              PvName(pvc.uid) in now.pvs && BelongsTo(Some(now.pvs[PvName(pvc.uid)]), pvc)
  {
  }

  // ---- Keys of inProgress ---------------------------------------------------------------------------

  lemma SlashSplits(a: string, b: string, c: string, d: string)
    requires '/' !in a && '/' !in c && a + "/" + b == c + "/" + d
    ensures a == c && b == d
  {
    IndexOfAt(a, '/', b);
    IndexOfAt(c, '/', d);
    var s := a + "/" + b;
    assert s == a + ['/'] + b == c + ['/'] + d;
    assert s[..|a|] == a && s[..|c|] == c && s[|a| + 1..] == b && s[|c| + 1..] == d;
  }

  /** The three kinds of section never share a key; two sections of a kind do so exactly for the same object. */
  lemma SectionKeysApart(a: Claim, b: Claim, pv: PersistentVolume, pv': PersistentVolume)
    requires '/' !in a.ns && '/' !in b.ns
    ensures ClaimKey(a) != StateKey(b) && ClaimKey(a) != DeleteKey(pv) && StateKey(a) != DeleteKey(pv)
    ensures ClaimKey(a) == ClaimKey(b) <==> (a.ns, a.name) == (b.ns, b.name)
    ensures StateKey(a) == StateKey(b) <==> (a.ns, a.name) == (b.ns, b.name)
    ensures DeleteKey(pv) == DeleteKey(pv') <==> pv.name == pv'.name
  {
    assert ClaimKey(a)[0] == 'p' && StateKey(b)[0] == 's' && StateKey(a)[0] == 's' && DeleteKey(pv)[0] == 'p';
    assert ClaimKey(a)[2] == 'c' && DeleteKey(pv)[2] == ':';
    assert ClaimKey(a)[4..] == a.ns + "/" + a.name && ClaimKey(b)[4..] == b.ns + "/" + b.name;
    assert StateKey(a)[6..] == a.ns + "/" + a.name && StateKey(b)[6..] == b.ns + "/" + b.name;
    assert DeleteKey(pv)[3..] == pv.name && DeleteKey(pv')[3..] == pv'.name;
    if a.ns + "/" + a.name == b.ns + "/" + b.name {
      SlashSplits(a.ns, a.name, b.ns, b.name);
    }
  }
}
