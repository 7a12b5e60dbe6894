/**
 * Volumes for which what a pass is for does not come about: one that differs from its wish from
 * birth, and one that no pass brings to it (pkg/controller/controller.go:487-567, 860-908;
 * pkg/driver/owner_mode.go:86-105).
 */
module VolumeExamples {
  import opened Wrappers
  import opened Config
  import opened Dataset
  import opened ZfsHosts
  import opened ZfsReconcile
  import opened OwnerMode
  import opened HostTrees
  import opened Claims
  import opened VolumeState

  // ---- A quota among the properties -----------------------------------------------------------------

  /** A claim that asks for no quota */
  const PLAIN_CLAIM := Claim("ns", "c", "u", map[], None, Some("sc"), false)

  /** A class with `quota=5G` among its properties */
  const QUOTA_CLASS := StorageClass("sc", "p", map[PARAM_PROPERTIES := "quota" + "=" + "5G"], false, None)

  const FIVE_GIB := 5368709120

  lemma QuotaAmongProperties()
    ensures WishOf(PLAIN_CLAIM, Some(QUOTA_CLASS), None).props == map["quota" := "5G"]
  {
    var k, v := "quota", "5G";
    ParsePrintedLine(k, v);
    SingleLine(k + "=" + v);
    SingleLine("");
    assert ParseLine("") == None;
  }

  /** Created with the class's quota, the claim's volume is to lose it again at the very next pass. */
  lemma QuotaDriftsAtBirth(canon: Canon, inherits: map<string, Setting>, relPath: string, hostPrefix: string)
    ensures var props := map["quota" := "5G"];
            var born := Volume(NewDataset(canon, FIVE_GIB, props, inherits), map[]);
            var wish := WishOf(PLAIN_CLAIM, Some(QUOTA_CLASS), None);
            && ProvisionOptions(PLAIN_CLAIM, QUOTA_CLASS, relPath, None, hostPrefix).props == props
            && !UpToDate(born, None, wish)
            && QuotaChanges(born.ds.quota, wish.quota) == [QuotaChange(FIVE_GIB, None)]
  {
    QuotaAmongProperties();
    var born := Volume(NewDataset(canon, FIVE_GIB, map["quota" := "5G"], inherits), map[]);
    NoDriftAtBirth(canon, inherits, PLAIN_CLAIM, QUOTA_CLASS, relPath, None, hostPrefix, None, map[], born);
  }

  // ---- An id that chown does not set -------------------------------------------------------------------

  /** An empty directory of user and group 0 */
  const ROOT_OWNED: Volume := Volume(Dataset(0, map[], map[]), map[0 := Attr(0, 0, 0x1ed)])
  const EMPTY_DIR: Node := Dir(0, [])

  /** It is to belong to user 4294967295. */
  const LAST_USER := Ownership(4294967295, 0)
  const FOR_LAST_USER: StateWish := StateWish(None, Wish(Some(LAST_USER), None), false, map[])

  lemma LastUserStays()
    ensures Placed(ROOT_OWNED, Some(EMPTY_DIR))
    ensures TreeAfter(ROOT_OWNED.attrs, Some(EMPTY_DIR), FOR_LAST_USER.ownerMode, false) == ROOT_OWNED.attrs
    ensures TreeChanges(ROOT_OWNED.attrs, Some(EMPTY_DIR), FOR_LAST_USER.ownerMode, false, false) == [OwnerSet(0, 0, LAST_USER)]
  {
    var visits := Visits("", EMPTY_DIR);
    assert visits == [Visit("", false, 0)];
    assert Scope(EMPTY_DIR, false) == visits && visits[..0] == [] && visits[..1] == visits;
    assert BelowRoot(EMPTY_DIR, false) == [];
    assert Chowned(Attr(0, 0, 0x1ed), LAST_USER) == Attr(0, 0, 0x1ed);
    WalkedToIs(ROOT_OWNED.attrs, visits, FOR_LAST_USER.ownerMode);
  }

  /** Every applying pass succeeds, reports the owner set, and leaves the directory as it was: the next one does the same. */
  lemma NeverConverges(canon: Canon)
    ensures Placed(ROOT_OWNED, Some(EMPTY_DIR)) && !UpToDate(ROOT_OWNED, Some(EMPTY_DIR), FOR_LAST_USER)
    ensures var res := Results(Ok([]), Ok([OwnerSet(0, 0, LAST_USER)]), Ok([]));
            PassMade(ROOT_OWNED, ROOT_OWNED, Some(EMPTY_DIR), canon, FOR_LAST_USER, false, res, []) && res.NoFailure()
  {
    LastUserStays();
    PlanEmpty(ROOT_OWNED, Some(EMPTY_DIR), FOR_LAST_USER, true);
    PlanEmpty(ROOT_OWNED, Some(EMPTY_DIR), FOR_LAST_USER, false);
    assert Drift(Current(ROOT_OWNED.ds), Desired(FOR_LAST_USER.props)) == {};
  }
}
