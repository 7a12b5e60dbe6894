/**
 * pkg/driver/owner_mode.go: making a directory, or everything beneath it, belong to the
 * declared owner and carry the declared permission bits. This file says what the walk
 * computes; HostTree.dfy runs it.
 */
module OwnerMode {
  import opened Wrappers
  import opened Config
  import opened Decimal

  type Ino = nat

  /** What the walk reads and changes of a file; hard links share it. */
  datatype Attr = Attr(uid: nat, gid: nat, perm: nat)

  /** A directory's entries are listed in the order the walk takes them. */
  datatype Node =
    | File(ino: Ino)
    | Symlink(ino: Ino)
    | Dir(ino: Ino, entries: seq<Entry>)

  datatype Entry = Entry(name: string, node: Node)

  // ---- The walk -----------------------------------------------------------------------------

  datatype Visit = Visit(path: string, symlink: bool, ino: Ino)

  /** filepath.WalkDir: a directory first, then its entries in order; symlinks are not followed */
  function Visits(path: string, node: Node): seq<Visit>
    decreases node, 0
  {
    [Visit(path, node.Symlink?, node.ino)] + if node.Dir? then VisitsIn(path, node.entries) else []
  }

  function VisitsIn(path: string, entries: seq<Entry>): seq<Visit>
    decreases entries, 1
  {
    if entries == [] then []
    else Visits(path + "/" + entries[0].name, entries[0].node) + VisitsIn(path, entries[1..])
  }

  /** The node reached by taking the given entry at each level, with its path. */
  ghost predicate Below(path: string, node: Node, steps: seq<nat>, v: Visit)
    decreases |steps|
  {
    if steps == [] then v == Visit(path, node.Symlink?, node.ino)
    else
      && node.Dir? && steps[0] < |node.entries|
      && Below(path + "/" + node.entries[steps[0]].name, node.entries[steps[0]].node, steps[1..], v)
  }

  ghost predicate InTree(path: string, node: Node, v: Visit) {
    exists steps: seq<nat> :: Below(path, node, steps, v)
  }

  ghost predicate InEntries(path: string, entries: seq<Entry>, v: Visit) {
    exists i :: 0 <= i < |entries| && InTree(path + "/" + entries[i].name, entries[i].node, v)
  }

  lemma InTreeUnfolds(path: string, node: Node, v: Visit)
    ensures InTree(path, node, v) <==>
            v == Visit(path, node.Symlink?, node.ino) || (node.Dir? && InEntries(path, node.entries, v))
  {
    if v == Visit(path, node.Symlink?, node.ino) {
      assert Below(path, node, [], v);
    }
    if node.Dir? && InEntries(path, node.entries, v) {
      var i :| 0 <= i < |node.entries| && InTree(path + "/" + node.entries[i].name, node.entries[i].node, v);
      var steps: seq<nat> :| Below(path + "/" + node.entries[i].name, node.entries[i].node, steps, v);
      assert ([i] + steps)[1..] == steps;
      assert Below(path, node, [i] + steps, v);
    }
    if InTree(path, node, v) {
      var steps: seq<nat> :| Below(path, node, steps, v);
      if steps != [] {
        var entry := node.entries[steps[0]];
        assert Below(path + "/" + entry.name, entry.node, steps[1..], v);
        assert InTree(path + "/" + entry.name, entry.node, v);
      }
    }
  }

  /** The walk visits every file and directory of the tree, and nothing else. */
  lemma {:induction false} VisitsAreTheTree(path: string, node: Node, v: Visit)
    ensures v in Visits(path, node) <==> InTree(path, node, v)
    decreases node, 0
  {
    InTreeUnfolds(path, node, v);
    if node.Dir? {
      VisitsInAreTheEntries(path, node.entries, v);
    }
  }

  lemma {:induction false} VisitsInAreTheEntries(path: string, entries: seq<Entry>, v: Visit)
    ensures v in VisitsIn(path, entries) <==> InEntries(path, entries, v)
    decreases entries, 1
  {
    if entries != [] {
      VisitsAreTheTree(path + "/" + entries[0].name, entries[0].node, v);
      VisitsInAreTheEntries(path, entries[1..], v);
      assert forall i :: 0 < i < |entries| ==> entries[i] == entries[1..][i - 1];
      if InEntries(path, entries[1..], v) {
        var i :| 0 <= i < |entries[1..]| && InTree(path + "/" + entries[1..][i].name, entries[1..][i].node, v);
        assert entries[1..][i] == entries[i + 1];
      }
    }
  }

  // ---- One file -----------------------------------------------------------------------------

  /** The id that chown takes to mean "leave unchanged" */
  const UNCHANGED: nat := UINT32_LIMIT - 1

  /** uint32(id) */
  function Id32(id: int): nat {
    id % UINT32_LIMIT
  }

  predicate OwnerDiffers(a: Attr, owner: Ownership) {
    a.uid != Id32(owner.uid) || a.gid != Id32(owner.gid)
  }

  /** chown(2) */
  function Chowned(a: Attr, owner: Ownership): Attr {
    a.(uid := if Id32(owner.uid) == UNCHANGED then a.uid else Id32(owner.uid),
       gid := if Id32(owner.gid) == UNCHANGED then a.gid else Id32(owner.gid))
  }

  /** FileMode.Perm: the nine permission bits */
  function Perm(mode: nat): nat {
    mode % 0x200
  }

  function FixOwner(a: Attr, owner: Option<Ownership>): Attr {
    if owner.Some? && OwnerDiffers(a, owner.value) then Chowned(a, owner.value) else a
  }

  function FixMode(a: Attr, mode: Option<nat>): Attr {
    if mode.Some? then a.(perm := Perm(mode.value)) else a
  }

  function Fixed(a: Attr, owner: Option<Ownership>, mode: Option<nat>): Attr {
    FixMode(FixOwner(a, owner), mode)
  }

  /** A chown brings the file to the declared owner unless an id it lacks means "unchanged". */
  predicate Settles(a: Attr, owner: Option<Ownership>) {
    owner.Some? ==>
      && (Id32(owner.value.uid) == UNCHANGED ==> a.uid == UNCHANGED)
      && (Id32(owner.value.gid) == UNCHANGED ==> a.gid == UNCHANGED)
  }

  lemma FixedMeets(a: Attr, owner: Option<Ownership>, mode: Option<nat>)
    ensures Fixed(Fixed(a, owner, mode), owner, mode) == Fixed(a, owner, mode)
    ensures owner.Some? ==> (!OwnerDiffers(Fixed(a, owner, mode), owner.value) <==> Settles(a, owner))
    ensures owner.Some? && OwnerDiffers(Fixed(a, owner, mode), owner.value) ==> OwnerDiffers(a, owner.value)
    ensures mode.Some? ==> Fixed(a, owner, mode).perm == Perm(mode.value)
  {
  }

  // ---- What a walk leaves and counts ----------------------------------------------------------

  /** What the walk was asked for */
  datatype Wish = Wish(owner: Option<Ownership>, mode: Option<nat>)

  ghost predicate Covers(attrs: map<Ino, Attr>, visits: seq<Visit>) {
    forall v :: v in visits ==> v.ino in attrs
  }

  /** The attributes after an applying walk over the visits */
  function WalkedTo(attrs: map<Ino, Attr>, visits: seq<Visit>, wish: Wish): (after: map<Ino, Attr>)
    requires Covers(attrs, visits)
    ensures after.Keys == attrs.Keys
  {
    if visits == [] then attrs
    else
      var v, before := visits[|visits| - 1], WalkedTo(attrs, visits[..|visits| - 1], wish);
      if v.symlink then before else before[v.ino := Fixed(before[v.ino], wish.owner, wish.mode)]
  }

  /** Some file other than a symlink is visited under this inode. */
  predicate Touches(visits: seq<Visit>, ino: Ino) {
    exists v :: v in visits && !v.symlink && v.ino == ino
  }

  /** Every visited file ends up fixed, once and for all of its names; nothing else changes. */
  lemma {:induction false} WalkedToIs(attrs: map<Ino, Attr>, visits: seq<Visit>, wish: Wish)
    requires Covers(attrs, visits)
    ensures forall ino :: ino in attrs ==>
      WalkedTo(attrs, visits, wish)[ino] == if Touches(visits, ino) then Fixed(attrs[ino], wish.owner, wish.mode) else attrs[ino]
  {
    if visits != [] {
      var init, v := visits[..|visits| - 1], visits[|visits| - 1];
      WalkedToIs(attrs, init, wish);
      assert forall w :: w in visits <==> w in init || w == v;
      forall ino | ino in attrs
        ensures Touches(visits, ino) <==> Touches(init, ino) || (!v.symlink && v.ino == ino)
      {
        assert v in visits;
      }
      FixedMeets(attrs[v.ino], wish.owner, wish.mode);
    }
  }

  predicate OwnerHit(attrs: map<Ino, Attr>, v: Visit, wish: Wish)
    requires v.ino in attrs
  {
    !v.symlink && wish.owner.Some? && OwnerDiffers(attrs[v.ino], wish.owner.value)
  }

  predicate ModeHit(attrs: map<Ino, Attr>, v: Visit, wish: Wish)
    requires v.ino in attrs
  {
    !v.symlink && wish.mode.Some? && attrs[v.ino].perm != Perm(wish.mode.value)
  }

  /** The attributes a visit finds: a dry run changes nothing on the way. */
  function Found(attrs: map<Ino, Attr>, visits: seq<Visit>, wish: Wish, dryRun: bool): (found: map<Ino, Attr>)
    requires Covers(attrs, visits)
    ensures found.Keys == attrs.Keys
  {
    if dryRun then attrs else WalkedTo(attrs, visits, wish)
  }

  function Reowned(attrs: map<Ino, Attr>, visits: seq<Visit>, wish: Wish, dryRun: bool): nat
    requires Covers(attrs, visits)
  {
    if visits == [] then 0
    else
      var init, v := visits[..|visits| - 1], visits[|visits| - 1];
      Reowned(attrs, init, wish, dryRun) + if OwnerHit(Found(attrs, init, wish, dryRun), v, wish) then 1 else 0
  }

  function Rechmod(attrs: map<Ino, Attr>, visits: seq<Visit>, wish: Wish, dryRun: bool): nat
    requires Covers(attrs, visits)
  {
    if visits == [] then 0
    else
      var init, v := visits[..|visits| - 1], visits[|visits| - 1];
      Rechmod(attrs, init, wish, dryRun) + if ModeHit(Found(attrs, init, wish, dryRun), v, wish) then 1 else 0
  }

  /** The visits whose file differs from the wish before the walk starts */
  function OwnerHits(attrs: map<Ino, Attr>, visits: seq<Visit>, wish: Wish): set<nat>
    requires Covers(attrs, visits)
  {
    set i: nat | i < |visits| && (assert visits[i] in visits; OwnerHit(attrs, visits[i], wish))
  }

  function ModeHits(attrs: map<Ino, Attr>, visits: seq<Visit>, wish: Wish): set<nat>
    requires Covers(attrs, visits)
  {
    set i: nat | i < |visits| && (assert visits[i] in visits; ModeHit(attrs, visits[i], wish))
  }

  lemma HitsGrow(attrs: map<Ino, Attr>, visits: seq<Visit>, wish: Wish)
    requires visits != [] && Covers(attrs, visits)
    ensures var n := |visits| - 1;
            && visits[n] in visits && n !in OwnerHits(attrs, visits[..n], wish) && n !in ModeHits(attrs, visits[..n], wish)
            && OwnerHits(attrs, visits, wish) ==
                 OwnerHits(attrs, visits[..n], wish) + (if OwnerHit(attrs, visits[n], wish) then {n} else {})
            && ModeHits(attrs, visits, wish) ==
                 ModeHits(attrs, visits[..n], wish) + (if ModeHit(attrs, visits[n], wish) then {n} else {})
  {
    assert forall i :: 0 <= i < |visits| - 1 ==> visits[..|visits| - 1][i] == visits[i];
  }

  /** A dry run counts exactly the paths that differ. */
  lemma {:induction false} DryRunCounts(attrs: map<Ino, Attr>, visits: seq<Visit>, wish: Wish)
    requires Covers(attrs, visits)
    ensures Reowned(attrs, visits, wish, true) == |OwnerHits(attrs, visits, wish)|
    ensures Rechmod(attrs, visits, wish, true) == |ModeHits(attrs, visits, wish)|
  {
    if visits != [] {
      DryRunCounts(attrs, visits[..|visits| - 1], wish);
      HitsGrow(attrs, visits, wish);
    }
  }

  /** No two visited files share an inode, symlinks apart. */
  predicate NoHardLinks(visits: seq<Visit>) {
    forall i, j :: 0 <= i < j < |visits| && !visits[i].symlink && !visits[j].symlink ==> visits[i].ino != visits[j].ino
  }

  /** An applying walk finds, at its next visit, a file that is as it was or already fixed. */
  lemma NextVisit(attrs: map<Ino, Attr>, visits: seq<Visit>, wish: Wish)
    requires visits != [] && Covers(attrs, visits)
    ensures var n := |visits| - 1;
            var now := WalkedTo(attrs, visits[..n], wish);
            && visits[n] in visits
            && (OwnerHit(now, visits[n], wish) ==> OwnerHit(attrs, visits[n], wish))
            && (ModeHit(now, visits[n], wish) ==> ModeHit(attrs, visits[n], wish))
            && (!Touches(visits[..n], visits[n].ino) ==>
                  && (OwnerHit(now, visits[n], wish) <==> OwnerHit(attrs, visits[n], wish))
                  && (ModeHit(now, visits[n], wish) <==> ModeHit(attrs, visits[n], wish)))
  {
    var n := |visits| - 1;
    assert visits[n] in visits;
    WalkedToIs(attrs, visits[..n], wish);
    FixedMeets(attrs[visits[n].ino], wish.owner, wish.mode);
  }

  /** Applying never counts more than the dry run; without hard links it counts the same. */
  lemma {:induction false} ApplyCounts(attrs: map<Ino, Attr>, visits: seq<Visit>, wish: Wish)
    requires Covers(attrs, visits)
    ensures Reowned(attrs, visits, wish, false) <= Reowned(attrs, visits, wish, true)
    ensures Rechmod(attrs, visits, wish, false) <= Rechmod(attrs, visits, wish, true)
    ensures NoHardLinks(visits) ==>
      && Reowned(attrs, visits, wish, false) == Reowned(attrs, visits, wish, true)
      && Rechmod(attrs, visits, wish, false) == Rechmod(attrs, visits, wish, true)
  {
    if visits != [] {
      var n := |visits| - 1;
      ApplyCounts(attrs, visits[..n], wish);
      NextVisit(attrs, visits, wish);
      if NoHardLinks(visits) && !visits[n].symlink {
        assert !Touches(visits[..n], visits[n].ino);
      }
    }
  }

  /** Visit i is the first of its file. */
  predicate FirstOfFile(visits: seq<Visit>, i: nat)
    requires i < |visits|
  {
    !Touches(visits[..i], visits[i].ino)
  }

  /** The visits an applying walk counts as given their owner: of a file that can be given it only the first. */
  function OwnersGiven(attrs: map<Ino, Attr>, visits: seq<Visit>, wish: Wish): set<nat>
    requires Covers(attrs, visits)
  {
    set i: nat | i < |visits| && i in OwnerHits(attrs, visits, wish)
                 && (FirstOfFile(visits, i) || (assert visits[i] in visits; !Settles(attrs[visits[i].ino], wish.owner)))
  }

  /** The visits it counts as given their permissions */
  function ModesGiven(attrs: map<Ino, Attr>, visits: seq<Visit>, wish: Wish): set<nat>
    requires Covers(attrs, visits)
  {
    set i: nat | i < |visits| && i in ModeHits(attrs, visits, wish) && FirstOfFile(visits, i)
  }

  /** What an applying walk finds at a visit, in terms of what there was before it */
  lemma NextVisitExactly(attrs: map<Ino, Attr>, visits: seq<Visit>, wish: Wish)
    requires visits != [] && Covers(attrs, visits)
    ensures var n := |visits| - 1;
            var now := WalkedTo(attrs, visits[..n], wish);
            && visits[n] in visits
            && (OwnerHit(now, visits[n], wish) <==>
                  OwnerHit(attrs, visits[n], wish) && (FirstOfFile(visits, n) || !Settles(attrs[visits[n].ino], wish.owner)))
            && (ModeHit(now, visits[n], wish) <==> ModeHit(attrs, visits[n], wish) && FirstOfFile(visits, n))
  {
    var n := |visits| - 1;
    assert visits[n] in visits;
    WalkedToIs(attrs, visits[..n], wish);
    FixedMeets(attrs[visits[n].ino], wish.owner, wish.mode);
  }

  lemma GivenGrow(attrs: map<Ino, Attr>, visits: seq<Visit>, wish: Wish)
    requires visits != [] && Covers(attrs, visits)
    ensures var n := |visits| - 1;
            && n !in OwnersGiven(attrs, visits[..n], wish) && n !in ModesGiven(attrs, visits[..n], wish)
            && OwnersGiven(attrs, visits, wish) ==
                 OwnersGiven(attrs, visits[..n], wish) + (if n in OwnersGiven(attrs, visits, wish) then {n} else {})
            && ModesGiven(attrs, visits, wish) ==
                 ModesGiven(attrs, visits[..n], wish) + (if n in ModesGiven(attrs, visits, wish) then {n} else {})
  {
    var n := |visits| - 1;
    HitsGrow(attrs, visits, wish);
    assert forall i: nat :: i < n ==> visits[..n][i] == visits[i] && visits[..n][..i] == visits[..i];
  }

  /**
   * What an applying walk counts, hard links or not: each file that differs once, and each further
   * name of a file that cannot be given its owner once more.
   */
  lemma {:induction false} ApplyCountsExactly(attrs: map<Ino, Attr>, visits: seq<Visit>, wish: Wish)
    requires Covers(attrs, visits)
    ensures Reowned(attrs, visits, wish, false) == |OwnersGiven(attrs, visits, wish)|
    ensures Rechmod(attrs, visits, wish, false) == |ModesGiven(attrs, visits, wish)|
  {
    if visits != [] {
      ApplyCountsExactly(attrs, visits[..|visits| - 1], wish);
      NextVisitExactly(attrs, visits, wish);
      GivenGrow(attrs, visits, wish);
    }
  }

  /** The octal digits of a mode: three for the permissions, others before them. */
  lemma PermissionDigits(h: nat, u: nat, g: nat, o: nat)
    requires u < 8 && g < 8 && o < 8
    ensures Perm(((h * 8 + u) * 8 + g) * 8 + o) == (u * 8 + g) * 8 + o
  {
    assert ((h * 8 + u) * 8 + g) * 8 + o == 0x200 * h + ((u * 8 + g) * 8 + o);
  }

  /** A visited file gets the permissions that the mode's last three octal digits say. */
  lemma WalkGivesMode(attrs: map<Ino, Attr>, visits: seq<Visit>, wish: Wish, v: Visit, h: nat, u: nat, g: nat, o: nat)
    requires Covers(attrs, visits) && v in visits && !v.symlink
    requires u < 8 && g < 8 && o < 8 && wish.mode == Some(((h * 8 + u) * 8 + g) * 8 + o)
    ensures WalkedTo(attrs, visits, wish)[v.ino].perm == (u * 8 + g) * 8 + o
  {
    WalkedToIs(attrs, visits, wish);
    assert Touches(visits, v.ino);
    PermissionDigits(h, u, g, o);
  }

  /** The id a file has after it was given one: ids count modulo 2^32, and the last of them gives none. */
  predicate IdGiven(id: int, was: nat, now: nat) {
    if (id + 1) % 0x1_0000_0000 == 0 then now == was
    else now < 0x1_0000_0000 && (now - id) % 0x1_0000_0000 == 0
  }

  lemma Id32Given(id: int, was: nat)
    ensures IdGiven(id, was, if Id32(id) == UNCHANGED then was else Id32(id))
    ensures Id32(id) == UNCHANGED <==> (id + 1) % 0x1_0000_0000 == 0
  {
    var q, r := id / 0x1_0000_0000, id % 0x1_0000_0000;
    RemainderIs(r - id, -q, 0);
    if r == UNCHANGED {
      RemainderIs(id + 1, q + 1, 0);
    } else {
      RemainderIs(id + 1, q, r + 1);
    }
  }

  lemma RemainderIs(x: int, q: int, r: nat)
    requires x == 0x1_0000_0000 * q + r && r < 0x1_0000_0000
    ensures x % 0x1_0000_0000 == r
  {
  }

  /** A visited file gets the very mode, if that is nothing but permissions, and the ids that chown can set. */
  lemma WalkGives(attrs: map<Ino, Attr>, visits: seq<Visit>, wish: Wish, v: Visit)
    requires Covers(attrs, visits) && v in visits && !v.symlink
    ensures var file := WalkedTo(attrs, visits, wish)[v.ino];
            && (wish.mode.Some? && wish.mode.value < 0x200 ==> file.perm == wish.mode.value)
            && (wish.mode.None? ==> file.perm == attrs[v.ino].perm)
            && (wish.owner.Some? ==> IdGiven(wish.owner.value.uid, attrs[v.ino].uid, file.uid))
            && (wish.owner.Some? ==> IdGiven(wish.owner.value.gid, attrs[v.ino].gid, file.gid))
            && (wish.owner.None? ==> file.uid == attrs[v.ino].uid && file.gid == attrs[v.ino].gid)
  {
    WalkedToIs(attrs, visits, wish);
    assert Touches(visits, v.ino);
    if wish.owner.Some? {
      Id32Given(wish.owner.value.uid, attrs[v.ino].uid);
      Id32Given(wish.owner.value.gid, attrs[v.ino].gid);
    }
  }

  /** A dry run that counts something is followed by an applying walk that does, too. */
  lemma {:induction false} ApplyCountsSomething(attrs: map<Ino, Attr>, visits: seq<Visit>, wish: Wish)
    requires Covers(attrs, visits)
    ensures Reowned(attrs, visits, wish, true) > 0 <==> Reowned(attrs, visits, wish, false) > 0
    ensures Rechmod(attrs, visits, wish, true) > 0 <==> Rechmod(attrs, visits, wish, false) > 0
    ensures Reowned(attrs, visits, wish, true) == 0 <==> forall v :: v in visits ==> !OwnerHit(attrs, v, wish)
    ensures Rechmod(attrs, visits, wish, true) == 0 <==> forall v :: v in visits ==> !ModeHit(attrs, v, wish)
  {
    if visits != [] {
      var n := |visits| - 1;
      ApplyCountsSomething(attrs, visits[..n], wish);
      NextVisit(attrs, visits, wish);
      assert forall w :: w in visits <==> w in visits[..n] || w == visits[n];
    }
  }

  /** After an applying walk, a second one counts nothing exactly when every visited file settles. */
  lemma SecondWalk(attrs: map<Ino, Attr>, visits: seq<Visit>, wish: Wish, dryRun: bool)
    requires Covers(attrs, visits)
    ensures var after := WalkedTo(attrs, visits, wish);
            && Rechmod(after, visits, wish, dryRun) == 0
            && (Reowned(after, visits, wish, dryRun) == 0 <==>
                  forall v :: v in visits && !v.symlink ==> Settles(attrs[v.ino], wish.owner))
  {
    var after := WalkedTo(attrs, visits, wish);
    WalkedToIs(attrs, visits, wish);
    ApplyCountsSomething(after, visits, wish);
    forall v | v in visits && !v.symlink
      ensures after[v.ino] == Fixed(attrs[v.ino], wish.owner, wish.mode)
    {
      assert Touches(visits, v.ino);
    }
    forall v | v in visits
      ensures OwnerHit(after, v, wish) <==> !v.symlink && !Settles(attrs[v.ino], wish.owner)
      ensures !ModeHit(after, v, wish)
    {
      FixedMeets(attrs[v.ino], wish.owner, wish.mode);
    }
  }

  // ---- The whole reconciliation ----------------------------------------------------------------

  datatype OwnerChange =
    | OwnerSet(uid: nat, gid: nat, owner: Ownership)
    | ModeSet(perm: nat, wanted: nat)
    | OwnersBelow(reowned: nat)
    | ModesBelow(rechmod: nat)

  /** The files a reconciliation may change */
  function Scope(root: Node, recursive: bool): (visits: seq<Visit>)
    ensures visits != [] && visits[0] == Visit("", root.Symlink?, root.ino)
  {
    if recursive then Visits("", root) else Visits("", root)[..1]
  }

  function RootChanges(a: Attr, wish: Wish): seq<OwnerChange> {
    (if wish.owner.Some? && OwnerDiffers(a, wish.owner.value) then [OwnerSet(a.uid, a.gid, wish.owner.value)] else [])
    + if wish.mode.Some? && a.perm != Perm(wish.mode.value) then [ModeSet(a.perm, Perm(wish.mode.value))] else []
  }

  function BelowChanges(reowned: nat, rechmod: nat): seq<OwnerChange> {
    (if reowned > 0 then [OwnersBelow(reowned)] else []) + if rechmod > 0 then [ModesBelow(rechmod)] else []
  }

  /** The change list of a reconciliation of a directory that exists */
  function OwnerChanges(attrs: map<Ino, Attr>, root: Node, wish: Wish, recursive: bool, dryRun: bool): seq<OwnerChange>
    requires root.Dir? && Covers(attrs, Visits("", root))
  {
    var below := BelowRoot(root, recursive);
    var base := Found(attrs, Visits("", root)[..1], wish, dryRun);
    assert Visits("", root)[0] in Visits("", root);
    RootChanges(attrs[root.ino], wish)
    + BelowChanges(Reowned(base, below, wish, dryRun), Rechmod(base, below, wish, dryRun))
  }

  /** A directory has no second name in its own tree. */
  predicate RootAlone(root: Node) {
    forall v :: v in Visits("", root)[1..] ==> v.ino != root.ino
  }

  lemma {:induction false} WalkedToAppend(attrs: map<Ino, Attr>, a: seq<Visit>, b: seq<Visit>, wish: Wish)
    requires Covers(attrs, a + b)
    ensures Covers(attrs, a) && Covers(attrs, b)
    ensures WalkedTo(attrs, a + b, wish) == WalkedTo(WalkedTo(attrs, a, wish), b, wish)
  {
    assert forall v :: v in a || v in b ==> v in a + b;
    if b == [] {
      assert a + b == a;
    } else {
      assert (a + b)[..|a + b| - 1] == a + b[..|b| - 1];
      WalkedToAppend(attrs, a, b[..|b| - 1], wish);
    }
  }

  lemma {:induction false} CountsDependOnVisited(
      attrs: map<Ino, Attr>, attrs': map<Ino, Attr>, visits: seq<Visit>, wish: Wish)
    requires Covers(attrs, visits) && Covers(attrs', visits)
    requires forall v :: v in visits ==> attrs[v.ino] == attrs'[v.ino]
    ensures Reowned(attrs, visits, wish, true) == Reowned(attrs', visits, wish, true)
    ensures Rechmod(attrs, visits, wish, true) == Rechmod(attrs', visits, wish, true)
  {
    if visits != [] {
      assert visits[|visits| - 1] in visits;
      CountsDependOnVisited(attrs, attrs', visits[..|visits| - 1], wish);
    }
  }

  /** Two change lists that differ at most in the number of paths below, the first having no more. */
  predicate AgreeUpToCounts(applied: seq<OwnerChange>, planned: seq<OwnerChange>) {
    && |applied| == |planned|
    && forall i :: 0 <= i < |applied| ==>
        match (applied[i], planned[i])
        case (OwnersBelow(m), OwnersBelow(n)) => m <= n
        case (ModesBelow(m), ModesBelow(n)) => m <= n
        case (a, p) => a == p
  }

  lemma BelowChangesAgree(rootChanges: seq<OwnerChange>, m: nat, m': nat, n: nat, n': nat)
    requires m <= m' && (m > 0 <==> m' > 0) && n <= n' && (n > 0 <==> n' > 0)
    ensures AgreeUpToCounts(rootChanges + BelowChanges(m, n), rootChanges + BelowChanges(m', n'))
  {
  }

  /** What lies below the root, when it is walked at all */
  function BelowRoot(root: Node, recursive: bool): (visits: seq<Visit>)
    ensures Scope(root, recursive) == Visits("", root)[..1] + visits
    ensures forall v :: v in visits ==> v in Visits("", root)
  {
    if recursive then Visits("", root)[1..] else []
  }

  lemma RootFirst(attrs: map<Ino, Attr>, root: Node, wish: Wish, recursive: bool)
    requires root.Dir? && RootAlone(root) && Covers(attrs, Visits("", root))
    ensures var base := WalkedTo(attrs, Visits("", root)[..1], wish);
            forall v :: v in BelowRoot(root, recursive) ==> base[v.ino] == attrs[v.ino]
  {
    WalkedToIs(attrs, Visits("", root)[..1], wish);
  }

  /** Plan and apply agree, and say the very same when no two walked paths share an inode. */
  lemma PlanMatchesApply(attrs: map<Ino, Attr>, root: Node, wish: Wish, recursive: bool)
    requires root.Dir? && RootAlone(root) && Covers(attrs, Visits("", root))
    ensures var planned := OwnerChanges(attrs, root, wish, recursive, true);
            var applied := OwnerChanges(attrs, root, wish, recursive, false);
            && AgreeUpToCounts(applied, planned)
            && (NoHardLinks(Visits("", root)[1..]) ==> applied == planned)
  {
    var below := BelowRoot(root, recursive);
    var base := WalkedTo(attrs, Visits("", root)[..1], wish);
    RootFirst(attrs, root, wish, recursive);
    CountsDependOnVisited(attrs, base, below, wish);
    ApplyCounts(base, below, wish);
    ApplyCountsSomething(base, below, wish);
    BelowChangesAgree(RootChanges(attrs[root.ino], wish),
                      Reowned(base, below, wish, false), Reowned(attrs, below, wish, true),
                      Rechmod(base, below, wish, false), Rechmod(attrs, below, wish, true));
  }

  /** Re-fixing the root of a fixed tree changes nothing. */
  lemma RootStaysFixed(attrs: map<Ino, Attr>, root: Node, wish: Wish, recursive: bool)
    requires root.Dir? && Covers(attrs, Visits("", root))
    ensures var scope := Scope(root, recursive);
            && (forall v :: v in scope ==> v in Visits("", root))
            && var after := WalkedTo(attrs, scope, wish);
            WalkedTo(after, Visits("", root)[..1], wish) == after
  {
    var scope := Scope(root, recursive);
    var after := WalkedTo(attrs, scope, wish);
    WalkedToIs(attrs, scope, wish);
    WalkedToIs(after, Visits("", root)[..1], wish);
    assert scope[0] in scope && Touches(scope, root.ino);
    FixedMeets(attrs[root.ino], wish.owner, wish.mode);
  }

  /** A change list is empty when neither the root nor anything below it is hit. */
  lemma NoChanges(attrs: map<Ino, Attr>, root: Node, wish: Wish, recursive: bool, dryRun: bool)
    requires root.Dir? && Covers(attrs, Visits("", root))
    requires WalkedTo(attrs, Visits("", root)[..1], wish) == attrs
    ensures Covers(attrs, Scope(root, recursive))
    ensures OwnerChanges(attrs, root, wish, recursive, dryRun) == [] <==>
            forall v :: v in Scope(root, recursive) ==> !OwnerHit(attrs, v, wish) && !ModeHit(attrs, v, wish)
  {
    var scope, below := Scope(root, recursive), BelowRoot(root, recursive);
    assert scope[0] in Visits("", root);
    assert forall v :: v in scope <==> v == scope[0] || v in below;
    ApplyCountsSomething(attrs, below, wish);
  }

  /** After an applying reconciliation the next one reports nothing exactly when every file in scope settles. */
  lemma OwnerConverges(attrs: map<Ino, Attr>, root: Node, wish: Wish, recursive: bool, dryRun: bool)
    requires root.Dir? && Covers(attrs, Visits("", root))
    ensures Covers(attrs, Scope(root, recursive))
    ensures var after := WalkedTo(attrs, Scope(root, recursive), wish);
            OwnerChanges(after, root, wish, recursive, dryRun) == [] <==>
            forall v :: v in Scope(root, recursive) && !v.symlink ==> Settles(attrs[v.ino], wish.owner)
  {
    var scope := Scope(root, recursive);
    RootStaysFixed(attrs, root, wish, recursive);
    var after := WalkedTo(attrs, scope, wish);
    NoChanges(after, root, wish, recursive, dryRun);
    SecondWalk(attrs, scope, wish, true);
    ApplyCountsSomething(after, scope, wish);
  }
}
