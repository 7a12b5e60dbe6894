/** pkg/driver/owner_mode.go as it runs: the walk over a mounted directory, changing it in place. */
module HostTrees {
  import opened Wrappers
  import opened Config
  import opened OwnerMode

  datatype OwnerModeError = StatFailed | ChownFailed | ChmodFailed | WalkFailed

  /** The directory found at a mount path; None when nothing is mounted there. */
  class HostTree {
    const root: Option<Node>
    /** No system call fails. */
    const reliable: bool
    var attrs: map<Ino, Attr>
    /** How many chown and chmod calls have succeeded */
    var mutations: nat

    ghost predicate Valid()
      reads this
    {
      root.Some? ==> root.value.Dir? && Covers(attrs, Visits("", root.value))
    }

    constructor (root: Option<Node>, reliable: bool, attrs: map<Ino, Attr>)
      requires root.Some? ==> root.value.Dir? && Covers(attrs, Visits("", root.value))
      ensures Valid() && this.root == root && this.reliable == reliable && this.attrs == attrs && mutations == 0
    {
      this.root, this.reliable := root, reliable;
      this.attrs := attrs;
      mutations := 0;
    }

    /** chown(2), which may fail */
    method Chown(ino: Ino, owner: Ownership) returns (ok: bool)
      requires ino in attrs
      modifies this
      ensures attrs == if ok then old(attrs)[ino := Chowned(old(attrs)[ino], owner)] else old(attrs)
      ensures reliable ==> ok
      ensures mutations == old(mutations) + if ok then 1 else 0
    {
      ok := *;
      ok := ok || reliable;
      if ok {
        attrs := attrs[ino := Chowned(attrs[ino], owner)];
        mutations := mutations + 1;
      }
    }

    /** chmod(2), which may fail */
    method Chmod(ino: Ino, perm: nat) returns (ok: bool)
      requires ino in attrs
      modifies this
      ensures attrs == if ok then old(attrs)[ino := old(attrs)[ino].(perm := perm)] else old(attrs)
      ensures reliable ==> ok
      ensures mutations == old(mutations) + if ok then 1 else 0
    {
      ok := *;
      ok := ok || reliable;
      if ok {
        attrs := attrs[ino := attrs[ino].(perm := perm)];
        mutations := mutations + 1;
      }
    }
  }

  /** A walk cut short: every file is as it was, re-owned, or done; nothing outside the visits changed. */
  ghost predicate PartlyFixed(was: map<Ino, Attr>, now: map<Ino, Attr>, visits: seq<Visit>, wish: Wish) {
    && now.Keys == was.Keys
    && forall ino :: ino in was ==>
        (if Touches(visits, ino)
         then now[ino] in {was[ino], FixOwner(was[ino], wish.owner), Fixed(was[ino], wish.owner, wish.mode)}
         else now[ino] == was[ino])
  }

  lemma WalkedIsPartlyFixed(attrs: map<Ino, Attr>, visits: seq<Visit>, n: nat, wish: Wish)
    requires Covers(attrs, visits) && n <= |visits|
    ensures Covers(attrs, visits[..n])
    ensures PartlyFixed(attrs, WalkedTo(attrs, visits[..n], wish), visits, wish)
  {
    assert forall v :: v in visits[..n] ==> v in visits;
    WalkedToIs(attrs, visits[..n], wish);
    assert forall ino :: Touches(visits[..n], ino) ==> Touches(visits, ino);
  }

  /** Re-owning one more visited file keeps a cut-off walk a cut-off walk. */
  lemma ReownedIsPartlyFixed(attrs: map<Ino, Attr>, visits: seq<Visit>, n: nat, wish: Wish)
    requires Covers(attrs, visits) && n < |visits| && !visits[n].symlink
    ensures Covers(attrs, visits[..n])
    ensures var now := WalkedTo(attrs, visits[..n], wish);
            && visits[n].ino in now
            && PartlyFixed(attrs, now[visits[n].ino := FixOwner(now[visits[n].ino], wish.owner)], visits, wish)
  {
    WalkedIsPartlyFixed(attrs, visits, n, wish);
    WalkedToIs(attrs, visits[..n], wish);
    var v := visits[n];
    assert v in visits && Touches(visits, v.ino);
  }

  /** A visit found the file as `was` says and left it as it should, or stopped on the way. */
  ghost predicate Visited(was: map<Ino, Attr>, now: map<Ino, Attr>, v: Visit, wish: Wish, dryRun: bool, done: bool)
    requires v.ino in was
  {
    if dryRun || v.symlink then now == was
    else if done then now == was[v.ino := Fixed(was[v.ino], wish.owner, wish.mode)]
    else now == was || now == was[v.ino := FixOwner(was[v.ino], wish.owner)]
  }

  /** What the walk does at one path */
  method VisitPath(tree: HostTree, v: Visit, wish: Wish, dryRun: bool)
    returns (reowned: bool, rechmod: bool, err: Option<OwnerModeError>)
    requires v.ino in tree.attrs
    modifies tree
    ensures Visited(old(tree.attrs), tree.attrs, v, wish, dryRun, err.None?)
    ensures tree.reliable ==> err.None?
    ensures err.None? ==> reowned == OwnerHit(old(tree.attrs), v, wish) && rechmod == ModeHit(old(tree.attrs), v, wish)
    ensures dryRun ==> tree.mutations == old(tree.mutations)
    ensures err.None? && !dryRun ==>
              tree.mutations == old(tree.mutations) + (if reowned then 1 else 0) + (if rechmod then 1 else 0)
  {
    reowned, rechmod, err := false, false, None;
    var walkFails: bool := *;
    if walkFails && !tree.reliable {
      return false, false, Some(WalkFailed);
    }
    if v.symlink {
      return;
    }
    var info := tree.attrs[v.ino];
    if wish.owner.Some? && OwnerDiffers(info, wish.owner.value) {
      if !dryRun {
        var ok := tree.Chown(v.ino, wish.owner.value);
        if !ok {
          return false, false, Some(ChownFailed);
        }
      }
      reowned := true;
    }
    if wish.mode.Some? && info.perm != Perm(wish.mode.value) {
      if !dryRun {
        var ok := tree.Chmod(v.ino, Perm(wish.mode.value));
        if !ok {
          return false, false, Some(ChmodFailed);
        }
      }
      rechmod := true;
    }
  }

  /** One more visit carries a walk one visit on. */
  lemma WalkStep(was: map<Ino, Attr>, now: map<Ino, Attr>, visits: seq<Visit>, n: nat, wish: Wish, dryRun: bool,
                 done: bool)
    requires Covers(was, visits) && n < |visits|
    ensures Covers(was, visits[..n]) && Covers(was, visits[..n + 1]) && visits[n].ino in was
    ensures var found := Found(was, visits[..n], wish, dryRun);
            Visited(found, now, visits[n], wish, dryRun, done) ==>
              if done then
                && now == Found(was, visits[..n + 1], wish, dryRun)
                && Reowned(was, visits[..n + 1], wish, dryRun) ==
                     Reowned(was, visits[..n], wish, dryRun) + (if OwnerHit(found, visits[n], wish) then 1 else 0)
                && Rechmod(was, visits[..n + 1], wish, dryRun) ==
                     Rechmod(was, visits[..n], wish, dryRun) + (if ModeHit(found, visits[n], wish) then 1 else 0)
              else PartlyFixed(was, now, visits, wish)
  {
    var v := visits[n];
    assert v in visits && visits[..n + 1][..n] == visits[..n];
    assert forall w :: w in visits[..n + 1] ==> w in visits;
    WalkedIsPartlyFixed(was, visits, n, wish);
    WalkedIsPartlyFixed(was, visits, 0, wish);
    if !v.symlink {
      ReownedIsPartlyFixed(was, visits, n, wish);
    }
  }

  /** reconcileOwnerModeRecursive */
  method ReconcileOwnerModeRecursive(tree: HostTree, wish: Wish, dryRun: bool)
    returns (reowned: nat, rechmod: nat, err: Option<OwnerModeError>)
    requires tree.Valid() && tree.root.Some?
    modifies tree
    ensures dryRun ==> tree.attrs == old(tree.attrs) && tree.mutations == old(tree.mutations)
    ensures tree.reliable ==> err.None?
    ensures var below := Visits("", tree.root.value)[1..];
            && Covers(old(tree.attrs), below)
            && (err.None? ==>
                  && reowned == Reowned(old(tree.attrs), below, wish, dryRun)
                  && rechmod == Rechmod(old(tree.attrs), below, wish, dryRun)
                  && tree.attrs == Found(old(tree.attrs), below, wish, dryRun)
                  && (!dryRun ==> tree.mutations == old(tree.mutations) + reowned + rechmod))
            && (err.Some? ==> reowned == rechmod == 0 && PartlyFixed(old(tree.attrs), tree.attrs, below, wish))
  {
    reowned, rechmod := 0, 0;
    var below := Visits("", tree.root.value)[1..];
    ghost var was := tree.attrs;
    assert forall v :: v in below ==> v in Visits("", tree.root.value);
    for n := 0 to |below|
      invariant Covers(was, below[..n])
      invariant tree.attrs == Found(was, below[..n], wish, dryRun)
      invariant reowned == Reowned(was, below[..n], wish, dryRun)
      invariant rechmod == Rechmod(was, below[..n], wish, dryRun)
      invariant tree.mutations == old(tree.mutations) + if dryRun then 0 else reowned + rechmod
    {
      assert below[n] in below;
      var ownerHit, modeHit, failed := VisitPath(tree, below[n], wish, dryRun);
      WalkStep(was, tree.attrs, below, n, wish, dryRun, failed.None?);
      if failed.Some? {
        return 0, 0, failed;
      }
      reowned := reowned + if ownerHit then 1 else 0;
      rechmod := rechmod + if modeHit then 1 else 0;
    }
    assert below[..|below|] == below;
    err := None;
  }

  /** The change list for a mount path, which may be missing on this host */
  function TreeChanges(attrs: map<Ino, Attr>, root: Option<Node>, wish: Wish, recursive: bool,
                       dryRun: bool): seq<OwnerChange>
    requires root.Some? ==> root.value.Dir? && Covers(attrs, Visits("", root.value))
  {
    if root.None? then [] else OwnerChanges(attrs, root.value, wish, recursive, dryRun)
  }

  lemma ScopeCovered(attrs: map<Ino, Attr>, root: Node, recursive: bool)
    requires Covers(attrs, Visits("", root))
    ensures Covers(attrs, Scope(root, recursive))
  {
    assert forall v :: v in Scope(root, recursive) ==> v in Visits("", root);
  }

  /** The files after an applying reconciliation that met no error */
  function TreeAfter(attrs: map<Ino, Attr>, root: Option<Node>, wish: Wish, recursive: bool): (after: map<Ino, Attr>)
    requires root.Some? ==> root.value.Dir? && Covers(attrs, Visits("", root.value))
    ensures after.Keys == attrs.Keys
  {
    if root.None? then attrs
    else ScopeCovered(attrs, root.value, recursive); WalkedTo(attrs, Scope(root.value, recursive), wish)
  }

  /**
   * After an applying reconciliation without failures every file in scope has the very mode, if
   * that is nothing but permissions, and the ids that chown can set.
   */
  lemma TreeGives(attrs: map<Ino, Attr>, root: Node, wish: Wish, recursive: bool, v: Visit)
    requires root.Dir? && Covers(attrs, Visits("", root)) && v in Scope(root, recursive) && !v.symlink
    ensures v.ino in attrs
    ensures var file := TreeAfter(attrs, Some(root), wish, recursive)[v.ino];
            && (wish.mode.Some? && wish.mode.value < 0x200 ==> file.perm == wish.mode.value)
            && (wish.mode.None? ==> file.perm == attrs[v.ino].perm)
            && (wish.owner.Some? ==> IdGiven(wish.owner.value.uid, attrs[v.ino].uid, file.uid))
            && (wish.owner.Some? ==> IdGiven(wish.owner.value.gid, attrs[v.ino].gid, file.gid))
            && (wish.owner.None? ==> file.uid == attrs[v.ino].uid && file.gid == attrs[v.ino].gid)
  {
    ScopeCovered(attrs, root, recursive);
    WalkGives(attrs, Scope(root, recursive), wish, v);
  }

  lemma NothingDeclared(attrs: map<Ino, Attr>, root: Option<Node>, recursive: bool, dryRun: bool)
    requires root.Some? ==> root.value.Dir? && Covers(attrs, Visits("", root.value))
    ensures TreeChanges(attrs, root, Wish(None, None), recursive, dryRun) == []
    ensures TreeAfter(attrs, root, Wish(None, None), recursive) == attrs
  {
    if root.Some? {
      var scope, none := Scope(root.value, recursive), Wish(None, None);
      ScopeCovered(attrs, root.value, recursive);
      WalkedToIs(attrs, scope, none);
      assert WalkedTo(attrs, scope, none) == attrs;
      OwnerConverges(attrs, root.value, none, recursive, dryRun);
    }
  }

  /** A walk cut off below a finished or untouched root leaves the whole scope partly fixed. */
  lemma CutOffBelow(was: map<Ino, Attr>, base: map<Ino, Attr>, now: map<Ino, Attr>, scope: seq<Visit>, wish: Wish)
    requires scope != [] && Covers(was, scope) && Covers(was, scope[..1]) && Covers(base, scope[1..])
    requires base == was || base == WalkedTo(was, scope[..1], wish)
    requires PartlyFixed(base, now, scope[1..], wish)
    ensures PartlyFixed(was, now, scope, wish)
  {
    WalkedToIs(was, scope[..1], wish);
    assert forall v :: v in scope <==> v == scope[0] || v in scope[1..];
    assert forall ino :: Touches(scope, ino) <==> Touches(scope[..1], ino) || Touches(scope[1..], ino);
    forall ino | ino in was
      ensures if Touches(scope, ino)
              then now[ino] in {was[ino], FixOwner(was[ino], wish.owner), Fixed(was[ino], wish.owner, wish.mode)}
              else now[ino] == was[ino]
    {
      FixedMeets(was[ino], wish.owner, wish.mode);
    }
  }

  /** The root directory itself: what ReconcileOwnerModeAtPath does before any walk */
  method FixRoot(tree: HostTree, root: Node, wish: Wish, dryRun: bool)
    returns (r: Result<seq<OwnerChange>, OwnerModeError>)
    requires root.Dir? && root.ino in tree.attrs
    modifies tree
    ensures Visited(old(tree.attrs), tree.attrs, Visit("", false, root.ino), wish, dryRun, r.Ok?)
    ensures tree.reliable ==> r.Ok?
    ensures dryRun ==> tree.mutations == old(tree.mutations)
    ensures r.Ok? ==> r.value == RootChanges(old(tree.attrs)[root.ino], wish)
    ensures r.Ok? && !dryRun ==> tree.mutations == old(tree.mutations) + |r.value|
  {
    var info := tree.attrs[root.ino];
    var changes: seq<OwnerChange> := [];
    if wish.owner.Some? && OwnerDiffers(info, wish.owner.value) {
      if !dryRun {
        var ok := tree.Chown(root.ino, wish.owner.value);
        if !ok {
          return Err(ChownFailed);
        }
      }
      changes := changes + [OwnerSet(info.uid, info.gid, wish.owner.value)];
    }
    if wish.mode.Some? && info.perm != Perm(wish.mode.value) {
      if !dryRun {
        var ok := tree.Chmod(root.ino, Perm(wish.mode.value));
        if !ok {
          return Err(ChmodFailed);
        }
      }
      changes := changes + [ModeSet(info.perm, Perm(wish.mode.value))];
    }
    return Ok(changes);
  }

  /** The root is the first visit of every scope. */
  lemma RootPhase(was: map<Ino, Attr>, now: map<Ino, Attr>, root: Node, wish: Wish, recursive: bool, dryRun: bool,
                  done: bool)
    requires root.Dir? && Covers(was, Visits("", root))
    ensures root.ino in was
    ensures PartlyFixed(was, was, Scope(root, recursive), wish)
    ensures Visited(was, now, Visit("", false, root.ino), wish, dryRun, done) ==>
              if done then now == Found(was, Visits("", root)[..1], wish, dryRun)
              else PartlyFixed(was, now, Scope(root, recursive), wish)
  {
    var scope, first := Scope(root, recursive), Visits("", root)[..1];
    assert Visits("", root)[0] in Visits("", root);
    assert scope[..1] == first && first[..0] == [] && scope[0] == Visit("", false, root.ino);
    ScopeCovered(was, root, recursive);
    WalkedIsPartlyFixed(was, scope, 0, wish);
    WalkStep(was, now, scope, 0, wish, dryRun, done);
  }

  /** The walk carries on from the root. */
  lemma WalkPhase(was: map<Ino, Attr>, now: map<Ino, Attr>, root: Node, wish: Wish, dryRun: bool, done: bool)
    requires root.Dir? && Covers(was, Visits("", root))
    ensures var first, below := Visits("", root)[..1], Visits("", root)[1..];
            && Covers(was, first)
            && var base := Found(was, first, wish, dryRun);
            && Covers(base, below)
            && (done && !dryRun && now == WalkedTo(base, below, wish) ==> now == TreeAfter(was, Some(root), wish, true))
            && (!done && PartlyFixed(base, now, below, wish) ==> PartlyFixed(was, now, Scope(root, true), wish))
  {
    var scope, first, below := Scope(root, true), Visits("", root)[..1], Visits("", root)[1..];
    assert scope == first + below && scope[..1] == first && scope[1..] == below;
    assert forall v :: v in first || v in below ==> v in scope;
    var base := Found(was, first, wish, dryRun);
    WalkedToAppend(was, first, below, wish);
    if !done && PartlyFixed(base, now, below, wish) {
      CutOffBelow(was, base, now, scope, wish);
    }
  }

  /** Everything beneath a root that has had its turn */
  method FixBelow(tree: HostTree, ghost was: map<Ino, Attr>, wish: Wish, dryRun: bool, before: seq<OwnerChange>)
    returns (r: Result<seq<OwnerChange>, OwnerModeError>)
    requires tree.Valid() && tree.root.Some? && RootDone(was, tree.attrs, tree.root.value, wish, dryRun, before)
    modifies tree
    ensures dryRun ==> tree.attrs == old(tree.attrs) && tree.mutations == old(tree.mutations)
    ensures tree.reliable ==> r.Ok?
    ensures r.Ok? ==> r.value == OwnerChanges(was, tree.root.value, wish, true, dryRun)
    ensures r.Ok? && !dryRun ==> tree.attrs == TreeAfter(was, tree.root, wish, true)
    ensures r.Ok? && r.value == [] ==> tree.mutations == old(tree.mutations)
    ensures r.Err? ==> PartlyFixed(was, tree.attrs, Scope(tree.root.value, true), wish)
  {
    var changes := before;
    var reowned, rechmod, err := ReconcileOwnerModeRecursive(tree, wish, dryRun);
    WalkPhase(was, tree.attrs, tree.root.value, wish, dryRun, err.None?);
    if err.Some? {
      return Err(err.value);
    }
    if reowned > 0 {
      changes := changes + [OwnersBelow(reowned)];
    }
    if rechmod > 0 {
      changes := changes + [ModesBelow(rechmod)];
    }
    assert changes == before + BelowChanges(reowned, rechmod);
    return Ok(changes);
  }

  ghost predicate RootDone(was: map<Ino, Attr>, now: map<Ino, Attr>, root: Node, wish: Wish, dryRun: bool,
                           changes: seq<OwnerChange>) {
    && root.Dir? && Covers(was, Visits("", root)) && Covers(was, Visits("", root)[..1]) && root.ino in was
    && now == Found(was, Visits("", root)[..1], wish, dryRun)
    && changes == RootChanges(was[root.ino], wish)
  }

  /** ReconcileOwnerModeAtPath */
  method ReconcileOwnerModeAtPath(tree: HostTree, wish: Wish, recursive: bool, dryRun: bool)
    returns (r: Result<seq<OwnerChange>, OwnerModeError>)
    requires tree.Valid()
    modifies tree
    ensures tree.Valid()
    ensures dryRun ==> tree.attrs == old(tree.attrs) && tree.mutations == old(tree.mutations)
    ensures tree.reliable ==> r.Ok?
    ensures r.Ok? ==> r.value == TreeChanges(old(tree.attrs), tree.root, wish, recursive, dryRun)
    ensures r.Ok? && !dryRun ==> tree.attrs == TreeAfter(old(tree.attrs), tree.root, wish, recursive)
    ensures r.Ok? && r.value == [] ==> tree.mutations == old(tree.mutations)
    ensures r.Err? && tree.root.Some? ==>
              PartlyFixed(old(tree.attrs), tree.attrs, Scope(tree.root.value, recursive), wish)
    ensures tree.root.None? ==> tree.attrs == old(tree.attrs) && tree.mutations == old(tree.mutations)
  {
    if wish.owner == None && wish.mode == None {
      NothingDeclared(tree.attrs, tree.root, recursive, dryRun);
      return Ok([]);
    }
    var statFails: bool := *;
    statFails := statFails && !tree.reliable;
    if tree.root.None? {
      return if statFails then Err(StatFailed) else Ok([]);
    }
    var root := tree.root.value;
    ghost var was := tree.attrs;
    RootPhase(was, was, root, wish, recursive, dryRun, false);
    if statFails {
      return Err(StatFailed);
    }
    r := FixRoot(tree, root, wish, dryRun);
    RootPhase(was, tree.attrs, root, wish, recursive, dryRun, r.Ok?);
    if r.Err? || !recursive {
      return;
    }
    r := FixBelow(tree, was, wish, dryRun, r.value);
  }
}
