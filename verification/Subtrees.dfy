/**
 * Names in a hierarchy written with '/', and maps from such names: what a recursive
 * destroy or removal takes away, and where a rename moves it.
 */
module Subtrees {

  /** `name` is `top` itself or lies beneath it. */
  predicate AtOrBelow(top: string, name: string) {
    name == top || top + "/" <= name
  }

  /** Two names above a common one are themselves comparable. */
  lemma Comparable(a: string, b: string, name: string)
    requires AtOrBelow(a, name) && AtOrBelow(b, name)
    ensures AtOrBelow(a, b) || AtOrBelow(b, a)
  {
    if |a| < |b| {
      assert (a + "/")[..|a| + 1] == name[..|a| + 1] == b[..|a| + 1];
    } else if |b| < |a| {
      assert (b + "/")[..|b| + 1] == name[..|b| + 1] == a[..|b| + 1];
    } else {
      assert a == name[..|a|] == b;
    }
  }

  /** Everything outside the subtree at `top` */
  function Without<T>(m: map<string, T>, top: string): map<string, T> {
    map k | k in m && !AtOrBelow(top, k) :: m[k]
  }

  /** The name a member of the subtree has after its top is renamed */
  function Moved(top: string, to: string, name: string): string
    requires AtOrBelow(top, name)
  {
    to + name[|top|..]
  }

  lemma MovedInjective(top: string, to: string, a: string, b: string)
    requires AtOrBelow(top, a) && AtOrBelow(top, b) && Moved(top, to, a) == Moved(top, to, b)
    ensures a == b
  {
    var ra, rb := a[|top|..], b[|top|..];
    assert a == top + ra && b == top + rb;
    assert Moved(top, to, a)[|to|..] == ra && Moved(top, to, b)[|to|..] == rb;
  }

  lemma MovedBelow(top: string, to: string, name: string)
    requires AtOrBelow(top, name)
    ensures AtOrBelow(to, Moved(top, to, name))
    ensures Moved(to, top, Moved(top, to, name)) == name
  {
    var rest := name[|top|..];
    assert name == top + rest && (to + rest)[|to|..] == rest;
    if name != top {
      assert rest[0] == (top + "/")[|top|];
      assert to + rest == to + "/" + rest[1..];
    }
  }

  /** The subtree at `top`, under its new name */
  function Relocated<T>(m: map<string, T>, top: string, to: string): map<string, T> {
    map k | k in m && AtOrBelow(top, k) ::
      (MovedInjectiveAll(top, to); Moved(top, to, k)) := m[k]
  }

  lemma MovedInjectiveAll(top: string, to: string)
    ensures forall a, b :: AtOrBelow(top, a) && AtOrBelow(top, b) && Moved(top, to, a) == Moved(top, to, b) ==> a == b
  {
    forall a, b | AtOrBelow(top, a) && AtOrBelow(top, b) && Moved(top, to, a) == Moved(top, to, b)
      ensures a == b
    {
      MovedInjective(top, to, a, b);
    }
  }

  /** The whole map after `top` is renamed to `to` */
  function Renamed<T>(m: map<string, T>, top: string, to: string): map<string, T> {
    Without(m, top) + Relocated(m, top, to)
  }

  /** `to` is free, and not inside the subtree being renamed. */
  predicate FreeFor<T>(m: map<string, T>, top: string, to: string) {
    top in m && !AtOrBelow(top, to) && forall k :: k in m ==> !AtOrBelow(to, k)
  }

  lemma RelocatedKeys<T>(m: map<string, T>, top: string, to: string)
    requires FreeFor(m, top, to)
    ensures forall k :: k in m && AtOrBelow(top, k) ==>
      Moved(top, to, k) in Relocated(m, top, to) && Relocated(m, top, to)[Moved(top, to, k)] == m[k]
    ensures forall k :: k in Relocated(m, top, to) ==>
      AtOrBelow(to, k) && !AtOrBelow(top, k) && Moved(to, top, k) in m && AtOrBelow(top, Moved(to, top, k))
  {
    MovedInjectiveAll(top, to);
    forall k | k in Relocated(m, top, to)
      ensures AtOrBelow(to, k) && !AtOrBelow(top, k) && Moved(to, top, k) in m && AtOrBelow(top, Moved(to, top, k))
    {
      var k' :| k' in m && AtOrBelow(top, k') && Moved(top, to, k') == k;
      MovedBelow(top, to, k');
      if AtOrBelow(top, k) {
        Comparable(top, to, k);
      }
    }
  }

  /** A rename to a free name loses nothing: every entry is found again, and the old name is free. */
  lemma RenameKeeps<T>(m: map<string, T>, top: string, to: string)
    requires FreeFor(m, top, to)
    ensures forall k :: k in m && !AtOrBelow(top, k) ==> k in Renamed(m, top, to) && Renamed(m, top, to)[k] == m[k]
    ensures forall k :: k in m && AtOrBelow(top, k) ==>
      Moved(top, to, k) in Renamed(m, top, to) && Renamed(m, top, to)[Moved(top, to, k)] == m[k]
    ensures forall k :: k in Renamed(m, top, to) ==> !AtOrBelow(top, k)
    ensures FreeFor(Renamed(m, top, to), to, top)
    ensures Without(Renamed(m, top, to), to) == Without(m, top)
  {
    RelocatedKeys(m, top, to);
    MovedBelow(top, to, top);
    assert Moved(top, to, top) == to by {
      assert top[|top|..] == "";
    }
    if AtOrBelow(to, top) {
      assert false;
    }
  }

  /** A rename concerns nobody outside the old and the new subtree. */
  lemma RenameSpares<T>(m: map<string, T>, top: string, to: string, other: string)
    requires FreeFor(m, top, to) && !AtOrBelow(top, other) && !AtOrBelow(to, other)
    ensures other in Renamed(m, top, to) <==> other in m
    ensures other in m ==> Renamed(m, top, to)[other] == m[other]
  {
    RelocatedKeys(m, top, to);
  }

  lemma RenameFrees<T>(m: map<string, T>, top: string, to: string)
    requires FreeFor(m, top, to)
    ensures top !in Renamed(m, top, to)
  {
    RelocatedKeys(m, top, to);
  }

  /** The subtree itself */
  function Within<T>(m: map<string, T>, top: string): map<string, T> {
    map k | k in m && AtOrBelow(top, k) :: m[k]
  }

  lemma RelocateBackKeeps<T>(m: map<string, T>, top: string, to: string)
    requires FreeFor(m, top, to)
    ensures Within(m, top).Items <= Relocated(Renamed(m, top, to), to, top).Items
  {
    var back := Relocated(Renamed(m, top, to), to, top);
    RenameKeeps(m, top, to);
    RelocatedKeys(Renamed(m, top, to), to, top);
    forall k | k in m && AtOrBelow(top, k)
      ensures k in back && back[k] == m[k]
    {
      MovedBelow(top, to, k);
    }
  }

  lemma RelocateBackAddsNothing<T>(m: map<string, T>, top: string, to: string)
    requires FreeFor(m, top, to)
    ensures Relocated(Renamed(m, top, to), to, top).Keys <= Within(m, top).Keys
  {
    RenameKeeps(m, top, to);
    RelocatedKeys(Renamed(m, top, to), to, top);
    RelocatedKeys(m, top, to);
    forall k | k in Relocated(Renamed(m, top, to), to, top)
      ensures k in m && AtOrBelow(top, k)
    {
      MovedBelow(top, to, k);
    }
  }

  lemma SameItems<T>(a: map<string, T>, b: map<string, T>)
    requires a.Items <= b.Items && b.Keys <= a.Keys
    ensures a == b
  {
    forall k | k in a
      ensures k in b && a[k] == b[k]
    {
      assert (k, a[k]) in a.Items;
    }
  }

  lemma RelocateBack<T>(m: map<string, T>, top: string, to: string)
    requires FreeFor(m, top, to)
    ensures Relocated(Renamed(m, top, to), to, top) == Within(m, top)
  {
    RelocateBackKeeps(m, top, to);
    RelocateBackAddsNothing(m, top, to);
    SameItems(Within(m, top), Relocated(Renamed(m, top, to), to, top));
  }

  /** Renaming back restores the map. */
  lemma RenameBack<T>(m: map<string, T>, top: string, to: string)
    requires FreeFor(m, top, to)
    ensures Renamed(Renamed(m, top, to), to, top) == m
  {
    RenameKeeps(m, top, to);
    RelocateBack(m, top, to);
  }
}
