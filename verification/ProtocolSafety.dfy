/**
 * What every reachable state of the provisioning and deletion protocol keeps when claims and
 * records are read live: a volume record has its dataset, with its own claim's data, on the node it
 * names, until that node's own delete pass has taken it away
 * (pkg/controller/controller.go:392-415, 417-636, 666-741).
 */
module ProtocolSafety {
  import opened Wrappers
  import opened Subtrees
  import opened Protocol

  // ---- Systems --------------------------------------------------------------------------------------

  /** Reads say what is so, and no key is in two hands. */
  predicate Sound(c: Config) {
    c.live && !c.failing && c.exclusive
  }

  /** Some node takes up some claim. */
  ghost predicate Used(c: Config) {
    exists n: Node, u: Uid :: c.takes(n, u)
  }

  /** Whatever is there under a claim's name is what the claim asked for. */
  ghost predicate AllAdopt(c: Config) {
    forall n: Node, u: Uid :: c.takes(n, u) ==> c.adopts(u)
  }

  predicate Overlap(a: string, b: string) {
    AtOrBelow(a, b) || AtOrBelow(b, a)
  }

  /** Of the claims that one node takes up, no one's dataset is, or lies beneath, another's. */
  ghost predicate Apart(c: Config) {
    forall n: Node, u: Uid, v: Uid :: u != v && c.takes(n, u) && c.takes(n, v) ==> !AtOrBelow(c.name(u), c.name(v))
  }

  /** Renaming u's dataset out of the way can put something under v's name. */
  predicate InTheWay(c: Config, u: Uid, v: Uid, at: nat) {
    var to := c.quarantine(u, at);
    AtOrBelow(to, c.name(v)) && !Overlap(to, c.name(u))
  }

  /** Only claims that adopt what they find are in the way of a quarantine. */
  ghost predicate PosersAdopt(c: Config) {
    forall n: Node, u: Uid, v: Uid, at: nat ::
      u != v && c.takes(n, u) && c.takes(n, v) && InTheWay(c, u, v, at) ==> c.adopts(v)
  }

  /** No claim is in the way of a quarantine. */
  ghost predicate NoPosers(c: Config) {
    forall n: Node, u: Uid, v: Uid, at: nat :: u != v && c.takes(n, u) && c.takes(n, v) ==> !InTheWay(c, u, v, at)
  }

  /** What no choice of names can make up for */
  ghost predicate Careful(c: Config) {
    Sound(c) && (c.blind ==> AllAdopt(c)) && (c.preserving ==> PosersAdopt(c))
  }

  /** A dataset that a delete pass has found gone stays away. */
  ghost predicate Strict(c: Config) {
    !c.blind && (c.preserving ==> NoPosers(c))
  }

  // ---- Safety ---------------------------------------------------------------------------------------

  /** The claim's dataset is there, and holds its data, or what it adopted. */
  predicate Holds(c: Config, s: State, n: Node, u: Uid) {
    c.name(u) in Pool(s, n) && (c.adopts(u) || Pool(s, n)[c.name(u)] == Of(u))
  }

  /** Every record has its dataset, unless its own delete pass has removed it. */
  ghost predicate Safe(c: Config, s: State) {
    forall u :: u in s.pvs ==> s.pvs[u].inc in s.removed || Holds(c, s, s.pvs[u].node, u)
  }

  predicate Making(pc: Pc, u: Uid) {
    pc.Inside? && pc.job == ClaimJob(u) && pc.stage in {Absent, Created}
  }

  /** The claim has a record on the node, or is about to. */
  ghost predicate Active(s: State, n: Node, u: Uid) {
    (u in s.pvs && s.pvs[u].node == n) || exists w: nat :: Making(At(s, n, w), u)
  }

  ghost predicate Conflicts(c: Config, s: State, n: Node, u: Uid) {
    exists v :: v != u && Active(s, n, v) && Overlap(c.name(u), c.name(v))
  }

  /** A claim goes on to create or adopt only while nothing active on the node overlaps with it. */
  ghost predicate TidyStep(c: Config, s: State, e: Event) {
    match e
    case Step(n, w, CheckExists(seen)) =>
      (match At(s, n, w)
       case Inside(ClaimJob(u), Unrecorded) => (seen && !c.adopts(u)) || !Conflicts(c, s, n, u)
       case _ => true)
    case _ => true
  }

  ghost predicate Tidy(c: Config, s: State, es: seq<Event>)
    requires Run(c, s, es).Some?
  {
    es == [] || (Tidy(c, s, es[..|es| - 1]) && TidyStep(c, Run(c, s, es[..|es| - 1]).value, es[|es| - 1]))
  }

  // ---- The invariant ------------------------------------------------------------------------------

  /** The record a delete pass read is still the record. */
  predicate Fresh(s: State, n: Node, pv: Pv) {
    pv.uid in s.pvs && s.pvs[pv.uid] == pv && pv.node == n && pv.released
  }

  /** What a worker may rely on where it is */
  ghost predicate Relies(c: Config, s: State, n: Node, pc: Pc) {
    match pc
    case Waiting(ClaimJob(u)) => c.takes(n, u)
    case Inside(ClaimJob(u), stage) =>
      && c.takes(n, u)
      && (stage in {Unrecorded, Absent, Created} ==> u in s.pvs ==> s.pvs[u].node != n)
      && (stage == Absent && !c.adopts(u) ==> c.name(u) !in Pool(s, n))
      && (stage == Created ==> Holds(c, s, n, u))
    case Waiting(VolumeJob(pv)) => Fresh(s, n, pv)
    case Inside(VolumeJob(pv), stage) =>
      && (stage != Finished ==> Fresh(s, n, pv))
      && (stage == Gone && Strict(c) ==> c.name(pv.uid) !in Pool(s, n))
    case _ => true
  }

  ghost predicate AllRely(c: Config, s: State) {
    forall n: Node, w: nat :: Relies(c, s, n, At(s, n, w))
  }

  /** No two workers of a node have the same queue key. */
  ghost predicate Exclusive(c: Config, s: State) {
    forall n: Node, v: nat, w: nat :: v != w && !At(s, n, v).Idle? && !At(s, n, w).Idle? ==>
      ItemOf(c, At(s, n, v).job) != ItemOf(c, At(s, n, w).job)
  }

  /** Incarnations are numbered as they are made, on nodes that take up their claims. */
  ghost predicate Numbered(c: Config, s: State) {
    && (forall u :: u in s.pvs ==> s.pvs[u].uid == u && s.pvs[u].inc < s.nextInc && c.takes(s.pvs[u].node, u))
    && (forall u, v :: u in s.pvs && v in s.pvs && s.pvs[u].inc == s.pvs[v].inc ==> u == v)
    && (forall i :: i in s.removed ==> i < s.nextInc)
  }

  /** What is active on one node does not overlap. */
  ghost predicate Disjoint(c: Config, s: State) {
    forall n: Node, u: Uid, v: Uid :: u != v && Active(s, n, u) && Active(s, n, v) ==> !Overlap(c.name(u), c.name(v))
  }

  ghost predicate Inv(c: Config, s: State) {
    Exclusive(c, s) && Numbered(c, s) && Safe(c, s) && AllRely(c, s) && Disjoint(c, s)
  }

  // ---- What a step may do to the shared state --------------------------------------------------------

  /** Only worker w of node n has moved, and only that node's pool may have changed. */
  ghost predicate Local(s: State, s': State, n: Node, w: nat) {
    && (forall m: Node, v: nat :: (m, v) != (n, w) ==> At(s', m, v) == At(s, m, v))
    && (forall m: Node :: m != n ==> Pool(s', m) == Pool(s, m))
  }

  /** Other active claims lose nothing, and find something new under their names only where that does no harm. */
  ghost predicate Gentle(c: Config, s: State, s': State, n: Node, u: Uid) {
    forall v: Uid :: v != u && Active(s, n, v) ==>
      if c.name(v) in Pool(s, n) then c.name(v) in Pool(s', n) && Pool(s', n)[c.name(v)] == Pool(s, n)[c.name(v)]
      else c.name(v) in Pool(s', n) ==> c.adopts(v) && !Strict(c)
  }

  lemma StillExclusive(c: Config, s: State, s': State, n: Node, w: nat)
    requires Exclusive(c, s) && Local(s, s', n, w)
    requires !At(s', n, w).Idle? ==> !At(s, n, w).Idle? && At(s', n, w).job == At(s, n, w).job
    ensures Exclusive(c, s')
  {
  }

  lemma StillDisjoint(c: Config, s: State, s': State)
    requires Disjoint(c, s) && forall n, u :: Active(s', n, u) ==> Active(s, n, u)
    ensures Disjoint(c, s')
  {
  }

  /** Nothing becomes active when a worker moves on without beginning to make something. */
  lemma NothingNew(s: State, s': State, n: Node, w: nat)
    requires Local(s, s', n, w)
    requires forall m, u :: u in s'.pvs && s'.pvs[u].node == m ==> Active(s, m, u)
    requires forall u :: Making(At(s', n, w), u) ==> Making(At(s, n, w), u)
    ensures forall m, u :: Active(s', m, u) ==> Active(s, m, u)
  {
    forall m, u | Active(s', m, u)
      ensures Active(s, m, u)
    {
      if !(u in s'.pvs && s'.pvs[u].node == m) {
        var v: nat :| Making(At(s', m, v), u);
        assert Making(At(s, m, v), u);
      }
    }
  }

  lemma TakeIsExclusive(c: Config, s: State, n: Node, w: nat, job: Job)
    requires Exclusive(c, s) && c.exclusive && MayTake(c, s, n, w, job)
    ensures Exclusive(c, Stepped(s, n, w, Waiting(job)))
  {
    var s' := Stepped(s, n, w, Waiting(job));
    forall m: Node, v: nat, x: nat | v != x && !At(s', m, v).Idle? && !At(s', m, x).Idle?
      ensures ItemOf(c, At(s', m, v).job) != ItemOf(c, At(s', m, x).job)
    {
      assert (m, v) != (n, w) ==> At(s', m, v) == At(s, m, v);
      assert (m, x) != (n, w) ==> At(s', m, x) == At(s, m, x);
    }
  }

  /** The worker has u in hand, and is about to make or remove its dataset. */
  predicate Handles(pc: Pc, u: Uid) {
    pc == Inside(ClaimJob(u), Absent) || (pc.Inside? && pc.job.VolumeJob? && pc.job.pv.uid == u && pc.stage == Found)
  }

  /** Worker v of node m loses nothing it relies on when worker w of node n changes what is under u's name. */
  lemma PoolSpares(c: Config, s: State, s': State, n: Node, w: nat, u: Uid, m: Node, v: nat)
    requires Inv(c, s) && Handles(At(s, n, w), u) && (m, v) != (n, w)
    requires Local(s, s', n, w) && s'.pvs == s.pvs && Gentle(c, s, s', n, u)
    ensures Relies(c, s', m, At(s', m, v))
  {
    var pc := At(s, m, v);
    assert Relies(c, s, m, pc) && Relies(c, s, n, At(s, n, w));
    if m == n && pc.Inside? {
      assert v != w && ItemOf(c, pc.job) != ItemOf(c, At(s, n, w).job);
      match pc.job
      case ClaimJob(x) => assert pc.stage in {Absent, Created} ==> Making(At(s, n, v), x) && Active(s, n, x);
      case VolumeJob(pv) => assert pc.stage != Finished ==> Active(s, n, pv.uid);
      case StateJob(_) =>
    }
  }

  /** The same when a record is created. */
  lemma RecordSpares(c: Config, s: State, s': State, n: Node, w: nat, u: Uid, m: Node, v: nat)
    requires Inv(c, s) && At(s, n, w) == Inside(ClaimJob(u), Created) && (m, v) != (n, w)
    requires Local(s, s', n, w) && s'.pools == s.pools && u !in s.pvs
    requires s'.pvs == s.pvs[u := Pv(u, n, s.nextInc, false)]
    ensures Relies(c, s', m, At(s', m, v))
  {
    assert Relies(c, s, m, At(s, m, v)) && Relies(c, s, n, At(s, n, w));
    if m == n {
      assert v != w;
      assert !At(s, n, v).Idle? ==> ItemOf(c, At(s, n, v).job) != ItemOf(c, At(s, n, w).job);
    }
  }

  /** The same when a record is deleted. */
  lemma UnrecordSpares(c: Config, s: State, s': State, n: Node, w: nat, pv: Pv, m: Node, v: nat)
    requires Inv(c, s) && At(s, n, w) == Inside(VolumeJob(pv), Gone) && (m, v) != (n, w)
    requires Local(s, s', n, w) && s'.pools == s.pools && s'.pvs == s.pvs - {pv.uid}
    ensures Relies(c, s', m, At(s', m, v))
  {
    assert Relies(c, s, m, At(s, m, v)) && Relies(c, s, n, At(s, n, w));
    if m == n {
      assert v != w;
      assert !At(s, n, v).Idle? ==> ItemOf(c, At(s, n, v).job) != ItemOf(c, At(s, n, w).job);
    }
  }

  // ---- Steps of a claim section -----------------------------------------------------------------------

  /** A worker that only moves keeps the invariant as long as it can rely on what it takes for granted. */
  lemma MoveKeeps(c: Config, s: State, s': State, n: Node, w: nat)
    requires Inv(c, s) && Local(s, s', n, w)
    requires s'.pvs == s.pvs && s'.pools == s.pools && s'.removed == s.removed && s'.nextInc == s.nextInc
    requires !At(s', n, w).Idle? ==> !At(s, n, w).Idle? && At(s', n, w).job == At(s, n, w).job
    requires Relies(c, s', n, At(s', n, w))
    requires forall u :: Making(At(s', n, w), u) ==> Making(At(s, n, w), u)
    ensures Inv(c, s')
  {
    StillExclusive(c, s, s', n, w);
    NothingNew(s, s', n, w);
    StillDisjoint(c, s, s');
    forall m: Node, v: nat
      ensures Relies(c, s', m, At(s', m, v))
    {
      assert Relies(c, s, m, At(s, m, v));
    }
  }

  /** The claim becomes active. */
  lemma BeginDisjoint(c: Config, s: State, s': State, n: Node, w: nat, u: Uid)
    requires Disjoint(c, s) && Local(s, s', n, w) && s'.pvs == s.pvs && !Conflicts(c, s, n, u)
    requires forall v :: Making(At(s', n, w), v) ==> v == u
    ensures Disjoint(c, s')
  {
    forall m: Node, x: Uid | Active(s', m, x) && (m, x) != (n, u)
      ensures Active(s, m, x)
    {
      if !(x in s'.pvs && s'.pvs[x].node == m) {
        var v: nat :| Making(At(s', m, v), x);
        assert Making(At(s, m, v), x);
      }
    }
  }

  lemma BeginKeeps(c: Config, s: State, n: Node, w: nat, u: Uid, seen: bool)
    requires Careful(c) && Inv(c, s) && At(s, n, w) == Inside(ClaimJob(u), Unrecorded)
    requires ClaimStep(c, s, n, w, u, Unrecorded, CheckExists(seen)).Some?
    requires TidyStep(c, s, Step(n, w, CheckExists(seen)))
    ensures Inv(c, ClaimStep(c, s, n, w, u, Unrecorded, CheckExists(seen)).value)
  {
    var s' := ClaimStep(c, s, n, w, u, Unrecorded, CheckExists(seen)).value;
    assert Relies(c, s, n, At(s, n, w));
    if seen && !c.adopts(u) {
      MoveKeeps(c, s, s', n, w);
    } else {
      StillExclusive(c, s, s', n, w);
      BeginDisjoint(c, s, s', n, w, u);
      forall m: Node, v: nat
        ensures Relies(c, s', m, At(s', m, v))
      {
        assert Relies(c, s, m, At(s, m, v));
      }
    }
  }

  lemma CreateIsGentle(c: Config, s: State, s': State, n: Node, w: nat, u: Uid)
    requires Inv(c, s) && At(s, n, w) == Inside(ClaimJob(u), Absent)
    requires ClaimStep(c, s, n, w, u, Absent, CreateDataset) == Some(s')
    ensures Gentle(c, s, s', n, u)
  {
    assert Making(At(s, n, w), u);
    forall v: Uid | v != u && Active(s, n, v)
      ensures c.name(v) != c.name(u)
    {
      assert !Overlap(c.name(u), c.name(v));
    }
  }

  lemma CreateKeeps(c: Config, s: State, n: Node, w: nat, u: Uid)
    requires Inv(c, s) && At(s, n, w) == Inside(ClaimJob(u), Absent)
    ensures Inv(c, ClaimStep(c, s, n, w, u, Absent, CreateDataset).value)
  {
    var s' := ClaimStep(c, s, n, w, u, Absent, CreateDataset).value;
    assert Relies(c, s, n, At(s, n, w));
    StillExclusive(c, s, s', n, w);
    CreateIsGentle(c, s, s', n, w, u);
    NothingNew(s, s', n, w);
    StillDisjoint(c, s, s');
    forall m: Node, v: nat
      ensures Relies(c, s', m, At(s', m, v))
    {
      if (m, v) != (n, w) {
        PoolSpares(c, s, s', n, w, u, m, v);
      }
    }
  }

  lemma RecordIsSafe(c: Config, s: State, s': State, n: Node, u: Uid)
    requires Numbered(c, s) && Safe(c, s) && c.takes(n, u) && Holds(c, s, n, u) && s'.pools == s.pools
    requires s'.removed == s.removed && s'.nextInc == s.nextInc + 1 && s'.pvs == s.pvs[u := Pv(u, n, s.nextInc, false)]
    ensures Numbered(c, s') && Safe(c, s')
  {
    RecordIsNumbered(c, s, s', n, u);
    forall v | v in s'.pvs
      ensures s'.pvs[v].inc in s'.removed || Holds(c, s', s'.pvs[v].node, v)
    {
      assert v != u ==> v in s.pvs && s'.pvs[v] == s.pvs[v];
    }
  }

  lemma RecordIsNumbered(c: Config, s: State, s': State, n: Node, u: Uid)
    requires Numbered(c, s) && c.takes(n, u)
    requires s'.removed == s.removed && s'.nextInc == s.nextInc + 1 && s'.pvs == s.pvs[u := Pv(u, n, s.nextInc, false)]
    ensures Numbered(c, s')
  {
    forall v | v in s'.pvs
      ensures s'.pvs[v].uid == v && s'.pvs[v].inc < s'.nextInc && c.takes(s'.pvs[v].node, v)
      ensures v != u ==> v in s.pvs && s'.pvs[v] == s.pvs[v]
    {
    }
  }

  lemma RecordKeeps(c: Config, s: State, n: Node, w: nat, u: Uid)
    requires Inv(c, s) && At(s, n, w) == Inside(ClaimJob(u), Created) && u !in s.pvs
    ensures Inv(c, ClaimStep(c, s, n, w, u, Created, CreateRecord).value)
  {
    var s' := ClaimStep(c, s, n, w, u, Created, CreateRecord).value;
    assert Relies(c, s, n, At(s, n, w)) && Making(At(s, n, w), u);
    RecordIsSafe(c, s, s', n, u);
    StillExclusive(c, s, s', n, w);
    NothingNew(s, s', n, w);
    StillDisjoint(c, s, s');
    forall m: Node, v: nat
      ensures Relies(c, s', m, At(s', m, v))
    {
      if (m, v) != (n, w) {
        RecordSpares(c, s, s', n, w, u, m, v);
      }
    }
  }

  lemma ClaimKeeps(c: Config, s: State, n: Node, w: nat, u: Uid, stage: Stage, a: Action)
    requires Careful(c) && Inv(c, s) && At(s, n, w) == Inside(ClaimJob(u), stage)
    requires ClaimStep(c, s, n, w, u, stage, a).Some? && TidyStep(c, s, Step(n, w, a))
    ensures Inv(c, ClaimStep(c, s, n, w, u, stage, a).value)
  {
    assert Relies(c, s, n, At(s, n, w));
    var s' := ClaimStep(c, s, n, w, u, stage, a).value;
    match (stage, a)
    case (Unrecorded, CheckExists(seen)) => BeginKeeps(c, s, n, w, u, seen);
    case (Absent, CreateDataset) => CreateKeeps(c, s, n, w, u);
    case (Created, CreateRecord) =>
      if u in s.pvs {
        MoveKeeps(c, s, s', n, w);
      } else {
        RecordKeeps(c, s, n, w, u);
      }
    case _ => MoveKeeps(c, s, s', n, w);
  }

  // ---- Steps of a delete section ----------------------------------------------------------------------

  /** Taking away the backend of one's own volume, or part of it */
  lemma RemovalKeeps(c: Config, s: State, s': State, n: Node, w: nat, pv: Pv)
    requires Inv(c, s) && At(s, n, w) == Inside(VolumeJob(pv), Found)
    requires Local(s, s', n, w) && s'.pvs == s.pvs && s'.nextInc == s.nextInc && Gentle(c, s, s', n, pv.uid)
    requires if At(s', n, w) == Inside(VolumeJob(pv), Gone)
             then s'.removed == s.removed + {pv.inc} && c.name(pv.uid) !in Pool(s', n)
             else && At(s', n, w) == Inside(VolumeJob(pv), Finished) && s'.removed == s.removed
                  && (Holds(c, s, n, pv.uid) ==> Holds(c, s', n, pv.uid))
    ensures Inv(c, s')
  {
    assert Relies(c, s, n, At(s, n, w));
    StillExclusive(c, s, s', n, w);
    NothingNew(s, s', n, w);
    StillDisjoint(c, s, s');
    forall m: Node, v: nat
      ensures Relies(c, s', m, At(s', m, v))
    {
      if (m, v) != (n, w) {
        PoolSpares(c, s, s', n, w, pv.uid, m, v);
      }
    }
  }

  lemma RenameIsGentle(c: Config, s: State, s': State, n: Node, w: nat, pv: Pv, at: nat)
    requires Careful(c) && Inv(c, s) && At(s, n, w) == Inside(VolumeJob(pv), Found)
    requires VolumeStep(c, s, n, w, pv, Found, Preserve(at)) == Some(s')
    ensures Gentle(c, s, s', n, pv.uid) && c.name(pv.uid) !in Pool(s', n)
  {
    var u, to, pool := pv.uid, c.quarantine(pv.uid, at), Pool(s, n);
    assert Pool(s', n) == Renamed(pool, c.name(u), to);
    assert Relies(c, s, n, At(s, n, w));
    RenameFrees(pool, c.name(u), to);
    forall v: Uid | v != u && Active(s, n, v)
      ensures if c.name(v) in pool then c.name(v) in Pool(s', n) && Pool(s', n)[c.name(v)] == pool[c.name(v)]
              else c.name(v) in Pool(s', n) ==> c.adopts(v) && !Strict(c)
    {
      assert Active(s, n, u) && !Overlap(c.name(u), c.name(v));
      ActiveIsTaken(c, s, n, v);
      if AtOrBelow(to, c.name(v)) {
        assert InTheWay(c, u, v, at);
        RenameKeeps(pool, c.name(u), to);
      } else {
        RenameSpares(pool, c.name(u), to, c.name(v));
      }
    }
  }

  lemma ActiveIsTaken(c: Config, s: State, n: Node, u: Uid)
    requires Inv(c, s) && Active(s, n, u)
    ensures c.takes(n, u)
  {
    if !(u in s.pvs && s.pvs[u].node == n) {
      var w: nat :| Making(At(s, n, w), u);
      assert Relies(c, s, n, At(s, n, w));
    }
  }

  lemma DeleteRecordKeeps(c: Config, s: State, n: Node, w: nat, pv: Pv)
    requires Inv(c, s) && At(s, n, w) == Inside(VolumeJob(pv), Gone)
    ensures Inv(c, VolumeStep(c, s, n, w, pv, Gone, DeleteRecord).value)
  {
    var s' := VolumeStep(c, s, n, w, pv, Gone, DeleteRecord).value;
    assert Relies(c, s, n, At(s, n, w));
    StillExclusive(c, s, s', n, w);
    NothingNew(s, s', n, w);
    StillDisjoint(c, s, s');
    forall m: Node, v: nat
      ensures Relies(c, s', m, At(s', m, v))
    {
      if (m, v) != (n, w) {
        UnrecordSpares(c, s, s', n, w, pv, m, v);
      }
    }
  }

  /** Removing entries at or beneath one's own name spares every other active claim. */
  lemma RemovalIsGentle(c: Config, s: State, s': State, n: Node, w: nat, pv: Pv)
    requires Inv(c, s) && At(s, n, w) == Inside(VolumeJob(pv), Found)
    requires forall k :: k in Pool(s', n) ==> k in Pool(s, n) && Pool(s', n)[k] == Pool(s, n)[k]
    requires forall k :: k in Pool(s, n) && !AtOrBelow(c.name(pv.uid), k) ==> k in Pool(s', n)
    ensures Gentle(c, s, s', n, pv.uid)
  {
    assert Relies(c, s, n, At(s, n, w)) && Active(s, n, pv.uid);
  }

  lemma DestroyKeeps(c: Config, s: State, s': State, n: Node, w: nat, pv: Pv)
    requires Inv(c, s) && At(s, n, w) == Inside(VolumeJob(pv), Found)
    requires VolumeStep(c, s, n, w, pv, Found, Destroy) == Some(s')
    ensures Inv(c, s')
  {
    RemovalIsGentle(c, s, s', n, w, pv);
    RemovalKeeps(c, s, s', n, w, pv);
  }

  lemma DestroyPartKeeps(c: Config, s: State, s': State, n: Node, w: nat, pv: Pv, lost: set<string>)
    requires Inv(c, s) && At(s, n, w) == Inside(VolumeJob(pv), Found)
    requires VolumeStep(c, s, n, w, pv, Found, DestroyPart(lost)) == Some(s')
    ensures Inv(c, s')
  {
    RemovalIsGentle(c, s, s', n, w, pv);
    RemovalKeeps(c, s, s', n, w, pv);
  }

  lemma PreserveKeeps(c: Config, s: State, s': State, n: Node, w: nat, pv: Pv, at: nat)
    requires Careful(c) && Inv(c, s) && At(s, n, w) == Inside(VolumeJob(pv), Found)
    requires VolumeStep(c, s, n, w, pv, Found, Preserve(at)) == Some(s')
    ensures Inv(c, s')
  {
    RenameIsGentle(c, s, s', n, w, pv, at);
    RemovalKeeps(c, s, s', n, w, pv);
  }

  lemma VolumeKeeps(c: Config, s: State, n: Node, w: nat, pv: Pv, stage: Stage, a: Action)
    requires Careful(c) && Inv(c, s) && At(s, n, w) == Inside(VolumeJob(pv), stage)
    requires VolumeStep(c, s, n, w, pv, stage, a).Some?
    ensures Inv(c, VolumeStep(c, s, n, w, pv, stage, a).value)
  {
    assert Relies(c, s, n, At(s, n, w));
    var s' := VolumeStep(c, s, n, w, pv, stage, a).value;
    match (stage, a)
    case (Found, Destroy) => DestroyKeeps(c, s, s', n, w, pv);
    case (Found, DestroyPart(lost)) => DestroyPartKeeps(c, s, s', n, w, pv, lost);
    case (Found, Preserve(at)) => PreserveKeeps(c, s, s', n, w, pv, at);
    case (Gone, DeleteRecord) => DeleteRecordKeeps(c, s, n, w, pv);
    case _ => MoveKeeps(c, s, s', n, w);
  }

  // ---- The other steps --------------------------------------------------------------------------------

  lemma TakeKeeps(c: Config, s: State, n: Node, w: nat, job: Job)
    requires Inv(c, s) && c.live && c.exclusive && MayTake(c, s, n, w, job)
    ensures Inv(c, Stepped(s, n, w, Waiting(job)))
  {
    var s' := Stepped(s, n, w, Waiting(job));
    TakeIsExclusive(c, s, n, w, job);
    NothingNew(s, s', n, w);
    StillDisjoint(c, s, s');
    forall m: Node, v: nat
      ensures Relies(c, s', m, At(s', m, v))
    {
      assert Relies(c, s, m, At(s, m, v));
    }
  }

  lemma CrashKeeps(c: Config, s: State, n: Node)
    requires Inv(c, s)
    ensures Inv(c, Crashed(s, n))
  {
    var s' := Crashed(s, n);
    forall m: Node, v: nat
      ensures Relies(c, s', m, At(s', m, v))
      ensures At(s', m, v) == if m == n then Idle else At(s, m, v)
    {
      assert Relies(c, s, m, At(s, m, v));
    }
    forall m, u | Active(s', m, u)
      ensures Active(s, m, u)
    {
      if !(u in s'.pvs && s'.pvs[u].node == m) {
        var v: nat :| Making(At(s', m, v), u);
        assert Making(At(s, m, v), u);
      }
    }
    StillDisjoint(c, s, s');
  }

  lemma ReleaseSpares(c: Config, s: State, s': State, u: Uid, n: Node, pc: Pc)
    requires u in s.pvs && s'.pvs == s.pvs[u := s.pvs[u].(released := true)] && s'.pools == s.pools
    requires Relies(c, s, n, pc)
    ensures Relies(c, s', n, pc)
  {
  }

  lemma ReleaseKeepsRecords(c: Config, s: State, s': State, u: Uid)
    requires Numbered(c, s) && Safe(c, s) && u in s.pvs
    requires s' == s.(pvs := s.pvs[u := s.pvs[u].(released := true)], history := s'.history)
    ensures Numbered(c, s') && Safe(c, s')
  {
  }

  lemma ReleaseKeepsReliance(c: Config, s: State, s': State, u: Uid)
    requires AllRely(c, s) && u in s.pvs
    requires s' == s.(pvs := s.pvs[u := s.pvs[u].(released := true)], history := s'.history)
    ensures AllRely(c, s')
  {
    forall m: Node, v: nat
      ensures Relies(c, s', m, At(s', m, v))
    {
      ReleaseSpares(c, s, s', u, m, At(s, m, v));
    }
  }

  lemma ReleaseKeeps(c: Config, s: State, u: Uid)
    requires Inv(c, s) && u in s.pvs
    ensures Inv(c, Next(c, s, Release(u)).value)
  {
    var s' := Next(c, s, Release(u)).value;
    assert forall m: Node, v: nat :: At(s', m, v) == At(s, m, v);
    ReleaseKeepsRecords(c, s, s', u);
    ReleaseKeepsReliance(c, s, s', u);
    NothingNew(s, s', 0, 0);
    StillDisjoint(c, s, s');
  }

  lemma EnterKeeps(c: Config, s: State, n: Node, w: nat, job: Job)
    requires Inv(c, s) && At(s, n, w) == Waiting(job)
    ensures Inv(c, EnterSection(c, s, n, w, job))
  {
    assert Relies(c, s, n, At(s, n, w));
    MoveKeeps(c, s, EnterSection(c, s, n, w, job), n, w);
  }

  lemma LeaveKeeps(c: Config, s: State, n: Node, w: nat, job: Job)
    requires Inv(c, s) && At(s, n, w).Inside? && At(s, n, w).job == job
    ensures Inv(c, LeaveSection(c, s, n, w, job))
  {
    MoveKeeps(c, s, LeaveSection(c, s, n, w, job), n, w);
  }

  /** Every step, crash and release keeps the invariant. */
  lemma NextKeeps(c: Config, s: State, e: Event)
    requires Careful(c) && TidyStep(c, s, e)
    requires Inv(c, s) && Next(c, s, e).Some?
    ensures Inv(c, Next(c, s, e).value)
  {
    match e
    case Step(n, w, a) =>
      match (At(s, n, w), a) {
        case (Idle, Take(job)) => TakeKeeps(c, s, n, w, job);
        case (Waiting(job), Enter) => EnterKeeps(c, s, n, w, job);
        case (Inside(job, _), Leave) => LeaveKeeps(c, s, n, w, job);
        case (Inside(ClaimJob(u), stage), _) => ClaimKeeps(c, s, n, w, u, stage, a);
        case (Inside(VolumeJob(pv), stage), _) => VolumeKeeps(c, s, n, w, pv, stage, a);
      }
    case Crash(n) => CrashKeeps(c, s, n);
    case Release(u) => ReleaseKeeps(c, s, u);
  }

  // ---- Results --------------------------------------------------------------------------------------

  /** In a tidy run of a careful system the invariant holds throughout, whatever names are used again. */
  lemma {:induction false} InvAlways(c: Config, s: State, es: seq<Event>)
    requires Careful(c) && Initial(s) && Run(c, s, es).Some? && Tidy(c, s, es)
    ensures Inv(c, Run(c, s, es).value)
  {
    if es != [] {
      InvAlways(c, s, es[..|es| - 1]);
      NextKeeps(c, Run(c, s, es[..|es| - 1]).value, es[|es| - 1]);
    }
  }

  /**
   * Names may be used again: a run in which a claim goes on to create or adopt its dataset only
   * while no overlapping claim has a record on the node, or is about to, loses nothing.
   */
  lemma TidyRunsSafe(c: Config, s: State, es: seq<Event>)
    requires Careful(c) && Initial(s) && Run(c, s, es).Some? && Tidy(c, s, es)
    ensures Safe(c, Run(c, s, es).value)
  {
    InvAlways(c, s, es);
  }

  lemma ApartIsTidy(c: Config, s: State, e: Event)
    requires Apart(c) && Inv(c, s)
    ensures TidyStep(c, s, e)
  {
    if e.Step? && e.action.CheckExists? && At(s, e.node, e.worker).Inside? && At(s, e.node, e.worker).job.ClaimJob? {
      var u := At(s, e.node, e.worker).job.uid;
      assert Relies(c, s, e.node, At(s, e.node, e.worker));
      forall v | v != u && Active(s, e.node, v)
        ensures !Overlap(c.name(u), c.name(v))
      {
        ActiveIsTaken(c, s, e.node, v);
      }
    }
  }

  /** With names apart every run is tidy. */
  lemma {:induction false} AlwaysTidy(c: Config, s: State, es: seq<Event>)
    requires Careful(c) && Apart(c) && Initial(s) && Run(c, s, es).Some?
    ensures Tidy(c, s, es)
  {
    if es != [] {
      AlwaysTidy(c, s, es[..|es| - 1]);
      InvAlways(c, s, es[..|es| - 1]);
      ApartIsTidy(c, Run(c, s, es[..|es| - 1]).value, es[|es| - 1]);
    }
  }

  /** In every reachable state every record has its dataset, or had it removed by its own delete pass. */
  ghost predicate AlwaysSafe(c: Config) {
    forall s, es :: Initial(s) && Run(c, s, es).Some? ==> Safe(c, Run(c, s, es).value)
  }

  /** If u's record goes, then by the delete pass of its own node for that very record, which has seen the dataset gone. */
  ghost predicate GoesLast(c: Config, t: State, e: Event, u: Uid) {
    Next(c, t, e).Some? && u in t.pvs && u !in Next(c, t, e).value.pvs ==>
      && e.Step? && e.action == DeleteRecord && e.node == t.pvs[u].node
      && At(t, e.node, e.worker) == Inside(VolumeJob(t.pvs[u]), Gone)
      && c.name(u) !in Pool(t, e.node) && t.pvs[u].inc in t.removed
  }

  /** In every run records go only after their datasets. */
  ghost predicate RecordsOutlive(c: Config) {
    forall s, es, e, u :: Initial(s) && Run(c, s, es).Some? ==> GoesLast(c, Run(c, s, es).value, e, u)
  }

  lemma OnlyDeletePassesDrop(c: Config, t: State, e: Event, u: Uid)
    requires Next(c, t, e).Some? && u in t.pvs && u !in Next(c, t, e).value.pvs
    ensures e.Step? && e.action == DeleteRecord
    ensures exists pv :: At(t, e.node, e.worker) == Inside(VolumeJob(pv), Gone) && pv.uid == u
  {
    var pv := At(t, e.node, e.worker).job.pv;
    assert At(t, e.node, e.worker) == Inside(VolumeJob(pv), Gone);
  }

  lemma RecordGoesLast(c: Config, s: State, es: seq<Event>, e: Event, u: Uid)
    requires Careful(c) && Strict(c) && Initial(s) && Run(c, s, es).Some? && Tidy(c, s, es)
    ensures GoesLast(c, Run(c, s, es).value, e, u)
  {
    InvAlways(c, s, es);
    var t := Run(c, s, es).value;
    if Next(c, t, e).Some? && u in t.pvs && u !in Next(c, t, e).value.pvs {
      OnlyDeletePassesDrop(c, t, e, u);
      assert Relies(c, t, e.node, At(t, e.node, e.worker));
    }
  }
}
