/**
 * The protocol without deletions, with claims and records read from listers that lag behind as
 * they like: how many backends a claim is given, on how many nodes, and whether recorded volumes
 * have their data (pkg/controller/controller.go:392-441, 569-631; pkg/driver/zfs/zfs.go:76-146).
 */
module ProtocolListers {
  import opened Wrappers
  import Claims
  import opened Protocol
  import opened ProtocolOnce
  import opened ProtocolRuns
  import opened ProtocolSafety
  import opened ProtocolScenes

  // ---- Who works on what ------------------------------------------------------------------------------

  /** A node works on, and creates for, claims that it takes up. */
  ghost predicate TakenOnly(c: Config, s: State) {
    && (forall n: Node, w: nat :: !At(s, n, w).Idle? && At(s, n, w).job.ClaimJob? ==> c.takes(n, At(s, n, w).job.uid))
    && (forall n: Node, u: Uid :: s.creates[(n, u)] > 0 ==> c.takes(n, u))
  }

  /** A worker keeps its job while it has one. */
  lemma JobStays(c: Config, s: State, n: Node, w: nat, a: Action)
    requires Do(c, s, n, w, a).Some?
    ensures OthersStay(s, Do(c, s, n, w, a).value, n, w)
    ensures var pc := At(Do(c, s, n, w, a).value, n, w);
            !pc.Idle? ==> if At(s, n, w).Idle? then MayTake(c, s, n, w, pc.job) else pc.job == At(s, n, w).job
  {
    match At(s, n, w)
    case Inside(ClaimJob(u), stage) => ClaimStaysInside(c, s, n, w, u, stage, a);
    case Inside(VolumeJob(pv), stage) => VolumeStaysInside(c, s, n, w, pv, stage, a);
    case _ =>
  }

  lemma CreatesTaken(c: Config, s: State, n: Node, w: nat, a: Action)
    requires TakenOnly(c, s) && Do(c, s, n, w, a).Some?
    ensures forall m: Node, u: Uid :: Do(c, s, n, w, a).value.creates[(m, u)] > 0 ==> c.takes(m, u)
  {
    assert !At(s, n, w).Idle? && At(s, n, w).job.ClaimJob? ==> c.takes(n, At(s, n, w).job.uid);
    if !(At(s, n, w).Inside? && At(s, n, w).job.ClaimJob? && a.CreateDataset?) {
      assert Do(c, s, n, w, a).value.creates == s.creates;
    }
  }

  lemma StepKeepsTaken(c: Config, s: State, n: Node, w: nat, a: Action)
    requires TakenOnly(c, s) && Do(c, s, n, w, a).Some?
    ensures TakenOnly(c, Do(c, s, n, w, a).value)
  {
    JobStays(c, s, n, w, a);
    CreatesTaken(c, s, n, w, a);
    assert !At(s, n, w).Idle? && At(s, n, w).job.ClaimJob? ==> c.takes(n, At(s, n, w).job.uid);
  }

  lemma NextKeepsTaken(c: Config, s: State, e: Event)
    requires TakenOnly(c, s) && Next(c, s, e).Some?
    ensures TakenOnly(c, Next(c, s, e).value)
  {
    match e
    case Step(n, w, a) => StepKeepsTaken(c, s, n, w, a);
    case Crash(n) =>
      assert forall m: Node, v: nat :: At(Crashed(s, n), m, v) == if m == n then Idle else At(s, m, v);
    case Release(u) =>
      assert forall m: Node, v: nat :: At(Next(c, s, e).value, m, v) == At(s, m, v);
  }

  lemma {:induction false} AlwaysTaken(c: Config, s: State, es: seq<Event>)
    requires Initial(s) && Run(c, s, es).Some?
    ensures TakenOnly(c, Run(c, s, es).value)
  {
    if es != [] {
      AlwaysTaken(c, s, es[..|es| - 1]);
      NextKeepsTaken(c, Run(c, s, es[..|es| - 1]).value, es[|es| - 1]);
    }
  }

  // ---- One backend ------------------------------------------------------------------------------------

  /** No run without deletions gives a claim two backends on one node. */
  ghost predicate CreatesOnce(c: Config) {
    forall s, es :: Initial(s) && Run(c, s, es).Some? && WithoutDeletion(es) ==>
      forall n: Node, u: Uid :: Run(c, s, es).value.creates[(n, u)] <= 1
  }

  /** A claim pass of worker 0 that creates the dataset of u, or takes it for created, and then fails. */
  lemma CreateAndFail(c: Config, s: State, es: seq<Event>, t: State, n: Node, u: Uid) returns (es': seq<Event>, t': State)
    requires Run(c, s, es) == Some(t) && WithoutDeletion(es) && t.pvs == map[] && t.history == {} && t.held == {}
    requires forall m: Node, w: nat :: At(t, m, w).Idle?
    requires c.takes(n, u) && (c.blind || c.name(u) !in Pool(t, n))
    ensures Run(c, s, es') == Some(t') && WithoutDeletion(es') && OthersStay(t, t', n, 0)
    ensures t' == WithPool(Put(t, n, 0, Idle, {}), n, WithCreated(c, Pool(t, n), u)).(creates := t.creates + multiset{(n, u)})
  {
    var e1, t1 := Prepare(c, s, es, t, n, 0, u);
    var e2, t2 := Create(c, s, e1, t1, n, 0, u);
    es', t' := LeaveClaim(c, s, e2, t2, n, 0, u);
    assert t'.workers == t.workers[(n, 0) := Idle];
  }

  lemma BlindCreatesTwice(c: Config, n: Node, u: Uid) returns (es: seq<Event>)
    requires c.blind && c.takes(n, u)
    ensures Run(c, EMPTY, es).Some? && WithoutDeletion(es) && Run(c, EMPTY, es).value.creates[(n, u)] == 2
  {
    var e1, t1 := CreateAndFail(c, EMPTY, [], EMPTY, n, u);
    var e2, t2 := CreateAndFail(c, EMPTY, e1, t1, n, u);
    es := e2;
  }

  lemma NoneCreated(c: Config, s: State, es: seq<Event>)
    requires !Used(c) && Initial(s) && Run(c, s, es).Some?
    ensures forall n: Node, u: Uid :: Run(c, s, es).value.creates[(n, u)] == 0
  {
    AlwaysTaken(c, s, es);
  }

  /**
   * Listers that lag behind do no harm here, but a failing `zfs list` does: exactly without it is
   * each claim given one backend on a node.
   */
  lemma CreatesOnceExactly(c: Config)
    ensures CreatesOnce(c) <==> (c.blind ==> !Used(c))
  {
    if c.blind && Used(c) {
      var n: Node, u: Uid :| c.takes(n, u);
      var es := BlindCreatesTwice(c, n, u);
      assert Initial(EMPTY);
    } else {
      forall s, es | Initial(s) && Run(c, s, es).Some? && WithoutDeletion(es)
        ensures forall n: Node, u: Uid :: Run(c, s, es).value.creates[(n, u)] <= 1
      {
        if c.blind {
          NoneCreated(c, s, es);
        } else {
          ProvisionedOnce(c, s, es);
        }
      }
    }
  }

  /** Nor does any such run give it backends on two nodes. */
  ghost predicate OneBackend(c: Config) {
    CreatesOnce(c) &&
    forall s, es :: Initial(s) && Run(c, s, es).Some? && WithoutDeletion(es) ==>
      forall n: Node, m: Node, u: Uid :: n != m ==>
        !(Run(c, s, es).value.creates[(n, u)] > 0 && Run(c, s, es).value.creates[(m, u)] > 0)
  }

  ghost predicate OneNode(c: Config) {
    forall n: Node, m: Node, u: Uid :: c.takes(n, u) && c.takes(m, u) ==> n == m
  }

  lemma TwoNodesCreate(c: Config, n: Node, m: Node, u: Uid) returns (es: seq<Event>)
    requires n != m && c.takes(n, u) && c.takes(m, u)
    ensures Run(c, EMPTY, es).Some? && WithoutDeletion(es)
    ensures Run(c, EMPTY, es).value.creates[(n, u)] > 0 && Run(c, EMPTY, es).value.creates[(m, u)] > 0
  {
    var e1, t1 := CreateAndFail(c, EMPTY, [], EMPTY, n, u);
    assert c.name(u) !in Pool(t1, m);
    var e2, t2 := CreateAndFail(c, EMPTY, e1, t1, m, u);
    es := e2;
  }

  /** In the whole cluster a claim is given one backend exactly if, besides, one node at most takes it up. */
  lemma OneBackendExactly(c: Config)
    ensures OneBackend(c) <==> (c.blind ==> !Used(c)) && OneNode(c)
  {
    CreatesOnceExactly(c);
    if !OneNode(c) {
      var n: Node, m: Node, u: Uid :| c.takes(n, u) && c.takes(m, u) && n != m;
      var es := TwoNodesCreate(c, n, m, u);
      assert Initial(EMPTY);
    } else {
      forall s, es | Initial(s) && Run(c, s, es).Some? && WithoutDeletion(es)
        ensures forall n: Node, m: Node, u: Uid :: n != m ==>
          !(Run(c, s, es).value.creates[(n, u)] > 0 && Run(c, s, es).value.creates[(m, u)] > 0)
      {
        AlwaysTaken(c, s, es);
      }
    }
  }

  /** Something says where the claim belongs, or will do so. */
  predicate Placed(sc: Claims.StorageClass, pvc: Claims.Claim) {
    || Claims.Lookup(pvc.annotations, "volume.kubernetes.io/selected-node") != ""
    || Claims.Lookup(sc.parameters, "node") != "" || sc.waitForFirstConsumer
  }

  /**
   * The same in terms of claims and their classes, for provisioners that are told the names of
   * their nodes: one backend in the whole cluster if and only if every claim says where it
   * belongs, or waits for that.
   */
  lemma OneBackendInCluster(c: Config, nodeName: Node -> string, pvc: Uid -> Claims.Claim, sc: Uid -> Claims.StorageClass)
    requires forall n: Node :: nodeName(n) != ""
    requires forall n: Node, m: Node :: n != m ==> nodeName(n) != nodeName(m)
    requires forall n: Node, u: Uid :: c.takes(n, u) == Claims.IsNodeTargeted(nodeName(n), sc(u), pvc(u))
    ensures OneBackend(c) <==> (c.blind ==> !Used(c)) && forall u: Uid :: Placed(sc(u), pvc(u))
  {
    OneBackendExactly(c);
    forall n: Node, m: Node, u: Uid | n != m
      ensures c.takes(n, u) && c.takes(m, u) <==> !Placed(sc(u), pvc(u))
    {
      Claims.OneNodeTargeted(sc(u), pvc(u), nodeName(n), nodeName(m));
    }
    if u: Uid :| !Placed(sc(u), pvc(u)) {
      assert c.takes(0, u) && c.takes(1, u);
    }
  }

  // ---- Recorded volumes ---------------------------------------------------------------------------------

  /** Claims with one dataset name on one node take turns, unless they adopt what they find. */
  ghost predicate TakeTurns(c: Config) {
    forall n: Node, u: Uid, v: Uid ::
      u != v && c.takes(n, u) && c.takes(n, v) && c.name(u) == c.name(v) && c.key(u) != c.key(v) ==> c.adopts(v)
  }

  /** What a worker may rely on where it is */
  predicate Trusts(c: Config, s: State, n: Node, pc: Pc) {
    match pc
    case Inside(ClaimJob(u), stage) =>
      (stage == Absent && !c.adopts(u) ==> c.name(u) !in Pool(s, n)) && (stage == Created ==> Holds(c, s, n, u))
    case _ => true
  }

  /** Every record has its dataset. */
  ghost predicate AllHeld(c: Config, s: State) {
    forall u :: u in s.pvs ==> Holds(c, s, s.pvs[u].node, u)
  }

  ghost predicate Kept(c: Config, s: State) {
    && Guarded(c, s) && TakenOnly(c, s) && AllHeld(c, s)
    && forall n: Node, w: nat :: NoDeletion(At(s, n, w)) && Trusts(c, s, n, At(s, n, w))
  }

  /** One worker moves on; pools and records are as they were. */
  lemma MoveKeepsHeld(c: Config, s: State, s': State, n: Node, w: nat)
    requires Kept(c, s) && Guarded(c, s') && TakenOnly(c, s') && OthersStay(s, s', n, w)
    requires s'.pools == s.pools && AllHeld(c, s') && NoDeletion(At(s', n, w)) && Trusts(c, s', n, At(s', n, w))
    ensures Kept(c, s')
  {
    forall m: Node, v: nat
      ensures NoDeletion(At(s', m, v)) && Trusts(c, s', m, At(s', m, v))
    {
      assert NoDeletion(At(s, m, v)) && Trusts(c, s, m, At(s, m, v));
    }
  }

  lemma CreateSparesTrust(c: Config, s: State, s': State, n: Node, w: nat, u: Uid, m: Node, v: nat)
    requires TakeTurns(c) && Kept(c, s) && At(s, n, w) == Inside(ClaimJob(u), Absent) && (m, v) != (n, w)
    requires ClaimStep(c, s, n, w, u, Absent, CreateDataset) == Some(s')
    ensures NoDeletion(At(s', m, v)) && Trusts(c, s', m, At(s', m, v))
  {
    var pc := At(s, m, v);
    assert At(s', m, v) == pc && NoDeletion(pc) && Trusts(c, s, m, pc);
    if m == n && pc.Inside? && pc.job.ClaimJob? && pc.stage == Absent && c.name(pc.job.uid) == c.name(u) {
      if c.key(pc.job.uid) == c.key(u) {
        assert Occupies(c, s, n, v, ClaimSection(c.key(u))) && Occupies(c, s, n, w, ClaimSection(c.key(u)));
        assert false;
      }
    }
  }

  lemma CreateKeepsHeld(c: Config, s: State, s': State, n: Node, w: nat, u: Uid)
    requires TakeTurns(c) && Kept(c, s) && Guarded(c, s') && TakenOnly(c, s')
    requires At(s, n, w) == Inside(ClaimJob(u), Absent) && ClaimStep(c, s, n, w, u, Absent, CreateDataset) == Some(s')
    ensures Kept(c, s')
  {
    assert Trusts(c, s, n, At(s, n, w));
    forall m: Node, v: nat
      ensures NoDeletion(At(s', m, v)) && Trusts(c, s', m, At(s', m, v))
    {
      if (m, v) != (n, w) {
        CreateSparesTrust(c, s, s', n, w, u, m, v);
      }
    }
  }

  lemma ClaimKeepsHeld(c: Config, s: State, s': State, n: Node, w: nat, u: Uid, stage: Stage, a: Action)
    requires TakeTurns(c) && (c.blind ==> AllAdopt(c)) && Kept(c, s) && Guarded(c, s') && TakenOnly(c, s')
    requires At(s, n, w) == Inside(ClaimJob(u), stage) && ClaimStep(c, s, n, w, u, stage, a) == Some(s')
    ensures Kept(c, s')
  {
    assert Trusts(c, s, n, At(s, n, w)) && c.takes(n, u);
    assert OthersStay(s, s', n, w);
    match (stage, a)
    case (Absent, _) => CreateKeepsHeld(c, s, s', n, w, u);
    case (Created, _) => RecordKeepsHeld(c, s, s', n, w, u);
    case _ => MoveKeepsHeld(c, s, s', n, w);
  }

  lemma RecordKeepsHeld(c: Config, s: State, s': State, n: Node, w: nat, u: Uid)
    requires Kept(c, s) && Guarded(c, s') && TakenOnly(c, s') && OthersStay(s, s', n, w)
    requires At(s, n, w) == Inside(ClaimJob(u), Created) && ClaimStep(c, s, n, w, u, Created, CreateRecord) == Some(s')
    ensures Kept(c, s')
  {
    assert Trusts(c, s, n, At(s, n, w));
    MoveKeepsHeld(c, s, s', n, w);
  }

  lemma StepKeepsHeld(c: Config, s: State, s': State, n: Node, w: nat, a: Action)
    requires TakeTurns(c) && (c.blind ==> AllAdopt(c)) && Kept(c, s) && Guarded(c, s') && TakenOnly(c, s')
    requires Do(c, s, n, w, a) == Some(s') && !(a.Take? && a.job.VolumeJob?)
    ensures Kept(c, s')
  {
    var pc := At(s, n, w);
    assert NoDeletion(pc);
    if pc.Inside? && pc.job.ClaimJob? && !a.Leave? {
      ClaimKeepsHeld(c, s, s', n, w, pc.job.uid, pc.stage, a);
    } else {
      OutsideKeepsHeld(c, s, s', n, w, a);
    }
  }

  /** Taking a key, entering a section and leaving it */
  lemma OutsideKeepsHeld(c: Config, s: State, s': State, n: Node, w: nat, a: Action)
    requires Kept(c, s) && Guarded(c, s') && TakenOnly(c, s')
    requires Do(c, s, n, w, a) == Some(s') && !(a.Take? && a.job.VolumeJob?) && (At(s, n, w).Inside? ==> a.Leave?)
    ensures Kept(c, s')
  {
    assert NoDeletion(At(s, n, w));
    JobStays(c, s, n, w, a);
    OutsideMovesOnly(c, s, n, w, a);
    MoveKeepsHeld(c, s, s', n, w);
  }

  lemma OutsideMovesOnly(c: Config, s: State, n: Node, w: nat, a: Action)
    requires Do(c, s, n, w, a).Some? && (At(s, n, w).Inside? ==> a.Leave?)
    ensures var s', pc := Do(c, s, n, w, a).value, At(Do(c, s, n, w, a).value, n, w);
            && s'.pools == s.pools && s'.pvs == s.pvs && (pc.Inside? ==> pc.stage == Entered)
            && (!pc.Idle? && At(s, n, w).Idle? ==> a == Take(pc.job))
  {
    match (At(s, n, w), a)
    case (Idle, Take(job)) => assert Do(c, s, n, w, a).value == Stepped(s, n, w, Waiting(job));
    case (Waiting(job), Enter) => assert Do(c, s, n, w, a).value == EnterSection(c, s, n, w, job);
    case (Inside(job, _), Leave) => assert Do(c, s, n, w, a).value == LeaveSection(c, s, n, w, job);
    case _ =>
  }

  lemma CrashKeepsHeld(c: Config, s: State, n: Node)
    requires Kept(c, s) && Guarded(c, Crashed(s, n)) && TakenOnly(c, Crashed(s, n))
    ensures Kept(c, Crashed(s, n))
  {
    var s' := Crashed(s, n);
    forall m: Node, v: nat
      ensures NoDeletion(At(s', m, v)) && Trusts(c, s', m, At(s', m, v))
    {
      assert At(s', m, v) == if m == n then Idle else At(s, m, v);
      assert NoDeletion(At(s, m, v)) && Trusts(c, s, m, At(s, m, v));
    }
  }

  lemma NextKeepsHeld(c: Config, s: State, e: Event)
    requires TakeTurns(c) && (c.blind ==> AllAdopt(c)) && Kept(c, s) && Next(c, s, e).Some? && WithoutDeletion([e])
    ensures Kept(c, Next(c, s, e).value)
  {
    var s' := Next(c, s, e).value;
    NextKeepsGuard(c, s, e);
    NextKeepsTaken(c, s, e);
    match e
    case Step(n, w, a) =>
      assert e in [e];
      StepKeepsHeld(c, s, s', n, w, a);
    case Crash(n) => CrashKeepsHeld(c, s, n);
    case Release(u) =>
      assert NoDeletion(At(s, 0, 0)) && Trusts(c, s, 0, At(s, 0, 0));
      MoveKeepsHeld(c, s, s', 0, 0);
  }

  lemma {:induction false} AlwaysKept(c: Config, s: State, es: seq<Event>)
    requires TakeTurns(c) && (c.blind ==> AllAdopt(c)) && Initial(s) && Run(c, s, es).Some? && WithoutDeletion(es)
    ensures Kept(c, Run(c, s, es).value)
  {
    if es != [] {
      assert es[|es| - 1] in es;
      AlwaysKept(c, s, es[..|es| - 1]);
      NextKeepsHeld(c, Run(c, s, es[..|es| - 1]).value, es[|es| - 1]);
    }
  }

  lemma BothSeeNone(c: Config, n: Node, u: Uid, v: Uid) returns (es: seq<Event>, t: State)
    requires u != v && c.takes(n, u) && c.takes(n, v) && c.key(u) != c.key(v)
    ensures Run(c, EMPTY, es) == Some(t) && WithoutDeletion(es) && Pool(t, n) == map[] && t.pvs == map[] && t.removed == {}
    ensures At(t, n, 0) == Inside(ClaimJob(u), Absent) && At(t, n, 1) == Inside(ClaimJob(v), Absent)
  {
    var e1, t1 := Prepare(c, EMPTY, [], EMPTY, n, 0, u);
    es, t := Prepare(c, EMPTY, e1, t1, n, 1, v);
  }

  /** Two claims of one dataset name see none at the same time; the second takes what the first has created. */
  lemma RaceLosesData(c: Config, n: Node, u: Uid, v: Uid) returns (es: seq<Event>)
    requires u != v && c.takes(n, u) && c.takes(n, v) && c.name(u) == c.name(v) && c.key(u) != c.key(v) && !c.adopts(v)
    ensures Run(c, EMPTY, es).Some? && WithoutDeletion(es) && !Safe(c, Run(c, EMPTY, es).value)
  {
    var e1, t1 := BothSeeNone(c, n, u, v);
    var e2, t2 := Create(c, EMPTY, e1, t1, n, 0, u);
    var e3, t3 := Create(c, EMPTY, e2, t2, n, 1, v);
    var e4, t4 := Record(c, EMPTY, e3, t3, n, 1, v);
    assert v in t4.pvs && t4.removed == {} && Pool(t4, n)[c.name(v)] == Of(u);
    es := e4;
  }

  /** No run without deletions records a volume without its data. */
  ghost predicate SafeUndeleted(c: Config) {
    forall s, es :: Initial(s) && Run(c, s, es).Some? && WithoutDeletion(es) ==> Safe(c, Run(c, s, es).value)
  }

  /**
   * Without deletions, listers that lag behind, failing reads and keys in two hands do no harm:
   * recorded volumes have their data exactly as long as datasets are seen, or adopted whatever
   * they hold, and claims that share a dataset name also share their key, or adopt.
   */
  lemma SafeUndeletedExactly(c: Config)
    ensures SafeUndeleted(c) <==> (c.blind ==> AllAdopt(c)) && TakeTurns(c)
  {
    if c.blind && !AllAdopt(c) {
      var n: Node, u: Uid :| c.takes(n, u) && !c.adopts(u);
      var es := BlindCreateTakesOver(c, n, u);
      assert Initial(Holding(n, map[c.name(u) := Foreign]));
    } else if !TakeTurns(c) {
      var n: Node, u: Uid, v: Uid :|
        u != v && c.takes(n, u) && c.takes(n, v) && c.name(u) == c.name(v) && c.key(u) != c.key(v) && !c.adopts(v);
      var es := RaceLosesData(c, n, u, v);
      assert Initial(EMPTY);
    } else {
      forall s, es | Initial(s) && Run(c, s, es).Some? && WithoutDeletion(es)
        ensures Safe(c, Run(c, s, es).value)
      {
        AlwaysKept(c, s, es);
      }
    }
  }
}
