/**
 * Runs of the protocol without deletions, in which listers may lag behind as they like: a claim
 * is given at most one backend on a node and at most one volume record
 * (pkg/controller/controller.go:417-441, 569-631; pkg/driver/zfs/zfs.go:90-146).
 */
module ProtocolOnce {
  import opened Wrappers
  import opened Protocol

  /** No volume is ever taken up for deletion. */
  predicate WithoutDeletion(es: seq<Event>) {
    forall e :: e in es ==> !(e.Step? && e.action.Take? && e.action.job.VolumeJob?)
  }

  /** A successful create command leaves its dataset behind, and nobody is about to give another. */
  ghost predicate CreatedOnce(c: Config, s: State) {
    && (forall n: Node, u: Uid :: s.creates[(n, u)] <= 1 && (s.creates[(n, u)] == 1 ==> c.name(u) in Pool(s, n)))
    && (forall n: Node, w: nat, u: Uid :: At(s, n, w) == Inside(ClaimJob(u), Absent) ==> s.creates[(n, u)] == 0)
  }

  predicate NoDeletion(pc: Pc) {
    !pc.Idle? ==> !pc.job.VolumeJob?
  }

  /** A record is made at most once, and belongs to the claim it is named after. */
  ghost predicate RecordedOnce(s: State) {
    && (forall u: Uid :: s.records[u] == if u in s.pvs then 1 else 0)
    && (forall u :: u in s.pvs ==> s.pvs[u].uid == u)
  }

  ghost predicate Once(c: Config, s: State) {
    && Guarded(c, s) && CreatedOnce(c, s) && RecordedOnce(s)
    && forall n: Node, w: nat :: NoDeletion(At(s, n, w))
  }

  /** One worker moves to another stage; the pools only gain datasets. */
  lemma StageKeepsOnce(c: Config, s: State, s': State, n: Node, w: nat)
    requires !c.blind && Once(c, s) && Guarded(c, s') && s'.workers == s.workers[(n, w) := At(s', n, w)]
    requires s'.creates == s.creates && s'.pools == s.pools && RecordedOnce(s') && NoDeletion(At(s', n, w))
    requires forall u :: At(s', n, w) == Inside(ClaimJob(u), Absent) ==> s.creates[(n, u)] == 0
    ensures Once(c, s')
  {
    assert forall m: Node, v: nat :: (m, v) != (n, w) ==> At(s', m, v) == At(s, m, v);
    forall m: Node, v: nat
      ensures NoDeletion(At(s', m, v))
    {
      assert NoDeletion(At(s, m, v));
    }
  }

  lemma CreateKeepsOnce(c: Config, s: State, s': State, n: Node, w: nat, u: Uid)
    requires !c.blind && Once(c, s) && Guarded(c, s') && At(s, n, w) == Inside(ClaimJob(u), Absent)
    requires ClaimStep(c, s, n, w, u, Absent, CreateDataset) == Some(s')
    ensures Once(c, s')
  {
    assert At(s', n, w) == Inside(ClaimJob(u), Created);
    assert forall m: Node, v: nat :: (m, v) != (n, w) ==> At(s', m, v) == At(s, m, v);
    forall m: Node, v: nat, x: Uid | At(s', m, v) == Inside(ClaimJob(x), Absent)
      ensures s'.creates[(m, x)] == 0
    {
      if (m, x) == (n, u) {
        assert Occupies(c, s, n, v, ClaimSection(c.key(u))) && Occupies(c, s, n, w, ClaimSection(c.key(u)));
        assert false;
      }
    }
    forall m: Node, v: nat
      ensures NoDeletion(At(s', m, v))
    {
      assert NoDeletion(At(s, m, v));
    }
  }

  lemma RecordKeepsOnce(c: Config, s: State, s': State, n: Node, w: nat, u: Uid)
    requires !c.blind && Once(c, s) && Guarded(c, s') && At(s, n, w) == Inside(ClaimJob(u), Created)
    requires ClaimStep(c, s, n, w, u, Created, CreateRecord) == Some(s')
    ensures Once(c, s')
  {
    StageKeepsOnce(c, s, s', n, w);
  }

  lemma ClaimKeepsOnce(c: Config, s: State, s': State, n: Node, w: nat, u: Uid, stage: Stage, a: Action)
    requires !c.blind && Once(c, s) && Guarded(c, s') && At(s, n, w) == Inside(ClaimJob(u), stage)
    requires ClaimStep(c, s, n, w, u, stage, a) == Some(s')
    ensures Once(c, s')
  {
    match (stage, a)
    case (Absent, CreateDataset) => CreateKeepsOnce(c, s, s', n, w, u);
    case (Created, CreateRecord) => RecordKeepsOnce(c, s, s', n, w, u);
    case _ => StageKeepsOnce(c, s, s', n, w);
  }

  lemma CrashKeepsOnce(c: Config, s: State, n: Node)
    requires Once(c, s)
    ensures Once(c, Crashed(s, n))
  {
    var s' := Crashed(s, n);
    CrashKeepsGuard(c, s, n);
    forall m: Node, v: nat
      ensures NoDeletion(At(s', m, v)) && At(s', m, v) == if m == n then Idle else At(s, m, v)
    {
      assert NoDeletion(At(s, m, v));
    }
  }

  lemma ReleaseKeepsOnce(c: Config, s: State, s': State, u: Uid)
    requires Once(c, s) && Next(c, s, Release(u)) == Some(s')
    ensures Once(c, s')
  {
    StageKeepsGuard(c, s, s', 0, 0);
    forall m: Node, v: nat
      ensures NoDeletion(At(s', m, v)) && At(s', m, v) == At(s, m, v)
    {
      assert NoDeletion(At(s, m, v));
    }
  }

  lemma TakeKeepsOnce(c: Config, s: State, s': State, n: Node, w: nat, job: Job)
    requires !c.blind && Once(c, s) && Guarded(c, s') && !job.VolumeJob? && s' == Stepped(s, n, w, Waiting(job))
    ensures Once(c, s')
  {
    StageKeepsOnce(c, s, s', n, w);
  }

  lemma EnterKeepsOnce(c: Config, s: State, s': State, n: Node, w: nat)
    requires !c.blind && Once(c, s) && Guarded(c, s') && At(s, n, w).Waiting? && s' == EnterSection(c, s, n, w, At(s, n, w).job)
    ensures Once(c, s')
  {
    assert NoDeletion(At(s, n, w));
    StageKeepsOnce(c, s, s', n, w);
  }

  lemma LeaveKeepsOnce(c: Config, s: State, s': State, n: Node, w: nat)
    requires !c.blind && Once(c, s) && Guarded(c, s') && At(s, n, w).Inside? && s' == LeaveSection(c, s, n, w, At(s, n, w).job)
    ensures Once(c, s')
  {
    StageKeepsOnce(c, s, s', n, w);
  }

  lemma StepKeepsOnce(c: Config, s: State, s': State, n: Node, w: nat, a: Action)
    requires !c.blind && Once(c, s) && Guarded(c, s') && Do(c, s, n, w, a) == Some(s')
    requires !(a.Take? && a.job.VolumeJob?)
    ensures Once(c, s')
  {
    assert NoDeletion(At(s, n, w));
    var pc := At(s, n, w);
    if a.Take? {
      TakeKeepsOnce(c, s, s', n, w, a.job);
    } else if a.Enter? {
      EnterKeepsOnce(c, s, s', n, w);
    } else if a.Leave? {
      LeaveKeepsOnce(c, s, s', n, w);
    } else {
      ClaimKeepsOnce(c, s, s', n, w, pc.job.uid, pc.stage, a);
    }
  }

  lemma NextKeepsOnce(c: Config, s: State, e: Event)
    requires !c.blind && Once(c, s) && Next(c, s, e).Some? && WithoutDeletion([e])
    ensures Once(c, Next(c, s, e).value)
  {
    var s' := Next(c, s, e).value;
    NextKeepsGuard(c, s, e);
    match e
    case Step(n, w, a) =>
      assert e in [e];
      StepKeepsOnce(c, s, s', n, w, a);
    case Crash(n) => CrashKeepsOnce(c, s, n);
    case Release(u) => ReleaseKeepsOnce(c, s, s', u);
  }

  /**
   * At most one backend and one record per claim: however the workers interleave, whatever the
   * listers answer and whichever nodes crash, a driver's create command succeeds at most once
   * per node and claim, and at most one record named after a claim is created, the claim's own.
   */
  lemma {:induction false} ProvisionedOnce(c: Config, s: State, es: seq<Event>)
    requires !c.blind && Initial(s) && Run(c, s, es).Some? && WithoutDeletion(es)
    ensures var t := Run(c, s, es).value;
            && Once(c, t)
            && (forall n: Node, u: Uid :: t.creates[(n, u)] <= 1)
            && (forall u: Uid :: t.records[u] <= 1)
            && (forall u :: u in t.pvs ==> t.pvs[u].uid == u)
  {
    if es != [] {
      assert es[|es| - 1] in es;
      ProvisionedOnce(c, s, es[..|es| - 1]);
      NextKeepsOnce(c, Run(c, s, es[..|es| - 1]).value, es[|es| - 1]);
    }
  }
}
