/**
 * Many workers on many nodes against one API server: the claim, delete and state sections of
 * pkg/controller/controller.go:256-355, 417-636, 687-741, 807-821 as small steps, with crashes,
 * failures and early returns between any two of them.
 */
module Protocol {
  import opened Wrappers
  import opened Subtrees

  // ---- The system ----------------------------------------------------------------------------

  type Node = nat
  type Uid = nat

  /** What a dataset holds: the data of the claim it was created for, or something else. */
  datatype Data = Foreign | Of(uid: Uid)

  /**
   * A volume record. It is named after the claim's UID, so there is one name per UID; `inc` tells
   * records apart that had the same name.
   */
  datatype Pv = Pv(uid: Uid, node: Node, inc: nat, released: bool)

  /** What the controllers are run with */
  datatype Config = Config(
    /** The dataset name of a claim; its record carries it (PvBuilder.RecordTies). */
    name: Uid -> string,
    /** "namespace/name" of a claim: a claim deleted and made anew has another UID but the same key. */
    key: Uid -> string,
    /** The sibling name a volume is preserved under, by the time of the rename */
    quarantine: (Uid, nat) -> string,
    /** The node takes up the claim (Claims.IsNodeTargeted). */
    takes: (Node, Uid) -> bool,
    /** The claim adopts a dataset that is there already. */
    adopts: Uid -> bool,
    /** Claims and records are read from the API server rather than from listers that may lag behind. */
    live: bool,
    /** A claim pass's read of its record can fail, and is then taken for there being none. */
    failing: bool,
    /** A driver's Exists can take a dataset that is there for absent: every failure of `zfs list` says so. */
    blind: bool,
    /** The work queue never hands one key to two workers of a node at the same time. */
    exclusive: bool,
    /** Some record asks for its volume to be preserved. */
    preserving: bool)

  /** What a worker took from the queue, as it read it */
  datatype Job = ClaimJob(uid: Uid) | VolumeJob(pv: Pv) | StateJob(uid: Uid)

  /** A key of inProgress */
  datatype Section = ClaimSection(key: string) | DeleteSection(uid: Uid) | StateSection(key: string)

  /** A key of the work queue */
  datatype Item = PvcItem(key: string) | PvItem(uid: Uid)

  /** How far a worker has come inside its section */
  datatype Stage =
    | Entered
    | Unrecorded    // claim: no record was found
    | Absent        // claim: the dataset does not exist
    | Created       // claim: the driver has created it, or adopted it
    | Found         // delete: the dataset exists
    | Gone          // delete: the dataset does not exist any more
    | Finished

  datatype Pc = Idle | Waiting(job: Job) | Inside(job: Job, stage: Stage)

  datatype State = State(
    pvs: map<Uid, Pv>,
    pools: map<Node, map<string, Data>>,
    workers: map<(Node, nat), Pc>,
    held: set<(Node, Section)>,
    /** Every record there ever was, for listers that lag behind */
    history: set<Pv>,
    /** The records whose backend their node's delete pass has taken away, by incarnation */
    removed: set<nat>,
    nextInc: nat,
    /** How often a driver's create command has succeeded, and a record has been created */
    creates: multiset<(Node, Uid)>,
    records: multiset<Uid>)

  function At(s: State, n: Node, w: nat): Pc {
    if (n, w) in s.workers then s.workers[(n, w)] else Idle
  }

  function Pool(s: State, n: Node): map<string, Data> {
    if n in s.pools then s.pools[n] else map[]
  }

  function SectionOf(c: Config, job: Job): Section {
    match job
    case ClaimJob(u) => ClaimSection(c.key(u))
    case VolumeJob(pv) => DeleteSection(pv.uid)
    case StateJob(u) => StateSection(c.key(u))
  }

  function ItemOf(c: Config, job: Job): Item {
    match job
    case ClaimJob(u) => PvcItem(c.key(u))
    case VolumeJob(pv) => PvItem(pv.uid)
    case StateJob(u) => PvcItem(c.key(u))
  }

  // ---- Steps -----------------------------------------------------------------------------------

  datatype Action =
    | Take(job: Job)              // a key comes out of the queue, and its object is read
    | Enter                       // lock, test and set inProgress, unlock; or give up
    | ReadRecord(found: bool)     // claim: getPV
    | CheckExists(seen: bool)     // claim and delete: the driver's Exists
    | CreateDataset               // claim: zfs create -p
    | CreateRecord                // claim: the API create
    | Destroy                     // delete: zfs destroy -r
    | DestroyPart(lost: set<string>)  // the same, failing after part of the subtree is gone
    | Preserve(at: nat)           // delete: zfs rename to the quarantine name
    | DeleteRecord                // delete: the API delete
    | Leave                       // return, on whatever path, and delete the key from inProgress

  /** A step of one worker, a crash of a node, or the API releasing a volume whose claim is gone */
  datatype Event = Step(node: Node, worker: nat, action: Action) | Crash(node: Node) | Release(uid: Uid)

  function Stepped(s: State, n: Node, w: nat, pc: Pc): State {
    s.(workers := s.workers[(n, w) := pc])
  }

  function WithPool(s: State, n: Node, pool: map<string, Data>): State {
    s.(pools := s.pools[n := pool])
  }

  /** What a claim pass may read: the record when there is one, unless its read lags behind or fails. */
  predicate MayRead(c: Config, s: State, u: Uid, found: bool) {
    found == (u in s.pvs) || !c.live || (c.failing && !found)
  }

  /** What the driver's Exists may say of a dataset */
  predicate MaySee(c: Config, pool: map<string, Data>, name: string, seen: bool) {
    seen == (name in pool) || (c.blind && !seen)
  }

  /** The volume of the claim was released once: the claim is gone, and its UID never comes back. */
  ghost predicate ClaimGone(s: State, u: Uid) {
    exists pv :: pv in s.history && pv.uid == u && pv.released
  }

  /** processPVC and processPV: the guards on what was read */
  ghost predicate MayTake(c: Config, s: State, n: Node, w: nat, job: Job) {
    && At(s, n, w).Idle?
    && (c.exclusive ==> forall v :: !At(s, n, v).Idle? ==> ItemOf(c, At(s, n, v).job) != ItemOf(c, job))
    && (job.ClaimJob? ==> c.takes(n, job.uid))
    && (!job.VolumeJob? && c.live ==> !ClaimGone(s, job.uid))
    && (job.VolumeJob? ==>
          && job.pv.released && job.pv.node == n
          && if c.live then job.pv.uid in s.pvs && s.pvs[job.pv.uid] == job.pv else job.pv in s.history)
  }

  function EnterSection(c: Config, s: State, n: Node, w: nat, job: Job): State {
    var section := (n, SectionOf(c, job));
    if section in s.held then Stepped(s, n, w, Idle)
    else Stepped(s, n, w, Inside(job, Entered)).(held := s.held + {section})
  }

  function LeaveSection(c: Config, s: State, n: Node, w: nat, job: Job): State {
    Stepped(s, n, w, Idle).(held := s.held - {(n, SectionOf(c, job))})
  }

  /** A step inside the claim section of u */
  function ClaimStep(c: Config, s: State, n: Node, w: nat, u: Uid, stage: Stage, a: Action): Option<State> {
    var job, pool, name := ClaimJob(u), Pool(s, n), c.name(u);
    match (stage, a)
    case (Entered, ReadRecord(found)) =>
      if !MayRead(c, s, u, found) then None
      else Some(Stepped(s, n, w, Inside(job, if found then Finished else Unrecorded)))
    case (Unrecorded, CheckExists(seen)) =>
      if !MaySee(c, pool, name, seen) then None
      else Some(Stepped(s, n, w, Inside(job, if !seen then Absent else if c.adopts(u) then Created else Finished)))
    case (Absent, CreateDataset) =>
      var made := if name in pool then pool else pool[name := Of(u)];
      Some(Stepped(WithPool(s, n, made), n, w, Inside(job, Created)).(creates := s.creates + multiset{(n, u)}))
    case (Created, CreateRecord) =>
      if u in s.pvs then Some(Stepped(s, n, w, Inside(job, Finished)))
      else
        var pv := Pv(u, n, s.nextInc, false);
        Some(Stepped(s, n, w, Inside(job, Finished)).(
             pvs := s.pvs[u := pv], history := s.history + {pv}, nextInc := s.nextInc + 1, records := s.records + multiset{u}))
    case _ => None
  }

  /** A step inside the delete section of a volume */
  function VolumeStep(c: Config, s: State, n: Node, w: nat, pv: Pv, stage: Stage, a: Action): Option<State> {
    var job, pool, name := VolumeJob(pv), Pool(s, n), c.name(pv.uid);
    match (stage, a)
    case (Entered, CheckExists(seen)) =>
      if !MaySee(c, pool, name, seen) then None
      else Some(Stepped(s, n, w, Inside(job, if seen then Found else Gone)))
    case (Found, Destroy) =>
      if name !in pool then None
      else Some(Stepped(WithPool(s, n, Without(pool, name)), n, w, Inside(job, Gone)).(removed := s.removed + {pv.inc}))
    case (Found, DestroyPart(lost)) =>
      var left := map k | k in pool && !(AtOrBelow(name, k) && k != name && k in lost) :: pool[k];
      Some(Stepped(WithPool(s, n, left), n, w, Inside(job, Finished)))
    case (Found, Preserve(at)) =>
      var to := c.quarantine(pv.uid, at);
      if !c.preserving || !FreeFor(pool, name, to) then None
      else Some(Stepped(WithPool(s, n, Renamed(pool, name, to)), n, w, Inside(job, Gone)).(removed := s.removed + {pv.inc}))
    case (Gone, DeleteRecord) =>
      Some(Stepped(s, n, w, Inside(job, Finished)).(pvs := s.pvs - {pv.uid}))
    case _ => None
  }

  /** One step of worker w on node n, if it can take it */
  ghost function Do(c: Config, s: State, n: Node, w: nat, a: Action): Option<State> {
    match (At(s, n, w), a)
    case (Idle, Take(job)) => if MayTake(c, s, n, w, job) then Some(Stepped(s, n, w, Waiting(job))) else None
    case (Waiting(job), Enter) => Some(EnterSection(c, s, n, w, job))
    case (Inside(job, _), Leave) => Some(LeaveSection(c, s, n, w, job))
    case (Inside(ClaimJob(u), stage), _) => ClaimStep(c, s, n, w, u, stage, a)
    case (Inside(VolumeJob(pv), stage), _) => VolumeStep(c, s, n, w, pv, stage, a)
    case _ => None
  }

  /** The process on a node dies: its workers and its inProgress map are gone. */
  function Crashed(s: State, n: Node): State {
    s.(workers := map k | k in s.workers && k.0 != n :: s.workers[k], held := set h | h in s.held && h.0 != n)
  }

  ghost function Next(c: Config, s: State, e: Event): Option<State> {
    match e
    case Step(n, w, a) => Do(c, s, n, w, a)
    case Crash(n) => Some(Crashed(s, n))
    case Release(u) =>
      if u !in s.pvs then None
      else
        var pv := s.pvs[u].(released := true);
        Some(s.(pvs := s.pvs[u := pv], history := s.history + {pv}))
  }

  /** No records, no workers, nothing in progress; the pools may hold anything. */
  predicate Initial(s: State) {
    && s.pvs == map[] && s.workers == map[] && s.held == {} && s.history == {}
    && s.removed == {} && s.nextInc == 0 && s.creates == multiset{} && s.records == multiset{}
  }

  /** The state after a run, if each of its events can happen */
  ghost function Run(c: Config, s: State, es: seq<Event>): Option<State> {
    if es == [] then Some(s)
    else
      match Run(c, s, es[..|es| - 1])
      case None => None
      case Some(before) => Next(c, before, es[|es| - 1])
  }

  // ---- Guarded sections --------------------------------------------------------------------------

  predicate Occupies(c: Config, s: State, n: Node, w: nat, section: Section) {
    At(s, n, w).Inside? && SectionOf(c, At(s, n, w).job) == section
  }

  /** A key is in inProgress exactly while a worker is inside, and then there is just one. */
  ghost predicate Guarded(c: Config, s: State) {
    && (forall n: Node, w: nat, section :: Occupies(c, s, n, w, section) ==> (n, section) in s.held)
    && (forall n: Node, section :: (n, section) in s.held ==> exists w: nat :: Occupies(c, s, n, w, section))
    && (forall n: Node, section, v: nat, w: nat :: Occupies(c, s, n, v, section) && Occupies(c, s, n, w, section) ==> v == w)
  }

  /** Workers other than w of node n, and their share of inProgress, are as they were. */
  ghost predicate OthersKeep(s: State, s': State, n: Node, w: nat) {
    forall m: Node, v: nat :: (m, v) != (n, w) ==> At(s', m, v) == At(s, m, v)
  }

  /** A step inside a section stays inside it, and concerns nobody else. */
  ghost predicate StaysInside(s: State, s': State, n: Node, w: nat, job: Job) {
    && s'.held == s.held && At(s', n, w).Inside? && At(s', n, w).job == job
    && s'.workers == s.workers[(n, w) := At(s', n, w)]
  }

  lemma ClaimStaysInside(c: Config, s: State, n: Node, w: nat, u: Uid, stage: Stage, a: Action)
    ensures match ClaimStep(c, s, n, w, u, stage, a)
            case Some(s') => StaysInside(s, s', n, w, ClaimJob(u))
            case None => true
  {
  }

  lemma VolumeStaysInside(c: Config, s: State, n: Node, w: nat, pv: Pv, stage: Stage, a: Action)
    ensures match VolumeStep(c, s, n, w, pv, stage, a)
            case Some(s') => StaysInside(s, s', n, w, VolumeJob(pv))
            case None => true
  {
  }

  lemma StageKeepsGuard(c: Config, s: State, s': State, n: Node, w: nat)
    requires Guarded(c, s) && OthersKeep(s, s', n, w) && s'.held == s.held
    requires forall section :: Occupies(c, s', n, w, section) <==> Occupies(c, s, n, w, section)
    ensures Guarded(c, s')
  {
    forall m: Node, v: nat, section
      ensures Occupies(c, s', m, v, section) <==> Occupies(c, s, m, v, section)
    {
    }
    forall m: Node, section | (m, section) in s'.held
      ensures exists v: nat :: Occupies(c, s', m, v, section)
    {
      var v: nat :| Occupies(c, s, m, v, section);
      assert Occupies(c, s', m, v, section);
    }
  }

  lemma EnterKeepsGuard(c: Config, s: State, n: Node, w: nat, job: Job)
    requires Guarded(c, s) && At(s, n, w) == Waiting(job)
    ensures Guarded(c, EnterSection(c, s, n, w, job))
  {
    var s', mine := EnterSection(c, s, n, w, job), SectionOf(c, job);
    if (n, mine) in s.held {
      StageKeepsGuard(c, s, s', n, w);
    } else {
      assert Occupies(c, s', n, w, mine);
      forall m: Node, section | (m, section) in s'.held
        ensures exists v: nat :: Occupies(c, s', m, v, section)
      {
        if (m, section) != (n, mine) {
          var v: nat :| Occupies(c, s, m, v, section);
          assert Occupies(c, s', m, v, section);
        }
      }
      assert forall m: Node, v: nat, section ::
          Occupies(c, s', m, v, section) ==> Occupies(c, s, m, v, section) || (m, v, section) == (n, w, mine);
    }
  }

  lemma LeaveKeepsGuard(c: Config, s: State, n: Node, w: nat)
    requires Guarded(c, s) && At(s, n, w).Inside?
    ensures Guarded(c, LeaveSection(c, s, n, w, At(s, n, w).job))
  {
    var s', mine := LeaveSection(c, s, n, w, At(s, n, w).job), SectionOf(c, At(s, n, w).job);
    assert Occupies(c, s, n, w, mine);
    forall m: Node, section | (m, section) in s'.held
      ensures exists v: nat :: Occupies(c, s', m, v, section)
    {
      var v: nat :| Occupies(c, s, m, v, section);
      assert Occupies(c, s', m, v, section);
    }
    assert forall m: Node, v: nat, section ::
        Occupies(c, s', m, v, section) ==> Occupies(c, s, m, v, section) && (m, v) != (n, w);
  }

  lemma CrashKeepsGuard(c: Config, s: State, n: Node)
    requires Guarded(c, s)
    ensures Guarded(c, Crashed(s, n))
  {
    var s' := Crashed(s, n);
    assert forall m: Node, v: nat :: At(s', m, v) == if m == n then Idle else At(s, m, v);
    forall m: Node, section | (m, section) in s'.held
      ensures exists v: nat :: Occupies(c, s', m, v, section)
    {
      var v: nat :| Occupies(c, s, m, v, section);
      assert Occupies(c, s', m, v, section);
    }
    assert forall m: Node, v: nat, section :: Occupies(c, s', m, v, section) ==> Occupies(c, s, m, v, section);
  }

  lemma InsideKeepsGuard(c: Config, s: State, s': State, n: Node, w: nat)
    requires Guarded(c, s) && At(s, n, w).Inside? && StaysInside(s, s', n, w, At(s, n, w).job)
    ensures Guarded(c, s')
  {
    StageKeepsGuard(c, s, s', n, w);
  }

  lemma NextKeepsGuard(c: Config, s: State, e: Event)
    requires Guarded(c, s) && Next(c, s, e).Some?
    ensures Guarded(c, Next(c, s, e).value)
  {
    var s' := Next(c, s, e).value;
    match e
    case Step(n, w, a) =>
      match (At(s, n, w), a) {
        case (Waiting(job), Enter) => EnterKeepsGuard(c, s, n, w, job);
        case (Inside(job, _), Leave) => LeaveKeepsGuard(c, s, n, w);
        case (Inside(ClaimJob(u), stage), _) =>
          ClaimStaysInside(c, s, n, w, u, stage, a);
          InsideKeepsGuard(c, s, s', n, w);
        case (Inside(VolumeJob(pv), stage), _) =>
          VolumeStaysInside(c, s, n, w, pv, stage, a);
          InsideKeepsGuard(c, s, s', n, w);
        case _ => StageKeepsGuard(c, s, s', n, w);
      }
    case Crash(n) => CrashKeepsGuard(c, s, n);
    case Release(u) => StageKeepsGuard(c, s, s', 0, 0);
  }

  /**
   * Guarded sections: whatever the workers do, wherever they fail and whichever nodes crash, a key
   * is in a node's inProgress map exactly while one worker of that node is in its section, and
   * never more than one is.
   */
  lemma {:induction false} SectionsGuarded(c: Config, s: State, es: seq<Event>)
    requires Initial(s) && Run(c, s, es).Some?
    ensures Guarded(c, Run(c, s, es).value)
  {
    if es != [] {
      SectionsGuarded(c, s, es[..|es| - 1]);
      NextKeepsGuard(c, Run(c, s, es[..|es| - 1]).value, es[|es| - 1]);
    }
  }
}
