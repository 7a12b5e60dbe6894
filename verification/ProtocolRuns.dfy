/**
 * Runs of the protocol that lose data, and with them the exact conditions under which no run does
 * (pkg/controller/controller.go:336-355, 417-636, 687-741; pkg/driver/zfs/zfs.go:76-83, 90-114, 406-417).
 */
module ProtocolRuns {
  import opened Wrappers
  import opened Subtrees
  import opened Protocol
  import opened ProtocolOnce
  import opened ProtocolScenes
  import opened ProtocolSafety

  /** The record of u as it is first made, and after its claim is gone */
  function FirstPv(n: Node, u: Uid): Pv {
    Pv(u, n, 0, true)
  }

  /** Worker 0 provisions u first of all. */
  lemma Begin(c: Config, n: Node, pool: map<string, Data>, u: Uid) returns (es: seq<Event>, t: State)
    requires c.takes(n, u) && c.name(u) !in pool
    ensures Run(c, Holding(n, pool), es) == Some(t)
    ensures t == WithPool(Recorded(Holding(n, pool), n, 0, u, Idle, {}), n, pool[c.name(u) := Of(u)])
                 .(creates := multiset{(n, u)})
  {
    es, t := Provision(c, Holding(n, pool), [], Holding(n, pool), n, 0, u);
  }

  // ---- Names in one another's way ------------------------------------------------------------------------

  /** Nobody is at work. */
  ghost predicate Quiet(t: State) {
    t.held == {} && forall n: Node, w: nat :: At(t, n, w).Idle?
  }

  /** The dataset of u has been destroyed after its claim went; the record lingers. */
  lemma DestroyFirst(c: Config, n: Node, u: Uid) returns (es: seq<Event>, t: State)
    requires c.takes(n, u)
    ensures Run(c, Holding(n, map[]), es) == Some(t) && Quiet(t)
    ensures t.pvs == map[u := FirstPv(n, u)] && FirstPv(n, u) in t.history && t.nextInc == 1
    ensures t.removed == {0} && Pool(t, n) == map[] && forall pv :: pv in t.history ==> pv.uid == u
  {
    var s := Holding(n, map[]);
    var e1, t1 := Begin(c, n, map[], u);
    var e2, t2 := Free(c, s, e1, t1, u);
    MayTakeVolume(c, t2, n, 0, FirstPv(n, u));
    es, t := DestroyOnly(c, s, e2, t2, n, 0, FirstPv(n, u));
  }

  /** A name used again while the old record lingers: the next attempt at the old deletion takes the new data. */
  lemma ReusedNameLosesData(c: Config, n: Node, u: Uid, v: Uid) returns (es: seq<Event>)
    requires u != v && c.takes(n, u) && c.takes(n, v) && c.name(u) == c.name(v)
    ensures Run(c, Holding(n, map[]), es).Some? && !Safe(c, Run(c, Holding(n, map[]), es).value)
  {
    var s := Holding(n, map[]);
    var e1, t1 := DestroyFirst(c, n, u);
    var e2, t2 := Provision(c, s, e1, t1, n, 0, v);
    MayTakeVolume(c, t2, n, 0, FirstPv(n, u));
    var e3, t3 := DestroyOnly(c, s, e2, t2, n, 0, FirstPv(n, u));
    assert v in t3.pvs && t3.pvs[v].inc == 1 && t3.removed == {0};
    es := e3;
  }

  lemma ProvisionBoth(c: Config, n: Node, u: Uid, v: Uid) returns (es: seq<Event>, t: State)
    requires u != v && c.takes(n, u) && c.takes(n, v) && c.name(u) != c.name(v)
    ensures Run(c, Holding(n, map[]), es) == Some(t) && Quiet(t)
    ensures t.pvs == map[u := Pv(u, n, 0, false), v := Pv(v, n, 1, false)] && t.removed == {}
    ensures Pool(t, n) == map[c.name(u) := Of(u), c.name(v) := Of(v)]
  {
    var s := Holding(n, map[]);
    var e1, t1 := Begin(c, n, map[], u);
    es, t := Provision(c, s, e1, t1, n, 0, v);
  }

  /** The volume of v goes with the dataset of u, in which it lies. */
  lemma DestroyOuter(c: Config, n: Node, u: Uid, v: Uid) returns (es: seq<Event>, t: State)
    requires c.takes(n, u) && c.takes(n, v) && c.name(u) != c.name(v) && AtOrBelow(c.name(u), c.name(v))
    ensures Run(c, Holding(n, map[]), es) == Some(t) && Quiet(t)
    ensures t.pvs == map[u := FirstPv(n, u), v := Pv(v, n, 1, false)] && t.removed == {0} && Pool(t, n) == map[]
  {
    var s := Holding(n, map[]);
    var e1, t1 := ProvisionBoth(c, n, u, v);
    var e2, t2 := Free(c, s, e1, t1, u);
    MayTakeVolume(c, t2, n, 0, FirstPv(n, u));
    es, t := DestroyOnly(c, s, e2, t2, n, 0, FirstPv(n, u));
  }

  /** The volume of one claim inside the dataset of another */
  lemma NestedNamesLoseData(c: Config, n: Node, u: Uid, v: Uid) returns (es: seq<Event>)
    requires c.takes(n, u) && c.takes(n, v) && c.name(u) != c.name(v) && AtOrBelow(c.name(u), c.name(v))
    ensures Run(c, Holding(n, map[]), es).Some? && !Safe(c, Run(c, Holding(n, map[]), es).value)
  {
    var e1, t1 := DestroyOuter(c, n, u, v);
    assert v in t1.pvs && t1.pvs[v].inc == 1;
    es := e1;
  }

  /** Either way deleting one claim's volume takes the other's. */
  lemma SharedNamesLoseData(c: Config, n: Node, u: Uid, v: Uid) returns (es: seq<Event>)
    requires u != v && c.takes(n, u) && c.takes(n, v) && AtOrBelow(c.name(u), c.name(v))
    ensures Run(c, Holding(n, map[]), es).Some? && !Safe(c, Run(c, Holding(n, map[]), es).value)
  {
    if c.name(u) == c.name(v) {
      es := ReusedNameLosesData(c, n, u, v);
    } else {
      es := NestedNamesLoseData(c, n, u, v);
    }
  }

  // ---- A record that is missed ---------------------------------------------------------------------------

  /** Worker 0 has provisioned u, and worker w has taken the claim up once more. */
  lemma TakeAgain(c: Config, n: Node, u: Uid, w: nat) returns (es: seq<Event>, t: State)
    requires c.takes(n, u) && w != 0
    ensures Run(c, Holding(n, map[]), es) == Some(t)
    ensures At(t, n, w) == Waiting(ClaimJob(u)) && forall v: nat :: v != w ==> At(t, n, v).Idle?
    ensures t.held == {} && t.pvs == map[u := Pv(u, n, 0, false)] && t.nextInc == 1 && t.removed == {}
    ensures Pool(t, n) == map[c.name(u) := Of(u)]
  {
    var e1, t1 := Begin(c, n, map[], u);
    es, t := Extend(c, Holding(n, map[]), e1, t1, Step(n, w, Take(ClaimJob(u))));
  }

  /**
   * Worker 1 has taken up a claim whose record is there, and has not found it, because the read
   * failed or lags behind. Then the claim goes.
   */
  lemma MissBeforeRelease(c: Config, n: Node, u: Uid) returns (es: seq<Event>, t: State)
    requires c.takes(n, u) && (!c.live || c.failing)
    ensures Run(c, Holding(n, map[]), es) == Some(t)
    ensures At(t, n, 1) == Inside(ClaimJob(u), Unrecorded) && forall w: nat :: w != 1 ==> At(t, n, w).Idle?
    ensures t.held == {Claiming(c, n, u)} && t.pvs == map[u := FirstPv(n, u)] && FirstPv(n, u) in t.history
    ensures t.nextInc == 1 && t.removed == {} && Pool(t, n) == map[c.name(u) := Of(u)]
  {
    var s := Holding(n, map[]);
    var e1, t1 := TakeAgain(c, n, u, 1);
    var e2, t2 := Miss(c, s, e1, t1, n, 1, u);
    es, t := Free(c, s, e2, t2, u);
  }

  /** Worker 1 makes the dataset anew, worker 0 being where it is. */
  lemma MakeAnew(c: Config, s: State, es: seq<Event>, t: State, n: Node, u: Uid) returns (es': seq<Event>, t': State)
    requires Run(c, s, es) == Some(t) && At(t, n, 1) == Inside(ClaimJob(u), Unrecorded) && c.name(u) !in Pool(t, n)
    ensures Run(c, s, es') == Some(t')
    ensures t' == WithPool(Put(t, n, 1, Inside(ClaimJob(u), Created), t.held), n, Pool(t, n)[c.name(u) := Of(u)])
                  .(creates := t.creates + multiset{(n, u)})
    ensures OthersStay(t, t', n, 1)
  {
    var e1, t1 := SeeAbsent(c, s, es, t, n, 1, u);
    es', t' := Create(c, s, e1, t1, n, 1, u);
    assert t'.workers == t.workers[(n, 1) := At(t', n, 1)];
  }

  /** Worker 0 destroys the dataset, and fails. */
  lemma DestroyBeside(c: Config, n: Node, u: Uid) returns (es: seq<Event>, t: State)
    requires c.takes(n, u) && (!c.live || c.failing)
    ensures Run(c, Holding(n, map[]), es) == Some(t)
    ensures At(t, n, 1) == Inside(ClaimJob(u), Unrecorded) && forall w: nat :: w != 1 ==> At(t, n, w).Idle?
    ensures t.held == {Claiming(c, n, u)} && t.pvs == map[u := FirstPv(n, u)] && FirstPv(n, u) in t.history
    ensures t.nextInc == 1 && t.removed == {0} && Pool(t, n) == map[]
  {
    var e1, t1 := MissBeforeRelease(c, n, u);
    MayTakeVolume(c, t1, n, 0, FirstPv(n, u));
    es, t := DestroyOnly(c, Holding(n, map[]), e1, t1, n, 0, FirstPv(n, u));
  }

  /** Worker 1 makes it anew. */
  lemma DestroyAndMakeAnew(c: Config, n: Node, u: Uid) returns (es: seq<Event>, t: State)
    requires c.takes(n, u) && (!c.live || c.failing)
    ensures Run(c, Holding(n, map[]), es) == Some(t)
    ensures At(t, n, 1) == Inside(ClaimJob(u), Created) && forall w: nat :: w != 1 ==> At(t, n, w).Idle?
    ensures t.held == {Claiming(c, n, u)} && t.pvs == map[u := FirstPv(n, u)] && FirstPv(n, u) in t.history
    ensures t.nextInc == 1 && t.removed == {0} && Pool(t, n) == map[c.name(u) := Of(u)]
  {
    var e1, t1 := DestroyBeside(c, n, u);
    es, t := MakeAnew(c, Holding(n, map[]), e1, t1, n, u);
  }

  /** The next attempt destroys it again. */
  lemma DestroyTwice(c: Config, n: Node, u: Uid) returns (es: seq<Event>, t: State)
    requires c.takes(n, u) && (!c.live || c.failing)
    ensures Run(c, Holding(n, map[]), es) == Some(t)
    ensures At(t, n, 0) == Inside(VolumeJob(FirstPv(n, u)), Gone) && At(t, n, 1) == Inside(ClaimJob(u), Created)
    ensures t.nextInc == 1 && t.removed == {0} && c.name(u) !in Pool(t, n)
  {
    var e1, t1 := DestroyAndMakeAnew(c, n, u);
    MayTakeVolume(c, t1, n, 0, FirstPv(n, u));
    es, t := TakeAndDemolish(c, Holding(n, map[]), e1, t1, n, 0, FirstPv(n, u));
  }

  /**
   * A claim pass that misses its record: it makes the dataset anew while the old record is being
   * deleted, that deletion takes it away, and a new record is left with nothing behind it.
   */
  lemma MissedRecordLosesData(c: Config, n: Node, u: Uid) returns (es: seq<Event>)
    requires c.takes(n, u) && (!c.live || c.failing)
    ensures Run(c, Holding(n, map[]), es).Some? && !Safe(c, Run(c, Holding(n, map[]), es).value)
  {
    var s := Holding(n, map[]);
    var e1, t1 := DestroyTwice(c, n, u);
    var e2, t2 := Extend(c, s, e1, t1, Step(n, 0, DeleteRecord));
    var e3, t3 := Record(c, s, e2, t2, n, 1, u);
    assert u in t3.pvs && t3.pvs[u].inc == 1 && t3.removed == {0} && c.name(u) !in Pool(t3, n);
    es := e3;
  }

  // ---- One key in two hands --------------------------------------------------------------------------------

  /** Without exclusion a worker at rest can take up the volume, whoever has it already. */
  lemma TakeShared(c: Config, s: State, es: seq<Event>, t: State, n: Node, w: nat, pv: Pv) returns (es': seq<Event>, t': State)
    requires !c.exclusive && Run(c, s, es) == Some(t) && At(t, n, w).Idle?
    requires pv.uid in t.pvs && t.pvs[pv.uid] == pv && pv in t.history && pv.released && pv.node == n
    ensures Run(c, s, es') == Some(t') && t' == Put(t, n, w, Waiting(VolumeJob(pv)), t.held)
    ensures OthersStay(t, t', n, w)
  {
    es', t' := Extend(c, s, es, t, Step(n, w, Take(VolumeJob(pv))));
  }

  /** Worker 2 has taken up the claim while it is there, and then workers 0 and 1 both the volume. */
  lemma ThreeHands(c: Config, n: Node, u: Uid) returns (es: seq<Event>, t: State)
    requires c.takes(n, u) && !c.exclusive
    ensures Run(c, Holding(n, map[]), es) == Some(t)
    ensures At(t, n, 0) == At(t, n, 1) == Waiting(VolumeJob(FirstPv(n, u))) && At(t, n, 2) == Waiting(ClaimJob(u))
    ensures t.held == {} && t.pvs == map[u := FirstPv(n, u)] && t.nextInc == 1 && t.removed == {}
    ensures Pool(t, n) == map[c.name(u) := Of(u)]
  {
    var s, pv := Holding(n, map[]), FirstPv(n, u);
    var e1, t1 := TakeAgain(c, n, u, 2);
    var e2, t2 := Free(c, s, e1, t1, u);
    var e3, t3 := TakeShared(c, s, e2, t2, n, 1, pv);
    es, t := TakeShared(c, s, e3, t3, n, 0, pv);
  }

  /** Worker 0 goes through with the deletion. */
  lemma FirstHand(c: Config, n: Node, u: Uid) returns (es: seq<Event>, t: State)
    requires c.takes(n, u) && !c.exclusive
    ensures Run(c, Holding(n, map[]), es) == Some(t)
    ensures At(t, n, 1) == Waiting(VolumeJob(FirstPv(n, u))) && At(t, n, 2) == Waiting(ClaimJob(u))
    ensures t.held == {} && t.pvs == map[] && t.nextInc == 1 && t.removed == {0} && Pool(t, n) == map[]
  {
    var s, pv := Holding(n, map[]), FirstPv(n, u);
    var e1, t1 := ThreeHands(c, n, u);
    var e2, t2 := Demolish(c, s, e1, t1, n, 0, pv);
    var e3, t3 := Extend(c, s, e2, t2, Step(n, 0, DeleteRecord));
    es, t := LeaveVolume(c, s, e3, t3, n, 0, pv);
  }

  /** Worker 2 finds no record, as there is none, and provisions the claim again. */
  lemma SecondHand(c: Config, n: Node, u: Uid) returns (es: seq<Event>, t: State)
    requires c.takes(n, u) && !c.exclusive
    ensures Run(c, Holding(n, map[]), es) == Some(t)
    ensures At(t, n, 1) == Waiting(VolumeJob(FirstPv(n, u))) && Deleting(n, u) !in t.held
    ensures t.pvs == map[u := Pv(u, n, 1, false)] && t.removed == {0} && Pool(t, n) == map[c.name(u) := Of(u)]
  {
    var s := Holding(n, map[]);
    var e1, t1 := FirstHand(c, n, u);
    var e2, t2 := Miss(c, s, e1, t1, n, 2, u);
    var e3, t3 := SeeAbsent(c, s, e2, t2, n, 2, u);
    var e4, t4 := Create(c, s, e3, t3, n, 2, u);
    es, t := Record(c, s, e4, t4, n, 2, u);
  }

  /** One key in two hands: the second deletion of a volume, begun with the first, meets its successor. */
  lemma TwoHandsLoseData(c: Config, n: Node, u: Uid) returns (es: seq<Event>)
    requires c.takes(n, u) && !c.exclusive
    ensures Run(c, Holding(n, map[]), es).Some?
    ensures var t := Run(c, Holding(n, map[]), es).value;
            && !Safe(c, t) && u in t.pvs && t.pvs[u].inc == 1
            && At(t, n, 1) == Inside(VolumeJob(FirstPv(n, u)), Gone)
  {
    var s := Holding(n, map[]);
    var e1, t1 := SecondHand(c, n, u);
    var e2, t2 := Demolish(c, s, e1, t1, n, 1, FirstPv(n, u));
    assert u in t2.pvs && c.name(u) !in Pool(t2, n);
    es := e2;
  }

  // ---- A dataset that is not seen ----------------------------------------------------------------------------

  /** `zfs list` fails, `zfs create -p` succeeds without effect: somebody else's dataset is recorded as the claim's. */
  lemma BlindCreateTakesOver(c: Config, n: Node, u: Uid) returns (es: seq<Event>)
    requires c.takes(n, u) && c.blind && !c.adopts(u)
    ensures var s := Holding(n, map[c.name(u) := Foreign]);
            Run(c, s, es).Some? && WithoutDeletion(es) && !Safe(c, Run(c, s, es).value)
  {
    var s := Holding(n, map[c.name(u) := Foreign]);
    var e1, t1 := Prepare(c, s, [], s, n, 0, u);
    var e2, t2 := Create(c, s, e1, t1, n, 0, u);
    var e3, t3 := Record(c, s, e2, t2, n, 0, u);
    assert u in t3.pvs && t3.removed == {} && Pool(t3, n)[c.name(u)] == Foreign;
    es := e3;
  }

  // ---- Quarantine ---------------------------------------------------------------------------------------

  /** A pool in which renaming u's dataset puts something under v's name, if v's is not where it goes itself */
  function Laid(c: Config, u: Uid, v: Uid, at: nat): map<string, Data>
    requires InTheWay(c, u, v, at)
  {
    var rest := c.name(v)[|c.quarantine(u, at)|..];
    if rest == "" then map[] else map[c.name(u) + rest := Foreign]
  }

  lemma LaidAside(c: Config, u: Uid, v: Uid, at: nat)
    requires InTheWay(c, u, v, at) && !Overlap(c.name(u), c.name(v))
    ensures var to, pool := c.quarantine(u, at), Laid(c, u, v, at);
            && c.name(u) !in pool && c.name(v) !in pool
            && (forall k :: k in pool ==> AtOrBelow(c.name(u), k) && !AtOrBelow(c.name(v), k) && !AtOrBelow(to, k))
  {
    var to := c.quarantine(u, at);
    var rest := c.name(v)[|to|..];
    if rest != "" {
      var k := c.name(u) + rest;
      assert rest[0] == (to + "/")[|to|];
      assert k == c.name(u) + "/" + rest[1..];
      if AtOrBelow(c.name(v), k) {
        Comparable(c.name(u), c.name(v), k);
      }
      if AtOrBelow(to, k) {
        Comparable(c.name(u), to, k);
      }
    }
  }

  /** The rename puts something there, and nothing of v's. */
  lemma RenamedInto(c: Config, u: Uid, v: Uid, at: nat)
    requires InTheWay(c, u, v, at) && u != v && !Overlap(c.name(u), c.name(v))
    ensures var to, pool := c.quarantine(u, at), Laid(c, u, v, at)[c.name(u) := Of(u)];
            && FreeFor(pool, c.name(u), to) && c.name(v) in Renamed(pool, c.name(u), to)
            && Renamed(pool, c.name(u), to)[c.name(v)] != Of(v)
  {
    LaidAside(c, u, v, at);
    var to, pool := c.quarantine(u, at), Laid(c, u, v, at)[c.name(u) := Of(u)];
    var rest := c.name(v)[|to|..];
    var k := c.name(u) + rest;
    assert FreeFor(pool, c.name(u), to);
    assert k in pool by {
      assert rest == "" ==> k == c.name(u);
    }
    RelocatedKeys(pool, c.name(u), to);
    assert Moved(c.name(u), to, k) == c.name(v) by {
      assert k[|c.name(u)|..] == rest;
    }
  }

  /** Worker 0 has provisioned u, and its claim is gone. */
  function Orphaned(c: Config, t: State, n: Node, u: Uid): State {
    Freed(WithPool(Recorded(t, n, 0, u, Idle, t.held), n, Pool(t, n)[c.name(u) := Of(u)])
          .(creates := t.creates + multiset{(n, u)}), u)
  }

  /** Worker 0 provisions u, and after its claim is gone takes up the volume and finds its dataset. */
  lemma FindForRename(c: Config, s: State, es: seq<Event>, t: State, n: Node, u: Uid)
      returns (es': seq<Event>, t': State, pv: Pv)
    requires Run(c, s, es) == Some(t) && MayTake(c, t, n, 0, ClaimJob(u)) && u !in t.pvs && c.name(u) !in Pool(t, n)
    requires Claiming(c, n, u) !in t.held && Deleting(n, u) !in t.held
    requires forall w: nat :: !At(t, n, w).Idle? ==> ItemOf(c, At(t, n, w).job) != PvItem(u)
    ensures Run(c, s, es') == Some(t') && pv == Pv(u, n, t.nextInc, true)
    ensures t' == Put(Orphaned(c, t, n, u), n, 0, Inside(VolumeJob(pv), Found), t.held + {Deleting(n, u)})
  {
    var e1, t1 := Provision(c, s, es, t, n, 0, u);
    var e2, t2 := Free(c, s, e1, t1, u);
    pv := t2.pvs[u];
    MayTakeVolume(c, t2, n, 0, pv);
    es', t' := TakeAndLook(c, s, e2, t2, n, 0, pv, true);
  }

  /** Worker 0 has found the dataset of u, and worker 1 has seen none of v's. */
  lemma BothPoised(c: Config, n: Node, u: Uid, v: Uid, at: nat) returns (es: seq<Event>, t: State)
    requires u != v && c.takes(n, u) && c.takes(n, v) && InTheWay(c, u, v, at) && !Overlap(c.name(u), c.name(v))
    ensures Run(c, Holding(n, Laid(c, u, v, at)), es) == Some(t)
    ensures At(t, n, 0) == Inside(VolumeJob(FirstPv(n, u)), Found) && At(t, n, 1) == Inside(ClaimJob(v), Absent)
    ensures v !in t.pvs && t.nextInc == 1 && t.removed == {} && Pool(t, n) == Laid(c, u, v, at)[c.name(u) := Of(u)]
  {
    LaidAside(c, u, v, at);
    var s := Holding(n, Laid(c, u, v, at));
    var e1, t1, pv := FindForRename(c, s, [], s, n, u);
    es, t := Prepare(c, s, e1, t1, n, 1, v);
  }

  /** The rename of u's dataset puts something under v's name. */
  lemma RenameInto(c: Config, s: State, es: seq<Event>, t: State, n: Node, u: Uid, v: Uid, pv: Pv, at: nat)
      returns (es': seq<Event>, t': State)
    requires Run(c, s, es) == Some(t) && At(t, n, 0) == Inside(VolumeJob(pv), Found) && pv.uid == u && c.preserving
    requires u != v && InTheWay(c, u, v, at) && !Overlap(c.name(u), c.name(v))
    requires Pool(t, n) == Laid(c, u, v, at)[c.name(u) := Of(u)]
    ensures Run(c, s, es') == Some(t') && c.name(v) in Pool(t', n) && Pool(t', n)[c.name(v)] != Of(v)
    ensures forall w: nat :: w != 0 ==> At(t', n, w) == At(t, n, w)
    ensures t'.pvs == t.pvs && t'.nextInc == t.nextInc && t'.removed == t.removed + {pv.inc}
  {
    RenamedInto(c, u, v, at);
    PreserveStep(c, t, n, pv, at);
    es', t' := Extend(c, s, es, t, Step(n, 0, Preserve(at)));
  }

  lemma PreserveStep(c: Config, t: State, n: Node, pv: Pv, at: nat)
    requires At(t, n, 0) == Inside(VolumeJob(pv), Found) && c.preserving
    requires FreeFor(Pool(t, n), c.name(pv.uid), c.quarantine(pv.uid, at))
    ensures Do(c, t, n, 0, Preserve(at)) ==
            Some(WithPool(Put(t, n, 0, Inside(VolumeJob(pv), Gone), t.held), n,
                          Renamed(Pool(t, n), c.name(pv.uid), c.quarantine(pv.uid, at)))
                 .(removed := t.removed + {pv.inc}))
  {
  }

  /**
   * A claim named as another one's quarantine: it can see that its dataset does not exist just
   * before the other's volume is renamed there, and then records that volume as its own.
   */
  lemma QuarantineTakenOver(c: Config, n: Node, u: Uid, v: Uid, at: nat) returns (es: seq<Event>)
    requires c.preserving && u != v && c.takes(n, u) && c.takes(n, v) && !c.adopts(v)
    requires InTheWay(c, u, v, at) && !Overlap(c.name(u), c.name(v))
    ensures var s := Holding(n, Laid(c, u, v, at));
            Run(c, s, es).Some? && !Safe(c, Run(c, s, es).value)
  {
    var s := Holding(n, Laid(c, u, v, at));
    var e1, t1 := BothPoised(c, n, u, v, at);
    var e2, t2 := RenameInto(c, s, e1, t1, n, u, v, FirstPv(n, u), at);
    var e3, t3 := Create(c, s, e2, t2, n, 1, v);
    var e4, t4 := Record(c, s, e3, t3, n, 1, v);
    assert v in t4.pvs && t4.pvs[v].inc == 1 && t4.removed == {0};
    es := e4;
  }

  // ---- Exactly when no run loses data ------------------------------------------------------------------

  /** Some run of a system that is not careful loses data, whatever its names are. */
  lemma CarelessLosesData(c: Config, n: Node, u: Uid) returns (s: State, es: seq<Event>)
    requires c.takes(n, u) && (!Sound(c) || (c.blind && !c.adopts(u)))
    ensures Initial(s) && Run(c, s, es).Some? && !Safe(c, Run(c, s, es).value)
  {
    s := Holding(n, map[]);
    if !c.exclusive {
      es := TwoHandsLoseData(c, n, u);
    } else if !Sound(c) {
      es := MissedRecordLosesData(c, n, u);
    } else {
      s := Holding(n, map[c.name(u) := Foreign]);
      es := BlindCreateTakesOver(c, n, u);
    }
  }

  lemma NotPosersAdopt(c: Config) returns (s: State, es: seq<Event>)
    requires Apart(c) && c.preserving && !PosersAdopt(c)
    ensures Initial(s) && Run(c, s, es).Some? && !Safe(c, Run(c, s, es).value)
  {
    var n: Node, u: Uid, v: Uid, at: nat :|
      u != v && c.takes(n, u) && c.takes(n, v) && InTheWay(c, u, v, at) && !c.adopts(v);
    s := Holding(n, Laid(c, u, v, at));
    es := QuarantineTakenOver(c, n, u, v, at);
  }

  /** No claim is being worked on, and there are no records. */
  ghost predicate Unused(s: State) {
    s.pvs == map[] && forall n: Node, w: nat :: !At(s, n, w).Idle? ==> !At(s, n, w).job.ClaimJob?
  }

  lemma StepLeavesUnused(c: Config, s: State, n: Node, w: nat, a: Action)
    requires !Used(c) && Unused(s) && Do(c, s, n, w, a).Some?
    ensures Unused(Do(c, s, n, w, a).value)
  {
    var s' := Do(c, s, n, w, a).value;
    assert !At(s, n, w).Idle? ==> !At(s, n, w).job.ClaimJob?;
    forall m: Node, v: nat | !At(s', m, v).Idle?
      ensures !At(s', m, v).job.ClaimJob?
    {
      assert At(s', m, v) == if (m, v) == (n, w) then At(s', n, w) else At(s, m, v);
    }
  }

  lemma NextLeavesUnused(c: Config, s: State, e: Event)
    requires !Used(c) && Unused(s) && Next(c, s, e).Some?
    ensures Unused(Next(c, s, e).value)
  {
    match e
    case Step(n, w, a) => StepLeavesUnused(c, s, n, w, a);
    case Crash(n) =>
      assert forall m: Node, v: nat :: At(Crashed(s, n), m, v) == if m == n then Idle else At(s, m, v);
    case Release(u) =>
  }

  lemma {:induction false} AlwaysUnused(c: Config, s: State, es: seq<Event>)
    requires !Used(c) && Initial(s) && Run(c, s, es).Some?
    ensures Unused(Run(c, s, es).value)
  {
    if es != [] {
      AlwaysUnused(c, s, es[..|es| - 1]);
      NextLeavesUnused(c, Run(c, s, es[..|es| - 1]).value, es[|es| - 1]);
    }
  }

  /**
   * Safety of every run. Claims taken up by one node have dataset names neither equal nor nested;
   * none that does not adopt is in the way of a quarantine, if any record asks for preservation;
   * claims and records are read as they are, a dataset that is there is seen except where it would
   * be adopted, and no key is in two hands. Then, and only then, no run loses a recorded volume.
   */
  lemma SafeExactly(c: Config)
    ensures AlwaysSafe(c) <==>
            Apart(c) && (c.preserving ==> PosersAdopt(c)) && (Used(c) ==> Sound(c)) && (c.blind ==> AllAdopt(c))
  {
    if !Apart(c) {
      var n: Node, u: Uid, v: Uid :| u != v && c.takes(n, u) && c.takes(n, v) && AtOrBelow(c.name(u), c.name(v));
      var es := SharedNamesLoseData(c, n, u, v);
      assert Initial(Holding(n, map[]));
    } else if c.preserving && !PosersAdopt(c) {
      var s, es := NotPosersAdopt(c);
    } else if Used(c) && !Sound(c) {
      var n: Node, u: Uid :| c.takes(n, u);
      var s, es := CarelessLosesData(c, n, u);
    } else if c.blind && !AllAdopt(c) {
      var n: Node, u: Uid :| c.takes(n, u) && !c.adopts(u);
      var s, es := CarelessLosesData(c, n, u);
    } else {
      forall s, es | Initial(s) && Run(c, s, es).Some?
        ensures Safe(c, Run(c, s, es).value)
      {
        if Used(c) {
          AlwaysTidy(c, s, es);
          InvAlways(c, s, es);
        } else {
          AlwaysUnused(c, s, es);
        }
      }
    }
  }

  // ---- Records that go before their datasets -----------------------------------------------------------

  lemma Outlasted(c: Config, t: State, n: Node, w: nat, pv: Pv)
    requires At(t, n, w) == Inside(VolumeJob(pv), Gone) && pv.uid in t.pvs
    requires c.name(pv.uid) in Pool(t, n) || t.pvs[pv.uid].inc !in t.removed || t.pvs[pv.uid] != pv
    requires t.pvs[pv.uid].node == n
    ensures !GoesLast(c, t, Step(n, w, DeleteRecord), pv.uid)
  {
    assert Next(c, t, Step(n, w, DeleteRecord)).Some?;
  }

  /** Worker 0 has found u's dataset gone, and is about to delete the record, when worker 1 makes the dataset anew. */
  lemma MissedRecordOutlasted(c: Config, n: Node, u: Uid) returns (es: seq<Event>)
    requires c.takes(n, u) && (!c.live || c.failing)
    ensures var s := Holding(n, map[]);
            Run(c, s, es).Some? && !GoesLast(c, Run(c, s, es).value, Step(n, 0, DeleteRecord), u)
  {
    var s, pv := Holding(n, map[]), FirstPv(n, u);
    var e1, t1 := MissBeforeRelease(c, n, u);
    var e2, t2 := TakeAndDemolish(c, s, e1, t1, n, 0, pv);
    var e3, t3 := MakeAnew(c, s, e2, t2, n, u);
    Outlasted(c, t3, n, 0, pv);
    es := e3;
  }

  /** `zfs list` fails for a dataset that is there, and its record is deleted. */
  lemma BlindDeleteOutlasted(c: Config, n: Node, u: Uid) returns (es: seq<Event>)
    requires c.takes(n, u) && c.blind
    ensures var s := Holding(n, map[]);
            Run(c, s, es).Some? && !GoesLast(c, Run(c, s, es).value, Step(n, 0, DeleteRecord), u)
  {
    var s, pv := Holding(n, map[]), FirstPv(n, u);
    var e1, t1 := Begin(c, n, map[], u);
    var e2, t2 := Free(c, s, e1, t1, u);
    MayTakeVolume(c, t2, n, 0, pv);
    var e3, t3 := TakeAndLook(c, s, e2, t2, n, 0, pv, false);
    Outlasted(c, t3, n, 0, pv);
    es := e3;
  }

  lemma TwoHandsOutlasted(c: Config, n: Node, u: Uid) returns (es: seq<Event>)
    requires c.takes(n, u) && !c.exclusive
    ensures var s := Holding(n, map[]);
            Run(c, s, es).Some? && !GoesLast(c, Run(c, s, es).value, Step(n, 1, DeleteRecord), u)
  {
    es := TwoHandsLoseData(c, n, u);
    var t := Run(c, Holding(n, map[]), es).value;
    assert Next(c, t, Step(n, 1, DeleteRecord)).Some?;
  }

  /** Worker 1 has destroyed the dataset of v, and not yet deleted its record. */
  lemma DestroyAndWait(c: Config, n: Node, pool: map<string, Data>, v: Uid) returns (es: seq<Event>, t: State)
    requires c.takes(n, v) && forall k :: k in pool ==> !AtOrBelow(c.name(v), k)
    ensures Run(c, Holding(n, pool), es) == Some(t)
    ensures At(t, n, 1) == Inside(VolumeJob(FirstPv(n, v)), Gone) && forall w: nat :: w != 1 ==> At(t, n, w).Idle?
    ensures t.held == {Deleting(n, v)} && t.pvs == map[v := FirstPv(n, v)] && Pool(t, n) == pool
    ensures forall pv :: pv in t.history ==> pv.uid == v
  {
    var s := Holding(n, pool);
    var e1, t1 := Begin(c, n, pool, v);
    var e2, t2 := Free(c, s, e1, t1, v);
    MayTakeVolume(c, t2, n, 1, FirstPv(n, v));
    es, t := TakeAndDemolish(c, s, e2, t2, n, 1, FirstPv(n, v));
  }

  /** The next claim of the same name makes its dataset before the old record is gone. */
  lemma ReusedNameOutlasted(c: Config, n: Node, u: Uid, v: Uid) returns (es: seq<Event>)
    requires u != v && c.takes(n, u) && c.takes(n, v) && c.name(u) == c.name(v)
    ensures var s := Holding(n, map[]);
            Run(c, s, es).Some? && !GoesLast(c, Run(c, s, es).value, Step(n, 1, DeleteRecord), u)
  {
    var e1, t1 := DestroyAndWait(c, n, map[], u);
    var e2, t2 := Provision(c, Holding(n, map[]), e1, t1, n, 0, v);
    Outlasted(c, t2, n, 1, FirstPv(n, u));
    es := e2;
  }

  /** A record goes whose dataset went with another claim's. */
  lemma NestedNamesOutlasted(c: Config, n: Node, u: Uid, v: Uid) returns (es: seq<Event>)
    requires c.takes(n, u) && c.takes(n, v) && c.name(u) != c.name(v) && AtOrBelow(c.name(u), c.name(v))
    ensures var s := Holding(n, map[]);
            Run(c, s, es).Some? && !GoesLast(c, Run(c, s, es).value, Step(n, 0, DeleteRecord), v)
  {
    var s, pv := Holding(n, map[]), Pv(v, n, 1, true);
    var e1, t1 := DestroyOuter(c, n, u, v);
    var e2, t2 := Free(c, s, e1, t1, v);
    MayTakeVolume(c, t2, n, 0, pv);
    var e3, t3 := TakeAndLook(c, s, e2, t2, n, 0, pv, false);
    Outlasted(c, t3, n, 0, pv);
    es := e3;
  }

  /** Another volume is renamed to where a dataset was, before its record is gone. */
  lemma QuarantineOutlasted(c: Config, n: Node, u: Uid, v: Uid, at: nat) returns (es: seq<Event>)
    requires c.preserving && u != v && c.takes(n, u) && c.takes(n, v)
    requires InTheWay(c, u, v, at) && !Overlap(c.name(u), c.name(v))
    ensures var s := Holding(n, Laid(c, u, v, at));
            Run(c, s, es).Some? && !GoesLast(c, Run(c, s, es).value, Step(n, 1, DeleteRecord), v)
  {
    LaidAside(c, u, v, at);
    var s := Holding(n, Laid(c, u, v, at));
    var e1, t1 := DestroyAndWait(c, n, Laid(c, u, v, at), v);
    var e2, t2, pv := FindForRename(c, s, e1, t1, n, u);
    var e3, t3 := RenameInto(c, s, e2, t2, n, u, v, pv, at);
    Outlasted(c, t3, n, 1, FirstPv(n, v));
    es := e3;
  }

  lemma SharedNamesOutlasted(c: Config, n: Node, u: Uid, v: Uid)
    requires u != v && c.takes(n, u) && c.takes(n, v) && AtOrBelow(c.name(u), c.name(v))
    ensures !RecordsOutlive(c)
  {
    assert Initial(Holding(n, map[]));
    if c.name(u) == c.name(v) {
      var es := ReusedNameOutlasted(c, n, u, v);
      assert !GoesLast(c, Run(c, Holding(n, map[]), es).value, Step(n, 1, DeleteRecord), u);
    } else {
      var es := NestedNamesOutlasted(c, n, u, v);
      assert !GoesLast(c, Run(c, Holding(n, map[]), es).value, Step(n, 0, DeleteRecord), v);
    }
  }

  lemma CarelessOutlasted(c: Config, n: Node, u: Uid)
    requires c.takes(n, u) && (!Sound(c) || c.blind)
    ensures !RecordsOutlive(c)
  {
    assert Initial(Holding(n, map[]));
    if !c.exclusive {
      var es := TwoHandsOutlasted(c, n, u);
      assert !GoesLast(c, Run(c, Holding(n, map[]), es).value, Step(n, 1, DeleteRecord), u);
    } else if c.blind {
      var es := BlindDeleteOutlasted(c, n, u);
      assert !GoesLast(c, Run(c, Holding(n, map[]), es).value, Step(n, 0, DeleteRecord), u);
    } else {
      var es := MissedRecordOutlasted(c, n, u);
      assert !GoesLast(c, Run(c, Holding(n, map[]), es).value, Step(n, 0, DeleteRecord), u);
    }
  }

  lemma PosersOutlasted(c: Config)
    requires Apart(c) && c.preserving && !NoPosers(c)
    ensures !RecordsOutlive(c)
  {
    var n: Node, u: Uid, v: Uid, at: nat :| u != v && c.takes(n, u) && c.takes(n, v) && InTheWay(c, u, v, at);
    var s := Holding(n, Laid(c, u, v, at));
    var es := QuarantineOutlasted(c, n, u, v, at);
    assert Initial(s) && !GoesLast(c, Run(c, s, es).value, Step(n, 1, DeleteRecord), v);
  }

  /**
   * A record goes only in the delete pass of its own node started for that very record, and after
   * its dataset, exactly as long as names are apart from one another and from quarantines, claims
   * and records are read as they are, datasets are seen, and no key is in two hands.
   */
  lemma RecordsOutliveExactly(c: Config)
    ensures RecordsOutlive(c) <==> Apart(c) && (c.preserving ==> NoPosers(c)) && (Used(c) ==> Sound(c) && !c.blind)
  {
    if !Apart(c) {
      var n: Node, u: Uid, v: Uid :| u != v && c.takes(n, u) && c.takes(n, v) && AtOrBelow(c.name(u), c.name(v));
      SharedNamesOutlasted(c, n, u, v);
    } else if c.preserving && !NoPosers(c) {
      PosersOutlasted(c);
    } else if Used(c) && (!Sound(c) || c.blind) {
      var n: Node, u: Uid :| c.takes(n, u);
      CarelessOutlasted(c, n, u);
    } else {
      forall s, es, e, u | Initial(s) && Run(c, s, es).Some?
        ensures GoesLast(c, Run(c, s, es).value, e, u)
      {
        if Used(c) {
          AlwaysTidy(c, s, es);
          RecordGoesLast(c, s, es, e, u);
        } else {
          AlwaysUnused(c, s, es);
        }
      }
    }
  }

  // ---- Picking up again ----------------------------------------------------------------------------------

  /** A crash leaves no worker of the node at work and no section of it held, and everything else as it was. */
  lemma CrashClears(t: State, n: Node)
    ensures var t' := Crashed(t, n);
            && (forall w: nat :: At(t', n, w).Idle?) && (forall section :: (n, section) !in t'.held)
            && (forall m: Node, w: nat :: m != n ==> At(t', m, w) == At(t, m, w))
            && (forall m: Node, section :: m != n ==> ((m, section) in t'.held <==> (m, section) in t.held))
            && t'.pvs == t.pvs && t'.pools == t.pools && t'.history == t.history && t'.removed == t.removed
  {
  }

  /** After a crash at any moment the deletion of a released volume can be completed, dataset and record. */
  lemma CrashedDeletionCompletes(c: Config, s: State, es: seq<Event>, t: State, n: Node, u: Uid)
      returns (es': seq<Event>, t': State)
    requires Run(c, s, es) == Some(t)
    requires u in t.pvs && t.pvs[u].node == n && t.pvs[u].released && t.pvs[u].uid == u && t.pvs[u] in t.history
    ensures Run(c, s, es') == Some(t') && t'.pvs == t.pvs - {u} && c.name(u) !in Pool(t', n)
  {
    var e1, t1 := Extend(c, s, es, t, Crash(n));
    CrashClears(t, n);
    MayTakeVolume(c, t1, n, 0, t.pvs[u]);
    var e2, t2 := BringDown(c, s, e1, t1, n, t.pvs[u]);
    es', t' := Extend(c, s, e2, t2, Step(n, 0, DeleteRecord));
  }

  /** Worker 0 sees to it that the dataset is gone. */
  lemma BringDown(c: Config, s: State, es: seq<Event>, t: State, n: Node, pv: Pv) returns (es': seq<Event>, t': State)
    requires Run(c, s, es) == Some(t) && MayTake(c, t, n, 0, VolumeJob(pv)) && Deleting(n, pv.uid) !in t.held
    ensures Run(c, s, es') == Some(t') && At(t', n, 0) == Inside(VolumeJob(pv), Gone)
    ensures t'.pvs == t.pvs && c.name(pv.uid) !in Pool(t', n)
  {
    if c.name(pv.uid) in Pool(t, n) {
      es', t' := TakeAndDemolish(c, s, es, t, n, 0, pv);
    } else {
      es', t' := TakeAndLook(c, s, es, t, n, 0, pv, false);
    }
  }

  /** After a crash at any moment a claim that has neither record nor dataset can be given both. */
  lemma CrashedClaimCompletes(c: Config, s: State, es: seq<Event>, t: State, n: Node, u: Uid)
      returns (es': seq<Event>, t': State)
    requires Run(c, s, es) == Some(t)
    requires u !in t.pvs && c.takes(n, u) && !ClaimGone(t, u) && c.name(u) !in Pool(t, n)
    ensures Run(c, s, es') == Some(t') && u in t'.pvs && t'.pvs[u].node == n && Holds(c, t', n, u)
    ensures t'.pvs - {u} == t.pvs
  {
    var e1, t1 := Extend(c, s, es, t, Crash(n));
    CrashClears(t, n);
    es', t' := Provision(c, s, e1, t1, n, 0, u);
  }

  /** Nor does a dataset in its way stop a claim that adopts: it is recorded as it is. */
  lemma CrashedAdoptionCompletes(c: Config, s: State, es: seq<Event>, t: State, n: Node, u: Uid)
      returns (es': seq<Event>, t': State)
    requires Run(c, s, es) == Some(t)
    requires u !in t.pvs && c.takes(n, u) && !ClaimGone(t, u) && c.name(u) in Pool(t, n) && c.adopts(u)
    ensures Run(c, s, es') == Some(t') && u in t'.pvs && t'.pvs[u].node == n && Pool(t', n) == Pool(t, n)
    ensures t'.pvs - {u} == t.pvs
  {
    var e1, t1 := Extend(c, s, es, t, Crash(n));
    CrashClears(t, n);
    es', t' := Adopt(c, s, e1, t1, n, 0, u);
  }

  /** A destroy that fails midway takes nothing outside the dataset, and leaves the dataset itself for the next attempt. */
  lemma PartlyDestroyed(c: Config, t: State, n: Node, w: nat, pv: Pv, lost: set<string>)
    requires At(t, n, w) == Inside(VolumeJob(pv), Found)
    ensures var t' := Do(c, t, n, w, DestroyPart(lost));
            && t'.Some? && t'.value.pvs == t.pvs && t'.value.removed == t.removed
            && At(t'.value, n, w) == Inside(VolumeJob(pv), Finished)
            && Without(Pool(t'.value, n), c.name(pv.uid)) == Without(Pool(t, n), c.name(pv.uid))
            && (c.name(pv.uid) in Pool(t'.value, n) <==> c.name(pv.uid) in Pool(t, n))
            && forall k :: k in Pool(t, n) && k in lost && AtOrBelow(c.name(pv.uid), k) && k != c.name(pv.uid) ==>
                 k !in Pool(t'.value, n)
  {
  }

  /** A deletion cut off after its backend was removed is completed by the next attempt. */
  lemma DeletionResumes(c: Config, s: State, es: seq<Event>, t: State, n: Node, w: nat, u: Uid) returns (es': seq<Event>)
    requires Run(c, s, es) == Some(t)
    requires u in t.pvs && t.pvs[u].node == n && t.pvs[u].released && t.pvs[u].uid == u && t.pvs[u] in t.history
    requires c.name(u) !in Pool(t, n) && At(t, n, w).Idle? && Deleting(n, u) !in t.held
    requires forall v: nat :: !At(t, n, v).Idle? ==> ItemOf(c, At(t, n, v).job) != PvItem(u)
    ensures Run(c, s, es').Some?
    ensures Run(c, s, es').value.pvs == t.pvs - {u} && Run(c, s, es').value.pools == t.pools
  {
    var e1, t1 := TakeAndLook(c, s, es, t, n, w, t.pvs[u], false);
    var e2, t2 := Extend(c, s, e1, t1, Step(n, w, DeleteRecord));
    es' := e2;
  }
}
