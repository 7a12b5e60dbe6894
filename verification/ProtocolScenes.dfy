/**
 * Stretches of runs of the protocol that particular runs are put together from
 * (pkg/controller/controller.go:417-636, 687-741).
 */
module ProtocolScenes {
  import opened Wrappers
  import opened Subtrees
  import opened Protocol
  import opened ProtocolOnce

  const EMPTY := Holding(0, map[])

  /** Nothing has happened yet; node n's pool holds what it is given. */
  function Holding(n: Node, pool: map<string, Data>): State {
    State(map[], map[n := pool], map[], {}, {}, {}, 0, multiset{}, multiset{})
  }

  /** The same state with worker w of node n somewhere else */
  function Put(s: State, n: Node, w: nat, pc: Pc, held: set<(Node, Section)>): State {
    s.(workers := s.workers[(n, w) := pc], held := held)
  }

  /** At most worker w of node n has moved. */
  ghost predicate OthersStay(s: State, s': State, n: Node, w: nat) {
    forall m: Node, v: nat :: (m, v) != (n, w) ==> At(s', m, v) == At(s, m, v)
  }

  function Claiming(c: Config, n: Node, u: Uid): (Node, Section) {
    (n, ClaimSection(c.key(u)))
  }

  function Deleting(n: Node, u: Uid): (Node, Section) {
    (n, DeleteSection(u))
  }

  /** One more event at the end of a run */
  lemma Extend(c: Config, s: State, es: seq<Event>, t: State, e: Event) returns (es': seq<Event>, t': State)
    requires Run(c, s, es) == Some(t) && Next(c, t, e).Some?
    ensures es' == es + [e] && Run(c, s, es') == Some(t') == Next(c, t, e)
  {
    es', t' := es + [e], Next(c, t, e).value;
    assert es'[..|es'| - 1] == es;
  }

  // ---- A claim ------------------------------------------------------------------------------------------

  /** A worker that has taken claim u enters its section and finds no record, rightly or not. */
  lemma Miss(c: Config, s: State, es: seq<Event>, t: State, n: Node, w: nat, u: Uid) returns (es': seq<Event>, t': State)
    requires Run(c, s, es) == Some(t) && At(t, n, w) == Waiting(ClaimJob(u))
    requires Claiming(c, n, u) !in t.held && MayRead(c, t, u, false)
    ensures Run(c, s, es') == Some(t') && (WithoutDeletion(es) ==> WithoutDeletion(es'))
    ensures t' == Put(t, n, w, Inside(ClaimJob(u), Unrecorded), t.held + {Claiming(c, n, u)})
    ensures OthersStay(t, t', n, w)
  {
    var e1, t1 := Extend(c, s, es, t, Step(n, w, Enter));
    es', t' := Extend(c, s, e1, t1, Step(n, w, ReadRecord(false)));
    assert t.workers[(n, w) := Inside(ClaimJob(u), Entered)][(n, w) := At(t', n, w)] == t.workers[(n, w) := At(t', n, w)];
  }

  /** The worker sees no dataset, rightly or not. */
  lemma SeeAbsent(c: Config, s: State, es: seq<Event>, t: State, n: Node, w: nat, u: Uid) returns (es': seq<Event>, t': State)
    requires Run(c, s, es) == Some(t) && At(t, n, w) == Inside(ClaimJob(u), Unrecorded)
    requires MaySee(c, Pool(t, n), c.name(u), false)
    ensures Run(c, s, es') == Some(t') && (WithoutDeletion(es) ==> WithoutDeletion(es'))
    ensures t' == Put(t, n, w, Inside(ClaimJob(u), Absent), t.held)
    ensures OthersStay(t, t', n, w)
  {
    es', t' := Extend(c, s, es, t, Step(n, w, CheckExists(false)));
  }

  /** A worker at rest takes up claim u and gets as far as seeing no dataset. */
  lemma Prepare(c: Config, s: State, es: seq<Event>, t: State, n: Node, w: nat, u: Uid) returns (es': seq<Event>, t': State)
    requires Run(c, s, es) == Some(t) && MayTake(c, t, n, w, ClaimJob(u)) && u !in t.pvs
    requires Claiming(c, n, u) !in t.held && MaySee(c, Pool(t, n), c.name(u), false)
    ensures Run(c, s, es') == Some(t') && (WithoutDeletion(es) ==> WithoutDeletion(es'))
    ensures t' == Put(t, n, w, Inside(ClaimJob(u), Absent), t.held + {Claiming(c, n, u)})
    ensures OthersStay(t, t', n, w)
  {
    var e1, t1 := Extend(c, s, es, t, Step(n, w, Take(ClaimJob(u))));
    var e2, t2 := Miss(c, s, e1, t1, n, w, u);
    es', t' := SeeAbsent(c, s, e2, t2, n, w, u);
    assert t.workers[(n, w) := Waiting(ClaimJob(u))][(n, w) := Inside(ClaimJob(u), Unrecorded)][(n, w) := At(t', n, w)]
           == t.workers[(n, w) := At(t', n, w)];
  }

  /** The pool after `zfs create -p` */
  function WithCreated(c: Config, pool: map<string, Data>, u: Uid): map<string, Data> {
    if c.name(u) in pool then pool else pool[c.name(u) := Of(u)]
  }

  lemma Create(c: Config, s: State, es: seq<Event>, t: State, n: Node, w: nat, u: Uid) returns (es': seq<Event>, t': State)
    requires Run(c, s, es) == Some(t) && At(t, n, w) == Inside(ClaimJob(u), Absent)
    ensures Run(c, s, es') == Some(t') && (WithoutDeletion(es) ==> WithoutDeletion(es'))
    ensures t' == WithPool(Put(t, n, w, Inside(ClaimJob(u), Created), t.held), n, WithCreated(c, Pool(t, n), u))
                  .(creates := t.creates + multiset{(n, u)})
    ensures OthersStay(t, t', n, w)
  {
    es', t' := Extend(c, s, es, t, Step(n, w, CreateDataset));
  }

  /** The record a claim section of node n would make now */
  function NewPv(t: State, n: Node, u: Uid): Pv {
    Pv(u, n, t.nextInc, false)
  }

  /** The state in which u has been recorded by a worker that is at `pc` now */
  function Recorded(t: State, n: Node, w: nat, u: Uid, pc: Pc, held: set<(Node, Section)>): State {
    Put(t, n, w, pc, held).(pvs := t.pvs[u := NewPv(t, n, u)], history := t.history + {NewPv(t, n, u)},
                            nextInc := t.nextInc + 1, records := t.records + multiset{u})
  }

  lemma Record(c: Config, s: State, es: seq<Event>, t: State, n: Node, w: nat, u: Uid) returns (es': seq<Event>, t': State)
    requires Run(c, s, es) == Some(t) && At(t, n, w) == Inside(ClaimJob(u), Created) && u !in t.pvs
    ensures Run(c, s, es') == Some(t') && (WithoutDeletion(es) ==> WithoutDeletion(es'))
    ensures t' == Recorded(t, n, w, u, Inside(ClaimJob(u), Finished), t.held)
    ensures OthersStay(t, t', n, w)
  {
    es', t' := Extend(c, s, es, t, Step(n, w, CreateRecord));
  }

  lemma LeaveClaim(c: Config, s: State, es: seq<Event>, t: State, n: Node, w: nat, u: Uid) returns (es': seq<Event>, t': State)
    requires Run(c, s, es) == Some(t) && At(t, n, w).Inside? && At(t, n, w).job == ClaimJob(u)
    ensures Run(c, s, es') == Some(t') && (WithoutDeletion(es) ==> WithoutDeletion(es'))
    ensures t' == Put(t, n, w, Idle, t.held - {Claiming(c, n, u)})
    ensures OthersStay(t, t', n, w)
  {
    es', t' := Extend(c, s, es, t, Step(n, w, Leave));
  }

  /** The worker makes the record and leaves. */
  lemma RecordAndLeave(c: Config, s: State, es: seq<Event>, t: State, n: Node, w: nat, u: Uid)
      returns (es': seq<Event>, t': State)
    requires Run(c, s, es) == Some(t) && At(t, n, w) == Inside(ClaimJob(u), Created) && u !in t.pvs
    ensures Run(c, s, es') == Some(t') && (WithoutDeletion(es) ==> WithoutDeletion(es'))
    ensures t' == Recorded(t, n, w, u, Idle, t.held - {Claiming(c, n, u)})
    ensures OthersStay(t, t', n, w)
  {
    var e1, t1 := Record(c, s, es, t, n, w, u);
    es', t' := LeaveClaim(c, s, e1, t1, n, w, u);
    assert t'.workers == t.workers[(n, w) := Idle];
  }

  /** A worker at rest takes up claim u and creates its dataset. */
  lemma Make(c: Config, s: State, es: seq<Event>, t: State, n: Node, w: nat, u: Uid) returns (es': seq<Event>, t': State)
    requires Run(c, s, es) == Some(t) && MayTake(c, t, n, w, ClaimJob(u)) && u !in t.pvs
    requires Claiming(c, n, u) !in t.held && c.name(u) !in Pool(t, n)
    ensures Run(c, s, es') == Some(t') && (WithoutDeletion(es) ==> WithoutDeletion(es'))
    ensures t' == WithPool(Put(t, n, w, Inside(ClaimJob(u), Created), t.held + {Claiming(c, n, u)}), n,
                           Pool(t, n)[c.name(u) := Of(u)])
                  .(creates := t.creates + multiset{(n, u)})
    ensures OthersStay(t, t', n, w)
  {
    var e1, t1 := Prepare(c, s, es, t, n, w, u);
    es', t' := Create(c, s, e1, t1, n, w, u);
    assert t'.workers == t.workers[(n, w) := At(t', n, w)];
  }

  /** A worker at rest provisions claim u. */
  lemma Provision(c: Config, s: State, es: seq<Event>, t: State, n: Node, w: nat, u: Uid) returns (es': seq<Event>, t': State)
    requires Run(c, s, es) == Some(t) && MayTake(c, t, n, w, ClaimJob(u)) && u !in t.pvs
    requires Claiming(c, n, u) !in t.held && c.name(u) !in Pool(t, n)
    ensures Run(c, s, es') == Some(t') && (WithoutDeletion(es) ==> WithoutDeletion(es'))
    ensures t' == WithPool(Recorded(t, n, w, u, Idle, t.held), n, Pool(t, n)[c.name(u) := Of(u)])
                  .(creates := t.creates + multiset{(n, u)})
    ensures OthersStay(t, t', n, w)
  {
    var e1, t1 := Make(c, s, es, t, n, w, u);
    es', t' := RecordAndLeave(c, s, e1, t1, n, w, u);
    assert t.held + {Claiming(c, n, u)} - {Claiming(c, n, u)} == t.held;
    assert t'.workers == t.workers[(n, w) := Idle];
  }

  /** The worker sees the dataset that is there, and adopts it. */
  lemma SeeThere(c: Config, s: State, es: seq<Event>, t: State, n: Node, w: nat, u: Uid) returns (es': seq<Event>, t': State)
    requires Run(c, s, es) == Some(t) && At(t, n, w) == Inside(ClaimJob(u), Unrecorded)
    requires c.name(u) in Pool(t, n) && c.adopts(u)
    ensures Run(c, s, es') == Some(t') && (WithoutDeletion(es) ==> WithoutDeletion(es'))
    ensures t' == Put(t, n, w, Inside(ClaimJob(u), Created), t.held)
    ensures OthersStay(t, t', n, w)
  {
    es', t' := Extend(c, s, es, t, Step(n, w, CheckExists(true)));
  }

  /** A worker at rest takes up claim u and adopts the dataset that is there. */
  lemma Adopt(c: Config, s: State, es: seq<Event>, t: State, n: Node, w: nat, u: Uid) returns (es': seq<Event>, t': State)
    requires Run(c, s, es) == Some(t) && MayTake(c, t, n, w, ClaimJob(u)) && u !in t.pvs
    requires Claiming(c, n, u) !in t.held && c.name(u) in Pool(t, n) && c.adopts(u)
    ensures Run(c, s, es') == Some(t') && (WithoutDeletion(es) ==> WithoutDeletion(es'))
    ensures t' == Recorded(t, n, w, u, Idle, t.held)
    ensures OthersStay(t, t', n, w)
  {
    var e1, t1 := Extend(c, s, es, t, Step(n, w, Take(ClaimJob(u))));
    var e2, t2 := Miss(c, s, e1, t1, n, w, u);
    var e3, t3 := SeeThere(c, s, e2, t2, n, w, u);
    es', t' := RecordAndLeave(c, s, e3, t3, n, w, u);
    assert t.held + {Claiming(c, n, u)} - {Claiming(c, n, u)} == t.held;
    assert t'.workers == t.workers[(n, w) := Idle];
  }

  // ---- A volume -----------------------------------------------------------------------------------------

  /** A delete worker can take up the record as it is. */
  lemma MayTakeVolume(c: Config, t: State, n: Node, w: nat, pv: Pv)
    requires pv.released && pv.node == n && pv.uid in t.pvs && t.pvs[pv.uid] == pv && pv in t.history && At(t, n, w).Idle?
    requires forall v: nat :: !At(t, n, v).Idle? ==> ItemOf(c, At(t, n, v).job) != PvItem(pv.uid)
    ensures MayTake(c, t, n, w, VolumeJob(pv))
  {
  }

  /** The claim of u is deleted, and the volume released. */
  function Freed(t: State, u: Uid): State
    requires u in t.pvs
  {
    var pv := t.pvs[u].(released := true);
    t.(pvs := t.pvs[u := pv], history := t.history + {pv})
  }

  lemma Free(c: Config, s: State, es: seq<Event>, t: State, u: Uid) returns (es': seq<Event>, t': State)
    requires Run(c, s, es) == Some(t) && u in t.pvs
    ensures Run(c, s, es') == Some(t') && t' == Freed(t, u)
    ensures forall m: Node, w: nat :: At(t', m, w) == At(t, m, w)
  {
    es', t' := Extend(c, s, es, t, Release(u));
  }

  /** A worker that has taken the volume up enters its section and looks for the dataset. */
  lemma Look(c: Config, s: State, es: seq<Event>, t: State, n: Node, w: nat, pv: Pv, seen: bool)
      returns (es': seq<Event>, t': State)
    requires Run(c, s, es) == Some(t) && At(t, n, w) == Waiting(VolumeJob(pv))
    requires Deleting(n, pv.uid) !in t.held && MaySee(c, Pool(t, n), c.name(pv.uid), seen)
    ensures Run(c, s, es') == Some(t')
    ensures t' == Put(t, n, w, Inside(VolumeJob(pv), if seen then Found else Gone), t.held + {Deleting(n, pv.uid)})
    ensures OthersStay(t, t', n, w)
  {
    var e1, t1 := Extend(c, s, es, t, Step(n, w, Enter));
    es', t' := Extend(c, s, e1, t1, Step(n, w, CheckExists(seen)));
    assert t.workers[(n, w) := Inside(VolumeJob(pv), Entered)][(n, w) := At(t', n, w)] == t.workers[(n, w) := At(t', n, w)];
  }

  /** A worker at rest takes up the volume and looks for the dataset. */
  lemma TakeAndLook(c: Config, s: State, es: seq<Event>, t: State, n: Node, w: nat, pv: Pv, seen: bool)
      returns (es': seq<Event>, t': State)
    requires Run(c, s, es) == Some(t) && MayTake(c, t, n, w, VolumeJob(pv))
    requires Deleting(n, pv.uid) !in t.held && MaySee(c, Pool(t, n), c.name(pv.uid), seen)
    ensures Run(c, s, es') == Some(t')
    ensures t' == Put(t, n, w, Inside(VolumeJob(pv), if seen then Found else Gone), t.held + {Deleting(n, pv.uid)})
    ensures OthersStay(t, t', n, w)
  {
    var e1, t1 := Extend(c, s, es, t, Step(n, w, Take(VolumeJob(pv))));
    es', t' := Look(c, s, e1, t1, n, w, pv, seen);
    assert t1.workers[(n, w) := At(t', n, w)] == t.workers[(n, w) := At(t', n, w)];
  }

  /** The state in which a delete pass has destroyed the dataset */
  function Destroyed(c: Config, t: State, n: Node, w: nat, pv: Pv, held: set<(Node, Section)>): State {
    WithPool(Put(t, n, w, Inside(VolumeJob(pv), Gone), held), n, Without(Pool(t, n), c.name(pv.uid)))
    .(removed := t.removed + {pv.inc})
  }

  lemma Demolish(c: Config, s: State, es: seq<Event>, t: State, n: Node, w: nat, pv: Pv) returns (es': seq<Event>, t': State)
    requires Run(c, s, es) == Some(t) && At(t, n, w) == Waiting(VolumeJob(pv))
    requires Deleting(n, pv.uid) !in t.held && c.name(pv.uid) in Pool(t, n)
    ensures Run(c, s, es') == Some(t') && t' == Destroyed(c, t, n, w, pv, t.held + {Deleting(n, pv.uid)})
    ensures OthersStay(t, t', n, w)
  {
    var e1, t1 := Look(c, s, es, t, n, w, pv, true);
    es', t' := Extend(c, s, e1, t1, Step(n, w, Destroy));
    assert t1.workers[(n, w) := At(t', n, w)] == t.workers[(n, w) := At(t', n, w)];
  }

  lemma TakeAndDemolish(c: Config, s: State, es: seq<Event>, t: State, n: Node, w: nat, pv: Pv)
      returns (es': seq<Event>, t': State)
    requires Run(c, s, es) == Some(t) && MayTake(c, t, n, w, VolumeJob(pv))
    requires Deleting(n, pv.uid) !in t.held && c.name(pv.uid) in Pool(t, n)
    ensures Run(c, s, es') == Some(t') && t' == Destroyed(c, t, n, w, pv, t.held + {Deleting(n, pv.uid)})
    ensures OthersStay(t, t', n, w)
  {
    var e1, t1 := Extend(c, s, es, t, Step(n, w, Take(VolumeJob(pv))));
    es', t' := Demolish(c, s, e1, t1, n, w, pv);
    assert t1.workers[(n, w) := At(t', n, w)] == t.workers[(n, w) := At(t', n, w)];
  }

  lemma LeaveVolume(c: Config, s: State, es: seq<Event>, t: State, n: Node, w: nat, pv: Pv) returns (es': seq<Event>, t': State)
    requires Run(c, s, es) == Some(t) && At(t, n, w).Inside? && At(t, n, w).job == VolumeJob(pv)
    ensures Run(c, s, es') == Some(t') && t' == Put(t, n, w, Idle, t.held - {Deleting(n, pv.uid)})
    ensures OthersStay(t, t', n, w)
  {
    es', t' := Extend(c, s, es, t, Step(n, w, Leave));
  }

  /** A whole deletion up to the record, which stays behind as it would after a failure */
  lemma DestroyOnly(c: Config, s: State, es: seq<Event>, t: State, n: Node, w: nat, pv: Pv) returns (es': seq<Event>, t': State)
    requires Run(c, s, es) == Some(t) && MayTake(c, t, n, w, VolumeJob(pv))
    requires Deleting(n, pv.uid) !in t.held && c.name(pv.uid) in Pool(t, n)
    ensures Run(c, s, es') == Some(t')
    ensures t' == WithPool(Put(t, n, w, Idle, t.held), n, Without(Pool(t, n), c.name(pv.uid)))
                  .(removed := t.removed + {pv.inc})
    ensures OthersStay(t, t', n, w)
  {
    var e1, t1 := TakeAndDemolish(c, s, es, t, n, w, pv);
    es', t' := LeaveVolume(c, s, e1, t1, n, w, pv);
    assert t.held + {Deleting(n, pv.uid)} - {Deleting(n, pv.uid)} == t.held;
    assert t'.workers == t.workers[(n, w) := Idle];
  }
}
