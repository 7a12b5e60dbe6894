/**
 * The retry loop over the rate-limited work queue (pkg/controller/controller.go:225-254): what
 * Add, Get, Done, AddRateLimited and Forget do to one key, and how many attempts that allows.
 */
module WorkQueue {
  import opened Wrappers

  const MAX_RETRIES: nat := 5

  /** One key of the queue, with a count of what has happened to it */
  datatype Entry = Entry(
    /** to be handed out: now, or once the worker that has the key is done with it */
    dirty: bool,
    /** a worker has the key */
    processing: bool,
    /** the rate limiter holds the key back */
    waiting: bool,
    requeues: nat,
    /** how often the key was added from outside */
    adds: nat,
    /** how often a worker got the key */
    attempts: nat)

  const NEW := Entry(false, false, false, 0, 0, 0)

  function Marked(e: Entry): Entry {
    e.(dirty := true)
  }

  /** An informer event for the object */
  function Added(e: Entry): Entry {
    Marked(e).(adds := e.adds + 1)
  }

  /** The rate limiter lets the key go. */
  function Fired(e: Entry): Entry {
    Marked(e).(waiting := false)
  }

  predicate Ready(e: Entry) {
    e.dirty && !e.processing
  }

  function Taken(e: Entry): Entry {
    e.(dirty := false, processing := true, attempts := e.attempts + 1)
  }

  /** What is left of an attempt once it is over */
  function Settled(e: Entry, failed: bool): Entry {
    var retry := failed && e.requeues < MAX_RETRIES;
    e.(processing := false, waiting := e.waiting || retry, requeues := if retry then e.requeues + 1 else 0)
  }

  // ---- The queue as it runs ------------------------------------------------------------------

  /** An object to reconcile: a claim ("pvc") or a volume ("pv") */
  datatype Key = Key(kind: string, ns: string, name: string)

  class Queue {
    var entries: map<Key, Entry>
    /** The keys that can be handed out, in the order in which they became so */
    var ready: seq<Key>

    ghost predicate Valid()
      reads this
    {
      && (forall k :: k in ready <==> k in entries && Ready(entries[k]))
      && (forall i, j :: 0 <= i < j < |ready| ==> ready[i] != ready[j])
    }

    constructor ()
      ensures Valid() && entries == map[]
    {
      entries, ready := map[], [];
    }

    function EntryOf(k: Key): Entry
      reads this
    {
      if k in entries then entries[k] else NEW
    }

    /** Adding a key that is already to be handed out changes nothing; any other waits its turn. */
    method Mark(k: Key)
      requires Valid()
      modifies this
      ensures Valid() && entries == old(entries)[k := Marked(old(EntryOf(k)))] && old(ready) <= ready
    {
      var e := EntryOf(k);
      if !e.dirty && !e.processing {
        ready := ready + [k];
      }
      entries := entries[k := e.(dirty := true)];
    }

    method Add(k: Key)
      requires Valid()
      modifies this
      ensures Valid() && entries == old(entries)[k := Added(old(EntryOf(k)))] && old(ready) <= ready
    {
      var adds := EntryOf(k).adds;
      Mark(k);
      entries := entries[k := entries[k].(adds := adds + 1)];
    }

    method Fire(k: Key)
      requires Valid() && EntryOf(k).waiting
      modifies this
      ensures Valid() && entries == old(entries)[k := Fired(old(EntryOf(k)))] && old(ready) <= ready
    {
      Mark(k);
      entries := entries[k := entries[k].(waiting := false)];
    }

    method Get() returns (k: Key)
      requires Valid() && ready != []
      modifies this
      ensures Valid() && k == old(ready[0]) && Ready(old(EntryOf(k)))
      ensures entries == old(entries)[k := Taken(old(EntryOf(k)))] && ready == old(ready[1..])
    {
      k := ready[0];
      assert k in ready;
      assert forall x :: x in ready <==> x == k || x in ready[1..];
      entries := entries[k := entries[k].(dirty := false, processing := true, attempts := entries[k].attempts + 1)];
      ready := ready[1..];
    }

    method Forget(k: Key)
      requires Valid() && k in entries
      modifies this`entries
      ensures Valid() && entries == old(entries)[k := old(entries)[k].(requeues := 0)]
    {
      entries := entries[k := entries[k].(requeues := 0)];
    }

    method AddRateLimited(k: Key)
      requires Valid() && k in entries
      modifies this`entries
      ensures Valid()
      ensures entries == old(entries)[k := old(entries)[k].(waiting := true, requeues := old(entries)[k].requeues + 1)]
    {
      entries := entries[k := entries[k].(waiting := true, requeues := entries[k].requeues + 1)];
    }

    /** A key that was added while a worker had it is handed out again. */
    method Done(k: Key)
      requires Valid() && k in entries && entries[k].processing
      modifies this
      ensures Valid() && entries == old(entries)[k := old(entries)[k].(processing := false)] && old(ready) <= ready
    {
      entries := entries[k := entries[k].(processing := false)];
      if entries[k].dirty {
        ready := ready + [k];
      }
    }

    /** What processNextWorkItem does once reconcile has returned */
    method Settle(k: Key, failed: bool)
      requires Valid() && k in entries && entries[k].processing
      modifies this
      ensures Valid() && entries == old(entries)[k := Settled(old(entries)[k], failed)] && old(ready) <= ready
    {
      if !failed {
        Forget(k);
      } else if entries[k].requeues < MAX_RETRIES {
        AddRateLimited(k);
      } else {
        Forget(k);
      }
      Done(k);
    }
  }

  // ---- Runs of one key --------------------------------------------------------------------------

  datatype Event = Add | Fire | Get | Settle(failed: bool)

  function Next(e: Entry, event: Event): Option<Entry> {
    match event
    case Add => Some(Added(e))
    case Fire => if e.waiting then Some(Fired(e)) else None
    case Get => if Ready(e) then Some(Taken(e)) else None
    case Settle(failed) => if e.processing then Some(Settled(e, failed)) else None
  }

  function Run(e: Entry, events: seq<Event>): Option<Entry> {
    if events == [] then Some(e)
    else
      match Run(e, events[..|events| - 1])
      case None => None
      case Some(before) => Next(before, events[|events| - 1])
  }

  function Flag(b: bool): nat {
    if b then 1 else 0
  }

  /** In how many places the key is due: each came from one addition. */
  function Due(e: Entry): nat {
    Flag(e.dirty) + Flag(e.processing) + Flag(e.waiting)
  }

  /**
   * `over` counts the series of attempts that have ended, with a success or by giving up. Every
   * series ends one place where the key was due, and has at most one attempt more than retries.
   */
  ghost predicate Measured(e: Entry, over: nat) {
    && e.requeues <= MAX_RETRIES
    && over + Due(e) <= e.adds
    && e.attempts <= (MAX_RETRIES + 1) * over + e.requeues + Flag(e.processing)
    && (e.requeues > 0 ==> Due(e) > 0)
  }

  lemma NextMeasured(e: Entry, over: nat, event: Event) returns (over': nat)
    requires Measured(e, over) && Next(e, event).Some?
    ensures Measured(Next(e, event).value, over')
  {
    over' := over + if event.Settle? && !(event.failed && e.requeues < MAX_RETRIES) then 1 else 0;
  }

  lemma {:induction false} RunMeasured(events: seq<Event>) returns (over: nat)
    requires Run(NEW, events).Some?
    ensures Measured(Run(NEW, events).value, over)
  {
    if events == [] {
      over := 0;
    } else {
      var before := RunMeasured(events[..|events| - 1]);
      over := NextMeasured(Run(NEW, events[..|events| - 1]).value, before, events[|events| - 1]);
    }
  }

  /**
   * Bounded retries: however attempts fail and additions are merged, a key that was added E times
   * is attempted at most six times E times.
   */
  lemma AttemptsBounded(events: seq<Event>)
    requires Run(NEW, events).Some?
    ensures var e := Run(NEW, events).value; e.attempts <= 6 * e.adds
  {
    var over := RunMeasured(events);
  }

  /** Every step other than an addition belongs to an attempt, which has at most three. */
  lemma {:induction false} StepsCounted(events: seq<Event>)
    requires Run(NEW, events).Some?
    ensures var e := Run(NEW, events).value;
            |events| + Flag(e.processing) * 2 + Flag(e.waiting) <= e.adds + 3 * e.attempts
  {
    if events != [] {
      StepsCounted(events[..|events| - 1]);
    }
  }

  /** Finitely many additions always drain: no run of a key is longer than this. */
  lemma QueueDrains(events: seq<Event>)
    requires Run(NEW, events).Some?
    ensures |events| <= (3 * (MAX_RETRIES + 1) + 1) * Run(NEW, events).value.adds
  {
    AttemptsBounded(events);
    StepsCounted(events);
  }

  /** What no event other than an addition can wake */
  ghost predicate Resting(e: Entry) {
    forall event :: event != Add ==> Next(e, event).None?
  }

  /** Once nothing else is due, a key comes to rest exactly with a success or with the sixth failure in a row. */
  lemma RestsExactly(e: Entry, failed: bool)
    requires e.processing && !e.dirty && !e.waiting
    ensures Resting(Next(e, Settle(failed)).value) <==> !failed || e.requeues >= 5
    ensures Next(e, Settle(failed)).value.requeues == if !failed || e.requeues >= 5 then 0 else e.requeues + 1
  {
    var after := Next(e, Settle(failed)).value;
    assert after.waiting ==> Next(after, Fire).Some?;
  }

  lemma Then(e: Entry, events: seq<Event>, event: Event)
    requires Run(e, events).Some?
    ensures Run(e, events + [event]) == Next(Run(e, events).value, event)
  {
    assert (events + [event])[..|events + [event]| - 1] == events;
  }

  /** One failing attempt that is retried */
  lemma FailOnce(e: Entry, events: seq<Event>) returns (more: seq<Event>)
    requires Run(e, events).Some?
    requires var was := Run(e, events).value; was.dirty && !was.processing && !was.waiting && was.requeues < MAX_RETRIES
    ensures Run(e, more).Some?
    ensures var was := Run(e, events).value;
            Run(e, more).value == was.(requeues := was.requeues + 1, attempts := was.attempts + 1)
  {
    Then(e, events, Get);
    Then(e, events + [Get], Settle(true));
    Then(e, events + [Get] + [Settle(true)], Fire);
    more := events + [Get] + [Settle(true)] + [Fire];
  }

  lemma {:induction false} FailToTheEnd(e: Entry, events: seq<Event>) returns (more: seq<Event>)
    requires Run(e, events).Some?
    requires var was := Run(e, events).value; was.dirty && !was.processing && !was.waiting && was.requeues <= MAX_RETRIES
    ensures Run(e, more).Some?
    ensures var was := Run(e, events).value;
            Run(e, more).value == was.(dirty := false, requeues := 0, attempts := was.attempts + MAX_RETRIES + 1 - was.requeues)
    decreases MAX_RETRIES - Run(e, events).value.requeues
  {
    if Run(e, events).value.requeues < MAX_RETRIES {
      more := FailOnce(e, events);
      more := FailToTheEnd(e, more);
    } else {
      Then(e, events, Get);
      Then(e, events + [Get], Settle(true));
      more := events + [Get] + [Settle(true)];
    }
  }

  /** The bound is met: an object that always fails is attempted this often for every addition. */
  lemma {:induction false} BoundIsTight(adds: nat) returns (events: seq<Event>)
    ensures Run(NEW, events) == Some(NEW.(adds := adds, attempts := 6 * adds))
  {
    events := [];
    if adds > 0 {
      events := BoundIsTight(adds - 1);
      Then(NEW, events, Add);
      events := FailToTheEnd(NEW, events + [Add]);
    }
  }
}
