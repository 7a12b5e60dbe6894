/**
 * The protocol under the default template and the drivers' own quarantine names: exactly which
 * sets of claims every run is safe for (pkg/controller/templater.go:60-80; pkg/driver/zfs/zfs.go:407).
 */
module ProtocolDefaults {
  import opened Decimal
  import opened Naming
  import opened Subtrees
  import opened Protocol
  import opened ProtocolRuns
  import opened ProtocolSafety
  import ZfsDriver

  /** The dataset names claims get from the default template under one parent, by their namespaces and names */
  ghost predicate DefaultNames(c: Config, parentParam: string, ns: Uid -> string, name: Uid -> string) {
    forall u: Uid ::
      && ValidName(ns(u)) && ValidName(name(u)) && ClaimPath(ns(u), name(u)).Ok?
      && c.name(u) == DatasetName(parentParam, ClaimPath(ns(u), name(u)).value)
  }

  /** Volumes are preserved under the names the drivers give them. */
  ghost predicate DriverQuarantines(c: Config) {
    forall u: Uid, at: nat :: c.quarantine(u, at) == ZfsDriver.QuarantineName(c.name(u), at)
  }

  /** No node takes up a claim made anew under the namespace and name of an earlier one. */
  ghost predicate NeverRecreated(c: Config, ns: Uid -> string, name: Uid -> string) {
    forall n: Node, u: Uid, v: Uid :: u != v && c.takes(n, u) && c.takes(n, v) ==> (ns(u), name(u)) != (ns(v), name(v))
  }

  /** Claim v is named as u's quarantine would be. */
  predicate Poses(ns: Uid -> string, name: Uid -> string, u: Uid, v: Uid, at: nat) {
    ns(u) == ns(v) && name(v) == ZfsDriver.QuarantineName(name(u), at)
  }

  /** No claim is named as another one's quarantine would be, unless it adopts what it finds. */
  ghost predicate NeverPosing(c: Config, ns: Uid -> string, name: Uid -> string) {
    forall n: Node, u: Uid, v: Uid, at: nat ::
      u != v && c.takes(n, u) && c.takes(n, v) && Poses(ns, name, u, v, at) ==> c.adopts(v)
  }

  lemma {:induction false} FormatNatPlain(n: nat)
    ensures '/' !in FormatNat(n)
  {
    assert forall c :: c in FormatNat(n) ==> '0' <= c <= '9';
  }

  lemma QuarantineBehind(head: string, ns: string, name: string, at: nat)
    ensures ZfsDriver.QuarantineName(head + (ns + "/" + name), at) == head + (ns + "/" + ZfsDriver.QuarantineName(name, at))
  {
  }

  lemma NameOf(c: Config, parentParam: string, ns: Uid -> string, name: Uid -> string, u: Uid)
    requires DefaultNames(c, parentParam, ns, name)
    ensures c.name(u) == DatasetHead(parentParam) + (ns(u) + "/" + name(u))
    ensures '/' !in ns(u) && '/' !in name(u)
  {
    ClaimPathIs(ns(u), name(u));
    DatasetNameHead(parentParam, ns(u) + "/" + name(u));
    ValidNameOrdinary(ns(u));
    ValidNameOrdinary(name(u));
  }

  lemma QuarantineOf(c: Config, parentParam: string, ns: Uid -> string, name: Uid -> string, u: Uid, at: nat)
    requires DefaultNames(c, parentParam, ns, name) && DriverQuarantines(c)
    ensures c.quarantine(u, at) == DatasetHead(parentParam) + (ns(u) + "/" + ZfsDriver.QuarantineName(name(u), at))
    ensures '/' !in ZfsDriver.QuarantineName(name(u), at)
  {
    NameOf(c, parentParam, ns, name, u);
    QuarantineBehind(DatasetHead(parentParam), ns(u), name(u), at);
    FormatNatPlain(at);
    assert c.quarantine(u, at) == ZfsDriver.QuarantineName(c.name(u), at);
  }

  /** Under the default template a claim is in the way of a quarantine only when it bears its very name. */
  lemma InTheWayIs(c: Config, parentParam: string, ns: Uid -> string, name: Uid -> string, u: Uid, v: Uid, at: nat)
    requires DefaultNames(c, parentParam, ns, name) && DriverQuarantines(c)
    ensures InTheWay(c, u, v, at) <==> Poses(ns, name, u, v, at)
  {
    var head, to := DatasetHead(parentParam), ZfsDriver.QuarantineName(name(u), at);
    NameOf(c, parentParam, ns, name, u);
    NameOf(c, parentParam, ns, name, v);
    QuarantineOf(c, parentParam, ns, name, u, at);
    assert |to| > |name(u)|;
    TwoLevelsApart(head, ns(u), to, ns(u), name(u));
    TwoLevelsApart(head, ns(u), name(u), ns(u), to);
    if !(ns(u) == ns(v) && name(v) == to) {
      TwoLevelsApart(head, ns(u), to, ns(v), name(v));
    }
  }

  lemma DefaultApart(c: Config, parentParam: string, ns: Uid -> string, name: Uid -> string, u: Uid, v: Uid)
    requires DefaultNames(c, parentParam, ns, name)
    ensures if (ns(u), name(u)) == (ns(v), name(v)) then c.name(u) == c.name(v) else !AtOrBelow(c.name(u), c.name(v))
  {
    if (ns(u), name(u)) != (ns(v), name(v)) {
      ClaimsApart(parentParam, "", ns(u), name(u), ns(v), name(v));
    }
  }

  lemma DefaultsAreApart(c: Config, parentParam: string, ns: Uid -> string, name: Uid -> string)
    requires DefaultNames(c, parentParam, ns, name) && DriverQuarantines(c)
    ensures Apart(c) <==> NeverRecreated(c, ns, name)
  {
    forall u: Uid, v: Uid
      ensures if (ns(u), name(u)) == (ns(v), name(v)) then c.name(u) == c.name(v) else !AtOrBelow(c.name(u), c.name(v))
    {
      DefaultApart(c, parentParam, ns, name, u, v);
    }
  }

  lemma DefaultPosers(c: Config, parentParam: string, ns: Uid -> string, name: Uid -> string)
    requires DefaultNames(c, parentParam, ns, name) && DriverQuarantines(c)
    ensures PosersAdopt(c) <==> NeverPosing(c, ns, name)
  {
    forall u: Uid, v: Uid, at: nat
      ensures InTheWay(c, u, v, at) <==> Poses(ns, name, u, v, at)
    {
      InTheWayIs(c, parentParam, ns, name, u, v, at);
    }
  }

  /**
   * Under the default template every run is safe exactly as long as the system is sound, no node
   * takes up a claim made anew under the namespace and name of an earlier one, none that does not
   * adopt is named as another's quarantine, if any record asks for preservation, and datasets are
   * seen or adopted whatever they hold.
   */
  lemma DefaultTemplateSafeExactly(c: Config, parentParam: string, ns: Uid -> string, name: Uid -> string)
    requires DefaultNames(c, parentParam, ns, name) && DriverQuarantines(c)
    ensures AlwaysSafe(c) <==>
            && NeverRecreated(c, ns, name) && (c.preserving ==> NeverPosing(c, ns, name))
            && (Used(c) ==> Sound(c)) && (c.blind ==> AllAdopt(c))
  {
    DefaultsAreApart(c, parentParam, ns, name);
    DefaultPosers(c, parentParam, ns, name);
    SafeExactly(c);
  }
}
