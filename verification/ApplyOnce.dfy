/**
 * One-shot authorisation over whole runs: how often a volume may be changed, against how often
 * its claim was annotated for it (pkg/controller/controller.go:848-852, 910-948).
 */
module ApplyOnce {
  import opened Wrappers
  import opened Claims

  /** A live pass in progress: what it read, and whether it has changed the volume yet */
  datatype LivePass = LivePass(requested: bool, authorised: bool, mutated: bool)

  datatype State = State(
    pvc: Claim,
    pass: Option<LivePass>,
    /** How often the apply annotation went from unset to set */
    sets: nat,
    /** How many passes have changed the volume */
    mutating: nat,
    /** How many authorised passes failed to remove the annotation, or were cut off before they could */
    unremoved: nat)

  /** The cluster's StorageClass, and whether passes read the claim from the API server */
  datatype Config = Config(sc: Option<StorageClass>, live: bool)

  datatype Event =
    | Annotate(annotations: map<string, string>)  // whoever owns the claim edits it
    | Begin(seen: map<string, string>)            // a pass starts from the annotations it sees
    | Mutate                                      // one of its commands changes the volume
    | RemoveApply(ok: bool)                       // it ends by removing the apply annotation, or failing to
    | GiveUp                                      // it ends without getting there
    | Crash

  predicate Asks(annotations: map<string, string>) {
    Lookup(annotations, ANN_APPLY) == "true"
  }

  function Next(c: Config, s: State, e: Event): Option<State> {
    match e
    case Annotate(annotations) =>
      Some(s.(pvc := s.pvc.(annotations := annotations),
              sets := s.sets + if !Asks(s.pvc.annotations) && Asks(annotations) then 1 else 0))
    case Begin(seen) =>
      if s.pass.Some? || (c.live && seen != s.pvc.annotations) then None
      else
        var read := s.pvc.(annotations := seen);
        Some(s.(pass := Some(LivePass(ApplyRequested(read), Authorised(read, c.sc), false))))
    case Mutate =>
      if s.pass.None? || !s.pass.value.authorised then None
      else
        Some(s.(pass := Some(s.pass.value.(mutated := true)),
                mutating := s.mutating + if s.pass.value.mutated then 0 else 1))
    case RemoveApply(ok) =>
      if s.pass.None? || !s.pass.value.requested then None
      else if ok then Some(s.(pass := None, pvc := s.pvc.(annotations := s.pvc.annotations - {ANN_APPLY})))
      else Some(s.(pass := None, unremoved := s.unremoved + if s.pass.value.authorised then 1 else 0))
    case GiveUp =>
      if s.pass.None? || (s.pass.value.requested && s.pass.value.mutated) then None
      else Some(s.(pass := None))
    case Crash =>
      Some(s.(pass := None, unremoved := s.unremoved + if s.pass.Some? && s.pass.value.authorised then 1 else 0))
  }

  function Run(c: Config, s: State, es: seq<Event>): Option<State> {
    if es == [] then Some(s)
    else
      match Run(c, s, es[..|es| - 1])
      case None => None
      case Some(before) => Next(c, before, es[|es| - 1])
  }

  predicate Initial(s: State) {
    s.pass.None? && s.sets == s.mutating == s.unremoved == 0 && !Asks(s.pvc.annotations)
  }

  /** The change that is paid for already: the running pass's, or the next one's. */
  function Credit(s: State): nat {
    if s.pass.Some? && s.pass.value.authorised then (if s.pass.value.mutated then 0 else 1)
    else if Asks(s.pvc.annotations) then 1
    else 0
  }

  ghost predicate Paid(s: State) {
    && s.mutating + Credit(s) <= s.sets + s.unremoved
    && (s.pass.Some? && s.pass.value.authorised ==> s.pass.value.requested)
  }

  lemma NextPaid(c: Config, s: State, e: Event)
    requires c.live && !AutoApply(c.sc) && Paid(s) && Next(c, s, e).Some?
    ensures Paid(Next(c, s, e).value)
  {
  }

  /**
   * One-shot authorisation: without autoApply, the passes that change a volume are at most as many
   * as the times it was annotated, plus the authorised passes that left the annotation in place.
   */
  lemma {:induction false} AppliesPaidFor(c: Config, s: State, es: seq<Event>)
    requires c.live && !AutoApply(c.sc) && Initial(s) && Run(c, s, es).Some?
    ensures Paid(Run(c, s, es).value)
    ensures var t := Run(c, s, es).value; t.mutating <= t.sets + t.unremoved
  {
    if es != [] {
      AppliesPaidFor(c, s, es[..|es| - 1]);
      NextPaid(c, Run(c, s, es[..|es| - 1]).value, es[|es| - 1]);
    }
  }

  lemma Then(c: Config, s: State, es: seq<Event>, e: Event) returns (t: State)
    requires Run(c, s, es).Some? && Next(c, Run(c, s, es).value, e).Some?
    ensures Run(c, s, es + [e]) == Some(t) && t == Next(c, Run(c, s, es).value, e).value
  {
    assert (es + [e])[..|es + [e]| - 1] == es;
    t := Next(c, Run(c, s, es).value, e).value;
  }

  /**
   * With a lister that lags behind, one annotation can pay for two changes: a second pass still
   * sees the annotation that the first one has removed.
   */
  lemma StaleReadAppliesTwice(c: Config, s: State, asking: map<string, string>) returns (es: seq<Event>)
    requires !c.live && Initial(s)
    requires Asks(asking) && Lookup(asking, ANN_DRY_RUN) != "true"
    ensures Run(c, s, es).Some?
    ensures var t := Run(c, s, es).value; t.mutating == 2 && t.sets == 1 && t.unremoved == 0
  {
    es := [];
    var t := Then(c, s, es, Annotate(asking));
    es := es + [Annotate(asking)];
    t := Then(c, s, es, Begin(asking));
    es := es + [Begin(asking)];
    t := Then(c, s, es, Mutate);
    es := es + [Mutate];
    t := Then(c, s, es, RemoveApply(true));
    es := es + [RemoveApply(true)];
    t := Then(c, s, es, Begin(asking));
    es := es + [Begin(asking)];
    t := Then(c, s, es, Mutate);
    es := es + [Mutate];
  }

  /** With autoApply no annotation is needed at all. */
  lemma AutoApplyUnpaid(c: Config, s: State) returns (es: seq<Event>)
    requires AutoApply(c.sc) && Initial(s) && Lookup(s.pvc.annotations, ANN_DRY_RUN) != "true"
    ensures Run(c, s, es).Some?
    ensures var t := Run(c, s, es).value; t.mutating == 1 && t.sets == 0 && t.unremoved == 0
  {
    es := [];
    var t := Then(c, s, es, Begin(s.pvc.annotations));
    es := es + [Begin(s.pvc.annotations)];
    t := Then(c, s, es, Mutate);
    es := es + [Mutate];
  }

  /** In every run the passes that change the volume are paid for. */
  ghost predicate AlwaysPaidFor(c: Config) {
    forall s, es :: Initial(s) && Run(c, s, es).Some? ==>
      var t := Run(c, s, es).value; t.mutating <= t.sets + t.unremoved
  }

  const NEW: State := State(Claim("", "", "", map[], None, None, false), None, 0, 0, 0)

  lemma NewIsInitial()
    ensures Initial(NEW) && Lookup(NEW.pvc.annotations, ANN_DRY_RUN) != "true"
  {
    assert |"true"| == 4;
  }

  lemma AskingAnnotations() returns (asking: map<string, string>)
    ensures Asks(asking) && Lookup(asking, ANN_DRY_RUN) != "true"
  {
    asking := map[ANN_APPLY := "true"];
    assert |ANN_DRY_RUN| != |ANN_APPLY|;
    assert |"true"| == 4;
  }

  /** One-shot authorisation holds of every run exactly when claims are read live and there is no autoApply. */
  lemma OneShotExactly(c: Config)
    ensures AlwaysPaidFor(c) <==> c.live && !AutoApply(c.sc)
  {
    NewIsInitial();
    if AutoApply(c.sc) {
      var es := AutoApplyUnpaid(c, NEW);
      assert Run(c, NEW, es).value.mutating == 1;
    } else if !c.live {
      var asking := AskingAnnotations();
      var es := StaleReadAppliesTwice(c, NEW, asking);
      assert Run(c, NEW, es).value.mutating == 2;
    } else {
      forall s, es | Initial(s) && Run(c, s, es).Some?
        ensures var t := Run(c, s, es).value; t.mutating <= t.sets + t.unremoved
      {
        AppliesPaidFor(c, s, es);
      }
    }
  }
}
