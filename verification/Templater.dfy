/** pkg/controller/templater.go: StatefulSet names and the check on rendered path templates. */
module Templater {
  import opened Wrappers
  import opened Strings
  import opened Decimal
  import opened Paths

  // ---- StatefulSet claim names --------------------------------------------------------

  datatype StatefulSetName = NotStateful | Stateful(claim: string, owner: string, index: string)

  /** The claim template and the workload, from what precedes the index */
  function SplitPrefix(prefix: string, index: string): StatefulSetName {
    var first := IndexOf(prefix, '-');
    if first <= 0 then Stateful(prefix, prefix, index)
    else Stateful(prefix[..first], prefix[first + 1..], index)
  }

  /** strconv.Atoi accepts the text */
  predicate IsIndex(index: string) {
    ParseInt(index).Some?
  }

  /** "<claimTemplate>-<statefulset>-<index>" */
  function ParseStatefulSetPVC(name: string): StatefulSetName {
    var last := LastIndexOf(name, '-');
    if last <= 0 || last == |name| - 1 then NotStateful
    else if !IsIndex(name[last + 1..]) then NotStateful
    else SplitPrefix(name[..last], name[last + 1..])
  }

  datatype TemplateContext =
    TemplateContext(ns: string, pvc: string, claimName: string, owner: string, index: string, storageClass: string)

  function ExtractTemplateContext(ns: string, pvc: string, storageClass: string): TemplateContext {
    match ParseStatefulSetPVC(pvc)
    case Stateful(claim, owner, index) => TemplateContext(ns, pvc, claim, owner, index, storageClass)
    case NotStateful => TemplateContext(ns, pvc, pvc, pvc, "", storageClass)
  }

  /** What a template is given for a StatefulSet's claim: the parts of its name */
  lemma ContextOfReplica(ns: string, claim: string, owner: string, index: string, storageClass: string)
    requires claim != "" && '-' !in claim && '-' !in index && IsIndex(index)
    ensures var name := claim + "-" + owner + "-" + index;
            ExtractTemplateContext(ns, name, storageClass) == TemplateContext(ns, name, claim, owner, index, storageClass)
  {
    StatefulSetRoundTrip(claim, owner, index);
  }

  /** And for any other claim: its whole name in both places, and no index */
  lemma ContextOfOther(ns: string, name: string, storageClass: string)
    requires ParseStatefulSetPVC(name).NotStateful?
    ensures ExtractTemplateContext(ns, name, storageClass) == TemplateContext(ns, name, name, name, "", storageClass)
  {
  }

  lemma ParseSuffix(prefix: string, index: string)
    requires prefix != "" && '-' !in index && IsIndex(index)
    ensures ParseStatefulSetPVC(prefix + "-" + index) == SplitPrefix(prefix, index)
  {
    var name := prefix + ['-'] + index;
    LastIndexOfAt(prefix, '-', index);
    assert LastIndexOf(name, '-') == |prefix| && index != "";
    CutOut(prefix, index);
    assert name == prefix + "-" + index;
  }

  lemma CutOut(prefix: string, index: string)
    ensures var name := prefix + ['-'] + index;
            name[|prefix| + 1..] == index && name[..|prefix|] == prefix && |name| == |prefix| + 1 + |index|
  {
  }

  /** The three parts come back, whatever hyphens the workload's own name holds. */
  lemma StatefulSetRoundTrip(claim: string, owner: string, index: string)
    requires claim != "" && '-' !in claim
    requires '-' !in index && IsIndex(index)
    ensures ParseStatefulSetPVC(claim + "-" + owner + "-" + index) == Stateful(claim, owner, index)
  {
    var prefix := claim + "-" + owner;
    ParseSuffix(prefix, index);
    IndexOfAt(claim, '-', owner);
    assert prefix[..|claim|] == claim && prefix[|claim| + 1..] == owner;
  }

  /** How a name must read to come out as the given parts. */
  predicate Reads(name: string, claim: string, owner: string, index: string) {
    || ('-' !in claim && name == claim + "-" + owner + "-" + index)
    || (owner == claim && ('-' !in claim || claim[0] == '-') && name == claim + "-" + index)
  }

  lemma PrefixReads(prefix: string, claim: string, owner: string, index: string)
    requires prefix != ""
    requires SplitPrefix(prefix, index) == Stateful(claim, owner, index)
    ensures claim != "" && Reads(prefix + "-" + index, claim, owner, index)
  {
    var first := IndexOf(prefix, '-');
    if first > 0 {
      assert prefix == prefix[..first] + "-" + prefix[first + 1..];
    }
  }

  lemma ReadsBack(name: string, claim: string, owner: string, index: string)
    requires claim != "" && '-' !in index && IsIndex(index) && Reads(name, claim, owner, index)
    ensures ParseStatefulSetPVC(name) == Stateful(claim, owner, index)
  {
    if '-' !in claim && name == claim + "-" + owner + "-" + index {
      StatefulSetRoundTrip(claim, owner, index);
    } else {
      ParseSuffix(claim, index);
      if '-' in claim {
        IndexOfAt("", '-', claim[1..]);
        assert "" + "-" + claim[1..] == claim;
      }
    }
  }

  lemma ParsedParts(name: string, claim: string, owner: string, index: string) returns (prefix: string)
    requires ParseStatefulSetPVC(name) == Stateful(claim, owner, index)
    ensures prefix != "" && '-' !in index && IsIndex(index)
    ensures name == prefix + "-" + index && SplitPrefix(prefix, index) == Stateful(claim, owner, index)
  {
    var last := LastIndexOf(name, '-');
    prefix := name[..last];
    CutAt(name, last);
  }

  lemma CutAt(name: string, i: nat)
    requires i < |name| && name[i] == '-'
    ensures name == name[..i] + "-" + name[i + 1..]
  {
  }

  lemma ParsedReads(name: string, claim: string, owner: string, index: string)
    requires ParseStatefulSetPVC(name) == Stateful(claim, owner, index)
    ensures claim != "" && '-' !in index && IsIndex(index) && Reads(name, claim, owner, index)
  {
    var prefix := ParsedParts(name, claim, owner, index);
    PrefixReads(prefix, claim, owner, index);
  }

  /** Exactly the names that parse, and what they parse to. */
  lemma StatefulSetParts(name: string, claim: string, owner: string, index: string)
    ensures ParseStatefulSetPVC(name) == Stateful(claim, owner, index) <==>
            claim != "" && '-' !in index && IsIndex(index) && Reads(name, claim, owner, index)
  {
    if ParseStatefulSetPVC(name) == Stateful(claim, owner, index) {
      ParsedReads(name, claim, owner, index);
    } else if claim != "" && '-' !in index && IsIndex(index) && Reads(name, claim, owner, index) {
      ReadsBack(name, claim, owner, index);
    }
  }

  /**
   * Parsing is not injective: "data-0" and "data-data-0" both read as claim "data" of
   * workload "data". These are the only collisions.
   */
  lemma StatefulSetCollisions(a: string, b: string)
    requires a != b && ParseStatefulSetPVC(a).Stateful?
    ensures ParseStatefulSetPVC(a) == ParseStatefulSetPVC(b) <==>
            var Stateful(claim, owner, index) := ParseStatefulSetPVC(a);
            && owner == claim && '-' !in claim
            && ((a == claim + "-" + index && b == claim + "-" + claim + "-" + index)
                || (b == claim + "-" + index && a == claim + "-" + claim + "-" + index))
  {
    var Stateful(claim, owner, index) := ParseStatefulSetPVC(a);
    StatefulSetParts(a, claim, owner, index);
    StatefulSetParts(b, claim, owner, index);
  }

  // ---- Rendered path templates --------------------------------------------------------

  datatype PathError = UnsafePath

  /** What EvaluatePathTemplate does with the rendered text */
  function EvaluatePathTemplate(rendered: string): Result<string, PathError> {
    var cleaned := Clean(TrimSet(rendered, {'/', ' '}));
    if HasPrefix(cleaned, "..") || Contains(cleaned, "/../") then Err(UnsafePath) else Ok(cleaned)
  }

  /** The default template, "{{ .Namespace }}/{{ .PVC }}" */
  function DefaultRendering(ctx: TemplateContext): string {
    ctx.ns + "/" + ctx.pvc
  }

  /** In a cleaned relative path ".." can only stand in front: the second test adds nothing. */
  lemma ClimbsOnlyInFront(stack: seq<string>)
    requires Normal(stack, false)
    ensures Contains(Render(stack, false), "/../") ==> HasPrefix(Render(stack, false), "..")
  {
    var s := Render(stack, false);
    if Contains(s, "/../") {
      var i :| 0 <= i <= |s| && "/../" <= s[i..];
      var a, b := s[..i], s[i + 4..];
      assert s == a + "/" + (".." + "/" + b);
      SplitAppend(a, ".." + "/" + b, '/');
      SplitAppend("..", b, '/');
      SplitNone("..", '/');
      assert stack != [] by {
        assert |s| >= 4;
      }
      RenderSplit(stack, false);
      assert stack[|Split(a, '/')|] == "..";
      JoinHead(stack);
    }
  }

  /** A template is accepted exactly when its cleaned text does not begin with two dots. */
  lemma TemplateAccepted(rendered: string)
    ensures EvaluatePathTemplate(rendered).Ok? <==> !HasPrefix(Clean(TrimSet(rendered, {'/', ' '})), "..")
  {
    var trimmed := TrimSet(rendered, {'/', ' '});
    TrimSetMeets(rendered, {'/', ' '});
    ComponentsNormal(trimmed);
    ClimbsOnlyInFront(Components(trimmed));
  }

  /** Whatever was rendered, an accepted path is contained and already clean. */
  lemma TemplateContainment(rendered: string)
    ensures match EvaluatePathTemplate(rendered)
            case Ok(p) => Contained(p) && Clean(p) == p && !Rooted(p)
            case Err(_) => true
  {
    var trimmed := TrimSet(rendered, {'/', ' '});
    TrimSetMeets(rendered, {'/', ' '});
    ComponentsNormal(trimmed);
    CleanIdempotent(trimmed);
    var stack := Components(trimmed);
    if EvaluatePathTemplate(rendered).Ok? && stack != [] {
      JoinHead(stack);
      RenderSplit(stack, false);
      assert stack[0] != "..";
    }
  }
}
