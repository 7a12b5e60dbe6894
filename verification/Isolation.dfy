/**
 * Which volumes lie inside which when the default template is not in use: under the template the
 * repository gives as its example (README.md:143), and with the annotation that overrides the
 * template (pkg/controller/controller.go:461-485; pkg/controller/templater.go:60-81).
 */
module Isolation {
  import opened Wrappers
  import opened Strings
  import opened Decimal
  import opened Paths
  import opened Subtrees
  import opened Templater
  import opened Naming

  predicate SlashFree(parts: seq<string>) {
    forall p :: p in parts ==> '/' !in p
  }

  /** One path contains another exactly when its levels are a prefix of the other's. */
  lemma JoinPrefix(a: seq<string>, b: seq<string>)
    requires a != [] && b != [] && SlashFree(a) && SlashFree(b)
    ensures AtOrBelow(Join(a, '/'), Join(b, '/')) <==> a <= b
  {
    if a <= b {
      PrefixJoined(a, b);
    }
    if AtOrBelow(Join(a, '/'), Join(b, '/')) {
      JoinedPrefix(a, b);
    }
  }

  lemma PrefixJoined(a: seq<string>, b: seq<string>)
    requires a != [] && a <= b
    ensures AtOrBelow(Join(a, '/'), Join(b, '/'))
  {
    if a != b {
      assert b == a + b[|a|..];
      JoinAppend(a, b[|a|..], '/');
    }
  }

  lemma JoinedPrefix(a: seq<string>, b: seq<string>)
    requires a != [] && b != [] && SlashFree(a) && SlashFree(b)
    requires AtOrBelow(Join(a, '/'), Join(b, '/'))
    ensures a <= b
  {
    var ja, jb := Join(a, '/'), Join(b, '/');
    SplitJoin(a, '/');
    SplitJoin(b, '/');
    if ja != jb {
      var rest := jb[|ja| + 1..];
      assert jb == ja + ['/'] + rest;
      SplitAppend(ja, rest, '/');
    }
  }

  // ---- The example template -----------------------------------------------------------------------

  /** "namespace/owner/index" for a StatefulSet's claim, "namespace/claim" for any other */
  function ExampleRendering(ctx: TemplateContext): string {
    ctx.ns + "/" + if ctx.index != "" then ctx.owner + "/" + ctx.index else ctx.pvc
  }

  function ExamplePath(ns: string, name: string): Result<string, PathError> {
    EvaluatePathTemplate(ExampleRendering(ExtractTemplateContext(ns, name, "")))
  }

  /** What is rendered, level by level */
  function RenderedLevels(ns: string, name: string): (levels: seq<string>)
    ensures levels != []
  {
    match ParseStatefulSetPVC(name)
    case NotStateful => [ns, name]
    case Stateful(_, owner, index) => [ns, owner, index]
  }

  lemma PartsAreOfTheName(name: string)
    ensures match ParseStatefulSetPVC(name)
            case NotStateful => true
            case Stateful(_, owner, index) =>
              index != "" && IsIndex(index) && (forall c :: c in owner + index ==> c in name)
  {
    var last := LastIndexOf(name, '-');
    if ParseStatefulSetPVC(name).Stateful? {
      var prefix := name[..last];
      assert forall c :: c in prefix ==> c in name;
      assert forall c :: c in name[last + 1..] ==> c in name;
    }
  }

  lemma JoinTwo(a: string, b: string)
    ensures Join([a, b], '/') == a + "/" + b
  {
    assert [a, b][1..] == [b];
    assert Join([b], '/') == b;
  }

  lemma JoinThree(a: string, b: string, c: string)
    ensures Join([a, b, c], '/') == a + "/" + (b + "/" + c)
  {
    assert [a, b, c][1..] == [b, c];
    JoinTwo(b, c);
  }

  lemma RenderingOfLevels(ns: string, name: string)
    ensures ExampleRendering(ExtractTemplateContext(ns, name, "")) == Join(RenderedLevels(ns, name), '/')
  {
    match ParseStatefulSetPVC(name)
    case NotStateful => JoinTwo(ns, name);
    case Stateful(_, owner, index) =>
      PartsAreOfTheName(name);
      JoinThree(ns, owner, index);
  }

  lemma LevelsSlashFree(ns: string, name: string)
    requires '/' !in ns && '/' !in name
    ensures SlashFree(RenderedLevels(ns, name))
  {
    PartsAreOfTheName(name);
    if ParseStatefulSetPVC(name).Stateful? {
      var s := ParseStatefulSetPVC(name);
      assert forall c :: c in s.owner ==> c in s.owner + s.index;
      assert forall c :: c in s.index ==> c in s.owner + s.index;
    }
  }

  /**
   * Isolation under the example template, as rendered: one claim's path contains another's exactly
   * when they share the namespace and are replicas with the same owner and index, or the first is
   * a plain claim named like the second's owner, or both are the same plain claim.
   */
  lemma RenderedContainsExactly(ns: string, name: string, ns': string, name': string)
    requires '/' !in ns && '/' !in name && '/' !in ns' && '/' !in name'
    ensures AtOrBelow(ExampleRendering(ExtractTemplateContext(ns, name, "")),
                      ExampleRendering(ExtractTemplateContext(ns', name', "")))
            <==>
            ns == ns' &&
            match (ParseStatefulSetPVC(name), ParseStatefulSetPVC(name'))
            case (Stateful(_, owner, index), Stateful(_, owner', index')) => owner == owner' && index == index'
            case (NotStateful, Stateful(_, owner', _)) => name == owner'
            case (NotStateful, NotStateful) => name == name'
            case (Stateful(_, _, _), NotStateful) => false
  {
    RenderingOfLevels(ns, name);
    RenderingOfLevels(ns', name');
    LevelsSlashFree(ns, name);
    LevelsSlashFree(ns', name');
    JoinPrefix(RenderedLevels(ns, name), RenderedLevels(ns', name'));
    PrefixLevels(ns, name, ns', name');
  }

  lemma PrefixLevels(ns: string, name: string, ns': string, name': string)
    ensures RenderedLevels(ns, name) <= RenderedLevels(ns', name') <==>
            ns == ns' &&
            match (ParseStatefulSetPVC(name), ParseStatefulSetPVC(name'))
            case (Stateful(_, owner, index), Stateful(_, owner', index')) => owner == owner' && index == index'
            case (NotStateful, Stateful(_, owner', _)) => name == owner'
            case (NotStateful, NotStateful) => name == name'
            case (Stateful(_, _, _), NotStateful) => false
  {
    var a, b := RenderedLevels(ns, name), RenderedLevels(ns', name');
    if a <= b {
      assert a[0] == b[0] && a[1] == b[1];
      assert |a| == 3 ==> a[2] == b[2];
    }
  }

  /** What cleaning leaves of a replica's levels: an owner that reads "", as that of "data--0" does, goes. */
  function CleanedLevels(ns: string, owner: string, index: string): (levels: seq<string>)
    ensures levels != []
  {
    if owner == "" then [ns, index] else [ns, owner, index]
  }

  function ExampleLevels(ns: string, name: string): (levels: seq<string>)
    ensures levels != []
  {
    match ParseStatefulSetPVC(name)
    case NotStateful => [ns, name]
    case Stateful(_, owner, index) => CleanedLevels(ns, owner, index)
  }

  lemma CleanedOrdinary(ns: string, owner: string, index: string)
    requires Ordinary(ns) && ns[0] != '.' && Ordinary(index) && (owner != "" ==> Ordinary(owner))
    ensures forall l :: l in CleanedLevels(ns, owner, index) ==> Ordinary(l)
    ensures var first := CleanedLevels(ns, owner, index)[0]; first != "" && first[0] != '.'
  {
  }

  lemma IndexIsOrdinary(index: string)
    requires IsIndex(index) && '/' !in index
    ensures Ordinary(index) && index[0] != '.'
  {
    assert index[0] != '-' && index[0] != '+' ==> IsDigit(index[0], 10);
  }

  /** No label of a valid name is "." or "..", and so no owner is. */
  lemma OwnerBegins(name: string)
    requires ValidName(name) && ParseStatefulSetPVC(name).Stateful?
    ensures var owner := ParseStatefulSetPVC(name).owner; owner != "" ==> owner[0] != '.'
  {
    var Stateful(claim, owner, index) := ParseStatefulSetPVC(name);
    var prefix := ParsedParts(name, claim, owner, index);
    var first := IndexOf(prefix, '-');
    if first > 0 && owner != "" {
      assert name[first] == '-' && owner[0] == prefix[first + 1] == name[first + 1];
    } else {
      assert name[0] == prefix[0];
    }
  }

  lemma OwnerAndIndex(name: string)
    requires ValidName(name) && ParseStatefulSetPVC(name).Stateful?
    ensures var s := ParseStatefulSetPVC(name); (s.owner != "" ==> Ordinary(s.owner)) && Ordinary(s.index)
  {
    var s := ParseStatefulSetPVC(name);
    ValidNameOrdinary(name);
    PartsAreOfTheName(name);
    OwnerBegins(name);
    assert forall c :: c in s.owner ==> c in s.owner + s.index;
    assert forall c :: c in s.index ==> c in s.owner + s.index;
    IndexIsOrdinary(s.index);
  }

  lemma LevelsOrdinary(ns: string, name: string)
    requires ValidName(ns) && ValidName(name)
    ensures forall l :: l in ExampleLevels(ns, name) ==> Ordinary(l)
    ensures var first := ExampleLevels(ns, name)[0]; first != "" && first[0] != '.'
  {
    ValidNameOrdinary(ns);
    ValidNameOrdinary(name);
    match ParseStatefulSetPVC(name)
    case NotStateful =>
    case Stateful(_, owner, index) =>
      OwnerAndIndex(name);
      CleanedOrdinary(ns, owner, index);
  }

  lemma WalkOne(stack: seq<string>, c: string, rooted: bool)
    ensures Walk(stack, [c], rooted) == Step(stack, c, rooted)
  {
    assert [c][1..] == [];
  }

  lemma WalkTwo(a: string, b: string)
    ensures Walk([], [a, b], false) == Step(Step([], a, false), b, false)
  {
    var s := [a, b];
    assert s[1..] == [b];
    WalkOne(Step([], a, false), b, false);
  }

  lemma WalkThree(a: string, b: string, c: string)
    ensures Walk([], [a, b, c], false) == Step(Step(Step([], a, false), b, false), c, false)
  {
    assert [a, b, c] == [a, b] + [c];
    WalkTwo(a, b);
    WalkAppend([], [a, b], [c], false);
    WalkOne(Walk([], [a, b], false), c, false);
  }

  lemma WalkReplica(ns: string, owner: string, index: string)
    requires Ordinary(ns) && Ordinary(index) && (owner != "" ==> Ordinary(owner))
    ensures Walk([], [ns, owner, index], false) == CleanedLevels(ns, owner, index)
  {
    WalkThree(ns, owner, index);
  }

  lemma WalkLevels(ns: string, name: string)
    requires ValidName(ns) && ValidName(name)
    ensures Walk([], RenderedLevels(ns, name), false) == ExampleLevels(ns, name)
  {
    ValidNameOrdinary(ns);
    ValidNameOrdinary(name);
    match ParseStatefulSetPVC(name)
    case NotStateful => WalkTwo(ns, name);
    case Stateful(_, owner, index) =>
      OwnerAndIndex(name);
      WalkReplica(ns, owner, index);
  }

  lemma ExampleCleaned(ns: string, name: string)
    requires ValidName(ns) && ValidName(name)
    ensures var rendered := Join(RenderedLevels(ns, name), '/');
            TrimSet(rendered, {'/', ' '}) == rendered && Clean(rendered) == Join(ExampleLevels(ns, name), '/')
  {
    var levels := RenderedLevels(ns, name);
    var rendered := Join(levels, '/');
    ValidNameOrdinary(ns);
    ValidNameOrdinary(name);
    LevelsSlashFree(ns, name);
    SplitJoin(levels, '/');
    WalkLevels(ns, name);
    RenderedEnds(ns, name);
    TrimSetMeets(rendered, {'/', ' '});
  }

  lemma RenderedEnds(ns: string, name: string)
    requires ValidName(ns) && ValidName(name)
    ensures var rendered := Join(RenderedLevels(ns, name), '/');
            && rendered != "" && rendered[0] != '/' && rendered[0] != ' '
            && rendered[|rendered| - 1] != '/' && rendered[|rendered| - 1] != ' '
  {
    ValidNameOrdinary(ns);
    ValidNameOrdinary(name);
    match ParseStatefulSetPVC(name)
    case NotStateful => JoinTwo(ns, name);
    case Stateful(_, owner, index) =>
      PartsAreOfTheName(name);
      JoinThree(ns, owner, index);
      assert index[|index| - 1] in owner + index;
  }

  /** Valid claims are always given a path under the example template: their levels after cleaning. */
  lemma ExamplePathIs(ns: string, name: string)
    requires ValidName(ns) && ValidName(name)
    ensures ExamplePath(ns, name) == Ok(Join(ExampleLevels(ns, name), '/'))
  {
    RenderingOfLevels(ns, name);
    ExampleCleaned(ns, name);
    LevelsOrdinary(ns, name);
    var levels := ExampleLevels(ns, name);
    JoinHead(levels);
    assert Join(levels, '/')[0] == levels[0][0];
    TemplateAccepted(Join(RenderedLevels(ns, name), '/'));
  }

  lemma HeadAside(head: string, a: string, b: string)
    ensures AtOrBelow(head + a, head + b) <==> AtOrBelow(a, b)
  {
    assert (head + a) + "/" == head + (a + "/");
    if a + "/" <= b {
      assert b == (a + "/") + b[|a| + 1..];
      assert head + b == head + (a + "/") + b[|a| + 1..];
    }
    if head + (a + "/") <= head + b {
      assert (head + b)[|head|..] == b;
      assert (head + b)[..|head| + |a| + 1] == head + (a + "/");
      assert b[..|a| + 1] == a + "/";
    }
    if head + a == head + b {
      assert (head + a)[|head|..] == (head + b)[|head|..];
    }
  }

  /**
   * Isolation under the example template, for the datasets and the mount paths that claims are
   * actually given: one contains another exactly when the first claim's levels are a prefix of the
   * second's.
   */
  lemma ExampleContainsExactly(parentParam: string, prefixParam: string, ns: string, name: string, ns': string, name': string)
    requires ValidName(ns) && ValidName(name) && ValidName(ns') && ValidName(name')
    ensures ExamplePath(ns, name).Ok? && ExamplePath(ns', name').Ok?
    ensures var rel, rel' := ExamplePath(ns, name).value, ExamplePath(ns', name').value;
            var inside := ExampleLevels(ns, name) <= ExampleLevels(ns', name');
            && (AtOrBelow(DatasetName(parentParam, rel), DatasetName(parentParam, rel')) <==> inside)
            && (TrimSuffix(prefixParam, '/') != "" ==>
                  (AtOrBelow(MountPath(prefixParam, rel), MountPath(prefixParam, rel')) <==> inside))
  {
    ExamplePathIs(ns, name);
    ExamplePathIs(ns', name');
    LevelsOrdinary(ns, name);
    LevelsOrdinary(ns', name');
    JoinPrefix(ExampleLevels(ns, name), ExampleLevels(ns', name'));
    var a, b := ExamplePath(ns, name).value, ExamplePath(ns', name').value;
    DatasetNameHead(parentParam, a);
    DatasetNameHead(parentParam, b);
    HeadAside(DatasetHead(parentParam), a, b);
    if TrimSuffix(prefixParam, '/') != "" {
      MountPathBehind(prefixParam, ExampleLevels(ns, name));
      MountPathBehind(prefixParam, ExampleLevels(ns', name'));
      HeadAside(MountHead(prefixParam), a, b);
    }
  }

  /** The volumes of one replica, of any two claim templates, are given one dataset and one mount path. */
  lemma ReplicasCollide(parentParam: string, prefixParam: string, ns: string,
                        claim: string, claim': string, owner: string, index: string)
    requires ValidName(ns) && ValidName(claim + "-" + owner + "-" + index) && ValidName(claim' + "-" + owner + "-" + index)
    requires claim != "" && '-' !in claim && claim' != "" && '-' !in claim' && '-' !in index && IsIndex(index)
    ensures var p := ExamplePath(ns, claim + "-" + owner + "-" + index);
            var p' := ExamplePath(ns, claim' + "-" + owner + "-" + index);
            && p == p' && p.Ok?
            && DatasetName(parentParam, p.value) == DatasetName(parentParam, p'.value)
            && MountPath(prefixParam, p.value) == MountPath(prefixParam, p'.value)
  {
    StatefulSetRoundTrip(claim, owner, index);
    StatefulSetRoundTrip(claim', owner, index);
    ExamplePathIs(ns, claim + "-" + owner + "-" + index);
    ExamplePathIs(ns, claim' + "-" + owner + "-" + index);
  }

  lemma ZeroIsAnIndex()
    ensures IsIndex("0") && '-' !in "0"
  {
    ParseFormatInt(0);
    assert FormatInt(0) == "0";
  }

  lemma ReplicaName(claim: string)
    requires |claim| == 1 && IsLowerAlnum(claim[0])
    ensures var name := claim + "-" + "r" + "-" + "0"; ValidName(name) && name[0] == claim[0]
  {
    var name := claim + "-" + "r" + "-" + "0";
    assert |name| == 5 && name[0] == claim[0] && name[1] == '-' && name[2] == 'r' && name[3] == '-' && name[4] == '0';
  }

  /** Such claims are "a-r-0" and "b-r-0". */
  lemma TwoReplicasCollide(parentParam: string, prefixParam: string, ns: string)
    requires ValidName(ns)
    ensures var a, b := "a" + "-" + "r" + "-" + "0", "b" + "-" + "r" + "-" + "0";
            && ValidName(a) && ValidName(b) && a != b && ExamplePath(ns, a) == ExamplePath(ns, b)
  {
    ZeroIsAnIndex();
    ReplicaName("a");
    ReplicaName("b");
    ReplicasCollide(parentParam, prefixParam, ns, "a", "b", "r", "0");
  }

  // ---- The override annotation ----------------------------------------------------------------------

  /** How many levels a relative path climbs before it goes down */
  function Ups(stack: seq<string>): (k: nat)
    ensures k <= |stack| && (forall i :: 0 <= i < k ==> stack[i] == "..") && (k < |stack| ==> stack[k] != "..")
  {
    if stack != [] && stack[0] == ".." then
      assert forall i :: 0 < i < |stack| ==> stack[i] == stack[1..][i - 1];
      1 + Ups(stack[1..])
    else 0
  }

  lemma UpsIs(stack: seq<string>, k: nat)
    requires k <= |stack| && (forall i :: 0 <= i < k ==> stack[i] == "..") && (k < |stack| ==> stack[k] != "..")
    ensures Ups(stack) == k
  {
  }

  /** What is left of a rooted path after climbing k levels; the root stays where it is. */
  function Climbed(top: seq<string>, k: nat): seq<string> {
    if k <= |top| then top[..|top| - k] else []
  }

  /** Where a relative path leads from a rooted one */
  function Descended(top: seq<string>, down: seq<string>): seq<string> {
    Climbed(top, Ups(down)) + down[Ups(down)..]
  }

  lemma StepBack(top: seq<string>, down: seq<string>)
    requires Normal(top, true) && Normal(down, false) && down != [] && down[|down| - 1] != ".."
    ensures Step(Descended(top, down), "..", true) == Descended(top, down[..|down| - 1])
  {
    var k, init := Ups(down), down[..|down| - 1];
    UpsIs(init, k);
    assert Descended(top, down) == Descended(top, init) + [down[|down| - 1]];
  }

  lemma StepUp(top: seq<string>, down: seq<string>)
    requires Normal(top, true) && Normal(down, false) && (down == [] || down[|down| - 1] == "..")
    ensures Step(Descended(top, down), "..", true) == Descended(top, down + [".."])
  {
    var k := Ups(down);
    assert k == |down|;
    UpsIs(down + [".."], k + 1);
    assert Descended(top, down) == Climbed(top, k);
    assert Descended(top, down + [".."]) == Climbed(top, k + 1);
    if k < |top| {
      assert Climbed(top, k)[|top| - k - 1] == top[|top| - k - 1];
      assert Climbed(top, k)[..|top| - k - 1] == Climbed(top, k + 1);
    }
  }

  lemma StepDown(top: seq<string>, down: seq<string>, c: string)
    requires c != ".."
    ensures Descended(top, down + [c]) == Descended(top, down) + [c]
  {
    UpsIs(down + [c], Ups(down));
    assert (down + [c])[Ups(down)..] == down[Ups(down)..] + [c];
  }

  /** One more component, walked from a rooted path and on its own */
  lemma StepRelative(top: seq<string>, down: seq<string>, c: string)
    requires Normal(top, true) && Normal(down, false)
    ensures Step(Descended(top, down), c, true) == Descended(top, Step(down, c, false))
  {
    if c == "" || c == "." {
    } else if c == ".." {
      if down != [] && down[|down| - 1] != ".." {
        StepBack(top, down);
      } else {
        StepUp(top, down);
      }
    } else {
      StepDown(top, down, c);
    }
  }

  /** Walking on from a rooted path: climb as often as the relative path does, then go down its way. */
  lemma {:induction false} WalkRelative(top: seq<string>, parts: seq<string>)
    requires Normal(top, true) && SlashFree(parts)
    ensures var down := Walk([], parts, false);
            Normal(down, false) && Walk(top, parts, true) == Descended(top, down)
  {
    if parts == [] {
      assert top + [] == top;
    } else {
      var init, c := parts[..|parts| - 1], parts[|parts| - 1];
      assert parts == init + [c] && c in parts;
      WalkRelative(top, init);
      WalkNormal([], parts, false);
      WalkAppend(top, init, [c], true);
      WalkAppend([], init, [c], false);
      WalkOne(Walk(top, init, true), c, true);
      WalkOne(Walk([], init, false), c, false);
      StepRelative(top, Walk([], init, false), c);
    }
  }

  lemma RootedPrefix(a: seq<string>, b: seq<string>)
    requires a != [] && Normal(a, true) && Normal(b, true)
    ensures AtOrBelow(Render(a, true), Render(b, true)) <==> a <= b
  {
    assert forall p :: p in a || p in b ==> '/' !in p;
    HeadAside("/", Join(a, '/'), Join(b, '/'));
    if b == [] {
      JoinTail(a);
      assert Render(a, true) == "/" + Join(a, '/');
    } else {
      JoinPrefix(a, b);
    }
  }

  lemma PrefixBehind(kept: seq<string>, a: seq<string>, b: seq<string>)
    ensures kept + a <= kept + b <==> a <= b
  {
    if kept + a <= kept + b {
      assert b[..|a|] == (kept + b)[|kept|..|kept| + |a|];
      assert a == (kept + a)[|kept|..|kept| + |a|];
    }
    if a <= b {
      assert kept + b == kept + a + b[|a|..];
    }
  }

  /** Where a path, joined to a cleaned absolute prefix, leads */
  lemma MountedAt(prefixParam: string, rel: string)
    requires Rooted(prefixParam) && Clean(prefixParam) == prefixParam && prefixParam != "/" && rel != ""
    ensures var top, down := Components(prefixParam), Walk([], Split(rel, '/'), false);
            && top != [] && Normal(top, true) && Normal(Descended(top, down), true)
            && prefixParam == Render(top, true)
            && MountPath(prefixParam, rel) == Render(Descended(top, down), true)
  {
    ComponentsNormal(prefixParam);
    var top := Components(prefixParam);
    assert top != [];
    NoTrailingSlash(top);
    assert TrimSuffix(prefixParam, '/') == prefixParam;
    JoinComponents(prefixParam, rel);
    SplitParts(rel, '/');
    WalkRelative(top, Split(rel, '/'));
    WalkNormal(top, Split(rel, '/'), true);
  }

  lemma DescendedBelow(top: seq<string>, down: seq<string>)
    requires top != [] && Normal(top, true) && Normal(Descended(top, down), true)
    ensures AtOrBelow(Render(top, true), Render(Descended(top, down), true)) <==>
            top[|Climbed(top, Ups(down))|..] <= down[Ups(down)..]
  {
    var kept, rest := Climbed(top, Ups(down)), down[Ups(down)..];
    RootedPrefix(top, kept + rest);
    assert top == kept + top[|kept|..];
    PrefixBehind(kept, top[|kept|..], rest);
  }

  /**
   * The path a claim asks for by annotation is not checked: it stays at or below a cleaned absolute
   * mount prefix exactly when, after climbing out of some levels of the prefix, it goes down
   * through those very levels again.
   */
  lemma OverrideContainedExactly(prefixParam: string, rel: string)
    requires Rooted(prefixParam) && Clean(prefixParam) == prefixParam && prefixParam != "/" && rel != ""
    ensures var top, down := Components(prefixParam), Walk([], Split(rel, '/'), false);
            AtOrBelow(prefixParam, MountPath(prefixParam, rel)) <==>
            top[|Climbed(top, Ups(down))|..] <= down[Ups(down)..]
  {
    MountedAt(prefixParam, rel);
    DescendedBelow(Components(prefixParam), Walk([], Split(rel, '/'), false));
  }

  lemma SplitMountPrefix()
    ensures Components("/mnt") == ["mnt"] && Clean("/mnt") == "/mnt"
  {
    var mnt := "mnt";
    SplitAppend("", mnt, '/');
    SplitNone("", '/');
    SplitNone(mnt, '/');
    assert "" + ['/'] + mnt == "/mnt" && Split("/mnt", '/') == ["", mnt];
    assert ["", mnt][1..] == [mnt];
    WalkOne([], mnt, true);
  }

  lemma WalkUp()
    ensures Walk([], Split("../x", '/'), false) == ["..", "x"]
  {
    var up, x := "..", "x";
    SplitAppend(up, x, '/');
    SplitNone(up, '/');
    SplitNone(x, '/');
    assert up + ['/'] + x == "../x" && Split("../x", '/') == [up, x];
    WalkTwo(up, x);
  }

  /** The annotation "../x" leads out of "/mnt". */
  lemma OverrideLeaves()
    ensures Rooted("/mnt") && Clean("/mnt") == "/mnt" && !AtOrBelow("/mnt", MountPath("/mnt", "../x"))
  {
    SplitMountPrefix();
    WalkUp();
    OverrideContainedExactly("/mnt", "../x");
    UpsIs(["..", "x"], 1);
    assert ["mnt"][0] != ["x"][0];
  }
}
