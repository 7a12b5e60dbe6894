/**
 * pkg/controller/controller.go:461-485: the dataset name and the host mount path of a claim,
 * and why one claim's recursive deletion cannot reach another claim's volume.
 */
module Naming {
  import opened Wrappers
  import opened Strings
  import opened Paths
  import opened Subtrees
  import opened Templater

  /** The name under the StorageClass's parent dataset */
  function DatasetName(parentParam: string, relPath: string): string {
    var parent := TrimSet(parentParam, {'/'});
    if parent == "" then relPath else parent + "/" + relPath
  }

  /** The host path under the StorageClass's mount prefix; "" leaves the choice to the driver */
  function MountPath(prefixParam: string, relPath: string): string {
    var prefix := TrimSuffix(prefixParam, '/');
    if prefix == "" then "" else JoinPath(prefix, relPath)
  }

  predicate IsLowerAlnum(c: char) {
    'a' <= c <= 'z' || '0' <= c <= '9'
  }

  /** A label of a DNS name begins and ends with a letter or digit: so there is one next to every dot. */
  predicate DotsBetweenLabels(s: string) {
    forall i :: 0 < i < |s| - 1 && s[i] == '.' ==> IsLowerAlnum(s[i - 1]) && IsLowerAlnum(s[i + 1])
  }

  /**
   * The names the API server admits for claims, and beyond those for namespaces: DNS subdomains
   * (RFC 1123), whose length does not matter here.
   */
  predicate ValidName(s: string) {
    && s != ""
    && IsLowerAlnum(s[0]) && IsLowerAlnum(s[|s| - 1])
    && (forall i :: 0 <= i < |s| ==> IsLowerAlnum(s[i]) || s[i] == '-' || s[i] == '.')
    && DotsBetweenLabels(s)
  }

  /** The relative path of a claim under the default template */
  function ClaimPath(ns: string, name: string): Result<string, PathError> {
    EvaluatePathTemplate(DefaultRendering(ExtractTemplateContext(ns, name, "")))
  }

  lemma ValidNameOrdinary(s: string)
    requires ValidName(s)
    ensures Ordinary(s) && s[0] != '/' && s[0] != '.' && s[|s| - 1] != '/' && s[|s| - 1] != ' ' && s[0] != ' '
  {
    assert forall i :: 0 <= i < |s| ==> s[i] != '/';
  }

  lemma TwoLevelsRender(ns: string, name: string)
    ensures Render([ns, name], false) == ns + "/" + name
  {
    var stack := [ns, name];
    assert Join(stack, '/') == ns + "/" + name by {
      assert stack[1..] == [name];
    }
    assert Render(stack, false) == Join(stack, '/');
  }

  lemma TwoLevelsComponents(ns: string, name: string)
    requires ValidName(ns) && ValidName(name)
    ensures Components(ns + "/" + name) == Split(ns + "/" + name, '/') == [ns, name] && !Rooted(ns + "/" + name)
  {
    ValidNameOrdinary(ns);
    ValidNameOrdinary(name);
    TwoLevelsRender(ns, name);
    ComponentsOfRender([ns, name], false);
    RenderSplit([ns, name], false);
  }

  lemma TwoLevelsUntrimmed(ns: string, name: string)
    requires ValidName(ns) && ValidName(name)
    ensures TrimSet(ns + "/" + name, {'/', ' '}) == ns + "/" + name
  {
    ValidNameOrdinary(ns);
    ValidNameOrdinary(name);
    TrimSetMeets(ns + "/" + name, {'/', ' '});
  }

  lemma TwoLevelsAccepted(ns: string, name: string)
    requires ValidName(ns) && ValidName(name)
    ensures EvaluatePathTemplate(ns + "/" + name) == Ok(ns + "/" + name)
  {
    var rendered := ns + "/" + name;
    ValidNameOrdinary(ns);
    TwoLevelsComponents(ns, name);
    TwoLevelsRender(ns, name);
    TwoLevelsUntrimmed(ns, name);
    assert Clean(rendered) == rendered;
    TemplateAccepted(rendered);
  }

  lemma RenderedByDefault(ns: string, name: string)
    ensures DefaultRendering(ExtractTemplateContext(ns, name, "")) == ns + "/" + name
  {
  }

  /** Valid claims are always given their own "namespace/name". */
  lemma ClaimPathIs(ns: string, name: string)
    requires ValidName(ns) && ValidName(name)
    ensures ClaimPath(ns, name) == Ok(ns + "/" + name)
    ensures Contained(ns + "/" + name) && Split(ns + "/" + name, '/') == [ns, name]
  {
    RenderedByDefault(ns, name);
    TwoLevelsAccepted(ns, name);
    TemplateContainment(ns + "/" + name);
    TwoLevelsComponents(ns, name);
  }

  /** Something every name under it is written after: nothing, or a text ending in '/'. */
  predicate IsHead(head: string) {
    head == "" || head[|head| - 1] == '/'
  }

  lemma SplitTwo(ns: string, name: string)
    requires '/' !in ns && '/' !in name
    ensures Split(ns + "/" + name, '/') == [ns, name]
  {
    SplitNone(ns, '/');
    SplitNone(name, '/');
    SplitAppend(ns, name, '/');
  }

  lemma SplitHead(head: string, tail: string)
    requires IsHead(head)
    ensures Split(head + tail, '/') == (if head == "" then [] else Split(head[..|head| - 1], '/')) + Split(tail, '/')
  {
    if head == "" {
      assert head + tail == tail;
    } else {
      SplitAppend(head[..|head| - 1], tail, '/');
      assert head[..|head| - 1] + ['/'] == head;
    }
  }

  lemma SplitTwoLevels(head: string, ns: string, name: string)
    requires IsHead(head) && '/' !in ns && '/' !in name
    ensures Split(head + (ns + "/" + name), '/') ==
            (if head == "" then [] else Split(head[..|head| - 1], '/')) + [ns, name]
  {
    SplitTwo(ns, name);
    SplitHead(head, ns + "/" + name);
  }

  /** Two-level names under a common head never contain one another. */
  lemma TwoLevelsApart(head: string, ns: string, name: string, ns': string, name': string)
    requires IsHead(head)
    requires '/' !in ns && '/' !in name && '/' !in ns' && '/' !in name'
    requires (ns, name) != (ns', name')
    ensures !AtOrBelow(head + (ns + "/" + name), head + (ns' + "/" + name'))
  {
    var a, b := head + (ns + "/" + name), head + (ns' + "/" + name');
    SplitTwoLevels(head, ns, name);
    SplitTwoLevels(head, ns', name');
    var levels := if head == "" then [] else Split(head[..|head| - 1], '/');
    var la, lb := levels + [ns, name], levels + [ns', name'];
    assert la[|levels|] == ns && la[|levels| + 1] == name && lb[|levels|] == ns' && lb[|levels| + 1] == name';
    if a != b && a + "/" <= b {
      var rest := b[|a| + 1..];
      assert b == a + ['/'] + rest;
      SplitAppend(a, rest, '/');
    }
  }

  function DatasetHead(parentParam: string): (head: string)
    ensures IsHead(head)
  {
    var parent := TrimSet(parentParam, {'/'});
    if parent == "" then "" else parent + "/"
  }

  lemma DatasetNameHead(parentParam: string, relPath: string)
    ensures DatasetName(parentParam, relPath) == DatasetHead(parentParam) + relPath
  {
  }

  /** The text every mount path under one prefix begins with */
  function MountHead(prefixParam: string): (head: string)
    ensures IsHead(head)
  {
    var prefix := TrimSuffix(prefixParam, '/');
    var top := Components(prefix);
    if top == [] then (if Rooted(prefix) then "/" else "") else Render(top, Rooted(prefix)) + "/"
  }

  /** A path of ordinary levels is written behind that text. */
  lemma MountPathBehind(prefixParam: string, levels: seq<string>)
    requires levels != [] && (forall l :: l in levels ==> Ordinary(l)) && TrimSuffix(prefixParam, '/') != ""
    ensures MountPath(prefixParam, Join(levels, '/')) == MountHead(prefixParam) + Join(levels, '/')
  {
    var prefix, rel := TrimSuffix(prefixParam, '/'), Join(levels, '/');
    SplitJoin(levels, '/');
    SplitNone(".", '/');
    assert levels[0] in levels && rel != ".";
    JoinContained(prefix, rel);
    var top := Components(prefix);
    if top == [] {
      assert top + levels == levels;
    } else {
      RenderAppend(top, levels, Rooted(prefix));
    }
  }

  lemma MountPathHead(prefixParam: string, ns: string, name: string)
    requires ValidName(ns) && ValidName(name) && TrimSuffix(prefixParam, '/') != ""
    ensures MountPath(prefixParam, ns + "/" + name) == MountHead(prefixParam) + (ns + "/" + name)
  {
    ClaimPathIs(ns, name);
    JoinSplit(ns + "/" + name, '/');
    ValidNameOrdinary(ns);
    ValidNameOrdinary(name);
    MountPathBehind(prefixParam, [ns, name]);
  }

  /**
   * Deletion isolation: under one parent and one mount prefix, distinct valid claims get
   * dataset names and mount paths neither of which contains the other, so that removing the
   * subtree of one keeps every entry of the other's.
   */
  lemma ClaimsApart(parentParam: string, prefixParam: string, ns: string, name: string, ns': string, name': string)
    requires ValidName(ns) && ValidName(name) && ValidName(ns') && ValidName(name')
    requires (ns, name) != (ns', name')
    ensures ClaimPath(ns, name).Ok? && ClaimPath(ns', name').Ok?
    ensures var rel, rel' := ClaimPath(ns, name).value, ClaimPath(ns', name').value;
            && !AtOrBelow(DatasetName(parentParam, rel), DatasetName(parentParam, rel'))
            && (TrimSuffix(prefixParam, '/') != "" ==>
                  !AtOrBelow(MountPath(prefixParam, rel), MountPath(prefixParam, rel')))
  {
    ClaimPathIs(ns, name);
    ClaimPathIs(ns', name');
    ValidNameOrdinary(ns);
    ValidNameOrdinary(name);
    ValidNameOrdinary(ns');
    ValidNameOrdinary(name');
    DatasetNameHead(parentParam, ns + "/" + name);
    DatasetNameHead(parentParam, ns' + "/" + name');
    TwoLevelsApart(DatasetHead(parentParam), ns, name, ns', name');
    if TrimSuffix(prefixParam, '/') != "" {
      MountPathHead(prefixParam, ns, name);
      MountPathHead(prefixParam, ns', name');
      TwoLevelsApart(MountHead(prefixParam), ns, name, ns', name');
    }
  }

  /** Names apart: removing one subtree leaves the other untouched. */
  lemma RemovalKeepsOthers<T>(m: map<string, T>, a: string, b: string)
    requires !AtOrBelow(a, b) && !AtOrBelow(b, a)
    ensures Within(Without(m, a), b) == Within(m, b)
  {
    forall k | k in m && AtOrBelow(b, k)
      ensures !AtOrBelow(a, k)
    {
      if AtOrBelow(a, k) {
        Comparable(a, b, k);
      }
    }
  }

  /**
   * Path containment: joined to a cleaned absolute mount prefix, every accepted template
   * stays at or below that prefix.
   */
  lemma MountPathContained(prefixParam: string, rendered: string)
    requires Rooted(prefixParam) && Clean(prefixParam) == prefixParam && prefixParam != "/"
    ensures match EvaluatePathTemplate(rendered)
            case Ok(rel) =>
              && MountPath(prefixParam, rel) == (if rel == "." then prefixParam else prefixParam + "/" + rel)
              && AtOrBelow(prefixParam, MountPath(prefixParam, rel))
              && Clean(MountPath(prefixParam, rel)) == MountPath(prefixParam, rel)
            case Err(_) => true
  {
    ComponentsNormal(prefixParam);
    var top := Components(prefixParam);
    assert top != [];
    NoTrailingSlash(top);
    assert TrimSuffix(prefixParam, '/') == prefixParam;
    TemplateContainment(rendered);
    if EvaluatePathTemplate(rendered).Ok? {
      var rel := EvaluatePathTemplate(rendered).value;
      JoinContained(prefixParam, rel);
      if rel == "." {
        assert top + [] == top;
      } else {
        RenderAppend(top, Split(rel, '/'), true);
        JoinSplit(rel, '/');
        ComponentsOfRender(top + Split(rel, '/'), true);
      }
    }
  }

  lemma {:induction false} JoinTail(stack: seq<string>)
    requires stack != [] && forall c :: c in stack ==> Ordinary(c)
    ensures var s := Join(stack, '/'); s != "" && s[|s| - 1] != '/'
  {
    assert Ordinary(stack[0]);
    if |stack| > 1 {
      JoinTail(stack[1..]);
    } else {
      assert stack[0][|stack[0]| - 1] in stack[0];
    }
  }

  lemma NoTrailingSlash(stack: seq<string>)
    requires stack != [] && Normal(stack, true)
    ensures var s := Render(stack, true); s != "" && s[|s| - 1] != '/'
  {
    JoinTail(stack);
  }
}
