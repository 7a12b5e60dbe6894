/**
 * Go's lexical `path` package. A path is cleaned by walking its components over a stack;
 * `Components` is that stack, `Clean` its rendering.
 */
module Paths {
  import opened Strings

  predicate Rooted(s: string) {
    s != "" && s[0] == '/'
  }

  /** One component met on the way: empty and "." are skipped, ".." climbs where it can. */
  function Step(stack: seq<string>, c: string, rooted: bool): seq<string> {
    if c == "" || c == "." then stack
    else if c == ".." && stack != [] && stack[|stack| - 1] != ".." then stack[..|stack| - 1]
    else if c == ".." && rooted then stack
    else stack + [c]
  }

  function Walk(stack: seq<string>, parts: seq<string>, rooted: bool): seq<string>
    decreases |parts|
  {
    if parts == [] then stack else Walk(Step(stack, parts[0], rooted), parts[1..], rooted)
  }

  function Components(s: string): seq<string> {
    Walk([], Split(s, '/'), Rooted(s))
  }

  function Render(stack: seq<string>, rooted: bool): string {
    if rooted then "/" + Join(stack, '/')
    else if stack == [] then "."
    else Join(stack, '/')
  }

  /** path.Clean */
  function Clean(s: string): string {
    Render(Components(s), Rooted(s))
  }

  /** path.Join of two elements, and filepath.Join on the hosts the provisioner runs on */
  function JoinPath(a: string, b: string): string {
    if a == "" then (if b == "" then "" else Clean(b))
    else if b == "" then Clean(a)
    else Clean(a + "/" + b)
  }

  // ---- Normal stacks ------------------------------------------------------------------

  predicate Ordinary(c: string) {
    c != "" && c != "." && c != ".." && '/' !in c
  }

  /** Ordinary components, after any number of ".." when the path is not rooted. */
  predicate Normal(stack: seq<string>, rooted: bool) {
    forall i :: 0 <= i < |stack| ==>
      (Ordinary(stack[i]) || (stack[i] == ".." && !rooted && forall j :: 0 <= j < i ==> stack[j] == ".."))
  }

  lemma {:induction false} WalkNormal(stack: seq<string>, parts: seq<string>, rooted: bool)
    requires Normal(stack, rooted)
    requires forall p :: p in parts ==> '/' !in p
    ensures Normal(Walk(stack, parts, rooted), rooted)
    decreases |parts|
  {
    if parts != [] {
      var next := Step(stack, parts[0], rooted);
      assert '/' !in parts[0];
      if next == stack + [parts[0]] && parts[0] == ".." && stack != [] {
        assert stack[|stack| - 1] == "..";
      }
      assert Normal(next, rooted);
      WalkNormal(next, parts[1..], rooted);
    }
  }

  lemma ComponentsNormal(s: string)
    ensures Normal(Components(s), Rooted(s))
  {
    SplitParts(s, '/');
    WalkNormal([], Split(s, '/'), Rooted(s));
  }

  lemma {:induction false} WalkAppend(stack: seq<string>, a: seq<string>, b: seq<string>, rooted: bool)
    ensures Walk(stack, a + b, rooted) == Walk(Walk(stack, a, rooted), b, rooted)
    decreases |a|
  {
    if a == [] {
      assert a + b == b;
    } else {
      assert (a + b)[1..] == a[1..] + b;
      WalkAppend(Step(stack, a[0], rooted), a[1..], b, rooted);
    }
  }

  /** Walking the rest of a normal stack just puts it on. */
  lemma {:induction false} WalkPushes(stack: seq<string>, parts: seq<string>, rooted: bool)
    requires Normal(stack + parts, rooted)
    ensures Walk(stack, parts, rooted) == stack + parts
    decreases |parts|
  {
    if parts != [] {
      var all := stack + parts;
      assert all[|stack|] == parts[0];
      if parts[0] == ".." && stack != [] {
        assert all[|stack| - 1] == "..";
      }
      assert Step(stack, parts[0], rooted) == stack + [parts[0]];
      assert stack + [parts[0]] + parts[1..] == all;
      WalkPushes(stack + [parts[0]], parts[1..], rooted);
    }
  }

  lemma RenderSplit(stack: seq<string>, rooted: bool)
    requires Normal(stack, rooted) && stack != []
    ensures Rooted(Render(stack, rooted)) == rooted
    ensures Split(Render(stack, rooted), '/') == if rooted then [""] + stack else stack
  {
    assert forall p :: p in stack ==> '/' !in p;
    SplitJoin(stack, '/');
    var body := Join(stack, '/');
    if rooted {
      SplitAppend("", body, '/');
      assert "/" + body == "" + "/" + body;
      assert Split("", '/') == [""];
    } else {
      JoinHead(stack);
    }
  }

  lemma JoinHead(stack: seq<string>)
    requires stack != [] && stack[0] != ""
    ensures stack[0] <= Join(stack, '/')
  {
  }

  /** A normal stack is recovered from its rendering. */
  lemma ComponentsOfRender(stack: seq<string>, rooted: bool)
    requires Normal(stack, rooted)
    ensures Rooted(Render(stack, rooted)) == rooted
    ensures Components(Render(stack, rooted)) == stack
  {
    if stack == [] {
      assert Split("/", '/') == ["", ""] by {
        SplitAppend("", "", '/');
        assert "" + "/" + "" == "/";
        assert Split("", '/') == [""];
      }
      SplitNone(".", '/');
      assert Walk([], ["", ""], true) == Walk([], [""], true) == [];
      assert Walk([], ["."], false) == [];
    } else {
      RenderSplit(stack, rooted);
      assert [] + stack == stack;
      WalkPushes([], stack, rooted);
      assert ([""] + stack)[1..] == stack;
    }
  }

  lemma CleanIdempotent(s: string)
    ensures Clean(Clean(s)) == Clean(s)
    ensures Components(Clean(s)) == Components(s) && Rooted(Clean(s)) == Rooted(s)
  {
    ComponentsNormal(s);
    ComponentsOfRender(Components(s), Rooted(s));
  }

  /** Joining walks on from where the first path ended. */
  lemma JoinComponents(a: string, b: string)
    requires a != "" && b != ""
    ensures JoinPath(a, b) == Render(Walk(Components(a), Split(b, '/'), Rooted(a)), Rooted(a))
  {
    SplitAppend(a, b, '/');
    WalkAppend([], Split(a, '/'), Split(b, '/'), Rooted(a));
  }

  /** A relative path that is "." or made of ordinary components. */
  predicate Contained(p: string) {
    p == "." || forall c :: c in Split(p, '/') ==> Ordinary(c)
  }

  /** Joining a contained path appends its components, and nothing else happens. */
  lemma JoinContained(a: string, p: string)
    requires a != "" && Contained(p)
    ensures p != "" && JoinPath(a, p) == Render(Components(a) + (if p == "." then [] else Split(p, '/')), Rooted(a))
    ensures Normal(Components(a) + (if p == "." then [] else Split(p, '/')), Rooted(a))
  {
    ComponentsNormal(a);
    var top := Components(a);
    if p == "." {
      JoinComponents(a, p);
      SplitNone(".", '/');
      assert Walk(top, ["."], Rooted(a)) == Walk(top, [], Rooted(a)) == top;
      assert top + [] == top;
    } else {
      assert p != "" by {
        assert Split("", '/')[0] in Split("", '/');
      }
      JoinComponents(a, p);
      assert Normal(top + Split(p, '/'), Rooted(a));
      WalkPushes(top, Split(p, '/'), Rooted(a));
    }
  }

  lemma RenderAppend(a: seq<string>, b: seq<string>, rooted: bool)
    requires a != [] && b != []
    ensures Render(a + b, rooted) == Render(a, rooted) + "/" + Join(b, '/')
  {
    JoinAppend(a, b, '/');
  }

  /** A cleaned path names something. */
  lemma CleanNotEmpty(s: string)
    ensures Clean(s) != ""
  {
    ComponentsNormal(s);
    if Components(s) != [] && !Rooted(s) {
      JoinHead(Components(s));
    }
  }
}
