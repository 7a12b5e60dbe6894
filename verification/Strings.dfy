/**
 * The part of Go's `strings` package the provisioner relies on: splitting, joining,
 * trimming white space and cutting a text into fields.
 */
module Strings {

  // ---- Characters -------------------------------------------------------------------

  /** unicode.IsSpace */
  predicate IsSpace(c: char) {
    || c == ' ' || c == '\t' || c == '\n' || c == '\r' || c == '\U{b}' || c == '\U{c}'
    || c == '\U{85}' || c == '\U{a0}' || c == '\U{1680}' || '\U{2000}' <= c <= '\U{200a}'
    || c == '\U{2028}' || c == '\U{2029}' || c == '\U{202f}' || c == '\U{205f}' || c == '\U{3000}'
  }

  /** The white space of one byte: six characters, from the tab to the blank, and no printing one */
  lemma AsciiSpaces(c: char)
    requires c < '\U{80}'
    ensures IsSpace(c) <==> 9 <= c as int <= 13 || c as int == 32
  {
  }

  /** No white space anywhere. */
  predicate Solid(s: string) {
    forall i :: 0 <= i < |s| ==> !IsSpace(s[i])
  }

  /** A non-empty string without white space: what strings.Fields yields. */
  predicate Word(s: string) {
    s != "" && Solid(s)
  }

  // ---- Splitting and joining --------------------------------------------------------

  /** One more character in front of the first part */
  function Extended(c: char, parts: seq<string>): seq<string>
    requires parts != []
  {
    [[c] + parts[0]] + parts[1..]
  }

  /** strings.Split(s, sep) for a one-character separator */
  function Split(s: string, sep: char): (parts: seq<string>)
    ensures |parts| >= 1
  {
    if s == "" then [""]
    else if s[0] == sep then [""] + Split(s[1..], sep)
    else Extended(s[0], Split(s[1..], sep))
  }

  /** strings.Join(parts, sep) */
  function Join(parts: seq<string>, sep: char): string {
    if |parts| == 0 then ""
    else if |parts| == 1 then parts[0]
    else parts[0] + [sep] + Join(parts[1..], sep)
  }

  lemma {:induction false} SplitNone(s: string, sep: char)
    requires sep !in s
    ensures Split(s, sep) == [s]
  {
    if s != "" {
      assert s == [s[0]] + s[1..];
      SplitNone(s[1..], sep);
    }
  }

  /** What one more character in front makes of the parts */
  function Prefixed(c: char, sep: char, parts: seq<string>): seq<string>
    requires parts != []
  {
    if c == sep then [""] + parts else Extended(c, parts)
  }

  lemma PrefixedAppend(c: char, sep: char, a: seq<string>, b: seq<string>)
    requires a != []
    ensures Prefixed(c, sep, a + b) == Prefixed(c, sep, a) + b
  {
  }

  lemma SplitFirst(c: char, s: string, sep: char)
    ensures Split([c] + s, sep) == Prefixed(c, sep, Split(s, sep))
  {
    assert ([c] + s)[1..] == s;
  }

  lemma SplitAppendOneMore(c: char, a: string, b: string, sep: char, ab: string)
    requires Split(ab, sep) == Split(a, sep) + Split(b, sep)
    ensures Split([c] + ab, sep) == Split([c] + a, sep) + Split(b, sep)
  {
    SplitFirst(c, ab, sep);
    SplitFirst(c, a, sep);
    PrefixedAppend(c, sep, Split(a, sep), Split(b, sep));
  }

  /** Splitting distributes over a separator, wherever it stands. */
  lemma {:induction false} SplitAppend(a: string, b: string, sep: char)
    ensures Split(a + [sep] + b, sep) == Split(a, sep) + Split(b, sep)
  {
    if a == "" {
      assert a + [sep] + b == [sep] + b;
      SplitFirst(sep, b, sep);
    } else {
      var rest := a[1..];
      SplitAppend(rest, b, sep);
      SplitAppendOneMore(a[0], rest, b, sep, rest + [sep] + b);
      assert a + [sep] + b == [a[0]] + (rest + [sep] + b);
      assert a == [a[0]] + rest;
    }
  }

  lemma {:induction false} SplitParts(s: string, sep: char)
    ensures forall p :: p in Split(s, sep) ==> sep !in p
  {
    if s != "" {
      SplitParts(s[1..], sep);
      var rest := Split(s[1..], sep);
      assert rest[0] in rest;
    }
  }

  lemma {:induction false} SplitJoin(parts: seq<string>, sep: char)
    requires |parts| >= 1
    requires forall p :: p in parts ==> sep !in p
    ensures Split(Join(parts, sep), sep) == parts
  {
    SplitNone(parts[0], sep);
    if |parts| > 1 {
      SplitAppend(parts[0], Join(parts[1..], sep), sep);
      SplitJoin(parts[1..], sep);
    }
  }

  lemma {:induction false} JoinSplit(s: string, sep: char)
    ensures Join(Split(s, sep), sep) == s
  {
    if s != "" {
      JoinSplit(s[1..], sep);
      var rest := Split(s[1..], sep);
      if s[0] == sep {
        assert ([""] + rest)[1..] == rest;
      } else if |rest| > 1 {
        assert ([[s[0]] + rest[0]] + rest[1..])[1..] == rest[1..];
      }
    }
  }

  lemma {:induction false} JoinAppend(a: seq<string>, b: seq<string>, sep: char)
    requires |a| >= 1 && |b| >= 1
    ensures Join(a + b, sep) == Join(a, sep) + [sep] + Join(b, sep)
  {
    assert (a + b)[1..] == a[1..] + b;
    if |a| > 1 {
      JoinAppend(a[1..], b, sep);
    } else {
      assert a[1..] + b == b;
    }
  }

  // ---- Positions --------------------------------------------------------------------

  /** strings.Index(s, c): the first position of c, or -1 */
  function IndexOf(s: string, c: char): (i: int)
    ensures i == -1 <==> c !in s
    ensures i != -1 ==> 0 <= i < |s| && s[i] == c && c !in s[..i]
  {
    if s == "" then -1
    else if s[0] == c then 0
    else
      var rest := IndexOf(s[1..], c);
      if rest == -1 then assert s == [s[0]] + s[1..]; -1
      else assert s[..rest + 1] == [s[0]] + s[1..][..rest]; rest + 1
  }

  /** strings.LastIndex(s, c): the last position of c, or -1 */
  function LastIndexOf(s: string, c: char): (i: int)
    ensures i == -1 <==> c !in s
    ensures i != -1 ==> 0 <= i < |s| && s[i] == c && c !in s[i + 1..]
  {
    if s == "" then -1
    else
      var n := |s| - 1;
      if s[n] == c then n
      else
        var before := LastIndexOf(s[..n], c);
        assert s == s[..n] + [s[n]];
        if before == -1 then -1
        else assert s[before + 1..] == s[..n][before + 1..] + [s[n]]; before
  }

  /** The first position is the one with nothing before it. */
  lemma IndexOfAt(a: string, c: char, b: string)
    requires c !in a
    ensures IndexOf(a + [c] + b, c) == |a|
  {
    var s := a + [c] + b;
    var i := IndexOf(s, c);
    assert s[|a|] == c;
    assert forall k :: 0 <= k < |a| ==> s[k] == a[k];
    assert forall k :: 0 <= k < i ==> s[..i][k] == s[k];
  }

  lemma {:induction false} LastIndexOfAt(a: string, c: char, b: string)
    requires c !in b
    ensures LastIndexOf(a + [c] + b, c) == |a|
  {
    if b != "" {
      var init := b[..|b| - 1];
      assert (a + [c] + b)[..|a| + |b|] == a + [c] + init;
      assert b[|b| - 1] in b;
      LastIndexOfAt(a, c, init);
    }
  }

  // ---- Trimming ---------------------------------------------------------------------

  function TrimLeft(s: string): string {
    if s != "" && IsSpace(s[0]) then TrimLeft(s[1..]) else s
  }

  function TrimRight(s: string): string {
    if s != "" && IsSpace(s[|s| - 1]) then TrimRight(s[..|s| - 1]) else s
  }

  /** strings.TrimSpace */
  function TrimSpace(s: string): string {
    TrimRight(TrimLeft(s))
  }

  /** No white space at either end. */
  predicate Trimmed(s: string) {
    s == "" || (!IsSpace(s[0]) && !IsSpace(s[|s| - 1]))
  }

  lemma {:induction false} TrimLeftMeets(s: string)
    ensures var t := TrimLeft(s); t == "" || !IsSpace(t[0])
    ensures var t := TrimLeft(s); |t| <= |s| && t == s[|s| - |t|..]
  {
    if s != "" && IsSpace(s[0]) {
      TrimLeftMeets(s[1..]);
    }
  }

  lemma {:induction false} TrimRightMeets(s: string)
    ensures var t := TrimRight(s); t == "" || !IsSpace(t[|t| - 1])
    ensures var t := TrimRight(s); |t| <= |s| && t == s[..|t|]
  {
    if s != "" && IsSpace(s[|s| - 1]) {
      TrimRightMeets(s[..|s| - 1]);
    }
  }

  /** Trimming yields a trimmed stretch of the input, and leaves a trimmed input alone. */
  lemma TrimSpaceMeets(s: string)
    ensures Trimmed(TrimSpace(s))
    ensures forall c :: c in TrimSpace(s) ==> c in s
    ensures Trimmed(s) ==> TrimSpace(s) == s
  {
    TrimLeftMeets(s);
    TrimRightMeets(TrimLeft(s));
  }

  /** A trimmed prefix keeps the first character unless nothing is left of it. */
  lemma TrimSpaceHead(s: string)
    requires s != "" && !IsSpace(s[0])
    ensures TrimSpace(s) != "" && TrimSpace(s)[0] == s[0]
  {
    assert TrimLeft(s) == s;
    TrimRightMeets(s);
    TrimRightKeepsHead(s);
  }

  lemma {:induction false} TrimRightKeepsHead(s: string)
    requires s != "" && !IsSpace(s[0])
    ensures TrimRight(s) != ""
  {
    if IsSpace(s[|s| - 1]) {
      TrimRightKeepsHead(s[..|s| - 1]);
    }
  }

  // ---- Fields -----------------------------------------------------------------------

  /** The length of the leading run without white space */
  function WordLength(s: string): (n: nat)
    ensures n <= |s|
    ensures Solid(s[..n])
    ensures n < |s| ==> IsSpace(s[n])
  {
    if s == "" || IsSpace(s[0]) then 0
    else
      var n := 1 + WordLength(s[1..]);
      assert s[..n] == [s[0]] + s[1..][..n - 1];
      n
  }

  /** strings.Fields: the maximal runs without white space */
  function Fields(s: string): (words: seq<string>)
    decreases |s|
  {
    if s == "" then []
    else if IsSpace(s[0]) then Fields(s[1..])
    else var n := WordLength(s); [s[..n]] + Fields(s[n..])
  }

  lemma {:induction false} FieldsAreWords(s: string)
    ensures forall w :: w in Fields(s) ==> Word(w)
    decreases |s|
  {
    if s != "" {
      FieldsAreWords(if IsSpace(s[0]) then s[1..] else s[WordLength(s)..]);
    }
  }

  /** White space put after a text does not change its first word. */
  lemma {:induction false} WordLengthExtends(a: string, c: char, b: string)
    requires IsSpace(c)
    ensures WordLength(a + [c] + b) == WordLength(a)
  {
    if a == "" {
      assert (a + [c] + b)[0] == c;
    } else if !IsSpace(a[0]) {
      assert (a + [c] + b)[1..] == a[1..] + [c] + b;
      WordLengthExtends(a[1..], c, b);
    }
  }

  /** Fields distributes over any white-space character. */
  lemma {:induction false} FieldsAppend(a: string, c: char, b: string)
    requires IsSpace(c)
    ensures Fields(a + [c] + b) == Fields(a) + Fields(b)
    decreases |a|
  {
    var s := a + [c] + b;
    if a == "" {
      assert s[1..] == b;
    } else if IsSpace(a[0]) {
      assert s[1..] == a[1..] + [c] + b;
      FieldsAppend(a[1..], c, b);
    } else {
      var n := WordLength(a);
      WordLengthExtends(a, c, b);
      assert s[..n] == a[..n] && s[n..] == a[n..] + [c] + b;
      FieldsAppend(a[n..], c, b);
      assert Fields(s) == [s[..n]] + Fields(s[n..]);
      assert Fields(a) == [a[..n]] + Fields(a[n..]);
    }
  }

  lemma {:induction false} WordLengthWhole(w: string)
    requires Solid(w)
    ensures WordLength(w) == |w|
  {
    if w != "" {
      WordLengthWhole(w[1..]);
    }
  }

  lemma FieldsOfWord(w: string)
    requires Word(w)
    ensures Fields(w) == [w]
  {
    WordLengthWhole(w);
    assert w[..|w|] == w && w[|w|..] == "";
    assert Fields("") == [];
  }

  /** A string with a single field that equals it is a word, and conversely. */
  lemma FieldsFixed(s: string)
    ensures Word(s) <==> Fields(s) == [s]
  {
    if Word(s) {
      FieldsOfWord(s);
    }
    FieldsAreWords(s);
    if Fields(s) == [s] {
      assert s in Fields(s);
    }
  }

  lemma {:induction false} FieldsTrimLeft(s: string)
    ensures Fields(TrimLeft(s)) == Fields(s)
  {
    if s != "" && IsSpace(s[0]) {
      FieldsTrimLeft(s[1..]);
    }
  }

  lemma {:induction false} FieldsTrimRight(s: string)
    ensures Fields(TrimRight(s)) == Fields(s)
  {
    if s != "" && IsSpace(s[|s| - 1]) {
      var t := s[..|s| - 1];
      FieldsTrimRight(t);
      FieldsAppend(t, s[|s| - 1], "");
      assert s == t + [s[|s| - 1]] + "";
      assert Fields("") == [];
    }
  }

  lemma FieldsTrim(s: string)
    ensures Fields(TrimSpace(s)) == Fields(s)
  {
    FieldsTrimLeft(s);
    FieldsTrimRight(TrimLeft(s));
  }

  // ---- Trimming a fixed set of characters, prefixes, suffixes -------------------------

  /** strings.Trim(s, cutset) */
  function TrimSet(s: string, cut: set<char>): (t: string)
    decreases |s|
  {
    if s == "" then s
    else if s[0] in cut then TrimSet(s[1..], cut)
    else if s[|s| - 1] in cut then TrimSet(s[..|s| - 1], cut)
    else s
  }

  lemma {:induction false} TrimSetMeets(s: string, cut: set<char>)
    ensures var t := TrimSet(s, cut); t == "" || (t[0] !in cut && t[|t| - 1] !in cut)
    ensures s == "" || (s[0] !in cut && s[|s| - 1] !in cut) ==> TrimSet(s, cut) == s
    decreases |s|
  {
    if s != "" {
      if s[0] in cut {
        TrimSetMeets(s[1..], cut);
      } else if s[|s| - 1] in cut {
        TrimSetMeets(s[..|s| - 1], cut);
      }
    }
  }

  /** What is trimmed off at either end is of the set, all of it. */
  lemma {:induction false} TrimSetTakes(s: string, cut: set<char>) returns (a: string, b: string)
    ensures s == a + TrimSet(s, cut) + b
    ensures forall c :: c in a || c in b ==> c in cut
    decreases |s|
  {
    a, b := "", "";
    if s == "" {
    } else if s[0] in cut {
      a, b := TrimSetTakes(s[1..], cut);
      a := [s[0]] + a;
      assert s == [s[0]] + s[1..];
    } else if s[|s| - 1] in cut {
      a, b := TrimSetTakes(s[..|s| - 1], cut);
      b := b + [s[|s| - 1]];
      assert s == s[..|s| - 1] + [s[|s| - 1]];
    }
  }

  lemma {:induction false} TrimSetFront(a: string, s: string, cut: set<char>)
    requires forall c :: c in a ==> c in cut
    ensures TrimSet(a + s, cut) == TrimSet(s, cut)
  {
    if a == "" {
      assert a + s == s;
    } else {
      assert a[0] in a && (a + s)[1..] == a[1..] + s;
      TrimSetFront(a[1..], s, cut);
    }
  }

  lemma {:induction false} TrimSetBack(s: string, b: string, cut: set<char>)
    requires s != "" && s[0] !in cut && s[|s| - 1] !in cut && forall c :: c in b ==> c in cut
    ensures TrimSet(s + b, cut) == s
  {
    if b == "" {
      assert s + b == s;
    } else {
      var t := s + b;
      assert t[|t| - 1] == b[|b| - 1] && b[|b| - 1] in b && t[..|t| - 1] == s + b[..|b| - 1];
      TrimSetBack(s, b[..|b| - 1], cut);
    }
  }

  /** Text that neither begins nor ends with such a character is what remains of it in any wrapping. */
  lemma TrimSetUnwraps(a: string, s: string, b: string, cut: set<char>)
    requires s != "" && s[0] !in cut && s[|s| - 1] !in cut && forall c :: c in a || c in b ==> c in cut
    ensures TrimSet(a + s + b, cut) == s
  {
    assert a + s + b == a + (s + b);
    TrimSetFront(a, s + b, cut);
    TrimSetBack(s, b, cut);
  }

  /** strings.TrimSuffix(s, c) for a one-character suffix */
  function TrimSuffix(s: string, c: char): string {
    if s != "" && s[|s| - 1] == c then s[..|s| - 1] else s
  }

  /** strings.HasPrefix */
  predicate HasPrefix(s: string, p: string) {
    p <= s
  }

  /** strings.Contains */
  predicate Contains(s: string, t: string) {
    exists i | 0 <= i <= |s| :: t <= s[i..]
  }
}
