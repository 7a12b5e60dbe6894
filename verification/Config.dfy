/** pkg/apis/config: the values carried by annotations and StorageClass parameters. */
module Config {
  import opened Wrappers
  import opened Strings
  import opened Decimal

  datatype ConfigError = InvalidOwnership | InvalidUid | InvalidGid | InvalidFileMode

  // ---- Ownership and file mode ------------------------------------------------------

  datatype Ownership = Ownership(uid: int, gid: int)

  /** "UID:GID"; an empty text declares nothing */
  function ParseOwnership(text: string): Result<Option<Ownership>, ConfigError> {
    var s := TrimSpace(text);
    if s == "" then Ok(None)
    else
      var parts := Split(s, ':');
      if |parts| != 2 then Err(InvalidOwnership)
      else
        match ParseInt(parts[0])
        case None => Err(InvalidUid)
        case Some(uid) =>
          match ParseInt(parts[1])
          case None => Err(InvalidGid)
          case Some(gid) => Ok(Some(Ownership(uid, gid)))
  }

  /** An octal text such as "0750"; an empty text declares nothing */
  function ParseFileMode(text: string): Result<Option<nat>, ConfigError> {
    var s := TrimSpace(text);
    if s == "" then Ok(None)
    else
      match ParseUint(s, 8, UINT32_LIMIT)
      case None => Err(InvalidFileMode)
      case Some(mode) => Ok(Some(mode))
  }

  /** n zeros */
  function Zeros(n: nat): string {
    seq(n, _ => '0')
  }

  /** The digit for n */
  function Digit(n: nat): char
    requires n < 10
  {
    '0' + n as char
  }

  lemma {:induction false} LeadingZeros(n: nat, s: string)
    requires IsNumeral(s, 8)
    ensures IsNumeral(Zeros(n) + s, 8) && NumeralValue(Zeros(n) + s, 8) == NumeralValue(s, 8)
    decreases |s|
  {
    var t := Zeros(n) + s;
    assert t[..|t| - 1] == Zeros(n) + s[..|s| - 1];
    if |s| == 1 {
      ZerosAreNothing(n);
      assert s[..0] == "" && Zeros(n) + "" == Zeros(n);
    } else {
      LeadingZeros(n, s[..|s| - 1]);
    }
  }

  lemma {:induction false} ZerosAreNothing(n: nat)
    ensures NumeralValue(Zeros(n), 8) == 0
  {
    if n > 0 {
      assert Zeros(n)[..n - 1] == Zeros(n - 1);
      ZerosAreNothing(n - 1);
    }
  }

  lemma ThreeOctalDigits(u: nat, g: nat, o: nat)
    requires u < 8 && g < 8 && o < 8
    ensures var s := [Digit(u), Digit(g), Digit(o)];
            IsNumeral(s, 8) && NumeralValue(s, 8) == 64 * u + 8 * g + o
  {
    var s := [Digit(u), Digit(g), Digit(o)];
    assert s[..2] == [Digit(u), Digit(g)] && s[..2][..1] == [Digit(u)] && [Digit(u)][..0] == "";
    assert NumeralValue([Digit(u)], 8) == u;
    assert NumeralValue(s[..2], 8) == 8 * u + g;
  }

  /** Three octal digits behind any zeros, as in "0750", are read as the permission bits they write. */
  lemma FileModeOctal(zeros: nat, u: nat, g: nat, o: nat)
    requires u < 8 && g < 8 && o < 8
    ensures ParseFileMode(Zeros(zeros) + [Digit(u), Digit(g), Digit(o)]) == Ok(Some(64 * u + 8 * g + o))
  {
    var s := Zeros(zeros) + [Digit(u), Digit(g), Digit(o)];
    ThreeOctalDigits(u, g, o);
    LeadingZeros(zeros, [Digit(u), Digit(g), Digit(o)]);
    assert IsDigit(s[0], 8) && IsDigit(s[|s| - 1], 8);
    TrimSpaceMeets(s);
  }

  /** Text with anything but octal digits in it declares no mode, and is refused unless it is blank. */
  lemma FileModeRefused(text: string)
    requires !IsNumeral(TrimSpace(text), 8)
    ensures ParseFileMode(text) == if TrimSpace(text) == "" then Ok(None) else Err(InvalidFileMode)
  {
  }

  lemma {:induction false} FormatIntSolid(n: int)
    ensures forall c :: c in FormatInt(n) ==> !IsSpace(c) && c != ':'
    ensures FormatInt(n) != ""
  {
  }

  lemma OwnershipParts(u: string, g: string)
    requires u != "" && g != "" && forall c :: c in u || c in g ==> !IsSpace(c) && c != ':'
    ensures TrimSpace(u + ":" + g) == u + ":" + g && Split(u + ":" + g, ':') == [u, g]
  {
    var s := u + ":" + g;
    assert s[0] == u[0] && u[0] in u && s[|s| - 1] == g[|g| - 1] && g[|g| - 1] in g;
    TrimSpaceMeets(s);
    SplitAppend(u, g, ':');
    SplitNone(u, ':');
    SplitNone(g, ':');
  }

  /** Ids print and parse back on exactly the 64-bit range. */
  lemma OwnershipRoundTrip(owner: Ownership)
    ensures ParseOwnership(FormatInt(owner.uid) + ":" + FormatInt(owner.gid)) ==
            if !(-INT64_LIMIT <= owner.uid < INT64_LIMIT) then Err(InvalidUid)
            else if !(-INT64_LIMIT <= owner.gid < INT64_LIMIT) then Err(InvalidGid)
            else Ok(Some(owner))
  {
    FormatIntSolid(owner.uid);
    FormatIntSolid(owner.gid);
    OwnershipParts(FormatInt(owner.uid), FormatInt(owner.gid));
    ParseFormatInt(owner.uid);
    ParseFormatInt(owner.gid);
  }

  // ---- Key/value lines --------------------------------------------------------------

  /** What one line contributes: "key=value", or "key: value" when it holds no '=' */
  function ParseLine(raw: string): Option<(string, string)> {
    var line := TrimSpace(raw);
    if line == "" || line[0] == '#' then None
    else
      var i := if '=' in line then IndexOf(line, '=') else IndexOf(line, ':');
      if i == -1 || TrimSpace(line[..i]) == "" then None
      else Some((TrimSpace(line[..i]), TrimSpace(line[i + 1..])))
  }

  function AddLine(m: map<string, string>, raw: string): map<string, string> {
    match ParseLine(raw)
    case None => m
    case Some((k, v)) => m[k := v]
  }

  /** Later lines win. */
  function ParseLines(lines: seq<string>): map<string, string> {
    if lines == [] then map[] else AddLine(ParseLines(lines[..|lines| - 1]), lines[|lines| - 1])
  }

  function KeyValues(content: string): map<string, string> {
    ParseLines(Split(content, '\n'))
  }

  lemma ParseLinesNext(lines: seq<string>, n: nat)
    requires n < |lines|
    ensures ParseLines(lines[..n + 1]) == AddLine(ParseLines(lines[..n]), lines[n])
  {
    assert lines[..n + 1][..n] == lines[..n];
  }

  /** ParseKeyValueLines as the source runs it: one pass, filling the result map. */
  method ParseKeyValueLines(content: string) returns (result: map<string, string>)
    ensures result == KeyValues(content)
  {
    result := map[];
    var lines := Split(content, '\n');
    for n := 0 to |lines|
      invariant result == ParseLines(lines[..n])
    {
      ParseLinesNext(lines, n);
      var line := TrimSpace(lines[n]);
      if line == "" || HasPrefix(line, "#") {
        assert ParseLine(lines[n]) == None;
        continue;
      }
      var k, v := "", "";
      if '=' in line {
        var i := IndexOf(line, '=');
        k, v := TrimSpace(line[..i]), TrimSpace(line[i + 1..]);
      } else if ':' in line {
        var i := IndexOf(line, ':');
        k, v := TrimSpace(line[..i]), TrimSpace(line[i + 1..]);
      }
      if k != "" {
        result := result[k := v];
      }
    }
    assert lines[..|lines|] == lines;
  }

  lemma {:induction false} ParseLinesAppend(a: seq<string>, b: seq<string>)
    ensures ParseLines(a + b) == ParseLines(a) + ParseLines(b)
  {
    if b == [] {
      assert a + b == a;
    } else {
      assert (a + b)[..|a + b| - 1] == a + b[..|b| - 1];
      ParseLinesAppend(a, b[..|b| - 1]);
    }
  }

  /** Writing one text under another overlays its settings on the first one's. */
  lemma OverlayIsConcatenation(base: string, overlay: string)
    ensures KeyValues(base + "\n" + overlay) == KeyValues(base) + KeyValues(overlay)
  {
    SplitAppend(base, overlay, '\n');
    ParseLinesAppend(Split(base, '\n'), Split(overlay, '\n'));
  }

  predicate PrintableKey(k: string) {
    k != "" && Trimmed(k) && '=' !in k && '\n' !in k && k[0] != '#'
  }

  predicate PrintableValue(v: string) {
    Trimmed(v) && '\n' !in v
  }

  predicate Printable(m: map<string, string>) {
    forall k :: k in m ==> PrintableKey(k) && PrintableValue(m[k])
  }

  /** One "k=v" line per key, in the given order. */
  function PrintLines(m: map<string, string>, order: seq<string>): string
    requires forall k :: k in order ==> k in m
  {
    if order == [] then "" else order[0] + "=" + m[order[0]] + "\n" + PrintLines(m, order[1..])
  }

  lemma ParsePrintedLine(k: string, v: string)
    requires PrintableKey(k) && PrintableValue(v)
    ensures ParseLine(k + "=" + v) == Some((k, v))
  {
    var line := k + "=" + v;
    assert line[0] == k[0];
    TrimSpaceMeets(line);
    TrimSpaceMeets(k);
    TrimSpaceMeets(v);
    IndexOfAt(k, '=', v);
    assert line[..|k|] == k && line[|k| + 1..] == v;
  }

  lemma SingleLine(line: string)
    requires '\n' !in line
    ensures KeyValues(line) == AddLine(map[], line)
  {
    SplitNone(line, '\n');
    ParseLinesNext([line], 0);
    assert [line][..1] == [line] && [line][..0] == [];
  }

  /** One printed line puts its pair under whatever the later lines say. */
  lemma PrintedLineFirst(m: map<string, string>, k: string, rest: string)
    requires Printable(m) && k in m
    ensures KeyValues(k + "=" + m[k] + "\n" + rest) == map[k := m[k]] + KeyValues(rest)
  {
    var line := k + "=" + m[k];
    ParsePrintedLine(k, m[k]);
    SingleLine(line);
    OverlayIsConcatenation(line, rest);
  }

  lemma {:induction false} ParsePrintedLines(m: map<string, string>, order: seq<string>)
    requires Printable(m)
    requires forall k :: k in order ==> k in m
    ensures KeyValues(PrintLines(m, order)) == map k | k in order :: m[k]
  {
    if order == [] {
      SingleLine("");
    } else {
      assert order[0] in order && forall k :: k in order <==> k == order[0] || k in order[1..];
      PrintedLineFirst(m, order[0], PrintLines(m, order[1..]));
      ParsePrintedLines(m, order[1..]);
    }
  }

  /** Printing a map in any order of its keys and parsing the text gives the map back. */
  lemma KeyValueRoundTrip(m: map<string, string>, order: seq<string>)
    requires Printable(m)
    requires forall k :: k in order <==> k in m
    ensures KeyValues(PrintLines(m, order)) == m
  {
    ParsePrintedLines(m, order);
  }

  /** A line yields a printable key and value, whatever the line is. */
  lemma ParseLineIsPrintable(raw: string)
    requires '\n' !in raw
    ensures match ParseLine(raw)
            case None => true
            case Some((k, v)) => PrintableKey(k) && PrintableValue(v)
  {
    var line := TrimSpace(raw);
    TrimSpaceMeets(raw);
    if ParseLine(raw).Some? {
      var i := if '=' in line then IndexOf(line, '=') else IndexOf(line, ':');
      TrimSpaceMeets(line[..i]);
      TrimSpaceMeets(line[i + 1..]);
      assert forall c :: c in line[..i] || c in line[i + 1..] ==> c in line;
      TrimSpaceHead(line[..i]);
    }
  }

  lemma {:induction false} ParseLinesArePrintable(lines: seq<string>)
    requires forall l :: l in lines ==> '\n' !in l
    ensures Printable(ParseLines(lines))
  {
    if lines != [] {
      ParseLinesArePrintable(lines[..|lines| - 1]);
      ParseLineIsPrintable(lines[|lines| - 1]);
    }
  }

  lemma {:induction false} SomeOrder(keys: set<string>) returns (order: seq<string>)
    ensures forall k :: k in order <==> k in keys
  {
    if keys == {} {
      order := [];
    } else {
      var k :| k in keys;
      var rest := SomeOrder(keys - {k});
      order := [k] + rest;
    }
  }

  /** The printable maps are exactly what the parser can produce. */
  lemma ParserImage(m: map<string, string>)
    ensures Printable(m) <==> exists content :: KeyValues(content) == m
  {
    if Printable(m) {
      var order := SomeOrder(m.Keys);
      KeyValueRoundTrip(m, order);
    }
    forall content | KeyValues(content) == m
      ensures Printable(m)
    {
      SplitParts(content, '\n');
      ParseLinesArePrintable(Split(content, '\n'));
    }
  }
}
