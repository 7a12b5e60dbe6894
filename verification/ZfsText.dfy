/** pkg/driver/zfs/zfs.go:211-218, 264-306: reading back what the zfs command prints. */
module ZfsText {
  import opened Wrappers
  import opened Strings
  import opened Decimal

  // ---- Property tables ------------------------------------------------------------------

  /** Where the effective value of a property comes from, as zfs reports it */
  datatype Source = Local | Default | Received | Temporary | NoSource | InheritedFrom(ancestor: string)

  function SourceText(s: Source): string {
    match s
    case Local => "local"
    case Default => "default"
    case Received => "received"
    case Temporary => "temporary"
    case NoSource => "-"
    case InheritedFrom(ancestor) => "inherited from " + ancestor
  }

  datatype Row = Row(name: string, value: string, source: Source)

  /** One line of `zfs get -H -o property,value,source` */
  function PrintRow(r: Row): string {
    r.name + "\t" + r.value + "\t" + SourceText(r.source)
  }

  function PrintTable(rows: seq<Row>): string {
    if rows == [] then "" else PrintRow(rows[0]) + "\n" + PrintTable(rows[1..])
  }

  datatype PropValue = PropValue(value: string, source: string)

  function ParsePropLine(raw: string): Option<(string, PropValue)> {
    var fields := Fields(TrimSpace(raw));
    if |fields| < 2 then None
    else Some((fields[0], PropValue(fields[1], if |fields| >= 3 then fields[|fields| - 1] else "")))
  }

  function AddPropLine(m: map<string, PropValue>, raw: string): map<string, PropValue> {
    match ParsePropLine(raw)
    case None => m
    case Some((name, v)) => m[name := v]
  }

  function ParsePropLines(lines: seq<string>): map<string, PropValue> {
    if lines == [] then map[] else AddPropLine(ParsePropLines(lines[..|lines| - 1]), lines[|lines| - 1])
  }

  function PropTable(text: string): map<string, PropValue> {
    ParsePropLines(Split(text, '\n'))
  }

  lemma ParsePropLinesNext(lines: seq<string>, n: nat)
    requires n < |lines|
    ensures ParsePropLines(lines[..n + 1]) == AddPropLine(ParsePropLines(lines[..n]), lines[n])
  {
    assert lines[..n + 1][..n] == lines[..n];
  }

  /** The parsing loop of getProps */
  method ParseProps(out: string) returns (result: map<string, PropValue>)
    ensures result == PropTable(out)
  {
    result := map[];
    var lines := Split(out, '\n');
    for n := 0 to |lines|
      invariant result == ParsePropLines(lines[..n])
    {
      ParsePropLinesNext(lines, n);
      var line := TrimSpace(lines[n]);
      if line == "" {
        continue;
      }
      var fields := Fields(line);
      if |fields| < 2 {
        continue;
      }
      var v := PropValue(fields[1], "");
      if |fields| >= 3 {
        v := v.(source := fields[|fields| - 1]);
      }
      result := result[fields[0] := v];
    }
    assert lines[..|lines|] == lines;
  }

  lemma {:induction false} ParsePropLinesAppend(a: seq<string>, b: seq<string>)
    ensures ParsePropLines(a + b) == ParsePropLines(a) + ParsePropLines(b)
  {
    if b == [] {
      assert a + b == a;
    } else {
      assert (a + b)[..|a + b| - 1] == a + b[..|b| - 1];
      ParsePropLinesAppend(a, b[..|b| - 1]);
    }
  }

  /** A table zfs can print: names without white space, nothing that would break a line. */
  predicate Printable(r: Row) {
    Word(r.name) && '\n' !in r.value && '\n' !in SourceText(r.source)
  }

  /** What the reader makes of a row: its first and last words after the name. */
  function ReadRow(value: string, source: Source): PropValue {
    var words := Fields(value) + Fields(SourceText(source));
    if |words| == 0 then PropValue("", "")
    else PropValue(words[0], if |words| >= 2 then words[|words| - 1] else "")
  }

  lemma TwoWordsFirst(a: string, b: string, rest: string)
    requires Word(a) && Word(b)
    ensures Fields(a + [' '] + (b + [' '] + rest)) == [a, b] + Fields(rest)
  {
    FieldsAppend(a, ' ', b + [' '] + rest);
    FieldsAppend(b, ' ', rest);
    FieldsOfWord(a);
    FieldsOfWord(b);
  }

  lemma InheritedText(ancestor: string, a: string, b: string)
    requires a == "inherited" && b == "from"
    ensures SourceText(InheritedFrom(ancestor)) == a + [' '] + (b + [' '] + ancestor)
    ensures Word(a) && Word(b)
  {
  }

  lemma InheritedFields(ancestor: string, a: string, b: string)
    requires a == "inherited" && b == "from"
    ensures Fields(SourceText(InheritedFrom(ancestor))) == [a, b] + Fields(ancestor)
  {
    InheritedText(ancestor, a, b);
    TwoWordsFirst(a, b, ancestor);
  }

  lemma PlainSourceIsWord(s: Source)
    requires !s.InheritedFrom?
    ensures Word(SourceText(s))
  {
  }

  lemma SourceTextFields(s: Source)
    ensures |Fields(SourceText(s))| >= 1
    ensures !s.InheritedFrom? ==> Fields(SourceText(s)) == [SourceText(s)]
    ensures s.InheritedFrom? ==> Fields(SourceText(s)) == ["inherited", "from"] + Fields(s.ancestor)
  {
    if s.InheritedFrom? {
      InheritedFields(s.ancestor, "inherited", "from");
    } else {
      PlainSourceIsWord(s);
      FieldsOfWord(SourceText(s));
    }
  }

  lemma RowFields(r: Row)
    requires Printable(r)
    ensures Fields(TrimSpace(PrintRow(r))) == [r.name] + (Fields(r.value) + Fields(SourceText(r.source)))
  {
    var tail := r.value + ['\t'] + SourceText(r.source);
    assert PrintRow(r) == r.name + ['\t'] + tail;
    FieldsTrim(PrintRow(r));
    FieldsAppend(r.name, '\t', tail);
    FieldsAppend(r.value, '\t', SourceText(r.source));
    FieldsOfWord(r.name);
  }

  lemma ParsePrintedRow(r: Row)
    requires Printable(r)
    ensures ParsePropLine(PrintRow(r)) == Some((r.name, ReadRow(r.value, r.source)))
  {
    RowFields(r);
    SourceTextFields(r.source);
  }

  /** The table as the reader sees it: later rows win, as they do while parsing. */
  function TableOf(rows: seq<Row>): map<string, PropValue> {
    if rows == [] then map[]
    else map[rows[0].name := ReadRow(rows[0].value, rows[0].source)] + TableOf(rows[1..])
  }

  /** Printing any table and reading it back yields every row's name, first value word and last source word. */
  lemma {:induction false} TableReadback(rows: seq<Row>)
    requires forall r :: r in rows ==> Printable(r)
    ensures PropTable(PrintTable(rows)) == TableOf(rows)
  {
    if rows == [] {
      SplitNone("", '\n');
      assert [""][..0] == [];
    } else {
      var r := rows[0];
      var line := PrintRow(r);
      assert r in rows;
      TableReadback(rows[1..]);
      SplitAppend(line, PrintTable(rows[1..]), '\n');
      assert '\n' !in line;
      SplitNone(line, '\n');
      ParsePropLinesAppend([line], Split(PrintTable(rows[1..]), '\n'));
      ParsePrintedRow(r);
      assert [line][..0] == [];
    }
  }

  /** A value comes back as it was printed exactly when it is a single word. */
  lemma ValueReadback(value: string, source: Source)
    ensures ReadRow(value, source).value == value <==> Word(value)
  {
    FieldsFixed(value);
    FieldsAreWords(value);
    FieldsAreWords(SourceText(source));
    SourceTextFields(source);
    var words := Fields(value) + Fields(SourceText(source));
    assert words[0] in words;
    assert forall w :: w in words ==> w in Fields(value) || w in Fields(SourceText(source));
    if Word(value) {
      assert words[0] == value;
    }
  }

  /** isLocallySet */
  predicate IsLocallySet(source: string) {
    HasPrefix(source, "local") || ':' in source
  }

  lemma PlainSourceLooks(s: Source)
    requires !s.InheritedFrom?
    ensures IsLocallySet(SourceText(s)) <==> s.Local?
  {
    var text := SourceText(s);
    if !s.Local? {
      assert text[0] != 'l';
    }
  }

  /** The source that is read back of a word's row: the last word of what zfs printed. */
  lemma SourceReadback(value: string, source: Source)
    requires Word(value) && (source.InheritedFrom? ==> Word(source.ancestor))
    ensures ReadRow(value, source).source == if source.InheritedFrom? then source.ancestor else SourceText(source)
  {
    FieldsOfWord(value);
    SourceTextFields(source);
    if source.InheritedFrom? {
      FieldsOfWord(source.ancestor);
    }
  }

  /**
   * A single-word value is seen as set locally exactly when it is, or when it is inherited from
   * a dataset whose name begins with "local" or holds a ':'.
   */
  lemma LocallySetExactly(value: string, source: Source)
    requires Word(value) && (source.InheritedFrom? ==> Word(source.ancestor))
    ensures IsLocallySet(ReadRow(value, source).source) <==>
            || source.Local?
            || (source.InheritedFrom? && "local" <= source.ancestor)
            || (source.InheritedFrom? && exists i :: 0 <= i < |source.ancestor| && source.ancestor[i] == ':')
  {
    SourceReadback(value, source);
    assert source.InheritedFrom? ==>
        (':' in source.ancestor <==> exists i :: 0 <= i < |source.ancestor| && source.ancestor[i] == ':');
    if !source.InheritedFrom? {
      PlainSourceLooks(source);
    }
  }

  // ---- Quotas ---------------------------------------------------------------------------

  /** parseZFSQuota */
  function ParseZfsQuota(text: string): Option<int> {
    var s := TrimSpace(text);
    if s == "" || s == "-" || s == "0" || s == "none" then Some(0) else ParseInt(s)
  }

  /** What `zfs get -H -p -o value quota` prints */
  function QuotaText(quota: nat): string {
    FormatNat(quota) + "\n"
  }

  lemma TrimNumeral(s: string)
    requires IsNumeral(s, 10)
    ensures TrimSpace(s + "\n") == s
  {
    assert forall i :: 0 <= i < |s| ==> !IsSpace(s[i]) by {
      forall i | 0 <= i < |s| ensures !IsSpace(s[i]) {
        assert IsDigit(s[i], 10);
      }
    }
    assert TrimLeft(s + "\n") == s + "\n";
    assert (s + "\n")[..|s|] == s;
    assert TrimRight(s + "\n") == TrimRight(s) == s;
  }

  /** What is read as no quota: three words, nothing at all, and every numeral worth 0 */
  lemma NoQuotaExactly(text: string)
    ensures ParseZfsQuota(text) == Some(0) <==>
            var s := TrimSpace(text);
            || s == "" || s == "-" || s == "none"
            || (IsNumeral(s, 10) && NumeralValue(s, 10) == 0)
            || ((s[0] == '+' || s[0] == '-') && IsNumeral(s[1..], 10) && NumeralValue(s[1..], 10) == 0)
  {
    var s := TrimSpace(text);
    if s == "0" {
      assert "0"[..0] == "";
      assert NumeralValue("0", 10) == 0;
    }
    SignedNumerals(s);
  }

  /** A quota reads back on exactly the range of a signed 64-bit integer; beyond it reading fails. */
  lemma QuotaReadback(quota: nat)
    ensures ParseZfsQuota(QuotaText(quota)) == if quota < INT64_LIMIT then Some(quota) else None
  {
    var s := FormatNat(quota);
    TrimNumeral(s);
    assert s != "-" && s != "none" by {
      assert IsDigit(s[0], 10);
    }
    ParseFormatInt(quota);
    FormatNatValue(quota);
    if s == "0" {
      assert "0"[..0] == "";
      assert NumeralValue("0", 10) == 0;
    }
  }
}
