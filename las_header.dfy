/**
 * The header reader of LAS files.  The curve section (from the "~C" line to
 * the "~A" line) lists one column per line; the pattern a line is matched
 * with depends on whether it holds a ':' and where its dots are.  The data
 * section is then previewed through the LAS row reader.
 */
module LasHeader {
  import opened Wrappers
  import opened LasData
  import opened FileDescriptions

  // ----- Pattern choice -----

  const NameRe: string := "\\.?(?<name>[^.]*)\\."
  const ValueRe: string := "(?<value>.*):"
  const DescRe: string := "(?<descr>.*)"
  const UnitRe: string := "(?<unit>([0-9]+\\s)?[^\\s]*)"
  const NameMissingPeriodRe: string := "(?<name>[^:]*):"
  const ValueMissingPeriodRe: string := "(?<value>.*)"
  const ValueWithoutColonDelimiterRe: string := "(?<value>[^:]*)"
  const NameWithDotsRe: string := "\\.?(?<name>[^.].*[.])\\."

  /** The four parts of a line pattern; the pattern is their concatenation in this order. */
  datatype LinePattern = LinePattern(name: string, unit: string, value: string, desc: string)

  function PatternText(p: LinePattern): string
  {
    p.name + p.unit + p.value + p.desc
  }

  /** IndexOf for one character, -1 when absent. */
  function IndexOfChar(s: string, c: char): (i: int)
    ensures -1 <= i < |s|
    ensures i == -1 <==> c !in s
    ensures i >= 0 ==> s[i] == c && c !in s[..i]
    decreases |s|
  {
    if |s| == 0 then -1
    else if s[0] == c then 0
    else
      var k := IndexOfChar(s[1..], c);
      assert s[1..][..(if k < 0 then 0 else k)] == s[1..1 + (if k < 0 then 0 else k)];
      if k < 0 then -1 else k + 1
  }

  /** Whether ".." starts at position i. */
  predicate DotsAt(s: string, i: int)
  {
    0 <= i && i + 1 < |s| && s[i] == '.' && s[i + 1] == '.'
  }

  /** IndexOf("..", Ordinal), -1 when absent. */
  function IndexOfDots(s: string, from: nat): (i: int)
    requires from <= |s|
    ensures i == -1 || (from <= i && DotsAt(s, i))
    ensures forall j :: from <= j < (if i == -1 then |s| else i) ==> !DotsAt(s, j)
    decreases |s| - from
  {
    if from + 1 >= |s| then -1
    else if s[from] == '.' && s[from + 1] == '.' then from
    else IndexOfDots(s, from + 1)
  }

  /** Regex.IsMatch(line, "[^ ]\.\."): a ".." right after a character that is not a space. */
  predicate DotsAfterNonSpace(s: string)
  {
    exists i :: 1 <= i < |s| && DotsAt(s, i) && s[i - 1] != ' '
  }

  /** line.Split(':')[0]: the text before the first ':'. */
  function BeforeColon(s: string): string
  {
    var i := IndexOfChar(s, ':');
    if i < 0 then s else s[..i]
  }

  /** ConfigureMetadataPatterns: the pattern parts for one header line. */
  function ConfigureMetadataPatterns(line: string): (p: LinePattern)
    // without ':': value up to a ':', no description; dotted names when the line holds ".."
    ensures ':' !in line ==>
              p.unit == UnitRe && p.value == ValueWithoutColonDelimiterRe && p.desc == "" &&
              p.name == (if IndexOfDots(line, 0) >= 0 then NameWithDotsRe else NameRe)
    // with ':' but no '.' before it: the missing-period name and value, no unit or description
    ensures ':' in line && '.' !in BeforeColon(line) ==>
              p == LinePattern(NameMissingPeriodRe, "", ValueMissingPeriodRe, "")
    // with ':' and a '.' before it: the full pattern, dotted names when some ".." follows a
    // non-space anywhere in the line and the first ".." precedes the ':'
    ensures ':' in line && '.' in BeforeColon(line) ==>
              p.unit == UnitRe && p.value == ValueRe && p.desc == DescRe &&
              p.name == (if DotsAfterNonSpace(line) && IndexOfDots(line, 0) < IndexOfChar(line, ':')
                         then NameWithDotsRe else NameRe)
  {
    if ':' in line then
      var missingPeriod := '.' !in BeforeColon(line);
      var p := if missingPeriod then LinePattern(NameMissingPeriodRe, "", ValueMissingPeriodRe, "")
               else LinePattern(NameRe, UnitRe, ValueRe, DescRe);
      if DotsAfterNonSpace(line) && IndexOfDots(line, 0) < IndexOfChar(line, ':') then
        DottedNameNeedsPeriod(line);
        p.(name := NameWithDotsRe)
      else p
    else
      LinePattern(NameRe, UnitRe, ValueWithoutColonDelimiterRe, "").(
        name := if IndexOfDots(line, 0) >= 0 then NameWithDotsRe else NameRe)
  }

  /**
   * The two overrides of a line with ':' exclude each other: when the first
   * ".." comes before the first ':', the text before the ':' holds a '.'.
   */
  lemma DottedNameNeedsPeriod(line: string)
    requires ':' in line && DotsAfterNonSpace(line) && IndexOfDots(line, 0) < IndexOfChar(line, ':')
    ensures '.' in BeforeColon(line)
  {
    var i :| 1 <= i < |line| && DotsAt(line, i) && line[i - 1] != ' ';
    var d := IndexOfDots(line, 0);
    assert d != -1;
    var c := IndexOfChar(line, ':');
    assert BeforeColon(line)[d] == '.';
  }

  /**
   * The ".." that makes the line dotted need not be the first one: in
   * "..:x.." the first ".." opens the line and only the one after 'x'
   * follows a non-space, yet the dotted names are chosen.
   */
  lemma LaterDotsPickDottedNames()
    ensures ConfigureMetadataPatterns("..:x..").name == NameWithDotsRe
  {
    var line := "..:x..";
    assert DotsAt(line, 4) && line[3] != ' ';
    assert IndexOfDots(line, 0) == 0;
    assert IndexOfChar(line, ':') == 2;
  }

  /** Whatever the line, the pattern has the name, unit, value and description parts in that order. */
  lemma PatternShape(line: string)
    ensures var p := ConfigureMetadataPatterns(line);
            PatternText(p) == p.name + p.unit + p.value + p.desc &&
            p.name in {NameRe, NameMissingPeriodRe, NameWithDotsRe} &&
            (p.name == NameMissingPeriodRe <==> ':' in line && '.' !in BeforeColon(line))
  {
  }

  // ----- The curve-section scan -----

  /** Char.IsWhiteSpace for the ASCII white space. */
  predicate IsWhiteSpace(c: char)
  {
    c == ' ' || c == '\t' || c == '\n' || c == '\r' || c == '\U{000B}' || c == '\U{000C}'
  }

  function TrimStart(s: string): (r: string)
    ensures |r| == 0 || !IsWhiteSpace(r[0])
    decreases |s|
  {
    if |s| > 0 && IsWhiteSpace(s[0]) then TrimStart(s[1..]) else s
  }

  function TrimEndSpace(s: string): (r: string)
    ensures |r| == 0 || !IsWhiteSpace(r[|r| - 1])
    decreases |s|
  {
    if |s| > 0 && IsWhiteSpace(s[|s| - 1]) then TrimEndSpace(s[..|s| - 1]) else s
  }

  /** String.Trim(): no white space at either end. */
  function Trim(s: string): (r: string)
    ensures |r| == 0 || (!IsWhiteSpace(r[0]) && !IsWhiteSpace(r[|r| - 1]))
  {
    var t := TrimStart(s);
    var r := TrimEndSpace(t);
    assert |r| > 0 ==> r[0] == t[0] by {
      TrimEndPrefix(t);
    }
    r
  }

  lemma {:induction false} TrimEndPrefix(s: string)
    ensures TrimEndSpace(s) <= s
    decreases |s|
  {
    if |s| > 0 && IsWhiteSpace(s[|s| - 1]) {
      TrimEndPrefix(s[..|s| - 1]);
    }
  }

  /**
   * The header match: the name group of the line matched against the
   * pattern text, or none when the line does not match (regular-expression
   * matching is a library routine).
   */
  type Matcher = (string, string) -> Option<string>

  /** The column a matched curve line adds. */
  function ColumnOf(name: string, position: int): ColumnDescription
  {
    ColumnDescription(Trim(name), position, false)
  }

  /** What one header line does to the scan: skip it, stop the scan, or look at it. */
  function ScanLine(line: string, inSection: bool, m: Matcher, cols: seq<ColumnDescription>)
    : (bool, bool, seq<ColumnDescription>)  // (stop, inSection', cols')
  {
    if line == "" then (false, inSection, cols)
    else if StartsWith(line, "~A") then (true, inSection, cols)
    else
      var found := inSection || StartsWith(line, "~C");
      if !found || StartsWith(line, "#") then (false, found, cols)
      else
        match m(line, PatternText(ConfigureMetadataPatterns(line)))
        case None => (false, found, cols)
        case Some(name) => (false, found, cols + [ColumnOf(name, |cols|)])
  }

  /** The columns the scan collects from line `i` on, with the columns found so far. */
  function ScanColumns(lines: seq<string>, i: nat, inSection: bool, m: Matcher, cols: seq<ColumnDescription>)
    : (r: seq<ColumnDescription>)
    requires i <= |lines|
    requires forall k :: 0 <= k < |cols| ==> cols[k].position == k && !cols[k].needImport
    ensures cols <= r
    ensures forall k :: 0 <= k < |r| ==> r[k].position == k && !r[k].needImport
    decreases |lines| - i
  {
    if i == |lines| then cols
    else
      var (stop, found, cols') := ScanLine(lines[i], inSection, m, cols);
      if stop then cols else ScanColumns(lines, i + 1, found, m, cols')
  }

  /** Lines after the first "~A" line play no part in the scan. */
  lemma {:induction false} ScanStopsAtData(a: seq<string>, b: seq<string>, i: nat, inSection: bool, m: Matcher,
                                            cols: seq<ColumnDescription>, k: nat)
    requires i <= k < |a| && StartsWith(a[k], "~A")
    requires forall j :: 0 <= j < |cols| ==> cols[j].position == j && !cols[j].needImport
    ensures ScanColumns(a + b, i, inSection, m, cols) == ScanColumns(a, i, inSection, m, cols)
    decreases k - i
  {
    assert (a + b)[i] == a[i];
    if i < k {
      var (stop, found, cols') := ScanLine(a[i], inSection, m, cols);
      if !stop {
        ScanStopsAtData(a, b, i + 1, found, m, cols', k);
      }
    }
  }

  /** Before a "~C" line nothing is collected: a header without one yields no columns. */
  lemma {:induction false} NoSectionNoColumns(lines: seq<string>, i: nat, m: Matcher)
    requires i <= |lines|
    requires forall j :: i <= j < |lines| ==> !StartsWith(lines[j], "~C")
    ensures ScanColumns(lines, i, false, m, []) == []
    decreases |lines| - i
  {
    if i < |lines| {
      NoSectionNoColumns(lines, i + 1, m);
    }
  }

  // ----- The preview -----

  /** A preview row: the value of every column of the reader's current row. */
  function RowOf(row: Option<seq<string>>, width: nat): (r: FileRow)
    ensures |r.values| == width
    ensures forall c :: 0 <= c < width ==> r.values[c] == CellText(row, c)
  {
    FileRow(seq(width, c requires 0 <= c < width => CellText(row, c)))
  }

  /** The rows previewed from reader state `s` on, `count` rows having been taken, at most `limit`. */
  function PreviewFrom(lines: seq<string>, rules: seq<string -> string>, width: nat, limit: int,
                       s: LasState, count: int): (rows: seq<FileRow>)
    requires s.pos <= |lines|
    ensures forall k :: 0 <= k < |rows| ==> |rows[k].values| == width
    ensures 0 <= count <= limit ==> |rows| <= limit - count
    decreases |lines| - s.pos
  {
    var (more, t) := ReadStep(lines, rules, s);
    if !more || count == limit then []
    else [RowOf(t.row, width)] + PreviewFrom(lines, rules, width, limit, t, count + 1)
  }

  /**
   * FillDescriptionData: the description becomes a LAS description with one
   * data group named after the file, holding the columns of the curve
   * section and a preview of the data section.
   */
  method FillDescriptionData(lines: seq<string>, fileName: string, description: FileDescription,
                             m: Matcher, rules: seq<string -> string>)
    modifies description
    ensures description.fileType == Las && description.rowsInPreview == old(description.rowsInPreview)
    ensures var cols := ScanColumns(lines, 0, false, m, []);
            description.dataGroups == Some([DataGroup(fileName, None, Some(cols),
              Some(PreviewFrom(lines, rules, |cols|, old(description.rowsInPreview), Opened(lines), 0)))])
  {
    description.fileType := Las;
    var columns := ScanHeader(lines, m);
    var rows := Preview(lines, rules, |columns|, description.rowsInPreview);
    description.dataGroups := Some([DataGroup(fileName, None, Some(columns), Some(rows))]);
  }

  /** The first loop of FillDescriptionData: the curve-section scan. */
  method ScanHeader(lines: seq<string>, m: Matcher) returns (columns: seq<ColumnDescription>)
    ensures columns == ScanColumns(lines, 0, false, m, [])
  {
    var findSection := false;
    var colNumber := 0;
    columns := [];
    var i := 0;
    while i < |lines|
      invariant i <= |lines| && colNumber == |columns|
      invariant forall k :: 0 <= k < |columns| ==> columns[k].position == k && !columns[k].needImport
      invariant ScanColumns(lines, i, findSection, m, columns) == ScanColumns(lines, 0, false, m, [])
      decreases |lines| - i
    {
      var line := lines[i];
      i := i + 1;
      if line == "" {
        continue;
      }
      if StartsWith(line, "~A") {
        break;
      }
      if StartsWith(line, "~C") {
        findSection := true;
      }
      if !findSection || StartsWith(line, "#") {
        continue;
      }
      var pattern := ConfigureMetadataPatterns(line);
      var name := m(line, PatternText(pattern));
      if name.Some? {
        columns := columns + [ColumnDescription(Trim(name.value), colNumber, false)];
        colNumber := colNumber + 1;
      }
    }
  }

  /** The second loop of FillDescriptionData: at most `limit` rows of the data section. */
  method Preview(lines: seq<string>, rules: seq<string -> string>, width: nat, limit: int)
    returns (rows: seq<FileRow>)
    ensures rows == PreviewFrom(lines, rules, width, limit, Opened(lines), 0)
  {
    var reader := new LasByRowReader(lines, rules);
    var rowCount := 0;
    rows := [];
    while true
      invariant reader.Valid() && reader.lines == lines && reader.rules == rules
      invariant rows + PreviewFrom(lines, rules, width, limit, reader.State(), rowCount)
                == PreviewFrom(lines, rules, width, limit, Opened(lines), 0)
      decreases |lines| - reader.pos
    {
      ghost var before := reader.State();
      var more := reader.Read();
      if !more {
        break;
      }
      if rowCount == limit {
        break;
      }
      var values := new Option<string>[width];
      for colIdx := 0 to width
        invariant reader.State() == ReadStep(lines, rules, before).1
        invariant forall c :: 0 <= c < colIdx ==> values[c] == CellText(reader.currentRow, c)
      {
        values[colIdx] := reader.ReadString(colIdx, None);
      }
      assert values[..] == RowOf(reader.currentRow, width).values;
      rows := rows + [FileRow(values[..])];
      rowCount := rowCount + 1;
    }
  }

  /** The preview holds at most RowsInPreview rows, each with one value per column. */
  lemma PreviewBounded(lines: seq<string>, rules: seq<string -> string>, width: nat, limit: int)
    requires limit >= 0
    ensures var rows := PreviewFrom(lines, rules, width, limit, Opened(lines), 0);
            |rows| <= limit && forall k :: 0 <= k < |rows| ==> |rows[k].values| == width
  {
  }
}
