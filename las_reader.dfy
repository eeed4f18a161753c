/**
 * The row reader of LAS well-log files.  Construction skips the header up to
 * and including the "~A" line that opens the data section; each Read takes
 * one physical line, rewrites it with the reader's replacement rules and
 * splits it into space-separated fields.  Values are read from the current
 * row with decimal zeros trimmed and the format's null sentinels blanked.
 */
module LasData {
  import opened Wrappers
  import FileKeys
  import TextEncodings
  import ParseErrors

  // ----- Text helpers -----

  predicate StartsWith(s: string, prefix: string)
  {
    |prefix| <= |s| && s[..|prefix|] == prefix
  }

  /** The first line of the data section starts with "~A". */
  predicate IsDataMarker(line: string)
  {
    line != "" && StartsWith(line, "~A")
  }

  /** TrimEnd(c): the text without the run of `c` that ends it. */
  function TrimEnd(s: string, c: char): (r: string)
    ensures r <= s && (|r| == 0 || r[|r| - 1] != c)
    ensures forall k :: |r| <= k < |s| ==> s[k] == c
    decreases |s|
  {
    if |s| == 0 || s[|s| - 1] != c then s else TrimEnd(s[..|s| - 1], c)
  }

  /** The three conditions of TrimEnd's contract fix its result. */
  lemma TrimEndUnique(s: string, c: char, r: string)
    requires r <= s && (|r| == 0 || r[|r| - 1] != c)
    requires forall k :: |r| <= k < |s| ==> s[k] == c
    ensures TrimEnd(s, c) == r
  {
  }

  /** The texts the null sentinels print as with the invariant culture. */
  const NullSentinelTexts: seq<string> := [
    "-9999.99", "-9999.25", "9999.25", "-999.25", "999.25", "-999",
    "-999.99", "999.99", "-9999", "9999", "-32767", "32767"]

  /** The null sentinels of the format, as numbers. */
  const NullSentinels: seq<real> := [
    -9999.99, -9999.25, 9999.25, -999.25, 999.25, -999.0,
    -999.99, 999.99, -9999.0, 9999.0, -32767.0, 32767.0]

  /**
   * The text ReadString returns for a field: a field with a '.' loses its
   * trailing zeros and then its trailing points; a sentinel becomes empty.
   */
  function NormalizeField(field: string): (r: string)
    ensures r == "" || r <= field
    ensures r !in NullSentinelTexts
    ensures '.' !in field ==> r == (if field in NullSentinelTexts then "" else field)
  {
    var t := if '.' in field then TrimEnd(TrimEnd(field, '0'), '.') else field;
    if t in NullSentinelTexts then "" else t
  }

  /** A whole number written with a decimal point and zeros reads as the number: "12.000" is "12". */
  lemma WholeNumberField(digits: string, zeros: nat)
    requires |digits| > 0 && '.' !in digits && digits !in NullSentinelTexts
    ensures NormalizeField(digits + "." + seq(zeros, _ => '0')) == digits
  {
    var field := digits + "." + seq(zeros, _ => '0');
    assert field[|digits|] == '.';
    TrimEndUnique(field, '0', digits + ".");
    TrimEndUnique(digits + ".", '.', digits);
  }

  /** A sentinel with trailing decimal zeros is still a sentinel: "-999.2500" and "-999.00" read as blank. */
  lemma PaddedSentinels()
    ensures NormalizeField("-999.2500") == ""
    ensures NormalizeField("-999.00") == ""
    ensures NormalizeField("32767.") == ""
  {
    TrimEndUnique("-999.2500", '0', "-999.25");
    TrimEndUnique("-999.25", '.', "-999.25");
    TrimEndUnique("-999.00", '0', "-999.");
    TrimEndUnique("-999.", '.', "-999");
    TrimEndUnique("32767.", '0', "32767.");
    TrimEndUnique("32767.", '.', "32767");
  }

  // ----- Splitting a line into fields -----

  function RemoveEmpty(parts: seq<string>): (r: seq<string>)
    ensures forall k :: 0 <= k < |r| ==> r[k] != "" && r[k] in parts
    decreases |parts|
  {
    if |parts| == 0 then []
    else if parts[0] == "" then RemoveEmpty(parts[1..])
    else [parts[0]] + RemoveEmpty(parts[1..])
  }

  /** Split(' ', RemoveEmptyEntries): the non-empty runs of non-space characters. */
  function Fields(line: string): (r: seq<string>)
    ensures forall k :: 0 <= k < |r| ==> r[k] != "" && ' ' !in r[k]
  {
    RemoveEmpty(FileKeys.Split(line, ' '))
  }

  function Concat(parts: seq<string>): string
  {
    if |parts| == 0 then "" else parts[0] + Concat(parts[1..])
  }

  function WithoutSpaces(s: string): string
  {
    if |s| == 0 then "" else (if s[0] == ' ' then "" else [s[0]]) + WithoutSpaces(s[1..])
  }

  lemma {:induction false} ConcatRemoveEmpty(parts: seq<string>)
    ensures Concat(RemoveEmpty(parts)) == Concat(parts)
    decreases |parts|
  {
    if |parts| > 0 {
      ConcatRemoveEmpty(parts[1..]);
    }
  }

  lemma {:induction false} ConcatSplit(s: string)
    ensures Concat(FileKeys.Split(s, ' ')) == WithoutSpaces(s)
    decreases |s|
  {
    if |s| > 0 {
      ConcatSplit(s[1..]);
      var rest := FileKeys.Split(s[1..], ' ');
      if s[0] != ' ' {
        assert Concat(rest) == rest[0] + Concat(rest[1..]);
      }
    }
  }

  /** Splitting loses only spaces: the fields, run together, are the line without its spaces. */
  lemma FieldsKeepText(line: string)
    ensures Concat(Fields(line)) == WithoutSpaces(line)
  {
    ConcatRemoveEmpty(FileKeys.Split(line, ' '));
    ConcatSplit(line);
  }

  // ----- Rewriting -----

  /** A regular-expression replacement: every match of the pattern is replaced. */
  datatype LasReplaceGroup = LasReplaceGroup(pattern: string, replacement: string)

  /**
   * The reader's replacement groups, in order: a decimal comma between digits
   * becomes a point, a '-' glued between digits is split off as a sign, and a
   * number with two points or a NaN glued to a number becomes two NaN fields.
   */
  const ReplaceGroups: seq<LasReplaceGroup> := [
    LasReplaceGroup("(\\d),(\\d)", "$1.$2"),
    LasReplaceGroup("(\\d)-(\\d)", "$1 -$2"),
    LasReplaceGroup("-?\\d*\\.\\d*\\.\\d*", " NaN NaN "),
    LasReplaceGroup("NaN[\\.-]\\d+", " NaN NaN ")]

  /**
   * The rules of the replacement groups, given the regular-expression
   * replacement `replace(line, pattern, replacement)`: rule i applies group i.
   */
  function ReplacementRules(replace: (string, string, string) -> string): (rules: seq<string -> string>)
    ensures |rules| == |ReplaceGroups|
    ensures forall i, line :: 0 <= i < |rules| ==>
              rules[i](line) == replace(line, ReplaceGroups[i].pattern, ReplaceGroups[i].replacement)
  {
    seq(|ReplaceGroups|, i requires 0 <= i < |ReplaceGroups| =>
      (line: string) => replace(line, ReplaceGroups[i].pattern, ReplaceGroups[i].replacement))
  }

  /** The replacement rules applied in list order (each rule stands for one regular-expression replacement). */
  function Rewrite(rules: seq<string -> string>, line: string): string
  {
    if |rules| == 0 then line else rules[|rules| - 1](Rewrite(rules[..|rules| - 1], line))
  }

  /** A line is rewritten by the four groups one after the other, in their list order. */
  lemma RewriteInOrder(replace: (string, string, string) -> string, line: string)
    ensures var g := ReplaceGroups;
            Rewrite(ReplacementRules(replace), line) ==
              replace(replace(replace(replace(line, g[0].pattern, g[0].replacement),
                g[1].pattern, g[1].replacement), g[2].pattern, g[2].replacement), g[3].pattern, g[3].replacement)
  {
    var rules := ReplacementRules(replace);
    assert rules[..1][..0] == [] && rules[..2][..1] == rules[..1];
    assert rules[..3][..2] == rules[..2] && rules[..4] == rules && rules[..4][..3] == rules[..3];
    assert Rewrite(rules[..1], line) == rules[0](line);
    assert Rewrite(rules[..2], line) == rules[1](rules[0](line));
    assert Rewrite(rules[..3], line) == rules[2](rules[1](rules[0](line)));
  }

  // ----- The reader's states -----

  /** Lines consumed, the current row (absent until a data line is read) and the row counter. */
  datatype LasState = LasState(pos: nat, row: Option<seq<string>>, count: int)

  /** Where the header skip stops when line `p - 1` was the last one read. */
  function SkipFrom(lines: seq<string>, p: nat): (q: nat)
    requires 1 <= p <= |lines|
    ensures p <= q <= |lines|
    decreases |lines| - p
  {
    if p == |lines| || IsDataMarker(lines[p - 1]) then p else SkipFrom(lines, p + 1)
  }

  /** Lines consumed by ChangePointToLasData: up to and including the first "~A" line, or all. */
  function DataStart(lines: seq<string>): nat
  {
    if |lines| == 0 then 0 else SkipFrom(lines, 1)
  }

  /** The skip stops right after the first marker line, or at the end when there is none. */
  lemma {:induction false} SkipFromMarker(lines: seq<string>, p: nat, k: nat)
    requires 1 <= p <= k + 1 <= |lines|
    requires IsDataMarker(lines[k]) && forall j :: p - 1 <= j < k ==> !IsDataMarker(lines[j])
    ensures SkipFrom(lines, p) == k + 1
    decreases k + 1 - p
  {
    if p < k + 1 {
      SkipFromMarker(lines, p + 1, k);
    }
  }

  lemma {:induction false} SkipFromNoMarker(lines: seq<string>, p: nat)
    requires 1 <= p <= |lines|
    requires forall j :: p - 1 <= j < |lines| ==> !IsDataMarker(lines[j])
    ensures SkipFrom(lines, p) == |lines|
    decreases |lines| - p
  {
    if p < |lines| {
      SkipFromNoMarker(lines, p + 1);
    }
  }

  /** Construction consumes the lines up to and including the first "~A" line. */
  lemma DataStartAtMarker(lines: seq<string>, k: nat)
    requires k < |lines| && IsDataMarker(lines[k])
    requires forall j :: 0 <= j < k ==> !IsDataMarker(lines[j])
    ensures DataStart(lines) == k + 1
  {
    SkipFromMarker(lines, 1, k);
  }

  /** Without a "~A" line construction consumes the whole file. */
  lemma DataStartNoMarker(lines: seq<string>)
    requires forall j :: 0 <= j < |lines| ==> !IsDataMarker(lines[j])
    ensures DataStart(lines) == |lines|
  {
    if |lines| > 0 {
      SkipFromNoMarker(lines, 1);
    }
  }

  /** The state after construction: each line read, and the failed read of an empty file, counts one row. */
  function Opened(lines: seq<string>): LasState
  {
    LasState(DataStart(lines), None, if |lines| == 0 then 1 else DataStart(lines))
  }

  /**
   * Read: at the end nothing changes and the answer is false; otherwise one
   * line is taken and counted, and a non-empty one becomes the current row.
   */
  function ReadStep(lines: seq<string>, rules: seq<string -> string>, s: LasState): (res: (bool, LasState))
    requires s.pos <= |lines|
    ensures res.0 <==> s.pos < |lines|
    ensures res.0 ==> res.1.pos == s.pos + 1 && res.1.count == s.count + 1
    ensures !res.0 ==> res.1 == s
  {
    if s.pos == |lines| then (false, s)
    else
      var line := lines[s.pos];
      var row := if line == "" then s.row else Some(Fields(Rewrite(rules, line)));
      (true, LasState(s.pos + 1, row, s.count + 1))
  }

  /** The value ReadString gives for a column of a row: none when the row or the column is missing. */
  function CellText(row: Option<seq<string>>, index: int): Option<string>
  {
    if row.None? || !(0 <= index < |row.value|) then None else Some(NormalizeField(row.value[index]))
  }

  /**
   * The number ReadDouble gives for a column of a row: none (an exception,
   * logged) when the row is missing or the index negative; 0 past the row's
   * end and for a null sentinel; otherwise the parsed field.
   */
  function CellNumber(row: Option<seq<string>>, index: int, parse: string -> Option<real>): (r: Option<real>)
    ensures r.None? <==> row.None? || index < 0
    ensures row.Some? && 0 <= index && |row.value| <= index ==> r == Some(0.0)
    ensures row.Some? && 0 <= index < |row.value| ==>
              var v := TextEncodings.GetDouble(Some(row.value[index]), parse);
              r == Some(if v in NullSentinels then 0.0 else v)
    ensures r.Some? ==> r.value !in NullSentinels
  {
    if row.None? || index < 0 then None
    else if |row.value| <= index then Some(0.0)
    else
      var v := TextEncodings.GetDouble(Some(row.value[index]), parse);
      Some(if v in NullSentinels then 0.0 else v)
  }

  /**
   * ReadString and ReadDouble agree on a null sentinel: a field holding one
   * of the sentinel texts, which the number parser reads as a sentinel,
   * reads as empty text and as the number 0.
   */
  lemma SentinelCellReadsBlank(row: Option<seq<string>>, index: int, parse: string -> Option<real>)
    requires row.Some? && 0 <= index < |row.value| && row.value[index] in NullSentinelTexts
    requires parse(row.value[index]).Some? && parse(row.value[index]).value in NullSentinels
    ensures CellText(row, index) == Some("")
    ensures CellNumber(row, index, parse) == Some(0.0)
  {
    var field := row.value[index];
    assert ',' !in field && |field| > 0 && field[|field| - 1] in "2579";
    assert TrimEnd(field, '0') == field && TrimEnd(field, '.') == field;
    assert TextEncodings.CommaToPoint(field) == field;
  }

  /** The reader over the lines of a file, with its replacement rules. */
  class LasByRowReader {
    const lines: seq<string>
    const rules: seq<string -> string>
    var pos: nat
    var currentRow: Option<seq<string>>
    var dataRowCount: int

    ghost predicate Valid()
      reads this
    {
      pos <= |lines|
    }

    function State(): LasState
      reads this
    {
      LasState(pos, currentRow, dataRowCount)
    }

    /** Opens the reader and moves it to the data section. */
    constructor(lines: seq<string>, rules: seq<string -> string>)
      ensures Valid() && this.lines == lines && this.rules == rules
      ensures State() == Opened(lines)
    {
      this.lines := lines;
      this.rules := rules;
      pos := 0;
      currentRow := None;
      dataRowCount := 0;
      new;
      ChangePointToLasData();
    }

    /** ReadLine: counts one row and takes the next line, if any. */
    method ReadLine() returns (line: Option<string>)
      requires Valid()
      modifies this
      ensures Valid() && currentRow == old(currentRow)
      ensures dataRowCount == old(dataRowCount) + 1
      ensures old(pos) < |lines| ==> pos == old(pos) + 1 && line == Some(lines[old(pos)])
      ensures old(pos) == |lines| ==> pos == old(pos) && line == None
    {
      dataRowCount := dataRowCount + 1;
      if pos < |lines| {
        line := Some(lines[pos]);
        pos := pos + 1;
      } else {
        line := None;
      }
    }

    /** ChangePointToLasData: reads lines until the one just read opens the data section, or the file ends. */
    method ChangePointToLasData()
      requires Valid() && pos == 0
      modifies this
      ensures Valid() && currentRow == old(currentRow)
      ensures pos == DataStart(lines)
      ensures dataRowCount == old(dataRowCount) + (if |lines| == 0 then 1 else DataStart(lines))
    {
      var line := ReadLine();
      while pos < |lines|
        invariant Valid() && currentRow == old(currentRow)
        invariant |lines| == 0 ==> pos == 0 && dataRowCount == old(dataRowCount) + 1
        invariant |lines| > 0 ==> 1 <= pos && line == Some(lines[pos - 1]) && dataRowCount == old(dataRowCount) + pos
        invariant |lines| > 0 ==> SkipFrom(lines, pos) == DataStart(lines)
        decreases |lines| - pos
      {
        if line.Some? && IsDataMarker(line.value) {
          break;
        }
        line := ReadLine();
      }
    }

    /** Read: the next line becomes the current row, unless it is empty; false at the end. */
    method Read() returns (more: bool)
      requires Valid()
      modifies this
      ensures Valid()
      ensures (more, State()) == ReadStep(lines, rules, old(State()))
    {
      if pos == |lines| {
        return false;
      }
      var line := ReadLine();
      more := true;
      if line.value == "" {
        return;
      }
      var text := line.value;
      for i := 0 to |rules|
        invariant text == Rewrite(rules[..i], line.value)
      {
        assert rules[..i + 1][..i] == rules[..i];
        text := rules[i](text);
      }
      assert rules[..|rules|] == rules;
      currentRow := Some(Fields(text));
    }

    /** CurrentRowIdx: the row counter. */
    function CurrentRowIdx(): int
      reads this
    {
      dataRowCount
    }

    /**
     * ReadString: the normalised field, or, when the row or the column is
     * missing, nothing and an entry (row counter, column) in the log if one
     * is given.
     */
    method ReadString(index: int, baseEx: Option<ParseErrors.FileParseException>) returns (s: Option<string>)
      modifies if baseEx.Some? then {baseEx.value} else {}
      ensures s == CellText(currentRow, index)
      ensures baseEx.Some? && s.None? ==>
                baseEx.value.errors == old(baseEx.value.errors) + [ParseErrors.Entry(dataRowCount, index, "Can not get double value")]
      ensures baseEx.Some? && s.Some? ==> baseEx.value.errors == old(baseEx.value.errors)
    {
      if currentRow.None? || !(0 <= index < |currentRow.value|) {
        if baseEx.Some? {
          baseEx.value.AddParseException(dataRowCount, index, "Can not get double value");
        }
        return None;
      }
      var result := currentRow.value[index];
      if '.' in result {
        result := TrimEnd(TrimEnd(result, '0'), '.');
      }
      s := Some(if result in NullSentinelTexts then "" else result);
    }

    /** ReadDouble: the number in a column; a failure is logged under the row counter and reads as 0. */
    method ReadDouble(index: int, baseEx: ParseErrors.FileParseException, parse: string -> Option<real>)
      returns (d: real)
      modifies baseEx
      ensures CellNumber(currentRow, index, parse).Some? ==>
                d == CellNumber(currentRow, index, parse).value && baseEx.errors == old(baseEx.errors)
      ensures CellNumber(currentRow, index, parse).None? ==>
                d == 0.0 &&
                baseEx.errors == old(baseEx.errors) + [ParseErrors.Entry(dataRowCount, index, "Can not get double value")]
      ensures currentRow.Some? && 0 <= index && |currentRow.value| <= index ==>
                d == 0.0 && baseEx.errors == old(baseEx.errors)
    {
      if currentRow.None? || index < 0 {
        baseEx.AddParseException(dataRowCount, index, "Can not get double value");
        return 0.0;
      }
      if |currentRow.value| <= index {
        return 0.0;
      }
      var value := TextEncodings.GetDouble(Some(currentRow.value[index]), parse);
      d := if value in NullSentinels then 0.0 else value;
    }
  }

  /**
   * LasByRowReader(stream): a missing stream is rejected; otherwise the reader
   * rewrites with the rules of its replacement groups.
   */
  method Open(stream: Option<seq<string>>, replace: (string, string, string) -> string)
    returns (r: Result<LasByRowReader, string>)
    ensures stream.None? <==> r == Err("fileStream")
    ensures r.Ok? ==> fresh(r.value) && r.value.Valid() && r.value.lines == stream.value &&
                      r.value.rules == ReplacementRules(replace) && r.value.State() == Opened(stream.value)
  {
    if stream.None? {
      return Err("fileStream");
    }
    var reader := new LasByRowReader(stream.value, ReplacementRules(replace));
    return Ok(reader);
  }

  /** The row counter rises by one per line read; a read at the end changes nothing. */
  lemma ReadCounts(lines: seq<string>, rules: seq<string -> string>, s: LasState)
    requires s.pos <= |lines|
    ensures var (more, t) := ReadStep(lines, rules, s);
            t.count - s.count == t.pos - s.pos &&
            (more && lines[s.pos] == "" ==> t.row == s.row) &&
            (more && lines[s.pos] != "" ==> t.row.Some? && Concat(t.row.value) == WithoutSpaces(Rewrite(rules, lines[s.pos])))
  {
    if s.pos < |lines| && lines[s.pos] != "" {
      FieldsKeepText(Rewrite(rules, lines[s.pos]));
    }
  }
}
