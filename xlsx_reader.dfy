/**
 * The row readers of workbooks.  A sheet reader walks the rows of one
 * worksheet with a 1-based row counter; the all-sheets reader chains sheet
 * readers over every worksheet of the workbook, in order.  Worksheets are
 * numbered from 0, as the workbook library of the source numbers them.
 */
module XlsxReaders {
  import opened Wrappers
  import ParseErrors

  /** A cell as the sheet gives it: a text, or a value that cannot be read as one. */
  datatype Cell = Text(text: string) | Unconvertible

  /**
   * A worksheet: its name, the row count of its used range, and its cells
   * keyed by (row, column), both 1-based.
   */
  datatype Worksheet = Worksheet(name: string, dimensionRows: nat, cells: map<(int, int), Cell>)

  /** A mark left on a cell for a parse error: the cell and the comment. */
  datatype Mark = Mark(row: int, col: int, comment: string)

  datatype XlsxError =
    | ArgumentNull(parameter: string)
    | KeyNotFound(message: string)
    | NullReference
    | IndexOutOfRange

  const NegativeRowMessage: string := "firstDataRow can not be less then 0"

  /** GetValue<string>(row, col): no value for an empty cell, a failure for one that cannot be read as text. */
  function CellValue(sheet: Worksheet, row: int, col: int): (r: Result<Option<string>, XlsxError>)
    ensures r.Ok? && r.value.Some? <==> (row, col) in sheet.cells && sheet.cells[(row, col)].Text?
    ensures r.Ok? && r.value.Some? ==> r.value.value == sheet.cells[(row, col)].text
    ensures r.Err? <==> (row, col) in sheet.cells && sheet.cells[(row, col)] == Unconvertible
  {
    if (row, col) !in sheet.cells then Ok(None)
    else match sheet.cells[(row, col)]
      case Text(s) => Ok(Some(s))
      case Unconvertible => Err(NullReference)
  }

  /** The reader over one worksheet. */
  class XlsxByRowReader {
    const sheet: Worksheet
    var dataRowCount: int
    var sheetName: string
    var marks: seq<Mark>

    constructor(sheet: Worksheet, firstDataRow: int, sheetName: string)
      requires firstDataRow >= 0
      ensures this.sheet == sheet && dataRowCount == firstDataRow
      ensures this.sheetName == sheetName && marks == []
    {
      this.sheet := sheet;
      dataRowCount := firstDataRow;
      this.sheetName := sheetName;
      marks := [];
    }

    /** CurrentRowIdx: the row counter. */
    function CurrentRowIdx(): int
      reads this
    {
      dataRowCount
    }

    /** Read: moves the counter one row down and tells whether that row is within the used range. */
    method Read() returns (more: bool)
      modifies this
      ensures CurrentRowIdx() == old(CurrentRowIdx()) + 1
      ensures more <==> CurrentRowIdx() <= sheet.dimensionRows
      ensures sheetName == old(sheetName) && marks == old(marks)
    {
      dataRowCount := dataRowCount + 1;
      more := sheet.dimensionRows >= dataRowCount;
    }

    /**
     * AddParseException: the error goes into the log under the current row,
     * and the cell (0-based column turned 1-based) gets a mark.  Without a
     * log the call fails.
     */
    method AddParseException(column: int, msg: string, baseEx: Option<ParseErrors.FileParseException>)
      returns (outcome: Outcome<XlsxError>)
      modifies this, if baseEx.Some? then {baseEx.value} else {}
      ensures baseEx.None? ==> outcome == Fail(NullReference) && marks == old(marks)
      ensures baseEx.Some? ==>
                outcome == Pass &&
                baseEx.value.errors == old(baseEx.value.errors) + [ParseErrors.Entry(CurrentRowIdx(), column, msg)] &&
                marks == old(marks) + [Mark(CurrentRowIdx(), column + 1, msg)]
      ensures dataRowCount == old(dataRowCount) && sheetName == old(sheetName)
    {
      if baseEx.None? {
        return Fail(NullReference);
      }
      baseEx.value.AddParseException(dataRowCount, column, msg);
      SetCellMark(column, msg);
      outcome := Pass;
    }

    /** SetCellMark: the comment on the cell of the current row and the next column. */
    method SetCellMark(column: int, msg: string)
      modifies this
      ensures marks == old(marks) + [Mark(dataRowCount, column + 1, msg)]
      ensures dataRowCount == old(dataRowCount) && sheetName == old(sheetName)
    {
      var col := column + 1;
      marks := marks + [Mark(CurrentRowIdx(), col, msg)];
    }

    /**
     * ReadString: the text of column `index` (0-based) in the current row;
     * when the cell cannot be read, the error is logged and no text is given.
     */
    method ReadString(index: int, baseEx: Option<ParseErrors.FileParseException>)
      returns (r: Result<Option<string>, XlsxError>)
      modifies this, if baseEx.Some? then {baseEx.value} else {}
      ensures CellValue(sheet, CurrentRowIdx(), index + 1).Ok? ==>
                r == CellValue(sheet, CurrentRowIdx(), index + 1) && marks == old(marks) &&
                (baseEx.Some? ==> baseEx.value.errors == old(baseEx.value.errors))
      ensures CellValue(sheet, CurrentRowIdx(), index + 1).Err? && baseEx.Some? ==>
                r == Ok(None) &&
                baseEx.value.errors == old(baseEx.value.errors) +
                  [ParseErrors.Entry(CurrentRowIdx(), index, "Can not get string value")] &&
                marks == old(marks) + [Mark(CurrentRowIdx(), index + 1, "Can not get string value")]
      ensures CellValue(sheet, CurrentRowIdx(), index + 1).Err? && baseEx.None? ==>
                r == Err(NullReference) && marks == old(marks)
      ensures dataRowCount == old(dataRowCount) && sheetName == old(sheetName)
    {
      var value := CellValue(sheet, dataRowCount, index + 1);
      if value.Ok? {
        return value;
      }
      var logged := AddParseException(index, "Can not get string value", baseEx);
      if logged.Fail? {
        return Err(logged.error);
      }
      r := Ok(None);
    }
  }

  /** The results of `n` successive reads from row counter `count`. */
  function ReadResults(rows: nat, count: int, n: nat): (r: seq<bool>)
    ensures |r| == n
    ensures forall i :: 0 <= i < n ==> (r[i] <==> count + i + 1 <= rows)
    decreases n
  {
    if n == 0 then [] else [count + 1 <= rows] + ReadResults(rows, count + 1, n - 1)
  }

  /** Once Read has said false it keeps saying false: the trues come first. */
  lemma OnceFalseAlwaysFalse(rows: nat, count: int, n: nat, i: nat, j: nat)
    requires i <= j < n
    ensures !ReadResults(rows, count, n)[i] ==> !ReadResults(rows, count, n)[j]
  {
  }

  /** The first sheet of that name, as an index. */
  function FindSheet(sheets: seq<Worksheet>, name: string): (k: Option<nat>)
    ensures k.Some? ==> k.value < |sheets| && sheets[k.value].name == name &&
                        forall j :: 0 <= j < k.value ==> sheets[j].name != name
    ensures k.None? ==> forall j :: 0 <= j < |sheets| ==> sheets[j].name != name
    decreases |sheets|
  {
    if |sheets| == 0 then None
    else if sheets[0].name == name then Some(0)
    else match FindSheet(sheets[1..], name)
      case None => None
      case Some(k) => Some(k + 1)
  }

  /** XlsxByRowReader(worksheet, firstDataRow): a negative first row is rejected. */
  method OpenSheet(ws: Worksheet, firstDataRow: int) returns (r: Result<XlsxByRowReader, XlsxError>)
    ensures firstDataRow < 0 <==> r == Err(ArgumentNull(NegativeRowMessage))
    ensures r.Ok? ==> fresh(r.value) && r.value.sheet == ws && r.value.CurrentRowIdx() == firstDataRow &&
                      r.value.sheetName == ws.name && r.value.marks == []
  {
    if firstDataRow < 0 {
      return Err(ArgumentNull(NegativeRowMessage));
    }
    var reader := new XlsxByRowReader(ws, firstDataRow, ws.name);
    return Ok(reader);
  }

  /**
   * XlsxByRowReader(stream, firstDataRow, worksheetName): the guards in
   * order (negative first row, missing or empty name, missing stream), then
   * the sheet of that name, or KeyNotFound.
   */
  method OpenNamed(stream: Option<seq<Worksheet>>, firstDataRow: int, worksheetName: Option<string>)
    returns (r: Result<XlsxByRowReader, XlsxError>)
    ensures firstDataRow < 0 ==> r == Err(ArgumentNull(NegativeRowMessage))
    ensures firstDataRow >= 0 && (worksheetName.None? || worksheetName.value == "") ==>
              r == Err(ArgumentNull("worksheetName"))
    ensures firstDataRow >= 0 && worksheetName.Some? && worksheetName.value != "" && stream.None? ==>
              r == Err(ArgumentNull("fileStream"))
    ensures firstDataRow >= 0 && worksheetName.Some? && worksheetName.value != "" && stream.Some? ==>
              match FindSheet(stream.value, worksheetName.value)
              case None => r.Err? && r.error.KeyNotFound?
              case Some(k) => r.Ok? && fresh(r.value) && r.value.sheet == stream.value[k] &&
                              r.value.CurrentRowIdx() == firstDataRow && r.value.sheetName == worksheetName.value
  {
    if firstDataRow < 0 {
      return Err(ArgumentNull(NegativeRowMessage));
    }
    if worksheetName.None? || worksheetName.value == "" {
      return Err(ArgumentNull("worksheetName"));
    }
    if stream.None? {
      return Err(ArgumentNull("fileStream"));
    }
    var found := FindSheet(stream.value, worksheetName.value);
    if found.None? {
      return Err(KeyNotFound("Не найден лист с именем: " + worksheetName.value));
    }
    var reader := new XlsxByRowReader(stream.value[found.value], firstDataRow, worksheetName.value);
    return Ok(reader);
  }

  /**
   * The sheet the numbered constructor opens, as written: a negative number
   * is counted from the end through the package field, which is not yet
   * assigned at that point, so every negative number fails.
   */
  function SheetByNumber(sheets: seq<Worksheet>, num: int): (r: Result<nat, XlsxError>)
    ensures r.Ok? <==> 0 <= num < |sheets|
    ensures r.Ok? ==> r.value == num
  {
    if num < 0 then Err(NullReference)
    else if num < |sheets| then Ok(num)
    else Err(IndexOutOfRange)
  }

  /** Every negative sheet number fails, whatever the workbook: the count from the end never happens. */
  lemma NegativeNumberNeverOpens(sheets: seq<Worksheet>, num: int)
    requires num < 0
    ensures SheetByNumber(sheets, num) == Err(NullReference)
  {
  }

  /** The sheet the numbered constructor is meant to open: a negative number counts from the end. */
  function SheetFromEnd(sheets: seq<Worksheet>, num: int): (r: Result<nat, XlsxError>)
    ensures r.Ok? <==> -|sheets| <= num < |sheets|
    ensures r.Ok? ==> r.value == (if num < 0 then |sheets| + num else num)
    ensures r.Err? ==> r.error == IndexOutOfRange
  {
    var n := if num < 0 then |sheets| + num else num;
    if 0 <= n < |sheets| then Ok(n) else Err(IndexOutOfRange)
  }

  /** Counted from the end, -1 is the last sheet and -|sheets| the first; non-negative numbers agree with the code as written. */
  lemma {:induction false} FromEndOpensLast(sheets: seq<Worksheet>, num: int)
    requires |sheets| > 0
    ensures SheetFromEnd(sheets, -1) == Ok(|sheets| - 1)
    ensures SheetFromEnd(sheets, -|sheets|) == Ok(0)
    ensures num >= 0 ==> SheetFromEnd(sheets, num) == SheetByNumber(sheets, num)
  {
  }

  /**
   * XlsxByRowReader(stream, firstDataRow, worksheetNum): the guards in order
   * (negative first row, missing stream), then the numbered sheet, counted
   * from the end when negative.
   */
  method OpenNumbered(stream: Option<seq<Worksheet>>, firstDataRow: int, worksheetNum: int)
    returns (r: Result<XlsxByRowReader, XlsxError>)
    ensures firstDataRow < 0 ==> r == Err(ArgumentNull(NegativeRowMessage))
    ensures firstDataRow >= 0 && stream.None? ==> r == Err(ArgumentNull("fileStream"))
    ensures firstDataRow >= 0 && stream.Some? ==>
              match SheetFromEnd(stream.value, worksheetNum)
              case Err(e) => r == Err(e)
              case Ok(k) => r.Ok? && fresh(r.value) && r.value.sheet == stream.value[k] &&
                            r.value.CurrentRowIdx() == firstDataRow && r.value.sheetName == stream.value[k].name
  {
    if firstDataRow < 0 {
      return Err(ArgumentNull(NegativeRowMessage));
    }
    if stream.None? {
      return Err(ArgumentNull("fileStream"));
    }
    var num := SheetFromEnd(stream.value, worksheetNum);
    if num.Err? {
      return Err(num.error);
    }
    var ws := stream.value[num.value];
    var reader := new XlsxByRowReader(ws, firstDataRow, ws.name);
    return Ok(reader);
  }

  // ----- All sheets -----

  /**
   * What one Read of the all-sheets reader does, from sheet counter `k`
   * (the current sheet is `sheets[k - 1]`) and row counter `count`: the
   * result, the new sheet counter and the new row counter.
   */
  function AllSheetsRead(sheets: seq<Worksheet>, firstRow: int, k: nat, count: int): (res: (bool, nat, int))
    requires 1 <= k <= |sheets|
    ensures k <= res.1 <= |sheets|
    // the current sheet still has rows: no switch
    ensures count + 1 <= sheets[k - 1].dimensionRows ==> res == (true, k, count + 1)
    // a true result is a row within the used range of the sheet now current
    ensures res.0 ==> res.2 <= sheets[res.1 - 1].dimensionRows
    // false only at the end of the last sheet
    ensures !res.0 ==> res.1 == |sheets| && res.2 > sheets[|sheets| - 1].dimensionRows
    // a switch starts the new sheet one row after the first row
    ensures res.1 > k ==> res.2 == firstRow + 1
    decreases |sheets| - k
  {
    var readRes := count + 1 <= sheets[k - 1].dimensionRows;
    if !readRes && k < |sheets| then AllSheetsRead(sheets, firstRow, k + 1, firstRow)
    else if k == |sheets| && !readRes then (false, k, count + 1)
    else (readRes, k, count + 1)
  }

  /** Sheets skipped by one Read are those with no row after the first row. */
  lemma {:induction false} SkippedSheetsEmpty(sheets: seq<Worksheet>, firstRow: int, k: nat, count: int, j: nat)
    requires 1 <= k <= |sheets|
    requires k < j < AllSheetsRead(sheets, firstRow, k, count).1
    ensures sheets[j - 1].dimensionRows <= firstRow
    decreases |sheets| - k
  {
    var readRes := count + 1 <= sheets[k - 1].dimensionRows;
    if !readRes && k < |sheets| {
      if j > k + 1 {
        SkippedSheetsEmpty(sheets, firstRow, k + 1, firstRow, j);
      }
    }
  }

  /** The reader over every worksheet of a workbook. */
  class XlsxByRowAllSheetsReader {
    const firstRow: int
    const sheets: seq<Worksheet>
    const sheetsCount: int
    var reader: XlsxByRowReader
    var wsCounter: int

    ghost predicate Valid()
      reads this, reader
    {
      firstRow >= 0 && sheetsCount == |sheets| && 1 <= wsCounter <= sheetsCount &&
      reader.sheet == sheets[wsCounter - 1]
    }

    constructor(sheets: seq<Worksheet>, firstRow: int)
      requires |sheets| > 0 && firstRow >= 0
      ensures Valid() && this.sheets == sheets && this.firstRow == firstRow
      ensures wsCounter == 1 && fresh(reader)
      ensures reader.CurrentRowIdx() == firstRow && reader.sheetName == sheets[0].name && reader.marks == []
    {
      this.firstRow := firstRow;
      this.sheets := sheets;
      sheetsCount := |sheets|;
      wsCounter := 1;
      reader := new XlsxByRowReader(sheets[0], firstRow, sheets[0].name);
    }

    /** CurrentRowIdx: the current sheet reader's row counter. */
    function CurrentRowIdx(): int
      reads this, reader
    {
      reader.CurrentRowIdx()
    }

    /** SheetName: the current sheet reader's sheet name. */
    function SheetName(): string
      reads this, reader
    {
      reader.sheetName
    }

    /**
     * Read: reads the current sheet; when it is exhausted and sheets remain,
     * opens the next one at the first row and reads again.
     */
    method Read() returns (more: bool)
      requires Valid()
      modifies this, reader
      ensures Valid()
      ensures (more, wsCounter, CurrentRowIdx()) == AllSheetsRead(sheets, firstRow, old(wsCounter), old(CurrentRowIdx()))
      ensures wsCounter == old(wsCounter) ==> reader == old(reader) && reader.marks == old(reader.marks) && SheetName() == old(SheetName())
      ensures wsCounter != old(wsCounter) ==> fresh(reader) && reader.marks == [] && SheetName() == sheets[wsCounter - 1].name
      decreases sheetsCount - wsCounter
    {
      var readRes := reader.Read();
      if !readRes && wsCounter < sheetsCount {
        var ws := sheets[wsCounter];
        reader := new XlsxByRowReader(ws, firstRow, ws.name);
        wsCounter := wsCounter + 1;
        more := Read();
        return;
      } else if wsCounter == sheetsCount && !readRes {
        return false;
      }
      more := readRes;
    }

    /** AddParseException: passed to the current sheet reader. */
    method AddParseException(column: int, msg: string, baseEx: Option<ParseErrors.FileParseException>)
      returns (outcome: Outcome<XlsxError>)
      requires Valid()
      modifies reader, if baseEx.Some? then {baseEx.value} else {}
      ensures Valid()
      ensures baseEx.None? ==> outcome == Fail(NullReference)
      ensures baseEx.Some? ==>
                outcome == Pass &&
                baseEx.value.errors == old(baseEx.value.errors) + [ParseErrors.Entry(CurrentRowIdx(), column, msg)] &&
                reader.marks == old(reader.marks) + [Mark(CurrentRowIdx(), column + 1, msg)]
      ensures baseEx.None? ==> reader.marks == old(reader.marks)
      ensures reader.dataRowCount == old(reader.dataRowCount) && reader.sheetName == old(reader.sheetName)
    {
      outcome := reader.AddParseException(column, msg, baseEx);
    }
  }

  /**
   * XlsxByRowAllSheetsReader(stream, firstRow): a missing stream and a
   * workbook without sheets are rejected, and so is a negative first row,
   * by the first sheet's reader; otherwise reading starts on sheet 0.
   */
  method OpenAllSheets(stream: Option<seq<Worksheet>>, firstRow: int)
    returns (r: Result<XlsxByRowAllSheetsReader, XlsxError>)
    ensures stream.None? ==> r == Err(ArgumentNull("stream"))
    ensures stream.Some? && |stream.value| == 0 ==> r == Err(ArgumentNull("_sheetsCount"))
    ensures stream.Some? && |stream.value| > 0 && firstRow < 0 ==> r == Err(ArgumentNull(NegativeRowMessage))
    ensures stream.Some? && |stream.value| > 0 && firstRow >= 0 ==>
              r.Ok? && fresh(r.value) && r.value.Valid() && r.value.sheets == stream.value &&
              r.value.wsCounter == 1 && r.value.CurrentRowIdx() == firstRow && r.value.SheetName() == stream.value[0].name
  {
    if stream.None? {
      return Err(ArgumentNull("stream"));
    }
    if |stream.value| == 0 {
      return Err(ArgumentNull("_sheetsCount"));
    }
    if firstRow < 0 {
      return Err(ArgumentNull(NegativeRowMessage));
    }
    var reader := new XlsxByRowAllSheetsReader(stream.value, firstRow);
    return Ok(reader);
  }
}
