/**
 * The description of a data file: its data groups (the sheets of a
 * workbook, or the one table of a text file), each with its columns and a
 * preview of its first rows, plus the file-wide settings the header readers
 * fill in.  A data group can be replaced in place by a base group, keeping
 * the preview rows it already holds.
 */
module FileDescriptions {
  import opened Wrappers

  datatype FileType = Unknown | Xlsx | Csv | Las | Txt

  /** A column of a data group: its name, its position in the row, whether it is imported. */
  datatype ColumnDescription = ColumnDescription(name: string, position: int, needImport: bool)

  /** A preview row: one value per column, absent where the cell could not be read. */
  datatype FileRow = FileRow(values: seq<Option<string>>)

  /** The part of a data group a caller can supply: its name, first data row and columns. */
  datatype DataGroupBase = DataGroupBase(
    name: string,
    firstRowIndex: Option<int>,
    columnDescriptions: Option<seq<ColumnDescription>>)

  datatype DataGroup = DataGroup(
    name: string,
    firstRowIndex: Option<int>,
    columnDescriptions: Option<seq<ColumnDescription>>,
    rowsPreview: Option<seq<FileRow>>)

  /** The base part of a data group. */
  function BaseOf(g: DataGroup): DataGroupBase
  {
    DataGroupBase(g.name, g.firstRowIndex, g.columnDescriptions)
  }

  /** Indexing a list outside its bounds. */
  datatype IndexError = ArgumentOutOfRange

  /**
   * The list after slot `idx` is replaced: the new group takes name, first
   * row and columns from the base group and keeps the old preview rows.
   */
  function Replaced(groups: seq<DataGroup>, baseGroup: DataGroupBase, idx: nat): (r: seq<DataGroup>)
    requires idx < |groups|
    ensures |r| == |groups|
    ensures forall j :: 0 <= j < |groups| && j != idx ==> r[j] == groups[j]
    ensures BaseOf(r[idx]) == baseGroup && r[idx].rowsPreview == groups[idx].rowsPreview
  {
    groups[idx := DataGroup(baseGroup.name, baseGroup.firstRowIndex, baseGroup.columnDescriptions,
                            groups[idx].rowsPreview)]
  }

  /** Replacing a slot twice with the same base group is the same as replacing it once. */
  lemma ReplacedIdempotent(groups: seq<DataGroup>, baseGroup: DataGroupBase, idx: nat)
    requires idx < |groups|
    ensures Replaced(Replaced(groups, baseGroup, idx), baseGroup, idx) == Replaced(groups, baseGroup, idx)
  {
  }

  /** Replacing a slot with its own base part leaves the list as it was. */
  lemma ReplacedByOwnBase(groups: seq<DataGroup>, idx: nat)
    requires idx < |groups|
    ensures Replaced(groups, BaseOf(groups[idx]), idx) == groups
  {
    assert Replaced(groups, BaseOf(groups[idx]), idx)[idx] == groups[idx];
  }

  /** Replacements of two different slots commute. */
  lemma ReplacedCommute(groups: seq<DataGroup>, b1: DataGroupBase, i: nat, b2: DataGroupBase, j: nat)
    requires i < |groups| && j < |groups| && i != j
    ensures Replaced(Replaced(groups, b1, i), b2, j) == Replaced(Replaced(groups, b2, j), b1, i)
  {
  }

  /** The description a header reader fills in; the list of groups may be absent. */
  class FileDescription {
    var dataGroups: Option<seq<DataGroup>>
    var fileType: FileType
    var rowsInPreview: int

    constructor(rowsInPreview: int)
      ensures dataGroups == None && fileType == Unknown && this.rowsInPreview == rowsInPreview
    {
      dataGroups := None;
      fileType := Unknown;
      this.rowsInPreview := rowsInPreview;
    }

    /**
     * ReplacaGroup: with no list nothing happens; an index outside the list
     * fails (the list indexer throws); otherwise slot `idx` is replaced.
     */
    method ReplaceGroup(baseGroup: DataGroupBase, idx: int) returns (r: Outcome<IndexError>)
      modifies this
      ensures fileType == old(fileType) && rowsInPreview == old(rowsInPreview)
      ensures old(dataGroups).None? ==> r == Pass && dataGroups == old(dataGroups)
      ensures old(dataGroups).Some? && !(0 <= idx < |old(dataGroups).value|) ==>
                r == Fail(ArgumentOutOfRange) && dataGroups == old(dataGroups)
      ensures old(dataGroups).Some? && 0 <= idx < |old(dataGroups).value| ==>
                r == Pass && dataGroups == Some(Replaced(old(dataGroups).value, baseGroup, idx))
    {
      r := Pass;
      if dataGroups.Some? {
        var groups := dataGroups.value;
        if !(0 <= idx < |groups|) {
          return Fail(ArgumentOutOfRange);
        }
        var grp := groups[idx];
        groups := groups[idx := DataGroup(baseGroup.name, baseGroup.firstRowIndex,
                                          baseGroup.columnDescriptions, grp.rowsPreview)];
        dataGroups := Some(groups);
      }
    }
  }
}
