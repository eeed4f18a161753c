/**
 * The choice of header reader by file extension.  The match is exact and
 * case-sensitive; an unknown extension yields no reader.
 */
module ReaderFactory {
  import opened Wrappers
  import FileKeys

  /** The header readers a file can be given. */
  datatype HeaderReader = CsvHeaderReader | XlsxHeaderReader | LasHeaderReader

  /** The extensions that have a reader. */
  const KnownExtensions: set<string> := {".txt", ".csv", ".xlsx", ".las"}

  /** CreateReader(extension): the switch over the extension text. */
  function CreateReader(extension: string): (r: Option<HeaderReader>)
    ensures r.Some? <==> extension in KnownExtensions
    ensures r == Some(CsvHeaderReader) <==> extension == ".txt" || extension == ".csv"
    ensures r == Some(XlsxHeaderReader) <==> extension == ".xlsx"
    ensures r == Some(LasHeaderReader) <==> extension == ".las"
  {
    match extension
    case ".txt" => Some(CsvHeaderReader)
    case ".csv" => Some(CsvHeaderReader)
    case ".xlsx" => Some(XlsxHeaderReader)
    case ".las" => Some(LasHeaderReader)
    case _ => None
  }

  /** Case matters: the upper-case spellings of the known extensions get no reader. */
  lemma UpperCaseUnknown()
    ensures CreateReader(".CSV") == None && CreateReader(".TXT") == None
    ensures CreateReader(".XLSX") == None && CreateReader(".LAS") == None
  {
  }

  /**
   * Path.GetExtension on a Unix path: from the last '.' of the last path
   * segment to the end, or empty when that segment has no '.' or ends with it.
   */
  function Extension(path: string): (ext: string)
    ensures |ext| <= |path|
    ensures ext == "" || (|ext| > 1 && ext[0] == '.' && ext == path[|path| - |ext|..])
    ensures |ext| > 0 ==> forall k :: 1 <= k < |ext| ==> ext[k] != '.' && ext[k] != '/'
  {
    match DotBefore(path, |path|)
    case None => ""
    case Some(k) => if k == |path| - 1 then "" else path[k..]
  }

  /** The last '.' before position `i` with no '/' between it and `i`, if any. */
  function DotBefore(path: string, i: nat): (k: Option<nat>)
    requires i <= |path|
    ensures k.Some? ==> k.value < i && path[k.value] == '.'
    ensures k.Some? ==> forall j :: k.value < j < i ==> path[j] != '.' && path[j] != '/'
    decreases i
  {
    if i == 0 || path[i - 1] == '/' then None
    else if path[i - 1] == '.' then Some(i - 1)
    else DotBefore(path, i - 1)
  }

  /** Scanning back from inside an extension reaches its '.'. */
  lemma {:induction false} DotBeforeSuffix(stem: string, ext: string, i: nat)
    requires |ext| > 1 && ext[0] == '.'
    requires forall k :: 1 <= k < |ext| ==> ext[k] != '.' && ext[k] != '/'
    requires |stem| < i <= |stem + ext|
    ensures DotBefore(stem + ext, i) == Some(|stem|)
    decreases i
  {
    var path := stem + ext;
    assert path[i - 1] == ext[i - 1 - |stem|];
    if i > |stem| + 1 {
      DotBeforeSuffix(stem, ext, i - 1);
    }
  }

  /** A name ending in an extension (a '.' and then neither '.' nor '/') has that extension, whatever precedes it. */
  lemma ExtensionOfSuffix(stem: string, ext: string)
    requires |ext| > 1 && ext[0] == '.'
    requires forall k :: 1 <= k < |ext| ==> ext[k] != '.' && ext[k] != '/'
    ensures Extension(stem + ext) == ext
  {
    DotBeforeSuffix(stem, ext, |stem + ext|);
    assert (stem + ext)[|stem|..] == ext;
  }

  /** CreateReader(descriptor): the same switch over the extension of the descriptor's file name. */
  function CreateReaderFor(descriptor: FileKeys.FileDescriptor): (r: Option<HeaderReader>)
    ensures r.Some? ==> Extension(descriptor.fileName) in KnownExtensions
  {
    CreateReader(Extension(descriptor.fileName))
  }

  /** A descriptor whose file name ends in ".las" gets the LAS reader, and ".xlsx" the workbook reader. */
  lemma ReaderForName(descriptor: FileKeys.FileDescriptor, stem: string)
    ensures descriptor.fileName == stem + ".las" ==> CreateReaderFor(descriptor) == Some(LasHeaderReader)
    ensures descriptor.fileName == stem + ".xlsx" ==> CreateReaderFor(descriptor) == Some(XlsxHeaderReader)
    ensures descriptor.fileName == stem + ".csv" ==> CreateReaderFor(descriptor) == Some(CsvHeaderReader)
  {
    if descriptor.fileName == stem + ".las" {
      ExtensionOfSuffix(stem, ".las");
    } else if descriptor.fileName == stem + ".xlsx" {
      ExtensionOfSuffix(stem, ".xlsx");
    } else if descriptor.fileName == stem + ".csv" {
      ExtensionOfSuffix(stem, ".csv");
    }
  }

  /** A name with no '.' in its last segment has no extension, so no reader. */
  lemma NoDotNoReader(descriptor: FileKeys.FileDescriptor)
    requires '.' !in descriptor.fileName
    ensures CreateReaderFor(descriptor) == None
  {
  }
}
