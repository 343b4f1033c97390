/** The settings the core reads, as one immutable record. Field names are the
    JSON keys of config.json; the root package spells the column list
    "OutLinesColomns", which here is OutLinesColumns as in the lib package.
    Settings that only name files read or written outside the core (the flat
    file, the log, the missing-audit input) and the zip switches are not part
    of this record. */
module Config {

  datatype Configuration = Configuration(
    // In
    InDir: string,
    InFileExt: string,
    // Out
    OutDir: string,
    OutLinesName: string,
    OutLinesErrorName: string,
    OutLinesColumns: string,
    OutLinesRowOffset: int,
    OutLinesDuplicateName: string,
    // Files
    OutFileExt: string,
    OutFileRenameInt: bool,
    OutFileRenameIntOffset: int,
    OutXtenderStructure: bool,
    // AutoBatch
    OutAutoBatch: bool,
    OutAutoBatchCount: int,
    OutAutoBatchName: string,
    OutAutoBatchZeroPad: int,
    // Missing
    Missing: bool,
    MissingCount: int,  // the audit's counter, kept in the configuration
    // Global
    DirDepth: int,
    FolderSize: int,
    Delimiter: string,
    // Columns
    ColObjectID: int,
    ColFileName: int,
    ColFileExtIn: int,
    ColFileExtOut: int)

  /** A configuration with a positive-depth bucket path needs a FolderSize
      other than 0. With FolderSize 0 the floating-point formula divides by
      0 ** i: ID 0 gives NaN (0 / 0), any other ID gives +Inf or -Inf, and
      math.Mod of either by 0 is NaN, which int() turns into an
      implementation-defined integer without a panic. The model assumes
      FolderSize != 0 instead. */
  predicate Valid(c: Configuration)
  {
    c.DirDepth > 0 ==> c.FolderSize != 0
  }

  /** How many times processIn's row-offset loop runs. */
  function Offset(c: Configuration): nat
  {
    if c.OutLinesRowOffset > 0 then c.OutLinesRowOffset else 0
  }

  /** How many rows of the input file the row-offset loop consumes: Offset
      of them, or all when the file is shorter, since the result of Scan is
      ignored there. */
  function Consumed(c: Configuration, lines: seq<string>): (r: nat)
    ensures r <= |lines| && r <= Offset(c)
    ensures r == Offset(c) || r == |lines|
  {
    if Offset(c) < |lines| then Offset(c) else |lines|
  }
}
