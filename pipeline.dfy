/** What ProcessLine does to a line, independently of which Line variant
    runs it: the variables it changes, the one output sink the line ends in,
    and the shared second half of the procedure, from the in path to the
    index line. */
module Pipeline {
  import opened Common
  import opened Text
  import opened Config
  import opened Paths
  import opened Columns
  import opened Files

  /** The variables ProcessLine reads and writes: the Line's ID and path, the
      last ID seen (a Line field, or the global `last` of main.go) and the
      counters (Line fields in lib/, package globals in the root package). */
  datatype Vars = Vars(id: int, lastID: int, path: string, successful: int, failed: int, duplicates: int)

  /** The output ID when output files are renamed: the number of successful
      copies so far plus OutFileRenameIntOffset. */
  function RenamedID(c: Configuration, v: Vars): int
  {
    v.successful + c.OutFileRenameIntOffset
  }

  /** Where the line goes: nowhere, outDups, errorLines, or an index file
      (with the text written there). */
  datatype Sink = NoSink | DupSink | ErrorSink | IndexSink(file: string, text: string)

  /** The whole effect of processing one line: what ProcessLine returns (or
      the panic that ends the run), the new variables, the new files and the
      sink. */
  datatype Verdict = Verdict(result: Outcome<bool>, vars: Vars, files: map<string, seq<bv8>>, sink: Sink)

  /** The disk after a verdict on the line `line`: the files it left and its
      single sink write. */
  function Deliver(w: World, v: Verdict, line: string): (r: World)
    ensures r.files == v.files && r.reports == w.reports
    ensures r.dups == w.dups + (if v.sink == DupSink then [line] else [])
    ensures r.errors == w.errors + (if v.sink == ErrorSink then [line] else [])
    ensures r.index == if v.sink.IndexSink? then Append(w.index, v.sink.file, v.sink.text) else w.index
  {
    var w1 := w.(files := v.files);
    match v.sink
    case NoSink => w1
    case DupSink => w1.(dups := w.dups + [line])
    case ErrorSink => w1.(errors := w.errors + [line])
    case IndexSink(f, t) => w1.(index := Append(w.index, f, t))
  }

  /** The second half of ProcessLine, once the in path and the index file are
      known: GetOutPath on the copy `lo` (output ID `outID`, Dir `dir0`),
      MkdirAll, and then Deposit. */
  function Tail(c: Configuration, cols: seq<string>, v: Vars, inPath: string, outID: int, dir0: string,
                indexFile: string, files: map<string, seq<bv8>>, unwritable: set<string>): (r: Verdict)
    requires Valid(c)
  {
    match OutLocation(c, cols, outID, dir0)
    case Panic(f) => Verdict(Panic(f), v, files, NoSink)
    case Ok(loc) =>
      match MakeDir(unwritable, loc.dir)
      case Some(f) => Verdict(Panic(f), v, files, NoSink)
      case None => Deposit(c, cols, v, inPath, loc.path, indexFile, files, unwritable)
  }

  /** copy to `outPath`, GenLineFromColumns and the index line, which is the
      projected columns, the delimiter and the out path. */
  function Deposit(c: Configuration, cols: seq<string>, v: Vars, inPath: string, outPath: string,
                   indexFile: string, files: map<string, seq<bv8>>, unwritable: set<string>): (r: Verdict)
  {
    match Transfer(files, unwritable, inPath, outPath)
    case Panic(f) => Verdict(Panic(f), v, files, NoSink)
    case Ok(NoSource(_)) => Verdict(Ok(false), v.(failed := v.failed + 1), files, ErrorSink)
    case Ok(Copied(after)) =>
      var v1 := v.(successful := v.successful + 1);
      match Project(c.OutLinesColumns, cols, c.Delimiter)
      case Panic(f) => Verdict(Panic(f), v1, after, NoSink)
      case Ok(BadEntry(_)) => Verdict(Ok(false), v1, after, ErrorSink)
      case Ok(Projected(t)) => Verdict(Ok(true), v1, after, IndexSink(indexFile, t + c.Delimiter + outPath))
  }

  /** ProcessLine of lib/line.go and line.go from GetInPath on, for a line
      whose ID (v.id) passed the duplicate check: the in path (with source
      file name `name`) is stored in Path, then OutLineFile opens the index
      file of output ID `outID`, and the rest is Tail. */
  function Resume(c: Configuration, cols: seq<string>, v: Vars, name: string, outID: int, dir0: string,
                  files: map<string, seq<bv8>>, unwritable: set<string>): (r: Verdict)
    requires Valid(c)
  {
    match InPath(c, cols, v.id, name)
    case Panic(f) => Verdict(Panic(f), v, files, NoSink)
    case Ok(inPath) => Open(c, cols, v.(path := inPath), inPath, outID, dir0, files, unwritable)
  }

  /** OutLineFile on the copy `lo` with output ID `outID`, whose failure is
      log.Fatal, and then Tail. */
  function Open(c: Configuration, cols: seq<string>, v: Vars, inPath: string, outID: int, dir0: string,
                files: map<string, seq<bv8>>, unwritable: set<string>): (r: Verdict)
    requires Valid(c)
  {
    match IndexFile(c, outID)
    case Panic(f) => Verdict(Panic(f), v, files, NoSink)
    case Ok(indexFile) =>
      match OpenSink(unwritable, indexFile)
      case Some(f) => Verdict(Panic(f), v, files, NoSink)
      case None => Tail(c, cols, v, inPath, outID, dir0, indexFile, files, unwritable)
  }

  /** What the run does before its first row, in both packages: Mkdir of
      OutDir panics when the directory cannot be made, and opening the
      duplicates file and then the error file under OutDir is log.Fatal on
      failure. */
  function Opening(c: Configuration, unwritable: set<string>): (r: Option<Fault>)
    ensures r.None? <==> c.OutDir !in unwritable && JoinPath([c.OutDir, c.OutLinesDuplicateName]) !in unwritable
                         && JoinPath([c.OutDir, c.OutLinesErrorName]) !in unwritable
    ensures c.OutDir in unwritable ==> r == Some(MkdirFailed(c.OutDir))
  {
    match MakeDir(unwritable, c.OutDir)
    case Some(f) => Some(f)
    case None =>
      match OpenSink(unwritable, JoinPath([c.OutDir, c.OutLinesDuplicateName]))
      case Some(f) => Some(f)
      case None => OpenSink(unwritable, JoinPath([c.OutDir, c.OutLinesErrorName]))
  }

  /** The copy is attempted: the out location is known and its directory
      could be made. */
  predicate CopyAttempted(c: Configuration, cols: seq<string>, outID: int, dir0: string, unwritable: set<string>)
    requires Valid(c)
  {
    OutLocation(c, cols, outID, dir0).Ok? && MakeDir(unwritable, OutLocation(c, cols, outID, dir0).value.dir).None?
  }

  /** The accounting of copy as seen from ProcessLine: a missing source adds 1
      to `failed`, a copy adds 1 to `successful`, and nothing else changes
      the counters; the index line is written only after a copy and a
      projection that both succeeded, and a failed projection after a
      successful copy still sends the line to the error file. */
  lemma TailAccounting(c: Configuration, cols: seq<string>, v: Vars, inPath: string, outID: int, dir0: string,
                       indexFile: string, files: map<string, seq<bv8>>, unwritable: set<string>)
    requires Valid(c)
    ensures var r := Tail(c, cols, v, inPath, outID, dir0, indexFile, files, unwritable);
      var attempted := CopyAttempted(c, cols, outID, dir0, unwritable);
      var loc := OutLocation(c, cols, outID, dir0);
      var dst := if loc.Ok? then loc.value.path else "";
      && r.vars.id == v.id && r.vars.lastID == v.lastID && r.vars.path == v.path
      && r.vars.duplicates == v.duplicates
      && r.vars.failed == v.failed + (if attempted && !Present(files, inPath) then 1 else 0)
      && r.vars.successful == v.successful
         + (if attempted && Present(files, inPath) && dst !in unwritable then 1 else 0)
      && (r.result == Ok(true) <==> r.sink.IndexSink?)
      && (r.result.Panic? ==> r.sink == NoSink)
      && (r.result == Ok(false) ==> r.sink == ErrorSink)
      && r.sink != DupSink
      && (r.sink.IndexSink? ==>
            && r.sink.file == indexFile
            && Project(c.OutLinesColumns, cols, c.Delimiter).Ok?
            && Project(c.OutLinesColumns, cols, c.Delimiter).value.Projected?
            && r.sink.text == Project(c.OutLinesColumns, cols, c.Delimiter).value.text + c.Delimiter + dst)
      && (r.sink == ErrorSink && r.vars.successful == v.successful + 1 ==>
            Project(c.OutLinesColumns, cols, c.Delimiter) == Ok(BadEntry(Project(c.OutLinesColumns, cols, c.Delimiter).value.entry)))
      && (r.files != files ==> attempted && r.vars.successful == v.successful + 1)
      && (r.sink.IndexSink? ==> attempted && Present(files, inPath) && dst !in unwritable)
      && (r.result.Ok? ==> r.sink != NoSink)
      && (r.vars.failed == v.failed + 1 ==> r.sink == ErrorSink && r.files == files && r.result == Ok(false))
      && v.failed <= r.vars.failed && v.successful <= r.vars.successful
      && r.vars.failed + r.vars.successful <= v.failed + v.successful + 1
      && (r.vars.failed == v.failed + 1 ==> !Present(files, inPath))
      && (r.vars.successful == v.successful + 1 ==> Present(files, inPath))
  {
    match OutLocation(c, cols, outID, dir0)
    case Panic(_) =>
    case Ok(loc) =>
      if MakeDir(unwritable, loc.dir).None? {
        DepositAccounting(c, cols, v, inPath, loc.path, indexFile, files, unwritable);
      }
  }

  /** The same accounting for the copy onwards, once the out path is known. */
  lemma DepositAccounting(c: Configuration, cols: seq<string>, v: Vars, inPath: string, outPath: string,
                          indexFile: string, files: map<string, seq<bv8>>, unwritable: set<string>)
    ensures var r := Deposit(c, cols, v, inPath, outPath, indexFile, files, unwritable);
      var projection := Project(c.OutLinesColumns, cols, c.Delimiter);
      && r.vars.id == v.id && r.vars.lastID == v.lastID && r.vars.path == v.path
      && r.vars.duplicates == v.duplicates
      && r.vars.failed == v.failed + (if !Present(files, inPath) then 1 else 0)
      && r.vars.successful == v.successful + (if Present(files, inPath) && outPath !in unwritable then 1 else 0)
      && (r.result == Ok(true) <==> r.sink.IndexSink?)
      && (r.result.Panic? ==> r.sink == NoSink)
      && (r.result == Ok(false) ==> r.sink == ErrorSink)
      && r.sink != DupSink
      && (r.sink.IndexSink? ==>
            && r.sink.file == indexFile && projection.Ok? && projection.value.Projected?
            && r.sink.text == projection.value.text + c.Delimiter + outPath)
      && (r.sink == ErrorSink && r.vars.successful == v.successful + 1 ==>
            projection == Ok(BadEntry(projection.value.entry)))
      && (r.files != files ==> r.vars.successful == v.successful + 1)
      && (r.sink.IndexSink? ==> Present(files, inPath) && outPath !in unwritable)
      && (r.result.Ok? ==> r.sink != NoSink)
      && (!Present(files, inPath) ==> r == Verdict(Ok(false), v.(failed := v.failed + 1), files, ErrorSink))
  {
    match Transfer(files, unwritable, inPath, outPath)
    case Panic(_) =>
    case Ok(NoSource(_)) =>
    case Ok(Copied(after)) =>
      match Project(c.OutLinesColumns, cols, c.Delimiter)
      case Panic(_) =>
      case Ok(BadEntry(_)) =>
      case Ok(Projected(t)) =>
  }

  /** The part of ResumeAccounting about the duplicate detection: Resume
      keeps the ID, LastID and the duplicate count and never sends the line
      to the duplicates file. */
  lemma ResumeKeeps(c: Configuration, cols: seq<string>, v: Vars, name: string, outID: int, dir0: string,
                    files: map<string, seq<bv8>>, unwritable: set<string>)
    requires Valid(c)
    ensures var r := Resume(c, cols, v, name, outID, dir0, files, unwritable);
      r.vars.id == v.id && r.vars.lastID == v.lastID && r.vars.duplicates == v.duplicates && r.sink != DupSink
  {
    ResumeAccounting(c, cols, v, name, outID, dir0, files, unwritable);
  }

  /** The part of ResumeAccounting about the counters: `failed` and
      `successful` never decrease, at most one of them grows, the duplicate
      count is kept, and `failed` grows only for a source that is not there. */
  lemma ResumeCounts(c: Configuration, cols: seq<string>, v: Vars, name: string, outID: int, dir0: string,
                     files: map<string, seq<bv8>>, unwritable: set<string>)
    requires Valid(c)
    ensures var r := Resume(c, cols, v, name, outID, dir0, files, unwritable);
      && v.failed <= r.vars.failed && v.successful <= r.vars.successful && r.vars.duplicates == v.duplicates
      && r.vars.failed + r.vars.successful <= v.failed + v.successful + 1
      && (r.vars.failed == v.failed + 1 ==> r.sink == ErrorSink && r.files == files && !Present(files, r.vars.path))
  {
    ResumeAccounting(c, cols, v, name, outID, dir0, files, unwritable);
  }

  /** The part of ResumeAccounting about the index line: it is written only
      after a copy from the stored in path, to the index file of the output
      ID, with the projected columns and the out path. */
  lemma ResumeIndexes(c: Configuration, cols: seq<string>, v: Vars, name: string, outID: int, dir0: string,
                      files: map<string, seq<bv8>>, unwritable: set<string>)
    requires Valid(c)
    ensures var r := Resume(c, cols, v, name, outID, dir0, files, unwritable);
      var inPath := InPath(c, cols, v.id, name);
      var loc := OutLocation(c, cols, outID, dir0);
      var projection := Project(c.OutLinesColumns, cols, c.Delimiter);
      r.sink.IndexSink? ==>
        && r.vars.successful == v.successful + 1
        && inPath.Ok? && r.vars.path == inPath.value && Present(files, r.vars.path)
        && IndexFile(c, outID).Ok? && r.sink.file == IndexFile(c, outID).value
        && loc.Ok? && projection.Ok? && projection.value.Projected?
        && r.sink.text == projection.value.text + c.Delimiter + loc.value.path
  {
    ResumeAccounting(c, cols, v, name, outID, dir0, files, unwritable);
  }

  /** Resume keeps the ID, LastID and the duplicate count, stores the in path
      when it can be computed, and otherwise accounts as Tail does. */
  lemma ResumeAccounting(c: Configuration, cols: seq<string>, v: Vars, name: string, outID: int, dir0: string,
                         files: map<string, seq<bv8>>, unwritable: set<string>)
    requires Valid(c)
    ensures var r := Resume(c, cols, v, name, outID, dir0, files, unwritable);
      && r.vars.id == v.id && r.vars.lastID == v.lastID && r.vars.duplicates == v.duplicates
      && (InPath(c, cols, v.id, name).Ok? ==> r.vars.path == InPath(c, cols, v.id, name).value)
      && (InPath(c, cols, v.id, name).Panic? ==> r.vars == v && r.result.Panic?)
      && r.vars.failed + r.vars.successful <= v.failed + v.successful + 1
      && v.failed <= r.vars.failed && v.successful <= r.vars.successful
      && (r.vars.failed == v.failed + 1 ==> r.sink == ErrorSink && r.files == files && !Present(files, r.vars.path))
      && (r.vars.successful == v.successful + 1 ==> Present(files, r.vars.path))
      && (r.files != files ==> r.vars.successful == v.successful + 1)
      && (r.result == Ok(true) <==> r.sink.IndexSink?)
      && (r.result.Panic? ==> r.sink == NoSink)
      && (r.result == Ok(false) ==> r.sink == ErrorSink)
      && (r.result.Ok? ==> r.sink != NoSink)
      && r.sink != DupSink
      && (r.sink.IndexSink? ==>
            && r.vars.successful == v.successful + 1
            && IndexFile(c, outID).Ok? && r.sink.file == IndexFile(c, outID).value
            && OutLocation(c, cols, outID, dir0).Ok?
            && Project(c.OutLinesColumns, cols, c.Delimiter).Ok?
            && Project(c.OutLinesColumns, cols, c.Delimiter).value.Projected?
            && var dst := OutLocation(c, cols, outID, dir0).value.path;
               && r.sink.text == Project(c.OutLinesColumns, cols, c.Delimiter).value.text + c.Delimiter + dst
               && dst in r.files && (dst != r.vars.path ==> r.files[dst] == files[r.vars.path]))
  {
    match InPath(c, cols, v.id, name)
    case Panic(_) =>
    case Ok(inPath) =>
      var v1 := v.(path := inPath);
      match IndexFile(c, outID)
      case Panic(_) =>
      case Ok(indexFile) =>
        if OpenSink(unwritable, indexFile).None? {
          TailAccounting(c, cols, v1, inPath, outID, dir0, indexFile, files, unwritable);
          var r := Tail(c, cols, v1, inPath, outID, dir0, indexFile, files, unwritable);
          if r.sink.IndexSink? {
            var dst := OutLocation(c, cols, outID, dir0).value.path;
            TransferContents(files, unwritable, inPath, dst);
          }
        }
  }
}
