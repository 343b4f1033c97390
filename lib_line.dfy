/** lib/line.go: the Line of the lib package. One Line lives through the
    whole run and carries the last ID and the counters; ProcessLine works on
    it and on a struct copy `lo` that describes the output side. */
module LibLine {
  import opened Common
  import opened Text
  import opened Bucket
  import opened Config
  import opened Paths
  import opened Columns
  import opened Files
  import opened Pipeline

  /** ProcessLine as a function of the row, the Line's variables, its Dir
      and the filesystem: the empty-line guard, the ID parse, the duplicate
      check against LastID, and then Resume with the "A"+hex source names and
      the output ID successful + OutFileRenameIntOffset when renaming, the
      input ID otherwise. */
  function Step(c: Configuration, cols: seq<string>, v: Vars, dir0: string,
                files: map<string, seq<bv8>>, unwritable: set<string>): (r: Verdict)
    requires Valid(c)
  {
    if |cols| == 1 && cols[0] == "" then Verdict(Ok(false), v, files, NoSink)
    else match Column(cols, c.ColObjectID)
      case Panic(f) => Verdict(Panic(f), v, files, NoSink)
      case Ok(field) =>
        var p := ParseInt(field);
        var v1 := v.(id := p.Returned());
        if !p.Parsed? then Verdict(Ok(false), v1, files, ErrorSink)
        else if v.lastID == p.value then Verdict(Ok(false), v1.(duplicates := v.duplicates + 1), files, DupSink)
        else
          Resume(c, cols, v.(id := p.value, lastID := p.value), LibFileName(p.value), OutputID(c, v, p.value), dir0, files, unwritable)
  }

  /** The ID of the output side: the running count of successful copies
      plus OutFileRenameIntOffset when renaming, the object ID otherwise. */
  function OutputID(c: Configuration, v: Vars, id: int): int
  {
    if c.OutFileRenameInt then RenamedID(c, v) else id
  }

  /** The row passed the empty-line guard and has an ID column. */
  predicate HasID(c: Configuration, cols: seq<string>)
  {
    !(|cols| == 1 && cols[0] == "") && 0 <= c.ColObjectID < |cols|
  }

  /** The parse of the ID column of a row that has one. */
  function RowID(c: Configuration, cols: seq<string>): IntParse
    requires HasID(c, cols)
  {
    ParseInt(cols[c.ColObjectID])
  }

  /** A row whose ID parses and differs from LastID: Step is Resume. */
  lemma StepResumes(c: Configuration, cols: seq<string>, v: Vars, dir0: string,
                    files: map<string, seq<bv8>>, unwritable: set<string>)
    requires Valid(c) && HasID(c, cols) && RowID(c, cols).Parsed? && RowID(c, cols).value != v.lastID
    ensures var id := RowID(c, cols).value;
      Step(c, cols, v, dir0, files, unwritable)
        == Resume(c, cols, v.(id := id, lastID := id), LibFileName(id), OutputID(c, v, id), dir0, files, unwritable)
  {
  }

  /** Every line ends in at most one sink: ProcessLine returns true exactly
      when the line reached an index file, a panic writes nothing, and the
      only normal return that writes nothing is the one for an empty line. */
  lemma OneSink(c: Configuration, cols: seq<string>, v: Vars, dir0: string,
                files: map<string, seq<bv8>>, unwritable: set<string>)
    requires Valid(c)
    ensures var r := Step(c, cols, v, dir0, files, unwritable);
      && (r.result == Ok(true) <==> r.sink.IndexSink?)
      && (r.result.Panic? ==> r.sink == NoSink)
      && (r.result.Ok? && r.sink == NoSink ==> |cols| == 1 && cols[0] == "")
  {
    if HasID(c, cols) && RowID(c, cols).Parsed? && RowID(c, cols).value != v.lastID {
      var id := RowID(c, cols).value;
      StepResumes(c, cols, v, dir0, files, unwritable);
      ResumeAccounting(c, cols, v.(id := id, lastID := id), LibFileName(id), OutputID(c, v, id), dir0, files, unwritable);
    }
  }

  /** An empty text line, which splits into one empty column, is skipped:
      false, no write, nothing changed. */
  lemma EmptyLineSkipped(c: Configuration, v: Vars, dir0: string,
                         files: map<string, seq<bv8>>, unwritable: set<string>)
    requires Valid(c) && c.Delimiter != ""
    ensures Split("", c.Delimiter) == [""]
    ensures Step(c, [""], v, dir0, files, unwritable) == Verdict(Ok(false), v, files, NoSink)
  {
    SplitEmptyLine("", c.Delimiter);
  }

  /** A line is a duplicate exactly when its ID parses to LastID; a
      duplicate is counted once, written to the duplicates file and changes
      nothing else but the ID; no other line touches the duplicate count. */
  lemma DuplicateIff(c: Configuration, cols: seq<string>, v: Vars, dir0: string,
                     files: map<string, seq<bv8>>, unwritable: set<string>)
    requires Valid(c)
    ensures var r := Step(c, cols, v, dir0, files, unwritable);
      && (r.sink == DupSink <==> HasID(c, cols) && RowID(c, cols) == Parsed(v.lastID))
      && (r.sink == DupSink ==>
            r == Verdict(Ok(false), v.(id := v.lastID, duplicates := v.duplicates + 1), files, DupSink))
      && (r.sink != DupSink ==> r.vars.duplicates == v.duplicates)
  {
    if HasID(c, cols) && RowID(c, cols).Parsed? && RowID(c, cols).value != v.lastID {
      var id := RowID(c, cols).value;
      StepResumes(c, cols, v, dir0, files, unwritable);
      ResumeAccounting(c, cols, v.(id := id, lastID := id), LibFileName(id), OutputID(c, v, id), dir0, files, unwritable);
    }
  }

  /** The Line starts with LastID 0, so a first line with ID 0 is reported
      as a duplicate. */
  lemma FirstZeroIsDuplicate(c: Configuration, cols: seq<string>, dir0: string,
                             files: map<string, seq<bv8>>, unwritable: set<string>)
    requires Valid(c) && HasID(c, cols) && RowID(c, cols) == Parsed(0)
    ensures Step(c, cols, Vars(0, 0, "", 0, 0, 0), dir0, files, unwritable).sink == DupSink
  {
  }

  /** ID takes whatever the parse returned (0 on a syntax error), and
      LastID becomes the parsed ID of every line whose ID parses, even when
      its copy fails afterwards. */
  lemma IDRules(c: Configuration, cols: seq<string>, v: Vars, dir0: string,
                files: map<string, seq<bv8>>, unwritable: set<string>)
    requires Valid(c)
    ensures var r := Step(c, cols, v, dir0, files, unwritable);
      && r.vars.id == (if HasID(c, cols) then RowID(c, cols).Returned() else v.id)
      && r.vars.lastID == (if HasID(c, cols) && RowID(c, cols).Parsed? then RowID(c, cols).value else v.lastID)
  {
    if HasID(c, cols) && RowID(c, cols).Parsed? && RowID(c, cols).value != v.lastID {
      var id := RowID(c, cols).value;
      StepResumes(c, cols, v, dir0, files, unwritable);
      ResumeAccounting(c, cols, v.(id := id, lastID := id), LibFileName(id), OutputID(c, v, id), dir0, files, unwritable);
    }
  }

  /** The counters never decrease and a line adds to at most one of them;
      `failed` grows exactly for a source that is not there, which sends the
      line to the error file and leaves the files alone; `successful` grows
      for a copy from an existing source; files change only by a copy. */
  lemma Counters(c: Configuration, cols: seq<string>, v: Vars, dir0: string,
                 files: map<string, seq<bv8>>, unwritable: set<string>)
    requires Valid(c)
    ensures var r := Step(c, cols, v, dir0, files, unwritable);
      && v.successful <= r.vars.successful && v.failed <= r.vars.failed && v.duplicates <= r.vars.duplicates
      && (r.vars.successful - v.successful) + (r.vars.failed - v.failed) + (r.vars.duplicates - v.duplicates) <= 1
      && (r.vars.failed == v.failed + 1 ==> r.sink == ErrorSink && r.files == files && !Present(files, r.vars.path))
      && (r.vars.successful == v.successful + 1 ==> Present(files, r.vars.path))
      && (r.files != files ==> r.vars.successful == v.successful + 1)
  {
    if HasID(c, cols) && RowID(c, cols).Parsed? && RowID(c, cols).value != v.lastID {
      var id := RowID(c, cols).value;
      StepResumes(c, cols, v, dir0, files, unwritable);
      ResumeAccounting(c, cols, v.(id := id, lastID := id), LibFileName(id), OutputID(c, v, id), dir0, files, unwritable);
    }
  }

  /** A line reaches its index file only after its file was copied: the
      copy holds the source's contents (unless source and destination are
      one file), the index file is the one of the output ID, and the index
      line is the projected columns, the delimiter and the out path. When
      renaming, the out file is named after the number of successful copies
      before it plus OutFileRenameIntOffset. */
  lemma IndexedAfterCopy(c: Configuration, cols: seq<string>, v: Vars, dir0: string,
                         files: map<string, seq<bv8>>, unwritable: set<string>)
    requires Valid(c)
    ensures var r := Step(c, cols, v, dir0, files, unwritable);
      r.sink.IndexSink? ==>
        && HasID(c, cols) && RowID(c, cols).Parsed?
        && var id := RowID(c, cols).value;
           var n := OutputID(c, v, id);
           var inPath := InPath(c, cols, id, LibFileName(id));
           var loc := OutLocation(c, cols, n, dir0);
           var projection := Project(c.OutLinesColumns, cols, c.Delimiter);
           && r.vars.successful == v.successful + 1
           && inPath.Ok? && r.vars.path == inPath.value && r.vars.path in files
           && IndexFile(c, n).Ok? && r.sink.file == IndexFile(c, n).value
           && loc.Ok? && projection.Ok? && projection.value.Projected?
           && r.sink.text == projection.value.text + c.Delimiter + loc.value.path
           && loc.value.path in r.files
           && (loc.value.path != r.vars.path ==> r.files[loc.value.path] == files[r.vars.path])
           && (c.OutFileRenameInt ==>
                 && n == v.successful + c.OutFileRenameIntOffset
                 && BatchDir(c, n, dir0).Ok? && Setting(c.OutFileExt, cols, c.ColFileExtOut).Ok?
                 && loc.value.path
                    == JoinPath([c.OutDir, JoinPath([BatchDir(c, n, dir0).value, OutBucket(c, n)]), Itoa(n)])
                       + Setting(c.OutFileExt, cols, c.ColFileExtOut).value)
  {
    if HasID(c, cols) && RowID(c, cols).Parsed? && RowID(c, cols).value != v.lastID {
      var id := RowID(c, cols).value;
      var n := OutputID(c, v, id);
      StepResumes(c, cols, v, dir0, files, unwritable);
      ResumeAccounting(c, cols, v.(id := id, lastID := id), LibFileName(id), n, dir0, files, unwritable);
      if OutLocation(c, cols, n, dir0).Ok? {
        OutLocationShape(c, cols, n, dir0);
      }
    }
  }

  class Line {
    const cfg: Configuration
    var line: string          // the whole line
    var columns: seq<string>  // the line split on Delimiter
    var id: int               // the object ID
    var lastID: int           // the last ID that was not a duplicate
    var dir: string           // directory of the object file
    var path: string          // full path of the object file
    var file: Option<string>  // the index file the line is written to
    var lineCount: int
    var successful: int
    var failed: int
    var duplicates: int
    var skipped: int

    /** &Line{Configuration: c}: every other field is zero. */
    constructor (c: Configuration)
      ensures cfg == c && line == "" && columns == [] && dir == "" && file == None
      ensures Variables() == Vars(0, 0, "", 0, 0, 0) && lineCount == 0 && skipped == 0
    {
      cfg := c;
      line, columns, id, lastID, dir, path, file := "", [], 0, 0, "", "", None;
      lineCount, successful, failed, duplicates, skipped := 0, 0, 0, 0, 0;
    }

    /** lo := *l */
    constructor Clone(l: Line)
      ensures cfg == l.cfg && line == l.line && columns == l.columns && dir == l.dir && file == l.file
      ensures Variables() == l.Variables() && lineCount == l.lineCount && skipped == l.skipped
    {
      cfg := l.cfg;
      line, columns, id, lastID, dir, path, file := l.line, l.columns, l.id, l.lastID, l.dir, l.path, l.file;
      lineCount, successful, failed, duplicates, skipped := l.lineCount, l.successful, l.failed, l.duplicates, l.skipped;
    }

    function Variables(): Vars
      reads this
    {
      Vars(id, lastID, path, successful, failed, duplicates)
    }

    /** GetInPath: the extension, then the parent directory (each from the
        configuration or from a column), the bucket path of the ID and the
        source file name; the result is also stored in Path. */
    method GetInPath() returns (r: Outcome<string>)
      requires Valid(cfg)
      modifies this`path
      ensures r == InPath(cfg, columns, id, LibFileName(id))
      ensures path == if r.Ok? then r.value else old(path)
    {
      var inExtension: string;
      if cfg.InFileExt == "" {
        if !(0 <= cfg.ColFileExtIn < |columns|) {
          return Panic(ColumnOutOfRange(cfg.ColFileExtIn, |columns|));
        }
        inExtension := columns[cfg.ColFileExtIn];
      } else {
        inExtension := cfg.InFileExt;
      }
      var parentPath: string;
      if cfg.InDir != "" {
        parentPath := cfg.InDir;
      } else {
        if !(0 <= cfg.ColFileName < |columns|) {
          return Panic(ColumnOutOfRange(cfg.ColFileName, |columns|));
        }
        parentPath := columns[cfg.ColFileName];
      }
      var subpath, _ := PathFromID(id, cfg.DirDepth, cfg.FolderSize);
      var fileName: string;
      if id > 99999999 {
        fileName := "A" + UpperHex(id);
      } else {
        fileName := Itoa(id);
      }
      var fullPath := JoinPath([parentPath, subpath, fileName]) + inExtension;
      path := fullPath;
      return Ok(fullPath);
    }

    /** GetOutPath: file name and extension, then Dir becomes the batch (when
        batching), gets the bucket path appended (OutXtenderStructure) and is
        put under OutDir; Path is Dir and the file name. */
    method GetOutPath() returns (r: Outcome<string>)
      requires Valid(cfg)
      modifies this`dir, this`path
      ensures var loc := OutLocation(cfg, columns, id, old(dir));
        && r == (if loc.Ok? then Ok(loc.value.path) else Panic(loc.fault))
        && (loc.Ok? ==> dir == loc.value.dir && path == loc.value.path)
        && (loc.Panic? ==> dir == old(dir) && path == old(path))
    {
      var filename: string;
      if cfg.OutFileRenameInt {
        filename := Itoa(id);
      } else {
        if !(0 <= cfg.ColFileName < |columns|) {
          return Panic(ColumnOutOfRange(cfg.ColFileName, |columns|));
        }
        filename := columns[cfg.ColFileName];
      }
      var outExtension := cfg.OutFileExt;
      if outExtension == "" {
        if !(0 <= cfg.ColFileExtOut < |columns|) {
          return Panic(ColumnOutOfRange(cfg.ColFileExtOut, |columns|));
        }
        outExtension := columns[cfg.ColFileExtOut];
      }
      if cfg.OutAutoBatch {
        var b := Batch(cfg, id);
        if b.Panic? {
          return Panic(b.fault);
        }
        dir := b.value;
      }
      if cfg.OutXtenderStructure {
        var subpath, _ := PathFromID(id, cfg.DirDepth, cfg.FolderSize);
        dir := JoinPath([dir, subpath]);
      }
      dir := JoinPath([cfg.OutDir, dir]);
      path := JoinPath([dir, filename]) + outExtension;
      return Ok(path);
    }

    /** OutLineFile: opens the index file of the Line's ID for appending. */
    method OutLineFile(d: Disk) returns (fault: Option<Fault>)
      modifies this`file
      ensures var name := IndexFile(cfg, id);
        && fault == (if name.Panic? then Some(name.fault) else OpenSink(d.unwritable, name.value))
        && file == (if fault == None then Some(name.value) else old(file))
    {
      var b := Batch(cfg, id);
      if b.Panic? {
        return Some(b.fault);
      }
      var outFile := cfg.OutLinesName;
      if b.value != "" {
        outFile := b.value + "_" + cfg.OutLinesName;
      }
      var outPath := JoinPath([cfg.OutDir, outFile]);
      fault := OpenSink(d.unwritable, outPath);
      if fault == None {
        file := Some(outPath);
      }
    }

    /** GenLineFromColumns: replaces Line by the projected columns. */
    method GenLineFromColumns() returns (r: Outcome<Projection>)
      modifies this`line
      ensures r == Project(cfg.OutLinesColumns, columns, cfg.Delimiter)
      ensures line == if r.Ok? && r.value.Projected? then r.value.text else old(line)
    {
      r := Generate(cfg.OutLinesColumns, columns, cfg.Delimiter);
      if r.Ok? && r.value.Projected? {
        line := r.value.text;
      }
    }

    /** copy: the result is nil (None), the error message, or the panic. */
    method Copy(src: string, dst: string, d: Disk) returns (r: Outcome<Option<string>>)
      modifies this`successful, this`failed, d`files
      ensures var t := Transfer(old(d.files), d.unwritable, src, dst);
        && (t.Panic? ==>
              r == Panic(t.fault) && successful == old(successful) && failed == old(failed) && d.files == old(d.files))
        && (t.Ok? && t.value.NoSource? ==>
              r == Ok(Some(t.value.message)) && failed == old(failed) + 1 && successful == old(successful)
              && d.files == old(d.files))
        && (t.Ok? && t.value.Copied? ==>
              r == Ok(None) && successful == old(successful) + 1 && failed == old(failed) && d.files == t.value.files)
    {
      var t := d.Copy(src, dst);
      match t
      case Panic(f) =>
        r := Panic(f);
      case Ok(NoSource(message)) =>
        failed := failed + 1;
        r := Ok(Some(message));
      case Ok(Copied(_)) =>
        successful := successful + 1;
        r := Ok(None);
    }

    /** errorLine: the verbatim line goes to the error file. */
    method ErrorLine(d: Disk) returns (b: bool)
      modifies d`errors
      ensures d.errors == old(d.errors) + [line] && !b
    {
      d.WriteError(line);
      return false;
    }

    /** ProcessLine: the whole effect is Step on the Line's variables. */
    method ProcessLine(d: Disk) returns (r: Outcome<bool>)
      requires Valid(cfg)
      modifies this`id, this`lastID, this`path, this`successful, this`failed, this`duplicates
      modifies d`files, d`dups, d`errors, d`index
      ensures var s := Step(cfg, columns, old(Variables()), dir, old(d.files), d.unwritable);
        && r == s.result && Variables() == s.vars
        && d.Snapshot() == Deliver(old(d.Snapshot()), s, line)
    {
      ghost var v0 := Variables();
      if |columns| == 1 && |columns[0]| == 0 {
        return Ok(false);
      }
      if !(0 <= cfg.ColObjectID < |columns|) {
        return Panic(ColumnOutOfRange(cfg.ColObjectID, |columns|));
      }
      var parsed := ParseInt(columns[cfg.ColObjectID]);
      id := parsed.Returned();
      if !parsed.Parsed? {
        var b := ErrorLine(d);
        return Ok(b);
      }
      if lastID == id {
        duplicates := duplicates + 1;
        d.WriteDup(line);
        return Ok(false);
      }
      lastID := id;
      var current := successful + cfg.OutFileRenameIntOffset;
      if !cfg.OutFileRenameInt {
        current := id;
      }
      assert id == RowID(cfg, columns).value && current == OutputID(cfg, v0, id);
      assert Variables() == v0.(id := id, lastID := id);
      StepResumes(cfg, columns, v0, dir, d.files, d.unwritable);
      r := Resume(current, d);
    }

    /** ProcessLine from GetInPath on (lib/line.go:63-111), for the output ID
        `current`. */
    method Resume(current: int, d: Disk) returns (r: Outcome<bool>)
      requires Valid(cfg)
      modifies this`path, this`successful, this`failed
      modifies d`files, d`errors, d`index
      ensures var s := Pipeline.Resume(cfg, columns, old(Variables()), LibFileName(id), current, dir, old(d.files), d.unwritable);
        && r == s.result && Variables() == s.vars
        && d.Snapshot() == Deliver(old(d.Snapshot()), s, line)
    {
      var inPath := GetInPath();
      if inPath.Panic? {
        return Panic(inPath.fault);
      }
      var lo := new Line.Clone(this);
      lo.id := current;
      var openFault := lo.OutLineFile(d);
      if openFault.Some? {
        return Panic(openFault.value);
      }
      r := CopyOut(cfg, columns, Variables(), path, lo.id, lo.dir, lo.file.value, d.Snapshot(), line, lo, d);
    }

    /** The output side of ProcessLine (lib/line.go:86-111) on the copy `lo`,
        whose ID is `outID` and whose index file is `file`. The ghost
        parameters name the state on entry. */
    method CopyOut(ghost c: Configuration, ghost cols: seq<string>, ghost v: Vars, ghost inPath: string,
                   ghost outID: int, ghost dir0: string, ghost file: string, ghost w: World, ghost line0: string,
                   lo: Line, d: Disk) returns (r: Outcome<bool>)
      requires Valid(c) && lo != this && c == cfg == lo.cfg && cols == columns == lo.columns
      requires lo.id == outID && lo.dir == dir0 && lo.file == Some(file)
      requires v == Variables() && inPath == path && w == d.Snapshot() && line0 == line
      modifies lo`dir, lo`path, lo`line, this`successful, this`failed
      modifies d`files, d`errors, d`index
      ensures var s := Tail(c, cols, v, inPath, outID, dir0, file, w.files, d.unwritable);
        && r == s.result && Variables() == s.vars
        && d.Snapshot() == Deliver(w, s, line0)
    {
      var outPath := lo.GetOutPath();
      if outPath.Panic? {
        return Panic(outPath.fault);
      }
      var made := MakeDir(d.unwritable, lo.dir);
      if made.Some? {
        return Panic(made.value);
      }
      r := Deposit(c, cols, v, inPath, lo.path, file, w, line0, lo, d);
    }

    /** copy, GenLineFromColumns and the index line (lib/line.go:97-111). */
    method Deposit(ghost c: Configuration, ghost cols: seq<string>, ghost v: Vars, ghost inPath: string,
                   ghost outPath: string, ghost file: string, ghost w: World, ghost line0: string,
                   lo: Line, d: Disk) returns (r: Outcome<bool>)
      requires lo != this && c == cfg == lo.cfg && cols == columns == lo.columns && lo.file == Some(file)
      requires v == Variables() && inPath == path && outPath == lo.path && w == d.Snapshot() && line0 == line
      modifies lo`line, this`successful, this`failed
      modifies d`files, d`errors, d`index
      ensures var s := Pipeline.Deposit(c, cols, v, inPath, outPath, file, w.files, d.unwritable);
        && r == s.result && Variables() == s.vars
        && d.Snapshot() == Deliver(w, s, line0)
    {
      ghost var t := Transfer(w.files, d.unwritable, inPath, outPath);
      var copied := Copy(path, lo.path, d);
      if copied.Panic? {
        return Panic(copied.fault);
      }
      if copied.value.Some? {
        var b := ErrorLine(d);
        return Ok(b);
      }
      assert t.Ok? && t.value.Copied? && Variables() == v.(successful := v.successful + 1);
      r := Index(c, cols, v, inPath, outPath, file, w, line0, lo, d);
    }

    /** The index line once copy succeeded (lib/line.go:104-111): the
        projection of the columns, then the path of the copy. */
    method Index(ghost c: Configuration, ghost cols: seq<string>, ghost v: Vars, ghost inPath: string,
                 ghost outPath: string, ghost file: string, ghost w: World, ghost line0: string,
                 lo: Line, d: Disk) returns (r: Outcome<bool>)
      requires lo != this && c == cfg == lo.cfg && cols == columns == lo.columns && lo.file == Some(file)
      requires outPath == lo.path && line0 == line
      requires var t := Transfer(w.files, d.unwritable, inPath, outPath);
        && t.Ok? && t.value.Copied? && d.Snapshot() == w.(files := t.value.files)
        && Variables() == v.(successful := v.successful + 1)
      modifies lo`line, d`errors, d`index
      ensures var s := Pipeline.Deposit(c, cols, v, inPath, outPath, file, w.files, d.unwritable);
        && r == s.result && Variables() == s.vars
        && d.Snapshot() == Deliver(w, s, line0)
    {
      var projected := lo.GenLineFromColumns();
      if projected.Panic? {
        return Panic(projected.fault);
      }
      if projected.value.BadEntry? {
        var b := ErrorLine(d);
        return Ok(b);
      }
      d.WriteIndex(lo.file.value, lo.line + lo.cfg.Delimiter + lo.path);
      return Ok(true);
    }
  }
}
