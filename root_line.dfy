/** line.go: the Line of the root package. Its counters are the package
    variables of RootGlobals; it has no empty-line guard, names source files
    by the decimal ID only, and always numbers its output after the
    successful copies. Its Configuration is shared by reference, and
    missing.go writes InDir and MissingCount through it, so `cfg` is a
    variable here. */
module RootLine {
  import opened Common
  import opened Text
  import opened Bucket
  import opened Config
  import opened Paths
  import opened Columns
  import opened Files
  import opened Pipeline
  import opened RootGlobals

  /** ProcessLine of line.go as a function of the row, the variables and
      the filesystem: the ID parse, the duplicate check against LastID, and
      Resume with the decimal source name and the output ID
      successful + OutFileRenameIntOffset. */
  function Step(c: Configuration, cols: seq<string>, v: Vars, dir0: string,
                files: map<string, seq<bv8>>, unwritable: set<string>): (r: Verdict)
    requires Valid(c)
  {
    match Column(cols, c.ColObjectID)
    case Panic(f) => Verdict(Panic(f), v, files, NoSink)
    case Ok(field) =>
      var p := ParseInt(field);
      var v1 := v.(id := p.Returned());
      if !p.Parsed? then Verdict(Ok(false), v1, files, ErrorSink)
      else if v.lastID == p.value then Verdict(Ok(false), v1.(duplicates := v.duplicates + 1), files, DupSink)
      else Resume(c, cols, v.(id := p.value, lastID := p.value), Itoa(p.value), RenamedID(c, v), dir0, files, unwritable)
  }

  /** A row whose ID parses and differs from LastID: Step is Resume. */
  lemma StepResumes(c: Configuration, cols: seq<string>, v: Vars, dir0: string,
                    files: map<string, seq<bv8>>, unwritable: set<string>)
    requires Valid(c) && 0 <= c.ColObjectID < |cols|
    requires ParseInt(cols[c.ColObjectID]).Parsed? && ParseInt(cols[c.ColObjectID]).value != v.lastID
    ensures var id := ParseInt(cols[c.ColObjectID]).value;
      Step(c, cols, v, dir0, files, unwritable)
        == Resume(c, cols, v.(id := id, lastID := id), Itoa(id), RenamedID(c, v), dir0, files, unwritable)
  {
    assert Column(cols, c.ColObjectID) == Ok(cols[c.ColObjectID]);
  }

  /** Without an empty-line guard, an empty line whose ID is the first
      column fails the integer parse: it goes to the error file with ID 0,
      where the lib Line would skip it. */
  lemma EmptyLineIsError(c: Configuration, v: Vars, dir0: string, files: map<string, seq<bv8>>, unwritable: set<string>)
    requires Valid(c) && c.ColObjectID == 0
    ensures Step(c, [""], v, dir0, files, unwritable) == Verdict(Ok(false), v.(id := 0), files, ErrorSink)
  {
  }

  /** A line is a duplicate exactly when its ID parses to LastID; it is
      counted once and written to the duplicates file; and LastID becomes
      the parsed ID of every line whose ID parses. */
  lemma DuplicateIff(c: Configuration, cols: seq<string>, v: Vars, dir0: string,
                     files: map<string, seq<bv8>>, unwritable: set<string>)
    requires Valid(c)
    ensures var r := Step(c, cols, v, dir0, files, unwritable);
      && (r.sink == DupSink <==> 0 <= c.ColObjectID < |cols| && ParseInt(cols[c.ColObjectID]) == Parsed(v.lastID))
      && (r.sink == DupSink ==>
            r == Verdict(Ok(false), v.(id := v.lastID, duplicates := v.duplicates + 1), files, DupSink))
      && (r.sink != DupSink ==> r.vars.duplicates == v.duplicates)
      && r.vars.lastID == (if 0 <= c.ColObjectID < |cols| && ParseInt(cols[c.ColObjectID]).Parsed?
                           then ParseInt(cols[c.ColObjectID]).value else v.lastID)
  {
    if 0 <= c.ColObjectID < |cols| {
      var p := ParseInt(cols[c.ColObjectID]);
      if p.Parsed? && p.value != v.lastID {
        var v1 := v.(id := p.value, lastID := p.value);
        StepResumes(c, cols, v, dir0, files, unwritable);
        ResumeKeeps(c, cols, v1, Itoa(p.value), RenamedID(c, v), dir0, files, unwritable);
      }
    }
  }

  /** A line reaches the index file only after a copy; the index file and
      the out path follow the output ID successful + OutFileRenameIntOffset
      whatever OutFileRenameInt says, and the source is read from the
      decimal name of the ID. */
  lemma IndexedAfterCopy(c: Configuration, cols: seq<string>, v: Vars, dir0: string,
                         files: map<string, seq<bv8>>, unwritable: set<string>)
    requires Valid(c)
    ensures var r := Step(c, cols, v, dir0, files, unwritable);
      var n := RenamedID(c, v);
      r.sink.IndexSink? ==>
        && 0 <= c.ColObjectID < |cols| && ParseInt(cols[c.ColObjectID]).Parsed?
        && var id := ParseInt(cols[c.ColObjectID]).value;
           var inPath := InPath(c, cols, id, Itoa(id));
           var loc := OutLocation(c, cols, n, dir0);
           var projection := Project(c.OutLinesColumns, cols, c.Delimiter);
           && r.vars.successful == v.successful + 1
           && inPath.Ok? && r.vars.path == inPath.value
           && Present(files, r.vars.path)
           && IndexFile(c, n).Ok? && r.sink.file == IndexFile(c, n).value
           && loc.Ok? && projection.Ok? && projection.value.Projected?
           && r.sink.text == projection.value.text + c.Delimiter + loc.value.path
  {
    if 0 <= c.ColObjectID < |cols| {
      var p := ParseInt(cols[c.ColObjectID]);
      if p.Parsed? && p.value != v.lastID {
        var v1 := v.(id := p.value, lastID := p.value);
        StepResumes(c, cols, v, dir0, files, unwritable);
        ResumeIndexes(c, cols, v1, Itoa(p.value), RenamedID(c, v), dir0, files, unwritable);
      }
    }
  }

  /** The counters never decrease and a line adds to at most one of them;
      `failed` grows only for a source that is not there. */
  lemma Counters(c: Configuration, cols: seq<string>, v: Vars, dir0: string,
                 files: map<string, seq<bv8>>, unwritable: set<string>)
    requires Valid(c)
    ensures var r := Step(c, cols, v, dir0, files, unwritable);
      && v.successful <= r.vars.successful && v.failed <= r.vars.failed && v.duplicates <= r.vars.duplicates
      && (r.vars.successful - v.successful) + (r.vars.failed - v.failed) + (r.vars.duplicates - v.duplicates) <= 1
      && (r.vars.failed == v.failed + 1 ==> r.sink == ErrorSink && r.files == files && !Present(files, r.vars.path))
  {
    if 0 <= c.ColObjectID < |cols| {
      var p := ParseInt(cols[c.ColObjectID]);
      if p.Parsed? && p.value != v.lastID {
        var v1 := v.(id := p.value, lastID := p.value);
        StepResumes(c, cols, v, dir0, files, unwritable);
        ResumeCounts(c, cols, v1, Itoa(p.value), RenamedID(c, v), dir0, files, unwritable);
      }
    }
  }

  class Line {
    var cfg: Configuration    // the shared *Configuration
    var line: string
    var columns: seq<string>
    var id: int
    var lastID: int
    var dir: string
    var path: string
    var file: Option<string>  // the index file (nil: None)

    /** &Line{Configuration: c}. */
    constructor (c: Configuration)
      ensures cfg == c && line == "" && columns == [] && id == 0 && lastID == 0
      ensures dir == "" && path == "" && file == None
    {
      cfg := c;
      line, columns, id, lastID, dir, path, file := "", [], 0, 0, "", "", None;
    }

    /** lo := *l */
    constructor Clone(l: Line)
      ensures cfg == l.cfg && line == l.line && columns == l.columns && id == l.id && lastID == l.lastID
      ensures dir == l.dir && path == l.path && file == l.file
    {
      cfg := l.cfg;
      line, columns, id, lastID, dir, path, file := l.line, l.columns, l.id, l.lastID, l.dir, l.path, l.file;
    }

    /** The Line's part of the ProcessLine variables, with the counters of
        the package variables. */
    function Variables(g: Globals): Vars
      reads this, g
    {
      Vars(id, lastID, path, g.successful, g.failed, g.duplicates)
    }

    /** GetInPath: as in lib, with the decimal ID as file name; the result
        is returned, not stored. */
    method GetInPath() returns (r: Outcome<string>)
      requires Valid(cfg)
      ensures r == InPath(cfg, columns, id, Itoa(id))
    {
      var inExtension: string;
      if cfg.InFileExt == "" {
        if !(0 <= cfg.ColFileExtIn < |columns|) {
          return Panic(ColumnOutOfRange(cfg.ColFileExtIn, |columns|));
        }
        inExtension := columns[cfg.ColFileExtIn];
      } else {
        inExtension := cfg.InFileExt;
      }
      var parentPath: string;
      if cfg.InDir != "" {
        parentPath := cfg.InDir;
      } else {
        if !(0 <= cfg.ColFileName < |columns|) {
          return Panic(ColumnOutOfRange(cfg.ColFileName, |columns|));
        }
        parentPath := columns[cfg.ColFileName];
      }
      var subpath, _ := PathFromID(id, cfg.DirDepth, cfg.FolderSize);
      var fileName := Itoa(id);
      return Ok(JoinPath([parentPath, subpath, fileName]) + inExtension);
    }

    /** GetOutPath: as in lib. */
    method GetOutPath() returns (r: Outcome<string>)
      requires Valid(cfg)
      modifies this`dir, this`path
      ensures var loc := OutLocation(cfg, columns, id, old(dir));
        && r == (if loc.Ok? then Ok(loc.value.path) else Panic(loc.fault))
        && (loc.Ok? ==> dir == loc.value.dir && path == loc.value.path)
        && (loc.Panic? ==> dir == old(dir) && path == old(path))
    {
      var filename: string;
      if cfg.OutFileRenameInt {
        filename := Itoa(id);
      } else {
        if !(0 <= cfg.ColFileName < |columns|) {
          return Panic(ColumnOutOfRange(cfg.ColFileName, |columns|));
        }
        filename := columns[cfg.ColFileName];
      }
      var outExtension := cfg.OutFileExt;
      if outExtension == "" {
        if !(0 <= cfg.ColFileExtOut < |columns|) {
          return Panic(ColumnOutOfRange(cfg.ColFileExtOut, |columns|));
        }
        outExtension := columns[cfg.ColFileExtOut];
      }
      if cfg.OutAutoBatch {
        var b := Batch(cfg, id);
        if b.Panic? {
          return Panic(b.fault);
        }
        dir := b.value;
      }
      if cfg.OutXtenderStructure {
        var subpath, _ := PathFromID(id, cfg.DirDepth, cfg.FolderSize);
        dir := JoinPath([dir, subpath]);
      }
      dir := JoinPath([cfg.OutDir, dir]);
      path := JoinPath([dir, filename]) + outExtension;
      return Ok(path);
    }

    /** OutLineFile: opens the index file of the Line's ID; failure is
        log.Fatal. */
    method OutLineFile(d: Disk) returns (fault: Option<Fault>)
      modifies this`file
      ensures var name := IndexFile(cfg, id);
        && fault == (if name.Panic? then Some(name.fault) else OpenSink(d.unwritable, name.value))
        && file == (if fault == None then Some(name.value) else old(file))
    {
      var outFile := cfg.OutLinesName;
      var b := Batch(cfg, id);
      if b.Panic? {
        return Some(b.fault);
      }
      if b.value != "" {
        outFile := b.value + "_" + cfg.OutLinesName;
      }
      var outPath := JoinPath([cfg.OutDir, outFile]);
      fault := OpenSink(d.unwritable, outPath);
      if fault == None {
        file := Some(outPath);
      }
    }

    /** GenLineFromColumns: replaces Line by the projected columns. */
    method GenLineFromColumns() returns (r: Outcome<Projection>)
      modifies this`line
      ensures r == Project(cfg.OutLinesColumns, columns, cfg.Delimiter)
      ensures line == if r.Ok? && r.value.Projected? then r.value.text else old(line)
    {
      r := Generate(cfg.OutLinesColumns, columns, cfg.Delimiter);
      if r.Ok? && r.value.Projected? {
        line := r.value.text;
      }
    }

    /** ProcessLine: the whole effect is Step on the Line's variables and
        the package counters. */
    method ProcessLine(g: Globals, d: Disk) returns (r: Outcome<bool>)
      requires Valid(cfg)
      modifies this`id, this`lastID, this`path, g`successful, g`failed, g`duplicates
      modifies d`files, d`dups, d`errors, d`index
      ensures var s := Step(old(cfg), old(columns), old(Variables(g)), old(dir), old(d.files), d.unwritable);
        && r == s.result && Variables(g) == s.vars
        && d.Snapshot() == Deliver(old(d.Snapshot()), s, old(line))
    {
      ghost var c0, cols0, v0, dir0, w0, line0 := cfg, columns, Variables(g), dir, d.Snapshot(), line;
      if !(0 <= cfg.ColObjectID < |columns|) {
        return Panic(ColumnOutOfRange(cfg.ColObjectID, |columns|));
      }
      var parsed := ParseInt(columns[cfg.ColObjectID]);
      id := parsed.Returned();
      if !parsed.Parsed? {
        d.WriteError(line);
        return Ok(false);
      }
      if lastID == id {
        g.duplicates := g.duplicates + 1;
        d.WriteDup(line);
        return Ok(false);
      }
      StepResumes(c0, cols0, v0, dir0, w0.files, d.unwritable);
      r := Admit(c0, cols0, v0, dir0, w0, line0, parsed.value, g, d);
    }

    /** ProcessLine of line.go for a line whose ID parsed and differs from
        LastID (line.go:46-90): Resume with the decimal name of the ID. */
    method Admit(ghost c: Configuration, ghost cols: seq<string>, ghost v: Vars, ghost dir0: string, ghost w: World,
                 ghost line0: string, ghost n: int, g: Globals, d: Disk) returns (r: Outcome<bool>)
      requires Valid(c) && c == cfg && cols == columns && dir0 == dir && w == d.Snapshot() && line0 == line
      requires n == id && Variables(g) == v.(id := n)
      modifies this`lastID, this`path, g`successful, g`failed, d`files, d`errors, d`index
      ensures var s := Resume(c, cols, v.(id := n, lastID := n), Itoa(n),
                              RenamedID(c, v), dir0, w.files, d.unwritable);
        && r == s.result && Variables(g) == s.vars
        && d.Snapshot() == Deliver(w, s, line0)
    {
      lastID := id;
      var inPath := GetInPath();
      assert cfg == c && columns == cols && id == n && inPath == InPath(c, cols, n, Itoa(n));
      if inPath.Panic? {
        return Panic(inPath.fault);
      }
      path := inPath.value;
      var current := g.successful + cfg.OutFileRenameIntOffset;
      ghost var v1 := v.(id := n, lastID := n);
      assert v1.id == n && Variables(g) == v1.(path := path) && current == RenamedID(c, v);
      assert Resume(c, cols, v1, Itoa(n), current, dir0, w.files, d.unwritable)
          == Open(c, cols, v1.(path := path), path, current, dir0, w.files, d.unwritable);
      r := Output(c, cols, v1.(path := path), path, dir0, w, line0, current, g, d);
    }

    /** ProcessLine of line.go from `lo := *l` on (line.go:56-90), for the
        output ID `current`. The ghost parameters name the state on entry. */
    method Output(ghost c: Configuration, ghost cols: seq<string>, ghost v: Vars, ghost inPath: string,
                  ghost dir0: string, ghost w: World, ghost line0: string,
                  current: int, g: Globals, d: Disk) returns (r: Outcome<bool>)
      requires Valid(c) && c == cfg && cols == columns && v == Variables(g) && inPath == path && dir0 == dir
      requires w == d.Snapshot() && line0 == line
      modifies g`successful, g`failed, d`files, d`errors, d`index
      ensures var s := Open(c, cols, v, inPath, current, dir0, w.files, d.unwritable);
        && r == s.result && Variables(g) == s.vars
        && d.Snapshot() == Deliver(w, s, line0)
    {
      var lo := new Line.Clone(this);
      lo.id := current;
      var openFault := lo.OutLineFile(d);
      if openFault.Some? {
        return Panic(openFault.value);
      }
      r := CopyOut(c, cols, v, inPath, current, dir0, lo.file.value, w, line0, lo, g, d);
    }

    /** The output side of ProcessLine (line.go:65-90) on the copy `lo`,
        whose ID is `outID` and whose index file is `file`. */
    method CopyOut(ghost c: Configuration, ghost cols: seq<string>, ghost v: Vars, ghost inPath: string,
                   ghost outID: int, ghost dir0: string, ghost file: string, ghost w: World, ghost line0: string,
                   lo: Line, g: Globals, d: Disk) returns (r: Outcome<bool>)
      requires Valid(c) && lo != this && c == cfg == lo.cfg && cols == columns == lo.columns
      requires lo.id == outID && lo.dir == dir0 && lo.file == Some(file)
      requires v == Variables(g) && inPath == path && w == d.Snapshot() && line0 == line
      modifies lo`dir, lo`path, lo`line, g`successful, g`failed, d`files, d`errors, d`index
      ensures var s := Tail(c, cols, v, inPath, outID, dir0, file, w.files, d.unwritable);
        && r == s.result && Variables(g) == s.vars
        && d.Snapshot() == Deliver(w, s, line0)
    {
      var outPath := lo.GetOutPath();
      if outPath.Panic? {
        return Panic(outPath.fault);
      }
      var made := MakeDir(d.unwritable, lo.dir);
      if made.Some? {
        return Panic(made.value);
      }
      r := Deposit(c, cols, v, inPath, lo.path, file, w, line0, lo, g, d);
    }

    /** copy, GenLineFromColumns and the index line (line.go:76-90). The
        ghost parameters name the state on entry. */
    method Deposit(ghost c: Configuration, ghost cols: seq<string>, ghost v: Vars, ghost inPath: string,
                   ghost outPath: string, ghost file: string, ghost w: World, ghost line0: string,
                   lo: Line, g: Globals, d: Disk) returns (r: Outcome<bool>)
      requires lo != this && c == cfg == lo.cfg && cols == columns == lo.columns && lo.file == Some(file)
      requires v == Variables(g) && inPath == path && outPath == lo.path && w == d.Snapshot() && line0 == line
      modifies lo`line, g`successful, g`failed, d`files, d`errors, d`index
      ensures var s := Pipeline.Deposit(c, cols, v, inPath, outPath, file, w.files, d.unwritable);
        && r == s.result && Variables(g) == s.vars
        && d.Snapshot() == Deliver(w, s, line0)
    {
      ghost var t := Transfer(w.files, d.unwritable, inPath, outPath);
      var copied := g.Copy(path, lo.path, d);
      if copied.Panic? {
        return Panic(copied.fault);
      }
      if copied.value.Some? {
        d.WriteError(line);
        return Ok(false);
      }
      assert t.Ok? && t.value.Copied? && Variables(g) == v.(successful := v.successful + 1);
      r := Index(c, cols, v, inPath, outPath, file, w, line0, lo, g, d);
    }

    /** The index line once copy succeeded (line.go:83-90): the projection
        of the columns, then the path of the copy. */
    method Index(ghost c: Configuration, ghost cols: seq<string>, ghost v: Vars, ghost inPath: string,
                 ghost outPath: string, ghost file: string, ghost w: World, ghost line0: string,
                 lo: Line, g: Globals, d: Disk) returns (r: Outcome<bool>)
      requires lo != this && c == cfg == lo.cfg && cols == columns == lo.columns && lo.file == Some(file)
      requires outPath == lo.path && line0 == line
      requires var t := Transfer(w.files, d.unwritable, inPath, outPath);
        && t.Ok? && t.value.Copied? && d.Snapshot() == w.(files := t.value.files)
        && Variables(g) == v.(successful := v.successful + 1)
      modifies lo`line, d`errors, d`index
      ensures var s := Pipeline.Deposit(c, cols, v, inPath, outPath, file, w.files, d.unwritable);
        && r == s.result && Variables(g) == s.vars
        && d.Snapshot() == Deliver(w, s, line0)
    {
      var projected := lo.GenLineFromColumns();
      if projected.Panic? {
        return Panic(projected.fault);
      }
      if projected.value.BadEntry? {
        d.WriteError(line);
        return Ok(false);
      }
      d.WriteIndex(lo.file.value, lo.line + lo.cfg.Delimiter + lo.path);
      return Ok(true);
    }
  }
}
