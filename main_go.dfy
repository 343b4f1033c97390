/** main.go: the older, self-contained variant. A fresh Line is made for
    every row; the last ID, the counters and the index file handle are
    package variables (RootGlobals). ProcessLine opens the index file before
    it parses the ID, so the index file is always the one of ID 0, and the
    output ID is always successful + OutFileRenameIntOffset. */
module MainGo {
  import opened Common
  import opened Text
  import opened Bucket
  import opened Config
  import opened Paths
  import opened Columns
  import opened Files
  import opened Pipeline
  import opened RootGlobals
  import opened Scan

  /** ProcessLine of main.go on a Line with ID v.id, Path v.path and Dir
      dir0, with v.lastID standing for the package variable `last`:
      OutLineFile on the Line's own ID, which is always 0 (its failure is
      log.Fatal), and then Row on the index file it opened. */
  function Step(c: Configuration, cols: seq<string>, v: Vars, dir0: string,
                files: map<string, seq<bv8>>, unwritable: set<string>): (r: Verdict)
    requires Valid(c)
  {
    match MainIndexFile(c)
    case Panic(f) => Verdict(Panic(f), v, files, NoSink)
    case Ok(index) =>
      match OpenSink(unwritable, index)
      case Some(f) => Verdict(Panic(f), v, files, NoSink)
      case None => Row(c, cols, v, index, dir0, files, unwritable)
  }

  /** The ID parse (an error sends the line to the error file), the
      duplicate check against `last`, and Fresh for a new ID. */
  function Row(c: Configuration, cols: seq<string>, v: Vars, index: string, dir0: string,
               files: map<string, seq<bv8>>, unwritable: set<string>): (r: Verdict)
    requires Valid(c)
  {
    match Column(cols, c.ColObjectID)
    case Panic(f) => Verdict(Panic(f), v, files, NoSink)
    case Ok(field) =>
      var p := ParseInt(field);
      var v1 := v.(id := p.Returned());
      if !p.Parsed? then Verdict(Ok(false), v1, files, ErrorSink)
      else if v.lastID == p.value then Verdict(Ok(false), v1.(duplicates := v.duplicates + 1), files, DupSink)
      else Fresh(c, cols, v1.(lastID := p.value), InPath(c, cols, p.value, Itoa(p.value)), index, dir0, files, unwritable)
  }

  /** The rest of the row once GetInPath, with the decimal ID as file name,
      gave `inPath`: the path is stored in Path, and then Tail with the
      output ID successful + OutFileRenameIntOffset. */
  function Fresh(c: Configuration, cols: seq<string>, v: Vars, inPath: Outcome<string>, index: string, dir0: string,
                 files: map<string, seq<bv8>>, unwritable: set<string>): (r: Verdict)
    requires Valid(c)
  {
    match inPath
    case Panic(f) => Verdict(Panic(f), v, files, NoSink)
    case Ok(inPath) =>
      Tail(c, cols, v.(path := inPath), inPath, RenamedID(c, v), dir0, index, files, unwritable)
  }

  /** The index file handle after one row: OutLineFile reopens it on every
      row, unless it fails first. */
  function OutFlatAfter(c: Configuration, unwritable: set<string>, outFlat: Option<string>): Option<string>
  {
    if MainIndexFile(c).Ok? && OpenSink(unwritable, MainIndexFile(c).value).None?
    then Some(MainIndexFile(c).value) else outFlat
  }

  /** Fresh keeps the ID, `last` and the duplicate count, and accounts as
      Tail does; its index line goes to `index` and names the out path of
      the output ID successful + OutFileRenameIntOffset. */
  lemma FreshAccounting(c: Configuration, cols: seq<string>, v: Vars, inPath: Outcome<string>, index: string, dir0: string,
                        files: map<string, seq<bv8>>, unwritable: set<string>)
    requires Valid(c)
    ensures var r := Fresh(c, cols, v, inPath, index, dir0, files, unwritable);
      && r.vars.id == v.id && r.vars.lastID == v.lastID && r.vars.duplicates == v.duplicates
      && (inPath.Ok? ==> r.vars.path == inPath.value)
      && r.vars.failed + r.vars.successful <= v.failed + v.successful + 1
      && v.failed <= r.vars.failed && v.successful <= r.vars.successful
      && (r.vars.failed == v.failed + 1 ==> r.sink == ErrorSink && r.files == files && !Present(files, r.vars.path))
      && (r.vars.successful == v.successful + 1 ==> Present(files, r.vars.path))
      && (r.result == Ok(true) <==> r.sink.IndexSink?)
      && (r.result.Panic? ==> r.sink == NoSink)
      && (r.result.Ok? ==> r.sink != NoSink)
      && r.sink != DupSink
  {
    match inPath
    case Panic(_) =>
    case Ok(p) =>
      var v1 := v.(path := p);
      assert v1.id == v.id && v1.lastID == v.lastID && v1.duplicates == v.duplicates
             && v1.failed == v.failed && v1.successful == v.successful && v1.path == p;
      assert Fresh(c, cols, v, inPath, index, dir0, files, unwritable)
             == Tail(c, cols, v1, p, RenamedID(c, v), dir0, index, files, unwritable);
      TailAccounting(c, cols, v1, p, RenamedID(c, v), dir0, index, files, unwritable);
  }

  /** What an index line of a row says, with `successful` at `base` before
      the row: the row was copied, adding 1 to `successful`, and its line
      goes to `index` and is the projected columns, the delimiter and the out
      path of the output ID base + OutFileRenameIntOffset. */
  predicate IndexedAs(c: Configuration, cols: seq<string>, dir0: string, index: string, base: int, r: Verdict)
    requires Valid(c)
  {
    var n := base + c.OutFileRenameIntOffset;
    r.sink.IndexSink? ==>
      && r.vars.successful == base + 1
      && r.sink.file == index
      && OutLocation(c, cols, n, dir0).Ok?
      && Project(c.OutLinesColumns, cols, c.Delimiter).Ok?
      && Project(c.OutLinesColumns, cols, c.Delimiter).value.Projected?
      && r.sink.text == Project(c.OutLinesColumns, cols, c.Delimiter).value.text + c.Delimiter
                        + OutLocation(c, cols, n, dir0).value.path
  }

  /** The index line of a Fresh row is as IndexedAs says. */
  lemma FreshIndexed(c: Configuration, cols: seq<string>, v: Vars, inPath: Outcome<string>, index: string, dir0: string,
                     files: map<string, seq<bv8>>, unwritable: set<string>)
    requires Valid(c)
    ensures IndexedAs(c, cols, dir0, index, v.successful, Fresh(c, cols, v, inPath, index, dir0, files, unwritable))
  {
    match inPath
    case Panic(_) =>
    case Ok(p) =>
      var v1 := v.(path := p);
      assert v1.successful == v.successful;
      assert Fresh(c, cols, v, inPath, index, dir0, files, unwritable)
             == Tail(c, cols, v1, p, RenamedID(c, v), dir0, index, files, unwritable);
      TailAccounting(c, cols, v1, p, RenamedID(c, v), dir0, index, files, unwritable);
  }

  /** A row whose ID parses and differs from `last` is Fresh with that ID. */
  lemma RowFresh(c: Configuration, cols: seq<string>, v: Vars, index: string, dir0: string,
                 files: map<string, seq<bv8>>, unwritable: set<string>)
    requires Valid(c) && 0 <= c.ColObjectID < |cols|
    requires ParseInt(cols[c.ColObjectID]).Parsed? && ParseInt(cols[c.ColObjectID]).value != v.lastID
    ensures var id := ParseInt(cols[c.ColObjectID]).value;
      Row(c, cols, v, index, dir0, files, unwritable)
        == Fresh(c, cols, v.(id := id, lastID := id), InPath(c, cols, id, Itoa(id)), index, dir0, files, unwritable)
  {
  }

  /** The row parses to a new ID. */
  predicate IsNew(c: Configuration, cols: seq<string>, v: Vars)
  {
    0 <= c.ColObjectID < |cols| && ParseInt(cols[c.ColObjectID]).Parsed? && ParseInt(cols[c.ColObjectID]).value != v.lastID
  }

  /** The duplicate check against `last` on an open index file: a row is a
      duplicate exactly when its ID parses to `last`; `last` becomes the
      parsed ID of every row that is not one; the counters never decrease
      and a row adds to at most one of them. */
  lemma RowAccounting(c: Configuration, cols: seq<string>, v: Vars, index: string, dir0: string,
                      files: map<string, seq<bv8>>, unwritable: set<string>)
    requires Valid(c)
    ensures var r := Row(c, cols, v, index, dir0, files, unwritable);
      && (r.sink == DupSink <==> 0 <= c.ColObjectID < |cols| && ParseInt(cols[c.ColObjectID]) == Parsed(v.lastID))
      && (r.sink == DupSink ==> r.vars.duplicates == v.duplicates + 1 && r.files == files)
      && (r.sink != DupSink ==> r.vars.duplicates == v.duplicates)
      && r.vars.lastID == (if 0 <= c.ColObjectID < |cols| && ParseInt(cols[c.ColObjectID]).Parsed?
                           then ParseInt(cols[c.ColObjectID]).value else v.lastID)
      && v.successful <= r.vars.successful && v.failed <= r.vars.failed
      && (r.vars.successful - v.successful) + (r.vars.failed - v.failed) + (r.vars.duplicates - v.duplicates) <= 1
      && (r.vars.failed == v.failed + 1 ==> r.sink == ErrorSink && r.files == files && !Present(files, r.vars.path))
      && (r.result == Ok(true) <==> r.sink.IndexSink?)
      && (r.result.Panic? ==> r.sink == NoSink)
  {
    if IsNew(c, cols, v) {
      var id := ParseInt(cols[c.ColObjectID]).value;
      RowFresh(c, cols, v, index, dir0, files, unwritable);
      FreshAccounting(c, cols, v.(id := id, lastID := id), InPath(c, cols, id, Itoa(id)), index, dir0, files, unwritable);
    }
  }

  /** The whole row: as Row once the index file is open, and a panic that
      changes nothing otherwise. */
  lemma Accounting(c: Configuration, cols: seq<string>, v: Vars, dir0: string,
                   files: map<string, seq<bv8>>, unwritable: set<string>)
    requires Valid(c)
    ensures var r := Step(c, cols, v, dir0, files, unwritable);
      var opens := MainIndexFile(c).Ok? && OpenSink(unwritable, MainIndexFile(c).value).None?;
      && (!opens ==> r == Verdict(r.result, v, files, NoSink) && r.result.Panic?)
      && (r.sink == DupSink <==> opens && 0 <= c.ColObjectID < |cols| && ParseInt(cols[c.ColObjectID]) == Parsed(v.lastID))
      && (r.sink != DupSink ==> r.vars.duplicates == v.duplicates)
      && r.vars.lastID == (if opens && 0 <= c.ColObjectID < |cols| && ParseInt(cols[c.ColObjectID]).Parsed?
                           then ParseInt(cols[c.ColObjectID]).value else v.lastID)
      && v.successful <= r.vars.successful && v.failed <= r.vars.failed
      && (r.vars.successful - v.successful) + (r.vars.failed - v.failed) + (r.vars.duplicates - v.duplicates) <= 1
      && (r.result == Ok(true) <==> r.sink.IndexSink?)
  {
    if MainIndexFile(c).Ok? && OpenSink(unwritable, MainIndexFile(c).value).None? {
      RowAccounting(c, cols, v, MainIndexFile(c).value, dir0, files, unwritable);
    }
  }

  /** An indexed row had a new ID, was copied from an existing source,
      and its index line, written to `index`, names the out path of the
      output ID successful + OutFileRenameIntOffset. */
  lemma RowIndexed(c: Configuration, cols: seq<string>, v: Vars, index: string, dir0: string,
                   files: map<string, seq<bv8>>, unwritable: set<string>)
    requires Valid(c)
    ensures var r := Row(c, cols, v, index, dir0, files, unwritable);
      && IndexedAs(c, cols, dir0, index, v.successful, r)
      && (r.sink.IndexSink? ==>
            && Present(files, r.vars.path)
            && IsNew(c, cols, v)
            && r.vars.id == ParseInt(cols[c.ColObjectID]).value)
  {
    if IsNew(c, cols, v) {
      var id := ParseInt(cols[c.ColObjectID]).value;
      RowFresh(c, cols, v, index, dir0, files, unwritable);
      FreshAccounting(c, cols, v.(id := id, lastID := id), InPath(c, cols, id, Itoa(id)), index, dir0, files, unwritable);
      FreshIndexed(c, cols, v.(id := id, lastID := id), InPath(c, cols, id, Itoa(id)), index, dir0, files, unwritable);
    }
  }

  /** Every indexed row goes to the one index file of ID 0, whose name has
      "_" before OutLinesName even without batching, and its out path
      follows the output ID successful + OutFileRenameIntOffset whatever
      OutFileRenameInt says. */
  lemma IndexedAfterCopy(c: Configuration, cols: seq<string>, v: Vars, dir0: string,
                         files: map<string, seq<bv8>>, unwritable: set<string>)
    requires Valid(c)
    ensures var r := Step(c, cols, v, dir0, files, unwritable);
      var n := RenamedID(c, v);
      r.sink.IndexSink? ==>
        && r.vars.successful == v.successful + 1
        && MainIndexFile(c).Ok? && r.sink.file == MainIndexFile(c).value
        && (!c.OutAutoBatch ==> r.sink.file == JoinPath([c.OutDir, "_" + c.OutLinesName]))
        && OutLocation(c, cols, n, dir0).Ok?
        && Project(c.OutLinesColumns, cols, c.Delimiter).Ok?
        && Project(c.OutLinesColumns, cols, c.Delimiter).value.Projected?
        && r.sink.text == Project(c.OutLinesColumns, cols, c.Delimiter).value.text + c.Delimiter
                          + OutLocation(c, cols, n, dir0).value.path
        && Present(files, r.vars.path)
        && IsNew(c, cols, v)
  {
    MainIndexFileNames(c);
    if MainIndexFile(c).Ok? && OpenSink(unwritable, MainIndexFile(c).value).None? {
      RowIndexed(c, cols, v, MainIndexFile(c).value, dir0, files, unwritable);
    }
  }

  class Line {
    const cfg: Configuration
    var line: string
    var columns: seq<string>
    var id: int
    var dir: string
    var path: string

    /** &Line{Configuration: c, Line: l, Columns: col}. */
    constructor (c: Configuration, text: string, cols: seq<string>)
      ensures cfg == c && line == text && columns == cols && id == 0 && dir == "" && path == ""
    {
      cfg := c;
      line, columns, id, dir, path := text, cols, 0, "", "";
    }

    /** lo := *l */
    constructor Clone(l: Line)
      ensures cfg == l.cfg && line == l.line && columns == l.columns && id == l.id
      ensures dir == l.dir && path == l.path
    {
      cfg := l.cfg;
      line, columns, id, dir, path := l.line, l.columns, l.id, l.dir, l.path;
    }

    /** The Line's part of the ProcessLine variables, with `last` and the
        counters of the package variables. */
    function Variables(g: Globals): Vars
      reads this, g
    {
      Vars(id, g.last, path, g.successful, g.failed, g.duplicates)
    }

    /** GetInPath: the decimal ID is always the file name. */
    method GetInPath() returns (r: Outcome<string>)
      requires Valid(cfg)
      ensures r == InPath(cfg, columns, id, Itoa(id))
    {
      var inExtension: string;
      if cfg.InFileExt == "" {
        if !(0 <= cfg.ColFileExtIn < |columns|) {
          return Panic(ColumnOutOfRange(cfg.ColFileExtIn, |columns|));
        }
        inExtension := columns[cfg.ColFileExtIn];
      } else {
        inExtension := cfg.InFileExt;
      }
      var parentPath: string;
      if cfg.InDir != "" {
        parentPath := cfg.InDir;
      } else {
        if !(0 <= cfg.ColFileName < |columns|) {
          return Panic(ColumnOutOfRange(cfg.ColFileName, |columns|));
        }
        parentPath := columns[cfg.ColFileName];
      }
      var subpath, _ := PathFromID(id, cfg.DirDepth, cfg.FolderSize);
      var fileName := Itoa(id);
      return Ok(JoinPath([parentPath, subpath, fileName]) + inExtension);
    }

    /** GetOutPath: the same rules as lib. */
    method GetOutPath() returns (r: Outcome<string>)
      requires Valid(cfg)
      modifies this`dir, this`path
      ensures var loc := OutLocation(cfg, columns, id, old(dir));
        && r == (if loc.Ok? then Ok(loc.value.path) else Panic(loc.fault))
        && (loc.Ok? ==> dir == loc.value.dir && path == loc.value.path)
        && (loc.Panic? ==> dir == old(dir) && path == old(path))
    {
      var filename: string;
      if cfg.OutFileRenameInt {
        filename := Itoa(id);
      } else {
        if !(0 <= cfg.ColFileName < |columns|) {
          return Panic(ColumnOutOfRange(cfg.ColFileName, |columns|));
        }
        filename := columns[cfg.ColFileName];
      }
      var outExtension := cfg.OutFileExt;
      if outExtension == "" {
        if !(0 <= cfg.ColFileExtOut < |columns|) {
          return Panic(ColumnOutOfRange(cfg.ColFileExtOut, |columns|));
        }
        outExtension := columns[cfg.ColFileExtOut];
      }
      if cfg.OutAutoBatch {
        var b := Batch(cfg, id);
        if b.Panic? {
          return Panic(b.fault);
        }
        dir := b.value;
      }
      if cfg.OutXtenderStructure {
        var subpath, _ := PathFromID(id, cfg.DirDepth, cfg.FolderSize);
        dir := JoinPath([dir, subpath]);
      }
      dir := JoinPath([cfg.OutDir, dir]);
      path := JoinPath([dir, filename]) + outExtension;
      return Ok(path);
    }

    /** OutLineFile: the batch of the Line's ID, "_" and OutLinesName under
        OutDir, opened into the package variable outFlat; failure is
        log.Fatal. On the fresh Line of a row the ID is 0, and the file is
        MainIndexFile. */
    method OutLineFile(g: Globals, d: Disk) returns (fault: Option<Fault>)
      modifies g`outFlat
      ensures var b := Batch(cfg, id);
        && fault == (if b.Panic? then Some(b.fault)
                     else OpenSink(d.unwritable, JoinPath([cfg.OutDir, b.value + "_" + cfg.OutLinesName])))
        && g.outFlat == (if fault.None? then Some(JoinPath([cfg.OutDir, b.value + "_" + cfg.OutLinesName]))
                         else old(g.outFlat))
      ensures id == 0 ==>
        && fault == (if MainIndexFile(cfg).Panic? then Some(MainIndexFile(cfg).fault)
                     else OpenSink(d.unwritable, MainIndexFile(cfg).value))
        && g.outFlat == OutFlatAfter(cfg, d.unwritable, old(g.outFlat))
    {
      var b := Batch(cfg, id);
      if b.Panic? {
        return Some(b.fault);
      }
      var outFile := b.value + "_" + cfg.OutLinesName;
      var outPath := JoinPath([cfg.OutDir, outFile]);
      fault := OpenSink(d.unwritable, outPath);
      if fault == None {
        g.outFlat := Some(outPath);
      }
    }

    /** GenLineFromColumns: replaces Line by the projected columns. */
    method GenLineFromColumns() returns (r: Outcome<Projection>)
      modifies this`line
      ensures r == Project(cfg.OutLinesColumns, columns, cfg.Delimiter)
      ensures line == if r.Ok? && r.value.Projected? then r.value.text else old(line)
    {
      r := Generate(cfg.OutLinesColumns, columns, cfg.Delimiter);
      if r.Ok? && r.value.Projected? {
        line := r.value.text;
      }
    }

    /** ProcessLine on a fresh Line: the whole effect is Step, and outFlat
        is the index file of ID 0 once it could be opened. */
    method ProcessLine(g: Globals, d: Disk) returns (r: Outcome<bool>)
      requires Valid(cfg) && id == 0
      modifies this`id, this`path, g`last, g`successful, g`failed, g`duplicates, g`outFlat
      modifies d`files, d`dups, d`errors, d`index
      ensures var s := Step(cfg, columns, old(Variables(g)), dir, old(d.files), d.unwritable);
        && r == s.result && Variables(g) == s.vars
        && d.Snapshot() == Deliver(old(d.Snapshot()), s, line)
        && g.outFlat == OutFlatAfter(cfg, d.unwritable, old(g.outFlat))
    {
      var openFault := OutLineFile(g, d);
      if openFault.Some? {
        return Panic(openFault.value);
      }
      r := CheckID(g.outFlat.value, g, d);
    }

    /** The ID parse and the duplicate check of ProcessLine, after
        OutLineFile opened `index`. */
    method CheckID(index: string, g: Globals, d: Disk) returns (r: Outcome<bool>)
      requires Valid(cfg)
      modifies this`id, this`path, g`last, g`successful, g`failed, g`duplicates
      modifies d`files, d`dups, d`errors, d`index
      ensures var s := Row(cfg, columns, old(Variables(g)), index, dir, old(d.files), d.unwritable);
        && r == s.result && Variables(g) == s.vars
        && d.Snapshot() == Deliver(old(d.Snapshot()), s, line)
    {
      if !(0 <= cfg.ColObjectID < |columns|) {
        return Panic(ColumnOutOfRange(cfg.ColObjectID, |columns|));
      }
      var parsed := ParseInt(columns[cfg.ColObjectID]);
      id := parsed.Returned();
      if !parsed.Parsed? {
        d.WriteError(line);
        return Ok(false);
      }
      if g.last == id {
        g.duplicates := g.duplicates + 1;
        d.WriteDup(line);
        return Ok(false);
      }
      g.last := id;
      RowFresh(cfg, columns, old(Variables(g)), index, dir, d.files, d.unwritable);
      r := Locate(index, g, d);
    }

    /** GetInPath, stored in Path, and the output ID of main.go. */
    method Locate(index: string, g: Globals, d: Disk) returns (r: Outcome<bool>)
      requires Valid(cfg)
      modifies this`path, g`successful, g`failed, d`files, d`errors, d`index
      ensures var s := Fresh(cfg, columns, old(Variables(g)), InPath(cfg, columns, id, Itoa(id)), index, dir, old(d.files), d.unwritable);
        && r == s.result && Variables(g) == s.vars
        && d.Snapshot() == Deliver(old(d.Snapshot()), s, line)
    {
      ghost var v0 := Variables(g);
      ghost var w0 := d.Snapshot();
      var inPath := GetInPath();
      if inPath.Panic? {
        assert Deliver(w0, Verdict(Panic(inPath.fault), v0, d.files, NoSink), line) == w0;
        return Panic(inPath.fault);
      }
      path := inPath.value;
      assert Variables(g) == v0.(path := inPath.value);
      var current := g.successful + cfg.OutFileRenameIntOffset;
      assert Fresh(cfg, columns, v0, inPath, index, dir, d.files, d.unwritable)
             == Tail(cfg, columns, Variables(g), path, current, dir, index, d.files, d.unwritable);
      r := Output(current, index, g, d);
    }

    /** ProcessLine of main.go from `lo := *l` on (main.go:232-262), for
        the output ID `current` and the open index file `index`. */
    method Output(current: int, index: string, g: Globals, d: Disk) returns (r: Outcome<bool>)
      requires Valid(cfg)
      modifies g`successful, g`failed, d`files, d`errors, d`index
      ensures var s := Tail(cfg, columns, old(Variables(g)), path, current, dir, index, old(d.files), d.unwritable);
        && r == s.result && Variables(g) == s.vars
        && d.Snapshot() == Deliver(old(d.Snapshot()), s, line)
    {
      var lo := new Line.Clone(this);
      lo.id := current;
      var outPath := lo.GetOutPath();
      if outPath.Panic? {
        return Panic(outPath.fault);
      }
      var made := MakeDir(d.unwritable, lo.dir);
      if made.Some? {
        return Panic(made.value);
      }
      r := Deposit(lo, index, g, d);
    }

    /** copy, GenLineFromColumns and the index line (main.go:248-262). */
    method Deposit(lo: Line, index: string, g: Globals, d: Disk) returns (r: Outcome<bool>)
      requires lo != this && lo.cfg == cfg && lo.columns == columns
      modifies lo`line, g`successful, g`failed, d`files, d`errors, d`index
      ensures var s := Pipeline.Deposit(cfg, columns, old(Variables(g)), path, lo.path, index, old(d.files), d.unwritable);
        && r == s.result && Variables(g) == s.vars
        && d.Snapshot() == Deliver(old(d.Snapshot()), s, line)
    {
      var copied := g.Copy(path, lo.path, d);
      if copied.Panic? {
        return Panic(copied.fault);
      }
      if copied.value.Some? {
        d.WriteError(line);
        return Ok(false);
      }
      var projected := lo.GenLineFromColumns();
      if projected.Panic? {
        return Panic(projected.fault);
      }
      if projected.value.BadEntry? {
        d.WriteError(line);
        return Ok(false);
      }
      d.WriteIndex(index, lo.line + lo.cfg.Delimiter + lo.path);
      return Ok(true);
    }
  }

  /** The package variables main.go's processIn updates, and the disk. */
  datatype Totals = Totals(lineCount: int, skipped: int, last: int, successful: int, failed: int, duplicates: int,
                           outFlat: Option<string>, world: World)

  /** The package variables and the disk as Totals. */
  function Observe(g: Globals, d: Disk): Totals
    reads g, d
  {
    Totals(g.lineCount, g.skipped, g.last, g.successful, g.failed, g.duplicates, g.outFlat, d.Snapshot())
  }

  /** The row-offset loop adds Offset to lineCount and to skipped. */
  function Start(c: Configuration, t: Totals): Run<Totals>
  {
    Run(t.(lineCount := t.lineCount + Offset(c), skipped := t.skipped + Offset(c)), None)
  }

  /** One row of the main loop: lineCount grows by one, and ProcessLine runs
      on a fresh Line (ID 0, Path and Dir "") whose columns are the row's
      split on Delimiter; a panic ends the run. */
  function Feed(c: Configuration, t: Totals, text: string, unwritable: set<string>): Run<Totals>
    requires Valid(c)
  {
    var cols := Split(text, c.Delimiter);
    var s := Step(c, cols, Vars(0, t.last, "", t.successful, t.failed, t.duplicates), "", t.world.files, unwritable);
    Run(Totals(t.lineCount + 1, t.skipped, s.vars.lastID, s.vars.successful, s.vars.failed, s.vars.duplicates,
               OutFlatAfter(c, unwritable, t.outFlat), Deliver(t.world, s, text)),
        if s.result.Panic? then Some(s.result.fault) else None)
  }

  /** Feed as the step of the main loop. */
  function Feeder(c: Configuration, unwritable: set<string>): (Totals, string) --> Run<Totals>
  {
    (t: Totals, text: string) requires Valid(c) => Feed(c, t, text, unwritable)
  }

  /** processIn on the lines of the input file, from the package variables
      and disk `t`. */
  function Processed(c: Configuration, lines: seq<string>, t: Totals, unwritable: set<string>): Run<Totals>
    requires Valid(c)
  {
    Rows(Feeder(c, unwritable), Start(c, t), lines[Consumed(c, lines)..])
  }

  /** The index files other than `key` are as they were. */
  ghost predicate OnlyAt(before: map<string, seq<string>>, after: map<string, seq<string>>, key: string)
  {
    forall k :: k != key ==> (k in after <==> k in before) && (k in before ==> after[k] == before[k])
  }

  /** The three counters of Totals. */
  function Tally(t: Totals): int
  {
    t.successful + t.failed + t.duplicates
  }

  /** One row adds 1 to lineCount and at most 1 to the counters together,
      never decreases a counter, adds one line to the duplicates file
      exactly when it adds one to `duplicates`, and writes index lines only
      to the index file of ID 0, which is open for the next row unless this
      one panicked. */
  lemma FeedCounts(c: Configuration, t: Totals, text: string, unwritable: set<string>)
    requires Valid(c)
    ensures var r := Feed(c, t, text, unwritable);
      var q := r.state;
      && q.lineCount == t.lineCount + 1 && q.skipped == t.skipped
      && t.successful <= q.successful && t.failed <= q.failed && t.duplicates <= q.duplicates
      && Tally(q) <= Tally(t) + 1
      && |q.world.dups| - |t.world.dups| == q.duplicates - t.duplicates
      && (MainIndexFile(c).Ok? ==> OnlyAt(t.world.index, q.world.index, MainIndexFile(c).value))
      && (MainIndexFile(c).Panic? ==> r.fault.Some? && q.world == t.world)
      && (r.fault.None? ==> MainIndexFile(c).Ok? && q.outFlat == Some(MainIndexFile(c).value))
  {
    var cols := Split(text, c.Delimiter);
    var v := Vars(0, t.last, "", t.successful, t.failed, t.duplicates);
    Accounting(c, cols, v, "", t.world.files, unwritable);
    IndexedAfterCopy(c, cols, v, "", t.world.files, unwritable);
  }

  /** Over any rows: lineCount grows by the number of rows fed (all of them
      unless one panics), skipped does not change, the counters grow by at
      most the number of rows fed, the duplicates file grows by the number
      of duplicates, and no index file but that of ID 0 is written. */
  lemma {:induction false} RowsCount(c: Configuration, r0: Run<Totals>, rows: seq<string>, unwritable: set<string>)
    requires Valid(c) && r0.fault.None?
    ensures var r := Rows(Feeder(c, unwritable), r0, rows).state;
      var t := r0.state;
      && r.skipped == t.skipped
      && t.lineCount <= r.lineCount <= t.lineCount + |rows|
      && (Rows(Feeder(c, unwritable), r0, rows).fault.None? ==> r.lineCount == t.lineCount + |rows|)
      && t.successful <= r.successful && t.failed <= r.failed && t.duplicates <= r.duplicates
      && Tally(r) - Tally(t) <= r.lineCount - t.lineCount
      && |r.world.dups| - |t.world.dups| == r.duplicates - t.duplicates
      && (MainIndexFile(c).Ok? ==> OnlyAt(t.world.index, r.world.index, MainIndexFile(c).value))
      && (MainIndexFile(c).Panic? ==> r.world == t.world)
    decreases |rows|
  {
    if rows != [] {
      var prefix := rows[..|rows| - 1];
      RowsCount(c, r0, prefix, unwritable);
      var r := Rows(Feeder(c, unwritable), r0, prefix);
      if r.fault.None? {
        FeedCounts(c, r.state, rows[|rows| - 1], unwritable);
      }
    }
  }

  /** After processIn: skipped grew by Offset, every row fed adds 1 to
      lineCount, all rows of the file are fed unless one panics, each fed
      row adds to at most one of successful, failed and duplicates, the
      duplicates file grows by one line per duplicate, and every index line
      of the run went to the one index file of ID 0. */
  lemma ProcessedCounts(c: Configuration, lines: seq<string>, t: Totals, unwritable: set<string>)
    requires Valid(c)
    ensures var r := Processed(c, lines, t, unwritable);
      var q := r.state;
      && q.skipped == t.skipped + Offset(c)
      && t.lineCount + Offset(c) <= q.lineCount <= t.lineCount + Offset(c) + |lines| - Consumed(c, lines)
      && (r.fault.None? ==> q.lineCount == t.lineCount + Offset(c) + |lines| - Consumed(c, lines))
      && Tally(q) - Tally(t) <= q.lineCount - t.lineCount - Offset(c)
      && |q.world.dups| - |t.world.dups| == q.duplicates - t.duplicates
      && (MainIndexFile(c).Ok? ==> OnlyAt(t.world.index, q.world.index, MainIndexFile(c).value))
      && (MainIndexFile(c).Panic? ==> q.world == t.world)
  {
    RowsCount(c, Start(c, t), lines[Consumed(c, lines)..], unwritable);
  }

  /** processIn of main.go: the row-offset loop on the package counters,
      then a fresh Line for every remaining row. */
  method ProcessIn(c: Configuration, lines: seq<string>, g: Globals, d: Disk) returns (fault: Option<Fault>)
    requires Valid(c)
    modifies g, d`files, d`dups, d`errors, d`index
    ensures Run(Observe(g, d), fault) == Processed(c, lines, old(Observe(g, d)), d.unwritable)
  {
    ghost var t := Observe(g, d);
    var next := SkipOffset(c, lines, g);
    assert Run(Observe(g, d), None) == Start(c, t);
    fault := FeedRows(c, lines, next, g, d);
  }

  /** The row-offset loop: runs OutLinesRowOffset times, consuming a row
      when there is one and counting it as read and skipped either way. */
  method SkipOffset(c: Configuration, lines: seq<string>, g: Globals) returns (next: nat)
    modifies g`lineCount, g`skipped
    ensures next == Consumed(c, lines)
    ensures g.lineCount == old(g.lineCount) + Offset(c) && g.skipped == old(g.skipped) + Offset(c)
  {
    next := 0;  // the scanner's position
    var i := c.OutLinesRowOffset;
    while i > 0
      invariant Max(i, 0) <= Offset(c)
      invariant g.lineCount == old(g.lineCount) + Offset(c) - Max(i, 0)
      invariant g.skipped == old(g.skipped) + Offset(c) - Max(i, 0)
      invariant next == Min(Offset(c) - Max(i, 0), |lines|)
    {
      if next < |lines| {
        next := next + 1;
      }
      g.lineCount := g.lineCount + 1;
      g.skipped := g.skipped + 1;
      i := i - 1;
    }
  }

  /** The main loop over the rows from `first` on, until the rows run out
      or a row panics. */
  method FeedRows(c: Configuration, lines: seq<string>, first: nat, g: Globals, d: Disk) returns (fault: Option<Fault>)
    requires Valid(c) && first == Consumed(c, lines)
    modifies g`lineCount, g`last, g`successful, g`failed, g`duplicates, g`outFlat, d`files, d`dups, d`errors, d`index
    ensures Run(Observe(g, d), fault) == Rows(Feeder(c, d.unwritable), Run(old(Observe(g, d)), None), lines[first..])
  {
    ghost var start: Run<Totals> := Run(Observe(g, d), None);
    assert lines[first..first] == [];
    var next := first;
    fault := None;
    while next < |lines| && fault.None?
      invariant first <= next <= |lines|
      invariant Run(Observe(g, d), fault) == Rows(Feeder(c, d.unwritable), start, lines[first..next])
      decreases |lines| - next
    {
      RowsNext(Feeder(c, d.unwritable), start, lines, first, next);
      fault := FeedRow(c, lines[next], g, d);
      next := next + 1;
    }
    RowsRest(Feeder(c, d.unwritable), start, lines, first, next);
  }

  /** The body of the main loop for the row `text`. */
  method FeedRow(c: Configuration, text: string, g: Globals, d: Disk) returns (fault: Option<Fault>)
    requires Valid(c)
    modifies g`lineCount, g`last, g`successful, g`failed, g`duplicates, g`outFlat, d`files, d`dups, d`errors, d`index
    ensures Run(Observe(g, d), fault) == Feed(c, old(Observe(g, d)), text, d.unwritable)
  {
    ghost var t := Observe(g, d);
    g.lineCount := g.lineCount + 1;
    var cols := Split(text, c.Delimiter);
    var line := new Line(c, text, cols);
    ghost var v := Vars(0, t.last, "", t.successful, t.failed, t.duplicates);
    ghost var s := Step(c, cols, v, "", t.world.files, d.unwritable);
    assert line.Variables(g) == v && line.dir == "" && d.Snapshot() == t.world;
    var r := line.ProcessLine(g, d);
    assert r == s.result && line.Variables(g) == s.vars && d.Snapshot() == Deliver(t.world, s, text);
    fault := if r.Panic? then Some(r.fault) else None;
    assert Observe(g, d) == Totals(t.lineCount + 1, t.skipped, s.vars.lastID, s.vars.successful, s.vars.failed,
                                   s.vars.duplicates, OutFlatAfter(c, d.unwritable, t.outFlat), Deliver(t.world, s, text));
  }

  /** setup: Mkdir of OutDir and the duplicates and error files, then
      processIn. */
  method Setup(c: Configuration, lines: seq<string>, g: Globals, d: Disk) returns (fault: Option<Fault>)
    requires Valid(c)
    modifies g, d`files, d`dups, d`errors, d`index
    ensures Opening(c, d.unwritable).Some? ==>
      fault == Opening(c, d.unwritable) && Observe(g, d) == old(Observe(g, d))
    ensures Opening(c, d.unwritable).None? ==>
      Run(Observe(g, d), fault) == Processed(c, lines, old(Observe(g, d)), d.unwritable)
  {
    fault := Opening(c, d.unwritable);
    if fault.Some? {
      return;
    }
    fault := ProcessIn(c, lines, g, d);
  }
}
