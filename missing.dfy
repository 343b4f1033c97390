/** missing.go: the missing-object audit of the root package. Each row of
    the audit file holds an object ID, the root directory of its
    application and a bucket. The audit computes each row's in path with
    line.go's GetInPath, and appends every path that does not exist to the
    report `<OutDir>/<bucket>_missing.txt` of the row's bucket. It adds to
    the package counters lineCount and failed, and to the configuration's
    MissingCount. */
module Missing {
  import opened Common
  import opened Text
  import opened Config
  import opened Paths
  import opened Files
  import opened Scan
  import opened RootGlobals
  import opened RootLine

  /** What the audit updates: InDir and MissingCount of the shared
      configuration, the Line's fields, the previous bucket and its report
      handle, the two package counters, and the reports on disk. */
  datatype Audit = Audit(inDir: string, missingCount: int, line: string, columns: seq<string>, id: int,
                         path: string, bucket: string, report: Option<string>, lineCount: int, failed: int,
                         reports: map<string, seq<string>>)

  /** The configuration as the audit has left it. */
  function Settings(c: Configuration, a: Audit): (r: Configuration)
    ensures r.InDir == a.inDir && r.MissingCount == a.missingCount
  {
    c.(InDir := a.inDir, MissingCount := a.missingCount)
  }

  /** The report of a bucket. */
  function ReportFile(c: Configuration, bucket: string): string
  {
    JoinPath([c.OutDir, bucket + "_missing.txt"])
  }

  /** os.OpenFile of a report: the handle, or nil when it fails (the error
      is only logged). */
  function Reopen(unwritable: set<string>, path: string): (r: Option<string>)
    ensures r.Some? <==> path !in unwritable
    ensures r.Some? ==> r.value == path
  {
    if OpenSink(unwritable, path).None? then Some(path) else None
  }

  /** writeLine on the report handle: a nil handle writes nothing. */
  function Report(reports: map<string, seq<string>>, report: Option<string>, s: string): map<string, seq<string>>
  {
    if report.Some? then Append(reports, report.value, s) else reports
  }

  /** calcMissing: a Path that does not exist is written to the report and
      counted in MissingCount. */
  function Check(a: Audit, files: map<string, seq<bv8>>): (r: Audit)
    ensures r.(missingCount := a.missingCount, reports := a.reports) == a
    ensures r.missingCount == a.missingCount + (if Present(files, a.path) then 0 else 1)
    ensures r.reports == if Present(files, a.path) then a.reports else Report(a.reports, a.report, a.path)
  {
    if !Present(files, a.path) then a.(missingCount := a.missingCount + 1, reports := Report(a.reports, a.report, a.path))
    else a
  }

  /** The bucket switch: a bucket column other than the previous bucket
      closes the old report and opens the new one; the same bucket keeps the
      handle. */
  function Switch(c: Configuration, a: Audit, bucket: string, unwritable: set<string>): Audit
  {
    if a.bucket != bucket then a.(bucket := bucket, report := Reopen(unwritable, ReportFile(c, bucket))) else a
  }

  /** The start of the row common to both versions: the row is the Line's
      text, lineCount grows by one and Columns is its split on Delimiter. */
  function Read(c: Configuration, a: Audit, text: string): Audit
  {
    a.(line := text, columns := Split(text, c.Delimiter), lineCount := a.lineCount + 1)
  }

  /** InDir := col[1], then ID := ParseInt(col[0]); a parse error adds 1 to
      failed and the value ParseInt returned is kept. */
  function Identify(a: Audit, cols: seq<string>): Audit
    requires |cols| >= 2
  {
    var p := ParseInt(cols[0]);
    a.(inDir := cols[1], id := p.Returned(), failed := a.failed + (if p.Parsed? then 0 else 1))
  }

  /** One row of missing.go as written: the column guard counts every row
      of three or more columns as failed; a row of fewer columns panics at
      col[1] or col[2]; the result of GetInPath is dropped, so calcMissing
      checks the Path the Line already had. */
  function AuditRowAsWritten(c: Configuration, a: Audit, text: string, files: map<string, seq<bv8>>,
                             unwritable: set<string>): Run<Audit>
    requires Valid(c)
  {
    var a1 := Read(c, a, text);
    var cols := a1.columns;
    var a2 := a1.(failed := a1.failed + (if |cols| >= 3 then 1 else 0));
    if |cols| < 2 then Run(a2, Some(ColumnOutOfRange(1, |cols|)))
    else
      var a3 := Identify(a2, cols);
      if |cols| < 3 then Run(a3, Some(ColumnOutOfRange(2, |cols|)))
      else
        var a4 := Switch(c, a3, cols[2], unwritable);
        match InPath(Settings(c, a4), cols, a4.id, Itoa(a4.id))
        case Panic(f) => Run(a4, Some(f))
        case Ok(_) => Run(Check(a4, files), None)
  }

  /** One row of the audit as intended: a row of fewer than three columns
      is counted as failed and skipped; otherwise the in path GetInPath
      returns becomes Path before calcMissing checks it. */
  function AuditRow(c: Configuration, a: Audit, text: string, files: map<string, seq<bv8>>,
                    unwritable: set<string>): Run<Audit>
    requires Valid(c)
  {
    var a1 := Read(c, a, text);
    var cols := a1.columns;
    if |cols| < 3 then Run(a1.(failed := a1.failed + 1), None)
    else Classify(c, a1, files, unwritable)
  }

  /** A row of three or more columns: its ID and root directory, the
      bucket switch, and Probe. */
  function Classify(c: Configuration, a: Audit, files: map<string, seq<bv8>>, unwritable: set<string>): Run<Audit>
    requires Valid(c) && |a.columns| >= 3
  {
    Probe(c, Switch(c, Identify(a, a.columns), a.columns[2], unwritable), files)
  }

  /** GetInPath, stored in Path, and calcMissing. */
  function Probe(c: Configuration, a: Audit, files: map<string, seq<bv8>>): Run<Audit>
    requires Valid(c)
  {
    match InPath(Settings(c, a), a.columns, a.id, Itoa(a.id))
    case Panic(f) => Run(a, Some(f))
    case Ok(path) => Run(Check(a.(path := path), files), None)
  }

  /** The in path of an audit row of three or more columns: that of its ID
      under its own root directory. */
  function RowPath(c: Configuration, cols: seq<string>): Outcome<string>
    requires Valid(c) && |cols| >= 3
  {
    var id := ParseInt(cols[0]).Returned();
    InPath(c.(InDir := cols[1]), cols, id, Itoa(id))
  }

  /** GetInPath reads InDir but not MissingCount. */
  lemma PathOfRow(c: Configuration, a: Audit, cols: seq<string>, unwritable: set<string>)
    requires Valid(c) && |cols| >= 3
    ensures var a3 := Switch(c, Identify(a, cols), cols[2], unwritable);
      InPath(Settings(c, a3), cols, a3.id, Itoa(a3.id)) == RowPath(c, cols)
  {
    var a3 := Switch(c, Identify(a, cols), cols[2], unwritable);
    assert Settings(c, a3).(MissingCount := c.MissingCount) == c.(InDir := cols[1]);
  }

  /** As written, the audit flags a row with columns "5", "apps" and "b"
      whose file exists: it counts the row as failed, counts it as missing
      and writes an empty line to the report of bucket "b", where the
      intended audit changes neither counter and writes nothing. */
  lemma AsWrittenFlagsPresentFile(c: Configuration, a: Audit, files: map<string, seq<bv8>>, unwritable: set<string>)
    requires Valid(c) && c.Delimiter == "," && a.path == "" && a.bucket == "b"
    requires RowPath(c, ["5", "apps", "b"]).Ok? && Present(files, RowPath(c, ["5", "apps", "b"]).value)
    ensures var w := AuditRowAsWritten(c, a, "5,apps,b", files, unwritable);
      && w.fault.None?
      && w.state.failed == a.failed + 1
      && w.state.missingCount == a.missingCount + 1
      && w.state.reports == Report(a.reports, a.report, "")
    ensures var r := AuditRow(c, a, "5,apps,b", files, unwritable);
      && r.fault.None?
      && r.state.failed == a.failed
      && r.state.missingCount == a.missingCount
      && r.state.reports == a.reports
  {
    SplitThree();
    ParseFive();
    var a1 := Read(c, a, "5,apps,b");
    PathOfRow(c, a1, ["5", "apps", "b"], unwritable);
    var a2 := a1.(failed := a1.failed + 1);
    PathOfRow(c, a2, ["5", "apps", "b"], unwritable);
  }

  /** The split of the example row. */
  lemma SplitThree()
    ensures Split("5,apps,b", ",") == ["5", "apps", "b"]
  {
    assert "5,apps,b" == "5" + "," + "apps,b";
    SplitPiece("5", "apps,b", "");
    SplitTwo();
    assert "" + "5" == "5";
  }

  /** The split of the example row after its first comma. */
  lemma SplitTwo()
    ensures SplitFrom("apps,b", ",", "") == ["apps", "b"]
  {
    assert "apps,b" == "apps" + "," + "b";
    SplitPiece("apps", "b", "");
    SplitLast("b", "");
    assert "" + "apps" == "apps" && "" + "b" == "b";
  }

  /** A piece without a comma, and a comma after it. */
  lemma {:induction false} SplitPiece(w: string, rest: string, cur: string)
    requires forall i :: 0 <= i < |w| ==> w[i] != ','
    ensures SplitFrom(w + "," + rest, ",", cur) == [cur + w] + SplitFrom(rest, ",", "")
    decreases |w|
  {
    var s := w + "," + rest;
    if w == [] {
      assert s[..1] == "," && s[1..] == rest;
      assert cur + w == cur;
    } else {
      assert s[..1] == [w[0]] && s[1..] == w[1..] + "," + rest;
      SplitPiece(w[1..], rest, cur + [w[0]]);
      assert cur + [w[0]] + w[1..] == cur + w;
    }
  }

  /** The last piece, without a comma. */
  lemma {:induction false} SplitLast(w: string, cur: string)
    requires forall i :: 0 <= i < |w| ==> w[i] != ','
    ensures SplitFrom(w, ",", cur) == [cur + w]
    decreases |w|
  {
    if w != [] {
      assert w[..1] == [w[0]];
      SplitLast(w[1..], cur + [w[0]]);
      assert cur + [w[0]] + w[1..] == cur + w;
    }
  }

  /** The ID of the example row. */
  lemma ParseFive()
    ensures ParseInt("5") == Parsed(5)
  {
    assert AllDigits("5") && DecimalValue("5") == 5;
    ParseUnsigned("5", 5);
  }

  /** As written the audit never changes Path, so with the Line's initial
      Path "" every row that gets past the columns counts as missing. */
  lemma AsWrittenEveryRowMissing(c: Configuration, a: Audit, text: string, files: map<string, seq<bv8>>,
                                 unwritable: set<string>)
    requires Valid(c)
    ensures var w := AuditRowAsWritten(c, a, text, files, unwritable);
      && w.state.path == a.path
      && (a.path == "" && w.fault.None? ==> w.state.missingCount == a.missingCount + 1)
  {
  }

  /** The row's path does not exist: the intended audit reports it. */
  predicate Missed(c: Configuration, files: map<string, seq<bv8>>, text: string)
    requires Valid(c)
  {
    var cols := Split(text, c.Delimiter);
    |cols| >= 3 && RowPath(c, cols).Ok? && !Present(files, RowPath(c, cols).value)
  }

  /** The row counts as failed: too few columns, or an ID that does not
      parse. */
  predicate Fails(c: Configuration, text: string)
  {
    var cols := Split(text, c.Delimiter);
    |cols| < 3 || !ParseInt(cols[0]).Parsed?
  }

  /** One row of the intended audit: lineCount grows by one; a row of fewer
      than three columns adds 1 to failed and changes nothing else; any
      other row takes InDir from column 1 and its ID from column 0, switches
      the report exactly when the bucket column changes, stores its in path
      in Path, and is counted in MissingCount and written to the current
      report exactly when that path does not exist. Only GetInPath can
      panic. */
  lemma AuditRowFacts(c: Configuration, a: Audit, text: string, files: map<string, seq<bv8>>, unwritable: set<string>)
    requires Valid(c)
    ensures var r := AuditRow(c, a, text, files, unwritable);
      var cols := Split(text, c.Delimiter);
      && r.state.lineCount == a.lineCount + 1 && r.state.line == text && r.state.columns == cols
      && r.state.failed == a.failed + (if Fails(c, text) then 1 else 0)
      && r.state.missingCount == a.missingCount + (if Missed(c, files, text) then 1 else 0)
      && (|cols| < 3 ==> r.fault.None? && r.state == Read(c, a, text).(failed := a.failed + 1))
      && (r.fault.Some? <==> |cols| >= 3 && RowPath(c, cols).Panic?)
      && (|cols| >= 3 ==>
            && r.state.inDir == cols[1]
            && r.state.id == ParseInt(cols[0]).Returned()
            && r.state.bucket == cols[2]
            && r.state.report == (if a.bucket != cols[2] then Reopen(unwritable, ReportFile(c, cols[2])) else a.report)
            && (RowPath(c, cols).Ok? ==> r.state.path == RowPath(c, cols).value)
            && r.state.reports == (if Missed(c, files, text) then Report(a.reports, r.state.report, r.state.path)
                                   else a.reports))
  {
    var cols := Split(text, c.Delimiter);
    if |cols| >= 3 {
      var a3 := Switch(c, Identify(Read(c, a, text), cols), cols[2], unwritable);
      PathOfRow(c, Read(c, a, text), cols, unwritable);
      ProbeFacts(c, a3, files);
    }
  }

  /** Probe changes only Path, MissingCount and the reports: a panic of
      GetInPath changes nothing, and otherwise Path is the in path, which is
      counted and reported exactly when it does not exist. */
  lemma ProbeFacts(c: Configuration, a: Audit, files: map<string, seq<bv8>>)
    requires Valid(c)
    ensures var r := Probe(c, a, files);
      var p := InPath(Settings(c, a), a.columns, a.id, Itoa(a.id));
      && (r.fault.Some? <==> p.Panic?)
      && (p.Panic? ==> r.state == a)
      && r.state.(path := a.path, missingCount := a.missingCount, reports := a.reports) == a
      && (p.Ok? ==>
            && r.state.path == p.value
            && r.state.missingCount == a.missingCount + (if Present(files, p.value) then 0 else 1)
            && r.state.reports == (if Present(files, p.value) then a.reports else Report(a.reports, a.report, p.value)))
  {
  }

  /** Two rows in a row with the same bucket write to the same report. */
  lemma SameBucketSameReport(c: Configuration, a: Audit, first: string, second: string,
                             files: map<string, seq<bv8>>, unwritable: set<string>)
    requires Valid(c)
    requires |Split(first, c.Delimiter)| >= 3 && |Split(second, c.Delimiter)| >= 3
    requires Split(first, c.Delimiter)[2] == Split(second, c.Delimiter)[2]
    requires AuditRow(c, a, first, files, unwritable).fault.None?
    ensures var q := AuditRow(c, a, first, files, unwritable).state;
      AuditRow(c, q, second, files, unwritable).state.report == q.report
  {
    AuditRowFacts(c, a, first, files, unwritable);
    AuditRowFacts(c, AuditRow(c, a, first, files, unwritable).state, second, files, unwritable);
  }

  /** The intended audit as the step of the loop. */
  function Auditor(c: Configuration, files: map<string, seq<bv8>>, unwritable: set<string>): (Audit, string) --> Run<Audit>
  {
    (a: Audit, text: string) requires Valid(c) => AuditRow(c, a, text, files, unwritable)
  }

  /** How many of the rows are missing. */
  function CountMissed(c: Configuration, files: map<string, seq<bv8>>, rows: seq<string>): nat
    requires Valid(c)
    decreases |rows|
  {
    if rows == [] then 0
    else CountMissed(c, files, rows[..|rows| - 1]) + (if Missed(c, files, rows[|rows| - 1]) then 1 else 0)
  }

  /** How many of the rows fail. */
  function CountFails(c: Configuration, rows: seq<string>): nat
    decreases |rows|
  {
    if rows == [] then 0
    else CountFails(c, rows[..|rows| - 1]) + (if Fails(c, rows[|rows| - 1]) then 1 else 0)
  }

  /** The audit before its first row: the Line is new, with no bucket and
      no report. */
  function Start(c: Configuration, lineCount: int, failed: int, reports: map<string, seq<string>>): Audit
  {
    Audit(c.InDir, c.MissingCount, "", [], 0, "", "", None, lineCount, failed, reports)
  }

  /** Over rows that all ran: lineCount grows by their number, failed by
      the rows that fail, and MissingCount by the rows that are missing, so
      MissingCount counts the missing paths seen. */
  lemma {:induction false} AuditCounts(c: Configuration, files: map<string, seq<bv8>>, unwritable: set<string>,
                                       r0: Run<Audit>, rows: seq<string>)
    requires Valid(c) && r0.fault.None?
    ensures var r := Rows(Auditor(c, files, unwritable), r0, rows);
      r.fault.None? ==>
        && r.state.lineCount == r0.state.lineCount + |rows|
        && r.state.failed == r0.state.failed + CountFails(c, rows)
        && r.state.missingCount == r0.state.missingCount + CountMissed(c, files, rows)
    decreases |rows|
  {
    if rows != [] {
      var prefix := rows[..|rows| - 1];
      AuditCounts(c, files, unwritable, r0, prefix);
      var r := Rows(Auditor(c, files, unwritable), r0, prefix);
      AuditRowFacts(c, r.state, rows[|rows| - 1], files, unwritable);
    }
  }

  /** missing.go's loop as written, as the step of the loop. */
  function AuditorAsWritten(c: Configuration, files: map<string, seq<bv8>>, unwritable: set<string>): (Audit, string) --> Run<Audit>
  {
    (a: Audit, text: string) requires Valid(c) => AuditRowAsWritten(c, a, text, files, unwritable)
  }

  /** The row has three or more columns. */
  predicate Wide(c: Configuration, text: string)
  {
    |Split(text, c.Delimiter)| >= 3
  }

  /** The row's ID column does not parse. */
  predicate BadID(c: Configuration, text: string)
  {
    var cols := Split(text, c.Delimiter);
    |cols| >= 1 && !ParseInt(cols[0]).Parsed?
  }

  /** How many of the rows have three or more columns. */
  function CountWide(c: Configuration, rows: seq<string>): nat
    decreases |rows|
  {
    if rows == [] then 0
    else CountWide(c, rows[..|rows| - 1]) + (if Wide(c, rows[|rows| - 1]) then 1 else 0)
  }

  /** How many of the rows have an ID that does not parse. */
  function CountBadIDs(c: Configuration, rows: seq<string>): nat
    decreases |rows|
  {
    if rows == [] then 0
    else CountBadIDs(c, rows[..|rows| - 1]) + (if BadID(c, rows[|rows| - 1]) then 1 else 0)
  }

  /** One row as written that did not panic: it had three or more columns,
      lineCount grew by one, failed by one for the column guard and one
      more for a bad ID, and Path did not change; from Path "" the row was
      counted as missing. */
  lemma AsWrittenRowCounts(c: Configuration, a: Audit, text: string, files: map<string, seq<bv8>>,
                           unwritable: set<string>)
    requires Valid(c)
    ensures var w := AuditRowAsWritten(c, a, text, files, unwritable);
      w.fault.None? ==>
        && Wide(c, text)
        && w.state.lineCount == a.lineCount + 1
        && w.state.failed == a.failed + 1 + (if BadID(c, text) then 1 else 0)
        && w.state.path == a.path
        && (a.path == "" ==> w.state.missingCount == a.missingCount + 1)
  {
  }

  /** missing.go as written, over rows that all ran: every row had three or
      more columns (a shorter one panics), lineCount grows by their number,
      failed by the rows of three or more columns plus the rows whose ID
      does not parse, Path never changes, and from the Line's initial Path
      "" MissingCount grows by every row. */
  lemma {:induction false} AsWrittenAuditCounts(c: Configuration, files: map<string, seq<bv8>>, unwritable: set<string>,
                                                r0: Run<Audit>, rows: seq<string>)
    requires Valid(c) && r0.fault.None?
    ensures var r := Rows(AuditorAsWritten(c, files, unwritable), r0, rows);
      r.fault.None? ==>
        && CountWide(c, rows) == |rows|
        && r.state.lineCount == r0.state.lineCount + |rows|
        && r.state.failed == r0.state.failed + CountWide(c, rows) + CountBadIDs(c, rows)
        && r.state.path == r0.state.path
        && (r0.state.path == "" ==> r.state.missingCount == r0.state.missingCount + |rows|)
    decreases |rows|
  {
    if rows != [] {
      var step := AuditorAsWritten(c, files, unwritable);
      var prefix, last := rows[..|rows| - 1], rows[|rows| - 1];
      var r := Rows(step, r0, prefix);
      if r.fault.None? {
        AsWrittenAuditCounts(c, files, unwritable, r0, prefix);
        assert Rows(step, r0, rows) == AuditRowAsWritten(c, r.state, last, files, unwritable);
        AsWrittenRowCounts(c, r.state, last, files, unwritable);
      } else {
        assert Rows(step, r0, rows) == r;
      }
    }
  }

  /** The audit's state as the Line, the previous bucket, the package
      counters and the disk hold it. */
  function Observe(l: Line, bucket: string, g: Globals, d: Disk): Audit
    reads l, g, d
  {
    Audit(l.cfg.InDir, l.cfg.MissingCount, l.line, l.columns, l.id, l.path, bucket, l.file, g.lineCount, g.failed, d.reports)
  }

  /** missing: a new Line for the whole audit, and every row of the audit
      file in order, until the rows run out or one panics. The audit copies
      nothing and writes only reports. */
  method MissingAudit(c: Configuration, lines: seq<string>, g: Globals, d: Disk)
    returns (l: Line, bucket: string, fault: Option<Fault>)
    requires Valid(c)
    modifies g`lineCount, g`failed, d`reports
    ensures fresh(l) && l.cfg == Settings(c, Observe(l, bucket, g, d))
    ensures Run(Observe(l, bucket, g, d), fault)
            == Rows(Auditor(c, d.files, d.unwritable), Run(Start(c, old(g.lineCount), old(g.failed), old(d.reports)), None), lines)
    ensures d.files == old(d.files) && d.dups == old(d.dups) && d.errors == old(d.errors) && d.index == old(d.index)
  {
    l := new Line(c);
    assert Observe(l, "", g, d) == Start(c, g.lineCount, g.failed, d.reports);
    bucket, fault := AuditRows(c, lines, l, "", g, d);
  }

  /** The loop of missing over the rows of the audit file, from a Line in
      any audit state. */
  method AuditRows(c: Configuration, lines: seq<string>, l: Line, bucket0: string, g: Globals, d: Disk)
    returns (bucket: string, fault: Option<Fault>)
    requires Valid(c) && l.cfg == Settings(c, Observe(l, bucket0, g, d))
    modifies l`cfg, l`line, l`columns, l`id, l`path, l`file, g`lineCount, g`failed, d`reports
    ensures l.cfg == Settings(c, Observe(l, bucket, g, d))
    ensures Run(Observe(l, bucket, g, d), fault) == Rows(Auditor(c, d.files, d.unwritable), Run(old(Observe(l, bucket0, g, d)), None), lines)
  {
    bucket := bucket0;
    ghost var start: Run<Audit> := Run(Observe(l, bucket, g, d), None);
    assert lines[0..0] == [];
    var next := 0;
    fault := None;
    while next < |lines| && fault.None?
      invariant next <= |lines|
      invariant l.cfg == Settings(c, Observe(l, bucket, g, d))
      invariant Run(Observe(l, bucket, g, d), fault) == Rows(Auditor(c, d.files, d.unwritable), start, lines[0..next])
      decreases |lines| - next
    {
      RowsNext(Auditor(c, d.files, d.unwritable), start, lines, 0, next);
      bucket, fault := AuditLine(c, lines[next], l, bucket, g, d);
      next := next + 1;
    }
    RowsRest(Auditor(c, d.files, d.unwritable), start, lines, 0, next);
    assert lines[0..] == lines;
  }

  /** The body of the loop for the row `text`, with the bug fixes of the
      intended audit. */
  method AuditLine(c: Configuration, text: string, l: Line, bucket: string, g: Globals, d: Disk)
    returns (next: string, fault: Option<Fault>)
    requires Valid(c) && l.cfg == Settings(c, Observe(l, bucket, g, d))
    modifies l`cfg, l`line, l`columns, l`id, l`path, l`file, g`lineCount, g`failed, d`reports
    ensures l.cfg == Settings(c, Observe(l, next, g, d))
    ensures Run(Observe(l, next, g, d), fault) == AuditRow(c, old(Observe(l, bucket, g, d)), text, d.files, d.unwritable)
  {
    ghost var a := Observe(l, bucket, g, d);
    g.lineCount := g.lineCount + 1;
    var cols := Split(text, l.cfg.Delimiter);
    l.line := text;
    l.columns := cols;
    next := bucket;
    assert Observe(l, next, g, d) == Read(c, a, text);
    if |cols| < 3 {
      g.failed := g.failed + 1;
      return next, None;
    }
    next, fault := ClassifyLine(c, l, bucket, g, d);
  }

  /** InDir, ID and the bucket switch of a row of three or more columns,
      then ProbeLine. */
  method ClassifyLine(c: Configuration, l: Line, bucket: string, g: Globals, d: Disk)
    returns (next: string, fault: Option<Fault>)
    requires Valid(c) && l.cfg == Settings(c, Observe(l, bucket, g, d)) && |l.columns| >= 3
    modifies l`cfg, l`id, l`path, l`file, g`failed, d`reports
    ensures l.cfg == Settings(c, Observe(l, next, g, d))
    ensures Run(Observe(l, next, g, d), fault) == Classify(c, old(Observe(l, bucket, g, d)), d.files, d.unwritable)
  {
    ghost var a := Observe(l, bucket, g, d);
    var cols := l.columns;
    l.cfg := l.cfg.(InDir := cols[1]);
    var parsed := ParseInt(cols[0]);
    l.id := parsed.Returned();
    if !parsed.Parsed? {
      g.failed := g.failed + 1;
    }
    next := bucket;
    assert Observe(l, next, g, d) == Identify(a, cols);
    if bucket != cols[2] {
      next := cols[2];
      l.file := Reopen(d.unwritable, JoinPath([l.cfg.OutDir, next + "_missing.txt"]));
    }
    assert Observe(l, next, g, d) == Switch(c, Identify(a, cols), cols[2], d.unwritable);
    fault := ProbeLine(c, l, next, g, d);
  }

  /** GetInPath, stored in Path, and calcMissing. */
  method ProbeLine(c: Configuration, l: Line, bucket: string, g: Globals, d: Disk) returns (fault: Option<Fault>)
    requires Valid(c) && l.cfg == Settings(c, Observe(l, bucket, g, d))
    modifies l`cfg, l`path, d`reports
    ensures l.cfg == Settings(c, Observe(l, bucket, g, d))
    ensures Run(Observe(l, bucket, g, d), fault) == Probe(c, old(Observe(l, bucket, g, d)), d.files)
  {
    var inPath := l.GetInPath();
    if inPath.Panic? {
      return Some(inPath.fault);
    }
    l.path := inPath.value;
    CalcMissing(l, d);
    fault := None;
  }

  /** calcMissing: a Path that does not exist is written to the current
      report and counted in MissingCount; an existing one changes nothing. */
  method CalcMissing(l: Line, d: Disk)
    modifies l`cfg, d`reports
    ensures Present(d.files, l.path) ==> l.cfg == old(l.cfg) && d.reports == old(d.reports)
    ensures !Present(d.files, l.path) ==>
      && l.cfg == old(l.cfg).(MissingCount := old(l.cfg.MissingCount) + 1)
      && d.reports == Report(old(d.reports), l.file, l.path)
  {
    if !Present(d.files, l.path) {
      d.WriteReport(l.file, l.path);
      l.cfg := l.cfg.(MissingCount := l.cfg.MissingCount + 1);
    }
  }
}
