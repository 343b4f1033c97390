/** lib/configuration.go: processIn, which feeds the rows of the input file
    through one long-lived Line, and Process, which opens the outputs and
    runs either the missing audit or processIn. The input file is given as
    its sequence of lines. */
module LibConfiguration {
  import opened Common
  import opened Text
  import opened Config
  import opened Files
  import opened Pipeline
  import opened LibLine
  import opened Scan
  import opened RootGlobals
  import Missing

  /** What the single Line and the disk hold after some rows. */
  datatype Progress = Progress(line: string, columns: seq<string>, vars: Vars, lineCount: int, skipped: int, world: World)

  /** The run after the row-offset loop: the Line is fresh, and lineCount
      and skipped were incremented once per iteration. */
  function Start(c: Configuration, w: World): Run<Progress>
  {
    Run(Progress("", [], Vars(0, 0, "", 0, 0, 0), Offset(c), Offset(c), w), None)
  }

  /** One row of the main loop: it becomes Line, lineCount grows by one,
      Columns is its split on Delimiter, and ProcessLine runs on the Line's
      variables with Dir "" (processIn never sets it); a panic ends the run. */
  function Feed(c: Configuration, p: Progress, text: string, unwritable: set<string>): Run<Progress>
    requires Valid(c)
  {
    var cols := Split(text, c.Delimiter);
    var s := Step(c, cols, p.vars, "", p.world.files, unwritable);
    Run(Progress(text, cols, s.vars, p.lineCount + 1, p.skipped, Deliver(p.world, s, text)),
        if s.result.Panic? then Some(s.result.fault) else None)
  }

  /** Feed as the step of the main loop. */
  function Feeder(c: Configuration, unwritable: set<string>): (Progress, string) --> Run<Progress>
  {
    (p: Progress, text: string) requires Valid(c) => Feed(c, p, text, unwritable)
  }

  /** processIn on the lines of the input file, starting from the disk `w`. */
  function Processed(c: Configuration, lines: seq<string>, w: World, unwritable: set<string>): Run<Progress>
    requires Valid(c)
  {
    Rows(Feeder(c, unwritable), Start(c, w), lines[Consumed(c, lines)..])
  }

  /** The Line and the disk as a Progress. */
  function Observe(l: Line, d: Disk): Progress
    reads l, d
  {
    Progress(l.line, l.columns, l.Variables(), l.lineCount, l.skipped, d.Snapshot())
  }

  /** The three counters of a Progress. */
  function Tally(p: Progress): int
  {
    p.vars.successful + p.vars.failed + p.vars.duplicates
  }

  /** One row adds 1 to lineCount and at most 1 to the counters together,
      never decreases a counter, and adds one line to the duplicates file
      exactly when it adds one to `duplicates`. */
  lemma FeedCounts(c: Configuration, p: Progress, text: string, unwritable: set<string>)
    requires Valid(c)
    ensures var q := Feed(c, p, text, unwritable).state;
      && q.lineCount == p.lineCount + 1 && q.skipped == p.skipped
      && p.vars.successful <= q.vars.successful && p.vars.failed <= q.vars.failed
      && p.vars.duplicates <= q.vars.duplicates
      && Tally(q) <= Tally(p) + 1
      && |q.world.dups| - |p.world.dups| == q.vars.duplicates - p.vars.duplicates
  {
    var cols := Split(text, c.Delimiter);
    Counters(c, cols, p.vars, "", p.world.files, unwritable);
    DuplicateIff(c, cols, p.vars, "", p.world.files, unwritable);
  }

  /** Over any rows: lineCount grows by the number of rows fed (all of them
      unless one panics), skipped does not change, the counters grow by at
      most the number of rows fed, and the duplicates file grows by the
      number of duplicates. */
  lemma {:induction false} RowsCount(c: Configuration, r0: Run<Progress>, rows: seq<string>, unwritable: set<string>)
    requires Valid(c) && r0.fault.None?
    ensures var r := Rows(Feeder(c, unwritable), r0, rows);
      && r.state.skipped == r0.state.skipped
      && r0.state.lineCount <= r.state.lineCount <= r0.state.lineCount + |rows|
      && (r.fault.None? ==> r.state.lineCount == r0.state.lineCount + |rows|)
      && r0.state.vars.successful <= r.state.vars.successful
      && r0.state.vars.failed <= r.state.vars.failed
      && r0.state.vars.duplicates <= r.state.vars.duplicates
      && Tally(r.state) - Tally(r0.state) <= r.state.lineCount - r0.state.lineCount
      && |r.state.world.dups| - |r0.state.world.dups|
         == r.state.vars.duplicates - r0.state.vars.duplicates
    decreases |rows|
  {
    if rows != [] {
      var prefix := rows[..|rows| - 1];
      RowsCount(c, r0, prefix, unwritable);
      var r := Rows(Feeder(c, unwritable), r0, prefix);
      if r.fault.None? {
        FeedCounts(c, r.state, rows[|rows| - 1], unwritable);
      }
    }
  }

  /** After processIn: every skipped row is counted as read, every row fed
      adds 1 to lineCount, all rows of the file are fed unless one panics,
      each fed row adds to at most one of successful, failed and duplicates,
      and the duplicates file holds one line per duplicate. */
  lemma ProcessedCounts(c: Configuration, lines: seq<string>, w: World, unwritable: set<string>)
    requires Valid(c)
    ensures var r := Processed(c, lines, w, unwritable);
      && r.state.skipped == Offset(c)
      && Offset(c) <= r.state.lineCount <= Offset(c) + |lines| - Consumed(c, lines)
      && (r.fault.None? ==> r.state.lineCount == Offset(c) + |lines| - Consumed(c, lines))
      && r.state.vars.successful >= 0 && r.state.vars.failed >= 0 && r.state.vars.duplicates >= 0
      && Tally(r.state) <= r.state.lineCount - r.state.skipped
      && |r.state.world.dups| == |w.dups| + r.state.vars.duplicates
  {
    RowsCount(c, Start(c, w), lines[Consumed(c, lines)..], unwritable);
  }

  /** The Line outlives its rows, so a row right after a row with the same
      parsed ID is a duplicate, whatever became of the first row. */
  lemma AdjacentRepeat(c: Configuration, p: Progress, first: string, second: string, unwritable: set<string>)
    requires Valid(c)
    requires HasID(c, Split(first, c.Delimiter)) && RowID(c, Split(first, c.Delimiter)).Parsed?
    requires Feed(c, p, first, unwritable).fault.None?
    requires HasID(c, Split(second, c.Delimiter))
    requires RowID(c, Split(second, c.Delimiter)) == RowID(c, Split(first, c.Delimiter))
    ensures var q := Feed(c, p, first, unwritable).state;
      var r := Feed(c, q, second, unwritable).state;
      && r.vars.duplicates == q.vars.duplicates + 1
      && r.world.dups == q.world.dups + [second]
  {
    var q := Feed(c, p, first, unwritable).state;
    IDRules(c, Split(first, c.Delimiter), p.vars, "", p.world.files, unwritable);
    DuplicateIff(c, Split(second, c.Delimiter), q.vars, "", q.world.files, unwritable);
  }

  /** Only adjacent repeats are caught: after a row whose ID parses to `a`,
      a row whose ID parses to anything else is not a duplicate. */
  lemma OnlyAdjacentRepeats(c: Configuration, p: Progress, first: string, second: string, unwritable: set<string>)
    requires Valid(c)
    requires HasID(c, Split(first, c.Delimiter)) && RowID(c, Split(first, c.Delimiter)).Parsed?
    requires Feed(c, p, first, unwritable).fault.None?
    requires HasID(c, Split(second, c.Delimiter)) && RowID(c, Split(second, c.Delimiter)).Parsed?
    requires RowID(c, Split(second, c.Delimiter)) != RowID(c, Split(first, c.Delimiter))
    ensures var q := Feed(c, p, first, unwritable).state;
      var r := Feed(c, q, second, unwritable).state;
      && r.vars.duplicates == q.vars.duplicates
      && r.world.dups == q.world.dups
  {
    var q := Feed(c, p, first, unwritable).state;
    IDRules(c, Split(first, c.Delimiter), p.vars, "", p.world.files, unwritable);
    DuplicateIff(c, Split(second, c.Delimiter), q.vars, "", q.world.files, unwritable);
  }

  /** processIn: the offset loop, then one Line for all remaining rows.
      The Line it returns is the one the run ends with; `lastOut` is the
      last output ID it logs. */
  method ProcessIn(c: Configuration, lines: seq<string>, d: Disk) returns (l: Line, fault: Option<Fault>, lastOut: int)
    requires Valid(c)
    modifies d`files, d`dups, d`errors, d`index
    ensures fresh(l) && l.cfg == c
    ensures Run(Observe(l, d), fault) == Processed(c, lines, old(d.Snapshot()), d.unwritable)
    ensures lastOut == l.successful + c.OutFileRenameIntOffset - 1
  {
    l := new Line(c);
    var next := SkipOffset(c, lines, l);
    assert Run(Observe(l, d), None) == Start(c, d.Snapshot());
    fault := FeedRows(c, lines, next, l, d);
    lastOut := l.successful + c.OutFileRenameIntOffset - 1;
  }

  /** The row-offset loop: runs OutLinesRowOffset times, consuming a row
      when there is one and counting it as read and skipped either way. */
  method SkipOffset(c: Configuration, lines: seq<string>, l: Line) returns (next: nat)
    requires l.lineCount == 0 && l.skipped == 0
    modifies l`lineCount, l`skipped
    ensures next == Consumed(c, lines)
    ensures l.lineCount == l.skipped == Offset(c)
  {
    next := 0;  // the scanner's position
    var i := c.OutLinesRowOffset;
    while i > 0
      invariant Max(i, 0) <= Offset(c)
      invariant l.lineCount == l.skipped == Offset(c) - Max(i, 0)
      invariant next == Min(l.lineCount, |lines|)
    {
      if next < |lines| {
        next := next + 1;
      }
      l.lineCount := l.lineCount + 1;
      l.skipped := l.skipped + 1;
      i := i - 1;
    }
  }

  /** A run of the main loop that has not stopped goes on with Feed of the
      next row. */
  lemma FeedNext(c: Configuration, unwritable: set<string>, start: Run<Progress>, lines: seq<string>, first: nat, next: nat,
                 before: Progress, after: Run<Progress>)
    requires Valid(c) && first <= next < |lines|
    requires Rows(Feeder(c, unwritable), start, lines[first..next]) == Run(before, None)
    requires after == Feed(c, before, lines[next], unwritable)
    ensures Rows(Feeder(c, unwritable), start, lines[first..next + 1]) == after
  {
    RowsNext(Feeder(c, unwritable), start, lines, first, next);
  }

  /** The main loop over the rows from `first` on, until the rows run out
      or a row panics. */
  method FeedRows(c: Configuration, lines: seq<string>, first: nat, l: Line, d: Disk) returns (fault: Option<Fault>)
    requires Valid(c) && first <= |lines|
    requires l.cfg == c && l.dir == ""
    modifies l`line, l`columns, l`lineCount, l`id, l`lastID, l`path, l`successful, l`failed, l`duplicates
    modifies d`files, d`dups, d`errors, d`index
    ensures Run(Observe(l, d), fault) == Rows(Feeder(c, d.unwritable), Run(old(Observe(l, d)), None), lines[first..])
  {
    ghost var start := Run(Observe(l, d), None);
    assert lines[first..first] == [];
    var next := first;
    fault := None;
    while next < |lines| && fault.None?
      invariant first <= next <= |lines| && l.dir == ""
      invariant Run(Observe(l, d), fault) == Rows(Feeder(c, d.unwritable), start, lines[first..next])
      decreases |lines| - next
    {
      fault := FeedNextRow(c, lines, first, next, start, l, d);
      next := next + 1;
    }
    RowsRest(Feeder(c, d.unwritable), start, lines, first, next);
  }

  /** One turn of the main loop: the row at `next` is fed to the Line. */
  method FeedNextRow(c: Configuration, lines: seq<string>, first: nat, next: nat, ghost start: Run<Progress>, l: Line, d: Disk)
    returns (fault: Option<Fault>)
    requires Valid(c) && first <= next < |lines|
    requires l.cfg == c && l.dir == ""
    requires Run(Observe(l, d), None) == Rows(Feeder(c, d.unwritable), start, lines[first..next])
    modifies l`line, l`columns, l`lineCount, l`id, l`lastID, l`path, l`successful, l`failed, l`duplicates
    modifies d`files, d`dups, d`errors, d`index
    ensures Run(Observe(l, d), fault) == Rows(Feeder(c, d.unwritable), start, lines[first..next + 1])
  {
    ghost var before := Observe(l, d);
    fault := FeedRow(c, lines[next], l, d);
    FeedNext(c, d.unwritable, start, lines, first, next, before, Run(Observe(l, d), fault));
  }

  /** The body of the main loop for the row `text`. */
  method FeedRow(c: Configuration, text: string, l: Line, d: Disk) returns (fault: Option<Fault>)
    requires Valid(c) && l.cfg == c && l.dir == ""
    modifies l`line, l`columns, l`lineCount, l`id, l`lastID, l`path, l`successful, l`failed, l`duplicates
    modifies d`files, d`dups, d`errors, d`index
    ensures Run(Observe(l, d), fault) == Feed(c, old(Observe(l, d)), text, d.unwritable)
  {
    l.line := text;
    l.lineCount := l.lineCount + 1;
    l.columns := Split(l.line, c.Delimiter);
    var r := l.ProcessLine(d);
    fault := if r.Panic? then Some(r.fault) else None;
  }

  /** Process: Mkdir of OutDir and the duplicates and error files, then
      exactly one mode: the missing audit over the rows of the audit file
      when Missing is set, processIn over the rows of the input file
      otherwise. lib has no audit of its own; the one called here is
      missing.go's, with fresh counters. */
  method Process(c: Configuration, flat: seq<string>, audit: seq<string>, d: Disk) returns (fault: Option<Fault>)
    requires Valid(c)
    modifies d`files, d`dups, d`errors, d`index, d`reports
    ensures Opening(c, d.unwritable).Some? ==> fault == Opening(c, d.unwritable) && d.Snapshot() == old(d.Snapshot())
    ensures Opening(c, d.unwritable).None? && !c.Missing ==>
      && fault == Processed(c, flat, old(d.Snapshot()), d.unwritable).fault
      && d.Snapshot() == Processed(c, flat, old(d.Snapshot()), d.unwritable).state.world
    ensures Opening(c, d.unwritable).None? && c.Missing ==>
      var r := Rows(Missing.Auditor(c, d.files, d.unwritable), Run(Missing.Start(c, 0, 0, old(d.reports)), None), audit);
      && fault == r.fault && d.reports == r.state.reports
      && d.files == old(d.files) && d.dups == old(d.dups) && d.errors == old(d.errors) && d.index == old(d.index)
  {
    fault := Opening(c, d.unwritable);
    if fault.Some? {
      return;
    }
    if c.Missing {
      var g := new Globals();
      var _, _, f := Missing.MissingAudit(c, audit, g, d);
      fault := f;
    } else {
      var _, f, _ := ProcessIn(c, flat, d);
      fault := f;
    }
  }
}
