/** GenLineFromColumns: the index line built from a comma-separated list of
    column numbers (OutLinesColumns), joined by Delimiter with the source's
    fencepost, which only inserts a delimiter once the line is non-empty. */
module Columns {
  import opened Common
  import opened Text

  /** The projected line, or the first entry of the list that is not an
      integer (the error strconv.Atoi returns). */
  datatype Projection = Projected(text: string) | BadEntry(entry: string)

  /** Adding one selected column to the line built so far. */
  function Fencepost(line: string, delim: string, v: string): string
  {
    if line == "" then line + v else line + delim + v
  }

  /** What the loop over `entries` produces when it starts with `line`. */
  function ProjectFrom(entries: seq<string>, cols: seq<string>, delim: string, line: string): Outcome<Projection>
    decreases |entries|
  {
    if entries == [] then Ok(Projected(line))
    else
      var p := ParseInt(entries[0]);
      if !p.Parsed? then Ok(BadEntry(entries[0]))
      else match Column(cols, p.value)
        case Panic(f) => Panic(f)
        case Ok(v) => ProjectFrom(entries[1..], cols, delim, Fencepost(line, delim, v))
  }

  /** GenLineFromColumns on a row `cols` with column list `spec`. */
  function Project(spec: string, cols: seq<string>, delim: string): Outcome<Projection>
  {
    ProjectFrom(Split(spec, ","), cols, delim, "")
  }

  /** The loop of GenLineFromColumns (lib/line.go:236-257; line.go:206-227;
      main.go:375-396): every entry is parsed and its column appended, the
      first non-integer entry ends it with an error and a column number out
      of range panics. */
  method Generate(spec: string, cols: seq<string>, delim: string) returns (r: Outcome<Projection>)
    ensures r == Project(spec, cols, delim)
  {
    var entries := Split(spec, ",");
    var line := "";
    var k := 0;
    while k < |entries|
      invariant 0 <= k <= |entries|
      invariant ProjectFrom(entries[k..], cols, delim, line) == Project(spec, cols, delim)
    {
      assert entries[k..][1..] == entries[k + 1..];
      var p := ParseInt(entries[k]);
      if !p.Parsed? {
        return Ok(BadEntry(entries[k]));
      }
      var i := p.value;
      if !(0 <= i < |cols|) {
        return Panic(ColumnOutOfRange(i, |cols|));
      }
      if line == "" {
        line := line + cols[i];
      } else {
        line := line + delim + cols[i];
      }
      k := k + 1;
    }
    return Ok(Projected(line));
  }

  // ---------------------------------------------------------------------
  // An independent description of the result

  /** Every entry is an integer naming a column of the row. */
  predicate Selects(entries: seq<string>, cols: seq<string>)
  {
    forall k :: 0 <= k < |entries| ==> ParseInt(entries[k]).Parsed? && 0 <= ParseInt(entries[k]).value < |cols|
  }

  /** The columns the entries name, in the listed order. */
  function Pick(entries: seq<string>, cols: seq<string>): (vs: seq<string>)
    requires Selects(entries, cols)
    ensures |vs| == |entries|
  {
    seq(|entries|, k requires 0 <= k < |entries| && Selects(entries, cols) => cols[ParseInt(entries[k]).value])
  }

  function DropLeadingEmpty(vs: seq<string>): seq<string>
  {
    if vs == [] then [] else if vs[0] == "" then DropLeadingEmpty(vs[1..]) else vs
  }

  lemma JoinCons(a: string, vs: seq<string>, delim: string)
    ensures Join([a] + vs, delim) == if vs == [] then a else a + delim + Join(vs, delim)
  {
    assert ([a] + vs)[1..] == vs;
  }

  lemma JoinShift(line: string, delim: string, v: string, rest: seq<string>)
    ensures Join([line + delim + v] + rest, delim) == Join([line] + ([v] + rest), delim)
  {
    JoinCons(line + delim + v, rest, delim);
    JoinCons(v, rest, delim);
    JoinCons(line, [v] + rest, delim);
  }

  lemma PickTail(entries: seq<string>, cols: seq<string>)
    requires Selects(entries, cols) && entries != []
    ensures Selects(entries[1..], cols)
    ensures Pick(entries, cols) == [cols[ParseInt(entries[0]).value]] + Pick(entries[1..], cols)
  {
    assert forall k :: 0 <= k < |entries| - 1 ==> entries[1..][k] == entries[k + 1];
  }

  lemma ProjectStep(entries: seq<string>, cols: seq<string>, delim: string, line: string)
    requires Selects(entries, cols) && entries != []
    ensures ProjectFrom(entries, cols, delim, line)
         == ProjectFrom(entries[1..], cols, delim, Fencepost(line, delim, cols[ParseInt(entries[0]).value]))
  {
  }

  /** Once the line is non-empty every further column is preceded by the
      delimiter. */
  lemma {:induction false} ProjectAfter(entries: seq<string>, cols: seq<string>, delim: string, line: string)
    requires Selects(entries, cols) && line != ""
    ensures ProjectFrom(entries, cols, delim, line) == Ok(Projected(Join([line] + Pick(entries, cols), delim)))
    decreases |entries|
  {
    if entries == [] {
      assert [line] + Pick(entries, cols) == [line];
    } else {
      PickTail(entries, cols);
      var v := cols[ParseInt(entries[0]).value];
      var rest := Pick(entries[1..], cols);
      ProjectStep(entries, cols, delim, line);
      assert Fencepost(line, delim, v) == line + delim + v;
      ProjectAfter(entries[1..], cols, delim, line + delim + v);
      JoinShift(line, delim, v, rest);
      assert [line] + Pick(entries, cols) == [line] + ([v] + rest);
    }
  }

  /** When every entry names a column, the line is the selected columns
      joined by Delimiter, except that leading empty columns vanish without
      leaving a delimiter behind. */
  lemma {:induction false} ProjectionJoins(entries: seq<string>, cols: seq<string>, delim: string)
    requires Selects(entries, cols)
    ensures ProjectFrom(entries, cols, delim, "") == Ok(Projected(Join(DropLeadingEmpty(Pick(entries, cols)), delim)))
    decreases |entries|
  {
    if entries != [] {
      PickTail(entries, cols);
      var v := cols[ParseInt(entries[0]).value];
      var rest := Pick(entries[1..], cols);
      assert ([v] + rest)[1..] == rest;
      ProjectStep(entries, cols, delim, "");
      if v == "" {
        assert Fencepost("", delim, v) == "";
        assert DropLeadingEmpty(Pick(entries, cols)) == DropLeadingEmpty(rest);
        ProjectionJoins(entries[1..], cols, delim);
      } else {
        assert Fencepost("", delim, v) == v;
        assert DropLeadingEmpty(Pick(entries, cols)) == [v] + rest;
        ProjectAfter(entries[1..], cols, delim, v);
      }
    }
  }

  /** The first entry that is not an integer ends the projection with an
      error, provided every entry before it names a column. */
  lemma {:induction false} ProjectionStopsAtBadEntry(entries: seq<string>, cols: seq<string>, delim: string, line: string, k: nat)
    requires k < |entries| && Selects(entries[..k], cols) && !ParseInt(entries[k]).Parsed?
    ensures ProjectFrom(entries, cols, delim, line) == Ok(BadEntry(entries[k]))
    decreases k
  {
    if k > 0 {
      assert entries[..k][0] == entries[0];
      assert ParseInt(entries[0]).Parsed? && 0 <= ParseInt(entries[0]).value < |cols|;
      var v := cols[ParseInt(entries[0]).value];
      assert entries[1..][..k - 1] == entries[..k][1..];
      assert Selects(entries[1..][..k - 1], cols);
      ProjectionStopsAtBadEntry(entries[1..], cols, delim, Fencepost(line, delim, v), k - 1);
    }
  }

  /** An empty column list is one empty entry, which is not an integer: the
      projection then always fails. */
  lemma EmptyColumnList(cols: seq<string>, delim: string)
    ensures Project("", cols, delim) == Ok(BadEntry(""))
  {
    assert "," != [];
    assert |""| < |","|;
    assert "" + "" == "";
    assert SplitFrom("", ",", "") == [""];
  }
}
