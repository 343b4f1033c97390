/** The main loop of processIn in both packages: the rows of the input file
    are fed to a step one after another in file order, and a Go panic in
    any of them ends the run. The fold is stated once for any state and any
    step. */
module Scan {
  import opened Common

  /** A run so far, and the fault that ended it, if any. */
  datatype Run<S> = Run(state: S, fault: Option<Fault>)

  /** The rows fed one after another from r0, stopping at the first panic. */
  function Rows<S(!new)>(step: (S, string) --> Run<S>, r0: Run<S>, rows: seq<string>): (r: Run<S>)
    requires forall s, x :: step.requires(s, x)
    ensures r0.fault.Some? ==> r == r0
    decreases |rows|
  {
    if rows == [] then r0
    else
      var r := Rows(step, r0, rows[..|rows| - 1]);
      if r.fault.Some? then r else step(r.state, rows[|rows| - 1])
  }

  /** A run that stopped stays stopped, whatever rows follow. */
  lemma {:induction false} RowsStop<S(!new)>(step: (S, string) --> Run<S>, r0: Run<S>, rows: seq<string>, more: seq<string>)
    requires forall s, x :: step.requires(s, x)
    requires Rows(step, r0, rows).fault.Some?
    ensures Rows(step, r0, rows + more) == Rows(step, r0, rows)
    decreases |more|
  {
    if more != [] {
      var all := rows + more;
      assert all[..|all| - 1] == rows + more[..|more| - 1];
      RowsStop(step, r0, rows, more[..|more| - 1]);
    } else {
      assert rows + more == rows;
    }
  }

  /** A run over lines[first..next] that has not stopped goes on with the
      next row. */
  lemma RowsNext<S(!new)>(step: (S, string) --> Run<S>, r0: Run<S>, lines: seq<string>, first: nat, next: nat)
    requires forall s, x :: step.requires(s, x)
    requires first <= next < |lines|
    requires Rows(step, r0, lines[first..next]).fault.None?
    ensures Rows(step, r0, lines[first..next + 1]) == step(Rows(step, r0, lines[first..next]).state, lines[next])
  {
    assert lines[first..next + 1][..next - first] == lines[first..next];
  }

  /** A run over lines[first..next] that stopped, or that took every row, is
      the run over all of lines[first..]. */
  lemma RowsRest<S(!new)>(step: (S, string) --> Run<S>, r0: Run<S>, lines: seq<string>, first: nat, next: nat)
    requires forall s, x :: step.requires(s, x)
    requires first <= next <= |lines|
    requires next < |lines| ==> Rows(step, r0, lines[first..next]).fault.Some?
    ensures Rows(step, r0, lines[first..]) == Rows(step, r0, lines[first..next])
  {
    if next < |lines| {
      RowsStop(step, r0, lines[first..next], lines[next..]);
      assert lines[first..next] + lines[next..] == lines[first..];
    } else {
      assert lines[first..next] == lines[first..];
    }
  }
}
