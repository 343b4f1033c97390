/** The filesystem and output sinks the core touches, kept abstract: regular
    files as a map from path to contents, a set of paths where creating a
    directory or a file fails, and the lines appended to the duplicates file,
    the error file, the per-batch index files and the missing reports. */
module Files {
  import opened Common

  /** os.Open and os.Stat find a file: the empty path never names one. */
  predicate Present(files: map<string, seq<bv8>>, p: string)
  {
    p != "" && p in files
  }

  /** lib/helper.go MkdirAll and Mkdir: creating a directory that is not
      there; failure panics. Existing directories are not modelled. */
  function MakeDir(unwritable: set<string>, dir: string): (r: Option<Fault>)
    ensures r.Some? <==> dir in unwritable
    ensures r.Some? ==> r.value == MkdirFailed(dir)
  {
    if dir in unwritable then Some(MkdirFailed(dir)) else None
  }

  /** os.OpenFile of an append-only output file; failure is log.Fatal. */
  function OpenSink(unwritable: set<string>, path: string): (r: Option<Fault>)
    ensures r.Some? <==> path in unwritable
    ensures r.Some? ==> r.value == OpenFailed(path)
  {
    if path in unwritable then Some(OpenFailed(path)) else None
  }

  /** The filesystem side of copy. */
  datatype CopyResult = Copied(files: map<string, seq<bv8>>) | NoSource(message: string)

  /** copy (lib/line.go:292-318, helper.go:14-40, main.go:414-440) on the
      filesystem: a source that cannot be opened is an error naming it; a
      destination that cannot be created panics; otherwise the destination
      is created (truncated) and receives the source's bytes, so copying a
      file onto itself leaves it empty. */
  function Transfer(files: map<string, seq<bv8>>, unwritable: set<string>, src: string, dst: string): (r: Outcome<CopyResult>)
    ensures (r.Ok? && r.value.NoSource?) <==> !Present(files, src)
    ensures r.Panic? <==> Present(files, src) && dst in unwritable
    ensures r.Panic? ==> r.fault == CreateFailed(dst)
    ensures r.Ok? && r.value.NoSource? ==> r.value.message == "File does not exist. " + src
  {
    if !Present(files, src) then Ok(NoSource("File does not exist. " + src))
    else if dst in unwritable then Panic(CreateFailed(dst))
    else Ok(Copied(files[dst := if src == dst then [] else files[src]]))
  }

  /** After a copy the destination holds the source's old contents and no
      other file changed. */
  lemma TransferContents(files: map<string, seq<bv8>>, unwritable: set<string>, src: string, dst: string)
    requires Transfer(files, unwritable, src, dst).Ok? && Transfer(files, unwritable, src, dst).value.Copied?
    ensures var after := Transfer(files, unwritable, src, dst).value.files;
      && dst in after
      && (src != dst ==> after[dst] == files[src])
      && (src == dst ==> after[dst] == [])
      && forall p :: p != dst ==> (p in after <==> p in files) && (p in files ==> after[p] == files[p])
  {
  }

  /** A map of append-only text files: `line` appended to `key`. */
  function Append(m: map<string, seq<string>>, key: string, line: string): (r: map<string, seq<string>>)
    ensures key in r && r[key] == (if key in m then m[key] else []) + [line]
    ensures forall k :: k != key ==> (k in r <==> k in m) && (k in m ==> r[k] == m[k])
  {
    m[key := (if key in m then m[key] else []) + [line]]
  }

  /** Everything the core can change on disk, as one value. */
  datatype World = World(
    files: map<string, seq<bv8>>,
    dups: seq<string>,
    errors: seq<string>,
    index: map<string, seq<string>>,
    reports: map<string, seq<string>>)

  class Disk {
    var files: map<string, seq<bv8>>
    const unwritable: set<string>
    var dups: seq<string>
    var errors: seq<string>
    var index: map<string, seq<string>>
    var reports: map<string, seq<string>>

    constructor (files: map<string, seq<bv8>>, unwritable: set<string>)
      ensures this.files == files && this.unwritable == unwritable
      ensures dups == [] && errors == [] && index == map[] && reports == map[]
    {
      this.files := files;
      this.unwritable := unwritable;
      dups := [];
      errors := [];
      index := map[];
      reports := map[];
    }

    function Snapshot(): World
      reads this
    {
      World(files, dups, errors, index, reports)
    }

    /** The file part of copy: os.Open, os.Create and io.Copy. */
    method Copy(src: string, dst: string) returns (r: Outcome<CopyResult>)
      modifies this`files
      ensures r == Transfer(old(files), unwritable, src, dst)
      ensures files == if r.Ok? && r.value.Copied? then r.value.files else old(files)
    {
      if !Present(files, src) {
        return Ok(NoSource("File does not exist. " + src));
      }
      if dst in unwritable {
        return Panic(CreateFailed(dst));
      }
      var contents := if src == dst then [] else files[src];
      files := files[dst := contents];
      r := Ok(Copied(files));
    }

    /** writeLine on outDups. */
    method WriteDup(s: string)
      modifies this`dups
      ensures dups == old(dups) + [s]
    {
      dups := dups + [s];
    }

    /** writeLine on errorLines. */
    method WriteError(s: string)
      modifies this`errors
      ensures errors == old(errors) + [s]
    {
      errors := errors + [s];
    }

    /** writeLine on the index file `file`. */
    method WriteIndex(file: string, s: string)
      modifies this`index
      ensures index == Append(old(index), file, s)
    {
      index := Append(index, file, s);
    }

    /** writeLine on a missing report; writing to a nil *os.File (no report
        opened yet, or OpenFile failed) fails silently. */
    method WriteReport(file: Option<string>, s: string)
      modifies this`reports
      ensures reports == if file.Some? then Append(old(reports), file.value, s) else old(reports)
    {
      if file.Some? {
        reports := Append(reports, file.value, s);
      }
    }
  }
}
