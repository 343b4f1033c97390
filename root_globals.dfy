/** The package-level variables of the root package, which main.go
    declares and line.go, helper.go and missing.go update, and helper.go's
    copy, which counts into them. */
module RootGlobals {
  import opened Common
  import opened Files

  class Globals {
    var lineCount: int
    var successful: int
    var failed: int
    var duplicates: int
    var skipped: int
    var last: int                // main.go's last non-duplicate ID
    var outFlat: Option<string>  // the index file main.go's OutLineFile opened last

    /** The zero values Go gives package variables. */
    constructor ()
      ensures lineCount == 0 && successful == 0 && failed == 0 && duplicates == 0 && skipped == 0
      ensures last == 0 && outFlat == None
    {
      lineCount, successful, failed, duplicates, skipped, last := 0, 0, 0, 0, 0, 0;
      outFlat := None;
    }

    /** copy of helper.go (main.go:414-440 is the same code): a source that
        cannot be opened adds 1 to `failed` and is returned as an error; a
        destination that cannot be created panics; a copy adds 1 to
        `successful` and returns nil. */
    method Copy(src: string, dst: string, d: Disk) returns (r: Outcome<Option<string>>)
      modifies this`successful, this`failed, d`files
      ensures var t := Transfer(old(d.files), d.unwritable, src, dst);
        && (t.Panic? ==>
              r == Panic(t.fault) && successful == old(successful) && failed == old(failed) && d.files == old(d.files))
        && (t.Ok? && t.value.NoSource? ==>
              r == Ok(Some(t.value.message)) && failed == old(failed) + 1 && successful == old(successful)
              && d.files == old(d.files))
        && (t.Ok? && t.value.Copied? ==>
              r == Ok(None) && successful == old(successful) + 1 && failed == old(failed) && d.files == t.value.files)
    {
      var t := d.Copy(src, dst);
      match t
      case Panic(f) =>
        r := Panic(f);
      case Ok(NoSource(message)) =>
        failed := failed + 1;
        r := Ok(Some(message));
      case Ok(Copied(_)) =>
        successful := successful + 1;
        r := Ok(None);
    }
  }
}
