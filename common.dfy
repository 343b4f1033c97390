/** Small wrappers shared by every part of the model: an optional value and
    the outcome of a step that may end the whole process with a Go panic. */
module Common {

  datatype Option<T> = None | Some(value: T)

  /** What brings the process down. A Go panic (or log.Fatal) is not recovered
      anywhere in the program, so every fault ends the run. */
  datatype Fault =
    | ColumnOutOfRange(index: int, length: nat)  // a slice index outside the columns of a row
    | MkdirFailed(dir: string)                  // os.MkdirAll / os.Mkdir refused the directory
    | CreateFailed(path: string)                // os.Create or io.Copy failed on the destination
    | OpenFailed(path: string)                  // os.OpenFile of an output sink failed: log.Fatal
    | DivideByZero                              // integer division by OutAutoBatchCount == 0

  /** The result of an operation that either returns normally or panics. */
  datatype Outcome<T> = Ok(value: T) | Panic(fault: Fault)

  /** `cols[i]` in Go: the element, or the index-out-of-range panic. */
  function Column(cols: seq<string>, i: int): (r: Outcome<string>)
    ensures r.Ok? <==> 0 <= i < |cols|
    ensures r.Ok? ==> r.value == cols[i]
    ensures r.Panic? ==> r.fault == ColumnOutOfRange(i, |cols|)
  {
    if 0 <= i < |cols| then Ok(cols[i]) else Panic(ColumnOutOfRange(i, |cols|))
  }

  function Max(a: int, b: int): int { if a < b then b else a }
  function Min(a: int, b: int): int { if a < b then a else b }
}
