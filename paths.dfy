/** Names and paths a Line derives from its configuration, its row and an
    object ID: batch names, source file names, the in path, the out location
    and the index file. The three Line variants (lib/line.go, line.go,
    main.go) share these rules; where they differ, each variant picks the
    rule it uses. */
module Paths {
  import opened Common
  import opened Text
  import opened Bucket
  import opened Config

  // ---------------------------------------------------------------------
  // GetBatch

  /** GetBatch: no batch when batching is off, otherwise OutAutoBatchName
      followed by the zero-padded block number ID / OutAutoBatchCount; a
      count of 0 is an integer division by zero. */
  function Batch(c: Configuration, id: int): (r: Outcome<string>)
    ensures !c.OutAutoBatch <==> r == Ok("")
    ensures r.Panic? <==> c.OutAutoBatch && c.OutAutoBatchCount == 0
    ensures r.Panic? ==> r.fault == DivideByZero
  {
    if !c.OutAutoBatch then Ok("")
    else if c.OutAutoBatchCount == 0 then Panic(DivideByZero)
    else Ok(c.OutAutoBatchName + ZeroPad(Quot(id, c.OutAutoBatchCount), c.OutAutoBatchZeroPad))
  }

  lemma ZeroPadNonEmpty(n: int, width: int)
    ensures |ZeroPad(n, width)| >= 1
  {
  }

  /** A batch name is the batch prefix followed by a rendering of the block
      number that is at least OutAutoBatchZeroPad characters wide and reads
      back as the block number. */
  lemma BatchNumber(c: Configuration, id: int)
    requires c.OutAutoBatch && c.OutAutoBatchCount != 0 && c.OutAutoBatchZeroPad >= 0
    requires MinInt64 <= Quot(id, c.OutAutoBatchCount) <= MaxInt64
    ensures Batch(c, id).Ok?
    ensures HasPrefix(Batch(c, id).value, c.OutAutoBatchName)
    ensures var digits := Batch(c, id).value[|c.OutAutoBatchName|..];
      |digits| >= c.OutAutoBatchZeroPad && ParseInt(digits) == Parsed(Quot(id, c.OutAutoBatchCount))
  {
    var q := Quot(id, c.OutAutoBatchCount);
    var z := ZeroPad(q, c.OutAutoBatchZeroPad);
    var b := c.OutAutoBatchName + z;
    assert b[..|c.OutAutoBatchName|] == c.OutAutoBatchName;
    assert b[|c.OutAutoBatchName|..] == z;
    ZeroPadParses(q, c.OutAutoBatchZeroPad);
    if q >= 0 {
      ZeroPadReadsBack(q, c.OutAutoBatchZeroPad);
    } else {
      var w: nat := if c.OutAutoBatchZeroPad == 0 then 0 else c.OutAutoBatchZeroPad - 1;
      ZeroPadReadsBack(-q, w);
    }
  }

  lemma DivBound(a: int, n: int)
    requires a >= 0 && n > 0
    ensures 0 <= a / n <= a
  {
    MulNonNegative(a / n, n - 1);
    assert a / n * n == a / n + a / n * (n - 1);
  }

  /** Two non-negative IDs get the same batch exactly when they fall in the
      same block of OutAutoBatchCount IDs. */
  lemma BatchBlocks(c: Configuration, a: int, b: int)
    requires c.OutAutoBatch && c.OutAutoBatchCount > 0 && c.OutAutoBatchZeroPad >= 0
    requires 0 <= a <= MaxInt64 && 0 <= b <= MaxInt64
    ensures Batch(c, a) == Batch(c, b) <==> a / c.OutAutoBatchCount == b / c.OutAutoBatchCount
  {
    var n := c.OutAutoBatchCount;
    QuotRemNonNegative(a, n);
    QuotRemNonNegative(b, n);
    DivBound(a, n);
    DivBound(b, n);
    if Batch(c, a) == Batch(c, b) {
      BatchNumber(c, a);
      BatchNumber(c, b);
      var k := |c.OutAutoBatchName|;
      assert Batch(c, a).value[k..] == Batch(c, b).value[k..];
      assert Parsed(Quot(a, n)) == Parsed(Quot(b, n));
    }
  }

  // ---------------------------------------------------------------------
  // Source file names

  /** The source file name of lib/line.go: the decimal ID up to 99,999,999,
      above that "A" followed by the ID in upper-case hexadecimal. */
  function LibFileName(id: int): (name: string)
    ensures 1 <= |name|
  {
    if id > 99999999 then "A" + UpperHex(id) else Itoa(id)
  }

  /** Each naming regime can be read back: a decimal name parses as the ID,
      a hexadecimal name is "A" and the ID in hexadecimal. */
  lemma LibFileNameReadsBack(id: int)
    requires MinInt64 <= id <= MaxInt64
    ensures id <= 99999999 ==> ParseInt(LibFileName(id)) == Parsed(id)
    ensures id > 99999999 ==> LibFileName(id)[0] == 'A' && HexValue(LibFileName(id)[1..]) == Some(id)
  {
    if id <= 99999999 {
      ParseItoa(id);
    } else {
      assert LibFileName(id)[1..] == UpperHex(id);
      HexRoundTrip(id);
    }
  }

  lemma ItoaHead(n: int)
    ensures |Itoa(n)| >= 1 && (Itoa(n)[0] == '-' || IsDigit(Itoa(n)[0]))
  {
  }

  /** Different int64 IDs never share a source file name, across the switch
      from decimal to hexadecimal names as well. */
  lemma LibFileNameInjective(a: int, b: int)
    requires MinInt64 <= a <= MaxInt64 && MinInt64 <= b <= MaxInt64
    ensures LibFileName(a) == LibFileName(b) <==> a == b
  {
    LibFileNameReadsBack(a);
    LibFileNameReadsBack(b);
    if a <= 99999999 && b > 99999999 {
      ItoaHead(a);
    } else if a > 99999999 && b <= 99999999 {
      ItoaHead(b);
    }
  }

  // ---------------------------------------------------------------------
  // GetInPath and GetOutPath

  /** A setting that, when left blank, is taken from a column of the row. */
  function Setting(fixed: string, cols: seq<string>, i: int): (r: Outcome<string>)
    ensures fixed != "" ==> r == Ok(fixed)
    ensures fixed == "" ==> r == Column(cols, i)
  {
    if fixed != "" then Ok(fixed) else Column(cols, i)
  }

  /** GetInPath with a given source file name: the extension (InFileExt or
      the FileExtIn column) is looked up first, then the parent directory
      (InDir or the FileName column); the path is the parent, the bucket
      path and the name joined, followed by the extension. */
  function InPath(c: Configuration, cols: seq<string>, id: int, name: string): (r: Outcome<string>)
    requires Valid(c)
    ensures r.Panic? <==> ((c.InFileExt == "" && !(0 <= c.ColFileExtIn < |cols|))
                           || (c.InDir == "" && !(0 <= c.ColFileName < |cols|)))
    ensures r.Panic? && c.InFileExt == "" && !(0 <= c.ColFileExtIn < |cols|) ==>
      r.fault == ColumnOutOfRange(c.ColFileExtIn, |cols|)
    ensures r.Ok? ==> (r.value ==
      JoinPath([if c.InDir != "" then c.InDir else cols[c.ColFileName],
                BucketPath(id, c.DirDepth, c.FolderSize),
                name])
      + (if c.InFileExt != "" then c.InFileExt else cols[c.ColFileExtIn]))
  {
    match Setting(c.InFileExt, cols, c.ColFileExtIn)
    case Panic(f) => Panic(f)
    case Ok(ext) =>
      match Setting(c.InDir, cols, c.ColFileName)
      case Panic(f) => Panic(f)
      case Ok(parent) => Ok(JoinPath([parent, BucketPath(id, c.DirDepth, c.FolderSize), name]) + ext)
  }

  /** With InDir and InFileExt both set the in path never consults the row:
      it cannot panic and any two rows give the same path. */
  lemma InPathStatic(c: Configuration, cols1: seq<string>, cols2: seq<string>, id: int, name: string)
    requires Valid(c) && c.InDir != "" && c.InFileExt != ""
    ensures InPath(c, cols1, id, name) == InPath(c, cols2, id, name)
    ensures InPath(c, cols1, id, name).Ok?
  {
  }

  /** Where an output file goes: its directory and its full path. */
  datatype Location = Location(dir: string, path: string)

  /** The output file name: the decimal output ID when renaming, otherwise
      the FileName column. */
  function OutFileName(c: Configuration, cols: seq<string>, id: int): (r: Outcome<string>)
    ensures c.OutFileRenameInt ==> r == Ok(Itoa(id))
    ensures !c.OutFileRenameInt ==> r == Column(cols, c.ColFileName)
  {
    if c.OutFileRenameInt then Ok(Itoa(id)) else Column(cols, c.ColFileName)
  }

  /** The directory GetOutPath starts from: the batch when batching,
      otherwise whatever the Line's Dir held. */
  function BatchDir(c: Configuration, id: int, dir0: string): (r: Outcome<string>)
  {
    if c.OutAutoBatch then Batch(c, id) else Ok(dir0)
  }

  /** The bucket segment of the output directory, empty unless
      OutXtenderStructure is set. */
  function OutBucket(c: Configuration, id: int): string
    requires Valid(c)
  {
    if c.OutXtenderStructure then BucketPath(id, c.DirDepth, c.FolderSize) else ""
  }

  /** GetOutPath for output ID `id`, starting from Dir = dir0: file name,
      then extension (OutFileExt or the FileExtOut column), then batch and
      bucket directories under OutDir. */
  function OutLocation(c: Configuration, cols: seq<string>, id: int, dir0: string): (r: Outcome<Location>)
    requires Valid(c)
    ensures r.Panic? <==> (OutFileName(c, cols, id).Panic?
                           || (c.OutFileExt == "" && !(0 <= c.ColFileExtOut < |cols|))
                           || BatchDir(c, id, dir0).Panic?)
  {
    match OutFileName(c, cols, id)
    case Panic(f) => Panic(f)
    case Ok(filename) =>
      match Setting(c.OutFileExt, cols, c.ColFileExtOut)
      case Panic(f) => Panic(f)
      case Ok(ext) =>
        match BatchDir(c, id, dir0)
        case Panic(f) => Panic(f)
        case Ok(d1) =>
          var d2 := if c.OutXtenderStructure then JoinPath([d1, BucketPath(id, c.DirDepth, c.FolderSize)]) else d1;
          var dir := JoinPath([c.OutDir, d2]);
          Ok(Location(dir, JoinPath([dir, filename]) + ext))
  }

  /** The out path is OutDir, the batch (or the old Dir), the bucket path
      (when OutXtenderStructure) and the file name joined, followed by the
      extension; the out directory is the same without the file name. */
  lemma OutLocationShape(c: Configuration, cols: seq<string>, id: int, dir0: string)
    requires Valid(c) && OutLocation(c, cols, id, dir0).Ok?
    ensures var loc := OutLocation(c, cols, id, dir0).value;
      var sub := JoinPath([BatchDir(c, id, dir0).value, OutBucket(c, id)]);
      && loc.dir == JoinPath([c.OutDir, sub])
      && loc.path == JoinPath([c.OutDir, sub, OutFileName(c, cols, id).value])
                     + Setting(c.OutFileExt, cols, c.ColFileExtOut).value
  {
    var d1 := BatchDir(c, id, dir0).value;
    var filename := OutFileName(c, cols, id).value;
    JoinPath2(d1, "");
    var sub := JoinPath([d1, OutBucket(c, id)]);
    JoinPath3(c.OutDir, sub, filename);
  }

  // ---------------------------------------------------------------------
  // OutLineFile (name only)

  /** The index file of lib/line.go and line.go: OutLinesName under OutDir,
      prefixed with the batch of the output ID and "_" when batching. */
  function IndexFile(c: Configuration, id: int): (r: Outcome<string>)
    ensures r.Panic? <==> Batch(c, id).Panic?
  {
    match Batch(c, id)
    case Panic(f) => Panic(f)
    case Ok(b) => Ok(JoinPath([c.OutDir, if b == "" then c.OutLinesName else b + "_" + c.OutLinesName]))
  }

  /** Without batching every line goes to OutDir/OutLinesName; with
      batching the index file carries the batch of the output ID. */
  lemma IndexFileNames(c: Configuration, id: int)
    ensures !c.OutAutoBatch ==> IndexFile(c, id) == Ok(JoinPath([c.OutDir, c.OutLinesName]))
    ensures c.OutAutoBatch && c.OutAutoBatchCount != 0 ==>
      IndexFile(c, id) == Ok(JoinPath([c.OutDir, Batch(c, id).value + "_" + c.OutLinesName]))
  {
    if c.OutAutoBatch && c.OutAutoBatchCount != 0 {
      ZeroPadNonEmpty(Quot(id, c.OutAutoBatchCount), c.OutAutoBatchZeroPad);
    }
  }

  /** Output IDs in the same batch block share an index file. */
  lemma IndexFilePerBlock(c: Configuration, a: int, b: int)
    requires c.OutAutoBatch && c.OutAutoBatchCount > 0 && c.OutAutoBatchZeroPad >= 0
    requires 0 <= a <= MaxInt64 && 0 <= b <= MaxInt64
    requires a / c.OutAutoBatchCount == b / c.OutAutoBatchCount
    ensures IndexFile(c, a) == IndexFile(c, b)
  {
    BatchBlocks(c, a, b);
  }

  /** The index file of main.go: OutLineFile runs before the ID is parsed,
      on a Line whose ID is still 0, and always inserts "_". */
  function MainIndexFile(c: Configuration): (r: Outcome<string>)
    ensures r.Panic? <==> Batch(c, 0).Panic?
  {
    match Batch(c, 0)
    case Panic(f) => Panic(f)
    case Ok(b) => Ok(JoinPath([c.OutDir, b + "_" + c.OutLinesName]))
  }

  /** main.go's index file is the batch of ID 0: without batching it is
      "_" + OutLinesName, with batching the first batch. */
  lemma MainIndexFileNames(c: Configuration)
    ensures !c.OutAutoBatch ==> MainIndexFile(c) == Ok(JoinPath([c.OutDir, "_" + c.OutLinesName]))
    ensures c.OutAutoBatch && c.OutAutoBatchCount != 0 ==>
      MainIndexFile(c) == Ok(JoinPath([c.OutDir, c.OutAutoBatchName + ZeroPad(0, c.OutAutoBatchZeroPad) + "_" + c.OutLinesName]))
  {
    if !c.OutAutoBatch {
      assert "" + "_" + c.OutLinesName == "_" + c.OutLinesName;
    } else if c.OutAutoBatchCount != 0 {
      assert Quot(0, c.OutAutoBatchCount) == 0;
    }
  }
}
