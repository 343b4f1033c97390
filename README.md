# xtender-xtractor, modelled in Dafny

xtender-xtractor migrates documents out of an ApplicationXtender archive.
It reads a delimited index file in which every line names a document by an
integer object ID. For each line it:

- derives the document's bucketed source path from the ID;
- suppresses adjacent duplicate IDs;
- works out the output name, batch and bucket directory;
- copies the file;
- sends the line to exactly one sink: the index file of its batch with the
  new path appended, the duplicates file, or the error file.

A second mode, the missing-object audit, reuses the source-path derivation.
It appends every path that does not exist to one report per bucket.

The repository holds three variants of the per-line pipeline, and each is a
module of its own here:

- **LibLine and LibConfiguration** model `lib/line.go` and
  `lib/configuration.go`, the current version. One long-lived `Line`
  carries the last ID and the counters, source files above 99,999,999 get
  hexadecimal names, and empty lines are skipped.
- **MainGo** models `main.go`, the older monolithic variant. It makes a
  fresh `Line` per row and keeps `last` and the counters in package
  variables (`RootGlobals`). The index file is opened before the ID is
  parsed.
- **RootLine** models `line.go`, the root-package `Line`. The
  missing-object audit of `missing.go` uses it, and `RootGlobals.Globals.Copy`
  models `helper.go`'s copy.

The shared pieces are separate modules:

- `Bucket`: the ApplicationXtender bucket path of an ID.
- `Paths`: source and output names and paths, batches, index files.
- `Columns`: the column projection of the index line.
- `Text`: decimal and hexadecimal rendering, `ParseInt`, zero padding,
  `strings.Split` and `filepath.Join`.
- `Files`: an abstract filesystem and its output sinks.
- `Pipeline`: the second half of ProcessLine, common to all variants.
- `Scan`: the row loop that stops at the first panic.

The filesystem is a `Disk` object:

- a map from paths to contents;
- a set of paths that cannot be written, each of whose creation fails;
- the duplicates and error files as sequences of lines;
- the index files and the missing reports as maps from path to lines.

The input file is given as its sequence of lines. A Go panic or
`log.Fatal` is a `Fault` value, and it ends the run.

Each imperative method is proved against a function of the old state. The
`ProcessLine` methods equal `Step`, and each `processIn` equals a fold
`Rows` of a per-row `Feed`. The lemmas about those functions state what the
program promises:

- exactly one sink per line;
- the duplicate rule in both directions;
- the counter accounting;
- the shape of the index line;
- the run-level bound successful + failed + duplicates ≤ lineCount − skipped;
- the round trip of the bucket path;
- the audit's count of missing paths.

## Model

| member | source | states |
|---|---|---|
| Text.NatToDecimal | lib/line.go:147 | the decimal rendering of a natural is non-empty, all digits, with no leading zero |
| Text.DecimalRoundTrip | lib/line.go:147 | reading the decimal rendering of n back gives n |
| Text.ParseInt | lib/line.go:45 | a parsed value lies in the int64 range, a range error returns one of the two int64 bounds, and the empty string is a syntax error |
| Text.ParseIntDigits | lib/line.go:45 | a sign and digits only give Clamp of the signed value: the value when it fits int64, otherwise the range error with the bound it passes |
| Text.ParseIntStopsAtNonDigit | missing.go:60-64 | the digits before the first non-digit decide: past 2^64 - 1 they give the range error with the bound of the sign, whatever follows; otherwise it is a syntax error whose returned value is 0 |
| Text.OverflowBeforeBadCharacter | missing.go:60-64 | "99999999999999999999x" returns MaxInt64 with ErrRange, and with a leading "-" MinInt64 |
| Text.ParseItoa | lib/line.go:45-48 | every int64 that Itoa renders parses back to itself |
| Text.UpperHex | lib/line.go:144-145 | the upper-case hexadecimal rendering is non-empty |
| Text.HexValueOf | lib/line.go:144-145 | a recognised hexadecimal digit has a value below 16 and renders back to the same character |
| Text.HexCharValue | lib/line.go:144-145 | every digit below 16 reads back from its character |
| Text.HexRoundTrip | lib/line.go:144-145 | reading the upper-case hex rendering of n gives back n |
| Text.ZeroPadReadsBack | lib/line.go:229-230 | `%0<w>d` of n ≥ 0 is max(w, digits of n) characters wide, all digits, and reads back as n |
| Text.ZeroPadParses | lib/line.go:229-230 | the zero-padded rendering of any int64 parses back to it, so distinct numbers never share one |
| Text.SplitJoin | lib/configuration.go:178 | strings.Split gives at least one piece, and joining the pieces with the separator restores the line |
| Text.SplitEmptyLine | lib/line.go:39-42 | with a non-empty separator, a line splits into exactly one empty column if and only if it is empty |
| Text.JoinPath2 | lib/line.go:150 | a two-element filepath.Join drops an empty side and otherwise joins with "/" |
| Text.JoinPath3 | lib/line.go:150 | a three-element filepath.Join equals two nested two-element joins |
| Bucket.Segments | lib/line.go:263-272 | the bucket path has exactly DirDepth levels, and none when DirDepth ≤ 0 |
| Bucket.PathFromID | lib/line.go:261-275 | the GetPathFromID loop returns BucketPath(ID, DirDepth, FolderSize), and the error it returns is always nil |
| Bucket.GoldenPaths | main_test.go:11-31 | with depth 2 and folder size 1024, ID 2927782 maps to "2/811" and ID 7957574 to "7/603" |
| Bucket.LevelOfNonNegative | lib/line.go:265-267 | for ID ≥ 0, level i is (ID div FolderSize^i) mod FolderSize and lies in [0, FolderSize) |
| Bucket.SegmentsInRange | lib/line.go:263-272 | for ID ≥ 0, every directory name lies in [0, FolderSize) |
| Bucket.NoDepthNoPath | lib/line.go:263 | DirDepth ≤ 0 gives the empty path |
| Bucket.LevelShift | lib/line.go:265-267 | level i of ID is level i−1 of ID div FolderSize |
| Bucket.PathDependsOnQuotient | lib/line.go:261-275 | two IDs with the same quotient by FolderSize get the same levels and the same path |
| Bucket.SegmentsSplit | lib/line.go:263-272 | the levels of ID are those of ID div FolderSize, one level less deep, followed by the innermost level |
| Bucket.DecodeSegments | lib/line.go:261-275 | read as base-FolderSize digits, the levels give (ID div FolderSize) mod FolderSize^DirDepth |
| Bucket.PathRoundTrip | lib/line.go:261-275 | for 0 ≤ ID < FolderSize^(DirDepth+1), the levels read back as ID div FolderSize |
| Bucket.EncodeDigits | lib/line.go:261-275 | every window of base-FolderSize digits is the level sequence of the IDs whose digits they are, whatever the lowest digit |
| Bucket.ValueBounds | lib/line.go:261-275 | a window of k digits below FolderSize reads as a value in [0, FolderSize^k) |
| Config.Consumed | lib/configuration.go:157-166 | the offset loop consumes Offset rows, or all the rows when the file is shorter |
| Paths.Batch | lib/line.go:219-233 | GetBatch is "" exactly when batching is off; it panics with a division by zero exactly when batching with a count of 0 |
| Paths.BatchNumber | lib/line.go:225-232 | a batch name is OutAutoBatchName followed by a rendering at least OutAutoBatchZeroPad wide that parses back as ID / OutAutoBatchCount |
| Paths.BatchBlocks | lib/line.go:225-226 | two non-negative IDs get the same batch if and only if they fall in the same block of OutAutoBatchCount |
| Paths.LibFileName | lib/line.go:142-148 | the source file name is never empty |
| Paths.LibFileNameReadsBack | lib/line.go:142-148 | up to 99,999,999 the name parses back as the ID; above that it is "A" followed by the ID in hexadecimal |
| Paths.LibFileNameInjective | lib/line.go:142-148 | two int64 IDs share a source file name if and only if they are equal, across both naming regimes |
| Paths.Setting | lib/line.go:117-130 | a blank setting is taken from its column (which may panic), a set one is used as is |
| Paths.InPath | lib/line.go:115-153 | GetInPath panics exactly when a needed column is out of range, with the extension checked first; otherwise it is parent/bucket path/name followed by the extension |
| Paths.InPathStatic | lib/line.go:118-130 | with InDir and InFileExt both set, the in path never panics and does not depend on the row |
| Paths.OutFileName | lib/line.go:158-166 | the out file name is the decimal output ID when renaming, and the FileName column otherwise |
| Paths.OutLocation | lib/line.go:156-199 | GetOutPath panics exactly when the name column, the extension column or the batch fails |
| Paths.OutLocationShape | lib/line.go:175-196 | the out path is OutDir, then the batch (or the old Dir), then the bucket path when OutXtenderStructure is set, then the file name, followed by the extension; the directory is the same without the name |
| Paths.IndexFile | lib/line.go:203-216 | the index file name fails exactly when the batch does |
| Paths.IndexFileNames | lib/line.go:204-210 | without batching the index file is OutDir/OutLinesName; with batching it is OutDir/<batch>_OutLinesName |
| Paths.IndexFilePerBlock | lib/line.go:204-210 | output IDs in the same batch block share an index file |
| Paths.MainIndexFile | main.go:345-354 | main.go's index file name fails exactly when the batch of ID 0 does |
| Paths.MainIndexFileNames | main.go:345-354 | main.go's index file is always the batch of ID 0, then "_", then OutLinesName, giving "_"+OutLinesName without batching |
| Columns.Generate | lib/line.go:236-257 | the GenLineFromColumns loop returns Project of the column list and the row |
| Columns.ProjectAfter | lib/line.go:246-251 | once the line is non-empty, every further column is added after the delimiter |
| Columns.ProjectionJoins | lib/line.go:236-257 | when every entry names a column, the line is the selected columns in listed order joined by Delimiter, with leading empty columns dropped without a delimiter |
| Columns.ProjectionStopsAtBadEntry | lib/line.go:240-244 | the first entry that is not an integer ends the projection with that entry as the error |
| Columns.EmptyColumnList | lib/line.go:239-244 | an empty column list always fails the projection |
| Files.MakeDir | helper.go:60-69 | MkdirAll panics exactly for a directory that cannot be created |
| Files.OpenSink | lib/line.go:211-215 | opening an output file is fatal exactly when it cannot be written |
| Files.Transfer | lib/line.go:292-318 | a missing source is the error "File does not exist. <in>"; an existing source with an uncreatable destination panics; otherwise it is a copy |
| Files.TransferContents | lib/line.go:302-315 | after a copy the destination holds the source's old bytes and no other file changed |
| Files.Append | lib/line.go:278-280 | writeLine appends one line to its file and leaves every other file alone |
| Files.Disk.Copy | lib/line.go:293-315 | the filesystem side of copy is Transfer, and the files change only on a copy |
| Files.Disk.WriteDup | lib/line.go:56 | one line is appended to the duplicates file |
| Files.Disk.WriteError | lib/line.go:285-289 | one line is appended to the error file |
| Files.Disk.WriteIndex | lib/line.go:109 | one line is appended to the given index file |
| Files.Disk.WriteReport | missing.go:97 | one line is appended to the report when a handle is open; a nil handle writes nothing |
| Pipeline.Deliver | lib/line.go:40-111 | after a line, the disk has the verdict's files and exactly one write to the verdict's single sink |
| Pipeline.Opening | lib/configuration.go:108-125 | setup fails exactly when OutDir, the duplicates file or the error file cannot be made, with Mkdir checked first |
| Pipeline.TailAccounting | lib/line.go:86-111 | a missing source adds 1 to failed and goes to the error file with the files unchanged; a copy adds 1 to successful; the index line is written only after both the copy and the projection succeed, and then names the projected columns and the out path |
| Pipeline.DepositAccounting | lib/line.go:97-111 | the same accounting from the copy on: a projection error after a copy keeps successful incremented and sends the line to the error file |
| Pipeline.ResumeAccounting | lib/line.go:63-111 | the in path is stored in Path, ID, LastID and the duplicate count are kept, and the counters change as TailAccounting says |
| RootGlobals.Globals.constructor | main.go:18-32 | the package counters, last and outFlat start at their zero values |
| RootGlobals.Globals.Copy | helper.go:14-40 | a missing source adds 1 to failed and is returned as the error; a copy adds 1 to successful and returns nil; a destination problem panics with both counters unchanged |
| RootLine.StepResumes | line.go:32-59 | a row whose ID parses and differs from LastID continues with the decimal source name and output ID successful + OutFileRenameIntOffset |
| RootLine.EmptyLineIsError | line.go:28-35 | with no empty-line guard, an empty line with ColObjectID 0 goes to the error file with ID 0 |
| RootLine.DuplicateIff | line.go:37-47 | a line is a duplicate if and only if its ID parses to LastID; it adds 1 to duplicates and changes nothing else; LastID becomes every parsed non-duplicate ID |
| RootLine.IndexedAfterCopy | line.go:49-90 | an indexed line was copied from its decimal-named source; its index file and out path follow successful + OutFileRenameIntOffset |
| RootLine.Counters | line.go:28-91 | the counters never decrease, a line adds to at most one of them, and failed grows only for a missing source sent to the error file |
| RootLine.Line.constructor | missing.go:30-32 | a new Line has the configuration and every other field at its zero value |
| RootLine.Line.Clone | line.go:56 | the struct copy `lo` has the same field values |
| RootLine.Line.GetInPath | line.go:94-122 | returns InPath with the decimal ID as file name, and does not store it |
| RootLine.Line.GetOutPath | line.go:125-169 | returns the out path of OutLocation and sets Dir and Path to it; a panic changes neither |
| RootLine.Line.OutLineFile | line.go:173-186 | opens the index file of the Line's ID; a failure is fatal |
| RootLine.Line.GenLineFromColumns | line.go:206-227 | returns Project, and Line becomes the projected text only on success |
| RootLine.Line.ProcessLine | line.go:28-91 | the result, the Line's variables and the package counters are those of Step, and the disk gets Step's single sink write |
| RootLine.Line.Admit | line.go:46-90 | for an ID that parsed and differs from LastID, storing LastID and the in path and then the output side have the effect of Pipeline.Resume with the decimal name of the ID and output ID successful + OutFileRenameIntOffset |
| RootLine.Line.Output | line.go:56-90 | from `lo := *l` on, the effect is Open with the given output ID |
| RootLine.Line.CopyOut | line.go:65-90 | from GetOutPath on, the effect is Tail on the copy `lo` |
| RootLine.Line.Deposit | line.go:76-90 | copy, projection and index line have the effect of Pipeline.Deposit |
| RootLine.Line.Index | line.go:83-90 | after a copy, the projection and the index line complete the effect of Pipeline.Deposit |
| LibLine.StepResumes | lib/line.go:45-80 | a row whose ID parses and differs from LastID continues with LibFileName and the output ID |
| LibLine.OneSink | lib/line.go:35-112 | ProcessLine returns true exactly when the line reached an index file; a panic writes nothing; the only normal return without a write is an empty line |
| LibLine.EmptyLineSkipped | lib/line.go:39-42 | an empty line returns false and changes no variable, file or sink |
| LibLine.DuplicateIff | lib/line.go:51-58 | a line is a duplicate if and only if its ID parses to LastID; it adds 1 to duplicates, goes to outDups and changes nothing but ID; no other line changes duplicates |
| LibLine.FirstZeroIsDuplicate | lib/configuration.go:139-141 | LastID starts at 0, so a first line with ID 0 is a duplicate |
| LibLine.IDRules | lib/line.go:44-61 | ID becomes what the parse returned (0 on a syntax error); LastID becomes every parsed non-duplicate ID, even when the copy fails later |
| LibLine.Counters | lib/line.go:35-112 | the counters never decrease and a line adds to at most one; failed grows exactly for a missing source, which goes to the error file; successful grows only for an existing source; the files change only by a copy |
| LibLine.IndexedAfterCopy | lib/line.go:63-111 | an indexed line was copied into a destination that holds the source's bytes; its index file is that of the output ID; its index line is projection + Delimiter + out path; when renaming, the out file is named after successful + OutFileRenameIntOffset |
| LibLine.Line.constructor | lib/configuration.go:139-141 | the Line starts with ID, LastID, the counters, Dir and Path at zero |
| LibLine.Line.Clone | lib/line.go:70 | the struct copy `lo` has the same field values |
| LibLine.Line.GetInPath | lib/line.go:115-153 | returns InPath with LibFileName, and stores it in Path on success |
| LibLine.Line.GetOutPath | lib/line.go:156-199 | returns the out path of OutLocation and sets Dir and Path to it; a panic changes neither |
| LibLine.Line.OutLineFile | lib/line.go:203-216 | opens the index file of the Line's ID; File is set only when it opens |
| LibLine.Line.GenLineFromColumns | lib/line.go:236-257 | returns Project, and Line becomes the projected text only on success |
| LibLine.Line.Copy | lib/line.go:292-318 | a missing source adds 1 to failed and returns the message; a copy adds 1 to successful and returns nil; a panic changes no counter |
| LibLine.Line.ErrorLine | lib/line.go:285-289 | the verbatim line is appended to the error file and false is returned |
| LibLine.Line.ProcessLine | lib/line.go:35-112 | the result and the Line's variables are those of Step, and the disk gets Step's single sink write |
| LibLine.Line.Resume | lib/line.go:63-111 | from GetInPath on, the effect is Pipeline.Resume |
| LibLine.Line.CopyOut | lib/line.go:86-111 | from GetOutPath on, the effect is Tail on the copy `lo` |
| LibLine.Line.Deposit | lib/line.go:97-111 | copy, projection and index line have the effect of Pipeline.Deposit |
| LibLine.Line.Index | lib/line.go:104-111 | after a copy, the projection and the index line complete the effect of Pipeline.Deposit |
| Scan.Rows | lib/configuration.go:169-182 | a run that has already stopped is left unchanged |
| Scan.RowsStop | lib/configuration.go:169-182 | after a panic, no further row changes the result |
| LibConfiguration.FeedCounts | lib/configuration.go:169-182 | a row adds 1 to lineCount and at most 1 to the counters together, never decreases one, and adds a line to outDups exactly when it adds to duplicates |
| LibConfiguration.RowsCount | lib/configuration.go:169-182 | over any rows, lineCount grows by the rows fed (all of them unless one panics), the counters grow by at most that much, and outDups grows by the duplicates |
| LibConfiguration.ProcessedCounts | lib/configuration.go:156-182 | after processIn: skipped == Offset, every row after the offset is fed unless one panics, successful + failed + duplicates ≤ lineCount − skipped, and outDups holds one line per duplicate |
| LibConfiguration.AdjacentRepeat | lib/line.go:51-61 | the Line outlives its rows, so a row right after one with the same parsed ID is a duplicate even when the first one's copy failed |
| LibConfiguration.OnlyAdjacentRepeats | lib/line.go:51-61 | after a row with a parsed ID, a row with a different parsed ID is not a duplicate |
| LibConfiguration.ProcessIn | lib/configuration.go:137-191 | the final Line and disk are Processed over the input lines, and the logged last output ID is successful + OutFileRenameIntOffset − 1 |
| LibConfiguration.SkipOffset | lib/configuration.go:156-166 | the offset loop adds Offset to both lineCount and skipped and consumes Consumed rows |
| LibConfiguration.FeedRows | lib/configuration.go:168-182 | the main loop's effect is the fold Rows of Feed over the remaining lines |
| LibConfiguration.FeedRow | lib/configuration.go:170-181 | one iteration's effect is Feed: Line and Columns are set, lineCount grows by one, then ProcessLine |
| LibConfiguration.Process | lib/configuration.go:100-134 | setup failures change nothing; otherwise exactly one mode runs: the intended audit, which writes only reports, when Missing is set, and processIn otherwise |
| Missing.Settings | missing.go:58 | the shared configuration carries the audit's InDir and MissingCount |
| Missing.Reopen | missing.go:72-77 | a report handle is open exactly when its file can be written |
| Missing.Check | missing.go:92-101 | calcMissing adds 1 to MissingCount and reports Path exactly when Path does not exist, and changes nothing else |
| Missing.PathOfRow | missing.go:58-80 | the in path of an audit row depends on its ID and root-directory columns, not on MissingCount |
| Missing.AsWrittenFlagsPresentFile | missing.go:53-56 | a counterexample: as written, the row "5,apps,b" with an existing file is counted as failed and as missing, while the intended audit counts neither |
| Missing.AsWrittenEveryRowMissing | missing.go:80 | as written, Path never changes, so starting from "" every row that gets past the column reads counts as missing |
| Missing.AuditRowFacts | missing.go:39-85 | a row adds 1 to lineCount; failed grows exactly for a short row or a bad ID; MissingCount grows and the current report gets the path exactly when the row's path does not exist; the report switches exactly on a new bucket; only GetInPath panics |
| Missing.ProbeFacts | missing.go:80-84 | GetInPath and calcMissing change only Path, MissingCount and the reports, as Check says |
| Missing.SameBucketSameReport | missing.go:66-78 | two consecutive rows with the same bucket write to the same report |
| Missing.AuditCounts | missing.go:39-86 | for the intended audit (the two Findings corrected), over rows that all ran: lineCount grows by their number, failed by the short rows and bad IDs, and MissingCount by the rows whose path does not exist |
| Missing.AsWrittenRowCounts | missing.go:40-84 | as written, a row that does not panic had three or more columns, adds 1 to lineCount, 1 to failed for the guard and 1 more for a bad ID, and leaves Path as it was; from Path "" it is counted as missing |
| Missing.AsWrittenAuditCounts | missing.go:39-86 | as written, over rows that all ran: each had three or more columns, lineCount grows by their number, failed by their number plus the bad IDs, Path never changes, and from the initial Path "" MissingCount grows by every row |
| Missing.MissingAudit | missing.go:18-90 | the intended audit: Rows of AuditRow from a fresh Line; it copies nothing and writes only reports |
| Missing.AuditRows | missing.go:39-86 | the loop of the intended audit: its effect is the fold Rows of the corrected AuditRow |
| Missing.AuditLine | missing.go:40-85 | one iteration of the intended audit: its effect is the corrected AuditRow, where a short row adds 1 to failed and is skipped |
| Missing.ClassifyLine | missing.go:58-84 | the intended audit for a row of three or more columns: InDir, ID and the bucket switch, then the corrected probe, have the effect of Classify |
| Missing.ProbeLine | missing.go:80-84 | the intended probe: the path GetInPath returns is stored in Path (missing.go:80 drops it), then calcMissing; the effect is Probe |
| Missing.CalcMissing | missing.go:92-101 | an existing Path changes nothing; a missing one is written to the report and counted in MissingCount |
| MainGo.FreshAccounting | main.go:225-262 | a new ID keeps last and the duplicate count, stores the in path, and accounts as Tail; the result is true exactly when the line was indexed, and it never goes to outDups |
| MainGo.FreshIndexed | main.go:231-262 | an indexed line goes to the open index file and names the out path of successful + OutFileRenameIntOffset |
| MainGo.RowFresh | main.go:207-229 | a row whose ID parses and differs from `last` continues with the decimal source name |
| MainGo.RowAccounting | main.go:207-262 | a row is a duplicate if and only if its ID parses to `last`; last becomes every parsed non-duplicate ID; the counters never decrease and a row adds to at most one |
| MainGo.Accounting | main.go:201-263 | an index file that cannot be opened is fatal and changes nothing; otherwise as RowAccounting |
| MainGo.RowIndexed | main.go:207-262 | an indexed row had a new ID and an existing source, and its line is as IndexedAs says |
| MainGo.IndexedAfterCopy | main.go:201-263 | every indexed row goes to the single index file of ID 0 ("_"+OutLinesName without batching), with the out path of successful + OutFileRenameIntOffset whatever OutFileRenameInt says |
| MainGo.Line.constructor | main.go:185-189 | the per-row Line has the row text and columns and a zero ID, Dir and Path |
| MainGo.Line.Clone | main.go:232 | the struct copy `lo` has the same field values |
| MainGo.Line.GetInPath | main.go:266-294 | returns InPath with the decimal ID as file name |
| MainGo.Line.GetOutPath | main.go:297-341 | returns the out path of OutLocation and sets Dir and Path to it; a panic changes neither |
| MainGo.Line.OutLineFile | main.go:345-354 | opens the batch of the Line's ID, "_" and OutLinesName under OutDir into outFlat, and a failure is fatal; on the fresh Line (ID 0) that file is MainIndexFile |
| MainGo.Line.GenLineFromColumns | main.go:375-396 | returns Project, and Line becomes the projected text only on success |
| MainGo.Line.ProcessLine | main.go:201-263 | the result, `last` and the package counters are those of Step, the disk gets Step's single sink write, and outFlat becomes the index file of ID 0 |
| MainGo.Line.CheckID | main.go:207-223 | after OutLineFile, the parse and duplicate check have the effect of Row |
| MainGo.Line.Locate | main.go:225-235 | GetInPath, stored in Path, and the output ID have the effect of Fresh |
| MainGo.Line.Output | main.go:232-262 | from `lo := *l` on, the effect is Tail |
| MainGo.Line.Deposit | main.go:248-262 | copy, projection and index line have the effect of Pipeline.Deposit |
| MainGo.FeedCounts | main.go:173-192 | a row adds 1 to lineCount and at most 1 to the counters; duplicates grows with outDups; index lines go only to the file of ID 0, which stays open unless the row panicked |
| MainGo.RowsCount | main.go:173-192 | over any rows, lineCount grows by the rows fed, the counters by at most that much, outDups by the duplicates, and no index file but that of ID 0 is written |
| MainGo.ProcessedCounts | main.go:159-192 | after processIn: skipped grew by Offset, each fed row adds to at most one counter, and every index line went to the index file of ID 0 |
| MainGo.ProcessIn | main.go:149-197 | the package variables and the disk end as Processed over the input lines |
| MainGo.SkipOffset | main.go:160-171 | the offset loop adds Offset to lineCount and skipped and consumes Consumed rows |
| MainGo.FeedRows | main.go:173-192 | the main loop's effect is the fold Rows of Feed over the remaining lines |
| MainGo.FeedRow | main.go:175-191 | one iteration's effect is Feed on a fresh Line for the row |
| MainGo.Setup | main.go:118-146 | a setup failure changes nothing; otherwise the effect is processIn's |

## Left out

- Loading the JSON configuration and cleaning it with `filepath.Abs` are not modelled. The configuration is an immutable input record (`Config.Configuration`) holding the fields the core reads.
- Logging, the log file, console output and the summary messages are not modelled. The "Last ObjectID out" value that lib's processIn logs is returned by `LibConfiguration.ProcessIn` as `lastOut`.
- Zipping the output directory (`OutZipped`) is not modelled; it is done by a third-party archive library.
- GetPathFromID computes with `math.Pow` and `math.Mod` on floats. The model uses exact integer truncated division and remainder, which agree with the floats only while they are exact (IDs below 2^53). Float rounding is not modelled.
- Config.Valid: every operation assumes FolderSize != 0 whenever DirDepth > 0. The source does not check this. With FolderSize 0, each level is `int` of the NaN that `math.Mod(x, 0)` returns, an implementation-defined integer rather than a panic, and the model leaves that case out.
- Bucket.PathFromID: for negative IDs the model uses Go's truncated integer quotient and remainder, not the float formula.
- Integers are unbounded: the int64 wrap-around of the counters and of OutFileRenameIntOffset arithmetic is not modelled. `strconv.Atoi` is modelled with int64 bounds, as on a 64-bit platform.
- `bufio.Scanner` is modelled as the input's sequence of lines. Its token-size limit and read errors are not modelled, and neither is a failure to open the input file (a `log.Fatal` before any row).
- `os.OpenFile` with `O_CREATE` creates an empty index or report file as a side effect; that creation is not modelled, only the lines written.
- File-handle lifetimes are not modelled, including the deferred Close of a nil handle in missing.go and the Close of the previous report.
- Directories are not tracked: Mkdir and MkdirAll fail only for a path that cannot be written, and an existing directory is not distinguished.
- `filepath.Join` is modelled as joining the non-empty elements with "/"; its cleaning of "..", "." and repeated separators is not modelled.
- `ComputeChecksum` is configured but never used, so it is not part of the record.
- main.go and line.go spell the column list `OutLinesColomns`; the model uses the single field `OutLinesColumns` for every variant.
- The root-package Configuration of main.go has no `Missing` fields; the model shares one record between the variants, and MainGo never reads them.
- lib/configuration.go calls `missing(c)`, which the lib package does not define. `LibConfiguration.Process` dispatches to the root package's audit of missing.go, with fresh counters.
- The `Dir` field of lib's Line is never set by processIn, so `LibConfiguration.Feed` always passes "" for it; other starting values are covered only by the per-line functions.
- `RootGlobals.Globals.Copy` is the copy of helper.go; main.go's own copy (main.go:414-440) is the same code and is not modelled twice.
- line.go has no driver loop in the root package (main.go's processIn uses its own Line), so `RootLine` is modelled per line and driven only by the missing audit.
- Missing.MissingAudit: models the intended audit (the corrected guard and the stored in path); the code as written is `Missing.AuditRowAsWritten`, which the Findings below compare with it.
- Missing.AuditRows: loops over the intended row step `AuditRow`, not over `AuditRowAsWritten`; the code as written is stated over a whole run only by `Missing.AsWrittenAuditCounts`.
- Missing.AuditLine: skips a row of fewer than three columns with failed + 1, where missing.go indexes col[1] or col[2] and panics; and it does not count a row of three or more columns as failed, as missing.go's inverted guard does.
- Missing.ClassifyLine: drives the corrected probe, which stores the in path before calcMissing; missing.go:80 drops it.
- Missing.ProbeLine: stores GetInPath's result in Path, which missing.go:80 discards, so calcMissing checks the row's own in path rather than "".
- Missing.AuditCounts: counts over the intended audit; as written every row that runs has three or more columns, counts as failed and, while Path is "", as missing (`Missing.AsWrittenAuditCounts`).
- LibConfiguration.Process: in Missing mode it runs the intended audit `Missing.MissingAudit`, not the code as written.

## Findings

| source | as written | input that shows it | evidently intended | confidence | as-written member | corrected member |
|---|---|---|---|---|---|---|
| missing.go:53-56 | the guard `len(col) >= 3` adds 1 to failed for every well-formed row; rows of fewer than three columns then index col[1] or col[2] out of range and panic | audit row "5,apps,b" whose file exists: failed grows by 1 | count and skip rows with fewer than three columns, as the log message "Line is not 3 columns" says | not executed | Missing.AsWrittenFlagsPresentFile | Missing.AuditRowFacts |
| missing.go:80 | the result of GetInPath is dropped, and the root-package GetInPath (line.go:94-122) does not store it in Path, so calcMissing checks the Line's initial Path "" | audit row "5,apps,b" whose file exists: MissingCount grows by 1, and an empty line is written to report "b" | check the row's own in path and report it only when it does not exist | not executed | Missing.AsWrittenEveryRowMissing | Missing.ProbeFacts |
