# sloc core in Dafny

sloc is a line-oriented source statistics scanner written in Go. `FileStats`
(stats.go) reads one file in chunks and runs every byte through a small
classifier. The classifier tracks `//` line comments and `/* */` block
comments with one byte of lookbehind. It counts the code and comment bytes of
the current line. At each line break it folds that line into the file's
statistics:

- `LinesAll`, `LinesCode`, `LinesComment` and `LinesEmpty`;
- the maxima and sums of the line byte counts (the sums feed the averages).

`GlobalStats` inspects a batch of files in order. It skips every file whose
inspection returned an error, and keeps the maxima and sums of the four line
counts over the rest. main.go holds an older `inspectReader` with the same
read loop and byte switch. It classifies a finished line differently: a line
is a comment line or else an empty line. It also lists the byte count of every
finished line in `bytesPerLine`.

The project has seven modules:

- `Stream`: the reader. It is modelled as the sequence of results its `Read`
  calls return. `Drain` is the read loop's control flow over them.
- `Classifier`: the byte classifier as a pure state machine (`ModeStep`,
  `Count`, `Close`, `Step`, `Run`).
- `LineLog`: a line-by-line reference for the scan. This module cuts the
  stream at its line breaks and measures each finished line. The scan is
  proved to equal the summary of those lines.
- `Inspection`: the effects of `inspectReader`, `InspectFile` and
  `InspectBatch` as pure functions, and the properties of the batch
  reductions.
- `Stats`: the classes `FileStats` and `GlobalStats`. Their methods run the
  loops of the source over the fields. Each method is proved to have exactly
  the effect `Inspection` gives it.
- `Comments`: how the comment syntax decides the category of a line, and a
  worked six-line input with its counts.
- `Legacy`: main.go's `fileStats` and `inspectReader`, in the same two layers.
  It also relates the two classification rules.

Some behaviours of the code are easy to miss, and the model keeps each one as
written:

- A read error in the middle of a stream returns at once (stats.go:174-176).
  The line counts of the bytes already scanned were incremented in place
  (stats.go:213-223) and stay so. Nothing is finalized.
- That read error is returned but not stored in `fst.err`. Only a failed open
  stores its error (stats.go:143-145). This conflicts with the comment on
  `InspectFile` (stats.go:139-140), which says that a failing underlying
  function sets the error as well.
- `calculateStats` (stats.go:254-260) stores the maxima without closing a last
  line that has no line break. Such a line is never counted.
- A line that begins outside any comment and holds only `//` is an empty line.
  The slashes are comment punctuation and count as neither code nor comment
  (stats.go:192-210, 242-249).
- The `/` of a closing delimiter becomes `prevByte` (stats.go:251), so it
  also starts the next delimiter. After a closing delimiter, a `*` reopens a
  block comment (stats.go:204-209) and a `/` opens a line comment
  (stats.go:192-197). `//*` opens a line comment, not a block comment, because
  the second `/` already opened the line comment (stats.go:192-197).

## Model

| member | source | states |
|---|---|---|
| Stream.Drain | stats.go:167-182 | the read loop's control flow over the `Read` results: stops at a failed read with its error, ends at zero bytes, and otherwise hands the bytes on and reads again; properties in `DrainBounds`, `DrainBytes` and `DrainChunked` |
| Stream.Prepend | stats.go:167-187 | the bytes scanned before a later chunk come first, and the way the loop ends is unchanged |
| Stream.DrainBounds | stats.go:167-182 | the read loop hands on a prefix of the bytes the calls returned, in order; it ends normally when no call fails; a read error it reports is the error of one of the calls |
| Stream.DrainBytes | stats.go:167-182 | calls that neither fail nor come back empty hand on all their bytes in order, and reading goes on after them |
| Stream.PrependPrepend | stats.go:167-187 | the bytes of successive chunks are concatenated in order |
| Stream.Chunked | stats.go:166-182 | a reader that returns chunks of at most `size` bytes, none of them empty |
| Stream.DrainChunked | stats.go:166-182 | whatever the chunk size, the read loop sees exactly the file's bytes and ends normally |
| Classifier.ModeStep | stats.go:191-251 | `//` opens a line comment and `/*` opens a block comment, each only outside any comment; `*/` closes a block comment; a line break ends a line comment but not a block comment; the previous byte becomes `b`; at most one mode is on (each stated both ways) |
| Classifier.Count | stats.go:187-250 | every byte adds to `lbAll`; `/`, `*`, line break, CR, space and tab add to nothing else; any other byte is a comment byte inside a comment and a code byte outside one |
| Classifier.Max | stats.go:227-229 | the maximum of two counts |
| Classifier.Close | stats.go:212-233 | a finished line adds one line; it adds a code line exactly when it has a code byte, a comment line exactly when it has a comment byte, and an empty line exactly when it has neither; its byte counts go into the sums and maxima; consistency of the totals is kept |
| Classifier.Step | stats.go:187-252 | a line break closes the line and resets its counters; any other byte leaves the totals alone; the scan invariant is kept |
| Classifier.Run | stats.go:187-252 | the byte loop over a byte sequence, one `Step` per byte with all state carried on; properties in `RunValid`, `RunConcat`, `LinesAllCountsBreaks` and `LineLog.Classification` |
| Classifier.RunValid | stats.go:187-252 | any scan from a valid state keeps the invariant: at most one comment mode is on, each category has no more lines than the file, every line is in some category (and is not both empty and non-empty), and every line carries at least its line break |
| Classifier.RunWithoutBreak | stats.go:212-233 | only a line break changes a total |
| Classifier.LinesAllCountsBreaks | stats.go:212-213 | `LinesAll` grows by exactly the number of line breaks scanned |
| Classifier.RunConcat | stats.go:156-187 | scanning two chunks in turn is scanning their concatenation, because all scan state outlives the read loop's iterations |
| Classifier.RunSnoc | stats.go:187-252 | scanning one more byte is one more step |
| Classifier.TrailingLineIgnored | stats.go:212-233 | bytes after the last line break change no count, sum or maximum |
| Classifier.FirstByteOpensNothing | stats.go:163-210 | the zero `prevByte` means the first byte never completes a comment delimiter |
| Classifier.BlankRun | stats.go:235-240 | blank bytes (space, tab, CR, line break) add no code or comment line, and every line they finish is empty |
| Classifier.BlankFile | stats.go:212-240 | a file of blank lines has `LinesCode == 0`, `LinesComment == 0` and `LinesEmpty == LinesAll` |
| LineLog.LineRun | stats.go:187-252 | within a line, `lbAll` grows by one per byte, code plus comment bytes never exceed all bytes, and the comment modes stay exclusive |
| LineLog.IndexOf | stats.go:212 | the position of the first line break |
| LineLog.Tally | stats.go:107-117 | the number of lines of one category is at most the number of lines |
| LineLog.MaxOf | stats.go:227-229 | the maximum of a byte count over lines bounds every line, is taken by one of them, and is 0 when there are no lines |
| LineLog.ExtendCounts | stats.go:213-223 | folding lines in adds one to `LinesAll` per line and one to each category per line of that category |
| LineLog.ExtendSums | stats.go:224-226 | folding lines in adds their byte counts to the sums |
| LineLog.ExtendMaxima | stats.go:227-229 | folding lines in takes their byte counts into the maxima |
| LineLog.ExtendIsSummary | stats.go:212-233 | folding lines into any totals gives those totals plus the summary of the lines |
| LineLog.RunWithinLine | stats.go:187-252 | inside a line the scan moves only the mode and the line counters |
| LineLog.RunByLines | stats.go:187-252 | the byte-at-a-time scan folds exactly the stream's finished lines into the totals |
| LineLog.Classification | stats.go:212-229 | a whole scan's totals are the per-line definitions: `LinesCode` counts the lines with a code byte, `LinesComment` those with a comment byte, and `LinesEmpty` those with neither; the sums and maxima are over the lines' byte counts |
| LineLog.SummaryFromNothing | stats.go:156-164 | folding the lines into the zero totals gives their summary |
| LineLog.TallyPartition | stats.go:221-223 | every line is either empty or has code or comment |
| LineLog.EmptyOrContent | stats.go:212-223 | `LinesEmpty` plus the number of lines with code or comment is `LinesAll` |
| LineLog.LineShape | stats.go:187-233 | a line scanned up to and including its line break has at least one byte, and more bytes than code and comment bytes together |
| LineLog.LinesShape | stats.go:187-233 | every finished line has at least one byte and more bytes than code and comment bytes together |
| Inspection.AddLines | stats.go:213-223 | the line counts are incremented in place from their earlier values, and nothing else changes |
| Inspection.Finalize | stats.go:254-260 | `calculateStats` replaces the maxima (and the sums behind the averages) and keeps the line counts |
| Inspection.ReaderEffect | stats.go:155-262 | the effect of `inspectReader`: the line counts of the bytes handed on are added, the scan is finalized at a normal end, and a read error is returned; properties in `ReaderEffectSpec`, `ReaderEffectCountsBreaks` and `ChunkingInvariance` |
| Inspection.ReaderEffectSpec | stats.go:155-262 | `inspectReader` never stores an error; it returns nil exactly when the stream ends normally, and otherwise returns the read error, in which case nothing is finalized and the sums and maxima keep their earlier values; a fresh file that ends normally holds the consistent totals of the scan of every byte read |
| Inspection.FreshScan | stats.go:254-261 | a scan from the start has consistent totals, and storing them into a fresh file gives them back |
| Inspection.ReaderEffectCountsBreaks | stats.go:167-213 | each line break handed to the byte loop adds one to `LinesAll`, even when a read error follows |
| Inspection.FileEffect | stats.go:141-152 | the effect of `InspectFile`: a failed open stores and returns its error, otherwise the reader is inspected; properties in `FileEffectSpec` and `FreshFileByLines` |
| Inspection.FileEffectSpec | stats.go:141-152 | a failed open stores and returns the same open error and leaves every counter as it was; a readable file keeps its stored error and returns nil exactly when its stream ends normally |
| Inspection.ChunkingInvariance | stats.go:166-182 | reading in chunks of any two sizes (the source's 1024 bytes among them) has the same effect, and no error is returned |
| Inspection.FreshFileByLines | stats.go:155-262 | a new file whose stream ends normally is inspected without error; it holds the summary of its finished lines, every line is empty or has content, and the code and comment maxima are at most the overall maximum |
| Inspection.Outcomes | stats.go:45-46 | one inspection result per file |
| Inspection.OutcomesAt | stats.go:45-46 | the `k`-th result is the `k`-th file's own inspection from its state before the batch, so the files do not affect each other |
| Inspection.Absorb | stats.go:46-58 | one iteration of the batch loop: a file whose inspection returned an error is skipped, otherwise it is counted and its line counts are taken into the sums and maxima; properties in `ReduceParts` |
| Inspection.Reduce | stats.go:45-59 | the accumulators after the first `n` files; properties in `ReducePrefix`, `ReduceParts`, `ValidFilesCounts`, `SumLpfBounds` and `MaxLpfIsMaximum` |
| Inspection.ReducePrefix | stats.go:45-59 | the accumulators after `n` files do not depend on the later files |
| Inspection.ReduceSnoc | stats.go:45-59 | one more file is one more iteration of the batch loop |
| Inspection.ReduceParts | stats.go:40-63 | the nine accumulators are `validFiles` and the per-category sums and maxima over the counted files |
| Inspection.ValidFilesCounts | stats.go:47-50 | `validFiles` is at most the number of files, and it is 0 exactly when every inspection returned an error |
| Inspection.SumLpfBounds | stats.go:51-54 | a sum is 0 when no file counts, and it bounds every counted file's line count |
| Inspection.MaxLpfIsMaximum | stats.go:55-63 | `MaxLpf*` bounds every counted file's count, is taken by one of them, is 0 when none counts, and is at most the sum |
| Stats.Snapshots | stats.go:116-122 | the field values of each file, in order |
| Stats.Paths | stats.go:120 | the path of each file, in order |
| Stats.FileStats.constructor | stats.go:134-136 | `NewFileStats` sets the path; every counter is zero and there is no error |
| Stats.FileStats.Error | stats.go:126-131 | the empty string when no error is stored; otherwise the error's text, which for a failed open is non-empty |
| Stats.FileStats.InspectFile | stats.go:141-152 | the new fields and the returned error are exactly `FileEffect` of the old fields |
| Stats.FileStats.InspectReader | stats.go:155-262 | the read loop and byte loop over the fields give exactly `ReaderEffect` of the old fields |
| Stats.FileStats.ScanBuffer | stats.go:187-252 | the byte loop over one chunk is the scan of that chunk, continued from the state left by earlier chunks |
| Stats.FileStats.ScanByte | stats.go:188-251 | the byte switch moves the locals as `Step` does and increments the line counts in place |
| Stats.InspectAll | stats.go:40-59 | each file ends in the state its own inspection leaves, and the accumulators are the reduction of the results |
| Stats.Visit | stats.go:46-58 | one file is inspected, skipped on an error and otherwise folded into the accumulators |
| Stats.GlobalStats.constructor | stats.go:26-35 | one new, distinct `FileStats` per path, in order, each fresh |
| Stats.GlobalStats.InspectBatch | stats.go:39-68 | every file ends in the state `InspectFile` leaves it in; the maxima, the sums and `validFiles` are the reduction over the files whose inspection returned no error |
| Comments.HasContentSnoc | stats.go:242-249 | one more byte gives the line content exactly when it is neither whitespace nor comment punctuation, or the line already had content |
| Comments.LineRunConcat | stats.go:187-252 | scanning two pieces of a line in turn is scanning their concatenation |
| Comments.OutsideRun | stats.go:242-249 | outside any comment, bytes other than `/`, `*` and the line break open nothing, count no comment byte, and count a code byte exactly when one of them has content |
| Comments.SlashSlash | stats.go:192-197 | `//` outside any comment opens a line comment and counts as neither code nor comment |
| Comments.InLineRun | stats.go:242-249 | inside a line comment, bytes up to the line break count no code byte, and count a comment byte exactly when one of them has content |
| Comments.LineCommentLine | stats.go:192-249 | a line `pre // post`, begun outside any comment, where `pre` holds no `/`, `*` or line break, is a code line exactly when `pre` has content, and a comment line exactly when `post` has content |
| Comments.SlashesOnlyIsEmpty | stats.go:192-223 | a line holding only `//` is an empty line |
| Comments.CodeThenComment | stats.go:217-220 | code before `//` (holding no `/`, `*` or line break) and a comment after it make the line both a code line and a comment line |
| Comments.InBlockRun | stats.go:198-249 | inside a block comment, bytes without a closing delimiter stay in it, count no code byte, and count a comment byte exactly when one of them has content |
| Comments.BlockCommentLine | stats.go:198-249 | a line inside a block comment with no closing delimiter has no code byte, is a comment line exactly when it has content, and leaves the block comment open for the next line |
| Comments.SlashStar | stats.go:204-209 | the opening delimiter outside any comment, not right after a `/`, opens a block comment and counts as neither code nor comment |
| Comments.StarSlash | stats.go:198-201 | the closing delimiter inside a block comment ends it, counts as nothing, and leaves its `/` as the previous byte |
| Comments.SlashSlashStar | stats.go:192-209 | `//*` opens a line comment and no block comment |
| Comments.OpeningLine | stats.go:192-249 | the line that opens a block comment, begun outside any comment, with code `pre` (holding no `/`, `*` or line break, and not ending in `/` before the delimiter) and comment text `body` (without a closing delimiter), is a code line exactly when `pre` has content and a comment line exactly when `body` has content; the block comment stays open |
| Comments.ClosingLine | stats.go:192-249 | the line that closes a block comment, with comment text `body` (without a closing delimiter) and code `post` (holding no `/`, `*` or line break), is a code line exactly when `post` has content and a comment line exactly when `body` has content; the line ends outside any comment |
| Comments.CloserSlashIsShared | stats.go:192-251 | the `/` of a closing delimiter also starts the next delimiter: a `*` after it reopens a block comment, a `/` after it opens a line comment |
| Comments.SampleRun | stats.go:187-252 | scanning the pieces of the worked input in turn, from the zero state, ends with six lines: two code lines, three comment lines, one empty line, and the sums and maxima of their byte counts |
| Comments.SampleTotals | stats.go:212-223 | `a=1`, `// comment`, an empty line, a two-line block comment and `b=2` give six lines: two code lines, three comment lines and one empty line |
| Legacy.CloseLine | main.go:135-151 | main.go's rule for a finished line: one more line, a code line when it has a code byte, a comment line when it has a comment byte and an empty line otherwise, and its byte count appended; properties in `LExtendCounts` and `AgreesWithStats` |
| Legacy.LStep | main.go:110-170 | one iteration of main.go's byte loop, moving the mode and the line counters as stats.go does and closing a line by `CloseLine`; properties in `LStepValid` |
| Legacy.LRun | main.go:110-170 | main.go's byte loop over a byte sequence; properties in `LRunValid`, `LRunConcat` and `LRunByLines` |
| Legacy.LStepValid | main.go:110-170 | a step keeps the record sound; a line break adds one line and one `bytesPerLine` entry of the line's byte count, resets the line and the line comment but not the block comment; other bytes record nothing |
| Legacy.LRunValid | main.go:110-170 | any scan keeps the record sound: comment plus empty lines equal all lines, there are no more code lines than lines, and there is one entry of at least one byte per line |
| Legacy.LRunConcat | main.go:78-110 | scanning two chunks in turn is scanning their concatenation |
| Legacy.LRunSnoc | main.go:110-170 | scanning one more byte is one more step |
| Legacy.LRunWithoutBreak | main.go:135-151 | bytes without a line break record nothing |
| Legacy.LTrailingLineIgnored | main.go:135-151 | a trailing line without a line break is neither counted nor listed in `bytesPerLine` |
| Legacy.AllOf | main.go:147 | one byte count per line |
| Legacy.LExtendCounts | main.go:135-147 | folding lines in adds one line each, a code line per line with code, a comment line per line with a comment byte, an empty line per line without one, and appends their byte counts |
| Legacy.LRunWithinLine | main.go:110-170 | inside a line the scan moves only the mode and the line counters |
| Legacy.LRunByLines | main.go:110-170 | the scan records exactly the stream's finished lines |
| Legacy.LegacyByLines | main.go:135-147 | main.go's counts of a whole scan are the per-line definitions, and `bytesPerLine` is the lines' byte counts in order |
| Legacy.EmptyNotComment | main.go:141-145 | no line is both empty and a comment line |
| Legacy.AgreesWithStats | main.go:135-147 | the two versions agree on all, code and comment lines; main.go's empty lines are the lines without a comment byte, never fewer than stats.go's |
| Legacy.LegacyBlankFile | main.go:135-145 | a file of blank lines has no code or comment line, and all its lines are empty |
| Legacy.LegacyEffect | main.go:77-173 | the effect of main.go's `inspectReader`: the record of the bytes handed on is added whether or not the stream ends normally, the read error is returned, and `bytesPerLine` is the list the loop built; properties in `LegacyEffectSpec` and `LegacyChunkingInvariance` |
| Legacy.LegacyEffectSpec | main.go:77-173 | nil is returned exactly when the stream ends normally, otherwise the read error; only the four line counts change; each added line has one entry of at least one byte, is a comment or an empty line, and adds at most one code line |
| Legacy.FreshRecord | main.go:78-87 | a scan from the zero state leaves a sound record |
| Legacy.InitValid | main.go:78-87 | the zero scan state is valid |
| Legacy.LegacyCountsBreaks | main.go:135-136 | each line break handed to the byte loop adds one to `Lines`, even when a read error follows |
| Legacy.LinesCountBreaks | main.go:135-136 | `Lines` grows by exactly the number of line breaks scanned |
| Legacy.LegacyChunkingInvariance | main.go:89-105 | reading in chunks of any two sizes has the same effect, and no error is returned |
| Legacy.FileStats.constructor | main.go:54 | the zero value of `fileStats` |
| Legacy.FileStats.InspectReader | main.go:77-173 | the new fields, the returned error and `bytesPerLine` are exactly `LegacyEffect` of the old fields |
| Legacy.FileStats.ScanBuffer | main.go:110-170 | the byte loop over one chunk is the scan of that chunk, continued from the state left by earlier chunks |
| Legacy.FileStats.ScanByte | main.go:111-169 | the byte switch moves the locals as `LStep` does, increments the counts in place and appends the line's byte count |

## Left out

- The averages `AvgBpl*` and `AvgLpf*` are Go `float64` divisions. The model keeps their integer numerators (`SumBpl*`, `SumLpf*`) and denominators (`LinesAll`, `ValidFiles`) instead. So the division by zero when a file has no lines, or when no file counts, is not modelled.
- Go's `int` is modelled as an unbounded `nat`; overflow is not modelled.
- `os.Open`, `bufio.Reader` and `defer f.Close()` are not modelled as I/O. A file system is a map from paths to readers. A reader is the finite sequence of results its `Read` calls return. The error text of a missing path is a fixed string.
- `Stream.Chunked` bounds the chunk length by its parameter, but `Drain` accepts any chunk length. The 1024-byte buffer bound of a real `Read` is therefore not enforced; the chunking lemmas show that the bound affects nothing.
- `PrintGlobalStats`, `DumpStatDetailsAsTsv`, `fileStats.String` and `log.Printf` are output only, and are not modelled.
- main.go's `main` and `inspectFile` are not modelled. They parse the flags, open the file, and print the record.
- The byte counter `i` of both `inspectReader` functions is never read, and it is not modelled.
- Stats.FileStats.ScanBuffer, Stats.FileStats.ScanByte, Stats.InspectAll and Stats.Visit are separate methods for the bodies of the source's inner loops. Each one groups the loop's locals into values (`Mode`, `LineCount`, `PerLine`, `Batch`).
- Legacy.FileStats.InspectReader returns `bytesPerLine` as an out-parameter. In the source it is a local that is built and then dropped.
- `LineBytesAvg` and `LineBytesMax` of main.go's `fileStats` are never written by the source, and the model keeps them unchanged.
- Stats.GlobalStats.files is a `const` field, because nothing in the source reassigns the slice after construction.
- Stats.FileStats.Path is a `const` field. In Go, `Path` is an exported field that any code may reassign, but nothing in the modelled code does so after `NewFileStats`.
