/** What `FileStats.inspectReader`, `FileStats.InspectFile` and
    `GlobalStats.InspectBatch` (stats.go) do to a file's statistics and to
    the batch, as pure functions. The methods of module `Stats` are proved
    to have exactly these effects.
 */
module Inspection {
  import opened Stream
  import opened Classifier
  import opened LineLog

  datatype Option<T> = None | Some(value: T)

  /** The two error values the core produces: the failed open (an
      `*os.PathError` whose operation is "open"), and the error a `Read`
      call returned. */
  datatype Error = OpenFailed(path: string, reason: string) | ReadFailed(reason: string)

  /** The text of an error, as `err.Error()` renders it. */
  function ErrorText(e: Error): string
  {
    match e
    case OpenFailed(path, reason) => "open " + path + ": " + reason
    case ReadFailed(reason) => reason
  }

  /** What opening a path yields: a reader, or the reason the open failed. */
  datatype Opening = Readable(calls: seq<Read>) | Unreadable(reason: string)

  /** The file system the core reads from, as far as it matters here. */
  type FileSystem = map<string, Opening>

  function Open(fs: FileSystem, path: string): Opening
  {
    if path in fs then fs[path] else Unreadable("no such file or directory")
  }

  /** The integer fields of one `FileStats` and its stored error. The sums
      `sum*` stand for the averages `AvgBpl*`, which are those sums divided by
      `LinesAll`. */
  datatype FileState = FileState(counts: Totals, err: Option<Error>)

  /** A `FileStats` as `NewFileStats` creates it. */
  const Fresh: FileState := FileState(NoTotals, None)

  /** The statistics `inspectReader` leaves after the line loop has scanned
      `t`: the line counts are incremented in place from their earlier
      values. */
  function AddLines(f: Totals, t: Totals): (r: Totals)
    ensures r.linesAll == f.linesAll + t.linesAll && r.linesCode == f.linesCode + t.linesCode
    ensures r.linesComment == f.linesComment + t.linesComment && r.linesEmpty == f.linesEmpty + t.linesEmpty
    ensures r.sumAll == f.sumAll && r.sumCode == f.sumCode && r.sumComment == f.sumComment
    ensures r.maxAll == f.maxAll && r.maxCode == f.maxCode && r.maxComment == f.maxComment
  {
    f.(linesAll := f.linesAll + t.linesAll, linesCode := f.linesCode + t.linesCode,
       linesComment := f.linesComment + t.linesComment, linesEmpty := f.linesEmpty + t.linesEmpty)
  }

  /** The `calculateStats` step: the maxima (and the sums behind the averages)
      of the scan are stored, replacing earlier values. */
  function Finalize(f: Totals, t: Totals): (r: Totals)
    ensures r.linesAll == f.linesAll && r.linesCode == f.linesCode
    ensures r.linesComment == f.linesComment && r.linesEmpty == f.linesEmpty
    ensures r.sumAll == t.sumAll && r.sumCode == t.sumCode && r.sumComment == t.sumComment
    ensures r.maxAll == t.maxAll && r.maxCode == t.maxCode && r.maxComment == t.maxComment
  {
    f.(sumAll := t.sumAll, sumCode := t.sumCode, sumComment := t.sumComment,
       maxAll := t.maxAll, maxCode := t.maxCode, maxComment := t.maxComment)
  }

  /** The effect of `inspectReader` on a file's state, and the error it
      returns. At the end of the stream the scan is finalized; at a read
      error the line counts of the bytes scanned so far stay added, nothing
      is finalized, and the error is returned without being stored. */
  function ReaderEffect(st: FileState, calls: seq<Read>): (FileState, Option<Error>)
  {
    var o := Drain(calls);
    var t := Run(Init, o.bytes).totals;
    if o.Finished? then
      (st.(counts := Finalize(AddLines(st.counts, t), t)), None)
    else
      (st.(counts := AddLines(st.counts, t)), Some(ReadFailed(o.reason)))
  }

  /** `inspectReader` never stores an error; it returns nil exactly when the
      stream ends normally and otherwise the read error, in which case
      nothing is finalized: the sums and maxima keep their earlier values.
      A fresh file that ends normally holds the totals of the scan of all
      bytes read, which are consistent. */
  lemma ReaderEffectSpec(st: FileState, calls: seq<Read>)
    ensures var r := ReaderEffect(st, calls);
            && r.0.err == st.err
            && (r.1.None? <==> Drain(calls).Finished?)
            && (Drain(calls).Broken? ==> r.1 == Some(ReadFailed(Drain(calls).reason)))
            && (Drain(calls).Broken? ==>
                  r.0.counts.sumAll == st.counts.sumAll && r.0.counts.sumCode == st.counts.sumCode
                  && r.0.counts.sumComment == st.counts.sumComment
                  && r.0.counts.maxAll == st.counts.maxAll && r.0.counts.maxCode == st.counts.maxCode
                  && r.0.counts.maxComment == st.counts.maxComment)
            && (st.counts == NoTotals && r.1.None?
                ==> r.0.counts == Run(Init, Drain(calls).bytes).totals && Consistent(r.0.counts))
  {
    FreshScan(Drain(calls).bytes);
  }

  /** A scan from the initial state yields consistent totals, and storing
      them into a fresh file gives back exactly those totals. */
  lemma FreshScan(bytes: seq<byte>)
    ensures Consistent(Run(Init, bytes).totals)
    ensures Finalize(AddLines(NoTotals, Run(Init, bytes).totals), Run(Init, bytes).totals) == Run(Init, bytes).totals
  {
    assert Valid(Init);
    RunValid(Init, bytes);
  }

  /** Every line break the read loop hands to the byte loop adds one line to
      `LinesAll`, whether or not the stream ends normally. */
  lemma ReaderEffectCountsBreaks(st: FileState, calls: seq<Read>)
    ensures ReaderEffect(st, calls).0.counts.linesAll
         == st.counts.linesAll + multiset(Drain(calls).bytes)[Newline]
  {
    LinesAllCountsBreaks(Init, Drain(calls).bytes);
  }

  lemma ReaderEffectFinished(st: FileState, calls: seq<Read>, bytes: seq<byte>)
    requires Drain(calls) == Finished(bytes)
    ensures var t := Run(Init, bytes).totals;
            ReaderEffect(st, calls) == (st.(counts := Finalize(AddLines(st.counts, t), t)), None)
  {
  }

  lemma ReaderEffectBroken(st: FileState, calls: seq<Read>, bytes: seq<byte>, why: string)
    requires Drain(calls) == Broken(bytes, why)
    ensures var t := Run(Init, bytes).totals;
            ReaderEffect(st, calls) == (st.(counts := AddLines(st.counts, t)), Some(ReadFailed(why)))
  {
  }

  /** The effect of `InspectFile`: a failed open stores and returns the open
      error and leaves every counter as it was; otherwise the file is
      scanned. */
  function FileEffect(st: FileState, path: string, fs: FileSystem): (FileState, Option<Error>)
  {
    match Open(fs, path)
    case Unreadable(why) =>
      var e := OpenFailed(path, why);
      (st.(err := Some(e)), Some(e))
    case Readable(calls) => ReaderEffect(st, calls)
  }

  /** A failed open stores the open error, returns that same error and
      leaves every counter as it was; a readable file keeps its stored
      error and returns nil exactly when its stream ends normally; a fresh
      file inspected without error holds the consistent totals of its scan. */
  lemma FileEffectSpec(st: FileState, path: string, fs: FileSystem)
    ensures var r := FileEffect(st, path, fs);
            && (Open(fs, path).Unreadable? ==>
                  r.0.counts == st.counts && r.1 == r.0.err
                  && r.0.err == Some(OpenFailed(path, Open(fs, path).reason)))
            && (Open(fs, path).Readable? ==>
                  r.0.err == st.err && (r.1.None? <==> Drain(Open(fs, path).calls).Finished?))
            && (st.counts == NoTotals && r.1.None?
                ==> r.0.counts == Run(Init, Drain(Open(fs, path).calls).bytes).totals
                    && Consistent(r.0.counts))
  {
    if Open(fs, path).Readable? {
      ReaderEffectSpec(st, Open(fs, path).calls);
    }
  }

  /** However a reader chunks a stream, inspecting it has the same effect:
      any two chunk sizes agree, the source's `ChunkSize` among them. */
  lemma ChunkingInvariance(st: FileState, bytes: seq<byte>, s1: nat, s2: nat)
    requires s1 > 0 && s2 > 0
    ensures ReaderEffect(st, Chunked(bytes, s1)) == ReaderEffect(st, Chunked(bytes, s2))
    ensures ReaderEffect(st, Chunked(bytes, s1)).1 == None
  {
    DrainChunked(bytes, s1);
    DrainChunked(bytes, s2);
    ReaderEffectSpec(st, Chunked(bytes, s1));
  }

  /** A freshly created file that scans without error holds the summary of
      its finished lines: every line is empty or has code or comment, and the
      maxima of code and comment bytes never exceed that of all bytes. */
  lemma FreshFileByLines(path: string, fs: FileSystem)
    requires Open(fs, path).Readable? && Drain(Open(fs, path).calls).Finished?
    ensures FileEffect(Fresh, path, fs).1.None?
    ensures var t := FileEffect(Fresh, path, fs).0.counts;
            var recs := Lines(Start, NoBytes, Drain(Open(fs, path).calls).bytes);
            t == Summary(recs) && t.linesEmpty + Tally(recs, ContentLine) == t.linesAll
            && t.maxCode <= t.maxAll && t.maxComment <= t.maxAll
  {
    FileEffectSpec(Fresh, path, fs);
    var bytes := Drain(Open(fs, path).calls).bytes;
    Classification(bytes);
    EmptyOrContent(bytes);
  }

  // The batch fold.

  /** The four line counts a batch takes maxima and sums of. */
  datatype LineClass = AllLines | CodeLines | CommentLines | EmptyLines

  function LinesOf(t: Totals, k: LineClass): nat
  {
    match k
    case AllLines => t.linesAll
    case CodeLines => t.linesCode
    case CommentLines => t.linesComment
    case EmptyLines => t.linesEmpty
  }

  /** A file takes part in the batch reductions when `InspectFile`
      returned no error. */
  predicate Counted(o: (FileState, Option<Error>))
  {
    o.1.None?
  }

  /** The per-file results of `InspectFile`, in order, for files whose
      states before the batch were `states` and whose paths are `paths`. */
  function Outcomes(states: seq<FileState>, paths: seq<string>, fs: FileSystem)
    : (outs: seq<(FileState, Option<Error>)>)
    requires |states| == |paths|
    ensures |outs| == |states|
    decreases |states|
  {
    if |states| == 0 then []
    else
      var n := |states| - 1;
      Outcomes(states[..n], paths[..n], fs) + [FileEffect(states[n], paths[n], fs)]
  }

  /** The `k`-th result is the effect of inspecting the `k`-th file from
      its state before the batch: the files do not affect one another. */
  lemma {:induction false} OutcomesAt(states: seq<FileState>, paths: seq<string>, fs: FileSystem)
    requires |states| == |paths|
    ensures forall k :: 0 <= k < |states| ==>
              Outcomes(states, paths, fs)[k] == FileEffect(states[k], paths[k], fs)
    decreases |states|
  {
    if |states| > 0 {
      var n := |states| - 1;
      OutcomesAt(states[..n], paths[..n], fs);
    }
  }

  /** `validFiles` after the first `n` files: the number of them counted. */
  function ValidFiles(outs: seq<(FileState, Option<Error>)>, n: nat): nat
    requires n <= |outs|
  {
    if n == 0 then 0 else ValidFiles(outs, n - 1) + (if Counted(outs[n - 1]) then 1 else 0)
  }

  /** `sum*` after the first `n` files: the sum of a line count over those
      of them counted. */
  function SumLpf(outs: seq<(FileState, Option<Error>)>, n: nat, k: LineClass): nat
    requires n <= |outs|
  {
    if n == 0 then 0
    else SumLpf(outs, n - 1, k) + (if Counted(outs[n - 1]) then LinesOf(outs[n - 1].0.counts, k) else 0)
  }

  /** `max*` after the first `n` files: the running maximum of a line count
      over those of them counted, starting from 0. */
  function MaxLpf(outs: seq<(FileState, Option<Error>)>, n: nat, k: LineClass): nat
    requires n <= |outs|
  {
    if n == 0 then 0
    else if Counted(outs[n - 1]) then Max(MaxLpf(outs, n - 1, k), LinesOf(outs[n - 1].0.counts, k))
    else MaxLpf(outs, n - 1, k)
  }

  /** The nine accumulators of `InspectBatch`. */
  datatype Batch = Batch(validFiles: nat,
                         sumAll: nat, sumCode: nat, sumComment: nat, sumEmpty: nat,
                         maxAll: nat, maxCode: nat, maxComment: nat, maxEmpty: nat)

  /** One iteration of the batch loop: a file whose inspection returned an
      error is skipped; otherwise it is counted and its line counts are
      added to the sums and taken into the maxima. */
  function Absorb(acc: Batch, o: (FileState, Option<Error>)): Batch
  {
    if !Counted(o) then acc
    else
      var t := o.0.counts;
      Batch(acc.validFiles + 1,
            acc.sumAll + t.linesAll, acc.sumCode + t.linesCode,
            acc.sumComment + t.linesComment, acc.sumEmpty + t.linesEmpty,
            Max(acc.maxAll, t.linesAll), Max(acc.maxCode, t.linesCode),
            Max(acc.maxComment, t.linesComment), Max(acc.maxEmpty, t.linesEmpty))
  }

  /** The accumulators after the first `n` files. */
  function Reduce(outs: seq<(FileState, Option<Error>)>, n: nat): Batch
    requires n <= |outs|
  {
    if n == 0 then Batch(0, 0, 0, 0, 0, 0, 0, 0, 0) else Absorb(Reduce(outs, n - 1), outs[n - 1])
  }

  /** The accumulators after the first `n` files do not depend on the
      files after them. */
  lemma {:induction false} ReducePrefix(outs: seq<(FileState, Option<Error>)>, more: seq<(FileState, Option<Error>)>, n: nat)
    requires n <= |outs|
    ensures Reduce(outs + more, n) == Reduce(outs, n)
  {
    if n > 0 {
      ReducePrefix(outs, more, n - 1);
      assert (outs + more)[n - 1] == outs[n - 1];
    }
  }

  /** One more file is one more iteration of the batch loop. */
  lemma ReduceSnoc(outs: seq<(FileState, Option<Error>)>, o: (FileState, Option<Error>))
    ensures Reduce(outs + [o], |outs| + 1) == Absorb(Reduce(outs, |outs|), o)
  {
    ReducePrefix(outs, [o], |outs|);
    assert (outs + [o])[|outs|] == o;
  }

  /** The accumulators are the per-class reductions. */
  lemma {:induction false} ReduceParts(outs: seq<(FileState, Option<Error>)>, n: nat)
    requires n <= |outs|
    ensures Reduce(outs, n)
         == Batch(ValidFiles(outs, n),
                  SumLpf(outs, n, AllLines), SumLpf(outs, n, CodeLines),
                  SumLpf(outs, n, CommentLines), SumLpf(outs, n, EmptyLines),
                  MaxLpf(outs, n, AllLines), MaxLpf(outs, n, CodeLines),
                  MaxLpf(outs, n, CommentLines), MaxLpf(outs, n, EmptyLines))
  {
    if n > 0 {
      ReduceParts(outs, n - 1);
    }
  }

  /** At most every file is counted, and none is exactly when every
      inspection returned an error. */
  lemma {:induction false} ValidFilesCounts(outs: seq<(FileState, Option<Error>)>, n: nat)
    requires n <= |outs|
    ensures ValidFiles(outs, n) <= n
    ensures ValidFiles(outs, n) == 0 <==> forall i :: 0 <= i < n ==> !Counted(outs[i])
  {
    if n > 0 {
      ValidFilesCounts(outs, n - 1);
    }
  }

  /** The sum is 0 when no file is counted and bounds the line count of
      every counted file. */
  lemma {:induction false} SumLpfBounds(outs: seq<(FileState, Option<Error>)>, n: nat, k: LineClass)
    requires n <= |outs|
    ensures ValidFiles(outs, n) == 0 ==> SumLpf(outs, n, k) == 0
    ensures forall i :: 0 <= i < n && Counted(outs[i]) ==> LinesOf(outs[i].0.counts, k) <= SumLpf(outs, n, k)
  {
    if n > 0 {
      SumLpfBounds(outs, n - 1, k);
    }
  }

  /** `Max*` is the largest line count of a counted file: it bounds every
      counted file's count, is attained by one of them, is 0 when no file
      is counted, and never exceeds the sum. */
  lemma {:induction false} MaxLpfIsMaximum(outs: seq<(FileState, Option<Error>)>, n: nat, k: LineClass)
    requires n <= |outs|
    ensures forall i :: 0 <= i < n && Counted(outs[i]) ==> LinesOf(outs[i].0.counts, k) <= MaxLpf(outs, n, k)
    ensures ValidFiles(outs, n) == 0 ==> MaxLpf(outs, n, k) == 0
    ensures ValidFiles(outs, n) > 0 ==>
              exists i :: 0 <= i < n && Counted(outs[i]) && LinesOf(outs[i].0.counts, k) == MaxLpf(outs, n, k)
    ensures MaxLpf(outs, n, k) <= SumLpf(outs, n, k)
  {
    if n > 0 {
      MaxLpfIsMaximum(outs, n - 1, k);
      ValidFilesCounts(outs, n - 1);
    }
  }
}
