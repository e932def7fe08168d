/** The objects of stats.go: `FileStats`, whose `inspectReader` runs the
    classifier over a reader and writes the results into its fields, and
    `GlobalStats`, whose `InspectBatch` inspects every file and reduces the
    results. Each method is proved to have the effect module `Inspection`
    gives it.
 */
module Stats {
  import opened Stream
  import opened Classifier
  import opened Inspection

  /** A sum or a maximum of bytes per line over the finished lines, for all
      bytes, code bytes and comment bytes: the local `sumBpl*` and
      `maxBpl*` variables of the byte loop. */
  datatype PerLine = PerLine(all: nat, code: nat, comment: nat)

  const NoPerLine: PerLine := PerLine(0, 0, 0)

  class FileStats {
    var LinesAll: nat
    var LinesCode: nat
    var LinesComment: nat
    var LinesEmpty: nat
    var MaxBplAll: nat
    var MaxBplCode: nat
    var MaxBplComment: nat
    /** The numerators of `AvgBplAll`, `AvgBplCode` and `AvgBplComment`,
        whose common denominator is `LinesAll`. */
    var SumBplAll: nat
    var SumBplCode: nat
    var SumBplComment: nat
    const Path: string
    var err: Option<Error>

    /** The fields as a value. */
    ghost function Snapshot(): FileState
      reads this
    {
      FileState(Totals(LinesAll, LinesCode, LinesComment, LinesEmpty,
                       SumBplAll, SumBplCode, SumBplComment,
                       MaxBplAll, MaxBplCode, MaxBplComment), err)
    }

    /** `NewFileStats`: only the path is set. */
    constructor (path: string)
      ensures Path == path && Snapshot() == Fresh
    {
      LinesAll, LinesCode, LinesComment, LinesEmpty := 0, 0, 0, 0;
      MaxBplAll, MaxBplCode, MaxBplComment := 0, 0, 0;
      SumBplAll, SumBplCode, SumBplComment := 0, 0, 0;
      Path := path;
      err := None;
    }

    /** `Error()`: the empty string when no error was stored. */
    function Error(): (s: string)
      reads this
      ensures err.None? ==> s == ""
      ensures err.Some? && err.value.OpenFailed? ==>
                s == "open " + err.value.path + ": " + err.value.reason && s != ""
    {
      if err.None? then "" else ErrorText(err.value)
    }

    /** `InspectFile`: a path that cannot be opened stores and returns the
        open error; otherwise the file's reader is inspected. */
    method InspectFile(fs: FileSystem) returns (e: Option<Error>)
      modifies this
      ensures (Snapshot(), e) == FileEffect(old(Snapshot()), Path, fs)
    {
      var opening := Open(fs, Path);
      if opening.Unreadable? {
        err := Some(OpenFailed(Path, opening.reason));
        return err;
      }
      e := InspectReader(opening.calls);
    }

    /** `inspectReader`: reads chunk after chunk, runs the byte loop over
        each byte with all scan state kept across chunks, and at the end of
        the stream stores the maxima and sums; a read error is returned at
        once, leaving the line counts incremented so far. */
    method InspectReader(calls: seq<Read>) returns (e: Option<Error>)
      modifies this
      ensures (Snapshot(), e) == ReaderEffect(old(Snapshot()), calls)
    {
      var mode := Start;
      var line, sums, maxes := NoBytes, NoPerLine, NoPerLine;
      ghost var seen: seq<byte> := [];
      ghost var cur := Init;
      ghost var l0 := old(Snapshot()).counts;

      var i := 0;
      while i < |calls|
        invariant i <= |calls|
        invariant Drain(calls) == Prepend(seen, Drain(calls[i..]))
        invariant cur == Run(Init, seen)
        invariant Mirrors(cur, mode, line, sums, maxes)
        invariant Snapshot() == old(Snapshot()).(counts := AddLines(l0, cur.totals))
      {
        var read := calls[i];
        DrainFrom(calls, i);
        if read.status.Failed? {
          e := Some(ReadFailed(read.status.reason));
          assert Drain(calls) == Broken(seen, read.status.reason);
          ReaderEffectBroken(old(Snapshot()), calls, seen, read.status.reason);
          assert (Snapshot(), e) == ReaderEffect(old(Snapshot()), calls);
          return;
        }
        if |read.data| == 0 {
          break;
        }
        var buffer := read.data;
        mode, line, sums, maxes := ScanBuffer(buffer, mode, line, sums, maxes, cur, l0);
        RunConcat(Init, seen, buffer);
        PrependPrepend(seen, buffer, Drain(calls[i + 1..]));
        seen, cur := seen + buffer, Run(cur, buffer);
        i := i + 1;
      }
      // calculateStats
      ghost var lines := Snapshot().counts;
      assert lines == AddLines(l0, cur.totals);
      MaxBplAll, MaxBplCode, MaxBplComment := maxes.all, maxes.code, maxes.comment;
      SumBplAll, SumBplCode, SumBplComment := sums.all, sums.code, sums.comment;
      e := None;
      assert Snapshot() == old(Snapshot()).(counts := Finalize(lines, cur.totals));
      assert Drain(calls) == Finished(seen);
      ReaderEffectFinished(old(Snapshot()), calls, seen);
    }

    /** The byte loop of `inspectReader` over one chunk: it runs the scan of
        the chunk's bytes from the scan state left by the previous chunks. */
    method ScanBuffer(buffer: seq<byte>, mode: Mode, line: LineCount, sums: PerLine, maxes: PerLine,
                      ghost s: Scan, ghost l0: Totals)
      returns (mode': Mode, line': LineCount, sums': PerLine, maxes': PerLine)
      requires Mirrors(s, mode, line, sums, maxes)
      requires Snapshot().counts == AddLines(l0, s.totals)
      modifies this
      ensures Mirrors(Run(s, buffer), mode', line', sums', maxes')
      ensures Snapshot() == old(Snapshot()).(counts := AddLines(l0, Run(s, buffer).totals))
    {
      mode', line', sums', maxes' := mode, line, sums, maxes;
      ghost var cur := s;
      var j := 0;
      while j < |buffer|
        invariant j <= |buffer|
        invariant cur == Run(s, buffer[..j])
        invariant Mirrors(cur, mode', line', sums', maxes')
        invariant Snapshot() == old(Snapshot()).(counts := AddLines(l0, cur.totals))
      {
        var b := buffer[j];
        RunSnoc(s, buffer[..j], b);
        assert buffer[..j + 1] == buffer[..j] + [b];
        mode', line', sums', maxes' := ScanByte(b, mode', line', sums', maxes', cur, l0);
        cur := Step(cur, b);
        j := j + 1;
      }
      assert buffer[..j] == buffer;
    }

    /** One iteration of the byte loop of `inspectReader`, whose scan state
        is the comment mode, the counters of the current line, and the sums
        and maxima of the finished lines. It moves that state as `Step`
        does and increments the line counts of the file in place. */
    method ScanByte(b: byte, mode: Mode, line: LineCount, sums: PerLine, maxes: PerLine,
                    ghost s: Scan, ghost l0: Totals)
      returns (mode': Mode, line': LineCount, sums': PerLine, maxes': PerLine)
      requires Mirrors(s, mode, line, sums, maxes)
      requires Snapshot().counts == AddLines(l0, s.totals)
      modifies this
      ensures Mirrors(Step(s, b), mode', line', sums', maxes')
      ensures Snapshot() == old(Snapshot()).(counts := AddLines(l0, Step(s, b).totals))
    {
      var inBlockComment, inLineComment, prevByte := mode.inBlockComment, mode.inLineComment, mode.prevByte;
      var lbAll, lbCode, lbComment := line.all, line.code, line.comment;
      var sumAll, sumCode, sumComment := sums.all, sums.code, sums.comment;
      var maxAll, maxCode, maxComment := maxes.all, maxes.code, maxes.comment;
      lbAll := lbAll + 1;
      if b == Slash {
        if prevByte == Slash {
          if !inBlockComment && !inLineComment {
            inLineComment := true;
          }
        } else if prevByte == Star {
          if inBlockComment {
            inBlockComment := false;
          }
        }
      } else if b == Star {
        if prevByte == Slash {
          if !inBlockComment && !inLineComment {
            inBlockComment := true;
          }
        }
      } else if b == Newline {
        LinesAll := LinesAll + 1;
        if lbCode > 0 {
          LinesCode := LinesCode + 1;
        }
        if lbComment > 0 {
          LinesComment := LinesComment + 1;
        }
        if lbCode == 0 && lbComment == 0 {
          LinesEmpty := LinesEmpty + 1;
        }
        sumAll, sumCode, sumComment := sumAll + lbAll, sumCode + lbCode, sumComment + lbComment;
        maxAll, maxCode, maxComment := Max(maxAll, lbAll), Max(maxCode, lbCode), Max(maxComment, lbComment);
        lbAll, lbCode, lbComment := 0, 0, 0;
        inLineComment := false;
      } else if b == Return || b == Space || b == Tab {
      } else if inBlockComment || inLineComment {
        lbComment := lbComment + 1;
      } else {
        lbCode := lbCode + 1;
      }
      prevByte := b;
      mode', line' := Mode(inBlockComment, inLineComment, prevByte), LineCount(lbAll, lbCode, lbComment);
      sums', maxes' := PerLine(sumAll, sumCode, sumComment), PerLine(maxAll, maxCode, maxComment);
    }
  }

  /** The local state of the byte loop is that of scan `s`: its mode, its
      line counters, and the sums and maxima of its totals. */
  ghost predicate Mirrors(s: Scan, mode: Mode, line: LineCount, sums: PerLine, maxes: PerLine)
  {
    && s.mode == mode && s.line == line
    && sums == PerLine(s.totals.sumAll, s.totals.sumCode, s.totals.sumComment)
    && maxes == PerLine(s.totals.maxAll, s.totals.maxCode, s.totals.maxComment)
  }

  /** The fields of a sequence of files, as values. */
  ghost function Snapshots(files: seq<FileStats>): (r: seq<FileState>)
    reads files
    ensures |r| == |files| && forall k :: 0 <= k < |files| ==> r[k] == files[k].Snapshot()
  {
    seq(|files|, k reads files requires 0 <= k < |files| => files[k].Snapshot())
  }

  function Paths(files: seq<FileStats>): (r: seq<string>)
    ensures |r| == |files| && forall k :: 0 <= k < |files| ==> r[k] == files[k].Path
  {
    seq(|files|, k requires 0 <= k < |files| => files[k].Path)
  }

  /** The loop of `InspectBatch`: inspects the files in order and returns
      the accumulators; each file ends in the state its own inspection
      leaves, whatever the other files hold. */
  method InspectAll(files: seq<FileStats>, fs: FileSystem) returns (acc: Batch)
    requires forall i, j :: 0 <= i < j < |files| ==> files[i] != files[j]
    modifies files
    ensures var outs := Outcomes(old(Snapshots(files)), Paths(files), fs);
            && (forall k {:trigger files[k].Snapshot()} :: 0 <= k < |files| ==> files[k].Snapshot() == outs[k].0)
            && acc == Reduce(outs, |outs|)
  {
    ghost var states, paths := Snapshots(files), Paths(files);
    ghost var outs: seq<(FileState, Option<Error>)> := [];
    acc := Batch(0, 0, 0, 0, 0, 0, 0, 0, 0);
    var i := 0;
    while i < |files|
      invariant i <= |files|
      invariant outs == Outcomes(states[..i], paths[..i], fs)
      invariant forall k {:trigger files[k].Snapshot()} :: 0 <= k < |files| ==> files[k].Snapshot() == if k < i then outs[k].0 else states[k]
      invariant acc == Reduce(outs, |outs|)
    {
      ghost var o;
      acc, o := Visit(files[i], fs, acc);
      ReduceSnoc(outs, o);
      assert states[..i + 1][..i] == states[..i] && paths[..i + 1][..i] == paths[..i];
      outs := outs + [o];
      i := i + 1;
    }
    assert states[..i] == states && paths[..i] == paths;
  }

  /** One iteration of the batch loop: inspects the file, skips it when
      the inspection returned an error, and otherwise counts it and takes
      its line counts into the sums and maxima. */
  method Visit(fst: FileStats, fs: FileSystem, acc: Batch) returns (acc': Batch, ghost o: (FileState, Option<Error>))
    modifies fst
    ensures o == FileEffect(old(fst.Snapshot()), fst.Path, fs)
    ensures fst.Snapshot() == o.0 && acc' == Absorb(acc, o)
  {
    o := FileEffect(fst.Snapshot(), fst.Path, fs);
    var err := fst.InspectFile(fs);
    if err.Some? {
      return acc, o;
    }
    acc' := acc.(validFiles := acc.validFiles + 1,
                 sumAll := acc.sumAll + fst.LinesAll, sumCode := acc.sumCode + fst.LinesCode,
                 sumComment := acc.sumComment + fst.LinesComment, sumEmpty := acc.sumEmpty + fst.LinesEmpty,
                 maxAll := Max(acc.maxAll, fst.LinesAll), maxCode := Max(acc.maxCode, fst.LinesCode),
                 maxComment := Max(acc.maxComment, fst.LinesComment), maxEmpty := Max(acc.maxEmpty, fst.LinesEmpty));
  }

  class GlobalStats {
    const files: seq<FileStats>
    var MaxLpfAll: nat
    var MaxLpfCode: nat
    var MaxLpfComment: nat
    var MaxLpfEmpty: nat
    /** The numerators of the averages `AvgLpf*` and their common
        denominator `validFiles`. */
    var SumLpfAll: nat
    var SumLpfCode: nat
    var SumLpfComment: nat
    var SumLpfEmpty: nat
    var ValidFiles: nat

    /** Every file of the batch is its own object. */
    predicate Distinct()
    {
      forall i, j :: 0 <= i < j < |files| ==> files[i] != files[j]
    }

    /** `NewGlobalStats`: one new `FileStats` per path, in order. */
    constructor (paths: seq<string>)
      ensures |files| == |paths| && Distinct()
      ensures forall i :: 0 <= i < |files| ==>
                fresh(files[i]) && files[i].Path == paths[i] && files[i].Snapshot() == Fresh
      ensures MaxLpfAll == MaxLpfCode == MaxLpfComment == MaxLpfEmpty == 0
      ensures SumLpfAll == SumLpfCode == SumLpfComment == SumLpfEmpty == ValidFiles == 0
    {
      var size := |paths|;
      var made: seq<FileStats> := [];
      var i := 0;
      while i < size
        invariant i <= size && |made| == i
        invariant forall k :: 0 <= k < i ==>
                    fresh(made[k]) && made[k].Path == paths[k] && made[k].Snapshot() == Fresh
        invariant forall k, l :: 0 <= k < l < i ==> made[k] != made[l]
      {
        var f := new FileStats(paths[i]);
        made := made + [f];
        i := i + 1;
      }
      files := made;
      MaxLpfAll, MaxLpfCode, MaxLpfComment, MaxLpfEmpty := 0, 0, 0, 0;
      SumLpfAll, SumLpfCode, SumLpfComment, SumLpfEmpty, ValidFiles := 0, 0, 0, 0, 0;
    }

    /** `InspectBatch`: inspects every file in order and keeps the maxima and
        sums of the four line counts over the files whose inspection returned
        no error. */
    method InspectBatch(fs: FileSystem)
      requires Distinct()
      modifies this, files
      ensures var outs := Outcomes(old(Snapshots(files)), Paths(files), fs);
              && (forall k {:trigger files[k].Snapshot()} :: 0 <= k < |files| ==> files[k].Snapshot() == outs[k].0)
              && Batch(ValidFiles, SumLpfAll, SumLpfCode, SumLpfComment, SumLpfEmpty,
                       MaxLpfAll, MaxLpfCode, MaxLpfComment, MaxLpfEmpty) == Reduce(outs, |outs|)
    {
      var acc := InspectAll(files, fs);
      MaxLpfAll, MaxLpfCode, MaxLpfComment, MaxLpfEmpty := acc.maxAll, acc.maxCode, acc.maxComment, acc.maxEmpty;
      SumLpfAll, SumLpfCode, SumLpfComment, SumLpfEmpty := acc.sumAll, acc.sumCode, acc.sumComment, acc.sumEmpty;
      ValidFiles := acc.validFiles;
    }

  }
}
