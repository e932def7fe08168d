/** The older `inspectReader` of main.go and its `fileStats` record.

    Its read loop and its byte switch are those of stats.go (the same
    delimiter transitions, the same neutral bytes), but it classifies a
    finished line differently: a line is a comment line when it has a
    comment byte and an empty line otherwise, even when it has code; a line
    with a code byte is counted as a code line besides. It appends every
    finished line's byte count to a list `bytesPerLine`, and it never
    finalizes anything.
 */
module Legacy {
  import opened Stream
  import opened Classifier
  import opened LineLog
  import opened Inspection

  /** What the byte loop records about the finished lines: the four line
      counts and the byte count of every line, in order. */
  datatype Record = Record(lines: nat, linesCode: nat, linesComment: nat, linesEmpty: nat,
                           bytesPerLine: seq<nat>)

  const NoRecord: Record := Record(0, 0, 0, 0, [])

  /** main.go's rule for a finished line, whose counters `c` include its
      line break: one more line; one more code line when it has a code
      byte; one more comment line when it has a comment byte and one more
      empty line when it has none; its byte count is appended. */
  function CloseLine(r: Record, c: LineCount): Record
  {
    Record(r.lines + 1,
           if c.code > 0 then r.linesCode + 1 else r.linesCode,
           if c.comment > 0 then r.linesComment + 1 else r.linesComment,
           if c.comment > 0 then r.linesEmpty else r.linesEmpty + 1,
           r.bytesPerLine + [c.all])
  }

  /** All state of one scan of main.go's byte loop. */
  datatype LScan = LScan(mode: Mode, line: LineCount, rec: Record)

  const LInit: LScan := LScan(Start, NoBytes, NoRecord)

  /** One iteration of the byte loop: the mode and the line counters move
      as in stats.go; a line break closes the line by `CloseLine`. */
  function LStep(s: LScan, b: byte): LScan
  {
    var c := Count(s.line, s.mode, b);
    var m := ModeStep(s.mode, b);
    if b == Newline then LScan(m, NoBytes, CloseLine(s.rec, c)) else LScan(m, c, s.rec)
  }

  function LRun(s: LScan, bytes: seq<byte>): LScan
    decreases |bytes|
  {
    if bytes == [] then s else LRun(LStep(s, bytes[0]), bytes[1..])
  }

  /** The relations the record keeps: every line is exactly one of comment
      or empty, no more code lines than lines, one entry of `bytesPerLine`
      per line, and every entry counts at least the line break. */
  predicate Sound(r: Record)
  {
    && r.linesComment + r.linesEmpty == r.lines && r.linesCode <= r.lines
    && |r.bytesPerLine| == r.lines
    && forall i :: 0 <= i < |r.bytesPerLine| ==> r.bytesPerLine[i] >= 1
  }

  predicate LValid(s: LScan)
  {
    Exclusive(s.mode) && s.line.code + s.line.comment <= s.line.all && Sound(s.rec)
  }

  /** A step keeps the invariant; at a line break it adds exactly one line
      and one entry, the line's byte count, and it resets the line counters
      and the line comment but not the block comment. */
  lemma LStepValid(s: LScan, b: byte)
    requires LValid(s)
    ensures LValid(LStep(s, b))
    ensures b == Newline ==>
              && LStep(s, b).rec.lines == s.rec.lines + 1
              && LStep(s, b).rec.bytesPerLine == s.rec.bytesPerLine + [s.line.all + 1]
              && LStep(s, b).line == NoBytes
              && !LStep(s, b).mode.inLineComment
              && LStep(s, b).mode.inBlockComment == s.mode.inBlockComment
    ensures b != Newline ==> LStep(s, b).rec == s.rec
  {
    var r := LStep(s, b).rec;
    if b == Newline {
      assert forall i :: 0 <= i < |s.rec.bytesPerLine| ==> r.bytesPerLine[i] == s.rec.bytesPerLine[i];
    }
  }

  lemma {:induction false} LRunValid(s: LScan, bytes: seq<byte>)
    requires LValid(s)
    ensures LValid(LRun(s, bytes))
    decreases |bytes|
  {
    if bytes != [] {
      LStepValid(s, bytes[0]);
      LRunValid(LStep(s, bytes[0]), bytes[1..]);
    }
  }

  /** Scanning a concatenation is scanning its parts one after the other. */
  lemma {:induction false} LRunConcat(s: LScan, a: seq<byte>, b: seq<byte>)
    ensures LRun(s, a + b) == LRun(LRun(s, a), b)
    decreases |a|
  {
    if a == [] {
      assert a + b == b;
    } else {
      assert (a + b)[0] == a[0];
      assert (a + b)[1..] == a[1..] + b;
      LRunConcat(LStep(s, a[0]), a[1..], b);
    }
  }

  lemma LRunSnoc(s: LScan, a: seq<byte>, b: byte)
    ensures LRun(s, a + [b]) == LStep(LRun(s, a), b)
  {
    LRunConcat(s, a, [b]);
    assert [b][1..] == [];
  }

  /** Bytes without a line break record nothing. */
  lemma {:induction false} LRunWithoutBreak(s: LScan, bytes: seq<byte>)
    requires Newline !in bytes
    ensures LRun(s, bytes).rec == s.rec
    decreases |bytes|
  {
    if bytes != [] {
      assert bytes == [bytes[0]] + bytes[1..];
      LRunWithoutBreak(LStep(s, bytes[0]), bytes[1..]);
    }
  }

  /** A trailing partial line is never recorded: not counted and not
      appended to `bytesPerLine`. */
  lemma LTrailingLineIgnored(s: LScan, bytes: seq<byte>, tail: seq<byte>)
    requires Newline !in tail
    ensures LRun(s, bytes + tail).rec == LRun(s, bytes).rec
  {
    LRunConcat(s, bytes, tail);
    LRunWithoutBreak(LRun(s, bytes), tail);
  }

  // The line-wise reference.

  /** The byte counts of a list of lines. */
  function AllOf(recs: seq<LineCount>): (r: seq<nat>)
    ensures |r| == |recs|
  {
    if recs == [] then [] else [recs[0].all] + AllOf(recs[1..])
  }

  /** Folds finished lines into the record one after another. */
  function LExtend(r: Record, recs: seq<LineCount>): Record
    decreases |recs|
  {
    if recs == [] then r else LExtend(CloseLine(r, recs[0]), recs[1..])
  }

  lemma {:induction false} LExtendCounts(r: Record, recs: seq<LineCount>)
    ensures var x := LExtend(r, recs);
            && x.lines == r.lines + |recs|
            && x.linesCode == r.linesCode + Tally(recs, CodeLine)
            && x.linesComment == r.linesComment + Tally(recs, CommentLine)
            && x.linesEmpty + Tally(recs, CommentLine) == r.linesEmpty + |recs|
            && x.bytesPerLine == r.bytesPerLine + AllOf(recs)
    decreases |recs|
  {
    if recs != [] {
      LExtendCounts(CloseLine(r, recs[0]), recs[1..]);
      assert r.bytesPerLine + [recs[0].all] + AllOf(recs[1..]) == r.bytesPerLine + AllOf(recs);
    }
  }

  /** Within a line the scan moves the mode and the line counters as
      `LineRun` does and records nothing. */
  lemma {:induction false} LRunWithinLine(m: Mode, c: LineCount, r: Record, bytes: seq<byte>)
    requires Newline !in bytes
    ensures LRun(LScan(m, c, r), bytes) == LScan(LineRun(m, c, bytes).0, LineRun(m, c, bytes).1, r)
    decreases |bytes|
  {
    if bytes != [] {
      var pre := bytes[..|bytes| - 1];
      var b := bytes[|bytes| - 1];
      assert bytes == pre + [b];
      LRunSnoc(LScan(m, c, r), pre, b);
      LRunWithinLine(m, c, r, pre);
    }
  }

  /** The scan records exactly the finished lines of the stream. */
  lemma {:induction false} LRunByLines(m: Mode, c: LineCount, r: Record, bytes: seq<byte>)
    ensures LRun(LScan(m, c, r), bytes).rec == LExtend(r, Lines(m, c, bytes))
    decreases |bytes|
  {
    if Newline in bytes {
      var k := IndexOf(bytes, Newline);
      var pre, rest := bytes[..k], bytes[k + 1..];
      var line := bytes[..k + 1];
      assert line == pre + [Newline];
      assert bytes == line + rest;
      LRunConcat(LScan(m, c, r), line, rest);
      LRunSnoc(LScan(m, c, r), pre, Newline);
      LRunWithinLine(m, c, r, pre);
      assert line[..|line| - 1] == pre;
      var (m1, c1) := LineRun(m, c, line);
      LRunByLines(m1, NoBytes, CloseLine(r, c1), rest);
    } else {
      LRunWithoutBreak(LScan(m, c, r), bytes);
    }
  }

  /** main.go's counts are those of the list of finished lines: `Lines`
      counts them all, `LinesCode` those with a code byte, `LinesComment`
      those with a comment byte, `LinesEmpty` all the others, and
      `bytesPerLine` holds their byte counts in order. */
  lemma LegacyByLines(bytes: seq<byte>)
    ensures var x := LRun(LInit, bytes).rec;
            var recs := Lines(Start, NoBytes, bytes);
            && x.lines == |recs|
            && x.linesCode == Tally(recs, CodeLine)
            && x.linesComment == Tally(recs, CommentLine)
            && x.linesEmpty == |recs| - Tally(recs, CommentLine)
            && x.bytesPerLine == AllOf(recs)
  {
    var recs := Lines(Start, NoBytes, bytes);
    LRunByLines(Start, NoBytes, NoRecord, bytes);
    LExtendCounts(NoRecord, recs);
    assert [] + AllOf(recs) == AllOf(recs);
  }

  lemma {:induction false} EmptyNotComment(recs: seq<LineCount>)
    ensures Tally(recs, EmptyLine) + Tally(recs, CommentLine) <= |recs|
  {
    if recs != [] {
      EmptyNotComment(recs[1..]);
    }
  }

  /** The two versions agree on `LinesAll`, `LinesCode` and `LinesComment`;
      main.go's `LinesEmpty` is every line without a comment byte, so it is
      never smaller than that of stats.go. */
  lemma AgreesWithStats(bytes: seq<byte>)
    ensures var x := LRun(LInit, bytes).rec;
            var t := Run(Init, bytes).totals;
            && x.lines == t.linesAll && x.linesCode == t.linesCode && x.linesComment == t.linesComment
            && x.linesEmpty + t.linesComment == t.linesAll
            && t.linesEmpty <= x.linesEmpty
  {
    Classification(bytes);
    LegacyByLines(bytes);
    EmptyNotComment(Lines(Start, NoBytes, bytes));
  }

  /** In main.go too, a file of blank lines has no code line and no
      comment line, and all its lines are empty. */
  lemma LegacyBlankFile(bytes: seq<byte>)
    requires forall i :: 0 <= i < |bytes| ==> Blank(bytes[i])
    ensures var x := LRun(LInit, bytes).rec;
            x.linesCode == 0 && x.linesComment == 0 && x.linesEmpty == x.lines
  {
    BlankFile(bytes);
    AgreesWithStats(bytes);
  }

  // The record and its inspection.

  /** The fields of a `fileStats`, as a value. */
  datatype Fields = Fields(path: string, error: Option<Error>,
                           lines: nat, linesCode: nat, linesEmpty: nat, linesComment: nat,
                           lineBytesAvg: nat, lineBytesMax: nat)

  /** The zero value of `fileStats`. */
  const Zero: Fields := Fields("", None, 0, 0, 0, 0, 0, 0)

  /** The record's line counts incremented in place by those of a scan. */
  function AddRecord(f: Fields, r: Record): (g: Fields)
  {
    f.(lines := f.lines + r.lines, linesCode := f.linesCode + r.linesCode,
       linesEmpty := f.linesEmpty + r.linesEmpty, linesComment := f.linesComment + r.linesComment)
  }

  /** The effect of main.go's `inspectReader`: the line counts of the bytes
      scanned are added to the record whether or not the stream ends
      normally, the read error (if any) is returned, and `bytesPerLine` is
      the list the loop built. */
  function LegacyEffect(f: Fields, calls: seq<Read>): (Fields, Option<Error>, seq<nat>)
  {
    var o := Drain(calls);
    var r := LRun(LInit, o.bytes).rec;
    (AddRecord(f, r), if o.Broken? then Some(ReadFailed(o.reason)) else None, r.bytesPerLine)
  }

  /** The function returns nil exactly when the stream ends normally and
      otherwise the read error; only the four line counts change; every
      line added is either a comment line or an empty line, has one
      `bytesPerLine` entry of at least one byte, and adds at most one code
      line. */
  lemma LegacyEffectSpec(f: Fields, calls: seq<Read>)
    ensures var (g, e, bpl) := LegacyEffect(f, calls);
            && (e.None? <==> Drain(calls).Finished?)
            && (Drain(calls).Broken? ==> e == Some(ReadFailed(Drain(calls).reason)))
            && g.path == f.path && g.error == f.error
            && g.lineBytesAvg == f.lineBytesAvg && g.lineBytesMax == f.lineBytesMax
            && g.lines == f.lines + |bpl|
            && (forall i :: 0 <= i < |bpl| ==> bpl[i] >= 1)
            && g.linesComment + g.linesEmpty - f.linesComment - f.linesEmpty == g.lines - f.lines
            && g.linesCode - f.linesCode <= g.lines - f.lines
  {
    FreshRecord(Drain(calls).bytes);
  }

  /** A scan from the initial state leaves a sound record. */
  lemma FreshRecord(bytes: seq<byte>)
    ensures Sound(LRun(LInit, bytes).rec)
  {
    InitValid();
    LRunValid(LInit, bytes);
  }

  lemma InitValid()
    ensures LValid(LInit)
  {
  }

  /** Every line break the read loop hands to the byte loop adds one to
      `Lines`, whether or not the stream ends normally. */
  lemma LegacyCountsBreaks(f: Fields, calls: seq<Read>)
    ensures LegacyEffect(f, calls).0.lines == f.lines + multiset(Drain(calls).bytes)[Newline]
  {
    LinesCountBreaks(LInit, Drain(calls).bytes);
  }

  /** Every line break, and nothing else, records one line. */
  lemma {:induction false} LinesCountBreaks(s: LScan, bytes: seq<byte>)
    ensures LRun(s, bytes).rec.lines == s.rec.lines + multiset(bytes)[Newline]
    decreases |bytes|
  {
    if bytes != [] {
      assert bytes == [bytes[0]] + bytes[1..];
      LinesCountBreaks(LStep(s, bytes[0]), bytes[1..]);
    }
  }

  /** However the reader chunks the stream, the effect is the same: any two
      chunk sizes agree. */
  lemma LegacyChunkingInvariance(f: Fields, bytes: seq<byte>, s1: nat, s2: nat)
    requires s1 > 0 && s2 > 0
    ensures LegacyEffect(f, Chunked(bytes, s1)) == LegacyEffect(f, Chunked(bytes, s2))
    ensures LegacyEffect(f, Chunked(bytes, s1)).1 == None
  {
    DrainChunked(bytes, s1);
    DrainChunked(bytes, s2);
  }

  /** The local state of the byte loop is that of scan `s`: its mode, its
      line counters, and the list of finished lines' byte counts. */
  ghost predicate Mirrors(s: LScan, mode: Mode, line: LineCount, bytesPerLine: seq<nat>)
  {
    s.mode == mode && s.line == line && s.rec.bytesPerLine == bytesPerLine
  }

  class FileStats {
    var Path: string
    var Error: Option<Error>
    var Lines: nat
    var LinesCode: nat
    var LinesEmpty: nat
    var LinesComment: nat
    var LineBytesAvg: nat
    var LineBytesMax: nat

    ghost function Snapshot(): Fields
      reads this
    {
      Fields(Path, Error, Lines, LinesCode, LinesEmpty, LinesComment, LineBytesAvg, LineBytesMax)
    }

    /** A `fileStats` as `make` creates it: the zero value. */
    constructor ()
      ensures Snapshot() == Zero
    {
      Path, Error := "", None;
      Lines, LinesCode, LinesEmpty, LinesComment := 0, 0, 0, 0;
      LineBytesAvg, LineBytesMax := 0, 0;
    }

    /** main.go's `inspectReader`: reads chunk after chunk, runs the byte
        loop over each byte with all scan state kept across chunks, and
        returns at the end of the stream or at a read error, leaving the
        line counts incremented so far. */
    method InspectReader(calls: seq<Read>) returns (e: Option<Error>, bytesPerLine: seq<nat>)
      modifies this
      ensures (Snapshot(), e, bytesPerLine) == LegacyEffect(old(Snapshot()), calls)
    {
      var mode := Start;
      var line := NoBytes;
      bytesPerLine := [];
      ghost var seen: seq<byte> := [];
      ghost var cur := LInit;
      ghost var f0 := old(Snapshot());

      var i := 0;
      while i < |calls|
        invariant i <= |calls|
        invariant Drain(calls) == Prepend(seen, Drain(calls[i..]))
        invariant cur == LRun(LInit, seen)
        invariant Mirrors(cur, mode, line, bytesPerLine)
        invariant Snapshot() == AddRecord(f0, cur.rec)
      {
        var read := calls[i];
        DrainFrom(calls, i);
        if read.status.Failed? {
          e := Some(ReadFailed(read.status.reason));
          assert Drain(calls) == Broken(seen, read.status.reason);
          return;
        }
        if |read.data| == 0 {
          break;
        }
        var buffer := read.data;
        mode, line, bytesPerLine := ScanBuffer(buffer, mode, line, bytesPerLine, cur, f0);
        LRunConcat(LInit, seen, buffer);
        PrependPrepend(seen, buffer, Drain(calls[i + 1..]));
        seen, cur := seen + buffer, LRun(cur, buffer);
        i := i + 1;
      }
      e := None;
      assert Drain(calls) == Finished(seen);
    }

    /** The byte loop over one chunk, from the scan state left by the
        previous chunks. */
    method ScanBuffer(buffer: seq<byte>, mode: Mode, line: LineCount, bytesPerLine: seq<nat>,
                      ghost s: LScan, ghost f0: Fields)
      returns (mode': Mode, line': LineCount, bytesPerLine': seq<nat>)
      requires Mirrors(s, mode, line, bytesPerLine)
      requires Snapshot() == AddRecord(f0, s.rec)
      modifies this
      ensures Mirrors(LRun(s, buffer), mode', line', bytesPerLine')
      ensures Snapshot() == AddRecord(f0, LRun(s, buffer).rec)
    {
      mode', line', bytesPerLine' := mode, line, bytesPerLine;
      ghost var cur := s;
      var j := 0;
      while j < |buffer|
        invariant j <= |buffer|
        invariant cur == LRun(s, buffer[..j])
        invariant Mirrors(cur, mode', line', bytesPerLine')
        invariant Snapshot() == AddRecord(f0, cur.rec)
      {
        var b := buffer[j];
        LRunSnoc(s, buffer[..j], b);
        assert buffer[..j + 1] == buffer[..j] + [b];
        mode', line', bytesPerLine' := ScanByte(b, mode', line', bytesPerLine', cur, f0);
        cur := LStep(cur, b);
        j := j + 1;
      }
      assert buffer[..j] == buffer;
    }

    /** One iteration of the byte loop: moves the mode and the line
        counters as `LStep` does, and at a line break increments the line
        counts of the record in place and appends the line's byte count. */
    method ScanByte(b: byte, mode: Mode, line: LineCount, bytesPerLine: seq<nat>,
                    ghost s: LScan, ghost f0: Fields)
      returns (mode': Mode, line': LineCount, bytesPerLine': seq<nat>)
      requires Mirrors(s, mode, line, bytesPerLine)
      requires Snapshot() == AddRecord(f0, s.rec)
      modifies this
      ensures Mirrors(LStep(s, b), mode', line', bytesPerLine')
      ensures Snapshot() == AddRecord(f0, LStep(s, b).rec)
    {
      var inBlockComment, inLineComment, prevByte := mode.inBlockComment, mode.inLineComment, mode.prevByte;
      var lbAll, lbCode, lbComment := line.all, line.code, line.comment;
      bytesPerLine' := bytesPerLine;
      lbAll := lbAll + 1;
      if b == Slash {
        if prevByte == Slash {
          if !inBlockComment && !inLineComment {
            inLineComment := true;
          }
        } else if prevByte == Star {
          if inBlockComment {
            inBlockComment := false;
          }
        }
      } else if b == Star {
        if prevByte == Slash {
          if !inBlockComment && !inLineComment {
            inBlockComment := true;
          }
        }
      } else if b == Newline {
        Lines := Lines + 1;
        if lbCode > 0 {
          LinesCode := LinesCode + 1;
        }
        if lbComment > 0 {
          LinesComment := LinesComment + 1;
        } else {
          LinesEmpty := LinesEmpty + 1;
        }
        bytesPerLine' := bytesPerLine' + [lbAll];
        lbAll, lbCode, lbComment := 0, 0, 0;
        inLineComment := false;
      } else if b == Return || b == Space || b == Tab {
      } else if inBlockComment || inLineComment {
        lbComment := lbComment + 1;
      } else {
        lbCode := lbCode + 1;
      }
      prevByte := b;
      mode', line' := Mode(inBlockComment, inLineComment, prevByte), LineCount(lbAll, lbCode, lbComment);
    }
  }
}
