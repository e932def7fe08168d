/** A line-by-line reference for the totals of a scan.

    The vocabulary of stats.go defines the line categories per line: a code
    line has at least one code byte, a comment line at least one comment
    byte, an empty line neither. This module cuts a byte stream at its line
    breaks, measures each finished line separately, and proves that the
    byte-at-a-time classifier yields exactly the counts, sums and maxima of
    that list of lines.
 */
module LineLog {
  import opened Stream
  import opened Classifier

  /** The mode and the line counters after scanning `bytes`, none of which
      needs to be a line break, from mode `m` and counters `c`. */
  function LineRun(m: Mode, c: LineCount, bytes: seq<byte>): (r: (Mode, LineCount))
    ensures r.1.all == c.all + |bytes|
    ensures c.code + c.comment <= c.all ==> r.1.code + r.1.comment <= r.1.all
    ensures Exclusive(m) ==> Exclusive(r.0)
    decreases |bytes|
  {
    if bytes == [] then (m, c)
    else
      var prev := LineRun(m, c, bytes[..|bytes| - 1]);
      var b := bytes[|bytes| - 1];
      (ModeStep(prev.0, b), Count(prev.1, prev.0, b))
  }

  /** The position of the first `x` in `bytes`. */
  function IndexOf(bytes: seq<byte>, x: byte): (k: nat)
    requires x in bytes
    ensures k < |bytes| && bytes[k] == x && x !in bytes[..k]
  {
    if bytes[0] == x then 0
    else
      assert bytes == [bytes[0]] + bytes[1..];
      var k := IndexOf(bytes[1..], x);
      assert bytes[..k + 1] == [bytes[0]] + bytes[1..][..k];
      k + 1
  }

  /** The finished lines of `bytes`, in order, each measured with its line
      break: the first starts from mode `m` and counters `c`, each next one
      from the mode the previous one ended in and zero counters. Bytes after
      the last line break form no entry. */
  function Lines(m: Mode, c: LineCount, bytes: seq<byte>): (recs: seq<LineCount>)
    decreases |bytes|
  {
    if Newline !in bytes then []
    else
      var k := IndexOf(bytes, Newline);
      var (m1, c1) := LineRun(m, c, bytes[..k + 1]);
      [c1] + Lines(m1, NoBytes, bytes[k + 1..])
  }

  /** The line categories of stats.go, plus "has code or comment". */
  datatype Category = CodeLine | CommentLine | EmptyLine | ContentLine

  predicate Is(r: LineCount, k: Category)
  {
    match k
    case CodeLine => r.code > 0
    case CommentLine => r.comment > 0
    case EmptyLine => r.code == 0 && r.comment == 0
    case ContentLine => r.code > 0 || r.comment > 0
  }

  /** The number of lines of category `k`. */
  function Tally(recs: seq<LineCount>, k: Category): (n: nat)
    ensures n <= |recs|
  {
    if recs == [] then 0 else (if Is(recs[0], k) then 1 else 0) + Tally(recs[1..], k)
  }

  /** Which line counter a sum or maximum is taken of. */
  datatype Measure = AllBytes | CodeBytes | CommentBytes

  function Of(r: LineCount, f: Measure): nat
  {
    match f
    case AllBytes => r.all
    case CodeBytes => r.code
    case CommentBytes => r.comment
  }

  function SumOf(recs: seq<LineCount>, f: Measure): nat
  {
    if recs == [] then 0 else Of(recs[0], f) + SumOf(recs[1..], f)
  }

  /** The largest measure of a line, 0 for no lines. */
  function MaxOf(recs: seq<LineCount>, f: Measure): (r: nat)
    ensures forall i :: 0 <= i < |recs| ==> Of(recs[i], f) <= r
    ensures recs == [] ==> r == 0
    ensures recs != [] ==> exists i :: 0 <= i < |recs| && Of(recs[i], f) == r
  {
    if recs == [] then 0
    else
      var rest := MaxOf(recs[1..], f);
      assert forall i :: 1 <= i < |recs| ==> recs[i] == recs[1..][i - 1];
      Max(Of(recs[0], f), rest)
  }

  /** The per-file totals as the definitions of the categories give them. */
  function Summary(recs: seq<LineCount>): Totals
  {
    Totals(|recs|, Tally(recs, CodeLine), Tally(recs, CommentLine), Tally(recs, EmptyLine),
           SumOf(recs, AllBytes), SumOf(recs, CodeBytes), SumOf(recs, CommentBytes),
           MaxOf(recs, AllBytes), MaxOf(recs, CodeBytes), MaxOf(recs, CommentBytes))
  }

  /** Folds finished lines into the totals one after another. */
  function Extend(t: Totals, recs: seq<LineCount>): Totals
    decreases |recs|
  {
    if recs == [] then t else Extend(Close(t, recs[0]), recs[1..])
  }

  /** Folding lines in adds one to `linesAll` per line and one to each
      category counter per line of that category. */
  lemma {:induction false} ExtendCounts(t: Totals, recs: seq<LineCount>)
    ensures var r := Extend(t, recs);
            && r.linesAll == t.linesAll + |recs|
            && r.linesCode == t.linesCode + Tally(recs, CodeLine)
            && r.linesComment == t.linesComment + Tally(recs, CommentLine)
            && r.linesEmpty == t.linesEmpty + Tally(recs, EmptyLine)
    decreases |recs|
  {
    if recs != [] {
      ExtendCounts(Close(t, recs[0]), recs[1..]);
    }
  }

  /** Folding lines in adds their byte counts to the sums. */
  lemma {:induction false} ExtendSums(t: Totals, recs: seq<LineCount>)
    ensures var r := Extend(t, recs);
            && r.sumAll == t.sumAll + SumOf(recs, AllBytes)
            && r.sumCode == t.sumCode + SumOf(recs, CodeBytes)
            && r.sumComment == t.sumComment + SumOf(recs, CommentBytes)
    decreases |recs|
  {
    if recs != [] {
      ExtendSums(Close(t, recs[0]), recs[1..]);
    }
  }

  /** Folding lines in takes their byte counts into the maxima. */
  lemma {:induction false} ExtendMaxima(t: Totals, recs: seq<LineCount>)
    ensures var r := Extend(t, recs);
            && r.maxAll == Max(t.maxAll, MaxOf(recs, AllBytes))
            && r.maxCode == Max(t.maxCode, MaxOf(recs, CodeBytes))
            && r.maxComment == Max(t.maxComment, MaxOf(recs, CommentBytes))
    decreases |recs|
  {
    if recs != [] {
      ExtendMaxima(Close(t, recs[0]), recs[1..]);
    }
  }

  lemma ExtendIsSummary(t: Totals, recs: seq<LineCount>)
    ensures Extend(t, recs)
         == Totals(t.linesAll + |recs|,
                   t.linesCode + Tally(recs, CodeLine),
                   t.linesComment + Tally(recs, CommentLine),
                   t.linesEmpty + Tally(recs, EmptyLine),
                   t.sumAll + SumOf(recs, AllBytes),
                   t.sumCode + SumOf(recs, CodeBytes),
                   t.sumComment + SumOf(recs, CommentBytes),
                   Max(t.maxAll, MaxOf(recs, AllBytes)),
                   Max(t.maxCode, MaxOf(recs, CodeBytes)),
                   Max(t.maxComment, MaxOf(recs, CommentBytes)))
  {
    ExtendCounts(t, recs);
    ExtendSums(t, recs);
    ExtendMaxima(t, recs);
  }

  /** Within a line, the byte-at-a-time scan moves the mode and the line
      counters as `LineRun` does and leaves the totals alone. */
  lemma {:induction false} RunWithinLine(m: Mode, c: LineCount, t: Totals, bytes: seq<byte>)
    requires Newline !in bytes
    ensures Run(Scan(m, c, t), bytes) == Scan(LineRun(m, c, bytes).0, LineRun(m, c, bytes).1, t)
    decreases |bytes|
  {
    if bytes != [] {
      var pre := bytes[..|bytes| - 1];
      var b := bytes[|bytes| - 1];
      assert bytes == pre + [b];
      RunSnoc(Scan(m, c, t), pre, b);
      RunWithinLine(m, c, t, pre);
    }
  }

  /** The byte-at-a-time scan folds exactly the finished lines of the
      stream into the totals. */
  lemma {:induction false} RunByLines(m: Mode, c: LineCount, t: Totals, bytes: seq<byte>)
    ensures Run(Scan(m, c, t), bytes).totals == Extend(t, Lines(m, c, bytes))
    decreases |bytes|
  {
    if Newline in bytes {
      var k := IndexOf(bytes, Newline);
      var pre, rest := bytes[..k], bytes[k + 1..];
      var line := bytes[..k + 1];
      assert line == pre + [Newline];
      assert bytes == line + rest;
      RunConcat(Scan(m, c, t), line, rest);
      RunSnoc(Scan(m, c, t), pre, Newline);
      RunWithinLine(m, c, t, pre);
      assert line[..|line| - 1] == pre;
      var (m1, c1) := LineRun(m, c, line);
      RunByLines(m1, NoBytes, Close(t, c1), rest);
    } else {
      RunWithoutBreak(Scan(m, c, t), bytes);
    }
  }

  /** The totals of a whole scan are the summary of the stream's finished
      lines: `LinesCode` counts the lines with a code byte, `LinesComment`
      those with a comment byte, `LinesEmpty` those with neither, and the
      sums and maxima are taken over the lines' byte counts. */
  lemma Classification(bytes: seq<byte>)
    ensures Run(Init, bytes).totals == Summary(Lines(Start, NoBytes, bytes))
  {
    var recs := Lines(Start, NoBytes, bytes);
    SummaryFromNothing(recs);
    RunByLines(Start, NoBytes, NoTotals, bytes);
  }

  /** Folding the lines into empty totals gives their summary. */
  lemma SummaryFromNothing(recs: seq<LineCount>)
    ensures Extend(NoTotals, recs) == Summary(recs)
  {
    ExtendIsSummary(NoTotals, recs);
  }

  lemma {:induction false} TallyPartition(recs: seq<LineCount>)
    ensures Tally(recs, EmptyLine) + Tally(recs, ContentLine) == |recs|
  {
    if recs != [] {
      TallyPartition(recs[1..]);
    }
  }

  /** Every line is exactly one of empty or having code or comment, so
      `LinesEmpty` plus the number of lines with code or comment is
      `LinesAll`. */
  lemma EmptyOrContent(bytes: seq<byte>)
    ensures var t := Run(Init, bytes).totals;
            t.linesEmpty + Tally(Lines(Start, NoBytes, bytes), ContentLine) == t.linesAll
  {
    Classification(bytes);
    TallyPartition(Lines(Start, NoBytes, bytes));
  }

  /** A finished line owns its line break: it has at least one byte, and
      more bytes than code and comment bytes together. */
  predicate Shaped(r: LineCount)
  {
    1 <= r.all && r.code + r.comment < r.all
  }

  /** A line that ends with its line break is shaped. */
  lemma LineShape(m: Mode, c: LineCount, line: seq<byte>)
    requires c.code + c.comment <= c.all
    requires |line| > 0 && line[|line| - 1] == Newline
    ensures Shaped(LineRun(m, c, line).1)
  {
    var pre := line[..|line| - 1];
    assert LineRun(m, c, line).1 == Count(LineRun(m, c, pre).1, LineRun(m, c, pre).0, Newline);
  }

  /** Every finished line of a stream is shaped. */
  lemma {:induction false} LinesShape(m: Mode, c: LineCount, bytes: seq<byte>)
    requires c.code + c.comment <= c.all
    ensures forall i :: 0 <= i < |Lines(m, c, bytes)| ==> Shaped(Lines(m, c, bytes)[i])
    decreases |bytes|
  {
    if Newline in bytes {
      var k := IndexOf(bytes, Newline);
      var line := bytes[..k + 1];
      var (m1, c1) := LineRun(m, c, line);
      LineShape(m, c, line);
      var rest := Lines(m1, NoBytes, bytes[k + 1..]);
      LinesShape(m1, NoBytes, bytes[k + 1..]);
      assert Lines(m, c, bytes) == [c1] + rest;
    }
  }
}
