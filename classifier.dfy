/** The byte classifier of `FileStats.inspectReader` (stats.go), as a pure
    state machine: the comment modes with one byte of lookbehind, the
    counters of the line being scanned, and the running per-file totals.
    The imperative read loop in module `Stats` is proved to compute `Run`.
 */
module Classifier {
  import opened Stream

  const Slash: byte := 0x2F
  const Star: byte := 0x2A
  const Newline: byte := 0x0A
  const Return: byte := 0x0D
  const Space: byte := 0x20
  const Tab: byte := 0x09

  /** Bytes that count towards neither the code nor the comment bytes of a
      line: the comment punctuation `/` and `*`, the line break and the three
      whitespace bytes. */
  predicate Neutral(b: byte)
  {
    b == Slash || b == Star || b == Newline || b == Return || b == Space || b == Tab
  }

  /** The lexical state: which comment the scanner is inside, and the byte
      before the current one. */
  datatype Mode = Mode(inBlockComment: bool, inLineComment: bool, prevByte: byte)

  /** The state before the first byte; the zero `prevByte` is neither `/` nor
      `*`, so the first byte of a stream never completes a delimiter. */
  const Start: Mode := Mode(false, false, 0)

  predicate InComment(m: Mode)
  {
    m.inBlockComment || m.inLineComment
  }

  /** At most one comment mode is on. */
  predicate Exclusive(m: Mode)
  {
    !(m.inBlockComment && m.inLineComment)
  }

  /** How one byte moves the comment modes: `//` opens a line comment and `/*`
      a block comment, each only outside any comment; `*/` closes a block
      comment only inside one; a line break ends a line comment. */
  function ModeStep(m: Mode, b: byte): (r: Mode)
    ensures r.prevByte == b
    ensures !m.inLineComment && r.inLineComment
            <==> !m.inLineComment && !m.inBlockComment && b == Slash && m.prevByte == Slash
    ensures !m.inBlockComment && r.inBlockComment
            <==> !m.inBlockComment && !m.inLineComment && b == Star && m.prevByte == Slash
    ensures m.inBlockComment && !r.inBlockComment
            <==> m.inBlockComment && b == Slash && m.prevByte == Star
    ensures m.inLineComment && !r.inLineComment <==> m.inLineComment && b == Newline
    ensures b == Newline ==> !r.inLineComment && r.inBlockComment == m.inBlockComment
    ensures Exclusive(m) ==> Exclusive(r)
  {
    var n :=
      if b == Slash then
        if m.prevByte == Slash then
          if !m.inBlockComment && !m.inLineComment then m.(inLineComment := true) else m
        else if m.prevByte == Star then
          if m.inBlockComment then m.(inBlockComment := false) else m
        else m
      else if b == Star then
        if m.prevByte == Slash && !m.inBlockComment && !m.inLineComment
        then m.(inBlockComment := true) else m
      else if b == Newline then m.(inLineComment := false)
      else m;
    n.(prevByte := b)
  }

  /** The byte counters of the line being scanned (`lbAll`, `lbCode`,
      `lbComment`). */
  datatype LineCount = LineCount(all: nat, code: nat, comment: nat)

  const NoBytes: LineCount := LineCount(0, 0, 0)

  /** How one byte, seen in mode `m`, moves the line counters: every byte
      counts towards `all`, a neutral byte towards nothing else, and any
      other byte towards `comment` inside a comment and `code` outside. */
  function Count(c: LineCount, m: Mode, b: byte): (r: LineCount)
    ensures r.all == c.all + 1
    ensures Neutral(b) ==> r.code == c.code && r.comment == c.comment
    ensures !Neutral(b) && InComment(m) ==> r.code == c.code && r.comment == c.comment + 1
    ensures !Neutral(b) && !InComment(m) ==> r.code == c.code + 1 && r.comment == c.comment
    ensures c.code + c.comment <= c.all ==> r.code + r.comment <= r.all
  {
    if Neutral(b) then c.(all := c.all + 1)
    else if InComment(m) then LineCount(c.all + 1, c.code, c.comment + 1)
    else LineCount(c.all + 1, c.code + 1, c.comment)
  }

  /** The per-file totals: the four line counts (`fst.Lines*`), and the
      sums and maxima of the line byte counters (`sum*`, `max*`). */
  datatype Totals = Totals(linesAll: nat, linesCode: nat, linesComment: nat, linesEmpty: nat,
                           sumAll: nat, sumCode: nat, sumComment: nat,
                           maxAll: nat, maxCode: nat, maxComment: nat)

  const NoTotals: Totals := Totals(0, 0, 0, 0, 0, 0, 0, 0, 0, 0)

  function Max(a: nat, b: nat): (r: nat)
    ensures a <= r && b <= r && (r == a || r == b)
  {
    if a < b then b else a
  }

  /** The relations between the totals that every scan keeps: no category
      has more lines than the file, an empty line has neither code nor
      comment, every line is in some category, no line has more code or
      comment bytes than bytes, and every line owns at least its line
      break. */
  predicate Consistent(t: Totals)
  {
    && t.linesCode <= t.linesAll && t.linesComment <= t.linesAll
    && t.linesEmpty + t.linesCode <= t.linesAll && t.linesEmpty + t.linesComment <= t.linesAll
    && t.linesAll <= t.linesCode + t.linesComment + t.linesEmpty
    && t.maxCode <= t.maxAll && t.maxComment <= t.maxAll && t.maxAll <= t.sumAll
    && t.sumCode + t.sumComment + t.linesAll <= t.sumAll
    && (t.linesAll == 0 ==> t.sumAll == 0)
  }

  /** Folds a finished line, whose counters `c` include its line break, into
      the totals: one more line; one more code line exactly when it has a
      code byte, one more comment line exactly when it has a comment byte,
      one more empty line exactly when it has neither; its bytes are added
      to the sums and taken into the maxima. */
  function Close(t: Totals, c: LineCount): (r: Totals)
    ensures r.linesAll == t.linesAll + 1
    ensures r.linesCode == t.linesCode + 1 <==> c.code > 0
    ensures r.linesCode == t.linesCode <==> c.code == 0
    ensures r.linesComment == t.linesComment + 1 <==> c.comment > 0
    ensures r.linesComment == t.linesComment <==> c.comment == 0
    ensures r.linesEmpty == t.linesEmpty + 1 <==> c.code == 0 && c.comment == 0
    ensures r.linesEmpty == t.linesEmpty <==> c.code > 0 || c.comment > 0
    ensures r.sumAll == t.sumAll + c.all && r.maxAll == Max(t.maxAll, c.all)
    ensures r.sumCode == t.sumCode + c.code && r.maxCode == Max(t.maxCode, c.code)
    ensures r.sumComment == t.sumComment + c.comment && r.maxComment == Max(t.maxComment, c.comment)
    ensures Consistent(t) && c.code + c.comment < c.all ==> Consistent(r)
  {
    Totals(t.linesAll + 1,
           if c.code > 0 then t.linesCode + 1 else t.linesCode,
           if c.comment > 0 then t.linesComment + 1 else t.linesComment,
           if c.code == 0 && c.comment == 0 then t.linesEmpty + 1 else t.linesEmpty,
           t.sumAll + c.all, t.sumCode + c.code, t.sumComment + c.comment,
           Max(t.maxAll, c.all), Max(t.maxCode, c.code), Max(t.maxComment, c.comment))
  }

  /** All state of one scan; in the source it is declared outside the read
      loop, so it persists across chunks. */
  datatype Scan = Scan(mode: Mode, line: LineCount, totals: Totals)

  const Init: Scan := Scan(Start, NoBytes, NoTotals)

  /** The invariant of a scan. */
  predicate Valid(s: Scan)
  {
    Exclusive(s.mode) && s.line.code + s.line.comment <= s.line.all && Consistent(s.totals)
  }

  /** One iteration of the byte loop. A line break closes the line (its
      counters, which include the break, are folded into the totals and
      reset); any other byte only advances the line counters. */
  function Step(s: Scan, b: byte): (r: Scan)
    ensures r.mode == ModeStep(s.mode, b)
    ensures Valid(s) ==> Valid(r)
    ensures b == Newline ==> r.line == NoBytes && r.totals.linesAll == s.totals.linesAll + 1
    ensures b != Newline ==> r.totals == s.totals && r.line.all == s.line.all + 1
  {
    var c := Count(s.line, s.mode, b);
    var m := ModeStep(s.mode, b);
    if b == Newline then Scan(m, NoBytes, Close(s.totals, c)) else Scan(m, c, s.totals)
  }

  /** The scan of a byte sequence from state `s`. */
  function Run(s: Scan, bytes: seq<byte>): Scan
    decreases |bytes|
  {
    if bytes == [] then s else Run(Step(s, bytes[0]), bytes[1..])
  }

  /** A scan keeps the invariant. */
  lemma {:induction false} RunValid(s: Scan, bytes: seq<byte>)
    requires Valid(s)
    ensures Valid(Run(s, bytes))
    decreases |bytes|
  {
    if bytes != [] {
      RunValid(Step(s, bytes[0]), bytes[1..]);
    }
  }

  /** Bytes without a line break (such as a final line without one) change
      no total. */
  lemma {:induction false} RunWithoutBreak(s: Scan, bytes: seq<byte>)
    requires Newline !in bytes
    ensures Run(s, bytes).totals == s.totals
    decreases |bytes|
  {
    if bytes != [] {
      assert bytes == [bytes[0]] + bytes[1..];
      RunWithoutBreak(Step(s, bytes[0]), bytes[1..]);
    }
  }

  /** Every line break, and nothing else, adds one line. */
  lemma {:induction false} LinesAllCountsBreaks(s: Scan, bytes: seq<byte>)
    ensures Run(s, bytes).totals.linesAll == s.totals.linesAll + multiset(bytes)[Newline]
    decreases |bytes|
  {
    if bytes != [] {
      assert bytes == [bytes[0]] + bytes[1..];
      LinesAllCountsBreaks(Step(s, bytes[0]), bytes[1..]);
    }
  }

  /** Scanning a concatenation is scanning its parts one after the other:
      the result does not depend on where the stream is cut into chunks. */
  lemma {:induction false} RunConcat(s: Scan, a: seq<byte>, b: seq<byte>)
    ensures Run(s, a + b) == Run(Run(s, a), b)
    decreases |a|
  {
    if a == [] {
      assert a + b == b;
    } else {
      assert (a + b)[0] == a[0];
      assert (a + b)[1..] == a[1..] + b;
      RunConcat(Step(s, a[0]), a[1..], b);
    }
  }

  lemma RunSnoc(s: Scan, a: seq<byte>, b: byte)
    ensures Run(s, a + [b]) == Step(Run(s, a), b)
  {
    RunConcat(s, a, [b]);
    assert [b][1..] == [];
  }

  /** A trailing partial line (bytes after the last line break) is never
      added to any line count, sum or maximum. */
  lemma TrailingLineIgnored(s: Scan, bytes: seq<byte>, tail: seq<byte>)
    requires Newline !in tail
    ensures Run(s, bytes + tail).totals == Run(s, bytes).totals
  {
    RunConcat(s, bytes, tail);
    RunWithoutBreak(Run(s, bytes), tail);
  }

  /** On the first byte of a stream no comment mode can begin. */
  lemma FirstByteOpensNothing(b: byte)
    ensures !InComment(Run(Init, [b]).mode)
  {
    assert Run(Init, [b]) == Step(Init, b);
  }

  /** Whitespace and line breaks: the bytes a blank file consists of. */
  predicate Blank(b: byte)
  {
    b == Space || b == Tab || b == Return || b == Newline
  }

  /** Blank bytes scanned from a line without code or comment bytes add no
      code line and no comment line, and every line they finish is empty. */
  lemma {:induction false} BlankRun(s: Scan, bytes: seq<byte>)
    requires s.line.code == 0 && s.line.comment == 0
    requires forall i :: 0 <= i < |bytes| ==> Blank(bytes[i])
    ensures var t := Run(s, bytes).totals;
            && t.linesCode == s.totals.linesCode && t.linesComment == s.totals.linesComment
            && t.linesEmpty + s.totals.linesAll == s.totals.linesEmpty + t.linesAll
    decreases |bytes|
  {
    if bytes != [] {
      assert forall i :: 0 <= i < |bytes[1..]| ==> bytes[1..][i] == bytes[i + 1];
      BlankRun(Step(s, bytes[0]), bytes[1..]);
    }
  }

  /** A file of blank lines has no code line and no comment line, and all
      its lines are empty. */
  lemma BlankFile(bytes: seq<byte>)
    requires forall i :: 0 <= i < |bytes| ==> Blank(bytes[i])
    ensures var t := Run(Init, bytes).totals;
            t.linesCode == 0 && t.linesComment == 0 && t.linesEmpty == t.linesAll
  {
    BlankRun(Init, bytes);
  }
}
