/** How the comment syntax decides a line's category: what line comments
    and block comments do to the lines they appear on.
 */
module Comments {
  import opened Stream
  import opened Classifier
  import opened LineLog

  /** The bytes contain a byte that counts towards code or comment. */
  predicate HasContent(bytes: seq<byte>)
  {
    exists i :: 0 <= i < |bytes| && !Neutral(bytes[i])
  }

  lemma HasContentSnoc(a: seq<byte>, b: byte)
    ensures HasContent(a + [b]) <==> HasContent(a) || !Neutral(b)
  {
    assert forall i :: 0 <= i < |a| ==> (a + [b])[i] == a[i];
    assert (a + [b])[|a|] == b;
  }

  /** Scanning a concatenation within a line is scanning its parts in turn. */
  lemma {:induction false} LineRunConcat(m: Mode, c: LineCount, a: seq<byte>, b: seq<byte>)
    ensures LineRun(m, c, a + b) == LineRun(LineRun(m, c, a).0, LineRun(m, c, a).1, b)
    decreases |b|
  {
    if b == [] {
      assert a + b == a;
    } else {
      var init := b[..|b| - 1];
      LineRunConcat(m, c, a, init);
      assert (a + b)[..|a + b| - 1] == a + init;
      assert (a + b)[|a + b| - 1] == b[|b| - 1];
    }
  }

  /** Outside any comment, bytes other than `/`, `*` and the line break
      open nothing and count only as code. */
  lemma {:induction false} OutsideRun(m: Mode, c: LineCount, pre: seq<byte>)
    requires !InComment(m)
    requires forall i :: 0 <= i < |pre| ==> pre[i] != Slash && pre[i] != Star && pre[i] != Newline
    ensures var r := LineRun(m, c, pre);
            && !InComment(r.0) && r.1.comment == c.comment && r.1.code >= c.code
            && (r.1.code > c.code <==> HasContent(pre))
            && (pre != [] ==> r.0.prevByte == pre[|pre| - 1])
    decreases |pre|
  {
    if pre != [] {
      var init := pre[..|pre| - 1];
      var b := pre[|pre| - 1];
      assert pre == init + [b];
      OutsideRun(m, c, init);
      HasContentSnoc(init, b);
    }
  }

  /** Inside a line comment, every byte up to the line break counts as a
      comment byte or as nothing. */
  lemma {:induction false} InLineRun(m: Mode, c: LineCount, post: seq<byte>)
    requires m.inLineComment && !m.inBlockComment
    requires Newline !in post
    ensures var r := LineRun(m, c, post);
            && r.0.inLineComment && !r.0.inBlockComment
            && r.1.code == c.code && r.1.comment >= c.comment
            && (r.1.comment > c.comment <==> HasContent(post))
    decreases |post|
  {
    if post != [] {
      var init := post[..|post| - 1];
      var b := post[|post| - 1];
      assert post == init + [b];
      InLineRun(m, c, init);
      HasContentSnoc(init, b);
    }
  }

  /** Scanning one more byte within a line. */
  lemma LineRunSnoc(m: Mode, c: LineCount, a: seq<byte>, b: byte)
    ensures var r := LineRun(m, c, a);
            LineRun(m, c, a + [b]) == (ModeStep(r.0, b), Count(r.1, r.0, b))
  {
    assert (a + [b])[..|a|] == a;
  }

  /** `//` outside any comment opens a line comment and counts as nothing,
      whatever byte came before it. */
  lemma SlashSlash(m: Mode, c: LineCount)
    requires !InComment(m)
    ensures var r := LineRun(m, c, [Slash, Slash]);
            r.0.inLineComment && !r.0.inBlockComment && r.1.code == c.code && r.1.comment == c.comment
  {
    LineRunSnoc(m, c, [], Slash);
    assert [] + [Slash] == [Slash];
    LineRunSnoc(m, c, [Slash], Slash);
    assert [Slash] + [Slash] == [Slash, Slash];
  }

  /** A line `pre // post`, begun outside any comment, where `pre` holds no
      comment punctuation: it is a code line exactly when `pre` has a code
      byte, and a comment line exactly when `post` has a byte other than
      whitespace and comment punctuation. */
  lemma LineCommentLine(m: Mode, pre: seq<byte>, post: seq<byte>)
    requires !InComment(m)
    requires forall i :: 0 <= i < |pre| ==> pre[i] != Slash && pre[i] != Star && pre[i] != Newline
    requires Newline !in post
    ensures var c := LineRun(m, NoBytes, pre + [Slash, Slash] + post + [Newline]).1;
            && (Is(c, CodeLine) <==> HasContent(pre))
            && (Is(c, CommentLine) <==> HasContent(post))
  {
    var a := pre + [Slash, Slash];
    var body := a + post;
    var r1 := LineRun(m, NoBytes, pre);
    OutsideRun(m, NoBytes, pre);
    LineRunConcat(m, NoBytes, pre, [Slash, Slash]);
    SlashSlash(r1.0, r1.1);
    var r2 := LineRun(m, NoBytes, a);
    LineRunConcat(m, NoBytes, a, post);
    InLineRun(r2.0, r2.1, post);
    LineRunSnoc(m, NoBytes, body, Newline);
  }

  /** A line holding only `//` is an empty line: the slashes are comment
      punctuation, not comment bytes. */
  lemma SlashesOnlyIsEmpty(m: Mode)
    requires !InComment(m)
    ensures Is(LineRun(m, NoBytes, [Slash, Slash, Newline]).1, EmptyLine)
  {
    LineCommentLine(m, [], []);
    assert [] + [Slash, Slash] + [] + [Newline] == [Slash, Slash, Newline];
  }

  /** Code before `//` and a comment after it make the line both a code
      line and a comment line, when the code holds no comment punctuation. */
  lemma CodeThenComment(m: Mode, pre: seq<byte>, post: seq<byte>)
    requires !InComment(m)
    requires forall i :: 0 <= i < |pre| ==> pre[i] != Slash && pre[i] != Star && pre[i] != Newline
    requires Newline !in post
    requires HasContent(pre) && HasContent(post)
    ensures var c := LineRun(m, NoBytes, pre + [Slash, Slash] + post + [Newline]).1;
            Is(c, CodeLine) && Is(c, CommentLine)
  {
    LineCommentLine(m, pre, post);
  }

  /** No closing delimiter (a `*` followed by a `/`) in `bytes`, counting a
      `/` right after the byte `p` that precedes them. */
  predicate NoCloser(p: byte, bytes: seq<byte>)
  {
    forall i :: 0 <= i < |bytes| && bytes[i] == Slash ==> (if i == 0 then p else bytes[i - 1]) != Star
  }

  lemma NoCloserLast(p: byte, bytes: seq<byte>)
    requires NoCloser(p, bytes) && |bytes| > 0
    ensures var k := |bytes| - 1;
            bytes[k] == Slash ==> (if k == 0 then p else bytes[k - 1]) != Star
  {
  }

  /** Inside a block comment, bytes without a closing delimiter stay in it
      and count as comment bytes or as nothing. */
  lemma {:induction false} InBlockRun(m: Mode, c: LineCount, bytes: seq<byte>)
    requires m.inBlockComment && !m.inLineComment
    requires NoCloser(m.prevByte, bytes)
    ensures var r := LineRun(m, c, bytes);
            && r.0.inBlockComment && !r.0.inLineComment
            && r.1.code == c.code && r.1.comment >= c.comment
            && (r.1.comment > c.comment <==> HasContent(bytes))
            && (bytes != [] ==> r.0.prevByte == bytes[|bytes| - 1])
    decreases |bytes|
  {
    if bytes != [] {
      var init := bytes[..|bytes| - 1];
      var b := bytes[|bytes| - 1];
      assert bytes == init + [b];
      assert NoCloser(m.prevByte, init) by {
        forall i | 0 <= i < |init| && init[i] == Slash
          ensures (if i == 0 then m.prevByte else init[i - 1]) != Star
        {
          assert bytes[i] == init[i] && bytes[i] == Slash;
          assert (if i == 0 then m.prevByte else bytes[i - 1]) != Star;
          if i > 0 { assert bytes[i - 1] == init[i - 1]; }
        }
      }
      InBlockRun(m, c, init);
      HasContentSnoc(init, b);
      LineRunSnoc(m, c, init, b);
      if |init| > 0 {
        assert bytes[|bytes| - 2] == init[|init| - 1];
      }
      NoCloserLast(m.prevByte, bytes);
    }
  }

  /** A line inside a block comment with no closing delimiter on it has no
      code byte; it is a comment line exactly when it has a byte other than
      whitespace and comment punctuation; and the block comment goes on into
      the next line. */
  lemma BlockCommentLine(m: Mode, body: seq<byte>)
    requires m.inBlockComment && !m.inLineComment
    requires Newline !in body && NoCloser(m.prevByte, body)
    ensures var r := LineRun(m, NoBytes, body + [Newline]);
            && !Is(r.1, CodeLine) && (Is(r.1, CommentLine) <==> HasContent(body))
            && r.0.inBlockComment
  {
    InBlockRun(m, NoBytes, body);
    assert (body + [Newline])[..|body|] == body;
  }

  /** The opening delimiter (a `/` followed by a `*`) outside any comment,
      not right after a `/`, opens a block comment and counts as nothing. */
  lemma SlashStar(m: Mode, c: LineCount)
    requires !InComment(m) && m.prevByte != Slash
    ensures var r := LineRun(m, c, [Slash, Star]);
            && r.0.inBlockComment && !r.0.inLineComment && r.0.prevByte == Star
            && r.1.code == c.code && r.1.comment == c.comment
  {
    LineRunSnoc(m, c, [], Slash);
    assert [] + [Slash] == [Slash];
    LineRunSnoc(m, c, [Slash], Star);
    assert [Slash] + [Star] == [Slash, Star];
  }

  /** The closing delimiter inside a block comment ends it and counts as
      nothing; its `/` becomes the byte before the next one. */
  lemma StarSlash(m: Mode, c: LineCount)
    requires m.inBlockComment && !m.inLineComment
    ensures var r := LineRun(m, c, [Star, Slash]);
            && !InComment(r.0) && r.0.prevByte == Slash
            && r.1.code == c.code && r.1.comment == c.comment
  {
    LineRunSnoc(m, c, [], Star);
    assert [] + [Star] == [Star];
    LineRunSnoc(m, c, [Star], Slash);
    assert [Star] + [Slash] == [Star, Slash];
  }

  /** A `*` right after `//` does not open a block comment: the first two
      slashes already opened a line comment. */
  lemma SlashSlashStar(m: Mode, c: LineCount)
    requires !InComment(m)
    ensures var r := LineRun(m, c, [Slash, Slash, Star]).0;
            r.inLineComment && !r.inBlockComment
  {
    SlashSlash(m, c);
    LineRunSnoc(m, c, [Slash, Slash], Star);
    assert [Slash, Slash] + [Star] == [Slash, Slash, Star];
  }

  /** The line that opens a block comment: `pre`, the opening delimiter and
      `body`, begun outside any comment, where `pre` holds no comment punctuation and the `/` does not
      follow a `/`, and `body` holds no closing delimiter: it is a code line
      exactly when `pre` has content, a comment line exactly when `body`
      has content, and the block comment goes on into the next line. */
  lemma OpeningLine(m: Mode, pre: seq<byte>, body: seq<byte>)
    requires !InComment(m)
    requires pre != [] || m.prevByte != Slash
    requires forall i :: 0 <= i < |pre| ==> pre[i] != Slash && pre[i] != Star && pre[i] != Newline
    requires Newline !in body && NoCloser(Star, body)
    ensures var r := LineRun(m, NoBytes, pre + [Slash, Star] + body + [Newline]);
            && (Is(r.1, CodeLine) <==> HasContent(pre))
            && (Is(r.1, CommentLine) <==> HasContent(body))
            && r.0.inBlockComment && !r.0.inLineComment
  {
    var a := pre + [Slash, Star];
    var line := a + body;
    var r1 := LineRun(m, NoBytes, pre);
    OutsideRun(m, NoBytes, pre);
    LineRunConcat(m, NoBytes, pre, [Slash, Star]);
    SlashStar(r1.0, r1.1);
    var r2 := LineRun(m, NoBytes, a);
    LineRunConcat(m, NoBytes, a, body);
    InBlockRun(r2.0, r2.1, body);
    LineRunSnoc(m, NoBytes, line, Newline);
  }

  /** The line that closes a block comment: `body`, the closing delimiter
      and `post`, where `body`
      holds no closing delimiter and `post` no comment punctuation: it is a
      code line exactly when `post` has content, a comment line exactly when
      `body` has content, and the line ends outside any comment. */
  lemma ClosingLine(m: Mode, body: seq<byte>, post: seq<byte>)
    requires m.inBlockComment && !m.inLineComment
    requires Newline !in body && NoCloser(m.prevByte, body)
    requires forall i :: 0 <= i < |post| ==> post[i] != Slash && post[i] != Star && post[i] != Newline
    ensures var r := LineRun(m, NoBytes, body + [Star, Slash] + post + [Newline]);
            && (Is(r.1, CodeLine) <==> HasContent(post))
            && (Is(r.1, CommentLine) <==> HasContent(body))
            && !InComment(r.0)
  {
    var a := body + [Star, Slash];
    var line := a + post;
    var r1 := LineRun(m, NoBytes, body);
    InBlockRun(m, NoBytes, body);
    LineRunConcat(m, NoBytes, body, [Star, Slash]);
    StarSlash(r1.0, r1.1);
    var r2 := LineRun(m, NoBytes, a);
    LineRunConcat(m, NoBytes, a, post);
    OutsideRun(r2.0, r2.1, post);
    LineRunSnoc(m, NoBytes, line, Newline);
  }

  /** The `/` of a closing delimiter also starts the next delimiter: a `*`
      right after it reopens a block comment, and a `/` right after it
      opens a line comment. */
  lemma CloserSlashIsShared(m: Mode, c: LineCount)
    requires m.inBlockComment && !m.inLineComment
    ensures LineRun(m, c, [Star, Slash, Star]).0.inBlockComment
    ensures LineRun(m, c, [Star, Slash, Slash]).0.inLineComment
  {
    StarSlash(m, c);
    var r := LineRun(m, c, [Star, Slash]);
    LineRunSnoc(m, c, [Star, Slash], Star);
    assert [Star, Slash] + [Star] == [Star, Slash, Star];
    LineRunSnoc(m, c, [Star, Slash], Slash);
    assert [Star, Slash] + [Slash] == [Star, Slash, Slash];
  }

  // A worked input.

  const SampleLine1: seq<byte> := [97, 61, 49, 10]
  const SampleLine2: seq<byte> := [47, 47, 32, 99, 111, 109, 109, 101, 110, 116, 10]
  const SampleLine3: seq<byte> := [10]
  const SampleLine4: seq<byte> := [47, 42, 32, 98, 108, 111, 99, 107, 10]
  const SampleLine5: seq<byte> := [115, 116, 105, 108, 108, 32, 98, 108, 111, 99, 107, 32, 42, 47, 10]
  const SampleLine6: seq<byte> := [98, 61, 50, 10]

  /** Six lines, each ended by a line break: `a=1`, `// comment`, an empty
      line, a block comment opened on the fourth line (its opening delimiter
      and `block`) and closed on the fifth (`still block`, a space and the
      closing delimiter), and `b=2`. */
  const Sample: seq<byte> := SampleLine1 + SampleLine2 + SampleLine3 + SampleLine4 + SampleLine5 + SampleLine6

  // Each SampleChunk lemma scans one piece of a line, at most four bytes,
  // from the state the piece before it left behind.

  lemma SampleChunk1()
    ensures Run(Scan(Mode(false, false, 0), LineCount(0, 0, 0), Totals(0, 0, 0, 0, 0, 0, 0, 0, 0, 0)), [97, 61, 49, 10])
         == Scan(Mode(false, false, 10), LineCount(0, 0, 0), Totals(1, 1, 0, 0, 4, 3, 0, 4, 3, 0))
  {
    var s := Scan(Mode(false, false, 0), LineCount(0, 0, 0), Totals(0, 0, 0, 0, 0, 0, 0, 0, 0, 0));
    var p: seq<byte> := [];
    RunSnoc(s, p, 97);
    p := p + [97];
    assert Run(s, p) == Scan(Mode(false, false, 97), LineCount(1, 1, 0), Totals(0, 0, 0, 0, 0, 0, 0, 0, 0, 0));
    RunSnoc(s, p, 61);
    p := p + [61];
    assert Run(s, p) == Scan(Mode(false, false, 61), LineCount(2, 2, 0), Totals(0, 0, 0, 0, 0, 0, 0, 0, 0, 0));
    RunSnoc(s, p, 49);
    p := p + [49];
    assert Run(s, p) == Scan(Mode(false, false, 49), LineCount(3, 3, 0), Totals(0, 0, 0, 0, 0, 0, 0, 0, 0, 0));
    RunSnoc(s, p, 10);
    p := p + [10];
    assert Run(s, p) == Scan(Mode(false, false, 10), LineCount(0, 0, 0), Totals(1, 1, 0, 0, 4, 3, 0, 4, 3, 0));
    assert p == [97, 61, 49, 10];
  }

  lemma SampleChunk2()
    ensures Run(Scan(Mode(false, false, 10), LineCount(0, 0, 0), Totals(1, 1, 0, 0, 4, 3, 0, 4, 3, 0)), [47, 47, 32, 99])
         == Scan(Mode(false, true, 99), LineCount(4, 0, 1), Totals(1, 1, 0, 0, 4, 3, 0, 4, 3, 0))
  {
    var s := Scan(Mode(false, false, 10), LineCount(0, 0, 0), Totals(1, 1, 0, 0, 4, 3, 0, 4, 3, 0));
    var p: seq<byte> := [];
    RunSnoc(s, p, 47);
    p := p + [47];
    assert Run(s, p) == Scan(Mode(false, false, 47), LineCount(1, 0, 0), Totals(1, 1, 0, 0, 4, 3, 0, 4, 3, 0));
    RunSnoc(s, p, 47);
    p := p + [47];
    assert Run(s, p) == Scan(Mode(false, true, 47), LineCount(2, 0, 0), Totals(1, 1, 0, 0, 4, 3, 0, 4, 3, 0));
    RunSnoc(s, p, 32);
    p := p + [32];
    assert Run(s, p) == Scan(Mode(false, true, 32), LineCount(3, 0, 0), Totals(1, 1, 0, 0, 4, 3, 0, 4, 3, 0));
    RunSnoc(s, p, 99);
    p := p + [99];
    assert Run(s, p) == Scan(Mode(false, true, 99), LineCount(4, 0, 1), Totals(1, 1, 0, 0, 4, 3, 0, 4, 3, 0));
    assert p == [47, 47, 32, 99];
  }

  lemma SampleChunk3()
    ensures Run(Scan(Mode(false, true, 99), LineCount(4, 0, 1), Totals(1, 1, 0, 0, 4, 3, 0, 4, 3, 0)), [111, 109, 109, 101])
         == Scan(Mode(false, true, 101), LineCount(8, 0, 5), Totals(1, 1, 0, 0, 4, 3, 0, 4, 3, 0))
  {
    var s := Scan(Mode(false, true, 99), LineCount(4, 0, 1), Totals(1, 1, 0, 0, 4, 3, 0, 4, 3, 0));
    var p: seq<byte> := [];
    RunSnoc(s, p, 111);
    p := p + [111];
    assert Run(s, p) == Scan(Mode(false, true, 111), LineCount(5, 0, 2), Totals(1, 1, 0, 0, 4, 3, 0, 4, 3, 0));
    RunSnoc(s, p, 109);
    p := p + [109];
    assert Run(s, p) == Scan(Mode(false, true, 109), LineCount(6, 0, 3), Totals(1, 1, 0, 0, 4, 3, 0, 4, 3, 0));
    RunSnoc(s, p, 109);
    p := p + [109];
    assert Run(s, p) == Scan(Mode(false, true, 109), LineCount(7, 0, 4), Totals(1, 1, 0, 0, 4, 3, 0, 4, 3, 0));
    RunSnoc(s, p, 101);
    p := p + [101];
    assert Run(s, p) == Scan(Mode(false, true, 101), LineCount(8, 0, 5), Totals(1, 1, 0, 0, 4, 3, 0, 4, 3, 0));
    assert p == [111, 109, 109, 101];
  }

  lemma SampleChunk4()
    ensures Run(Scan(Mode(false, true, 101), LineCount(8, 0, 5), Totals(1, 1, 0, 0, 4, 3, 0, 4, 3, 0)), [110, 116, 10])
         == Scan(Mode(false, false, 10), LineCount(0, 0, 0), Totals(2, 1, 1, 0, 15, 3, 7, 11, 3, 7))
  {
    var s := Scan(Mode(false, true, 101), LineCount(8, 0, 5), Totals(1, 1, 0, 0, 4, 3, 0, 4, 3, 0));
    var p: seq<byte> := [];
    RunSnoc(s, p, 110);
    p := p + [110];
    assert Run(s, p) == Scan(Mode(false, true, 110), LineCount(9, 0, 6), Totals(1, 1, 0, 0, 4, 3, 0, 4, 3, 0));
    RunSnoc(s, p, 116);
    p := p + [116];
    assert Run(s, p) == Scan(Mode(false, true, 116), LineCount(10, 0, 7), Totals(1, 1, 0, 0, 4, 3, 0, 4, 3, 0));
    RunSnoc(s, p, 10);
    p := p + [10];
    assert Run(s, p) == Scan(Mode(false, false, 10), LineCount(0, 0, 0), Totals(2, 1, 1, 0, 15, 3, 7, 11, 3, 7));
    assert p == [110, 116, 10];
  }

  lemma SampleChunk5()
    ensures Run(Scan(Mode(false, false, 10), LineCount(0, 0, 0), Totals(2, 1, 1, 0, 15, 3, 7, 11, 3, 7)), [10])
         == Scan(Mode(false, false, 10), LineCount(0, 0, 0), Totals(3, 1, 1, 1, 16, 3, 7, 11, 3, 7))
  {
    var s := Scan(Mode(false, false, 10), LineCount(0, 0, 0), Totals(2, 1, 1, 0, 15, 3, 7, 11, 3, 7));
    var p: seq<byte> := [];
    RunSnoc(s, p, 10);
    p := p + [10];
    assert Run(s, p) == Scan(Mode(false, false, 10), LineCount(0, 0, 0), Totals(3, 1, 1, 1, 16, 3, 7, 11, 3, 7));
    assert p == [10];
  }

  lemma SampleChunk6()
    ensures Run(Scan(Mode(false, false, 10), LineCount(0, 0, 0), Totals(3, 1, 1, 1, 16, 3, 7, 11, 3, 7)), [47, 42, 32, 98])
         == Scan(Mode(true, false, 98), LineCount(4, 0, 1), Totals(3, 1, 1, 1, 16, 3, 7, 11, 3, 7))
  {
    var s := Scan(Mode(false, false, 10), LineCount(0, 0, 0), Totals(3, 1, 1, 1, 16, 3, 7, 11, 3, 7));
    var p: seq<byte> := [];
    RunSnoc(s, p, 47);
    p := p + [47];
    assert Run(s, p) == Scan(Mode(false, false, 47), LineCount(1, 0, 0), Totals(3, 1, 1, 1, 16, 3, 7, 11, 3, 7));
    RunSnoc(s, p, 42);
    p := p + [42];
    assert Run(s, p) == Scan(Mode(true, false, 42), LineCount(2, 0, 0), Totals(3, 1, 1, 1, 16, 3, 7, 11, 3, 7));
    RunSnoc(s, p, 32);
    p := p + [32];
    assert Run(s, p) == Scan(Mode(true, false, 32), LineCount(3, 0, 0), Totals(3, 1, 1, 1, 16, 3, 7, 11, 3, 7));
    RunSnoc(s, p, 98);
    p := p + [98];
    assert Run(s, p) == Scan(Mode(true, false, 98), LineCount(4, 0, 1), Totals(3, 1, 1, 1, 16, 3, 7, 11, 3, 7));
    assert p == [47, 42, 32, 98];
  }

  lemma SampleChunk7()
    ensures Run(Scan(Mode(true, false, 98), LineCount(4, 0, 1), Totals(3, 1, 1, 1, 16, 3, 7, 11, 3, 7)), [108, 111, 99, 107])
         == Scan(Mode(true, false, 107), LineCount(8, 0, 5), Totals(3, 1, 1, 1, 16, 3, 7, 11, 3, 7))
  {
    var s := Scan(Mode(true, false, 98), LineCount(4, 0, 1), Totals(3, 1, 1, 1, 16, 3, 7, 11, 3, 7));
    var p: seq<byte> := [];
    RunSnoc(s, p, 108);
    p := p + [108];
    assert Run(s, p) == Scan(Mode(true, false, 108), LineCount(5, 0, 2), Totals(3, 1, 1, 1, 16, 3, 7, 11, 3, 7));
    RunSnoc(s, p, 111);
    p := p + [111];
    assert Run(s, p) == Scan(Mode(true, false, 111), LineCount(6, 0, 3), Totals(3, 1, 1, 1, 16, 3, 7, 11, 3, 7));
    RunSnoc(s, p, 99);
    p := p + [99];
    assert Run(s, p) == Scan(Mode(true, false, 99), LineCount(7, 0, 4), Totals(3, 1, 1, 1, 16, 3, 7, 11, 3, 7));
    RunSnoc(s, p, 107);
    p := p + [107];
    assert Run(s, p) == Scan(Mode(true, false, 107), LineCount(8, 0, 5), Totals(3, 1, 1, 1, 16, 3, 7, 11, 3, 7));
    assert p == [108, 111, 99, 107];
  }

  lemma SampleChunk8()
    ensures Run(Scan(Mode(true, false, 107), LineCount(8, 0, 5), Totals(3, 1, 1, 1, 16, 3, 7, 11, 3, 7)), [10])
         == Scan(Mode(true, false, 10), LineCount(0, 0, 0), Totals(4, 1, 2, 1, 25, 3, 12, 11, 3, 7))
  {
    var s := Scan(Mode(true, false, 107), LineCount(8, 0, 5), Totals(3, 1, 1, 1, 16, 3, 7, 11, 3, 7));
    var p: seq<byte> := [];
    RunSnoc(s, p, 10);
    p := p + [10];
    assert Run(s, p) == Scan(Mode(true, false, 10), LineCount(0, 0, 0), Totals(4, 1, 2, 1, 25, 3, 12, 11, 3, 7));
    assert p == [10];
  }

  lemma SampleChunk9()
    ensures Run(Scan(Mode(true, false, 10), LineCount(0, 0, 0), Totals(4, 1, 2, 1, 25, 3, 12, 11, 3, 7)), [115, 116, 105, 108])
         == Scan(Mode(true, false, 108), LineCount(4, 0, 4), Totals(4, 1, 2, 1, 25, 3, 12, 11, 3, 7))
  {
    var s := Scan(Mode(true, false, 10), LineCount(0, 0, 0), Totals(4, 1, 2, 1, 25, 3, 12, 11, 3, 7));
    var p: seq<byte> := [];
    RunSnoc(s, p, 115);
    p := p + [115];
    assert Run(s, p) == Scan(Mode(true, false, 115), LineCount(1, 0, 1), Totals(4, 1, 2, 1, 25, 3, 12, 11, 3, 7));
    RunSnoc(s, p, 116);
    p := p + [116];
    assert Run(s, p) == Scan(Mode(true, false, 116), LineCount(2, 0, 2), Totals(4, 1, 2, 1, 25, 3, 12, 11, 3, 7));
    RunSnoc(s, p, 105);
    p := p + [105];
    assert Run(s, p) == Scan(Mode(true, false, 105), LineCount(3, 0, 3), Totals(4, 1, 2, 1, 25, 3, 12, 11, 3, 7));
    RunSnoc(s, p, 108);
    p := p + [108];
    assert Run(s, p) == Scan(Mode(true, false, 108), LineCount(4, 0, 4), Totals(4, 1, 2, 1, 25, 3, 12, 11, 3, 7));
    assert p == [115, 116, 105, 108];
  }

  lemma SampleChunk10()
    ensures Run(Scan(Mode(true, false, 108), LineCount(4, 0, 4), Totals(4, 1, 2, 1, 25, 3, 12, 11, 3, 7)), [108, 32, 98, 108])
         == Scan(Mode(true, false, 108), LineCount(8, 0, 7), Totals(4, 1, 2, 1, 25, 3, 12, 11, 3, 7))
  {
    var s := Scan(Mode(true, false, 108), LineCount(4, 0, 4), Totals(4, 1, 2, 1, 25, 3, 12, 11, 3, 7));
    var p: seq<byte> := [];
    RunSnoc(s, p, 108);
    p := p + [108];
    assert Run(s, p) == Scan(Mode(true, false, 108), LineCount(5, 0, 5), Totals(4, 1, 2, 1, 25, 3, 12, 11, 3, 7));
    RunSnoc(s, p, 32);
    p := p + [32];
    assert Run(s, p) == Scan(Mode(true, false, 32), LineCount(6, 0, 5), Totals(4, 1, 2, 1, 25, 3, 12, 11, 3, 7));
    RunSnoc(s, p, 98);
    p := p + [98];
    assert Run(s, p) == Scan(Mode(true, false, 98), LineCount(7, 0, 6), Totals(4, 1, 2, 1, 25, 3, 12, 11, 3, 7));
    RunSnoc(s, p, 108);
    p := p + [108];
    assert Run(s, p) == Scan(Mode(true, false, 108), LineCount(8, 0, 7), Totals(4, 1, 2, 1, 25, 3, 12, 11, 3, 7));
    assert p == [108, 32, 98, 108];
  }

  lemma SampleChunk11()
    ensures Run(Scan(Mode(true, false, 108), LineCount(8, 0, 7), Totals(4, 1, 2, 1, 25, 3, 12, 11, 3, 7)), [111, 99, 107, 32])
         == Scan(Mode(true, false, 32), LineCount(12, 0, 10), Totals(4, 1, 2, 1, 25, 3, 12, 11, 3, 7))
  {
    var s := Scan(Mode(true, false, 108), LineCount(8, 0, 7), Totals(4, 1, 2, 1, 25, 3, 12, 11, 3, 7));
    var p: seq<byte> := [];
    RunSnoc(s, p, 111);
    p := p + [111];
    assert Run(s, p) == Scan(Mode(true, false, 111), LineCount(9, 0, 8), Totals(4, 1, 2, 1, 25, 3, 12, 11, 3, 7));
    RunSnoc(s, p, 99);
    p := p + [99];
    assert Run(s, p) == Scan(Mode(true, false, 99), LineCount(10, 0, 9), Totals(4, 1, 2, 1, 25, 3, 12, 11, 3, 7));
    RunSnoc(s, p, 107);
    p := p + [107];
    assert Run(s, p) == Scan(Mode(true, false, 107), LineCount(11, 0, 10), Totals(4, 1, 2, 1, 25, 3, 12, 11, 3, 7));
    RunSnoc(s, p, 32);
    p := p + [32];
    assert Run(s, p) == Scan(Mode(true, false, 32), LineCount(12, 0, 10), Totals(4, 1, 2, 1, 25, 3, 12, 11, 3, 7));
    assert p == [111, 99, 107, 32];
  }

  lemma SampleChunk12()
    ensures Run(Scan(Mode(true, false, 32), LineCount(12, 0, 10), Totals(4, 1, 2, 1, 25, 3, 12, 11, 3, 7)), [42, 47, 10])
         == Scan(Mode(false, false, 10), LineCount(0, 0, 0), Totals(5, 1, 3, 1, 40, 3, 22, 15, 3, 10))
  {
    var s := Scan(Mode(true, false, 32), LineCount(12, 0, 10), Totals(4, 1, 2, 1, 25, 3, 12, 11, 3, 7));
    var p: seq<byte> := [];
    RunSnoc(s, p, 42);
    p := p + [42];
    assert Run(s, p) == Scan(Mode(true, false, 42), LineCount(13, 0, 10), Totals(4, 1, 2, 1, 25, 3, 12, 11, 3, 7));
    RunSnoc(s, p, 47);
    p := p + [47];
    assert Run(s, p) == Scan(Mode(false, false, 47), LineCount(14, 0, 10), Totals(4, 1, 2, 1, 25, 3, 12, 11, 3, 7));
    RunSnoc(s, p, 10);
    p := p + [10];
    assert Run(s, p) == Scan(Mode(false, false, 10), LineCount(0, 0, 0), Totals(5, 1, 3, 1, 40, 3, 22, 15, 3, 10));
    assert p == [42, 47, 10];
  }

  lemma SampleChunk13()
    ensures Run(Scan(Mode(false, false, 10), LineCount(0, 0, 0), Totals(5, 1, 3, 1, 40, 3, 22, 15, 3, 10)), [98, 61, 50, 10])
         == Scan(Mode(false, false, 10), LineCount(0, 0, 0), Totals(6, 2, 3, 1, 44, 6, 22, 15, 3, 10))
  {
    var s := Scan(Mode(false, false, 10), LineCount(0, 0, 0), Totals(5, 1, 3, 1, 40, 3, 22, 15, 3, 10));
    var p: seq<byte> := [];
    RunSnoc(s, p, 98);
    p := p + [98];
    assert Run(s, p) == Scan(Mode(false, false, 98), LineCount(1, 1, 0), Totals(5, 1, 3, 1, 40, 3, 22, 15, 3, 10));
    RunSnoc(s, p, 61);
    p := p + [61];
    assert Run(s, p) == Scan(Mode(false, false, 61), LineCount(2, 2, 0), Totals(5, 1, 3, 1, 40, 3, 22, 15, 3, 10));
    RunSnoc(s, p, 50);
    p := p + [50];
    assert Run(s, p) == Scan(Mode(false, false, 50), LineCount(3, 3, 0), Totals(5, 1, 3, 1, 40, 3, 22, 15, 3, 10));
    RunSnoc(s, p, 10);
    p := p + [10];
    assert Run(s, p) == Scan(Mode(false, false, 10), LineCount(0, 0, 0), Totals(6, 2, 3, 1, 44, 6, 22, 15, 3, 10));
    assert p == [98, 61, 50, 10];
  }

  /** The pieces scanned one after another, from the initial state. */
  lemma SampleRun()
    ensures Run(Scan(Mode(false, false, 0), LineCount(0, 0, 0), Totals(0, 0, 0, 0, 0, 0, 0, 0, 0, 0)),
                [97, 61, 49, 10] + [47, 47, 32, 99] + [111, 109, 109, 101] + [110, 116, 10]
                + [10] + [47, 42, 32, 98] + [108, 111, 99, 107] + [10]
                + [115, 116, 105, 108] + [108, 32, 98, 108] + [111, 99, 107, 32] + [42, 47, 10]
                + [98, 61, 50, 10])
         == Scan(Mode(false, false, 10), LineCount(0, 0, 0), Totals(6, 2, 3, 1, 44, 6, 22, 15, 3, 10))
  {
    var s := Scan(Mode(false, false, 0), LineCount(0, 0, 0), Totals(0, 0, 0, 0, 0, 0, 0, 0, 0, 0));
    var p: seq<byte> := [97, 61, 49, 10];
    SampleChunk1();
    SampleChunk2();
    RunConcat(s, p, [47, 47, 32, 99]);
    p := p + [47, 47, 32, 99];
    assert Run(s, p) == Scan(Mode(false, true, 99), LineCount(4, 0, 1), Totals(1, 1, 0, 0, 4, 3, 0, 4, 3, 0));
    SampleChunk3();
    RunConcat(s, p, [111, 109, 109, 101]);
    p := p + [111, 109, 109, 101];
    assert Run(s, p) == Scan(Mode(false, true, 101), LineCount(8, 0, 5), Totals(1, 1, 0, 0, 4, 3, 0, 4, 3, 0));
    SampleChunk4();
    RunConcat(s, p, [110, 116, 10]);
    p := p + [110, 116, 10];
    assert Run(s, p) == Scan(Mode(false, false, 10), LineCount(0, 0, 0), Totals(2, 1, 1, 0, 15, 3, 7, 11, 3, 7));
    SampleChunk5();
    RunConcat(s, p, [10]);
    p := p + [10];
    assert Run(s, p) == Scan(Mode(false, false, 10), LineCount(0, 0, 0), Totals(3, 1, 1, 1, 16, 3, 7, 11, 3, 7));
    SampleChunk6();
    RunConcat(s, p, [47, 42, 32, 98]);
    p := p + [47, 42, 32, 98];
    assert Run(s, p) == Scan(Mode(true, false, 98), LineCount(4, 0, 1), Totals(3, 1, 1, 1, 16, 3, 7, 11, 3, 7));
    SampleChunk7();
    RunConcat(s, p, [108, 111, 99, 107]);
    p := p + [108, 111, 99, 107];
    assert Run(s, p) == Scan(Mode(true, false, 107), LineCount(8, 0, 5), Totals(3, 1, 1, 1, 16, 3, 7, 11, 3, 7));
    SampleChunk8();
    RunConcat(s, p, [10]);
    p := p + [10];
    assert Run(s, p) == Scan(Mode(true, false, 10), LineCount(0, 0, 0), Totals(4, 1, 2, 1, 25, 3, 12, 11, 3, 7));
    SampleChunk9();
    RunConcat(s, p, [115, 116, 105, 108]);
    p := p + [115, 116, 105, 108];
    assert Run(s, p) == Scan(Mode(true, false, 108), LineCount(4, 0, 4), Totals(4, 1, 2, 1, 25, 3, 12, 11, 3, 7));
    SampleChunk10();
    RunConcat(s, p, [108, 32, 98, 108]);
    p := p + [108, 32, 98, 108];
    assert Run(s, p) == Scan(Mode(true, false, 108), LineCount(8, 0, 7), Totals(4, 1, 2, 1, 25, 3, 12, 11, 3, 7));
    SampleChunk11();
    RunConcat(s, p, [111, 99, 107, 32]);
    p := p + [111, 99, 107, 32];
    assert Run(s, p) == Scan(Mode(true, false, 32), LineCount(12, 0, 10), Totals(4, 1, 2, 1, 25, 3, 12, 11, 3, 7));
    SampleChunk12();
    RunConcat(s, p, [42, 47, 10]);
    p := p + [42, 47, 10];
    assert Run(s, p) == Scan(Mode(false, false, 10), LineCount(0, 0, 0), Totals(5, 1, 3, 1, 40, 3, 22, 15, 3, 10));
    SampleChunk13();
    RunConcat(s, p, [98, 61, 50, 10]);
    p := p + [98, 61, 50, 10];
    assert Run(s, p) == Scan(Mode(false, false, 10), LineCount(0, 0, 0), Totals(6, 2, 3, 1, 44, 6, 22, 15, 3, 10));
  }

  lemma SampleLine2Chunks()
    ensures SampleLine2 == [47, 47, 32, 99] + [111, 109, 109, 101] + [110, 116, 10]
  { }

  lemma SampleLine4Chunks()
    ensures SampleLine4 == [47, 42, 32, 98] + [108, 111, 99, 107] + [10]
  { }

  lemma SampleLine5Chunks()
    ensures SampleLine5 == [115, 116, 105, 108] + [108, 32, 98, 108] + [111, 99, 107, 32] + [42, 47, 10]
  { }

  /** The input is the concatenation of the pieces. */
  lemma SampleChunks()
    ensures Sample == [97, 61, 49, 10] + [47, 47, 32, 99] + [111, 109, 109, 101]
            + [110, 116, 10] + [10] + [47, 42, 32, 98] + [108, 111, 99, 107] + [10]
            + [115, 116, 105, 108] + [108, 32, 98, 108] + [111, 99, 107, 32] + [42, 47, 10]
            + [98, 61, 50, 10]
  {
    SampleLine2Chunks();
    SampleLine4Chunks();
    SampleLine5Chunks();
  }

  lemma InitLiteral()
    ensures Init == Scan(Mode(false, false, 0), LineCount(0, 0, 0), Totals(0, 0, 0, 0, 0, 0, 0, 0, 0, 0))
  { }

  /** The input has six lines: two code lines (`a=1` and `b=2`), three
      comment lines (the line comment and both lines of the block comment)
      and one empty line. */
  lemma SampleTotals()
    ensures var t := Run(Init, Sample).totals;
            t.linesAll == 6 && t.linesCode == 2 && t.linesComment == 3 && t.linesEmpty == 1
  {
    SampleRun();
    SampleChunks();
    InitLiteral();
  }
}
