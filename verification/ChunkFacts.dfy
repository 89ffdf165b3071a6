/** What chunking guarantees: no character lost but in dropped chunks and headings, order, sizes, whole words. */
module ChunkFacts {
  import opened Basics
  import opened Text
  import opened Chunks

  /** A character that is not whitespace, with the path it stands under. */
  datatype Mark = Mark(c: char, path: Path)

  function MarksOf(ink: string, path: Path): seq<Mark>
  {
    if ink == [] then [] else [Mark(ink[0], path)] + MarksOf(ink[1..], path)
  }

  function ChunkMarks(c: Chunk): seq<Mark>
  {
    MarksOf(Ink(c.text), c.path)
  }

  function AllMarks(chunks: seq<Chunk>): seq<Mark>
  {
    if chunks == [] then [] else ChunkMarks(chunks[0]) + AllMarks(chunks[1..])
  }

  /**
   The reference: the text read once, every character that is not whitespace put down under the
   path in force, heading lines outside fences only changing the path.
   */
  function Stream(lines: seq<string>, path: Path, fenced: bool): seq<Mark>
    decreases |lines|
  {
    if lines == [] then []
    else
      var line := lines[0];
      if fenced then MarksOf(Ink(line), path) + Stream(lines[1..], path, !IsFence(line))
      else if IsHeading(line) then Stream(lines[1..], Below(path, line), false)
      else MarksOf(Ink(line), path) + Stream(lines[1..], path, IsFence(line))
  }

  lemma Associates<A>(a: seq<A>, b: seq<A>, c: seq<A>)
    ensures a + b + c == a + (b + c)
  {
  }

  // ---- ink ------------------------------------------------------------------

  lemma {:induction false} InkAppend(a: string, b: string)
    ensures Ink(a + b) == Ink(a) + Ink(b)
  {
    if a == [] {
      assert a + b == b;
    } else {
      InkAppend(a[1..], b);
      assert (a + b)[0] == a[0] && (a + b)[1..] == a[1..] + b;
    }
  }

  lemma {:induction false} MarksAppend(a: string, b: string, path: Path)
    ensures MarksOf(a + b, path) == MarksOf(a, path) + MarksOf(b, path)
  {
    if a == [] {
      assert a + b == b;
    } else {
      MarksAppend(a[1..], b, path);
      assert (a + b)[0] == a[0] && (a + b)[1..] == a[1..] + b;
    }
  }

  lemma {:induction false} AllMarksAppend(a: seq<Chunk>, b: seq<Chunk>)
    ensures AllMarks(a + b) == AllMarks(a) + AllMarks(b)
  {
    if a == [] {
      assert a + b == b;
    } else {
      AllMarksAppend(a[1..], b);
      assert (a + b)[0] == a[0] && (a + b)[1..] == a[1..] + b;
      Associates(ChunkMarks(a[0]), AllMarks(a[1..]), AllMarks(b));
    }
  }

  lemma {:induction false} NoInk(s: string)
    requires forall c <- s :: IsSpace(c)
    ensures Ink(s) == []
  {
    if s != [] {
      assert s[0] in s;
      NoInk(s[1..]);
    }
  }

  lemma {:induction false} InkLStrip(s: string)
    ensures Ink(LStrip(s)) == Ink(s)
  {
    if s != [] && IsSpace(s[0]) {
      InkLStrip(s[1..]);
    }
  }

  lemma {:induction false} InkRStrip(s: string)
    ensures Ink(RStrip(s)) == Ink(s)
  {
    if s != [] && IsSpace(s[|s| - 1]) {
      var n := |s| - 1;
      InkRStrip(s[..n]);
      InkAppend(s[..n], [s[n]]);
      assert s == s[..n] + [s[n]];
      NoInk([s[n]]);
    }
  }

  lemma InkStrip(s: string)
    ensures Ink(Strip(s)) == Ink(s)
  {
    InkLStrip(s);
    InkRStrip(LStrip(s));
  }

  lemma {:induction false} InkLStripNewlines(s: string)
    ensures Ink(LStripNewlines(s)) == Ink(s)
  {
    if s != [] && s[0] == '\n' {
      InkLStripNewlines(s[1..]);
    }
  }

  function InkOfLines(lines: seq<string>): string
  {
    if lines == [] then [] else Ink(lines[0]) + InkOfLines(lines[1..])
  }

  lemma {:induction false} InkOfJoined(lines: seq<string>)
    ensures Ink(JoinWith("\n", lines)) == InkOfLines(lines)
  {
    if |lines| == 1 {
      assert InkOfLines(lines[1..]) == [];
    } else if |lines| > 1 {
      InkOfJoined(lines[1..]);
      var rest := JoinWith("\n", lines[1..]);
      InkAppend(lines[0] + "\n", rest);
      InkAppend(lines[0], "\n");
      NoInk("\n");
    }
  }

  lemma {:induction false} InkOfLinesAppend(a: seq<string>, b: seq<string>)
    ensures InkOfLines(a + b) == InkOfLines(a) + InkOfLines(b)
  {
    if a == [] {
      assert a + b == b;
    } else {
      InkOfLinesAppend(a[1..], b);
      assert (a + b)[0] == a[0] && (a + b)[1..] == a[1..] + b;
      Associates(Ink(a[0]), InkOfLines(a[1..]), InkOfLines(b));
    }
  }

  lemma EndIsSpace(s: string)
    requires s != []
    ensures forall c <- s[FirstEnd(s).0..FirstEnd(s).1] :: IsSpace(c)
    decreases |s|
  {
    var e := FirstEnd(s);
    if s[0] == '\r' && |s| > 1 && s[1] == '\n' {
    } else if IsLineEnd(s[0]) {
    } else {
      var t := s[1..];
      assert s[e.0..e.1] == t[FirstEnd(t).0..FirstEnd(t).1];
      if t != [] {
        EndIsSpace(t);
      }
    }
  }

  lemma InkAroundEnd(s: string)
    requires s != []
    ensures Ink(s) == Ink(s[..FirstEnd(s).0]) + Ink(s[FirstEnd(s).1..])
  {
    var e := FirstEnd(s);
    var a, b, c := s[..e.0], s[e.0..e.1], s[e.1..];
    EndIsSpace(s);
    NoInk(b);
    InkAppend(a, b);
    InkAppend(a + b, c);
    assert s == a + b + c;
  }

  /** Splitting a text into lines loses only whitespace. */
  lemma {:induction false} LinesCarryInk(s: string)
    ensures InkOfLines(SplitLines(s)) == Ink(s)
    decreases |s|
  {
    if s != [] {
      var e := FirstEnd(s);
      LinesCarryInk(s[e.1..]);
      InkAroundEnd(s);
    }
  }

  // ---- blocks ---------------------------------------------------------------

  /** What a scan has put down or holds open. */
  function ScanMarks(s: Scan): seq<Mark>
  {
    AllMarks(s.blocks) + MarksOf(InkOfLines(s.paragraph), s.path)
    + match s.fence case Some(f) => MarksOf(InkOfLines(f), s.path) case None => []
  }

  /** A paragraph and a fence are never open at once. */
  predicate OneOpen(s: Scan)
  {
    s.fence.Some? ==> s.paragraph == [] && s.fence.value != []
  }

  lemma FlushKeeps(s: Scan)
    ensures ScanMarks(Flushed(s)) == ScanMarks(s) && Flushed(s).paragraph == [] && Flushed(s).fence == s.fence
    ensures Flushed(s).path == s.path
  {
    if s.paragraph != [] {
      var c := Chunk(Strip(JoinWith("\n", s.paragraph)), s.path);
      InkStrip(JoinWith("\n", s.paragraph));
      InkOfJoined(s.paragraph);
      AllMarksAppend(s.blocks, [c]);
    }
  }

  lemma CloseKeeps(s: Scan, f: seq<string>)
    requires s.paragraph == []
    ensures ScanMarks(Closed(s, f)) == AllMarks(s.blocks) + MarksOf(InkOfLines(f), s.path)
  {
    var c := Chunk(JoinWith("\n", f), s.path);
    InkOfJoined(f);
    AllMarksAppend(s.blocks, [c]);
    assert MarksOf(InkOfLines([]), s.path) == [];
  }

  lemma OneLineInk(line: string)
    ensures InkOfLines([line]) == Ink(line)
  {
  }

  predicate Quiet(s: Scan, line: string)
  {
    s.fence.None? && IsHeading(line)
  }

  lemma FenceLine(s: Scan, line: string)
    requires OneOpen(s) && s.fence.Some?
    ensures ScanMarks(Feed(s, line)) == ScanMarks(s) + MarksOf(Ink(line), s.path)
  {
    var f := s.fence.value;
    OneLineInk(line);
    InkOfLinesAppend(f, [line]);
    MarksAppend(InkOfLines(f), Ink(line), s.path);
    CloseKeeps(s, f + [line]);
  }

  lemma TextLine(s: Scan, line: string)
    requires s.fence.None?
    ensures ScanMarks(s.(paragraph := s.paragraph + [line])) == ScanMarks(s) + MarksOf(Ink(line), s.path)
  {
    OneLineInk(line);
    InkOfLinesAppend(s.paragraph, [line]);
    MarksAppend(InkOfLines(s.paragraph), Ink(line), s.path);
  }

  lemma OpenFence(s: Scan, line: string)
    requires s.fence.None? && s.paragraph == []
    ensures ScanMarks(s.(fence := Some([line]))) == ScanMarks(s) + MarksOf(Ink(line), s.path)
  {
    OneLineInk(line);
  }

  lemma PlainLine(s: Scan, line: string)
    requires OneOpen(s) && s.fence.None?
    ensures ScanMarks(Feed(s, line)) == ScanMarks(s) + (if Quiet(s, line) then [] else MarksOf(Ink(line), s.path))
  {
    FlushKeeps(s);
    if IsHeading(line) {
    } else if IsFence(line) {
      OpenFence(Flushed(s), line);
    } else if Blank(line) {
      BlankHasNoInk(line);
    } else {
      TextLine(s, line);
    }
  }

  /** One line adds its characters under the path in force, or changes the path. */
  lemma FeedMarks(s: Scan, line: string)
    requires OneOpen(s)
    ensures OneOpen(Feed(s, line))
    ensures ScanMarks(Feed(s, line)) == ScanMarks(s) + (if Quiet(s, line) then [] else MarksOf(Ink(line), s.path))
    ensures Feed(s, line).path == (if Quiet(s, line) then Below(s.path, line) else s.path)
    ensures Feed(s, line).fence.Some? == (if s.fence.Some? then !IsFence(line) else !Quiet(s, line) && IsFence(line))
  {
    FlushKeeps(s);
    if s.fence.Some? {
      FenceLine(s, line);
    } else {
      PlainLine(s, line);
    }
  }

  lemma {:induction false} BlankHasNoInk(line: string)
    requires Blank(line)
    ensures Ink(line) == []
  {
    if line != [] {
      BlankHasNoInk(line[1..]);
    }
  }

  lemma {:induction false} FeedAllMarks(s: Scan, lines: seq<string>)
    requires OneOpen(s)
    ensures OneOpen(FeedAll(s, lines))
    ensures ScanMarks(FeedAll(s, lines)) == ScanMarks(s) + Stream(lines, s.path, s.fence.Some?)
    decreases |lines|
  {
    if lines != [] {
      var t := Feed(s, lines[0]);
      FeedMarks(s, lines[0]);
      FeedAllMarks(t, lines[1..]);
      FeedStream(s, lines);
      Associates(ScanMarks(s), if Quiet(s, lines[0]) then [] else MarksOf(Ink(lines[0]), s.path),
                 Stream(lines[1..], t.path, t.fence.Some?));
    }
  }

  lemma FeedStream(s: Scan, lines: seq<string>)
    requires lines != [] && OneOpen(s)
    ensures Stream(lines, s.path, s.fence.Some?)
            == (if Quiet(s, lines[0]) then [] else MarksOf(Ink(lines[0]), s.path))
               + Stream(lines[1..], Feed(s, lines[0]).path, Feed(s, lines[0]).fence.Some?)
  {
  }

  lemma FinishKeeps(s: Scan)
    requires OneOpen(s)
    ensures AllMarks(Finished(s)) == ScanMarks(s)
  {
    match s.fence
    case Some(f) =>
      CloseKeeps(s, f);
      assert MarksOf(InkOfLines([]), s.path) == [];
      assert ScanMarks(Closed(s, f)) == AllMarks(Closed(s, f).blocks);
      assert ScanMarks(s) == AllMarks(s.blocks) + MarksOf(InkOfLines(f), s.path);
    case None =>
      FlushKeeps(s);
      assert MarksOf(InkOfLines([]), s.path) == [];
  }

  lemma BlocksCarryAll(text: string)
    ensures AllMarks(Blocks(text)) == Stream(SplitLines(text), [], false)
  {
    FeedAllMarks(START, SplitLines(text));
    FinishKeeps(FeedAll(START, SplitLines(text)));
  }

  // ---- packing --------------------------------------------------------------

  lemma JoinedMarks(a: Chunk, b: Chunk)
    requires a.path == b.path
    ensures ChunkMarks(Joined(a, b)) == ChunkMarks(a) + ChunkMarks(b)
  {
    InkAppend(a.text + "\n\n", b.text);
    InkAppend(a.text, "\n\n");
    NoInk("\n\n");
    assert Ink(Joined(a, b).text) == Ink(a.text) + Ink(b.text);
    MarksAppend(Ink(a.text), Ink(b.text), a.path);
  }

  lemma {:induction false} PackCarriesAll(current: Chunk, blocks: seq<Chunk>)
    ensures AllMarks(PackFrom(current, blocks)) == ChunkMarks(current) + AllMarks(blocks)
    decreases |blocks|
  {
    if blocks == [] {
    } else if Fits(current, blocks[0], SOFT_CHUNK_CHARS) {
      PackCarriesAll(Joined(current, blocks[0]), blocks[1..]);
      JoinedMarks(current, blocks[0]);
    } else {
      PackCarriesAll(blocks[0], blocks[1..]);
      AllMarksAppend([current], PackFrom(blocks[0], blocks[1..]));
    }
  }

  /**
   Packing is greedy: a chunk longer than the soft cap is a block of its own, and no two neighbours
   under one path would fit together.
   */
  lemma {:induction false} PackIsGreedy(current: Chunk, blocks: seq<Chunk>)
    ensures var r := PackFrom(current, blocks);
      && r != [] && r[0].path == current.path && |r[0].text| >= |current.text|
      && (forall i :: 0 <= i < |r| ==> |r[i].text| <= SOFT_CHUNK_CHARS || r[i] == current || r[i] in blocks)
      && (forall i :: 0 <= i < |r| - 1 ==> !Fits(r[i], r[i + 1], SOFT_CHUNK_CHARS))
    decreases |blocks|
  {
    if blocks != [] {
      if Fits(current, blocks[0], SOFT_CHUNK_CHARS) {
        PackIsGreedy(Joined(current, blocks[0]), blocks[1..]);
      } else {
        PackIsGreedy(blocks[0], blocks[1..]);
        assert blocks[0] in blocks;
      }
    }
  }

  // ---- splitting ------------------------------------------------------------

  /** Each piece with the gap after it, put together. */
  function Woven(pieces: seq<string>, gaps: seq<string>): string
    requires |gaps| == |pieces|
  {
    if pieces == [] then [] else pieces[0] + gaps[0] + Woven(pieces[1..], gaps[1..])
  }

  ghost predicate AllOf(s: string, at: char -> bool)
  {
    forall i :: 0 <= i < |s| ==> at(s[i])
  }

  ghost predicate NoneOf(s: string, at: char -> bool)
  {
    forall i :: 0 <= i < |s| ==> !at(s[i])
  }

  /** A piece the next one may touch: a full window without a separator. */
  ghost predicate FullRun(piece: string, at: char -> bool)
  {
    |piece| == HARD_CHUNK_CHARS && NoneOf(piece, at)
  }

  predicate Sized(piece: string)
  {
    1 <= |piece| <= HARD_CHUNK_CHARS
  }

  /**
   A split at separators: nothing but separators is left out, no piece is empty or too long, and
   two pieces touch only where 2000 characters without a separator are followed by another.
   */
  ghost predicate CleanSplit(text: string, pieces: seq<string>, gaps: seq<string>, at: char -> bool)
  {
    && |gaps| == |pieces| && Woven(pieces, gaps) == text
    && (forall k :: 0 <= k < |gaps| ==> AllOf(gaps[k], at))
    && (forall k :: 0 <= k < |pieces| ==> Sized(pieces[k]) && !at(pieces[k][0]))
    && (forall k :: 0 <= k < |pieces| - 1 && gaps[k] == [] ==> FullRun(pieces[k], at))
  }

  lemma {:induction false} LStripIs(s: string) returns (gap: string)
    ensures s == gap + LStrip(s) && AllOf(gap, Space())
    ensures LStrip(s) != [] ==> !IsSpace(LStrip(s)[0])
  {
    if s != [] && IsSpace(s[0]) {
      var rest := LStripIs(s[1..]);
      gap := [s[0]] + rest;
    } else {
      gap := [];
    }
  }

  lemma {:induction false} RStripIs(s: string) returns (gap: string)
    ensures s == RStrip(s) + gap && AllOf(gap, Space())
    ensures s != [] && !IsSpace(s[0]) ==> RStrip(s) != [] && RStrip(s)[0] == s[0]
  {
    if s != [] && IsSpace(s[|s| - 1]) {
      var n := |s| - 1;
      var rest := RStripIs(s[..n]);
      gap := rest + [s[n]];
      assert s == s[..n] + [s[n]];
    } else {
      gap := [];
    }
  }

  lemma {:induction false} LStripNewlinesIs(s: string) returns (gap: string)
    ensures s == gap + LStripNewlines(s) && AllOf(gap, Newline())
    ensures LStripNewlines(s) != [] ==> LStripNewlines(s)[0] != '\n'
  {
    if s != [] && s[0] == '\n' {
      var rest := LStripNewlinesIs(s[1..]);
      gap := [s[0]] + rest;
    } else {
      gap := [];
    }
  }

  ghost predicate GoodCut(text: string, piece: string, gap: string, rest: string, at: char -> bool)
  {
    && text == piece + gap + rest && AllOf(gap, at) && Sized(piece) && !at(piece[0])
    && (rest != [] ==> !at(rest[0])) && |rest| < |text|
    && (gap == [] && rest != [] ==> FullRun(piece, at))
  }

  lemma ParagraphCut(text: string) returns (gap: string)
    requires |text| > HARD_CHUNK_CHARS && !IsSpace(text[0])
    ensures GoodCut(text, RStrip(text[..Cut(text, Space())]), gap, LStrip(text[Cut(text, Space())..]), Space())
  {
    var k := Cut(text, Space());
    var head, tail := text[..k], text[k..];
    var right := RStripIs(head);
    var left := LStripIs(tail);
    LStripShrinks(tail);
    gap := right + left;
    if gap == [] {
      assert tail == LStrip(tail) && tail[0] == text[k];
    }
  }

  /** What a cut leaves out between a piece and the rest. */
  function LeftOut(text: string, piece: string, rest: string): string
    requires |piece| + |rest| <= |text|
  {
    text[|piece|..|text| - |rest|]
  }

  lemma {:induction false} RStripShrinks(s: string)
    ensures |RStrip(s)| <= |s|
  {
    if s != [] && IsSpace(s[|s| - 1]) {
      RStripShrinks(s[..|s| - 1]);
    }
  }

  function ParagraphGaps(text: string): seq<string>
    decreases |text|
  {
    if |text| <= HARD_CHUNK_CHARS then (if text == [] then [] else [""])
    else
      var k := Cut(text, Space());
      LStripShrinks(text[k..]);
      RStripShrinks(text[..k]);
      [LeftOut(text, RStrip(text[..k]), LStrip(text[k..]))] + ParagraphGaps(LStrip(text[k..]))
  }

  lemma GapIs(text: string, piece: string, gap: string, rest: string)
    requires text == piece + gap + rest
    ensures LeftOut(text, piece, rest) == gap
  {
  }

  /**
   A paragraph is cut only at whitespace, except inside a run of more than 2000 other characters:
   so a run of at most 2000 stays whole.
   */
  lemma {:induction false} ParagraphSplitsClean(text: string)
    requires text != [] ==> !IsSpace(text[0])
    ensures CleanSplit(text, SplitParagraph(text), ParagraphGaps(text), Space())
    decreases |text|
  {
    if |text| > HARD_CHUNK_CHARS {
      var gap := ParagraphCut(text);
      var k := Cut(text, Space());
      var piece, rest := RStrip(text[..k]), LStrip(text[k..]);
      ParagraphSplitsClean(rest);
      GapIs(text, piece, gap, rest);
    }
  }

  lemma FenceCut(text: string) returns (gap: string)
    requires |text| > HARD_CHUNK_CHARS && text[0] != '\n'
    ensures GoodCut(text, text[..Cut(text, Newline())], gap, LStripNewlines(text[Cut(text, Newline())..]), Newline())
  {
    var k := Cut(text, Newline());
    var tail := text[k..];
    gap := LStripNewlinesIs(tail);
    assert text == text[..k] + tail;
    if gap == [] {
      assert tail == LStripNewlines(tail) && tail[0] == text[k];
    }
  }

  function FenceGaps(text: string): seq<string>
    decreases |text|
  {
    if |text| <= HARD_CHUNK_CHARS then (if text == [] then [] else [""])
    else
      var k := Cut(text, Newline());
      [LeftOut(text, text[..k], LStripNewlines(text[k..]))] + FenceGaps(LStripNewlines(text[k..]))
  }

  /** A fence is cut only at line ends, except inside a line of more than 2000 characters. */
  lemma {:induction false} FenceSplitsClean(text: string)
    requires text != [] ==> text[0] != '\n'
    ensures CleanSplit(text, SplitFence(text), FenceGaps(text), Newline())
    decreases |text|
  {
    if |text| > HARD_CHUNK_CHARS {
      var gap := FenceCut(text);
      var k := Cut(text, Newline());
      var rest := LStripNewlines(text[k..]);
      FenceSplitsClean(rest);
      GapIs(text, text[..k], gap, rest);
    }
  }

  // ---- what blocks look like ------------------------------------------------

  /** A block is a fence, or a paragraph without whitespace at its ends. */
  predicate BlockShape(c: Chunk)
  {
    IsFence(c.text) || (c.text != [] && !IsSpace(c.text[0]) && !IsSpace(c.text[|c.text| - 1]))
  }

  ghost predicate AllShaped(chunks: seq<Chunk>)
  {
    forall i :: 0 <= i < |chunks| ==> BlockShape(chunks[i])
  }

  /** An open paragraph has a character to keep, an open fence starts with its marker. */
  ghost predicate GoodScan(s: Scan)
  {
    && AllShaped(s.blocks) && (s.paragraph != [] ==> InkOfLines(s.paragraph) != [])
    && (s.fence.Some? ==> s.fence.value != [] && IsFence(s.fence.value[0]))
  }

  lemma {:induction false} StripEnds(s: string)
    requires Ink(s) != []
    ensures Strip(s) != [] && !IsSpace(Strip(s)[0]) && !IsSpace(Strip(s)[|Strip(s)| - 1])
  {
    InkStrip(s);
    var left := LStripIs(s);
    InkLStrip(s);
    assert LStrip(s) != [];
    var right := RStripIs(LStrip(s));
    RStripEnds(LStrip(s));
  }

  lemma {:induction false} RStripEnds(s: string)
    ensures RStrip(s) != [] ==> !IsSpace(RStrip(s)[|RStrip(s)| - 1])
  {
    if s != [] && IsSpace(s[|s| - 1]) {
      RStripEnds(s[..|s| - 1]);
    }
  }

  lemma {:induction false} HasInk(line: string)
    requires !Blank(line)
    ensures Ink(line) != []
  {
    if IsSpace(line[0]) {
      HasInk(line[1..]);
    }
  }

  lemma FlushShapes(s: Scan)
    requires GoodScan(s)
    ensures GoodScan(Flushed(s))
  {
    if s.paragraph != [] {
      InkOfJoined(s.paragraph);
      StripEnds(JoinWith("\n", s.paragraph));
    }
  }

  lemma CloseShapes(s: Scan, f: seq<string>)
    requires GoodScan(s) && f != [] && IsFence(f[0])
    ensures GoodScan(Closed(s, f))
  {
  }

  lemma FeedShapes(s: Scan, line: string)
    requires GoodScan(s)
    ensures GoodScan(Feed(s, line))
  {
    match s.fence
    case Some(f) =>
      assert (f + [line])[0] == f[0];
      CloseShapes(s, f + [line]);
    case None =>
      FlushShapes(s);
      if !IsHeading(line) && !IsFence(line) && !Blank(line) {
        HasInk(line);
        InkOfLinesAppend(s.paragraph, [line]);
      }
  }

  lemma {:induction false} FeedAllShapes(s: Scan, lines: seq<string>)
    requires GoodScan(s)
    ensures GoodScan(FeedAll(s, lines))
    decreases |lines|
  {
    if lines != [] {
      FeedShapes(s, lines[0]);
      FeedAllShapes(Feed(s, lines[0]), lines[1..]);
    }
  }

  lemma BlocksShaped(text: string)
    ensures AllShaped(Blocks(text))
  {
    FeedAllShapes(START, SplitLines(text));
    var s := FeedAll(START, SplitLines(text));
    match s.fence
    case Some(f) => CloseShapes(s, f);
    case None => FlushShapes(s);
  }

  /** A chunk is joined only of blocks that fit the soft cap, so a chunk to be split is one block. */
  lemma OversizedIsOneBlock(text: string, c: Chunk)
    requires c in Pack(Blocks(text)) && |c.text| > HARD_CHUNK_CHARS
    ensures c in Blocks(text) && BlockShape(c)
  {
    var blocks := Blocks(text);
    BlocksShaped(text);
    PackIsGreedy(blocks[0], blocks[1..]);
    var i :| 0 <= i < |Pack(blocks)| && Pack(blocks)[i] == c;
  }

  /**
   Every chunk that is split is split cleanly: a paragraph at whitespace, a text that starts with
   a fence marker at line ends.
   */
  lemma EverySplitIsClean(text: string, c: Chunk)
    requires c in Pack(Blocks(text)) && |c.text| > HARD_CHUNK_CHARS
    ensures if IsFence(c.text) then CleanSplit(c.text, SplitFence(c.text), FenceGaps(c.text), Newline())
            else CleanSplit(c.text, SplitParagraph(c.text), ParagraphGaps(c.text), Space())
  {
    OversizedIsOneBlock(text, c);
    if IsFence(c.text) {
      FenceSplitsClean(c.text);
    } else {
      ParagraphSplitsClean(c.text);
    }
  }

  // ---- pieces ---------------------------------------------------------------

  lemma {:induction false} ParagraphCarriesInk(text: string)
    ensures InkOfLines(SplitParagraph(text)) == Ink(text)
    ensures forall i :: 0 <= i < |SplitParagraph(text)| ==> |SplitParagraph(text)[i]| <= HARD_CHUNK_CHARS
    decreases |text|
  {
    if text == [] {
    } else if |text| <= HARD_CHUNK_CHARS {
    } else {
      var k := Cut(text, Space());
      LStripShrinks(text[k..]);
      ParagraphCarriesInk(LStrip(text[k..]));
      InkRStrip(text[..k]);
      var gap := RStripIs(text[..k]);
      InkLStrip(text[k..]);
      InkAppend(text[..k], text[k..]);
      assert text == text[..k] + text[k..];
    }
  }

  lemma {:induction false} FenceCarriesInk(text: string)
    ensures InkOfLines(SplitFence(text)) == Ink(text)
    ensures forall i :: 0 <= i < |SplitFence(text)| ==> |SplitFence(text)[i]| <= HARD_CHUNK_CHARS
    decreases |text|
  {
    if text == [] {
    } else if |text| <= HARD_CHUNK_CHARS {
    } else {
      var k := Cut(text, Newline());
      FenceCarriesInk(LStripNewlines(text[k..]));
      InkLStripNewlines(text[k..]);
      InkAppend(text[..k], text[k..]);
      assert text == text[..k] + text[k..];
    }
  }

  lemma {:induction false} UnderMarks(path: Path, pieces: seq<string>)
    ensures AllMarks(Under(path, pieces)) == MarksOf(InkOfLines(pieces), path)
  {
    if pieces != [] {
      UnderMarks(path, pieces[1..]);
      MarksAppend(Ink(pieces[0]), InkOfLines(pieces[1..]), path);
      assert Under(path, pieces)[1..] == Under(path, pieces[1..]);
    }
  }

  ghost predicate NoneOver(chunks: seq<Chunk>, cap: nat)
  {
    forall i :: 0 <= i < |chunks| ==> |chunks[i].text| <= cap
  }

  lemma ChunkSplits(c: Chunk)
    ensures AllMarks(SplitChunk(c)) == ChunkMarks(c) && NoneOver(SplitChunk(c), HARD_CHUNK_CHARS)
  {
    if |c.text| <= HARD_CHUNK_CHARS {
    } else {
      var pieces := if IsFence(c.text) then SplitFence(c.text) else SplitParagraph(c.text);
      ParagraphCarriesInk(c.text);
      FenceCarriesInk(c.text);
      UnderMarks(c.path, pieces);
    }
  }

  lemma {:induction false} SplitCarriesAll(chunks: seq<Chunk>)
    ensures AllMarks(SplitOversized(chunks)) == AllMarks(chunks)
    ensures NoneOver(SplitOversized(chunks), HARD_CHUNK_CHARS)
  {
    if chunks != [] {
      SplitCarriesAll(chunks[1..]);
      ChunkSplits(chunks[0]);
      AllMarksAppend(SplitChunk(chunks[0]), SplitOversized(chunks[1..]));
    }
  }

  /** Up to the pieces nothing is lost: their characters, under their paths, are the text's. */
  lemma PiecesCarryAll(text: string)
    ensures AllMarks(Pieces(text)) == Stream(SplitLines(text), [], false)
    ensures NoneOver(Pieces(text), HARD_CHUNK_CHARS)
  {
    var blocks := Blocks(text);
    BlocksCarryAll(text);
    if blocks != [] {
      PackCarriesAll(blocks[0], blocks[1..]);
    }
    SplitCarriesAll(Pack(blocks));
  }

  // ---- residues -------------------------------------------------------------

  function Selected(chunks: seq<Chunk>, keep: seq<bool>): seq<Chunk>
    requires |keep| == |chunks|
  {
    if chunks == [] then []
    else (if keep[0] then [chunks[0]] else []) + Selected(chunks[1..], keep[1..])
  }

  /** What is dropped is short. */
  ghost predicate OnlyShortDropped(chunks: seq<Chunk>, keep: seq<bool>)
    requires |keep| == |chunks|
  {
    forall i :: 0 <= i < |chunks| && !keep[i] ==> |chunks[i].text| < MIN_CHUNK_CHARS
  }

  lemma SelectOne(c: Chunk, todo: seq<Chunk>, k: bool, keep: seq<bool>)
    requires |keep| == |todo|
    ensures AllMarks(Selected([c] + todo, [k] + keep))
            == (if k then ChunkMarks(c) else []) + AllMarks(Selected(todo, keep))
  {
    var rest := Selected(todo, keep);
    assert ([c] + todo)[1..] == todo && ([k] + keep)[1..] == keep;
    assert Selected([c] + todo, [k] + keep) == (if k then [c] else []) + rest;
    if k {
      AllMarksAppend([c], rest);
    } else {
      assert [] + rest == rest;
    }
  }

  lemma LastMarks(done: seq<Chunk>, c: Chunk)
    ensures AllMarks(done + [c]) == AllMarks(done) + ChunkMarks(c)
  {
    AllMarksAppend(done, [c]);
  }

  lemma {:induction false} MergedLast(done: seq<Chunk>, c: Chunk)
    requires done != [] && done[|done| - 1].path == c.path
    ensures AllMarks(done[..|done| - 1] + [Joined(done[|done| - 1], c)]) == AllMarks(done) + ChunkMarks(c)
  {
    var n := |done| - 1;
    LastMarks(done[..n], Joined(done[n], c));
    LastMarks(done[..n], done[n]);
    JoinedMarks(done[n], c);
    assert done == done[..n] + [done[n]];
  }

  /** One residue joined to the next: both kept or both dropped. */
  lemma {:induction false} JoinedFate(c: Chunk, d: Chunk, rest: seq<Chunk>, k: bool, keep: seq<bool>)
    requires c.path == d.path && |keep| == |rest|
    requires OnlyShortDropped([Joined(c, d)] + rest, [k] + keep)
    ensures OnlyShortDropped([c] + ([d] + rest), [k] + ([k] + keep))
    ensures AllMarks(Selected([c] + ([d] + rest), [k] + ([k] + keep)))
            == AllMarks(Selected([Joined(c, d)] + rest, [k] + keep))
  {
    SelectOne(c, [d] + rest, k, [k] + keep);
    SelectOne(d, rest, k, keep);
    SelectOne(Joined(c, d), rest, k, keep);
    JoinedMarks(c, d);
    ShortParts(c, d, rest, k, keep);
  }

  lemma {:induction false} ShortParts(c: Chunk, d: Chunk, rest: seq<Chunk>, k: bool, keep: seq<bool>)
    requires |keep| == |rest| && OnlyShortDropped([Joined(c, d)] + rest, [k] + keep)
    ensures OnlyShortDropped([c] + ([d] + rest), [k] + ([k] + keep))
  {
    var before, fates := [Joined(c, d)] + rest, [k] + keep;
    var todo, both := [c] + ([d] + rest), [k] + ([k] + keep);
    assert before[0] == Joined(c, d) && fates[0] == k;
    forall i | 0 <= i < |todo| && !both[i] ensures |todo[i].text| < MIN_CHUNK_CHARS {
      if i >= 2 {
        assert before[i - 1] == todo[i] && fates[i - 1] == both[i];
      }
    }
  }

  lemma Fates(k: bool, keep: seq<bool>)
    ensures (forall i :: 0 <= i < |[k] + keep| ==> ([k] + keep)[i]) <==> k && forall i :: 0 <= i < |keep| ==> keep[i]
  {
    var all := [k] + keep;
    assert all[0] == k && forall i :: 0 <= i < |keep| ==> keep[i] == all[i + 1];
  }

  /** A kept mask with one more fate in front. */
  lemma FrontFate(todo: seq<Chunk>, k: bool, keep: seq<bool>)
    requires todo != [] && |keep| == |todo| - 1 && OnlyShortDropped(todo[1..], keep)
    requires !k ==> |todo[0].text| < MIN_CHUNK_CHARS
    ensures OnlyShortDropped(todo, [k] + keep)
    ensures AllMarks(Selected(todo, [k] + keep))
            == (if k then ChunkMarks(todo[0]) else []) + AllMarks(Selected(todo[1..], keep))
  {
    assert todo == [todo[0]] + todo[1..];
    SelectOne(todo[0], todo[1..], k, keep);
    forall i | 0 <= i < |todo| && !([k] + keep)[i] ensures |todo[i].text| < MIN_CHUNK_CHARS {
      if i > 0 {
        assert !keep[i - 1] && todo[1..][i - 1] == todo[i];
      }
    }
  }

  ghost predicate SettledSizes(chunks: seq<Chunk>)
  {
    forall i :: 0 <= i < |chunks| ==> MIN_CHUNK_CHARS <= |chunks[i].text| <= HARD_CHUNK_CHARS
  }

  /** Every settled chunk has 200 to 2000 characters. */
  lemma {:induction false} SettleSizes(done: seq<Chunk>, todo: seq<Chunk>)
    requires SettledSizes(done) && NoneOver(todo, HARD_CHUNK_CHARS)
    ensures SettledSizes(Settle(done, todo).kept)
    decreases |todo|
  {
    if todo != [] {
      var c := todo[0];
      if |c.text| >= MIN_CHUNK_CHARS {
        SettleSizes(done + [c], todo[1..]);
      } else if done != [] && Fits(done[|done| - 1], c, HARD_CHUNK_CHARS) {
        SettleSizes(done[..|done| - 1] + [Joined(done[|done| - 1], c)], todo[1..]);
      } else if |todo| > 1 && Fits(c, todo[1], HARD_CHUNK_CHARS) {
        SettleSizes(done, [Joined(c, todo[1])] + todo[2..]);
      } else {
        SettleSizes(done, todo[1..]);
      }
    }
  }

  /** What `keep` says about the outcome of settling `todo` after `done`. */
  ghost predicate Fated(out: Settled, done: seq<Chunk>, todo: seq<Chunk>, keep: seq<bool>)
  {
    && |keep| == |todo| && OnlyShortDropped(todo, keep)
    && AllMarks(out.kept) == AllMarks(done) + AllMarks(Selected(todo, keep))
    && (out.dropped == 0 <==> forall i :: 0 <= i < |keep| ==> keep[i])
  }

  lemma {:induction false} KeptFate(out: Settled, done: seq<Chunk>, after: seq<Chunk>, todo: seq<Chunk>,
                                    keep: seq<bool>)
    requires todo != [] && Fated(out, after, todo[1..], keep)
    requires AllMarks(after) == AllMarks(done) + ChunkMarks(todo[0])
    ensures Fated(out, done, todo, [true] + keep)
  {
    FrontFate(todo, true, keep);
    Fates(true, keep);
    Associates(AllMarks(done), ChunkMarks(todo[0]), AllMarks(Selected(todo[1..], keep)));
  }

  lemma {:induction false} DroppedFate(out: Settled, done: seq<Chunk>, todo: seq<Chunk>, keep: seq<bool>)
    requires todo != [] && Fated(out, done, todo[1..], keep) && |todo[0].text| < MIN_CHUNK_CHARS
    ensures Fated(WithDrop(out), done, todo, [false] + keep)
  {
    FrontFate(todo, false, keep);
    assert [] + AllMarks(Selected(todo[1..], keep)) == AllMarks(Selected(todo[1..], keep));
    assert !([false] + keep)[0];
  }

  lemma {:induction false} JoinFate(out: Settled, done: seq<Chunk>, todo: seq<Chunk>, keep: seq<bool>)
    requires |todo| > 1 && Fits(todo[0], todo[1], HARD_CHUNK_CHARS)
    requires Fated(out, done, [Joined(todo[0], todo[1])] + todo[2..], keep)
    ensures Fated(out, done, todo, [keep[0]] + keep)
  {
    var k, rest := keep[0], keep[1..];
    assert keep == [k] + rest && todo == [todo[0]] + ([todo[1]] + todo[2..]);
    JoinedFate(todo[0], todo[1], todo[2..], k, rest);
    Fates(k, keep);
    assert k == keep[0];
  }

  /**
   Each piece is kept whole or dropped whole; what is kept stays in order under its own path, and
   only pieces below 200 characters are dropped. Exactly when something was dropped, the count says so.
   */
  lemma {:induction false} SettleCarries(done: seq<Chunk>, todo: seq<Chunk>) returns (keep: seq<bool>)
    ensures |keep| == |todo| && OnlyShortDropped(todo, keep)
    ensures AllMarks(Settle(done, todo).kept) == AllMarks(done) + AllMarks(Selected(todo, keep))
    ensures Settle(done, todo).dropped == 0 <==> forall i :: 0 <= i < |keep| ==> keep[i]
    decreases |todo|
  {
    keep := FateOf(done, todo);
  }

  lemma {:induction false} FateOf(done: seq<Chunk>, todo: seq<Chunk>) returns (keep: seq<bool>)
    ensures Fated(Settle(done, todo), done, todo, keep)
    decreases |todo|
  {
    if todo == [] {
      keep := [];
    } else {
      var c := todo[0];
      if |c.text| >= MIN_CHUNK_CHARS {
        var rest := FateOf(done + [c], todo[1..]);
        LastMarks(done, c);
        KeptFate(Settle(done, todo), done, done + [c], todo, rest);
        keep := [true] + rest;
      } else if done != [] && Fits(done[|done| - 1], c, HARD_CHUNK_CHARS) {
        var after := done[..|done| - 1] + [Joined(done[|done| - 1], c)];
        var rest := FateOf(after, todo[1..]);
        MergedLast(done, c);
        KeptFate(Settle(done, todo), done, after, todo, rest);
        keep := [true] + rest;
      } else if |todo| > 1 && Fits(c, todo[1], HARD_CHUNK_CHARS) {
        var rest := FateOf(done, [Joined(c, todo[1])] + todo[2..]);
        JoinFate(Settle(done, todo), done, todo, rest);
        keep := [rest[0]] + rest;
      } else {
        var rest := FateOf(done, todo[1..]);
        DroppedFate(Settle(done, todo[1..]), done, todo, rest);
        keep := [false] + rest;
      }
    }
  }
}
