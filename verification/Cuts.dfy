/**
 Where a long block is cut, and exactly when a word is cut that would have fitted in a piece: never
 in a paragraph, unless its text starts with a fence marker and so is split as a fence.
 */
module Cuts {
  import opened Basics
  import opened Text
  import opened Chunks
  import opened ChunkFacts

  // ---- cuts and words -------------------------------------------------------

  /** A piece ends at index p of the text the pieces and gaps make. */
  predicate EndsPiece(pieces: seq<string>, gaps: seq<string>, p: int)
    requires |gaps| == |pieces|
    decreases |pieces|
  {
    pieces != []
    && (p == |pieces[0]| || EndsPiece(pieces[1..], gaps[1..], p - |pieces[0]| - |gaps[0]|))
  }

  lemma EndsUnfold(first: string, gap: string, pieces: seq<string>, gaps: seq<string>, p: int)
    requires |gaps| == |pieces|
    ensures EndsPiece([first] + pieces, [gap] + gaps, p)
            <==> p == |first| || EndsPiece(pieces, gaps, p - |first| - |gap|)
  {
    assert ([first] + pieces)[1..] == pieces && ([gap] + gaps)[1..] == gaps;
  }

  /** The characters from i to j are a word: none is whitespace, and whitespace or an end is around them. */
  predicate IsWord(text: string, i: int, j: int)
  {
    && 0 <= i < j <= |text|
    && (forall q :: i <= q < j ==> !IsSpace(text[q]))
    && (i == 0 || IsSpace(text[i - 1])) && (j == |text| || IsSpace(text[j]))
  }

  /** p is inside a word that fits in one piece. */
  ghost predicate InShortWord(text: string, p: int)
  {
    exists i, j :: IsWord(text, i, j) && i < p < j && j - i <= HARD_CHUNK_CHARS
  }

  function PiecesOf(text: string): seq<string>
  {
    if IsFence(text) then SplitFence(text) else SplitParagraph(text)
  }

  function GapsOf(text: string): (r: seq<string>)
  {
    if IsFence(text) then FenceGaps(text) else ParagraphGaps(text)
  }

  lemma {:induction false} GapsMatch(text: string)
    ensures |ParagraphGaps(text)| == |SplitParagraph(text)| && |FenceGaps(text)| == |SplitFence(text)|
    decreases |text|
  {
    if |text| > HARD_CHUNK_CHARS {
      LStripShrinks(text[Cut(text, Space())..]);
      GapsMatch(LStrip(text[Cut(text, Space())..]));
      GapsMatch(LStripNewlines(text[Cut(text, Newline())..]));
    }
  }

  /** Splitting the text cuts a word that would have fitted. */
  ghost predicate CutsShortWord(text: string)
  {
    GapsMatch(text);
    exists p :: EndsPiece(PiecesOf(text), GapsOf(text), p) && InShortWord(text, p)
  }

  // ---- forced cuts ----------------------------------------------------------

  /**
   p is where the fence splitter cuts for want of a newline: the window of 2001 characters it looks
   at, which starts where the last gap ended, has no newline past its first character.
   */
  predicate ForcedCut(text: string, p: int)
    decreases |text|
  {
    |text| > HARD_CHUNK_CHARS
    && var rest := LStripNewlines(text[Cut(text, Newline())..]);
      || (p == HARD_CHUNK_CHARS && forall q :: 1 <= q <= HARD_CHUNK_CHARS ==> text[q] != '\n')
      || ForcedCut(rest, p - (|text| - |rest|))
  }

  ghost predicate ForcedInShortWord(text: string)
  {
    exists p :: ForcedCut(text, p) && InShortWord(text, p)
  }

  /** p is a place no word runs across, an end of the text or a newline. */
  predicate AtBreak(text: string, p: int)
  {
    p == |text| || (0 <= p < |text| && IsSpace(text[p]))
  }

  lemma BreakIsInNoWord(text: string, p: int)
    requires AtBreak(text, p)
    ensures !InShortWord(text, p)
  {
  }

  lemma RestIsSuffix(text: string, k: nat, rest: string)
    requires k <= |text| && rest == LStripNewlines(text[k..])
    ensures |rest| <= |text| - k && text[|text| - |rest|..] == rest
  {
    var gap := LStripNewlinesIs(text[k..]);
    assert text == text[..k] + (gap + rest);
  }

  lemma FirstFenceEnd(text: string)
    requires |text| > HARD_CHUNK_CHARS
    ensures var k := Cut(text, Newline());
      if forall q :: 1 <= q <= HARD_CHUNK_CHARS ==> text[q] != '\n' then k == HARD_CHUNK_CHARS else text[k] == '\n'
  {
  }

  lemma FenceParts(text: string)
    requires |text| > HARD_CHUNK_CHARS
    ensures var k := Cut(text, Newline());
      var rest := LStripNewlines(text[k..]);
      && |text[..k]| + |rest| <= |text|
      && SplitFence(text) == [text[..k]] + SplitFence(rest)
      && FenceGaps(text) == [LeftOut(text, text[..k], rest)] + FenceGaps(rest)
  {
  }

  /** The ends of a split in terms of its first piece and the split of the rest. */
  lemma SplitUnfolds(pieces: seq<string>, gaps: seq<string>, text: string, piece: string, rest: string,
                     more: seq<string>, moreGaps: seq<string>, p: int)
    requires |piece| + |rest| <= |text| && |gaps| == |pieces|
    requires pieces == [piece] + more && gaps == [LeftOut(text, piece, rest)] + moreGaps
    ensures |moreGaps| == |more|
    ensures EndsPiece(pieces, gaps, p) <==> p == |piece| || EndsPiece(more, moreGaps, p - (|text| - |rest|))
  {
    EndsUnfold(piece, LeftOut(text, piece, rest), more, moreGaps, p);
  }

  lemma ShiftedBreak(text: string, rest: string, p: int)
    requires |rest| <= |text| && text[|text| - |rest|..] == rest
    ensures AtBreak(rest, p - (|text| - |rest|)) ==> AtBreak(text, p)
  {
    var off := |text| - |rest|;
    assert forall q :: 0 <= q < |rest| ==> rest[q] == text[off..][q] == text[off + q];
  }

  /** The fence splitter's pieces end at its forced cuts, and else only at breaks. */
  lemma {:induction false} FenceEndsAre(text: string, p: int)
    requires |FenceGaps(text)| == |SplitFence(text)|
    ensures ForcedCut(text, p) ==> EndsPiece(SplitFence(text), FenceGaps(text), p)
    ensures EndsPiece(SplitFence(text), FenceGaps(text), p) ==> ForcedCut(text, p) || AtBreak(text, p)
    decreases |text|
  {
    if |text| > HARD_CHUNK_CHARS {
      var k := Cut(text, Newline());
      var rest := LStripNewlines(text[k..]);
      var off := |text| - |rest|;
      GapsMatch(rest);
      RestIsSuffix(text, k, rest);
      FirstFenceEnd(text);
      FenceEndsAre(rest, p - off);
      FenceParts(text);
      SplitUnfolds(SplitFence(text), FenceGaps(text), text, text[..k], rest, SplitFence(rest), FenceGaps(rest), p);
      ShiftedBreak(text, rest, p);
    } else if text != [] {
      EndsUnfold(text, "", [], [], p);
      assert SplitFence(text) == [text] + [] && FenceGaps(text) == [""] + [];
    }
  }

  // ---- paragraphs -----------------------------------------------------------

  /** 2000 characters without whitespace stand before p. */
  predicate AfterFullRun(text: string, p: int)
  {
    HARD_CHUNK_CHARS <= p <= |text| && forall q :: p - HARD_CHUNK_CHARS <= q < p ==> !IsSpace(text[q])
  }

  lemma AfterFullRunIsInNoShortWord(text: string, p: int)
    requires AfterFullRun(text, p)
    ensures !InShortWord(text, p)
  {
    forall i, j | IsWord(text, i, j) && i < p < j ensures j - i > HARD_CHUNK_CHARS {
    }
  }

  lemma FirstParagraphEnd(text: string)
    requires |text| > HARD_CHUNK_CHARS && !IsSpace(text[0])
    ensures var piece := RStrip(text[..Cut(text, Space())]);
      |piece| <= |text| && (AtBreak(text, |piece|) || AfterFullRun(text, |piece|))
  {
    var k := Cut(text, Space());
    var gap := RStripIs(text[..k]);
    var piece := RStrip(text[..k]);
    if gap != [] {
      assert text[|piece|] == text[..k][|piece|] == gap[0];
    } else {
      assert |piece| == k;
    }
  }

  lemma LStripIsSuffix(text: string, k: nat, rest: string)
    requires k <= |text| && rest == LStrip(text[k..])
    ensures |rest| <= |text| - k && text[|text| - |rest|..] == rest && (rest != [] ==> !IsSpace(rest[0]))
  {
    var gap := LStripIs(text[k..]);
    assert text == text[..k] + (gap + rest);
  }

  lemma ParagraphParts(text: string)
    requires |text| > HARD_CHUNK_CHARS
    ensures var piece, rest := RStrip(text[..Cut(text, Space())]), LStrip(text[Cut(text, Space())..]);
      && |piece| + |rest| <= |text|
      && SplitParagraph(text) == [piece] + SplitParagraph(rest)
      && ParagraphGaps(text) == [LeftOut(text, piece, rest)] + ParagraphGaps(rest)
  {
    LStripShrinks(text[Cut(text, Space())..]);
    RStripShrinks(text[..Cut(text, Space())]);
  }

  lemma ShiftedEnd(text: string, rest: string, p: int)
    requires |rest| <= |text| && text[|text| - |rest|..] == rest
    requires AtBreak(rest, p - (|text| - |rest|)) || AfterFullRun(rest, p - (|text| - |rest|))
    ensures AtBreak(text, p) || AfterFullRun(text, p)
  {
    var off := |text| - |rest|;
    assert forall q :: 0 <= q < |rest| ==> rest[q] == text[off..][q] == text[off + q];
    if AfterFullRun(rest, p - off) {
      forall q | p - HARD_CHUNK_CHARS <= q < p ensures !IsSpace(text[q]) {
        assert text[q] == rest[q - off];
      }
    }
  }

  /** The paragraph splitter's pieces end at breaks, or after 2000 characters without whitespace. */
  lemma {:induction false} ParagraphEndsAre(text: string, p: int)
    requires text != [] ==> !IsSpace(text[0])
    requires |ParagraphGaps(text)| == |SplitParagraph(text)|
    requires EndsPiece(SplitParagraph(text), ParagraphGaps(text), p)
    ensures AtBreak(text, p) || AfterFullRun(text, p)
    decreases |text|
  {
    if |text| > HARD_CHUNK_CHARS {
      var k := Cut(text, Space());
      var rest := LStrip(text[k..]);
      var off := |text| - |rest|;
      LStripIsSuffix(text, k, rest);
      ParagraphParts(text);
      SplitUnfolds(SplitParagraph(text), ParagraphGaps(text), text, RStrip(text[..k]), rest,
                   SplitParagraph(rest), ParagraphGaps(rest), p);
      FirstParagraphEnd(text);
      if p != |RStrip(text[..k])| {
        ParagraphEndsAre(rest, p - off);
        ShiftedEnd(text, rest, p);
      }
    }
  }

  // ---- exactly when a short word is cut --------------------------------------

  lemma FenceCutExactly(text: string)
    requires IsFence(text)
    ensures CutsShortWord(text) <==> ForcedInShortWord(text)
  {
    GapsMatch(text);
    if p :| EndsPiece(SplitFence(text), FenceGaps(text), p) && InShortWord(text, p) {
      FenceEndsAre(text, p);
      if AtBreak(text, p) {
        BreakIsInNoWord(text, p);
      }
    }
    if p :| ForcedCut(text, p) && InShortWord(text, p) {
      FenceEndsAre(text, p);
    }
  }

  lemma ParagraphNeverCuts(text: string)
    requires !IsFence(text) && (text != [] ==> !IsSpace(text[0]))
    ensures !CutsShortWord(text)
  {
    GapsMatch(text);
    forall p | EndsPiece(SplitParagraph(text), ParagraphGaps(text), p) ensures !InShortWord(text, p) {
      ParagraphEndsAre(text, p);
      if AtBreak(text, p) {
        BreakIsInNoWord(text, p);
      } else {
        AfterFullRunIsInNoShortWord(text, p);
      }
    }
  }

  /**
   A chunk that is split has a word of at most 2000 characters cut exactly when its text starts with
   the fence marker and a forced cut falls inside such a word.
   */
  lemma ShortWordCutExactly(doc: string, c: Chunk)
    requires c in Pack(Blocks(doc)) && |c.text| > HARD_CHUNK_CHARS
    ensures CutsShortWord(c.text) <==> IsFence(c.text) && ForcedInShortWord(c.text)
  {
    OversizedIsOneBlock(doc, c);
    if IsFence(c.text) {
      FenceCutExactly(c.text);
    } else {
      ParagraphNeverCuts(c.text);
    }
  }

  // ---- which blocks are paragraphs -------------------------------------------

  /** Lines the scanner collects into one paragraph. */
  ghost predicate IsParagraph(lines: seq<string>)
  {
    lines != [] && forall k :: 0 <= k < |lines| ==> !Blank(lines[k]) && !IsHeading(lines[k]) && !IsFence(lines[k])
  }

  ghost predicate FromParagraph(c: Chunk, lines: seq<string>)
  {
    IsParagraph(lines) && c.text == Strip(JoinWith("\n", lines))
  }

  ghost predicate FromFence(c: Chunk, lines: seq<string>)
  {
    lines != [] && IsFence(lines[0]) && c.text == JoinWith("\n", lines)
  }

  ghost predicate HasOrigin(c: Chunk)
  {
    exists lines :: FromParagraph(c, lines) || FromFence(c, lines)
  }

  ghost predicate Originated(s: Scan)
  {
    && (forall k :: 0 <= k < |s.blocks| ==> HasOrigin(s.blocks[k]))
    && (s.paragraph != [] ==> IsParagraph(s.paragraph))
    && (s.fence.Some? ==> s.fence.value != [] && IsFence(s.fence.value[0]))
  }

  lemma FlushOriginates(s: Scan)
    requires Originated(s)
    ensures Originated(Flushed(s))
  {
    if s.paragraph != [] {
      assert FromParagraph(Chunk(Strip(JoinWith("\n", s.paragraph)), s.path), s.paragraph);
    }
  }

  lemma CloseOriginates(s: Scan, f: seq<string>)
    requires Originated(s) && f != [] && IsFence(f[0])
    ensures Originated(Closed(s, f))
  {
    assert FromFence(Chunk(JoinWith("\n", f), s.path), f);
  }

  lemma FeedOriginates(s: Scan, line: string)
    requires Originated(s)
    ensures Originated(Feed(s, line))
  {
    match s.fence
    case Some(f) =>
      assert (f + [line])[0] == f[0];
      CloseOriginates(s, f + [line]);
    case None =>
      FlushOriginates(s);
  }

  lemma {:induction false} FeedAllOriginates(s: Scan, lines: seq<string>)
    requires Originated(s)
    ensures Originated(FeedAll(s, lines))
    decreases |lines|
  {
    if lines != [] {
      FeedOriginates(s, lines[0]);
      FeedAllOriginates(Feed(s, lines[0]), lines[1..]);
    }
  }

  /** Every block is a fence, or the stripped lines of a paragraph. */
  lemma BlocksHaveOrigin(doc: string, c: Chunk)
    requires c in Blocks(doc)
    ensures HasOrigin(c)
  {
    var s := FeedAll(START, SplitLines(doc));
    FeedAllOriginates(START, SplitLines(doc));
    match s.fence
    case Some(f) => CloseOriginates(s, f);
    case None => FlushOriginates(s);
  }

  /** The stripped text starts with the marker exactly when the first line is an indented marker. */
  lemma MarkerIsIndented(lines: seq<string>)
    requires IsParagraph(lines)
    ensures var text := Strip(JoinWith("\n", lines));
      && text != [] && !IsSpace(text[0])
      && (IsFence(text) <==> IsFence(LStrip(lines[0])) && IsSpace(lines[0][0]))
  {
    var first := lines[0];
    var rest := if |lines| == 1 then "" else "\n" + JoinWith("\n", lines[1..]);
    assert JoinWith("\n", lines) == first + rest;
    LStripKeepsTail(first, rest);
    HasInk(first);
    InkLStrip(first);
    var head := LStrip(first);
    var gap := LStripIs(first);
    assert head != [] && !IsSpace(head[0]);
    StartKept(head + rest);
    MarkerInHead(head, rest);
    if !IsSpace(first[0]) {
      assert head == first;
    }
  }

  lemma {:induction false} LStripKeepsTail(s: string, tail: string)
    requires !Blank(s)
    ensures LStrip(s + tail) == LStrip(s) + tail
  {
    if IsSpace(s[0]) {
      LStripKeepsTail(s[1..], tail);
      assert (s + tail)[1..] == s[1..] + tail;
    }
  }

  /** The marker is not split by the newline that ends the first line. */
  lemma MarkerInHead(head: string, rest: string)
    requires rest != [] ==> rest[0] == '\n'
    ensures IsFence(head + rest) <==> IsFence(head)
  {
    var text := head + rest;
    assert rest != [] ==> text[|head|] == '\n';
    if IsFence(text) {
      assert text[0] == '`' && text[1] == '`' && text[2] == '`';
    }
  }

  /** Stripping at the right keeps a start that is not whitespace. */
  lemma StartKept(s: string)
    requires s != [] && !IsSpace(s[0])
    ensures RStrip(s) != [] && RStrip(s)[0] == s[0]
    ensures IsFence(RStrip(s)) <==> IsFence(s)
  {
    var gap := RStripIs(s);
    assert gap != [] ==> IsSpace(s[|RStrip(s)|]);
    if IsFence(s) {
      assert s[0] == '`' && s[1] == '`' && s[2] == '`';
    }
  }

  /**
   Exactly when a paragraph has a word of at most 2000 characters cut: when its first line is an
   indented fence marker, and the fence splitter, finding no newline to cut at, cuts inside such a word.
   */
  lemma ParagraphCutExactly(c: Chunk, lines: seq<string>)
    requires FromParagraph(c, lines)
    ensures CutsShortWord(c.text)
            <==> IsFence(LStrip(lines[0])) && IsSpace(lines[0][0]) && ForcedInShortWord(c.text)
  {
    MarkerIsIndented(lines);
    if IsFence(c.text) {
      FenceCutExactly(c.text);
    } else {
      ParagraphNeverCuts(c.text);
    }
  }

  // ---- a document that loses half a word --------------------------------------

  lemma {:induction false} OneLine(s: string)
    requires s != [] && NoLineEnd(s)
    ensures SplitLines(s) == [s]
  {
    NoEndFound(s);
    assert s[..|s|] == s && s[|s|..] == [];
  }

  lemma {:induction false} NoEndFound(s: string)
    requires NoLineEnd(s)
    ensures FirstEnd(s) == (|s|, |s|)
  {
    if s != [] {
      assert !IsLineEnd(s[0]);
      assert NoLineEnd(s[1..]);
      NoEndFound(s[1..]);
    }
  }

  lemma FenceStarts(s: string)
    requires IsFence(s)
    ensures s[0] == '`'
  {
  }

  /** One indented line that starts and ends with ink is a paragraph, without its indent. */
  lemma IndentedLine(text: string)
    requires text != [] && NoLineEnd(text) && !IsSpace(text[0]) && !IsSpace(text[|text| - 1])
    ensures Blocks(" " + text) == [Chunk(text, [])] && FromParagraph(Chunk(text, []), [" " + text])
  {
    var doc := " " + text;
    assert doc[0] == ' ' && doc[1..] == text;
    if IsFence(doc) {
      FenceStarts(doc);
    }
    OneLine(doc);
    assert Hashes(doc) == 0;
    assert LStrip(doc) == LStrip(text) == text;
    assert RStrip(text) == text;
    var none: seq<string> := [];
    assert none + [doc] == [doc];
    assert !Blank(text) && !Blank(doc);
    assert Feed(START, doc) == Scan([], [], [doc], None);
    assert FeedAll(START, [doc]) == Feed(START, doc);
    assert JoinWith("\n", [doc]) == doc;
    assert IsParagraph([doc]);
  }

  function Repeat(c: char, n: nat): (s: string)
    ensures |s| == n && forall i :: 0 <= i < n ==> s[i] == c
  {
    if n == 0 then [] else Repeat(c, n - 1) + [c]
  }

  /** A marker and a word, then a space, then a word of 100 letters that ends at index 2095. */
  predicate MarkedWords(text: string)
  {
    && |text| == 2095 && text[0] == '`' && text[1] == '`' && text[2] == '`' && text[3] == ' ' && text[1994] == ' '
    && (forall i :: 4 <= i < 1994 ==> text[i] == 'a') && (forall i :: 1995 <= i < 2095 ==> text[i] == 'b')
  }

  lemma NoNewlineIn(text: string)
    requires MarkedWords(text)
    ensures NoLineEnd(text) && forall i :: 0 <= i < |text| ==> text[i] != '\n'
  {
    forall i | 0 <= i < |text| ensures !IsLineEnd(text[i]) && text[i] != '\n' {
      assert i < 4 || i == 1994 || 4 <= i < 1994 || 1995 <= i;
    }
  }

  lemma TheWord(text: string)
    requires MarkedWords(text)
    ensures IsWord(text, 1995, 2095) && ForcedCut(text, 2000) && ForcedInShortWord(text)
  {
    NoNewlineIn(text);
    assert IsWord(text, 1995, 2095);
    assert InShortWord(text, 2000);
  }

  lemma TheSplit(text: string)
    requires MarkedWords(text)
    ensures SplitChunk(Chunk(text, [])) == [Chunk(text[..2000], []), Chunk(text[2000..], [])]
  {
    NoNewlineIn(text);
    assert Cut(text, Newline()) == HARD_CHUNK_CHARS;
    var rest := text[2000..];
    assert rest[0] == 'b';
    assert LStripNewlines(rest) == rest;
    assert SplitFence(rest) == [rest];
    assert SplitFence(text) == [text[..2000], rest];
    var pieces := [text[..2000], rest];
    assert Under([], pieces) == [Chunk(text[..2000], []), Chunk(rest, [])];
  }

  lemma OnlyPiece(doc: string, text: string)
    requires Blocks(doc) == [Chunk(text, [])]
    ensures Pieces(doc) == SplitChunk(Chunk(text, []))
  {
    assert Pack(Blocks(doc)) == [Chunk(text, [])];
    assert SplitOversized([Chunk(text, [])]) == SplitChunk(Chunk(text, [])) + SplitOversized([]);
  }

  lemma SecondIsDropped(a: Chunk, b: Chunk)
    requires |a.text| == HARD_CHUNK_CHARS && |b.text| < MIN_CHUNK_CHARS
    ensures Settle([], [a, b]) == Settled([a], 1)
  {
    assert [a, b][1..] == [b] && [b][1..] == [] && [] + [a] == [a];
    assert Settle([a], []) == Settled([a], 0);
    assert Settle([a], [b]) == Settled([a], 1);
  }

  /**
   A document that is one indented line: a paragraph whose text starts, stripped, with the marker. Its
   word of 100 letters is cut in two although whitespace is five characters before the cut, and the
   second part, too short to stand and too long to join, is dropped.
   */
  lemma IndentedFenceCutsWord(text: string)
    requires text == "``` " + Repeat('a', 1990) + " " + Repeat('b', 100)
    ensures Blocks(" " + text) == [Chunk(text, [])] && FromParagraph(Chunk(text, []), [" " + text])
    ensures Pieces(" " + text) == [Chunk(text[..2000], []), Chunk(text[2000..], [])]
    ensures IsWord(text, 1995, 2095) && CutsShortWord(text)
    ensures Residues(" " + text) == Settled([Chunk(text[..2000], [])], 1)
  {
    assert MarkedWords(text);
    NoNewlineIn(text);
    IndentedLine(text);
    OnlyPiece(" " + text, text);
    TheSplit(text);
    TheWord(text);
    FenceCutExactly(text);
    SecondIsDropped(Chunk(text[..2000], []), Chunk(text[2000..], []));
  }
}
