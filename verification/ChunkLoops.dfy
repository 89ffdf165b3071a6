/** The loops of the chunker, proved to compute what `Chunks` defines. */
module ChunkLoops {
  import opened Basics
  import opened Order
  import opened Text
  import opened Chunks
  import opened ChunkFacts

  // ---- blocks ---------------------------------------------------------------

  lemma {:induction false} KeepsAll<T(!new)>(keep: T -> bool, s: seq<T>)
    requires forall x <- s :: keep(x)
    ensures Filtered(keep, s) == s
  {
    if s != [] {
      assert s[0] in s;
      KeepsAll(keep, s[1..]);
      assert [s[0]] + s[1..] == s;
    }
  }

  lemma BlocksHaveText(text: string)
    ensures forall c <- Blocks(text) :: c.text != []
  {
    BlocksShaped(text);
  }

  /** `_blocks`: one pass over the lines, with a pass of its own over each fence. */
  method BlocksOf(text: string) returns (r: seq<Chunk>)
    ensures r == Blocks(text)
  {
    var blocks: seq<Chunk>, headings: Path, paragraph: seq<string> := [], [], [];
    var lines := SplitLines(text);
    var index := 0;
    while index < |lines|
      invariant index <= |lines|
      invariant Blocks(text) == Finished(FeedAll(Scan(blocks, headings, paragraph, None), lines[index..]))
      decreases |lines| - index
    {
      var line := lines[index];
      ghost var s := Scan(blocks, headings, paragraph, None);
      assert lines[index..][0] == line && lines[index..][1..] == lines[index + 1..];
      if IsHeading(line) {
        blocks, paragraph := FlushParagraph(blocks, paragraph, headings);
        headings := Below(headings, line);
        index := index + 1;
        continue;
      }
      if IsFence(line) {
        blocks, paragraph := FlushParagraph(blocks, paragraph, headings);
        var fenced := [line];
        index := index + 1;
        var closing := false;
        while index < |lines| && !closing
          invariant index <= |lines| && paragraph == []
          invariant !closing ==>
            Blocks(text) == Finished(FeedAll(Scan(blocks, headings, [], Some(fenced)), lines[index..]))
          invariant closing ==>
            Blocks(text) == Finished(FeedAll(Closed(Scan(blocks, headings, [], None), fenced), lines[index..]))
          decreases |lines| - index
        {
          assert lines[index..][0] == lines[index] && lines[index..][1..] == lines[index + 1..];
          fenced := fenced + [lines[index]];
          closing := IsFence(lines[index]);
          index := index + 1;
        }
        blocks := blocks + [Chunk(JoinWith("\n", fenced), headings)];
        continue;
      }
      if Blank(line) {
        blocks, paragraph := FlushParagraph(blocks, paragraph, headings);
      } else {
        paragraph := paragraph + [line];
      }
      index := index + 1;
    }
    blocks, paragraph := FlushParagraph(blocks, paragraph, headings);
    BlocksHaveText(text);
    var named := (c: Chunk) => c.text != [];
    KeepsAll(named, blocks);
    r := Filtered(named, blocks);
  }

  /** `_flush_paragraph`. */
  method FlushParagraph(blocks: seq<Chunk>, paragraph: seq<string>, path: Path)
    returns (after: seq<Chunk>, cleared: seq<string>)
    ensures cleared == []
    ensures Scan(after, path, [], None) == Flushed(Scan(blocks, path, paragraph, None))
  {
    after, cleared := blocks, [];
    if paragraph != [] {
      after := blocks + [Chunk(Strip(JoinWith("\n", paragraph)), path)];
    }
  }

  // ---- packing and splitting ------------------------------------------------

  /** `_pack`. */
  method PackBlocks(blocks: seq<Chunk>) returns (packed: seq<Chunk>)
    ensures packed == Pack(blocks)
  {
    packed := [];
    var current: Option<Chunk> := None;
    for i := 0 to |blocks|
      invariant current.None? <==> i == 0
      invariant current.None? ==> packed == []
      invariant current.Some? ==> Pack(blocks) == packed + PackFrom(current.value, blocks[i..])
    {
      var block := blocks[i];
      assert blocks[i..][0] == block && blocks[i..][1..] == blocks[i + 1..];
      if current.None? {
        current := Some(block);
      } else if Fits(current.value, block, SOFT_CHUNK_CHARS) {
        current := Some(Joined(current.value, block));
      } else {
        packed := packed + [current.value];
        current := Some(block);
      }
    }
    if current.Some? {
      packed := packed + [current.value];
    }
  }

  /** `_split_paragraph`. */
  method ParagraphPieces(text: string) returns (pieces: seq<string>)
    ensures pieces == SplitParagraph(text)
  {
    pieces := [];
    var remaining := text;
    while |remaining| > HARD_CHUNK_CHARS
      invariant SplitParagraph(text) == pieces + SplitParagraph(remaining)
      decreases |remaining|
    {
      var boundary := HARD_CHUNK_CHARS;
      var whitespace := LastAt(remaining, HARD_CHUNK_CHARS + 1, Space());
      if whitespace > 0 {
        boundary := whitespace;
      }
      LStripShrinks(remaining[boundary..]);
      pieces := pieces + [RStrip(remaining[..boundary])];
      remaining := LStrip(remaining[boundary..]);
    }
    if remaining != [] {
      pieces := pieces + [remaining];
    }
  }

  /** `_split_fence`. */
  method FencePieces(text: string) returns (pieces: seq<string>)
    ensures pieces == SplitFence(text)
  {
    pieces := [];
    var remaining := text;
    while |remaining| > HARD_CHUNK_CHARS
      invariant SplitFence(text) == pieces + SplitFence(remaining)
      decreases |remaining|
    {
      var boundary := LastAt(remaining, HARD_CHUNK_CHARS + 1, Newline());
      if boundary <= 0 {
        boundary := HARD_CHUNK_CHARS;
      }
      pieces := pieces + [remaining[..boundary]];
      remaining := LStripNewlines(remaining[boundary..]);
    }
    if remaining != [] {
      pieces := pieces + [remaining];
    }
  }

  method SplitOne(chunk: Chunk) returns (r: seq<Chunk>)
    requires |chunk.text| > HARD_CHUNK_CHARS
    ensures r == SplitChunk(chunk)
  {
    var pieces: seq<string>;
    if IsFence(chunk.text) {
      pieces := FencePieces(chunk.text);
    } else {
      pieces := ParagraphPieces(chunk.text);
    }
    r := Under(chunk.path, pieces);
  }

  lemma SplitFront(chunks: seq<Chunk>, i: nat)
    requires i < |chunks|
    ensures SplitOversized(chunks[i..]) == SplitChunk(chunks[i]) + SplitOversized(chunks[i + 1..])
  {
  }

  /** `_split_oversized`. */
  method SplitChunks(chunks: seq<Chunk>) returns (split: seq<Chunk>)
    ensures split == SplitOversized(chunks)
  {
    split := [];
    for i := 0 to |chunks|
      invariant SplitOversized(chunks) == split + SplitOversized(chunks[i..])
    {
      SplitFront(chunks, i);
      Associates(split, SplitChunk(chunks[i]), SplitOversized(chunks[i + 1..]));
      if |chunks[i].text| <= HARD_CHUNK_CHARS {
        split := split + [chunks[i]];
      } else {
        var pieces := SplitOne(chunks[i]);
        split := split + pieces;
      }
    }
  }

  // ---- residues -------------------------------------------------------------

  /** The settling that is left when the loop stands at `index`. */
  function At(result: seq<Chunk>, index: nat): Settled
    requires index <= |result|
  {
    Settle(result[..index], result[index..])
  }

  lemma Advances(result: seq<Chunk>, index: nat)
    requires index < |result| && |result[index].text| >= MIN_CHUNK_CHARS
    ensures At(result, index) == At(result, index + 1)
  {
    assert result[index..][1..] == result[index + 1..];
    assert result[..index + 1] == result[..index] + [result[index]];
  }

  lemma JoinsBack(result: seq<Chunk>, index: nat, after: seq<Chunk>)
    requires 0 < index < |result| && |result[index].text| < MIN_CHUNK_CHARS
    requires Fits(result[index - 1], result[index], HARD_CHUNK_CHARS) && |result[index - 1].text| >= MIN_CHUNK_CHARS
    requires after == result[..index - 1] + [Joined(result[index - 1], result[index])] + result[index + 1..]
    ensures At(result, index) == At(after, index - 1)
  {
    var merged := Joined(result[index - 1], result[index]);
    var done, todo := result[..index], result[index..];
    assert todo[1..] == result[index + 1..];
    assert done[..index - 1] == result[..index - 1] == after[..index - 1];
    assert after[index - 1..] == [merged] + todo[1..];
  }

  lemma JoinsForward(result: seq<Chunk>, index: nat, after: seq<Chunk>)
    requires index + 1 < |result| && |result[index].text| < MIN_CHUNK_CHARS
    requires index > 0 ==> !Fits(result[index - 1], result[index], HARD_CHUNK_CHARS)
    requires Fits(result[index], result[index + 1], HARD_CHUNK_CHARS)
    requires after == result[..index] + [Joined(result[index], result[index + 1])] + result[index + 2..]
    ensures At(result, index) == At(after, index)
  {
    var done, todo := result[..index], result[index..];
    assert index > 0 ==> done[|done| - 1] == result[index - 1];
    assert todo[0] == result[index] && todo[1] == result[index + 1] && todo[2..] == result[index + 2..];
    assert after[..index] == done && after[index..] == [Joined(todo[0], todo[1])] + todo[2..];
  }

  lemma Drops(result: seq<Chunk>, index: nat, after: seq<Chunk>)
    requires index < |result| && |result[index].text| < MIN_CHUNK_CHARS
    requires index > 0 ==> !Fits(result[index - 1], result[index], HARD_CHUNK_CHARS)
    requires index + 1 < |result| ==> !Fits(result[index], result[index + 1], HARD_CHUNK_CHARS)
    requires after == result[..index] + result[index + 1..]
    ensures At(result, index) == WithDrop(At(after, index))
  {
  }

  /** `_residue_pass`: the index moves back when a residue joins its predecessor. */
  method ResiduePass(chunks: seq<Chunk>) returns (result: seq<Chunk>, dropped: nat)
    ensures Settled(result, dropped) == Settle([], chunks)
  {
    result, dropped := chunks, 0;
    var index := 0;
    assert chunks[..0] == [] && chunks[0..] == chunks;
    while index < |result|
      invariant index <= |result|
      invariant Settle([], chunks).kept == At(result, index).kept
      invariant Settle([], chunks).dropped == dropped + At(result, index).dropped
      invariant forall k :: 0 <= k < index ==> |result[k].text| >= MIN_CHUNK_CHARS
      decreases |result|, |result| - index
    {
      var current := result[index];
      ghost var before := result;
      if |current.text| >= MIN_CHUNK_CHARS {
        Advances(before, index);
        index := index + 1;
        continue;
      }
      if index > 0 && Fits(result[index - 1], current, HARD_CHUNK_CHARS) {
        var merged := Joined(result[index - 1], current);
        result := result[..index - 1] + [merged] + result[index + 1..];
        JoinsBack(before, index, result);
        index := index - 1;
        continue;
      }
      if index + 1 < |result| && Fits(current, result[index + 1], HARD_CHUNK_CHARS) {
        var merged := Joined(current, result[index + 1]);
        result := result[..index] + [merged] + result[index + 2..];
        JoinsForward(before, index, result);
        continue;
      }
      result := result[..index] + result[index + 1..];
      dropped := dropped + 1;
    }
    assert result[..index] == result && result[index..] == [];
  }

  // ---- the sweep over link spans --------------------------------------------

  predicate SpanLeq(a: (nat, nat), b: (nat, nat))
  {
    a.0 < b.0 || (a.0 == b.0 && a.1 <= b.1)
  }

  ghost predicate SpansSorted(s: seq<(nat, nat)>)
  {
    forall i, j :: 0 <= i < j < |s| ==> SpanLeq(s[i], s[j])
  }

  /** `spans.sort()`. */
  method SortSpans(spans: seq<(nat, nat)>) returns (r: seq<(nat, nat)>)
    ensures multiset(r) == multiset(spans) && SpansSorted(r)
  {
    r := [];
    for i := 0 to |spans|
      invariant multiset(r) == multiset(spans[..i]) && SpansSorted(r)
    {
      assert spans[..i + 1] == spans[..i] + [spans[i]];
      r := InsertSpan(r, spans[i]);
    }
    assert spans[..|spans|] == spans;
  }

  method InsertSpan(s: seq<(nat, nat)>, x: (nat, nat)) returns (r: seq<(nat, nat)>)
    requires SpansSorted(s)
    ensures multiset(r) == multiset(s) + multiset{x} && SpansSorted(r)
  {
    var k := 0;
    while k < |s| && SpanLeq(s[k], x)
      invariant 0 <= k <= |s|
      invariant forall i :: 0 <= i < k ==> SpanLeq(s[i], x)
    {
      k := k + 1;
    }
    r := s[..k] + [x] + s[k..];
    InsertedSpans(s, x, k);
  }

  lemma InsertedSpans(s: seq<(nat, nat)>, x: (nat, nat), k: nat)
    requires SpansSorted(s) && k <= |s|
    requires (forall i :: 0 <= i < k ==> SpanLeq(s[i], x)) && (k < |s| ==> SpanLeq(x, s[k]))
    ensures SpansSorted(s[..k] + [x] + s[k..])
    ensures multiset(s[..k] + [x] + s[k..]) == multiset(s) + multiset{x}
  {
    var r := s[..k] + [x] + s[k..];
    assert s == s[..k] + s[k..];
    forall i, j | 0 <= i < j < |r| ensures SpanLeq(r[i], r[j]) {
      assert k < j && i == k ==> SpanLeq(s[k], s[j - 1]) || j - 1 == k;
    }
  }

  lemma {:induction false} PositionIn(spans: seq<(nat, nat)>, i: nat)
    ensures i in Positions(spans) <==> exists k :: 0 <= k < |spans| && spans[k].0 <= i < spans[k].1
  {
    if spans != [] {
      var n := |spans| - 1;
      PositionIn(spans[..n], i);
      if k :| 0 <= k < |spans[..n]| && spans[..n][k].0 <= i < spans[..n][k].1 {
        assert spans[k].0 <= i < spans[k].1;
      }
    }
  }

  lemma SamePositions(s: seq<(nat, nat)>, t: seq<(nat, nat)>)
    requires multiset(s) == multiset(t)
    ensures Positions(s) <= Positions(t)
  {
    forall i | i in Positions(s) ensures i in Positions(t) {
      PositionIn(s, i);
      var k :| 0 <= k < |s| && s[k].0 <= i < s[k].1;
      assert s[k] in multiset(t);
      var j :| 0 <= j < |t| && t[j] == s[k];
      PositionIn(t, i);
    }
  }

  lemma {:induction false} BetweenSize(a: nat, b: nat)
    requires a <= b
    ensures |Between(a, b)| == b - a
  {
    if a < b {
      BetweenSize(a, b - 1);
      assert b - 1 !in Between(a, b - 1);
    }
  }

  /** No more positions are covered than the line has. */
  lemma CoverageBounded(spans: seq<(nat, nat)>, length: nat)
    requires forall k :: 0 <= k < |spans| ==> spans[k].1 <= length
    ensures |Positions(spans)| <= length
  {
    forall i | i in Positions(spans) ensures i in Between(0, length) {
      PositionIn(spans, i);
    }
    SubsetSize(Positions(spans), Between(0, length));
    BetweenSize(0, length);
  }

  /** One more span either extends the open interval or closes it. */
  lemma ExtendInterval(closed: set<nat>, start: nat, end: nat, a: nat, b: nat)
    requires start <= a <= end && a <= b && start <= end
    ensures closed + Between(start, end) + Between(a, b) == closed + Between(start, if end > b then end else b)
  {
  }

  lemma CloseInterval(closed: set<nat>, start: nat, end: nat)
    requires start <= end && forall i <- closed :: i < start
    ensures |closed + Between(start, end)| == |closed| + (end - start)
  {
    BetweenSize(start, end);
    assert closed !! Between(start, end);
  }

  lemma FirstSpan(sorted: seq<(nat, nat)>)
    requires sorted != []
    ensures Positions(sorted[..1]) == {} + Between(sorted[0].0, sorted[0].1)
  {
  }

  lemma NextSpan(sorted: seq<(nat, nat)>, i: nat)
    requires i < |sorted|
    ensures Positions(sorted[..i + 1]) == Positions(sorted[..i]) + Between(sorted[i].0, sorted[i].1)
  {
    assert sorted[..i + 1][..i] == sorted[..i];
  }

  /** The sweep over sorted spans: one open interval, the closed ones behind it. */
  method Sweep(sorted: seq<(nat, nat)>) returns (covered: nat)
    requires sorted != [] && SpansSorted(sorted)
    requires forall k :: 0 <= k < |sorted| ==> sorted[k].0 <= sorted[k].1
    ensures covered == |Positions(sorted)|
  {
    covered := 0;
    var start, end := sorted[0].0, sorted[0].1;
    ghost var closed: set<nat> := {};
    FirstSpan(sorted);
    for i := 1 to |sorted|
      invariant start <= end && start <= sorted[i - 1].0
      invariant Positions(sorted[..i]) == closed + Between(start, end)
      invariant |closed| == covered && forall p <- closed :: p < start
    {
      var nextStart, nextEnd := sorted[i].0, sorted[i].1;
      assert SpanLeq(sorted[i - 1], sorted[i]);
      NextSpan(sorted, i);
      if nextStart <= end {
        ExtendInterval(closed, start, end, nextStart, nextEnd);
        end := if end > nextEnd then end else nextEnd;
      } else {
        CloseInterval(closed, start, end);
        covered := covered + (end - start);
        closed := closed + Between(start, end);
        start, end := nextStart, nextEnd;
      }
    }
    assert sorted[..|sorted|] == sorted;
    CloseInterval(closed, start, end);
    covered := covered + (end - start);
  }

  lemma SortedSame(spans: seq<(nat, nat)>, sorted: seq<(nat, nat)>)
    requires multiset(sorted) == multiset(spans) && spans != []
    requires forall k :: 0 <= k < |spans| ==> spans[k].0 <= spans[k].1
    ensures sorted != [] && Positions(sorted) == Positions(spans)
    ensures forall k :: 0 <= k < |sorted| ==> sorted[k].0 <= sorted[k].1
  {
    SamePositions(spans, sorted);
    SamePositions(sorted, spans);
    assert spans[0] in multiset(sorted);
    forall k | 0 <= k < |sorted| ensures sorted[k].0 <= sorted[k].1 {
      assert sorted[k] in multiset(spans);
    }
  }

  /** `_covered_characters`: the size of the union of the spans, overlaps counted once. */
  method CoveredCharacters(spans: seq<(nat, nat)>, length: nat) returns (covered: nat)
    requires forall k :: 0 <= k < |spans| ==> spans[k].0 <= spans[k].1 <= length
    ensures covered == |Positions(spans)| && covered <= length
  {
    CoverageBounded(spans, length);
    if spans == [] {
      return 0;
    }
    var sorted := SortSpans(spans);
    SortedSame(spans, sorted);
    covered := Sweep(sorted);
  }

  // ---- the pipeline ---------------------------------------------------------

  function Bare(s: seq<Numbered>): seq<Chunk>
  {
    seq(|s|, i requires 0 <= i < |s| => s[i].chunk)
  }

  /** The loop over the residues: what passes the gate is numbered from zero, what fails is counted. */
  method Gate(pass: Chunk -> bool, residues: seq<Chunk>) returns (accepted: seq<Numbered>, junk: nat)
    ensures Bare(accepted) == Filtered(pass, residues) && junk == |residues| - |accepted|
    ensures forall k :: 0 <= k < |accepted| ==> accepted[k].ordinal == k
  {
    accepted, junk := [], 0;
    for i := 0 to |residues|
      invariant Bare(accepted) == Filtered(pass, residues[..i])
      invariant forall k :: 0 <= k < |accepted| ==> accepted[k].ordinal == k
      invariant junk == i - |accepted|
    {
      FilteredAppend(pass, residues[..i], residues[i]);
      assert residues[..i] + [residues[i]] == residues[..i + 1];
      if pass(residues[i]) {
        accepted := accepted + [Numbered(residues[i], |accepted|)];
      } else {
        junk := junk + 1;
      }
    }
    assert residues[..|residues|] == residues;
  }

  predicate WithinSizes(c: Chunk)
  {
    MIN_CHUNK_CHARS <= |c.text| <= HARD_CHUNK_CHARS
  }

  /** Every residue that is kept has 200 to 2000 characters. */
  lemma ResidueSizes(text: string)
    ensures forall c <- Residues(text).kept :: WithinSizes(c)
  {
    PiecesCarryAll(text);
    SettleSizes([], Pieces(text));
  }

  /**
   `chunk_markdown`: the accepted chunks hold 200 to 2000 characters each and are numbered from
   zero; the rest of the residues were dropped as junk and are counted.
   */
  method ChunkMarkdown(env: Env, text: string) returns (r: Chunking)
    ensures Bare(r.chunks) == Accepted(env, Residues(text).kept)
    ensures forall i :: 0 <= i < |r.chunks| ==> r.chunks[i].ordinal == i
    ensures r.dropped == Residues(text).dropped + (|Residues(text).kept| - |r.chunks|)
    ensures forall c <- Bare(r.chunks) :: WithinSizes(c) && !IsJunk(env, c.text)
  {
    var blocks := BlocksOf(text);
    var packed := PackBlocks(blocks);
    var split := SplitChunks(packed);
    var residues, dropped := ResiduePass(split);
    var accepted, junk := Gate((c: Chunk) => !IsJunk(env, c.text), residues);
    ResidueSizes(text);
    r := Chunking(accepted, dropped + junk);
  }

  /**
   What the document's text becomes, whatever it is. Read as one stream of characters under heading
   paths, it is the pieces; each piece is kept whole, in order and under its path, or dropped whole,
   and only pieces below 200 characters are dropped before the signal gate.
   */
  lemma NothingElseIsLost(text: string) returns (keep: seq<bool>)
    ensures AllMarks(Pieces(text)) == Stream(SplitLines(text), [], false)
    ensures |keep| == |Pieces(text)| && OnlyShortDropped(Pieces(text), keep)
    ensures AllMarks(Residues(text).kept) == AllMarks(Selected(Pieces(text), keep))
    ensures Residues(text).dropped == 0 ==> AllMarks(Residues(text).kept) == Stream(SplitLines(text), [], false)
  {
    PiecesCarryAll(text);
    keep := SettleCarries([], Pieces(text));
    if Residues(text).dropped == 0 {
      SelectAll(Pieces(text), keep);
    }
  }

  lemma {:induction false} SelectAll(chunks: seq<Chunk>, keep: seq<bool>)
    requires |keep| == |chunks| && forall i :: 0 <= i < |keep| ==> keep[i]
    ensures Selected(chunks, keep) == chunks
  {
    if chunks != [] {
      SelectAll(chunks[1..], keep[1..]);
      assert chunks == [chunks[0]] + chunks[1..];
    }
  }
}
