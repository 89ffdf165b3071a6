/**
 Document chunking as the program decides it: blocks under a heading path, packed, split where too
 long, merged or dropped where too short, and gated. `ChunkFacts` proves what this guarantees and
 `ChunkLoops` that the loops compute it.
 */
module Chunks {
  import opened Basics
  import opened Order
  import opened Text

  type Path = seq<string>

  datatype Chunk = Chunk(text: string, path: Path)

  const SOFT_CHUNK_CHARS := 1_500
  const HARD_CHUNK_CHARS := 2_000
  const MIN_CHUNK_CHARS := 200

  // ---- lines ----------------------------------------------------------------

  function Hashes(line: string): (n: nat)
    ensures n <= |line| && (n < |line| ==> line[n] != '#')
  {
    if line == [] || line[0] != '#' then 0 else 1 + Hashes(line[1..])
  }

  /** A heading is one to six hashes and a space. */
  predicate IsHeading(line: string)
  {
    var n := Hashes(line);
    1 <= n <= 6 && n < |line| && line[n] == ' '
  }

  /** The path below a heading: as many levels as it has above it, then its title. */
  function Below(path: Path, line: string): Path
    requires IsHeading(line)
  {
    var n := Hashes(line);
    (if n - 1 <= |path| then path[..n - 1] else path) + [Strip(line[n..])]
  }

  predicate IsFence(line: string)
  {
    "```" <= line
  }

  // ---- blocks, line by line --------------------------------------------------

  /** The blocks so far, the current path, the open paragraph, and the open fence if any. */
  datatype Scan = Scan(blocks: seq<Chunk>, path: Path, paragraph: seq<string>, fence: Option<seq<string>>)

  function Flushed(s: Scan): Scan
  {
    if s.paragraph == [] then s
    else s.(blocks := s.blocks + [Chunk(Strip(JoinWith("\n", s.paragraph)), s.path)], paragraph := [])
  }

  function Closed(s: Scan, fence: seq<string>): Scan
  {
    s.(blocks := s.blocks + [Chunk(JoinWith("\n", fence), s.path)], fence := None)
  }

  function Feed(s: Scan, line: string): Scan
  {
    match s.fence
    case Some(f) =>
      if IsFence(line) then Closed(s, f + [line]) else s.(fence := Some(f + [line]))
    case None =>
      if IsHeading(line) then Flushed(s).(path := Below(s.path, line))
      else if IsFence(line) then Flushed(s).(fence := Some([line]))
      else if Blank(line) then Flushed(s)
      else s.(paragraph := s.paragraph + [line])
  }

  function FeedAll(s: Scan, lines: seq<string>): Scan
    decreases |lines|
  {
    if lines == [] then s else FeedAll(Feed(s, lines[0]), lines[1..])
  }

  function Finished(s: Scan): seq<Chunk>
  {
    match s.fence case Some(f) => Closed(s, f).blocks case None => Flushed(s).blocks
  }

  const START := Scan([], [], [], None)

  function Blocks(text: string): seq<Chunk>
  {
    Finished(FeedAll(START, SplitLines(text)))
  }

  // ---- packing --------------------------------------------------------------

  function Joined(a: Chunk, b: Chunk): Chunk
  {
    Chunk(a.text + "\n\n" + b.text, a.path)
  }

  /** Two chunks may become one of at most `cap` characters. */
  predicate Fits(a: Chunk, b: Chunk, cap: nat)
  {
    a.path == b.path && |a.text| + 2 + |b.text| <= cap
  }

  function PackFrom(current: Chunk, blocks: seq<Chunk>): seq<Chunk>
    decreases |blocks|
  {
    if blocks == [] then [current]
    else if Fits(current, blocks[0], SOFT_CHUNK_CHARS) then PackFrom(Joined(current, blocks[0]), blocks[1..])
    else [current] + PackFrom(blocks[0], blocks[1..])
  }

  function Pack(blocks: seq<Chunk>): seq<Chunk>
  {
    if blocks == [] then [] else PackFrom(blocks[0], blocks[1..])
  }

  // ---- splitting ------------------------------------------------------------

  /** The last index below `n` at which `at` holds, or -1. */
  function LastAt(s: string, n: nat, at: char -> bool): (k: int)
    requires n <= |s|
    ensures -1 <= k < n && (k >= 0 ==> at(s[k]))
    ensures forall j :: k < j < n ==> !at(s[j])
  {
    if n == 0 then -1 else if at(s[n - 1]) then n - 1 else LastAt(s, n - 1, at)
  }

  function Space(): char -> bool
  {
    c => IsSpace(c)
  }

  function Newline(): char -> bool
  {
    c => c == '\n'
  }

  /** Where a long text is cut: at the last such character in the window, or at its end. */
  function Cut(s: string, at: char -> bool): (k: nat)
    requires |s| > HARD_CHUNK_CHARS
    ensures 1 <= k <= HARD_CHUNK_CHARS
  {
    var k := LastAt(s, HARD_CHUNK_CHARS + 1, at);
    if k > 0 then k else HARD_CHUNK_CHARS
  }

  function LStripNewlines(s: string): (r: string)
    ensures |r| <= |s|
  {
    if s != [] && s[0] == '\n' then LStripNewlines(s[1..]) else s
  }

  lemma {:induction false} LStripShrinks(s: string)
    ensures |LStrip(s)| <= |s|
  {
    if s != [] && IsSpace(s[0]) {
      LStripShrinks(s[1..]);
    }
  }

  function SplitParagraph(text: string): seq<string>
    decreases |text|
  {
    if |text| <= HARD_CHUNK_CHARS then (if text == [] then [] else [text])
    else
      var k := Cut(text, Space());
      LStripShrinks(text[k..]);
      [RStrip(text[..k])] + SplitParagraph(LStrip(text[k..]))
  }

  function SplitFence(text: string): seq<string>
    decreases |text|
  {
    if |text| <= HARD_CHUNK_CHARS then (if text == [] then [] else [text])
    else
      var k := Cut(text, Newline());
      [text[..k]] + SplitFence(LStripNewlines(text[k..]))
  }

  function Under(path: Path, pieces: seq<string>): (r: seq<Chunk>)
    ensures |r| == |pieces| && forall i :: 0 <= i < |r| ==> r[i] == Chunk(pieces[i], path)
  {
    if pieces == [] then [] else [Chunk(pieces[0], path)] + Under(path, pieces[1..])
  }

  function SplitChunk(c: Chunk): seq<Chunk>
  {
    if |c.text| <= HARD_CHUNK_CHARS then [c]
    else Under(c.path, if IsFence(c.text) then SplitFence(c.text) else SplitParagraph(c.text))
  }

  function SplitOversized(chunks: seq<Chunk>): seq<Chunk>
  {
    if chunks == [] then [] else SplitChunk(chunks[0]) + SplitOversized(chunks[1..])
  }

  // ---- residues -------------------------------------------------------------

  /** What is kept, and how many residues were dropped. */
  datatype Settled = Settled(kept: seq<Chunk>, dropped: nat)

  function WithDrop(s: Settled): Settled
  {
    s.(dropped := s.dropped + 1)
  }

  /**
   Each short chunk is merged into the one before it, else into the one after it, else dropped;
   `done` are the chunks settled so far.
   */
  function Settle(done: seq<Chunk>, todo: seq<Chunk>): Settled
    decreases |todo|
  {
    if todo == [] then Settled(done, 0)
    else
      var c := todo[0];
      if |c.text| >= MIN_CHUNK_CHARS then Settle(done + [c], todo[1..])
      else if done != [] && Fits(done[|done| - 1], c, HARD_CHUNK_CHARS) then
        Settle(done[..|done| - 1] + [Joined(done[|done| - 1], c)], todo[1..])
      else if |todo| > 1 && Fits(c, todo[1], HARD_CHUNK_CHARS) then
        Settle(done, [Joined(c, todo[1])] + todo[2..])
      else WithDrop(Settle(done, todo[1..]))
  }

  // ---- the signal gate ------------------------------------------------------

  /** Unicode letters, and the link and URL spans of a line, come from elsewhere. */
  datatype Env = Env(letter: char -> bool, spans: string -> seq<(nat, nat)>)

  /** The positions some span covers. */
  function Positions(spans: seq<(nat, nat)>): set<nat>
  {
    if spans == [] then {}
    else Positions(spans[..|spans| - 1]) + Between(spans[|spans| - 1].0, spans[|spans| - 1].1)
  }

  function Between(a: nat, b: nat): (r: set<nat>)
    ensures forall i :: i in r <==> a <= i < b
  {
    if a >= b then {} else Between(a, b - 1) + {b - 1}
  }

  function Ink(s: string): string
  {
    if s == [] then [] else (if IsSpace(s[0]) then [] else [s[0]]) + Ink(s[1..])
  }

  function Letters(env: Env, s: string): nat
  {
    if s == [] then 0 else Letters(env, s[..|s| - 1]) + if env.letter(s[|s| - 1]) then 1 else 0
  }

  function Lined(lines: seq<string>): nat
  {
    if lines == [] then 0 else Lined(lines[..|lines| - 1]) + if Blank(lines[|lines| - 1]) then 0 else 1
  }

  /** More than half of the line is inside links or URLs. */
  predicate LinkLine(env: Env, line: string)
  {
    2 * |Positions(env.spans(line))| > |line|
  }

  function LinkLines(env: Env, lines: seq<string>): nat
  {
    if lines == [] then 0
    else
      var line := lines[|lines| - 1];
      LinkLines(env, lines[..|lines| - 1]) + if !Blank(line) && LinkLine(env, line) then 1 else 0
  }

  predicate IsJunk(env: Env, text: string)
  {
    var ink := Ink(text);
    var lines := SplitLines(text);
    || ink == []
    || 10 * Letters(env, ink) < 3 * |ink|
    || (Lined(lines) > 0 && 2 * LinkLines(env, lines) > Lined(lines))
  }

  // ---- the pipeline ---------------------------------------------------------

  function Pieces(text: string): seq<Chunk>
  {
    SplitOversized(Pack(Blocks(text)))
  }

  function Residues(text: string): Settled
  {
    Settle([], Pieces(text))
  }

  function Accepted(env: Env, chunks: seq<Chunk>): seq<Chunk>
  {
    Filtered((c: Chunk) => !IsJunk(env, c.text), chunks)
  }

  /** A stored chunk, numbered in order. */
  datatype Numbered = Numbered(chunk: Chunk, ordinal: nat)

  datatype Chunking = Chunking(chunks: seq<Numbered>, dropped: nat)
}
