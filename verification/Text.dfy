/** The string operations the program takes from its language: whitespace, strip, splitlines, sorted. */
module Text {
  import opened Basics

  /** The characters for which `str.isspace` holds. */
  predicate IsSpace(c: char)
  {
    var n := c as int;
    0x09 <= n <= 0x0d || 0x1c <= n <= 0x20 || n == 0x85 || n == 0xa0 || n == 0x1680
    || 0x2000 <= n <= 0x200a || n == 0x2028 || n == 0x2029 || n == 0x202f || n == 0x205f || n == 0x3000
  }

  /** The characters at which `str.splitlines` ends a line. */
  predicate IsLineEnd(c: char)
  {
    var n := c as int;
    0x0a <= n <= 0x0d || 0x1c <= n <= 0x1e || n == 0x85 || n == 0x2028 || n == 0x2029
  }

  predicate Blank(s: string)
  {
    s == [] || (IsSpace(s[0]) && Blank(s[1..]))
  }

  function LStrip(s: string): string
  {
    if s != [] && IsSpace(s[0]) then LStrip(s[1..]) else s
  }

  function RStrip(s: string): string
  {
    if s != [] && IsSpace(s[|s| - 1]) then RStrip(s[..|s| - 1]) else s
  }

  function Strip(s: string): string
  {
    RStrip(LStrip(s))
  }

  /** Every whitespace run collapsed to one space, none at the ends. */
  function Words(s: string): seq<string>
  {
    WordsFrom(s, [])
  }

  function WordsFrom(s: string, word: string): seq<string>
    decreases |s|
  {
    if s == [] then (if word == [] then [] else [word])
    else if IsSpace(s[0]) then (if word == [] then [] else [word]) + WordsFrom(s[1..], [])
    else WordsFrom(s[1..], word + [s[0]])
  }

  // ---- lines ----------------------------------------------------------------

  /** The end of the first line: its length and where the next one starts. */
  function FirstEnd(s: string): (r: (nat, nat))
    ensures r.0 <= r.1 <= |s|
    ensures forall k :: 0 <= k < r.0 ==> !IsLineEnd(s[k])
    ensures r.0 < |s| <==> r.0 < r.1
    ensures r.0 < r.1 ==> IsLineEnd(s[r.0])
  {
    if s == [] then (0, 0)
    else if s[0] == '\r' && |s| > 1 && s[1] == '\n' then (0, 2)
    else if IsLineEnd(s[0]) then (0, 1)
    else
      var r := FirstEnd(s[1..]);
      (r.0 + 1, r.1 + 1)
  }

  /** `str.splitlines`: a final line end adds no empty line, and "\r\n" is one line end. */
  function SplitLines(s: string): (r: seq<string>)
    ensures s != [] ==> r != []
    decreases |s|
  {
    if s == [] then []
    else
      var e := FirstEnd(s);
      [s[..e.0]] + SplitLines(s[e.1..])
  }

  predicate NoLineEnd(s: string)
  {
    forall k :: 0 <= k < |s| ==> !IsLineEnd(s[k])
  }

  lemma {:induction false} LinesHoldNoEnd(s: string)
    ensures forall i :: 0 <= i < |SplitLines(s)| ==> NoLineEnd(SplitLines(s)[i])
    decreases |s|
  {
    if s != [] {
      LinesHoldNoEnd(s[FirstEnd(s).1..]);
    }
  }

  /** `"\n".join`. */
  function JoinWith(sep: string, parts: seq<string>): string
  {
    if parts == [] then []
    else if |parts| == 1 then parts[0]
    else parts[0] + sep + JoinWith(sep, parts[1..])
  }

  // ---- sorted ---------------------------------------------------------------

  function InsertString(s: seq<string>, x: string): seq<string>
  {
    if s == [] || Before(x, s[0]) then [x] + s else [s[0]] + InsertString(s[1..], x)
  }

  /** `sorted` on a list of strings; duplicates stay. */
  function SortStrings(s: seq<string>): seq<string>
  {
    if s == [] then [] else InsertString(SortStrings(s[1..]), s[0])
  }

  /** `dict.fromkeys`: first occurrences, in order. */
  function Dedup(s: seq<string>): (r: seq<string>)
    ensures Elems(r) == Elems(s)
  {
    if s == [] then []
    else
      var n := |s| - 1;
      var rest := Dedup(s[..n]);
      assert Elems(s) == Elems(s[..n]) + {s[n]};
      if s[n] in rest then rest
      else
        assert Elems(rest + [s[n]]) == Elems(rest) + {s[n]};
        rest + [s[n]]
  }

  lemma {:induction false} InsertKeeps(s: seq<string>, x: string)
    ensures multiset(InsertString(s, x)) == multiset(s) + multiset{x}
    ensures |InsertString(s, x)| == |s| + 1
  {
    if !(s == [] || Before(x, s[0])) {
      InsertKeeps(s[1..], x);
      assert s == [s[0]] + s[1..];
    }
  }

  lemma {:induction false} SortIsPermutation(s: seq<string>)
    ensures multiset(SortStrings(s)) == multiset(s) && |SortStrings(s)| == |s|
  {
    if s != [] {
      SortIsPermutation(s[1..]);
      InsertKeeps(SortStrings(s[1..]), s[0]);
      assert s == [s[0]] + s[1..];
    }
  }

  lemma SortKeeps(s: seq<string>)
    ensures multiset(SortStrings(s)) == multiset(s) && |SortStrings(s)| == |s|
    ensures forall x :: x in SortStrings(s) <==> x in s
  {
    SortIsPermutation(s);
    forall x ensures x in SortStrings(s) <==> x in s {
      assert x in SortStrings(s) <==> x in multiset(SortStrings(s));
      assert x in s <==> x in multiset(s);
    }
  }
}
