/** The Markdown form of a message, and a parser that gets its sections back. */
module Rendering {
  import opened Basics
  import opened Text

  datatype Verification = Verification(command: string, status: string, result: string)

  datatype Report = Report(
    subject: string, status: string, result: string, next: Option<string>,
    verification: Option<Verification>, refs: seq<string>)

  const MESSAGE_MAX_CONTENT_BYTES := 16384

  // ---- the printer ----------------------------------------------------------

  function QuoteLine(line: string): string
  {
    if Blank(line) then ">" else "> " + line
  }

  function QuoteLines(lines: seq<string>): (r: seq<string>)
    ensures |r| == |lines| && forall i :: 0 <= i < |r| ==> r[i] == QuoteLine(lines[i])
  {
    if lines == [] then [] else [QuoteLine(lines[0])] + QuoteLines(lines[1..])
  }

  /** `_quote`, line by line. */
  function Quote(text: string): seq<string>
  {
    QuoteLines(SplitLines(text))
  }

  /** The text up to the first newline and the text after it, as `partition` splits it. */
  function Partition(s: string): (string, string)
  {
    if s == [] then ([], [])
    else if s[0] == '\n' then ([], s[1..])
    else
      var r := Partition(s[1..]);
      ([s[0]] + r.0, r.1)
  }

  function QuoteLabeled(lbl: string, value: string): seq<string>
  {
    var cut := Partition(value);
    [if Blank(cut.0) then "> " + lbl + ":" else "> " + lbl + ": " + cut.0] + Quote(cut.1)
  }

  function VerificationLines(v: Verification): seq<string>
  {
    ["> Status: " + v.status]
    + QuoteLabeled("Command", JoinWith("\n", SplitLines(v.command)))
    + QuoteLabeled("Result", JoinWith("\n", SplitLines(v.result)))
  }

  function RefLines(refs: seq<string>): seq<seq<string>>
  {
    if refs == [] then [] else [["- " + refs[0]]] + RefLines(refs[1..])
  }

  /** The sections, each as its lines. */
  function Sections(r: Report): seq<seq<string>>
  {
    [["# " + r.subject], ["## Status"], Quote(r.status), ["## Result"], Quote(r.result)]
    + (match r.next case None => [] case Some(t) => [["## Next"], Quote(t)])
    + (match r.verification case None => [] case Some(v) => [["## Verification"], VerificationLines(v)])
    + (if r.refs == [] then [] else [["## References"]] + RefLines(r.refs))
  }

  function SectionTexts(sections: seq<seq<string>>): seq<string>
  {
    if sections == [] then [] else [JoinWith("\n", sections[0])] + SectionTexts(sections[1..])
  }

  function Markdown(r: Report): string
  {
    JoinWith("\n\n", SectionTexts(Sections(r)))
  }

  function Utf8Length(s: string): nat
  {
    if s == [] then 0
    else
      var n := s[0] as int;
      (if n < 0x80 then 1 else if n < 0x800 then 2 else if n < 0x10000 then 3 else 4) + Utf8Length(s[1..])
  }

  /** `render_content`: refused rather than truncated past the cap. */
  function Render(r: Report): Option<string>
  {
    if Utf8Length(Markdown(r)) > MESSAGE_MAX_CONTENT_BYTES then None else Some(Markdown(r))
  }

  // ---- what the caller has validated -----------------------------------------

  const VERIFICATION_STATUSES := {"passed", "failed", "not_run"}
  const STATUSES := {"info", "in_progress", "blocked", "completed"}

  predicate Valid(r: Report)
  {
    && NoLineEnd(r.subject) && r.status in STATUSES
    && !Blank(r.result)
    && (r.next.Some? ==> !Blank(r.next.value))
    && (r.verification.Some? ==> !Blank(r.verification.value.command) && !Blank(r.verification.value.result)
                                 && r.verification.value.status in VERIFICATION_STATUSES)
    && (forall u <- r.refs :: NoLineEnd(u))
  }

  // ---- the parser -----------------------------------------------------------

  /** The text cut at newlines. */
  function Lines(s: string): (r: seq<string>)
    ensures r != []
  {
    if s == [] then [[]]
    else
      var rest := Lines(s[1..]);
      if s[0] == '\n' then [[]] + rest else [[s[0]] + rest[0]] + rest[1..]
  }

  /** Lines grouped at empty ones. */
  function Groups(lines: seq<string>): (r: seq<seq<string>>)
    ensures r != []
  {
    if lines == [] then [[]]
    else
      var rest := Groups(lines[1..]);
      if lines[0] == [] then [[]] + rest else [[lines[0]] + rest[0]] + rest[1..]
  }

  /** A quoted line without its mark. */
  function Unquote(line: string): string
  {
    if |line| >= 2 then line[2..] else []
  }

  function UnquoteAll(lines: seq<string>): (r: seq<string>)
    ensures |r| == |lines| && forall i :: 0 <= i < |r| ==> r[i] == Unquote(lines[i])
  {
    if lines == [] then [] else [Unquote(lines[0])] + UnquoteAll(lines[1..])
  }

  /** What can be told from the text: lines with blank ones emptied, and the verification block as it stands. */
  datatype Document = Document(
    subject: string, status: seq<string>, result: seq<string>, next: Option<seq<string>>,
    verification: Option<seq<string>>, refs: seq<string>)

  function ParseRefs(groups: seq<seq<string>>): seq<string>
  {
    if groups == [] then []
    else (if groups[0] == [] then [] else [Unquote(groups[0][0])]) + ParseRefs(groups[1..])
  }

  function ParseTail(groups: seq<seq<string>>): (Option<seq<string>>, Option<seq<string>>, seq<string>)
  {
    if |groups| >= 2 && groups[0] == ["## Next"] then
      var r := ParseAfterNext(groups[2..]);
      (Some(UnquoteAll(groups[1])), r.0, r.1)
    else
      var r := ParseAfterNext(groups);
      (None, r.0, r.1)
  }

  function ParseAfterNext(groups: seq<seq<string>>): (Option<seq<string>>, seq<string>)
  {
    if |groups| >= 2 && groups[0] == ["## Verification"]
    then (Some(UnquoteAll(groups[1])), ParseRefs(Drop1(groups[2..])))
    else (None, ParseRefs(Drop1(groups)))
  }

  function Drop1<T>(s: seq<T>): seq<T>
  {
    if s == [] then [] else s[1..]
  }

  /** Reading a document off its sections. */
  function FromSections(g: seq<seq<string>>): Option<Document>
  {
    if |g| < 5 || g[0] == [] then None
    else
      var tail := ParseTail(g[5..]);
      Some(Document(Unquote(g[0][0]), UnquoteAll(g[2]), UnquoteAll(g[4]), tail.0, tail.1, tail.2))
  }

  function Parse(text: string): Option<Document>
  {
    FromSections(Groups(Lines(text)))
  }

  // ---- what a report says ---------------------------------------------------

  function Settled(line: string): string
  {
    if Blank(line) then [] else line
  }

  /** The lines of a text, blank ones emptied. */
  function SettledLines(lines: seq<string>): (r: seq<string>)
    ensures |r| == |lines| && forall i :: 0 <= i < |r| ==> r[i] == Settled(lines[i])
  {
    if lines == [] then [] else [Settled(lines[0])] + SettledLines(lines[1..])
  }

  function Essence(r: Report): Document
  {
    Document(r.subject, SettledLines(SplitLines(r.status)), SettledLines(SplitLines(r.result)),
             match r.next case None => None case Some(t) => Some(SettledLines(SplitLines(t))),
             match r.verification case None => None case Some(v) => Some(UnquoteAll(VerificationLines(v))),
             r.refs)
  }

  // ---- joining and cutting --------------------------------------------------

  predicate NoNewline(s: string)
  {
    forall k :: 0 <= k < |s| ==> s[k] != '\n'
  }

  lemma {:induction false} LinesOfOne(s: string)
    requires NoNewline(s)
    ensures Lines(s) == [s]
  {
    if s != [] {
      LinesOfOne(s[1..]);
      assert [s[0]] + s[1..] == s;
    }
  }

  lemma {:induction false} LinesAtNewline(s: string, t: string)
    requires NoNewline(s)
    ensures Lines(s + "\n" + t) == [s] + Lines(t)
  {
    if s == [] {
      assert s + "\n" + t == ['\n'] + t;
    } else {
      LinesAtNewline(s[1..], t);
      assert (s + "\n" + t)[1..] == s[1..] + "\n" + t;
      assert [s[0]] + s[1..] == s;
      assert ([s[1..]] + Lines(t))[1..] == Lines(t);
    }
  }

  predicate NoNewlines(lines: seq<string>)
  {
    forall i :: 0 <= i < |lines| ==> NoNewline(lines[i])
  }

  lemma {:induction false} CutJoined(lines: seq<string>)
    requires lines != [] && NoNewlines(lines)
    ensures Lines(JoinWith("\n", lines)) == lines
  {
    if |lines| == 1 {
      LinesOfOne(lines[0]);
    } else {
      CutJoined(lines[1..]);
      LinesAtNewline(lines[0], JoinWith("\n", lines[1..]));
    }
  }

  /** The lines of sections joined by empty lines. */
  function Spread(sections: seq<seq<string>>): seq<string>
  {
    if sections == [] then []
    else if |sections| == 1 then sections[0]
    else sections[0] + [""] + Spread(sections[1..])
  }

  lemma {:induction false} JoinAppend(a: seq<string>, b: seq<string>)
    requires a != [] && b != []
    ensures JoinWith("\n", a + b) == JoinWith("\n", a) + "\n" + JoinWith("\n", b)
  {
    if |a| == 1 {
      assert (a + b)[1..] == b;
    } else {
      JoinAppend(a[1..], b);
      assert (a + b)[1..] == a[1..] + b;
      assert JoinWith("\n", a + b) == a[0] + "\n" + JoinWith("\n", a[1..] + b);
      assert JoinWith("\n", a) == a[0] + "\n" + JoinWith("\n", a[1..]);
    }
  }

  predicate Full(sections: seq<seq<string>>)
  {
    forall i :: 0 <= i < |sections| ==>
      sections[i] != [] && forall j :: 0 <= j < |sections[i]| ==> sections[i][j] != [] && NoNewline(sections[i][j])
  }

  lemma {:induction false} JoinAcrossEmpty(a: seq<string>, b: seq<string>)
    requires a != [] && b != []
    ensures JoinWith("\n", a + [""] + b) == JoinWith("\n", a) + "\n\n" + JoinWith("\n", b)
  {
    JoinAppend([""], b);
    JoinAppend(a, [""] + b);
    assert a + [""] + b == a + ([""] + b);
    assert JoinWith("\n", [""]) == "";
    assert "" + "\n" + JoinWith("\n", b) == "\n" + JoinWith("\n", b);
    assert "\n\n" == "\n" + "\n";
  }

  /** Joining the section texts by an empty line is joining all the lines. */
  lemma {:induction false} JoinSections(sections: seq<seq<string>>)
    requires sections != [] && Full(sections)
    ensures Spread(sections) != []
    ensures JoinWith("\n\n", SectionTexts(sections)) == JoinWith("\n", Spread(sections))
  {
    if |sections| > 1 {
      JoinSections(sections[1..]);
      JoinAcrossEmpty(sections[0], Spread(sections[1..]));
    } else {
      assert SectionTexts(sections) == [JoinWith("\n", sections[0])];
    }
  }

  lemma {:induction false} SpreadHoldsNoNewline(sections: seq<seq<string>>)
    requires Full(sections)
    ensures NoNewlines(Spread(sections))
  {
    if |sections| > 1 {
      SpreadHoldsNoNewline(sections[1..]);
      assert NoNewlines(sections[0]);
    }
  }

  predicate Nonempty(lines: seq<string>)
  {
    forall j :: 0 <= j < |lines| ==> lines[j] != []
  }

  lemma {:induction false} GroupsOfOne(lines: seq<string>)
    requires Nonempty(lines)
    ensures Groups(lines) == [lines]
  {
    if lines != [] {
      GroupsOfOne(lines[1..]);
      assert [lines[0]] + lines[1..] == lines;
    }
  }

  lemma {:induction false} GroupsAtEmpty(a: seq<string>, b: seq<string>)
    requires Nonempty(a)
    ensures Groups(a + [""] + b) == [a] + Groups(b)
  {
    if a == [] {
      assert a + [""] + b == [""] + b;
    } else {
      GroupsAtEmpty(a[1..], b);
      assert (a + [""] + b)[1..] == a[1..] + [""] + b;
      assert [a[0]] + a[1..] == a;
      assert ([a[1..]] + Groups(b))[1..] == Groups(b);
    }
  }

  lemma {:induction false} GroupSpread(sections: seq<seq<string>>)
    requires sections != [] && Full(sections)
    ensures Groups(Spread(sections)) == sections
  {
    if |sections| == 1 {
      GroupsOfOne(sections[0]);
    } else {
      GroupSpread(sections[1..]);
      GroupsAtEmpty(sections[0], Spread(sections[1..]));
    }
  }

  /** Cutting a rendered text at its empty lines gives the sections back. */
  lemma SectionsComeBack(sections: seq<seq<string>>)
    requires sections != [] && Full(sections)
    ensures Groups(Lines(JoinWith("\n\n", SectionTexts(sections)))) == sections
  {
    JoinSections(sections);
    SpreadHoldsNoNewline(sections);
    CutJoined(Spread(sections));
    GroupSpread(sections);
  }

  // ---- the sections of a report ---------------------------------------------

  predicate Marked(line: string, mark: string)
  {
    mark <= line && NoLineEnd(line)
  }

  predicate AllMarked(lines: seq<string>, mark: string)
  {
    forall i :: 0 <= i < |lines| ==> Marked(lines[i], mark)
  }

  lemma QuoteIsMarked(text: string)
    ensures AllMarked(Quote(text), ">")
  {
    LinesHoldNoEnd(text);
    var lines := SplitLines(text);
    forall i | 0 <= i < |lines| ensures Marked(QuoteLine(lines[i]), ">") {
      assert NoLineEnd(lines[i]);
    }
  }

  lemma {:induction false} PartitionHolds(s: string)
    ensures (forall k :: 0 <= k < |Partition(s).0| ==> Partition(s).0[k] in s)
    ensures (forall k :: 0 <= k < |Partition(s).1| ==> Partition(s).1[k] in s)
    ensures forall k :: 0 <= k < |Partition(s).0| ==> Partition(s).0[k] != '\n'
  {
    if s != [] && s[0] != '\n' {
      PartitionHolds(s[1..]);
    }
  }

  /** The only line end in a joined text is the newline. */
  predicate PlainLines(s: string)
  {
    forall k :: 0 <= k < |s| ==> IsLineEnd(s[k]) ==> s[k] == '\n'
  }

  lemma {:induction false} JoinedIsPlain(lines: seq<string>)
    requires forall i :: 0 <= i < |lines| ==> NoLineEnd(lines[i])
    ensures PlainLines(JoinWith("\n", lines))
  {
    if |lines| > 1 {
      JoinedIsPlain(lines[1..]);
    } else if |lines| == 1 {
      assert NoLineEnd(lines[0]);
    }
  }

  lemma LabeledIsMarked(lbl: string, text: string)
    requires NoLineEnd(lbl)
    ensures AllMarked(QuoteLabeled(lbl, JoinWith("\n", SplitLines(text))), ">")
  {
    var value := JoinWith("\n", SplitLines(text));
    LinesHoldNoEnd(text);
    JoinedIsPlain(SplitLines(text));
    PartitionHolds(value);
    var cut := Partition(value);
    forall k | 0 <= k < |cut.0| ensures !IsLineEnd(cut.0[k]) {
      var j :| 0 <= j < |value| && value[j] == cut.0[k];
    }
    QuoteIsMarked(cut.1);
  }

  lemma MarkedAppend(a: seq<string>, b: seq<string>, mark: string)
    requires AllMarked(a, mark) && AllMarked(b, mark)
    ensures AllMarked(a + b, mark)
  {
  }

  lemma StatusLineIsMarked(status: string)
    requires status in VERIFICATION_STATUSES
    ensures AllMarked(["> Status: " + status], ">")
  {
    assert NoLineEnd(status);
    var line := "> Status: " + status;
    forall k | 0 <= k < |line| ensures !IsLineEnd(line[k]) {
      assert k >= 10 ==> line[k] == status[k - 10];
    }
    assert NoLineEnd(line);
  }

  lemma VerificationIsMarked(v: Verification)
    requires v.status in VERIFICATION_STATUSES
    ensures AllMarked(VerificationLines(v), ">")
  {
    StatusLineIsMarked(v.status);
    LabeledIsMarked("Command", v.command);
    LabeledIsMarked("Result", v.result);
    MarkedAppend(["> Status: " + v.status], QuoteLabeled("Command", JoinWith("\n", SplitLines(v.command))), ">");
  }

  lemma {:induction false} RefLinesAre(refs: seq<string>)
    ensures |RefLines(refs)| == |refs| && forall i :: 0 <= i < |refs| ==> RefLines(refs)[i] == ["- " + refs[i]]
    ensures ParseRefs(RefLines(refs)) == refs
  {
    if refs != [] {
      RefLinesAre(refs[1..]);
    }
  }

  const HEADINGS := {"## Status", "## Result", "## Next", "## Verification", "## References"}

  /** What each line after the subject can be. */
  predicate GoodLine(line: string)
  {
    Marked(line, ">") || Marked(line, "- ") || line in HEADINGS
  }

  predicate GoodSection(section: seq<string>)
  {
    section != [] && forall j :: 0 <= j < |section| ==> GoodLine(section[j])
  }

  predicate GoodSections(sections: seq<seq<string>>)
  {
    forall i :: 0 <= i < |sections| ==> GoodSection(sections[i])
  }

  lemma GoodAppend(a: seq<seq<string>>, b: seq<seq<string>>)
    requires GoodSections(a) && GoodSections(b)
    ensures GoodSections(a + b)
  {
  }

  lemma QuoteIsGood(heading: string, text: string)
    requires heading in HEADINGS && text != []
    ensures GoodSections([[heading], Quote(text)])
  {
    QuoteIsMarked(text);
  }

  lemma RefsAreGood(refs: seq<string>)
    requires forall u <- refs :: NoLineEnd(u)
    ensures GoodSections([["## References"]] + RefLines(refs))
  {
    RefLinesAre(refs);
    var lines := RefLines(refs);
    forall i | 0 <= i < |lines| ensures GoodSection(lines[i]) {
      assert refs[i] in refs;
      assert Marked("- " + refs[i], "- ");
    }
  }

  lemma AfterNextIsGood(r: Report)
    requires Valid(r)
    ensures GoodSections(AfterNext(r))
  {
    RefsAreGood(r.refs);
    if r.verification.Some? {
      VerificationIsMarked(r.verification.value);
    }
  }

  lemma TailIsGood(r: Report)
    requires Valid(r)
    ensures GoodSections(TailSections(r))
  {
    AfterNextIsGood(r);
    if r.next.Some? {
      QuoteIsGood("## Next", r.next.value);
    }
  }

  function TailSections(r: Report): seq<seq<string>>
  {
    (match r.next case None => [] case Some(t) => [["## Next"], Quote(t)]) + AfterNext(r)
  }

  function AfterNext(r: Report): seq<seq<string>>
  {
    (match r.verification case None => [] case Some(v) => [["## Verification"], VerificationLines(v)])
    + (if r.refs == [] then [] else [["## References"]] + RefLines(r.refs))
  }

  lemma HeadOf(r: Report)
    ensures Sections(r) == [["# " + r.subject]] + [["## Status"], Quote(r.status)] + [["## Result"], Quote(r.result)]
                           + TailSections(r)
  {
  }

  /** Everything after the subject. */
  function Body(r: Report): seq<seq<string>>
  {
    [["## Status"], Quote(r.status)] + [["## Result"], Quote(r.result)] + TailSections(r)
  }

  lemma BodyIsGood(r: Report)
    requires Valid(r)
    ensures GoodSections(Body(r))
  {
    QuoteIsGood("## Status", r.status);
    QuoteIsGood("## Result", r.result);
    TailIsGood(r);
    GoodAppend([["## Status"], Quote(r.status)], [["## Result"], Quote(r.result)]);
    GoodAppend([["## Status"], Quote(r.status)] + [["## Result"], Quote(r.result)], TailSections(r));
  }

  lemma SubjectThenBody(r: Report)
    ensures Sections(r) == [["# " + r.subject]] + Body(r)
  {
  }

  lemma ReportSections(r: Report)
    requires Valid(r)
    ensures |Sections(r)| >= 5 && Sections(r)[0] == ["# " + r.subject] && GoodSections(Sections(r)[1..])
  {
    SubjectThenBody(r);
    BodyIsGood(r);
    HeadThenRest(Sections(r), ["# " + r.subject], Body(r));
  }

  lemma HeadThenRest<T>(s: seq<T>, x: T, rest: seq<T>)
    requires s == [x] + rest
    ensures s[0] == x && s[1..] == rest
  {
  }

  lemma GoodIsFull(sections: seq<seq<string>>)
    requires GoodSections(sections)
    ensures Full(sections)
  {
  }

  predicate FullLines(lines: seq<string>)
  {
    lines != [] && forall j :: 0 <= j < |lines| ==> lines[j] != [] && NoNewline(lines[j])
  }

  lemma FullCons(first: seq<string>, rest: seq<seq<string>>)
    requires FullLines(first) && Full(rest)
    ensures Full([first] + rest)
  {
  }

  lemma SubjectLineIsFull(subject: string)
    requires NoLineEnd(subject)
    ensures FullLines(["# " + subject])
  {
  }

  lemma ReportIsFull(r: Report)
    requires Valid(r)
    ensures Sections(r) != [] && Full(Sections(r))
  {
    SubjectThenBody(r);
    BodyIsGood(r);
    GoodIsFull(Body(r));
    SubjectLineIsFull(r.subject);
    FullCons(["# " + r.subject], Body(r));
  }

  // ---- the round trip -------------------------------------------------------

  lemma QuoteComesBack(text: string)
    ensures UnquoteAll(Quote(text)) == SettledLines(SplitLines(text))
  {
  }

  lemma AfterNextComesBack(r: Report)
    ensures ParseAfterNext(AfterNext(r)) == (Essence(r).verification, r.refs)
  {
    RefLinesAre(r.refs);
    var refs := if r.refs == [] then [] else [["## References"]] + RefLines(r.refs);
    assert Drop1(refs) == RefLines(r.refs);
    assert ["## References"] != ["## Verification"] by {
      assert "## References"[3] != "## Verification"[3];
    }
    match r.verification
    case None =>
      assert AfterNext(r) == refs;
    case Some(v) =>
      assert AfterNext(r)[2..] == refs;
  }

  lemma NotNext(r: Report)
    ensures AfterNext(r) != [] ==> AfterNext(r)[0] != ["## Next"]
  {
    assert "## References"[3] != "## Next"[3] && "## Verification"[3] != "## Next"[3];
    assert ["## References"][0] != ["## Next"][0] && ["## Verification"][0] != ["## Next"][0];
  }

  lemma TailComesBack(r: Report)
    ensures ParseTail(TailSections(r)) == (Essence(r).next, Essence(r).verification, r.refs)
  {
    AfterNextComesBack(r);
    NotNext(r);
    match r.next
    case None =>
      assert TailSections(r) == AfterNext(r);
    case Some(t) =>
      QuoteComesBack(t);
      assert TailSections(r)[2..] == AfterNext(r);
  }

  lemma SectionsSay(r: Report)
    ensures FromSections(Sections(r)) == Some(Essence(r))
  {
    HeadOf(r);
    assert Sections(r)[5..] == TailSections(r);
    TailComesBack(r);
    QuoteComesBack(r.status);
    QuoteComesBack(r.result);
    assert Unquote("# " + r.subject) == r.subject;
  }

  /** Parsing a rendered report gives back what it says. */
  lemma ParseRender(r: Report)
    requires Valid(r)
    ensures Parse(Markdown(r)) == Some(Essence(r))
  {
    ReportIsFull(r);
    SectionsComeBack(Sections(r));
    SectionsSay(r);
  }

  lemma StatusHasNoEnd(status: string)
    requires status in STATUSES
    ensures NoLineEnd(status) && !Blank(status)
  {
  }

  lemma StatusIsOneLine(status: string)
    requires status in STATUSES
    ensures SettledLines(SplitLines(status)) == [status]
  {
    StatusHasNoEnd(status);
    OneLine(status);
    assert SettledLines([status])[0] == status;
  }

  lemma OneLine(s: string)
    requires NoLineEnd(s) && s != []
    ensures SplitLines(s) == [s]
  {
    assert s[|s|..] == [] && s[..|s|] == s;
    assert SplitLines([]) == [];
  }

  /**
   Equal rendered content means equal subject, equal status, the same result and next lines up to
   how blank lines are spelled, the same verification block and the same references: comparing
   the content compares the status too.
   */
  lemma SameContentSaysTheSame(r: Report, s: Report)
    requires Valid(r) && Valid(s) && Render(r).Some? && Render(r) == Render(s)
    ensures r.subject == s.subject && r.status == s.status && r.refs == s.refs
    ensures SettledLines(SplitLines(r.result)) == SettledLines(SplitLines(s.result))
    ensures r.next.Some? == s.next.Some?
    ensures r.next.Some? ==> SettledLines(SplitLines(r.next.value)) == SettledLines(SplitLines(s.next.value))
    ensures Essence(r) == Essence(s)
  {
    ParseRender(r);
    ParseRender(s);
    StatusIsOneLine(r.status);
    StatusIsOneLine(s.status);
    assert [r.status][0] == [s.status][0];
  }

  /** Within one rendered text, a line that starts with '#' is the subject, first, or a fixed heading. */
  lemma OnlyHeadings(r: Report, k: nat)
    requires Valid(r) && k < |Lines(Markdown(r))| && Lines(Markdown(r))[k] != [] && Lines(Markdown(r))[k][0] == '#'
    ensures k == 0 || Lines(Markdown(r))[k] in HEADINGS
    ensures k == 0 ==> Lines(Markdown(r))[k] == "# " + r.subject
  {
    ReportSections(r);
    LinesAre(r);
    if k > 0 {
      SpreadFrom(Sections(r), k);
      LaterHeadings(Sections(r), Lines(Markdown(r))[k]);
    }
  }

  lemma LinesAre(r: Report)
    requires Valid(r)
    ensures Lines(Markdown(r)) == Spread(Sections(r))
  {
    var sections := Sections(r);
    ReportIsFull(r);
    JoinSections(sections);
    SpreadHoldsNoNewline(sections);
    CutJoined(Spread(sections));
  }

  ghost predicate FromLater(sections: seq<seq<string>>, line: string)
  {
    exists i, j :: 1 <= i < |sections| && 0 <= j < |sections[i]| && sections[i][j] == line
  }

  ghost predicate FromAny(sections: seq<seq<string>>, line: string)
  {
    exists i, j :: 0 <= i < |sections| && 0 <= j < |sections[i]| && sections[i][j] == line
  }

  lemma LaterHeadings(sections: seq<seq<string>>, line: string)
    requires sections != [] && GoodSections(sections[1..]) && FromLater(sections, line) && line != [] && line[0] == '#'
    ensures line in HEADINGS
  {
  }

  lemma {:induction false} SpreadHolds(sections: seq<seq<string>>, k: nat)
    requires k < |Spread(sections)|
    ensures Spread(sections)[k] == "" || FromAny(sections, Spread(sections)[k])
  {
    var n := |sections[0]|;
    if |sections| == 1 || k < n {
      assert Spread(sections)[k] == sections[0][k];
    } else if k > n {
      var rest := sections[1..];
      SpreadHolds(rest, k - n - 1);
      if FromAny(rest, Spread(rest)[k - n - 1]) {
        var i, j :| 0 <= i < |rest| && 0 <= j < |rest[i]| && rest[i][j] == Spread(rest)[k - n - 1];
        assert sections[i + 1][j] == Spread(sections)[k];
      }
    }
  }

  lemma SpreadFrom(sections: seq<seq<string>>, k: nat)
    requires |sections| > 1 && |sections[0]| == 1 && 1 <= k < |Spread(sections)|
    ensures Spread(sections)[k] == "" || FromLater(sections, Spread(sections)[k])
  {
    if k >= 2 {
      var rest := sections[1..];
      var line := Spread(rest)[k - 2];
      SpreadHolds(rest, k - 2);
      if FromAny(rest, line) {
        var i, j :| 0 <= i < |rest| && 0 <= j < |rest[i]| && rest[i][j] == line;
        assert sections[i + 1][j] == line;
      }
    }
  }
}
