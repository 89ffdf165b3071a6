/**
 Undoing an action at once can be refused. The history: a note is saved, superseded and deleted;
 a merge of two others restates it word for word, so the replacement takes the deleted note's id,
 and the note that superseded it now looks like the replacement's successor.
 */
module Leftovers {
  import opened Basics
  import opened Text
  import opened Order
  import opened Rows
  import opened NoteOps
  import opened Verdicts
  import opened PlanFacts
  import opened Histories
  import opened InvNotes
  import opened Runs
  import opened Reachable
  import opened Acceptance
  import Groups
  import GroupResult
  import GroupEdges

  type Group = Groups.Group

  /** Any two notes are similar enough to be grouped and too different to be refused as similar. */
  const ENV := Env((x, y) => 0.8, x => false, (xs, y) => true, x => x, x => x)
  const PARAMS := Groups.Params(0.75, 5, 2, 1000)
  const TEXT := "gamma"
  const BATCH := Batch("run", "ann", None, false, PARAMS, 1)

  function Plain(text: string, author: string, saved: Stamp, supersedes: Option<Id>): Row
  {
    Row("n", "work", text, saved, None, None, FreshMeta(["t"], [], author, false).(supersedes := supersedes))
  }

  /** Two notes of one author, and a third of another that superseded a note no longer there. */
  datatype Scene = Scene(a: Id, b: Id, s: Id, gone: Id)
  {
    ghost predicate Holds(db: Db)
    {
      && Before(a, b) && a != s && b != s && gone !in {a, b, s} && gone == NoteId("n", "ann", TEXT)
      && db.notes.Keys == {a, b, s}
      && db.notes[a] == Plain("alpha", "ann", 4, None)
      && db.notes[b] == Plain("beta", "ann", 5, None)
      && db.notes[s] == Plain("gamma too", "bob", 2, Some(gone))
      && db.actions == map[] && db.nextAction == 1
    }
  }

  // ---- the grouping of the two ----------------------------------------------

  ghost function M(db: Db): map<Id, Note>
  {
    ActiveNotes(db.notes, "n", None)
  }

  lemma TheNotes(db: Db, c: Scene)
    requires c.Holds(db)
    ensures M(db).Keys == {c.a, c.b, c.s}
    ensures M(db)[c.a] == NoteOf(c.a, db.notes[c.a]) && M(db)[c.b] == NoteOf(c.b, db.notes[c.b])
    ensures M(db)[c.s].author == "bob"
  {
  }

  /** Only notes that share an author make a pair. */
  lemma OnlyTheTwo(N: map<Id, Note>, c: Scene, q: Pair)
    requires N.Keys == {c.a, c.b, c.s} && c.a != c.s && c.b != c.s
    requires N[c.a].author != N[c.s].author && N[c.b].author != N[c.s].author
    requires q in PairSet(ENV, N, PARAMS)
    ensures {q.a, q.b} == {c.a, c.b}
  {
    assert q.a in N.Keys && q.b in N.Keys && q.a != q.b && N[q.a].author == N[q.b].author;
  }

  /** The two notes are each other's nearest. */
  lemma TheyAreNear(db: Db, c: Scene)
    requires c.Holds(db)
    ensures c.a in M(db) && c.b in M(db) && Near(ENV, M(db), PARAMS, c.a, c.b)
  {
    TheNotes(db, c);
    BeforeIrreflexive(c.b);
    assert CloserThan(ENV, M(db), c.a, c.b) == {};
  }

  function ThePair(c: Scene): Pair
  {
    Groups.Pair(c.a, c.b, 0.8)
  }

  lemma ThePairs(db: Db, c: Scene)
    requires c.Holds(db)
    ensures ThePair(c) in PairSet(ENV, M(db), PARAMS)
    ensures forall q <- PairSet(ENV, M(db), PARAMS) :: {q.a, q.b} == {c.a, c.b}
  {
    TheyAreNear(db, c);
    TheNotes(db, c);
    assert BestPair(ENV, M(db), PARAMS, c.a, c.b) == ThePair(c);
    forall q | q in PairSet(ENV, M(db), PARAMS) ensures {q.a, q.b} == {c.a, c.b} {
      OnlyTheTwo(M(db), c, q);
    }
  }

  ghost function TheEdges(db: Db): Groups.Edges
  {
    Groups.EdgesOf(ReadPairs(ENV, M(db), PARAMS), M(db), PARAMS.threshold)
  }

  lemma ThePairQualifies(db: Db, c: Scene)
    requires c.Holds(db)
    ensures Groups.Qualifies(ThePair(c), M(db), PARAMS.threshold)
  {
    TheNotes(db, c);
  }

  lemma TheEdge(db: Db, c: Scene)
    requires c.Holds(db)
    ensures TheEdges(db).Keys == {(c.a, c.b)}
  {
    ThePairs(db, c);
    ThePairQualifies(db, c);
    OnePairOneEdge(ReadPairs(ENV, M(db), PARAMS), M(db), PARAMS.threshold, ThePair(c));
  }

  lemma OnePairOneEdge(pairs: seq<Pair>, notes: map<Id, Note>, t: real, q: Pair)
    requires Groups.EndsKnown(pairs, notes) && Before(q.a, q.b)
    requires forall r <- pairs :: {r.a, r.b} == {q.a, q.b}
    requires q in pairs && Groups.Qualifies(q, notes, t)
    ensures Groups.EdgesOf(pairs, notes, t).Keys == {(q.a, q.b)}
  {
    var E := Groups.EdgesOf(pairs, notes, t);
    GroupEdges.EdgesAreBest(pairs, notes, t);
    BeforeIsAnOrder();
    assert Groups.Key(q.a, q.b) == (q.a, q.b);
    forall k | k in E ensures k == (q.a, q.b) {
      var r :| r in pairs && Groups.Qualifies(r, notes, t) && Groups.Key(r.a, r.b) == k;
      assert r.a in {r.a, r.b} && r.b in {r.a, r.b};
    }
  }

  /** A group of these notes is the two of them. */
  lemma OnlyGroup(E: Groups.Edges, notes: map<Id, Note>, x: Id, y: Id, g: Group)
    requires E.Keys == {(x, y)} && Before(x, y) && GroupResult.SoundGroup(E, notes, PARAMS, g)
    ensures g.members == [x, y]
  {
    var s := g.members;
    assert |s| == 2;
    OneEdgeGroup(E, x, y, s[0], s[1]);
  }

  lemma OneEdgeGroup(E: Groups.Edges, x: Id, y: Id, u: Id, w: Id)
    requires E.Keys == {(x, y)} && Before(x, y) && Groups.Adj(E, u, w) && Before(u, w)
    ensures u == x && w == y
  {
    BeforeIsAnOrder();
    assert (u, w) in E.Keys || (w, u) in E.Keys;
  }

  /** One of the two is grouped: left over together they would still fit. */
  lemma OneIsGrouped(pairs: seq<Pair>, notes: map<Id, Note>, p: Groups.Params, q: Pair)
    requires Groups.EndsKnown(pairs, notes) && p.maxGroup >= 2 && q in pairs && Groups.Qualifies(q, notes, p.threshold)
    requires |notes[q.a].text| + |notes[q.b].text| <= p.maxChars
    requires GroupEdges.HasEdge(pairs, notes, p, q.a) && GroupEdges.HasEdge(pairs, notes, p, q.b)
    ensures var b := GroupEdges.BuildGroups(pairs, notes, p);
      GroupEdges.Grouped(b, q.a) || GroupEdges.Grouped(b, q.b)
  {
    var b := GroupEdges.BuildGroups(pairs, notes, p);
    GroupEdges.BuiltPartition(pairs, notes, p, q.a);
    GroupEdges.BuiltPartition(pairs, notes, p, q.b);
    if GroupEdges.IsDeferred(b, q.a) && GroupEdges.IsDeferred(b, q.b) {
      GroupEdges.BuiltLeavesNothingUsable(pairs, notes, p, q);
    }
  }

  lemma BothHaveEdges(db: Db, c: Scene)
    requires c.Holds(db)
    ensures ThePair(c) in ReadPairs(ENV, M(db), PARAMS) && Groups.Qualifies(ThePair(c), M(db), PARAMS.threshold)
    ensures |M(db)[c.a].text| + |M(db)[c.b].text| <= PARAMS.maxChars
    ensures GroupEdges.HasEdge(ReadPairs(ENV, M(db), PARAMS), M(db), PARAMS, c.a)
    ensures GroupEdges.HasEdge(ReadPairs(ENV, M(db), PARAMS), M(db), PARAMS, c.b)
  {
    TheNotes(db, c);
    ThePairs(db, c);
    ThePairQualifies(db, c);
    TheEdge(db, c);
    assert (c.a, c.b) in TheEdges(db).Keys;
  }

  lemma TheGroup(db: Db, c: Scene) returns (g: Group)
    requires c.Holds(db)
    ensures g in ReportGroups(db, ENV, "n", PARAMS) && g.members == [c.a, c.b]
  {
    var pairs := ReadPairs(ENV, M(db), PARAMS);
    BothHaveEdges(db, c);
    OneIsGrouped(pairs, M(db), PARAMS, ThePair(c));
    var built := GroupEdges.BuildGroups(pairs, M(db), PARAMS);
    g :| g in built.groups && (c.a in g.members || c.b in g.members);
    GroupEdges.BuiltGroupsAreCliques(pairs, M(db), PARAMS, g);
    TheEdge(db, c);
    OnlyGroup(TheEdges(db), M(db), c.a, c.b, g);
  }

  // ---- the text -------------------------------------------------------------

  ghost predicate PlainText(text: string)
  {
    Strip(text) == text && 0 < |text| <= NOTE_MAX_CHARS
  }

  lemma {:induction false} OneWord(s: string, word: string)
    requires word != [] || s != []
    requires forall c <- s :: !IsSpace(c)
    ensures WordsFrom(s, word) == [word + s]
  {
    if s != [] {
      assert s[0] in s;
      OneWord(s[1..], word + [s[0]]);
      assert word + s == word + [s[0]] + s[1..];
    } else {
      assert word + s == word;
    }
  }

  lemma TextIsPlain()
    ensures Strip(TEXT) == TEXT && !Blank(TEXT) && Words(TEXT) != Words("alpha") && Words(TEXT) != Words("beta")
  {
    assert LStrip(TEXT) == TEXT;
    OneWord(TEXT, []);
    OneWord("alpha", []);
    OneWord("beta", []);
    assert Words(TEXT)[0][0] == 'g' && Words("alpha")[0][0] == 'a' && Words("beta")[0][0] == 'b';
  }

  /** The two members as a plan reads them. */
  ghost predicate HasBoth(N: map<Id, Note>, members: seq<Id>)
  {
    && |members| == 2 && members[0] in N && members[1] in N
    && N[members[0]] == NoteOf(members[0], Plain("alpha", "ann", 4, None))
    && N[members[1]] == NoteOf(members[1], Plain("beta", "ann", 5, None))
  }

  lemma OneTag()
    ensures Dedup(["t", "t"]) == ["t"] && SortStrings(["t"]) == ["t"] && NormalizeTags(ENV, ["t"]) == Some(["t"])
  {
    assert ["t"][..0] == [] && ["t", "t"][..1] == ["t"] && ["t"][1..] == [];
    assert Dedup([]) == [];
    assert Dedup(["t"]) == ["t"];
    assert SortStrings([]) == [];
    assert LStrip("t") == "t" && Strip("t") == "t" && !Blank("t");
    assert LowerTags(ENV, []) == [];
    assert LowerTags(ENV, ["t"]) == ["t"];
  }

  lemma TheTags(N: map<Id, Note>, members: seq<Id>)
    requires HasBoth(N, members)
    ensures NormalizeTags(ENV, SortStrings(Dedup(AllTags(N, members)))) == Some(["t"])
  {
    assert members[..1] == [members[0]] && [members[0]][..0] == [];
    assert AllTags(N, []) == [];
    assert AllTags(N, [members[0]]) == ["t"];
    assert AllTags(N, members) == ["t", "t"];
    OneTag();
  }

  lemma TheEntities(N: map<Id, Note>, members: seq<Id>)
    requires HasBoth(N, members)
    ensures MergedEntities(N, members) == [] && NormalizeEntities(MergedEntities(N, members)) == Some([])
  {
    assert members[..1] == [members[0]];
    assert AllEntities(N, [members[0]]) == [];
    assert AllEntities(N, members) == [];
  }

  predicate TagsPass(env: Env, N: map<Id, Note>, members: seq<Id>)
    requires forall i <- members :: i in N
  {
    NormalizeTags(env, SortStrings(Dedup(AllTags(N, members)))).Some?
  }

  predicate EntitiesPass(N: map<Id, Note>, members: seq<Id>)
    requires forall i <- members :: i in N
  {
    NormalizeEntities(MergedEntities(N, members)).Some?
  }

  predicate OwnerPasses(N: map<Id, Note>, members: seq<Id>)
  {
    members != [] && members[0] in N && N[members[0]].kind in NOTE_KINDS && N[members[0]].author != ""
  }

  lemma TagsDoPass(N: map<Id, Note>, members: seq<Id>)
    requires HasBoth(N, members) && forall i <- members :: i in N
    ensures TagsPass(ENV, N, members)
  {
    TheTags(N, members);
  }

  lemma EntitiesDoPass(N: map<Id, Note>, members: seq<Id>)
    requires HasBoth(N, members) && forall i <- members :: i in N
    ensures EntitiesPass(N, members)
  {
    TheEntities(N, members);
  }

  lemma OwnerDoesPass(N: map<Id, Note>, members: seq<Id>)
    requires HasBoth(N, members)
    ensures OwnerPasses(N, members)
  {
    TheKind(N, members);
  }

  lemma RowIsBuilt(env: Env, v: Verdict, N: map<Id, Note>, members: seq<Id>)
    requires (forall i <- members :: i in N) && OwnerPasses(N, members) && PlainText(v.mergedText)
    requires EntitiesPass(N, members) && TagsPass(env, N, members)
    ensures ReplacementRow(env, v, N, members, 0).Some?
  {
  }

  lemma TheKind(N: map<Id, Note>, members: seq<Id>)
    requires HasBoth(N, members)
    ensures N[members[0]].kind in NOTE_KINDS && N[members[0]].author == "ann" && "ann" != ""
  {
    assert NOTE_KINDS[1] == "work";
  }

  lemma TextFits(v: Verdict)
    requires v.mergedText == TEXT
    ensures PlainText(v.mergedText)
  {
    TextIsPlain();
  }

  lemma TheRow(v: Verdict, N: map<Id, Note>, members: seq<Id>)
    requires HasBoth(N, members) && v.mergedText == TEXT
    ensures ReplacementRow(ENV, v, N, members, 0).Some?
  {
    TextFits(v);
    TagsDoPass(N, members);
    EntitiesDoPass(N, members);
    OwnerDoesPass(N, members);
    RowIsBuilt(ENV, v, N, members);
  }

  lemma NoSameText(N: map<Id, Note>, members: seq<Id>)
    requires HasBoth(N, members)
    ensures SameText(N, members, TEXT) == None
  {
    TextIsPlain();
    assert members[1..] == [members[1]] && [members[1]][1..] == [];
    assert SameText(N, [], TEXT) == None;
    assert SameText(N, [members[1]], TEXT) == None;
  }

  lemma NotRefused(v: Verdict, N: map<Id, Note>, members: seq<Id>)
    requires HasBoth(N, members) && v.mergedText == TEXT
    ensures MergeRefusal(ENV, v, N, members) == None
  {
    TheEntities(N, members);
    TheRow(v, N, members);
  }

  lemma MergeIsPlanned(v: Verdict, st: State, members: seq<Id>, gone: Id)
    requires HasBoth(st.notes, members) && v.mergedText == TEXT && v.ns == "n" && st.replacement.None?
    requires gone == NoteId("n", "ann", TEXT)
    ensures PlanMerge(ENV, v, st, members) == Planned(Plan(Merge, members, [gone], Some(gone), true, NoReason))
  {
    NotRefused(v, st.notes, members);
    NoSameText(st.notes, members);
    TheKind(st.notes, members);
  }

  // ---- the verdict ----------------------------------------------------------

  ghost function TheVerdict(db: Db, c: Scene): Verdict
    requires c.Holds(db)
  {
    TheNotes(db, c);
    Verdict("n", KeyOfGroup("n", M(db), [c.a, c.b]), "key", [c.a, c.b], Merge, [], TEXT, "")
  }

  lemma SortedPair(x: Id, y: Id)
    requires Before(x, y)
    ensures SortStrings([x, y]) == [x, y]
  {
    assert [x, y][1..] == [y] && [y][1..] == [];
    assert SortStrings([]) == [];
    assert SortStrings([y]) == [y];
  }

  lemma TheReplacement(db: Db, c: Scene, v: Verdict, N: map<Id, Note>)
    requires c.Holds(db) && HasBoth(N, [c.a, c.b]) && v.mergedText == TEXT
    requires v.ns == "n" && v.verb == Merge && v.memberIds == [c.a, c.b]
    ensures ExistingOf(db.notes, MergedId(v, N)) == None
  {
    TextIsPlain();
    SortedPair(c.a, c.b);
  }

  lemma NothingRecorded(db: Db, c: Scene, v: Verdict)
    requires c.Holds(db)
    ensures Recorded(db, v.idem).None? && CachedWhy(db, v).None? && |UsedActions(db, BATCH.runId, "n")| == 0
  {
    assert UsedActions(db, BATCH.runId, "n") == {};
  }

  lemma TheAuthor(db: Db, c: Scene)
    requires c.Holds(db)
    ensures OneAuthor(db.notes, [c.a, c.b]) == Some("ann")
    ensures HasBoth(ActiveNotes(db.notes, "n", Some("ann")), [c.a, c.b])
  {
    assert forall i <- [c.a, c.b] :: i == c.a || i == c.b;
  }

  lemma IsNamed(db: Db, c: Scene, g: Group)
    requires c.Holds(db) && g.members == [c.a, c.b]
    ensures Names(db, TheVerdict(db, c), g) && Open(db, "n", M(db), g)
  {
    NothingRecorded(db, c, TheVerdict(db, c));
    BeforeIrreflexive(c.a);
    TheNotes(db, c);
  }

  lemma PlansMerge(db: Db, env: Env, v: Verdict, b: Batch, g: Group, st: State)
    requires b.params.maxGroup >= 2 && g in ReportGroups(db, env, v.ns, b.params)
    requires Names(db, v, g) && Open(db, v.ns, ActiveNotes(db.notes, v.ns, None), g)
    requires v.verb == Merge && |UsedActions(db, b.runId, v.ns)| < b.maxActions && st == LoadState(db, env, v, b)
    ensures g.members != [] && (forall i <- g.members :: i in st.notes)
    ensures Decide(db, env, v, b) == PlanMerge(env, v, st, g.members)
  {
    ReportedIsAccepted(db, env, v, b, g);
  }

  lemma WhatIsRead(db: Db, env: Env, v: Verdict, b: Batch, u: string)
    requires Recorded(db, v.idem).None? && CachedWhy(db, v).None? && OneAuthor(db.notes, v.memberIds) == Some(u)
    ensures var st := LoadState(db, env, v, b);
      st.notes == ActiveNotes(db.notes, v.ns, Some(u)) && st.replacement == ExistingOf(db.notes, MergedId(v, st.notes))
  {
  }

  lemma TheDecision(db: Db, c: Scene)
    requires c.Holds(db)
    ensures Decide(db, ENV, TheVerdict(db, c), BATCH)
            == Planned(Plan(Merge, [c.a, c.b], [c.gone], Some(c.gone), true, NoReason))
  {
    var v := TheVerdict(db, c);
    var g := TheGroup(db, c);
    var st := LoadState(db, ENV, v, BATCH);
    IsNamed(db, c, g);
    NothingRecorded(db, c, v);
    PlansMerge(db, ENV, v, BATCH, g, st);
    TheAuthor(db, c);
    WhatIsRead(db, ENV, v, BATCH, "ann");
    TheReplacement(db, c, v, st.notes);
    MergeIsPlanned(v, st, g.members, c.gone);
  }

  lemma LooksUsed(db: Db, c: Scene)
    requires c.Holds(db)
    ensures SucceededOutside(db.notes, c.gone, [c.a, c.b])
  {
    assert SuccessorPath(db.notes, c.gone, [c.s]);
  }

  lemma ThePlan(db: Db, c: Scene) returns (plan: Plan)
    requires c.Holds(db)
    ensures Decide(db, ENV, TheVerdict(db, c), BATCH) == Planned(plan) && plan.verb == Merge && plan.created
    ensures plan.replacement.Some? && SucceededOutside(db.notes, plan.replacement.value, plan.archived)
  {
    TheDecision(db, c);
    LooksUsed(db, c);
    plan := Plan(Merge, [c.a, c.b], [c.gone], Some(c.gone), true, NoReason);
  }

  /** Whatever the rows: a replacement whose id has an active successor cannot be undone at once. */
  lemma RefusedAsSuperseded(db: Db, env: Env, v: Verdict, b: Batch, now: Stamp, plan: Plan)
    requires InvActions(db) && NotesBehind(db.notes, now) && b.params.maxGroup >= 2
    requires Decide(db, env, v, b) == Planned(plan) && plan.verb != Keep && plan.created
    requires plan.replacement.Some? && SucceededOutside(db.notes, plan.replacement.value, plan.archived)
    ensures UndoCheck(Commit(db, env, v, b, now), db.nextAction) == Some(Superseded)
  {
    FreshArchiveAccepted(db, env, v, b, now);
    CommittedReplacement(db, env, v, b, now, plan.replacement.value);
    SuccessorAfterCommit(db, env, v, b, now, plan.replacement.value);
    ChecksToSuperseded(Commit(db, env, v, b, now), ActionOf(db, v, b, plan, now), plan.replacement.value);
  }

  lemma ChecksToSuperseded(after: Db, a: Action, r: Id)
    requires a.verb != Keep && a.created && a.replacement == Some(r)
    requires ArchivedRefusal(after.notes, a, a.archived).None?
    requires r in after.notes && after.notes[r].archivedAt.None? && HasActiveSuccessor(after.notes, r)
    ensures UndoCheckOf(after, a) == Some(Superseded)
  {
  }

  /** A verdict with nothing committed between its two readings is applied. */
  lemma JudgesCommits(db: Db, env: Env, ev: Event)
    requires ev.Judges? && ev.snapshot == db && WellFormed(ev) && !ev.b.dryRun && Decide(db, env, ev.v, ev.b).Planned?
    ensures Next(db, env, ev) == Commit(db, env, ev.v, ev.b, ev.now)
  {
    match ev
    case Judges(v, b, snapshot, now) => ProcessCommits(db, env, v, b, now);
  }

  lemma ProcessCommits(db: Db, env: Env, v: Verdict, b: Batch, now: Stamp)
    requires b.params.maxGroup >= 2 && !b.dryRun && Decide(db, env, v, b).Planned?
    ensures Process(db, db, env, v, b, now).db == Commit(db, env, v, b, now)
  {
    AgreesWithItself(db, env, v, b);
    ProcessRefines(db, db, env, v, b, now);
  }

  lemma AgreesWithItself(db: Db, env: Env, v: Verdict, b: Batch)
    requires b.params.maxGroup >= 2 && !b.dryRun && Decide(db, env, v, b).Planned?
    ensures Agreed(db, db, env, v, b)
  {
  }

  // ---- the history ----------------------------------------------------------

  lemma {:induction false} PrefixBefore(p: string, x: string, y: string)
    requires Before(x, y)
    ensures Before(p + x, p + y)
  {
    if p == [] {
      assert p + x == x && p + y == y;
    } else {
      PrefixBefore(p[1..], x, y);
      assert (p + x)[0] == (p + y)[0] == p[0];
      assert (p + x)[1..] == p[1..] + x && (p + y)[1..] == p[1..] + y;
    }
  }

  lemma {:induction false} PlainStrips(s: string)
    requires s != [] ==> !IsSpace(s[0]) && !IsSpace(s[|s| - 1])
    ensures Strip(s) == s
  {
  }

  /** Ids of one author are ordered as their texts are. */
  lemma OrderedIds(ns: string, author: string, x: string, y: string)
    requires Strip(x) == x && Strip(y) == y && Before(x, y)
    ensures Before(NoteId(ns, author, x), NoteId(ns, author, y)) && NoteId(ns, author, x) != NoteId(ns, author, y)
  {
    PrefixBefore("note:" + ns + ":" + author + "\n", x, y);
    BeforeIrreflexive(NoteId(ns, author, x));
  }

  lemma OtherAuthorsId(x: string, y: string)
    ensures NoteId("n", "ann", x) != NoteId("n", "bob", y)
  {
    assert NoteId("n", "ann", x)[7] == 'a' && NoteId("n", "bob", y)[7] == 'b';
  }

  lemma TheTexts()
    ensures PlainText("alpha") && PlainText("beta") && PlainText(TEXT) && PlainText("gamma too")
    ensures Before("alpha", "beta") && Before("alpha", TEXT) && Before("beta", TEXT)
  {
    PlainStrips("alpha");
    PlainStrips("beta");
    PlainStrips(TEXT);
    PlainStrips("gamma too");
  }

  ghost function TheScene(): Scene
  {
    Scene(NoteId("n", "ann", "alpha"), NoteId("n", "ann", "beta"), NoteId("n", "bob", "gamma too"),
          NoteId("n", "ann", TEXT))
  }

  lemma TheIds(c: Scene)
    requires c == TheScene()
    ensures Before(c.a, c.b) && c.a != c.b && c.s !in {c.a, c.b} && c.gone !in {c.a, c.b, c.s}
  {
    TheTexts();
    OrderedIds("n", "ann", "alpha", "beta");
    OrderedIds("n", "ann", "alpha", TEXT);
    OrderedIds("n", "ann", "beta", TEXT);
    OtherAuthorsId("alpha", "gamma too");
    OtherAuthorsId("beta", "gamma too");
    OtherAuthorsId(TEXT, "gamma too");
  }

  /** A request whose similarity query found nothing. */
  function Asks(text: string, author: string, supersedes: Option<Id>): SaveRequest
  {
    SaveRequest(text, "work", ["t"], [], supersedes, "n", None, author, false, false, [])
  }

  lemma PlainRow(text: string, author: string, supersedes: Option<Id>, now: Stamp)
    requires PlainText(text) && author != ""
    ensures SavedRow(ENV, Asks(text, author, supersedes), now) == Some(Plain(text, author, now, supersedes))
  {
    OneTag();
    assert NOTE_KINDS[1] == "work";
    assert NormalizeEntities([]) == Some([]);
  }

  ghost predicate Savable(db: Db, text: string, author: string)
  {
    PlainText(text) && author != "" && "n" in db.namespaces && NoteId("n", author, text) !in db.notes
  }

  lemma SavesNew(db: Db, text: string, author: string, now: Stamp)
    requires Savable(db, text, author)
    ensures Save(db, ENV, Asks(text, author, None), now)
            == db.(notes := db.notes[NoteId("n", author, text) := Plain(text, author, now, None)])
  {
    PlainRow(text, author, None, now);
  }

  lemma SavesOver(db: Db, text: string, author: string, replaced: Id, now: Stamp)
    requires Savable(db, text, author) && replaced in db.notes && db.notes[replaced].ns == "n"
    ensures var id := NoteId("n", author, text);
      Save(db, ENV, Asks(text, author, Some(replaced)), now)
      == db.(notes := Supersede(db.notes[id := Plain(text, author, now, Some(replaced))], replaced, now, author, id))
  {
    PlainRow(text, author, Some(replaced), now);
  }

  lemma RunMore(env: Env, ms: seq<Moment>, evs: seq<Event>, ev: Event)
    requires Run(env, ms, evs) && Ready(ms[|evs|], ev)
    ensures Run(env, ms + [After(ms[|evs|], env, ev)], evs + [ev])
  {
    var more, later := ms + [After(ms[|evs|], env, ev)], evs + [ev];
    forall k | 0 <= k < |later| ensures Ready(more[k], later[k]) && more[k + 1] == After(more[k], env, later[k]) {
      if k < |evs| {
        assert more[k] == ms[k] && more[k + 1] == ms[k + 1] && later[k] == evs[k];
      }
    }
  }

  /** One more save in a history that has given out fewer stamps than `now`. */
  lemma SaveMore(env: Env, ms: seq<Moment>, evs: seq<Event>, q: SaveRequest, now: Stamp, after: Db)
    returns (more: seq<Moment>)
    requires Run(env, ms, evs) && (forall t <- ms[|evs|].used :: t < now) && Save(ms[|evs|].db, env, q, now) == after
    ensures Run(env, more, evs + [Saves(q, now)]) && more[0] == ms[0]
    ensures var m := more[|evs| + 1];
      m.db == after && m.locked == ms[|evs|].locked && forall t <- m.used :: t <= now
  {
    RunMore(env, ms, evs, Saves(q, now));
    more := ms + [After(ms[|evs|], env, Saves(q, now))];
  }

  lemma DeleteMore(env: Env, ms: seq<Moment>, evs: seq<Event>, ids: seq<Id>, now: Stamp, after: Db)
    returns (more: seq<Moment>)
    requires Run(env, ms, evs) && (forall t <- ms[|evs|].used :: t < now) && Delete(ms[|evs|].db, ids, now) == after
    ensures Run(env, more, evs + [Deletes(ids, now)]) && more[0] == ms[0]
    ensures var m := more[|evs| + 1];
      m.db == after && m.locked == ms[|evs|].locked && forall t <- m.used :: t <= now
  {
    RunMore(env, ms, evs, Deletes(ids, now));
    more := ms + [After(ms[|evs|], env, Deletes(ids, now))];
  }

  lemma TwoMore(env: Env, d0: Db, d1: Db, d2: Db, q1: SaveRequest, q2: SaveRequest)
    returns (ms: seq<Moment>, evs: seq<Event>)
    requires Save(d0, env, q1, 1) == d1 && Save(d1, env, q2, 2) == d2
    ensures Run(env, ms, evs) && |evs| == 2 && ms[0].db == d0
    ensures ms[2].db == d2 && ms[2].locked == 0 && forall t <- ms[2].used :: t <= 2
  {
    ms, evs := [Moment(d0, {}, 0)], [];
    ms := SaveMore(env, ms, evs, q1, 1, d1);
    evs := evs + [Saves(q1, 1)];
    ms := SaveMore(env, ms, evs, q2, 2, d2);
    evs := evs + [Saves(q2, 2)];
  }

  /** A save, a save and a delete from the rows d0. */
  lemma ThreeMore(env: Env, d0: Db, d1: Db, d2: Db, d3: Db, q1: SaveRequest, q2: SaveRequest, ids: seq<Id>)
    returns (ms: seq<Moment>, evs: seq<Event>)
    requires Save(d0, env, q1, 1) == d1 && Save(d1, env, q2, 2) == d2 && Delete(d2, ids, 3) == d3
    ensures Run(env, ms, evs) && |evs| == 3 && ms[0].db == d0
    ensures ms[3].db == d3 && ms[3].locked == 0 && forall t <- ms[3].used :: t <= 3
  {
    ms, evs := TwoMore(env, d0, d1, d2, q1, q2);
    ms := DeleteMore(env, ms, evs, ids, 3, d3);
    evs := evs + [Deletes(ids, 3)];
  }

  /** Two saves and a verdict after those. */
  lemma SixMore(env: Env, ms: seq<Moment>, evs: seq<Event>, d4: Db, d5: Db, q4: SaveRequest, q5: SaveRequest,
                last: Event)
    returns (more: seq<Moment>, later: seq<Event>)
    requires Run(env, ms, evs) && |evs| == 3 && ms[3].locked == 0 && forall t <- ms[3].used :: t <= 3
    requires Save(ms[3].db, env, q4, 4) == d4 && Save(d4, env, q5, 5) == d5
    requires last.Judges? && last.now == 6 && WellFormed(last)
    ensures Run(env, more, later) && |later| == 6 && more[0] == ms[0] && more[5].db == d5 && later[5] == last
    ensures more[6].db == Next(d5, env, last)
  {
    more := SaveMore(env, ms, evs, q4, 4, d4);
    later := evs + [Saves(q4, 4)];
    more := SaveMore(env, more, later, q5, 5, d5);
    later := later + [Saves(q5, 5)];
    RunMore(env, more, later, last);
    more := more + [After(more[5], env, last)];
    later := later + [last];
  }

  const EMPTY := Db(map[], map[], 1, map[], map[], {"n"})

  /** The rows after each of the first five transactions. */
  ghost function Rows1(c: Scene): Notes
  {
    map[c.gone := Plain(TEXT, "ann", 1, None)]
  }

  ghost function Rows2(c: Scene): Notes
  {
    Supersede(Rows1(c)[c.s := Plain("gamma too", "bob", 2, Some(c.gone))], c.gone, 2, "bob", c.s)
  }

  ghost function Rows3(c: Scene): Notes
  {
    map[c.s := Plain("gamma too", "bob", 2, Some(c.gone))]
  }

  ghost function Rows4(c: Scene): Notes
  {
    Rows3(c)[c.a := Plain("alpha", "ann", 4, None)]
  }

  ghost function Rows5(c: Scene): Notes
  {
    Rows4(c)[c.b := Plain("beta", "ann", 5, None)]
  }

  lemma FirstTwo(c: Scene)
    requires c == TheScene()
    ensures Save(EMPTY, ENV, Asks(TEXT, "ann", None), 1) == EMPTY.(notes := Rows1(c))
    ensures Save(EMPTY.(notes := Rows1(c)), ENV, Asks("gamma too", "bob", Some(c.gone)), 2) == EMPTY.(notes := Rows2(c))
  {
    TheTexts();
    TheIds(c);
    SavesNew(EMPTY, TEXT, "ann", 1);
    SavesOver(EMPTY.(notes := Rows1(c)), "gamma too", "bob", c.gone, 2);
  }

  lemma ThirdDeletes(c: Scene)
    requires c == TheScene()
    ensures Delete(EMPTY.(notes := Rows2(c)), [c.gone], 3) == EMPTY.(notes := Rows3(c))
  {
    TheIds(c);
    assert Rows2(c).Keys == {c.gone, c.s};
    var after := Delete(EMPTY.(notes := Rows2(c)), [c.gone], 3);
    assert after.notes == Rows3(c);
    assert after.facts == map[];
  }

  lemma FourthSaves(c: Scene)
    requires c == TheScene()
    ensures Save(EMPTY.(notes := Rows3(c)), ENV, Asks("alpha", "ann", None), 4) == EMPTY.(notes := Rows4(c))
  {
    TheTexts();
    TheIds(c);
    SavesNew(EMPTY.(notes := Rows3(c)), "alpha", "ann", 4);
  }

  lemma FifthSaves(c: Scene)
    requires c == TheScene()
    ensures Save(EMPTY.(notes := Rows4(c)), ENV, Asks("beta", "ann", None), 5) == EMPTY.(notes := Rows5(c))
  {
    TheTexts();
    TheIds(c);
    SavesNew(EMPTY.(notes := Rows4(c)), "beta", "ann", 5);
  }

  lemma SceneHolds(c: Scene)
    requires c == TheScene()
    ensures c.Holds(EMPTY.(notes := Rows5(c)))
  {
    TheIds(c);
    assert Rows5(c).Keys == {c.a, c.b, c.s};
  }

  /** The first five transactions from empty tables, then any verdict. */
  lemma TheStart(c: Scene, last: Event) returns (ms: seq<Moment>, evs: seq<Event>)
    requires c == TheScene() && last.Judges? && last.now == 6 && WellFormed(last)
    ensures Run(ENV, ms, evs) && |evs| == 6 && ms[0].db == EMPTY && evs[5] == last
    ensures ms[5].db == EMPTY.(notes := Rows5(c)) && ms[6].db == Next(ms[5].db, ENV, last)
  {
    FirstTwo(c);
    ThirdDeletes(c);
    FourthSaves(c);
    FifthSaves(c);
    ms, evs := ThreeMore(ENV, EMPTY, EMPTY.(notes := Rows1(c)), EMPTY.(notes := Rows2(c)), EMPTY.(notes := Rows3(c)),
                         Asks(TEXT, "ann", None), Asks("gamma too", "bob", Some(c.gone)), [c.gone]);
    ms, evs := SixMore(ENV, ms, evs, EMPTY.(notes := Rows4(c)), EMPTY.(notes := Rows5(c)),
                       Asks("alpha", "ann", None), Asks("beta", "ann", None), last);
  }

  /**
   A history from empty tables whose last transaction, a verdict with nothing committed between its
   two readings, is a merge that is applied, and whose immediate undo is refused because the
   replacement counts as superseded: applying and undoing at once is not always the identity.
   */
  lemma UndoAtOnceRefused() returns (ms: seq<Moment>, evs: seq<Event>)
    ensures Run(ENV, ms, evs) && Initial(ms[0].db) && |evs| == 6
    ensures evs[5].Judges? && evs[5].snapshot == ms[5].db && !evs[5].b.dryRun
    ensures Decide(ms[5].db, ENV, evs[5].v, evs[5].b).Planned?
    ensures Decide(ms[5].db, ENV, evs[5].v, evs[5].b).plan.verb == Merge
    ensures ms[6].db == Commit(ms[5].db, ENV, evs[5].v, evs[5].b, evs[5].now)
    ensures UndoCheck(ms[6].db, ms[5].db.nextAction) == Some(Superseded)
  {
    var c := TheScene();
    var db := EMPTY.(notes := Rows5(c));
    SceneHolds(c);
    var v := TheVerdict(db, c);
    ms, evs := TheStart(c, Judges(v, BATCH, db, 6));
    var plan := ThePlan(db, c);
    SceneIsQuiet(db, c, 6);
    RefusedAsSuperseded(db, ENV, v, BATCH, 6, plan);
    JudgesCommits(db, ENV, evs[5]);
  }

  lemma SceneIsQuiet(db: Db, c: Scene, now: Stamp)
    requires c.Holds(db)
    ensures InvActions(db) && NotesBehind(db.notes, now)
  {
  }
}
