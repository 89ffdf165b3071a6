/** Every group the report lists is accepted on the same rows. */
module Acceptance {
  import opened Basics
  import opened Text
  import opened Order
  import opened Rows
  import opened Verdicts
  import opened PlanFacts
  import opened InvLineage
  import opened Reachable
  import Groups
  import GroupResult
  import GroupEdges
  import GroupLocality

  type Group = Groups.Group

  // ---- the report over every author -----------------------------------------

  ghost function AllPairs(db: Db, env: Env, ns: string, p: Params): seq<Pair>
  {
    ReadPairs(env, ActiveNotes(db.notes, ns, None), p)
  }

  /** The groups of a namespace over every author, as the report builds them. */
  ghost function ReportGroups(db: Db, env: Env, ns: string, p: Params): seq<Group>
    requires p.maxGroup >= 2
  {
    GroupEdges.BuildGroups(AllPairs(db, env, ns, p), ActiveNotes(db.notes, ns, None), p).groups
  }

  lemma AuthorsNotes(notes: Notes, ns: string, u: string)
    ensures ActiveNotes(notes, ns, Some(u)) == GroupLocality.ByAuthor(ActiveNotes(notes, ns, None), u)
  {
  }

  lemma SameNeighbours(env: Env, M: map<Id, Note>, p: Params, u: string, a: Id, b: Id)
    requires a in M && b in M && M[a].author == u && M[b].author == u
    ensures Near(env, GroupLocality.ByAuthor(M, u), p, a, b) <==> Near(env, M, p, a, b)
    ensures BestPairDefined(env, M, p, u, a, b)
  {
    var mine := GroupLocality.ByAuthor(M, u);
    assert CloserThan(env, mine, a, b) == CloserThan(env, M, a, b);
    assert CloserThan(env, mine, b, a) == CloserThan(env, M, b, a);
  }

  ghost predicate BestPairDefined(env: Env, M: map<Id, Note>, p: Params, u: string, a: Id, b: Id)
    requires a in M && b in M && M[a].author == u && M[b].author == u
  {
    BestPair(env, GroupLocality.ByAuthor(M, u), p, a, b) == BestPair(env, M, p, a, b)
  }

  lemma OwnPair(env: Env, M: map<Id, Note>, p: Params, u: string, q: Pair)
    ensures q in PairSet(env, GroupLocality.ByAuthor(M, u), p)
            <==> q in PairSet(env, M, p) && q.a in M && M[q.a].author == u
  {
    var mine := GroupLocality.ByAuthor(M, u);
    if q.a in M && q.b in M && M[q.a].author == u && M[q.b].author == u {
      SameNeighbours(env, M, p, u, q.a, q.b);
      SameNeighbours(env, M, p, u, q.b, q.a);
    }
  }

  lemma PairsOneAuthor(env: Env, M: map<Id, Note>, p: Params)
    ensures GroupLocality.OneAuthorPairs(ReadPairs(env, M, p), M)
  {
  }

  lemma PairsArePart(env: Env, M: map<Id, Note>, p: Params, u: string)
    ensures GroupLocality.AuthorPart(ReadPairs(env, GroupLocality.ByAuthor(M, u), p), ReadPairs(env, M, p), M, u)
  {
    forall q ensures q in ReadPairs(env, GroupLocality.ByAuthor(M, u), p)
                     <==> q in ReadPairs(env, M, p) && M[q.a].author == u {
      OwnPair(env, M, p, u, q);
    }
  }

  /** The groups of one author's report are the groups over every author that start with a note of theirs. */
  lemma AuthorGroups(db: Db, env: Env, ns: string, p: Params, u: string)
    requires p.maxGroup >= 2
    ensures var mine := ActiveNotes(db.notes, ns, Some(u));
      GroupEdges.BuildGroups(ReadPairs(env, mine, p), mine, p).groups
      == Filtered((g: Group) => GroupLocality.GroupIn(mine.Keys, g), ReportGroups(db, env, ns, p))
  {
    var M := ActiveNotes(db.notes, ns, None);
    AuthorsNotes(db.notes, ns, u);
    PairsArePart(env, M, p, u);
    var mine := ReadPairs(env, GroupLocality.ByAuthor(M, u), p);
    GroupLocality.GroupingIsLocalToAuthors(mine, ReadPairs(env, M, p), M, u, p);
  }

  /** Pairs read one author at a time, in any order, group as the pairs read for all at once. */
  lemma ReadingByAuthor(env: Env, M: map<Id, Note>, p: Params, pairs: seq<Pair>)
    requires p.maxGroup >= 2
    requires forall q :: q in pairs <==> exists u: string :: q in PairSet(env, GroupLocality.ByAuthor(M, u), p)
    ensures Groups.EndsKnown(pairs, M)
    ensures GroupEdges.BuildGroups(pairs, M, p) == GroupEdges.BuildGroups(ReadPairs(env, M, p), M, p)
  {
    var all := ReadPairs(env, M, p);
    forall q ensures q in pairs <==> q in all {
      if q in pairs {
        var u: string :| q in PairSet(env, GroupLocality.ByAuthor(M, u), p);
        OwnPair(env, M, p, u, q);
      }
      if q in all {
        assert q in PairSet(env, M, p);
        OwnPair(env, M, p, M[q.a].author, q);
      }
    }
    forall q | q in pairs ensures q in all && GroupEdges.Reads(q, q) {
    }
    forall q | q in all ensures q in pairs && GroupEdges.Reads(q, q) {
    }
    GroupEdges.BuildIgnoresOrder(pairs, all, M, p);
  }

  /** A group's members were written by one author. */
  lemma GroupHasOneAuthor(env: Env, M: map<Id, Note>, p: Params, g: Group, i: Id)
    requires p.maxGroup >= 2 && g in GroupEdges.BuildGroups(ReadPairs(env, M, p), M, p).groups && i in g.members
    ensures g.members != [] && g.members[0] in M && i in M && M[i].author == M[g.members[0]].author
  {
    var pairs := ReadPairs(env, M, p);
    GroupEdges.BuiltGroupsAreCliques(pairs, M, p, g);
    GroupEdges.EdgesAreSound(pairs, M, p.threshold);
    PairsOneAuthor(env, M, p);
    var s := g.members;
    var u := M[s[0]].author;
    assert s[0] in Elems(s) && i in Elems(s);
    var k :| 0 <= k < |s| && s[k] == i;
    if k > 0 {
      var E := Groups.EdgesOf(pairs, M, p.threshold);
      assert Groups.Adj(E, s[0], s[k]);
      GroupLocality.AuthorsAreClosed(pairs, M, u, p.threshold);
      assert s[0] in GroupLocality.ByAuthor(M, u);
      var e := if (s[0], s[k]) in E then (s[0], s[k]) else (s[k], s[0]);
      assert e in E;
      assert s[k] in GroupLocality.ByAuthor(M, u);
    }
  }

  // ---- sorting the submitted ids --------------------------------------------

  lemma {:induction false} InsertAscending(s: seq<string>, x: string)
    requires Ascending(Before, s) && x !in s
    ensures Ascending(Before, InsertString(s, x))
  {
    BeforeIsAnOrder();
    if s != [] && !Before(x, s[0]) {
      assert s == [s[0]] + s[1..];
      InsertAscending(s[1..], x);
      var rest := InsertString(s[1..], x);
      InsertKeeps(s[1..], x);
      forall j | 0 <= j < |rest| ensures Before(s[0], rest[j]) {
        assert rest[j] in multiset(rest);
        assert rest[j] == x || rest[j] in s[1..];
      }
    }
  }

  lemma {:induction false} SortedAscends(s: seq<string>)
    requires Distinct(s)
    ensures Ascending(Before, SortStrings(s))
  {
    if s != [] {
      SortedAscends(s[1..]);
      SortKeeps(s[1..]);
      InsertAscending(SortStrings(s[1..]), s[0]);
    }
  }

  /** Submitting a group's members in any order sorts to the group's listing. */
  lemma SubmittedSorts(ids: seq<Id>, members: seq<Id>)
    requires Ascending(Before, members) && Distinct(ids) && Elems(ids) == Elems(members)
    ensures SortStrings(ids) == members
  {
    SortedAscends(ids);
    SortKeeps(ids);
    forall x ensures x in SortStrings(ids) <==> x in members {
      assert x in Elems(ids) <==> x in Elems(members);
    }
    Groups.IdsOrdered(set x | x in SortStrings(ids));
    AscendingUnique(Before, SortStrings(ids), members);
  }

  // ---- issued groups are accepted --------------------------------------------

  lemma {:induction false} IssuedFinds(ns: string, M: map<Id, Note>, groups: seq<Group>, g: Group)
    requires g in groups && forall i <- g.members :: i in M
    ensures Issued(ns, M, groups, KeyOfGroup(ns, M, g.members)).Some?
  {
    if g != groups[0] {
      IssuedFinds(ns, M, groups[1..], g);
    }
  }

  /** Equal keys name equal members. */
  lemma KeysNameMembers(ns: string, M: map<Id, Note>, g: seq<Id>, h: seq<Id>)
    requires forall i <- g :: i in M && M[i].id == i
    requires forall i <- h :: i in M && M[i].id == i
    requires KeyOfGroup(ns, M, g) == KeyOfGroup(ns, M, h)
    ensures g == h
  {
  }

  lemma {:induction false} KeysAgree(M: map<Id, Note>, N: map<Id, Note>, g: seq<Id>)
    requires forall i <- g :: i in M && i in N && M[i] == N[i]
    ensures KeysOf(M, g) == KeysOf(N, g)
  {
  }

  lemma IssuedIsIt(ns: string, env: Env, M: map<Id, Note>, p: Params, g: Group)
    requires p.maxGroup >= 2 && forall i <- M :: M[i].id == i
    requires g in GroupEdges.BuildGroups(ReadPairs(env, M, p), M, p).groups
    ensures forall i <- g.members :: i in M
    ensures var groups := GroupEdges.BuildGroups(ReadPairs(env, M, p), M, p).groups;
      Issued(ns, M, groups, KeyOfGroup(ns, M, g.members)) == Some(g)
  {
    var pairs := ReadPairs(env, M, p);
    var groups := GroupEdges.BuildGroups(pairs, M, p).groups;
    GroupEdges.BuiltGroupsAreCliques(pairs, M, p, g);
    forall i | i in g.members ensures i in M { assert i in Elems(g.members); }
    var key := KeyOfGroup(ns, M, g.members);
    IssuedFinds(ns, M, groups, g);
    IssuedIs(ns, M, groups, key);
    var h := Issued(ns, M, groups, key).value;
    KeysNameMembers(ns, M, g.members, h.members);
    assert g.members[0] in Elems(g.members) && g.members[0] in Elems(h.members);
    if h != g {
      GroupEdges.BuiltGroupsDisjoint(pairs, M, p, g, h);
    }
  }

  /** The groups still to be judged: what the report lists. */
  ghost predicate Open(db: Db, ns: string, M: map<Id, Note>, g: Group)
  {
    && (forall i <- g.members :: i in M)
    && !KeyJudged(db, KeyOfGroup(ns, M, g.members))
    && !UndoneWith(db, ns, g.members)
  }

  /** v names the group g by its key and its members, in any order, under an unused key. */
  ghost predicate Names(db: Db, v: Verdict, g: Group)
  {
    var M := ActiveNotes(db.notes, v.ns, None);
    && Recorded(db, v.idem).None?
    && Distinct(v.memberIds) && Elems(v.memberIds) == Elems(g.members)
    && (forall i <- g.members :: i in M) && v.key == KeyOfGroup(v.ns, M, g.members)
  }

  lemma LoadIs(db: Db, env: Env, v: Verdict, b: Batch)
    requires Recorded(db, v.idem).None? && CachedWhy(db, v).None?
    ensures var st := LoadState(db, env, v, b);
      && st.recorded.None? && st.cached.None?
      && st.notes == ActiveNotes(db.notes, v.ns, OneAuthor(db.notes, v.memberIds))
      && st.pairs == ReadPairs(env, st.notes, b.params)
      && st.used == |UsedActions(db, b.runId, v.ns)|
  {
  }

  /** Past the group check there is only the cap and the verb. */
  lemma OnIssued(env: Env, v: Verdict, b: Batch, st: State, g: Group)
    requires Groups.EndsKnown(st.pairs, st.notes) && b.params.maxGroup >= 2
    requires st.recorded.None? && st.cached.None?
    requires SortStrings(v.memberIds) == g.members && g.members != []
    requires forall i <- g.members :: i in st.notes
    requires !MixesAuthors(st.notes, g.members)
    requires Issued(v.ns, st.notes, CurrentGroups(st, b.params), v.key) == Some(g)
    ensures PlanVerdict(env, v, b, st)
            == if v.verb != Keep && st.used >= b.maxActions then End(v, Rejected, CapReached)
               else PlanVerb(env, v, st, g.members)
  {
  }

  lemma GroupAuthor(db: Db, env: Env, ns: string, p: Params, g: Group) returns (u: string)
    requires p.maxGroup >= 2 && g in ReportGroups(db, env, ns, p)
    ensures g.members != []
    ensures forall i <- g.members :: i in db.notes && db.notes[i].meta.author == u
    ensures forall i <- g.members :: i in ActiveNotes(db.notes, ns, Some(u)) && i in ActiveNotes(db.notes, ns, None)
                                     && ActiveNotes(db.notes, ns, Some(u))[i] == ActiveNotes(db.notes, ns, None)[i]
  {
    var M := ActiveNotes(db.notes, ns, None);
    GroupEdges.BuiltGroupsAreCliques(AllPairs(db, env, ns, p), M, p, g);
    GroupHasOneAuthor(env, M, p, g, g.members[0]);
    u := M[g.members[0]].author;
    forall i | i in g.members
      ensures i in M && M[i].author == u
    {
      GroupHasOneAuthor(env, M, p, g, i);
    }
  }

  /** A group of the report is found again among its author's groups. */
  lemma FoundByAuthor(db: Db, env: Env, ns: string, p: Params, u: string, g: Group)
    requires p.maxGroup >= 2 && g in ReportGroups(db, env, ns, p) && g.members != []
    requires forall i <- g.members :: i in ActiveNotes(db.notes, ns, Some(u)) && i in ActiveNotes(db.notes, ns, None)
                                     && ActiveNotes(db.notes, ns, Some(u))[i] == ActiveNotes(db.notes, ns, None)[i]
    ensures var mine := ActiveNotes(db.notes, ns, Some(u));
      Issued(ns, mine, GroupEdges.BuildGroups(ReadPairs(env, mine, p), mine, p).groups,
             KeyOfGroup(ns, ActiveNotes(db.notes, ns, None), g.members)) == Some(g)
  {
    var mine := ActiveNotes(db.notes, ns, Some(u));
    AuthorGroups(db, env, ns, p, u);
    assert GroupLocality.GroupIn(mine.Keys, g);
    IssuedIsIt(ns, env, mine, p, g);
    KeysAgree(ActiveNotes(db.notes, ns, None), mine, g.members);
  }

  lemma SubmittedAuthor(db: Db, v: Verdict, g: Group, u: string)
    requires Distinct(v.memberIds) && Elems(v.memberIds) == Elems(g.members) && g.members != []
    requires forall i <- g.members :: i in db.notes && db.notes[i].meta.author == u
    ensures OneAuthor(db.notes, v.memberIds) == Some(u)
  {
    forall i | i in v.memberIds ensures i in db.notes && db.notes[i].meta.author == u {
      assert i in Elems(v.memberIds);
      assert i in g.members;
    }
    assert g.members[0] in Elems(g.members);
    assert v.memberIds != [];
  }

  lemma ReportedSorts(db: Db, env: Env, v: Verdict, p: Params, g: Group)
    requires p.maxGroup >= 2 && g in ReportGroups(db, env, v.ns, p)
    requires Distinct(v.memberIds) && Elems(v.memberIds) == Elems(g.members)
    ensures SortStrings(v.memberIds) == g.members
  {
    GroupEdges.BuiltGroupsAreCliques(AllPairs(db, env, v.ns, p), ActiveNotes(db.notes, v.ns, None), p, g);
    SubmittedSorts(v.memberIds, g.members);
  }

  /**
   Every group the report lists, over all authors or one, is accepted on the same rows. A verdict
   that names it by its key and its members, in any order, is never stale for want of a group,
   cached or mixed: only the action cap and the verb's own checks are left, and a keep has none.
   */
  lemma ReportedIsAccepted(db: Db, env: Env, v: Verdict, b: Batch, g: Group)
    requires b.params.maxGroup >= 2 && g in ReportGroups(db, env, v.ns, b.params)
    requires Names(db, v, g) && Open(db, v.ns, ActiveNotes(db.notes, v.ns, None), g)
    ensures var st := LoadState(db, env, v, b);
      && g.members != [] && (forall i <- g.members :: i in st.notes)
      && Decide(db, env, v, b)
         == if v.verb != Keep && |UsedActions(db, b.runId, v.ns)| >= b.maxActions then End(v, Rejected, CapReached)
            else PlanVerb(env, v, st, g.members)
    ensures v.verb == Keep ==> Decide(db, env, v, b) == Planned(Plan(Keep, [], g.members, None, false, NoReason))
  {
    var u := GroupAuthor(db, env, v.ns, b.params, g);
    SubmittedAuthor(db, v, g, u);
    ReportedSorts(db, env, v, b.params, g);
    LoadIs(db, env, v, b);
    FoundByAuthor(db, env, v.ns, b.params, u, g);
    OnIssued(env, v, b, LoadState(db, env, v, b), g);
  }
}
