/** What the greedy packing guarantees, for every edge map and every cap. */
module GroupFacts {
  import opened Basics
  import opened Order
  import opened Groups

  // ---- one clique -----------------------------------------------------------

  ghost predicate Clique(E: Edges, s: seq<Id>)
  {
    forall i, j :: 0 <= i < |s| && 0 <= j < |s| && i != j ==> Adj(E, s[i], s[j])
  }

  ghost predicate WithinCaps(notes: map<Id, Note>, p: Params, s: seq<Id>)
  {
    |s| <= p.maxGroup && Chars(notes, s) <= p.maxChars
  }

  /** Every note outside `out` that is adjacent to all of s is kept out by a cap. */
  ghost predicate Maximal(E: Edges, notes: map<Id, Note>, p: Params, s: seq<Id>, out: set<Id>)
  {
    forall c | c in Vertices(E) && c !in out && Joins(E, s, c) :: Blocked(notes, p, s, c).Some?
  }

  ghost predicate AllBlocked(notes: map<Id, Note>, p: Params, s: seq<Id>, skipped: set<Id>)
  {
    forall c <- skipped :: Blocked(notes, p, s, c).Some?
  }

  lemma CharsAppend(notes: map<Id, Note>, s: seq<Id>, c: Id)
    ensures Chars(notes, s + [c]) == Chars(notes, s) + Size(notes, c)
  {
  }

  /** A blocked note stays blocked as the clique grows. */
  lemma BlockedGrows(notes: map<Id, Note>, p: Params, s: seq<Id>, c: Id, skipped: set<Id>)
    requires AllBlocked(notes, p, s, skipped)
    ensures AllBlocked(notes, p, s + [c], skipped)
  {
  }

  lemma {:induction false} ScanFacts(notes: map<Id, Note>, p: Params, s: seq<Id>, cs: seq<Cand>)
    ensures var r := Scan(notes, p, s, cs);
      && (forall k <- r.passed :: Blocked(notes, p, s, k.id) == Some(k.reason))
      && (r.added.Some? ==> Blocked(notes, p, s, r.added.value).None?)
      && (r.added.None? ==> forall c <- cs :: Blocked(notes, p, s, c.id).Some?)
  {
    if cs != [] {
      ScanFacts(notes, p, s, cs[1..]);
    }
  }

  lemma CliqueAppend(E: Edges, s: seq<Id>, c: Id)
    requires Clique(E, s) && Joins(E, s, c)
    ensures Clique(E, s + [c])
  {
    var t := s + [c];
    forall i, j | 0 <= i < |t| && 0 <= j < |t| && i != j ensures Adj(E, t[i], t[j]) {
      if i == |s| {
        assert t[j] in s;
      } else if j == |s| {
        assert t[i] in s;
      }
    }
  }

  /** When no candidate is addable, only capped ones are left. */
  lemma ExhaustedIsMaximal(E: Edges, notes: map<Id, Note>, p: Params, taken: set<Id>,
                           s: seq<Id>, skipped: set<Id>)
    requires Graph(E) && s != [] && AllBlocked(notes, p, s, skipped)
    requires Scan(notes, p, s, SortedCandidates(E, s, taken + skipped)).added.None?
    ensures Maximal(E, notes, p, s, taken)
  {
    var cs := SortedCandidates(E, s, taken + skipped);
    ScanFacts(notes, p, s, cs);
    forall c | c in Vertices(E) && c !in taken && Joins(E, s, c)
      ensures Blocked(notes, p, s, c).Some?
    {
      if c !in skipped {
        assert Cand(MinWeight(E, c, s), c) in Candidates(E, s, taken + skipped);
        assert Cand(MinWeight(E, c, s), c) in cs;
      }
    }
  }

  ghost predicate Growable(E: Edges, notes: map<Id, Note>, p: Params, taken: set<Id>, s: seq<Id>)
  {
    && |s| >= 2 && Clique(E, s) && WithinCaps(notes, p, s)
    && Elems(s) <= Vertices(E) && Elems(s) !! taken
  }

  /** Adding a candidate that fits keeps the growing clique. */
  lemma AddKeepsGrowable(E: Edges, notes: map<Id, Note>, p: Params, taken: set<Id>, s: seq<Id>, c: Id)
    requires Growable(E, notes, p, taken, s) && Joins(E, s, c) && c in Vertices(E) && c !in taken
    requires Blocked(notes, p, s, c).None?
    ensures Growable(E, notes, p, taken, s + [c])
  {
    CliqueAppend(E, s, c);
    CharsAppend(notes, s, c);
    assert Elems(s + [c]) == Elems(s) + {c};
  }

  lemma GrowStep(E: Edges, notes: map<Id, Note>, p: Params, taken: set<Id>,
                 s: seq<Id>, skipped: set<Id>, c: Id)
    requires Graph(E) && Growable(E, notes, p, taken, s) && AllBlocked(notes, p, s, skipped)
    requires Scan(notes, p, s, SortedCandidates(E, s, taken + skipped)).added == Some(c)
    ensures var passed := Scan(notes, p, s, SortedCandidates(E, s, taken + skipped)).passed;
      && Growable(E, notes, p, taken, s + [c])
      && AllBlocked(notes, p, s + [c], skipped + Ids(passed))
  {
    var cs := SortedCandidates(E, s, taken + skipped);
    var r := Scan(notes, p, s, cs);
    ScanFacts(notes, p, s, cs);
    AddedIsNew(E, s, taken + skipped, c, cs);
    AddKeepsGrowable(E, notes, p, taken, s, c);
    BlockedGrows(notes, p, s, c, skipped + Ids(r.passed));
  }

  lemma GrowEnds(E: Edges, notes: map<Id, Note>, p: Params, taken: set<Id>, s: seq<Id>, skipped: set<Id>)
    requires Graph(E) && s != []
    requires Scan(notes, p, s, SortedCandidates(E, s, taken + skipped)).added.None?
    ensures Grow(E, notes, p, taken, s, skipped).members == s
  {
  }

  lemma GrowContinues(E: Edges, notes: map<Id, Note>, p: Params, taken: set<Id>, s: seq<Id>, skipped: set<Id>, c: Id)
    requires Graph(E) && s != []
    requires Scan(notes, p, s, SortedCandidates(E, s, taken + skipped)).added == Some(c)
    ensures var passed := Scan(notes, p, s, SortedCandidates(E, s, taken + skipped)).passed;
      Grow(E, notes, p, taken, s, skipped).members == Grow(E, notes, p, taken, s + [c], skipped + Ids(passed)).members
  {
  }

  lemma {:induction false} GrowFacts(E: Edges, notes: map<Id, Note>, p: Params, taken: set<Id>,
                                     s: seq<Id>, skipped: set<Id>)
    requires Graph(E) && Growable(E, notes, p, taken, s) && AllBlocked(notes, p, s, skipped)
    ensures var r := Grow(E, notes, p, taken, s, skipped).members;
      s <= r && Growable(E, notes, p, taken, r) && Maximal(E, notes, p, r, taken)
    decreases |Vertices(E) - Elems(s)|
  {
    var cs := SortedCandidates(E, s, taken + skipped);
    var scan := Scan(notes, p, s, cs);
    match scan.added
    case None =>
      GrowEnds(E, notes, p, taken, s, skipped);
      ExhaustedIsMaximal(E, notes, p, taken, s, skipped);
    case Some(c) =>
      GrowContinues(E, notes, p, taken, s, skipped, c);
      AddedIsNew(E, s, taken + skipped, c, cs);
      GrowStep(E, notes, p, taken, s, skipped, c);
      GrowFacts(E, notes, p, taken, s + [c], skipped + Ids(scan.passed));
  }

  // ---- the packing as a whole -----------------------------------------------

  ghost function Union(packs: seq<seq<Id>>): set<Id>
  {
    if packs == [] then {} else Union(packs[..|packs| - 1]) + Elems(packs[|packs| - 1])
  }

  /** The cliques are disjoint, capped and maximal when they are made. */
  ghost predicate GoodPacks(E: Edges, notes: map<Id, Note>, p: Params, packs: seq<seq<Id>>)
  {
    forall i :: 0 <= i < |packs| ==>
      && Growable(E, notes, p, Union(packs[..i]), packs[i])
      && Maximal(E, notes, p, packs[i], Union(packs[..i]))
  }

  lemma GoodPacksAppend(E: Edges, notes: map<Id, Note>, p: Params, packs: seq<seq<Id>>, s: seq<Id>)
    requires GoodPacks(E, notes, p, packs)
    requires Growable(E, notes, p, Union(packs), s) && Maximal(E, notes, p, s, Union(packs))
    ensures GoodPacks(E, notes, p, packs + [s]) && Union(packs + [s]) == Union(packs) + Elems(s)
  {
    var all := packs + [s];
    assert all[..|packs|] == packs;
    forall i | 0 <= i < |all|
      ensures Growable(E, notes, p, Union(all[..i]), all[i]) && Maximal(E, notes, p, all[i], Union(all[..i]))
    {
      if i < |packs| {
        assert all[..i] == packs[..i];
      }
    }
  }

  /** An edge dealt with: an end is in a group, or the two texts alone break the cap. */
  ghost predicate Settled(notes: map<Id, Note>, p: Params, taken: set<Id>, e: Edge)
  {
    e.a in taken || e.b in taken || Size(notes, e.a) + Size(notes, e.b) > p.maxChars
  }

  ghost predicate AllSettled(notes: map<Id, Note>, p: Params, taken: set<Id>, edges: seq<Edge>)
  {
    forall e <- edges :: Settled(notes, p, taken, e)
  }

  ghost predicate Packed(E: Edges, notes: map<Id, Note>, p: Params, edges: seq<Edge>, st: Packing)
  {
    && st.taken == Union(st.packs)
    && GoodPacks(E, notes, p, st.packs)
    && AllSettled(notes, p, st.taken, edges)
  }

  lemma SeedGrowable(E: Edges, notes: map<Id, Note>, p: Params, taken: set<Id>, e: Edge)
    requires Graph(E) && p.maxGroup >= 2 && e in EdgeSet(E)
    requires e.a !in taken && e.b !in taken
    requires Size(notes, e.a) + Size(notes, e.b) <= p.maxChars
    ensures Growable(E, notes, p, taken, [e.a, e.b])
  {
    var s := [e.a, e.b];
    assert (e.a, e.b) in E;
    assert s[..1] == [e.a];
    assert s[..1][..0] == [];
    assert Chars(notes, [e.a]) == Size(notes, e.a);
    assert Elems(s) == {e.a, e.b};
  }

  lemma PackEdgeKeeps(E: Edges, notes: map<Id, Note>, p: Params, edges: seq<Edge>, st: Packing, e: Edge)
    requires Graph(E) && p.maxGroup >= 2 && e in EdgeSet(E)
    requires Packed(E, notes, p, edges, st)
    ensures Packed(E, notes, p, edges + [e], PackEdge(E, notes, p, st, e))
  {
    var next := PackEdge(E, notes, p, st, e);
    if !Settled(notes, p, st.taken, e) {
      SeedGrowable(E, notes, p, st.taken, e);
      GrowFacts(E, notes, p, st.taken, [e.a, e.b], {});
      var m := Grow(E, notes, p, st.taken, [e.a, e.b], {}).members;
      GoodPacksAppend(E, notes, p, st.packs, m);
      assert m[0] in m;
      assert Settled(notes, p, next.taken, e);
    }
    assert st.taken <= next.taken;
    forall f <- edges + [e] ensures Settled(notes, p, next.taken, f) {
      assert f in edges || f == e;
    }
  }

  lemma {:induction false} PackAllFacts(E: Edges, notes: map<Id, Note>, p: Params, edges: seq<Edge>)
    requires Graph(E) && p.maxGroup >= 2
    requires forall e <- edges :: e in EdgeSet(E)
    ensures Packed(E, notes, p, edges, PackAll(E, notes, p, edges))
  {
    if edges != [] {
      var n := |edges| - 1;
      PackAllFacts(E, notes, p, edges[..n]);
      PackEdgeKeeps(E, notes, p, edges[..n], PackAll(E, notes, p, edges[..n]), edges[n]);
    }
  }

  lemma PackAllStep(E: Edges, notes: map<Id, Note>, p: Params, edges: seq<Edge>, n: nat)
    requires Graph(E) && |edges| == n + 1
    ensures edges[..n] + [edges[n]] == edges
    ensures PackAll(E, notes, p, edges) == PackEdge(E, notes, p, PackAll(E, notes, p, edges[..n]), edges[n])
  {
  }

  ghost function PackingOf(E: Edges, notes: map<Id, Note>, p: Params): Packing
    requires Graph(E)
  {
    PackAll(E, notes, p, OrderedEdges(E))
  }

  /** Two notes outside every group share an edge only if their two texts alone break the cap. */
  lemma NothingUsableLeft(E: Edges, notes: map<Id, Note>, p: Params, u: Id, v: Id)
    requires Graph(E) && p.maxGroup >= 2 && Adj(E, u, v)
    requires u !in PackingOf(E, notes, p).taken && v !in PackingOf(E, notes, p).taken
    ensures Size(notes, u) + Size(notes, v) > p.maxChars
  {
    PackAllFacts(E, notes, p, OrderedEdges(E));
    var (a, b) := if (u, v) in E then (u, v) else (v, u);
    var e := Edge(E[(a, b)], a, b);
    assert e in EdgeSet(E);
    assert e in OrderedEdges(E);
    assert Settled(notes, p, PackingOf(E, notes, p).taken, e);
  }
}
