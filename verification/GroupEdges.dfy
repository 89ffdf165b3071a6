/** The edge map as a function of the set of pairs, and the value `build_groups` returns. */
module GroupEdges {
  import opened Basics
  import opened Order
  import opened Groups
  import opened GroupFacts
  import opened GroupResult

  /** Some qualifying pair joins the ends of k with score x. */
  ghost predicate Scores(pairs: seq<Pair>, notes: map<Id, Note>, t: real, k: (Id, Id), x: real)
    requires EndsKnown(pairs, notes)
  {
    exists q :: q in pairs && Qualifies(q, notes, t) && Key(q.a, q.b) == k && q.score == x
  }

  /** E holds exactly the best score of each qualifying unordered pair. */
  ghost predicate BestScores(pairs: seq<Pair>, notes: map<Id, Note>, t: real, E: Edges)
    requires EndsKnown(pairs, notes)
  {
    && (forall k :: k in E ==> Scores(pairs, notes, t, k, E[k]))
    && (forall q <- pairs :: Qualifies(q, notes, t) ==>
          Key(q.a, q.b) in E && q.score <= E[Key(q.a, q.b)])
  }

  lemma {:induction false} EdgesAreBest(pairs: seq<Pair>, notes: map<Id, Note>, t: real)
    requires EndsKnown(pairs, notes)
    ensures BestScores(pairs, notes, t, EdgesOf(pairs, notes, t))
  {
    if pairs != [] {
      var n := |pairs| - 1;
      EdgesAreBest(pairs[..n], notes, t);
      assert pairs[..n] + [pairs[n]] == pairs;
    }
  }

  /** Edges join two known notes, in order, at or above the threshold, and none is acknowledged. */
  lemma EdgesAreSound(pairs: seq<Pair>, notes: map<Id, Note>, t: real)
    requires EndsKnown(pairs, notes)
    ensures var E := EdgesOf(pairs, notes, t);
      && Graph(E)
      && forall k <- E :: k.0 in notes && k.1 in notes && Before(k.0, k.1) && E[k] >= t
                          && k.1 !in notes[k.0].similarAck && k.0 !in notes[k.1].similarAck
  {
    var E := EdgesOf(pairs, notes, t);
    EdgesAreBest(pairs, notes, t);
    forall k | k in E
      ensures k.0 in notes && k.1 in notes && Before(k.0, k.1) && E[k] >= t
      ensures k.1 !in notes[k.0].similarAck && k.0 !in notes[k.1].similarAck
    {
      var q :| q in pairs && Qualifies(q, notes, t) && Key(q.a, q.b) == k && q.score == E[k];
      BeforeTotal(q.a, q.b);
    }
    forall k | k in E ensures k.0 != k.1 && (k.1, k.0) !in E {
      BeforeIrreflexive(k.0);
      if (k.1, k.0) in E {
        BeforeTransitive(k.0, k.1, k.0);
      }
    }
  }

  // ---- only the set of pairs matters ----------------------------------------

  predicate Reads(p: Pair, q: Pair)
  {
    p.score == q.score && ((p.a == q.a && p.b == q.b) || (p.a == q.b && p.b == q.a))
  }

  /** Every pair of `pairs` occurs in `others`, in either direction. */
  ghost predicate Within(pairs: seq<Pair>, others: seq<Pair>)
  {
    forall p <- pairs :: exists q :: q in others && Reads(p, q)
  }

  lemma ReadsAlike(p: Pair, q: Pair, notes: map<Id, Note>, t: real)
    requires p.a in notes && p.b in notes && q.a in notes && q.b in notes && Reads(p, q)
    ensures Qualifies(p, notes, t) == Qualifies(q, notes, t)
    ensures p.a != p.b ==> Key(p.a, p.b) == Key(q.a, q.b)
  {
    BeforeTotal(p.a, p.b);
    if Before(p.a, p.b) && Before(p.b, p.a) {
      BeforeTransitive(p.a, p.b, p.a);
      BeforeIrreflexive(p.a);
    }
  }

  lemma EdgeCarries(pairs: seq<Pair>, others: seq<Pair>, notes: map<Id, Note>, t: real, k: (Id, Id))
    requires EndsKnown(pairs, notes) && EndsKnown(others, notes) && Within(pairs, others)
    requires k in EdgesOf(pairs, notes, t)
    ensures k in EdgesOf(others, notes, t) && EdgesOf(pairs, notes, t)[k] <= EdgesOf(others, notes, t)[k]
  {
    EdgesAreBest(pairs, notes, t);
    EdgesAreBest(others, notes, t);
    var p :| p in pairs && Qualifies(p, notes, t) && Key(p.a, p.b) == k && p.score == EdgesOf(pairs, notes, t)[k];
    var q :| q in others && Reads(p, q);
    ReadsAlike(p, q, notes, t);
  }

  lemma EdgesIgnoreOrder(pairs: seq<Pair>, others: seq<Pair>, notes: map<Id, Note>, t: real)
    requires EndsKnown(pairs, notes) && EndsKnown(others, notes)
    requires Within(pairs, others) && Within(others, pairs)
    ensures EdgesOf(pairs, notes, t) == EdgesOf(others, notes, t)
  {
    forall k | k in EdgesOf(pairs, notes, t)
      ensures k in EdgesOf(others, notes, t) && EdgesOf(pairs, notes, t)[k] <= EdgesOf(others, notes, t)[k]
    {
      EdgeCarries(pairs, others, notes, t, k);
    }
    forall k | k in EdgesOf(others, notes, t)
      ensures k in EdgesOf(pairs, notes, t) && EdgesOf(others, notes, t)[k] <= EdgesOf(pairs, notes, t)[k]
    {
      EdgeCarries(others, pairs, notes, t, k);
    }
    MutualBoundsAgree(EdgesOf(pairs, notes, t), EdgesOf(others, notes, t));
  }

  lemma MutualBoundsAgree(E: Edges, F: Edges)
    requires forall k :: k in E ==> k in F && E[k] <= F[k]
    requires forall k :: k in F ==> k in E && F[k] <= E[k]
    ensures E == F
  {
  }

  // ---- build_groups ---------------------------------------------------------

  datatype Built = Built(groups: seq<Group>, deferred: seq<Deferred>)

  ghost function BuildGroups(pairs: seq<Pair>, notes: map<Id, Note>, p: Params): Built
    requires EndsKnown(pairs, notes) && p.maxGroup >= 2
  {
    EdgesAreSound(pairs, notes, p.threshold);
    var E := EdgesOf(pairs, notes, p.threshold);
    Built(GroupList(E, notes, p), DeferredList(E, notes, p))
  }

  /** Order, direction and repetition of the pairs do not matter. */
  lemma BuildIgnoresOrder(pairs: seq<Pair>, others: seq<Pair>, notes: map<Id, Note>, p: Params)
    requires EndsKnown(pairs, notes) && EndsKnown(others, notes) && p.maxGroup >= 2
    requires Within(pairs, others) && Within(others, pairs)
    ensures BuildGroups(pairs, notes, p) == BuildGroups(others, notes, p)
  {
    EdgesIgnoreOrder(pairs, others, notes, p.threshold);
  }

  /** c has an edge: some qualifying pair names it. */
  ghost predicate HasEdge(pairs: seq<Pair>, notes: map<Id, Note>, p: Params, c: Id)
    requires EndsKnown(pairs, notes)
  {
    c in Vertices(EdgesOf(pairs, notes, p.threshold))
  }

  ghost predicate Grouped(b: Built, c: Id)
  {
    exists g :: g in b.groups && c in g.members
  }

  ghost predicate IsDeferred(b: Built, c: Id)
  {
    exists d :: d in b.deferred && d.id == c
  }

  lemma ListedGroup(E: Edges, notes: map<Id, Note>, p: Params, g: Group) returns (i: nat)
    requires Graph(E) && p.maxGroup >= 2 && g in GroupList(E, notes, p)
    ensures i < |PackingOf(E, notes, p).packs| && g == GroupAt(E, notes, p, i)
    ensures SoundGroup(E, notes, p, g) && Elems(g.members) == Elems(PackingOf(E, notes, p).packs[i])
  {
    i := InSetIsAt(E, notes, p, g);
    PacksAreSound(E, notes, p, i);
  }

  lemma SoundGroupScores(E: Edges, notes: map<Id, Note>, p: Params, g: Group, t: real)
    requires SoundGroup(E, notes, p, g) && forall k <- E :: E[k] >= t
    ensures g.minScore >= t
  {
  }

  lemma SoundGroupMembers(E: Edges, notes: map<Id, Note>, p: Params, g: Group)
    requires SoundGroup(E, notes, p, g)
    ensures Elems(g.members) <= Vertices(E)
  {
  }

  /** Each group is a capped clique of unacknowledged edges at or above the threshold. */
  lemma BuiltGroupsAreCliques(pairs: seq<Pair>, notes: map<Id, Note>, p: Params, g: Group)
    requires EndsKnown(pairs, notes) && p.maxGroup >= 2 && g in BuildGroups(pairs, notes, p).groups
    ensures SoundGroup(EdgesOf(pairs, notes, p.threshold), notes, p, g)
    ensures g.minScore >= p.threshold && Elems(g.members) <= notes.Keys
  {
    EdgesAreSound(pairs, notes, p.threshold);
    ListedIsClique(EdgesOf(pairs, notes, p.threshold), notes, p, g);
  }

  lemma ListedIsClique(E: Edges, notes: map<Id, Note>, p: Params, g: Group)
    requires Graph(E) && p.maxGroup >= 2 && g in GroupList(E, notes, p)
    requires forall k <- E :: k.0 in notes && k.1 in notes && E[k] >= p.threshold
    ensures SoundGroup(E, notes, p, g) && g.minScore >= p.threshold && Elems(g.members) <= notes.Keys
  {
    ListedIsSound(E, notes, p, g);
    SoundGroupScores(E, notes, p, g, p.threshold);
    SoundGroupMembers(E, notes, p, g);
    VerticesKnown(E, notes);
  }

  lemma ListedIsSound(E: Edges, notes: map<Id, Note>, p: Params, g: Group)
    requires Graph(E) && p.maxGroup >= 2 && g in GroupList(E, notes, p)
    ensures SoundGroup(E, notes, p, g)
  {
    var i := ListedGroup(E, notes, p, g);
  }

  lemma VerticesKnown(E: Edges, notes: map<Id, Note>)
    requires forall k <- E :: k.0 in notes && k.1 in notes
    ensures Vertices(E) <= notes.Keys
  {
  }

  lemma BuiltGroupsDisjoint(pairs: seq<Pair>, notes: map<Id, Note>, p: Params, g: Group, h: Group)
    requires EndsKnown(pairs, notes) && p.maxGroup >= 2
    requires g in BuildGroups(pairs, notes, p).groups && h in BuildGroups(pairs, notes, p).groups && g != h
    ensures Elems(g.members) !! Elems(h.members)
  {
    EdgesAreSound(pairs, notes, p.threshold);
    ListedApart(EdgesOf(pairs, notes, p.threshold), notes, p, g, h);
  }

  lemma ListedApart(E: Edges, notes: map<Id, Note>, p: Params, g: Group, h: Group)
    requires Graph(E) && p.maxGroup >= 2
    requires g in GroupList(E, notes, p) && h in GroupList(E, notes, p) && g != h
    ensures Apart(g, h)
  {
    GroupSetDisjoint(E, notes, p);
    assert g in GroupSet(E, notes, p) && h in GroupSet(E, notes, p);
  }

  lemma TakenIsUnion(E: Edges, notes: map<Id, Note>, p: Params)
    requires Graph(E) && p.maxGroup >= 2
    ensures PackingOf(E, notes, p).taken == Union(PackingOf(E, notes, p).packs)
  {
    PackAllFacts(E, notes, p, OrderedEdges(E));
  }

  lemma GroupedIsTaken(E: Edges, notes: map<Id, Note>, p: Params, c: Id)
    requires Graph(E) && p.maxGroup >= 2
    ensures c in PackingOf(E, notes, p).taken <==> exists g :: g in GroupList(E, notes, p) && c in g.members
  {
    TakenIsUnion(E, notes, p);
    if c in PackingOf(E, notes, p).taken {
      TakenIsGrouped(E, notes, p, c);
    }
    if g :| g in GroupList(E, notes, p) && c in g.members {
      var i := ListedGroup(E, notes, p, g);
      assert c in Elems(g.members);
      UnionHas(PackingOf(E, notes, p).packs, i, c);
    }
  }

  lemma TakenIsGrouped(E: Edges, notes: map<Id, Note>, p: Params, c: Id)
    requires Graph(E) && p.maxGroup >= 2 && c in PackingOf(E, notes, p).taken
    ensures exists g :: g in GroupList(E, notes, p) && c in g.members
  {
    TakenIsUnion(E, notes, p);
    var i := UnionFrom(PackingOf(E, notes, p).packs, c);
    PacksAreSound(E, notes, p, i);
    var g := GroupAt(E, notes, p, i);
    assert c in Elems(g.members);
    assert g in GroupList(E, notes, p) && c in g.members;
  }

  lemma TakenAreVertices(E: Edges, notes: map<Id, Note>, p: Params)
    requires Graph(E) && p.maxGroup >= 2
    ensures PackingOf(E, notes, p).taken <= Vertices(E)
  {
    var packs := PackingOf(E, notes, p).packs;
    PackAllFacts(E, notes, p, OrderedEdges(E));
    forall c | c in Union(packs) ensures c in Vertices(E) {
      var i := UnionFrom(packs, c);
      assert c in Elems(packs[i]);
    }
  }

  lemma DeferredAre(E: Edges, notes: map<Id, Note>, p: Params, c: Id)
    requires Graph(E)
    ensures (exists d :: d in DeferredList(E, notes, p) && d.id == c)
            <==> c in Vertices(E) && c !in PackingOf(E, notes, p).taken
  {
    var left := SortedIds(Vertices(E) - PackingOf(E, notes, p).taken);
    if c in left {
      var i :| 0 <= i < |left| && left[i] == c;
      assert DeferredList(E, notes, p)[i].id == c;
    }
    if d :| d in DeferredList(E, notes, p) && d.id == c {
      var i :| 0 <= i < |left| && DeferredList(E, notes, p)[i] == d;
      assert left[i] in left;
    }
  }

  /** Groups and deferrals partition the notes that have an edge. */
  lemma BuiltPartition(pairs: seq<Pair>, notes: map<Id, Note>, p: Params, c: Id)
    requires EndsKnown(pairs, notes) && p.maxGroup >= 2
    ensures var b := BuildGroups(pairs, notes, p);
      && (HasEdge(pairs, notes, p, c) <==> Grouped(b, c) || IsDeferred(b, c))
      && !(Grouped(b, c) && IsDeferred(b, c))
  {
    EdgesAreSound(pairs, notes, p.threshold);
    var E := EdgesOf(pairs, notes, p.threshold);
    GroupedIsTaken(E, notes, p, c);
    TakenAreVertices(E, notes, p);
    DeferredAre(E, notes, p, c);
  }

  /** Two deferred notes share an edge only if their texts alone exceed the character cap. */
  lemma BuiltLeavesNothingUsable(pairs: seq<Pair>, notes: map<Id, Note>, p: Params, q: Pair)
    requires EndsKnown(pairs, notes) && p.maxGroup >= 2
    requires q in pairs && Qualifies(q, notes, p.threshold)
    requires IsDeferred(BuildGroups(pairs, notes, p), q.a) && IsDeferred(BuildGroups(pairs, notes, p), q.b)
    ensures |notes[q.a].text| + |notes[q.b].text| > p.maxChars
  {
    EdgesAreSound(pairs, notes, p.threshold);
    EdgesAreBest(pairs, notes, p.threshold);
    var E := EdgesOf(pairs, notes, p.threshold);
    DeferredAre(E, notes, p, q.a);
    DeferredAre(E, notes, p, q.b);
    NothingUsableLeft(E, notes, p, q.a, q.b);
  }

  /**
   The cliques are made in non-increasing order of the returned `maxScore`, and a note adjacent to
   all of one but outside it was in an earlier one or is kept out by a cap.
   */
  lemma BuiltGreedily(E: Edges, notes: map<Id, Note>, p: Params, i: nat)
    requires Graph(E) && p.maxGroup >= 2 && i < |PackingOf(E, notes, p).packs|
    ensures var packs := PackingOf(E, notes, p).packs;
      && GroupAt(E, notes, p, i) in GroupList(E, notes, p)
      && (forall j :: i < j < |packs| ==>
            GroupAt(E, notes, p, i).maxScore >= GroupAt(E, notes, p, j).maxScore)
      && forall c | c in Vertices(E) && Joins(E, packs[i], c) ::
           || (exists j :: 0 <= j < i && c in packs[j])
           || Blocked(notes, p, packs[i], c).Some?
  {
    var es := OrderedEdges(E);
    var packs := PackingOf(E, notes, p).packs;
    assert es[..|es|] == es;
    SeedsHighest(E, notes, p, |es|);
    PackAllFacts(E, notes, p, es);
    AtIsInSet(E, notes, p, i);
    MaxScoreIsSeed(E, notes, p, Union(packs[..i]), packs[i]);
    forall j | i < j < |packs| ensures GroupAt(E, notes, p, i).maxScore >= GroupAt(E, notes, p, j).maxScore {
      MaxScoreIsSeed(E, notes, p, Union(packs[..j]), packs[j]);
    }
    forall c | c in Vertices(E) && Joins(E, packs[i], c) && Blocked(notes, p, packs[i], c).None?
      ensures exists j :: 0 <= j < i && c in packs[j]
    {
      assert c in Union(packs[..i]);
      var j := UnionFrom(packs[..i], c);
      assert c in packs[j];
    }
  }
}
