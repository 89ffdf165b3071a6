/** The groups and deferrals that `build_groups` returns, and what a caller may rely on. */
module GroupResult {
  import opened Basics
  import opened Order
  import opened Groups
  import opened GroupFacts

  // ---- seeds ----------------------------------------------------------------

  ghost function SeedScore(E: Edges, pack: seq<Id>): real
    requires |pack| >= 2
  {
    Weight(E, pack[0], pack[1])
  }

  lemma {:induction false} OneFits(notes: map<Id, Note>, s: seq<Id>, u: Id)
    requires u in s
    ensures Size(notes, u) <= Chars(notes, s)
  {
    var n := |s| - 1;
    if u != s[n] {
      assert u in s[..n];
      OneFits(notes, s[..n], u);
    }
  }

  lemma {:induction false} TwoFit(notes: map<Id, Note>, s: seq<Id>, u: Id, v: Id)
    requires u in s && v in s && u != v
    ensures Size(notes, u) + Size(notes, v) <= Chars(notes, s)
  {
    var n := |s| - 1;
    if u == s[n] {
      assert v in s[..n];
      OneFits(notes, s[..n], v);
    } else if v == s[n] {
      assert u in s[..n];
      OneFits(notes, s[..n], u);
    } else {
      assert u in s[..n] && v in s[..n];
      TwoFit(notes, s[..n], u, v);
    }
  }

  ghost predicate SeedLeads(E: Edges, pack: seq<Id>)
  {
    |pack| >= 2 && forall u, v | u in pack && v in pack && u != v :: Weight(E, u, v) <= SeedScore(E, pack)
  }

  /** Seeds lead their cliques, in non-increasing order, and no later edge outscores one. */
  ghost predicate SeedsLead(E: Edges, packs: seq<seq<Id>>, later: seq<Edge>)
  {
    && (forall i :: 0 <= i < |packs| ==> SeedLeads(E, packs[i]))
    && (forall i, j :: 0 <= i < j < |packs| ==> SeedScore(E, packs[i]) >= SeedScore(E, packs[j]))
    && (forall i, f | 0 <= i < |packs| && f in later :: f.score <= SeedScore(E, packs[i]))
  }

  lemma NewSeedLeads(E: Edges, notes: map<Id, Note>, p: Params, st: Packing, n: nat, m: seq<Id>)
    requires Graph(E) && n < |OrderedEdges(E)|
    requires Packed(E, notes, p, OrderedEdges(E)[..n], st)
    requires Growable(E, notes, p, st.taken, m)
    requires m[0] == OrderedEdges(E)[n].a && m[1] == OrderedEdges(E)[n].b
    ensures SeedLeads(E, m) && SeedScore(E, m) == OrderedEdges(E)[n].score
  {
    var es := OrderedEdges(E);
    assert es[n] in EdgeSet(E);
    assert (es[n].a, es[n].b) in E;
    forall u, v | u in m && v in m && u != v ensures Weight(E, u, v) <= es[n].score {
      EdgeComesLater(E, notes, p, st, n, m, u, v);
    }
  }

  function EdgeBetween(E: Edges, u: Id, v: Id): Edge
    requires Adj(E, u, v)
  {
    if (u, v) in E then Edge(E[(u, v)], u, v) else Edge(E[(v, u)], v, u)
  }

  /** An edge inside a new clique was not settled before, so it is not among the first n. */
  lemma EdgeComesLater(E: Edges, notes: map<Id, Note>, p: Params, st: Packing, n: nat, m: seq<Id>,
                       u: Id, v: Id)
    requires Graph(E) && n < |OrderedEdges(E)|
    requires Packed(E, notes, p, OrderedEdges(E)[..n], st)
    requires Growable(E, notes, p, st.taken, m) && u in m && v in m && u != v
    ensures Weight(E, u, v) <= OrderedEdges(E)[n].score
  {
    var es := OrderedEdges(E);
    assert Adj(E, u, v) by {
      var i :| 0 <= i < |m| && m[i] == u;
      var j :| 0 <= j < |m| && m[j] == v;
    }
    var f := EdgeBetween(E, u, v);
    assert f in EdgeSet(E);
    assert f in es;
    assert f !in es[..n] by {
      TwoFit(notes, m, u, v);
      assert u in Elems(m) && v in Elems(m);
      assert !Settled(notes, p, st.taken, f);
    }
  }

  /** Packing one more edge keeps the order of seeds. */
  lemma SeedsStep(E: Edges, notes: map<Id, Note>, p: Params, st: Packing, k: nat)
    requires Graph(E) && p.maxGroup >= 2 && k < |OrderedEdges(E)|
    requires Packed(E, notes, p, OrderedEdges(E)[..k], st) && SeedsLead(E, st.packs, OrderedEdges(E)[k..])
    ensures SeedsLead(E, PackEdge(E, notes, p, st, OrderedEdges(E)[k]).packs, OrderedEdges(E)[k + 1..])
  {
    var es := OrderedEdges(E);
    var e := es[k];
    assert e in EdgeSet(E);
    if Settled(notes, p, st.taken, e) {
      assert forall f <- es[k + 1..] :: f in es[k..];
    } else {
      SeedGrowable(E, notes, p, st.taken, e);
      GrowFacts(E, notes, p, st.taken, [e.a, e.b], {});
      var m := Grow(E, notes, p, st.taken, [e.a, e.b], {}).members;
      NewSeedLeads(E, notes, p, st, k, m);
      SeedsAppend(E, st.packs, m, es, k);
    }
  }

  lemma {:induction false} SeedsHighest(E: Edges, notes: map<Id, Note>, p: Params, n: nat)
    requires Graph(E) && p.maxGroup >= 2 && n <= |OrderedEdges(E)|
    ensures SeedsLead(E, PackAll(E, notes, p, OrderedEdges(E)[..n]).packs, OrderedEdges(E)[n..])
  {
    var es := OrderedEdges(E);
    if n > 0 {
      var k := n - 1;
      SeedsHighest(E, notes, p, k);
      assert es[..n][..k] == es[..k];
      PackAllStep(E, notes, p, es[..n], k);
      PackAllFacts(E, notes, p, es[..k]);
      SeedsStep(E, notes, p, PackAll(E, notes, p, es[..k]), k);
    }
  }

  lemma SeedsAppend(E: Edges, packs: seq<seq<Id>>, m: seq<Id>, es: seq<Edge>, k: nat)
    requires k < |es| && Ascending(EdgeLess, es)
    requires SeedsLead(E, packs, es[k..]) && SeedLeads(E, m) && SeedScore(E, m) == es[k].score
    ensures SeedsLead(E, packs + [m], es[k + 1..])
  {
  }

  // ---- scores and sizes of the listed group ---------------------------------

  lemma {:induction false} MaxIs(xs: seq<real>)
    requires xs != []
    ensures MaxOf(xs) in xs && forall x <- xs :: x <= MaxOf(xs)
  {
    if |xs| > 1 {
      MaxIs(xs[1..]);
      assert xs == [xs[0]] + xs[1..];
    }
  }

  lemma {:induction false} MinIs(xs: seq<real>)
    requires xs != []
    ensures MinOf(xs) in xs && forall x <- xs :: MinOf(xs) <= x
  {
    if |xs| > 1 {
      MinIs(xs[1..]);
      assert xs == [xs[0]] + xs[1..];
    }
  }

  lemma {:induction false} RowScoresAre(E: Edges, a: Id, s: seq<Id>)
    ensures forall x :: x in RowScores(E, a, s) <==> exists j :: 0 <= j < |s| && x == Weight(E, a, s[j])
  {
    if s != [] {
      RowScoresAre(E, a, s[1..]);
      forall x ensures x in RowScores(E, a, s) <==> exists j :: 0 <= j < |s| && x == Weight(E, a, s[j]) {
        if x in RowScores(E, a, s[1..]) {
          var j :| 0 <= j < |s[1..]| && x == Weight(E, a, s[1..][j]);
          assert x == Weight(E, a, s[j + 1]);
        }
        if j :| 0 <= j < |s| && x == Weight(E, a, s[j]) {
          if j > 0 {
            assert x == Weight(E, a, s[1..][j - 1]);
          }
        }
      }
    }
  }

  /** x scores some two positions of s. */
  ghost predicate ScoresTwo(E: Edges, s: seq<Id>, x: real)
  {
    exists i, j :: 0 <= i < j < |s| && x == Weight(E, s[i], s[j])
  }

  lemma {:induction false} AllScoresAre(E: Edges, s: seq<Id>, x: real)
    ensures x in AllScores(E, s) <==> ScoresTwo(E, s, x)
  {
    if s != [] {
      var t := s[1..];
      AllScoresAre(E, t, x);
      RowScoresAre(E, s[0], t);
      if ScoresTwo(E, t, x) {
        var i, j :| 0 <= i < j < |t| && x == Weight(E, t[i], t[j]);
        assert x == Weight(E, s[i + 1], s[j + 1]);
      }
      if j :| 0 <= j < |t| && x == Weight(E, s[0], t[j]) {
        assert x == Weight(E, s[0], s[j + 1]);
      }
      if ScoresTwo(E, s, x) {
        var i, j :| 0 <= i < j < |s| && x == Weight(E, s[i], s[j]);
        if i > 0 {
          assert x == Weight(E, t[i - 1], t[j - 1]);
        } else {
          assert x == Weight(E, s[0], t[j - 1]);
        }
      }
    }
  }

  lemma {:induction false} CharsWithout(notes: map<Id, Note>, s: seq<Id>, k: nat)
    requires k < |s|
    ensures Chars(notes, s) == Chars(notes, s[..k] + s[k + 1..]) + Size(notes, s[k])
  {
    var n := |s| - 1;
    if k == n {
      assert s[..k] + s[k + 1..] == s[..n];
    } else {
      CharsWithout(notes, s[..n], k);
      var t := s[..k] + s[k + 1..];
      var before, between := s[..k], s[k + 1..n];
      assert s[k + 1..] == between + [s[n]];
      assert t == (before + between) + [s[n]];
      assert t[..|t| - 1] == before + between;
      assert s[..n][..k] == before && s[..n][k + 1..] == between;
    }
  }

  /** Two distinct listings of the same notes have the same total length. */
  lemma {:induction false} CharsOfSameNotes(notes: map<Id, Note>, s: seq<Id>, t: seq<Id>)
    requires Distinct(s) && Distinct(t) && Elems(s) == Elems(t)
    ensures Chars(notes, s) == Chars(notes, t) && |s| == |t|
  {
    DistinctSize(s);
    DistinctSize(t);
    if s != [] {
      var n := |s| - 1;
      assert s[n] in Elems(s);
      var k :| 0 <= k < |t| && t[k] == s[n];
      CharsWithout(notes, t, k);
      var u := t[..k] + t[k + 1..];
      assert Elems(u) == Elems(t) - {t[k]};
      assert Elems(s[..n]) == Elems(s) - {s[n]};
      CharsOfSameNotes(notes, s[..n], u);
    }
  }

  lemma CliqueDistinct(E: Edges, s: seq<Id>)
    requires Graph(E) && Clique(E, s)
    ensures Distinct(s) && |Elems(s)| == |s|
  {
    DistinctSize(s);
  }

  /** The properties of one returned group. */
  ghost predicate SoundGroup(E: Edges, notes: map<Id, Note>, p: Params, g: Group)
  {
    && |g.members| >= 2 && Ascending(Before, g.members)
    && Clique(E, g.members) && WithinCaps(notes, p, g.members)
    && ScoresTwo(E, g.members, g.minScore) && ScoresTwo(E, g.members, g.maxScore)
    && (forall i, j :: 0 <= i < j < |g.members| ==>
          g.minScore <= Weight(E, g.members[i], g.members[j]) <= g.maxScore)
  }

  lemma SoundIf(E: Edges, notes: map<Id, Note>, p: Params, s: seq<Id>)
    requires |s| >= 2 && Ascending(Before, s) && Clique(E, s) && WithinCaps(notes, p, s)
    ensures SoundGroup(E, notes, p, Group(s, MinOf(AllScores(E, s)), MaxOf(AllScores(E, s))))
  {
    ScoresBound(E, s);
  }

  lemma GroupOfIs(E: Edges, pack: seq<Id>)
    requires |Elems(pack)| >= 2
    ensures var s := SortedIds(Elems(pack));
      |s| >= 2 && GroupOf(E, pack) == Group(s, MinOf(AllScores(E, s)), MaxOf(AllScores(E, s)))
  {
    TwoListed(pack, SortedIds(Elems(pack)));
  }

  lemma GroupIsSound(E: Edges, notes: map<Id, Note>, p: Params, taken: set<Id>, pack: seq<Id>)
    requires Graph(E) && Growable(E, notes, p, taken, pack)
    ensures |Elems(pack)| >= 2 && SoundGroup(E, notes, p, GroupOf(E, pack))
    ensures Elems(GroupOf(E, pack).members) == Elems(pack)
  {
    CliqueDistinct(E, pack);
    ListedClique(E, notes, pack);
    GroupOfIs(E, pack);
    SoundIf(E, notes, p, SortedIds(Elems(pack)));
  }

  lemma ListedClique(E: Edges, notes: map<Id, Note>, pack: seq<Id>)
    requires Graph(E) && Clique(E, pack) && |pack| >= 2
    ensures var s := SortedIds(Elems(pack));
      && |s| == |pack| && Elems(s) == Elems(pack)
      && Ascending(Before, s) && Clique(E, s) && Chars(notes, s) == Chars(notes, pack)
  {
    CliqueDistinct(E, pack);
    var s := SortedIds(Elems(pack));
    assert Elems(s) == Elems(pack);
    AscendingDistinct(s);
    CharsOfSameNotes(notes, s, pack);
    SameClique(E, pack, s);
  }

  lemma AscendingDistinct(s: seq<Id>)
    requires Ascending(Before, s)
    ensures Distinct(s)
  {
    forall i, j | 0 <= i < j < |s| ensures s[i] != s[j] {
      BeforeIrreflexive(s[i]);
    }
  }

  lemma SameClique(E: Edges, pack: seq<Id>, s: seq<Id>)
    requires Clique(E, pack) && Distinct(s) && Elems(s) == Elems(pack)
    ensures Clique(E, s)
  {
    forall i, j | 0 <= i < |s| && 0 <= j < |s| && i != j ensures Adj(E, s[i], s[j]) {
      assert s[i] in Elems(s) && s[j] in Elems(s);
      var k :| 0 <= k < |pack| && pack[k] == s[i];
      var l :| 0 <= l < |pack| && pack[l] == s[j];
    }
  }

  lemma ScoresBound(E: Edges, s: seq<Id>)
    requires |s| >= 2
    ensures ScoresTwo(E, s, MinOf(AllScores(E, s))) && ScoresTwo(E, s, MaxOf(AllScores(E, s)))
    ensures forall i, j :: 0 <= i < j < |s| ==>
              MinOf(AllScores(E, s)) <= Weight(E, s[i], s[j]) <= MaxOf(AllScores(E, s))
  {
    var xs := AllScores(E, s);
    MinIs(xs);
    MaxIs(xs);
    AllScoresAre(E, s, MinOf(xs));
    AllScoresAre(E, s, MaxOf(xs));
    forall i, j | 0 <= i < j < |s| ensures Weight(E, s[i], s[j]) in xs {
      AllScoresAre(E, s, Weight(E, s[i], s[j]));
    }
  }

  /** The group's highest score is its seed's. */
  lemma MaxScoreIsSeed(E: Edges, notes: map<Id, Note>, p: Params, taken: set<Id>, pack: seq<Id>)
    requires Graph(E) && Growable(E, notes, p, taken, pack) && SeedLeads(E, pack)
    ensures |Elems(pack)| >= 2 && GroupOf(E, pack).maxScore == SeedScore(E, pack)
  {
    GroupIsSound(E, notes, p, taken, pack);
    CliqueDistinct(E, pack);
    LeadScoreIsMax(E, pack, GroupOf(E, pack));
  }

  lemma LeadScoreIsMax(E: Edges, pack: seq<Id>, g: Group)
    requires Graph(E) && SeedLeads(E, pack) && pack[0] != pack[1]
    requires Ascending(Before, g.members) && Elems(g.members) == Elems(pack)
    requires ScoresTwo(E, g.members, g.maxScore)
    requires forall i, j :: 0 <= i < j < |g.members| ==> Weight(E, g.members[i], g.members[j]) <= g.maxScore
    ensures g.maxScore == SeedScore(E, pack)
  {
    var s := g.members;
    AscendingDistinct(s);
    assert g.maxScore <= SeedScore(E, pack) by {
      var i, j :| 0 <= i < j < |s| && g.maxScore == Weight(E, s[i], s[j]);
      assert s[i] in Elems(s) && s[j] in Elems(s);
    }
    assert SeedScore(E, pack) <= g.maxScore by {
      assert pack[0] in Elems(pack) && pack[1] in Elems(pack);
      var k :| 0 <= k < |s| && s[k] == pack[0];
      var l :| 0 <= l < |s| && s[l] == pack[1];
      assert Weight(E, s[k], s[l]) == Weight(E, s[l], s[k]);
    }
  }

  // ---- the returned value ---------------------------------------------------

  lemma PacksAreSound(E: Edges, notes: map<Id, Note>, p: Params, i: nat)
    requires Graph(E) && p.maxGroup >= 2 && i < |PackingOf(E, notes, p).packs|
    ensures var pack := PackingOf(E, notes, p).packs[i];
      && |Elems(pack)| >= 2 && SoundGroup(E, notes, p, GroupOf(E, pack))
      && Elems(GroupOf(E, pack).members) == Elems(pack)
  {
    PackAllFacts(E, notes, p, OrderedEdges(E));
    var packs := PackingOf(E, notes, p).packs;
    GroupIsSound(E, notes, p, Union(packs[..i]), packs[i]);
  }

  ghost function GroupAt(E: Edges, notes: map<Id, Note>, p: Params, i: nat): Group
    requires Graph(E) && p.maxGroup >= 2 && i < |PackingOf(E, notes, p).packs|
  {
    PacksAreSound(E, notes, p, i);
    GroupOf(E, PackingOf(E, notes, p).packs[i])
  }

  /** The groups of the first n cliques. */
  ghost function GroupsOf(E: Edges, packs: seq<seq<Id>>, n: nat): set<Group>
    requires n <= |packs| && forall i :: 0 <= i < |packs| ==> |Elems(packs[i])| >= 2
  {
    set i | 0 <= i < n :: GroupOf(E, packs[i])
  }

  lemma PacksAreGroups(E: Edges, notes: map<Id, Note>, p: Params)
    requires Graph(E) && p.maxGroup >= 2
    ensures forall i :: 0 <= i < |PackingOf(E, notes, p).packs| ==> |Elems(PackingOf(E, notes, p).packs[i])| >= 2
  {
    forall i | 0 <= i < |PackingOf(E, notes, p).packs|
      ensures |Elems(PackingOf(E, notes, p).packs[i])| >= 2
    {
      PacksAreSound(E, notes, p, i);
    }
  }

  ghost function GroupSet(E: Edges, notes: map<Id, Note>, p: Params): set<Group>
    requires Graph(E) && p.maxGroup >= 2
  {
    PacksAreGroups(E, notes, p);
    var packs := PackingOf(E, notes, p).packs;
    GroupsOf(E, packs, |packs|)
  }

  lemma GroupsOfStep(E: Edges, packs: seq<seq<Id>>, n: nat)
    requires n < |packs| && forall i :: 0 <= i < |packs| ==> |Elems(packs[i])| >= 2
    ensures GroupsOf(E, packs, n + 1) == GroupsOf(E, packs, n) + {GroupOf(E, packs[n])}
  {
  }

  lemma AtIsInSet(E: Edges, notes: map<Id, Note>, p: Params, i: nat)
    requires Graph(E) && p.maxGroup >= 2 && i < |PackingOf(E, notes, p).packs|
    ensures GroupAt(E, notes, p, i) in GroupSet(E, notes, p)
  {
  }

  lemma InSetIsAt(E: Edges, notes: map<Id, Note>, p: Params, g: Group) returns (i: nat)
    requires Graph(E) && p.maxGroup >= 2 && g in GroupSet(E, notes, p)
    ensures i < |PackingOf(E, notes, p).packs| && g == GroupAt(E, notes, p, i)
  {
    PacksAreGroups(E, notes, p);
    i :| 0 <= i < |PackingOf(E, notes, p).packs| && g == GroupOf(E, PackingOf(E, notes, p).packs[i]);
  }

  lemma {:induction false} UnionHas(packs: seq<seq<Id>>, i: nat, c: Id)
    requires i < |packs| && c in packs[i]
    ensures c in Union(packs)
  {
    var n := |packs| - 1;
    if i < n {
      UnionHas(packs[..n], i, c);
    }
  }

  lemma {:induction false} UnionFrom(packs: seq<seq<Id>>, c: Id) returns (i: nat)
    requires c in Union(packs)
    ensures i < |packs| && c in packs[i]
  {
    var n := |packs| - 1;
    if c in Elems(packs[n]) {
      i := n;
    } else {
      i := UnionFrom(packs[..n], c);
    }
  }

  lemma PacksDisjoint(E: Edges, notes: map<Id, Note>, p: Params, i: nat, j: nat)
    requires Graph(E) && p.maxGroup >= 2 && i < j < |PackingOf(E, notes, p).packs|
    ensures Elems(PackingOf(E, notes, p).packs[i]) !! Elems(PackingOf(E, notes, p).packs[j])
  {
    PackAllFacts(E, notes, p, OrderedEdges(E));
    var packs := PackingOf(E, notes, p).packs;
    forall c | c in packs[i] ensures c in Union(packs[..j]) {
      UnionHas(packs[..j], i, c);
    }
  }

  /** Groups that differ share no member. */
  lemma GroupSetDisjoint(E: Edges, notes: map<Id, Note>, p: Params)
    requires Graph(E) && p.maxGroup >= 2
    ensures forall g, h | g in GroupSet(E, notes, p) && h in GroupSet(E, notes, p) && g != h :: Apart(g, h)
  {
    forall g, h | g in GroupSet(E, notes, p) && h in GroupSet(E, notes, p) && g != h ensures Apart(g, h) {
      var i := InSetIsAt(E, notes, p, g);
      var j := InSetIsAt(E, notes, p, h);
      GroupsApart(E, notes, p, i, j);
    }
  }

  ghost predicate Apart(g: Group, h: Group)
  {
    g.members != [] && h.members != [] && Elems(g.members) !! Elems(h.members)
  }

  lemma GroupsApart(E: Edges, notes: map<Id, Note>, p: Params, i: nat, j: nat)
    requires Graph(E) && p.maxGroup >= 2 && i != j
    requires i < |PackingOf(E, notes, p).packs| && j < |PackingOf(E, notes, p).packs|
    ensures Apart(GroupAt(E, notes, p, i), GroupAt(E, notes, p, j))
  {
    PacksAreSound(E, notes, p, i);
    PacksAreSound(E, notes, p, j);
    if i < j {
      PacksDisjoint(E, notes, p, i, j);
    } else {
      PacksDisjoint(E, notes, p, j, i);
    }
  }

  lemma ApartFirst(g: Group, h: Group)
    requires Apart(g, h)
    ensures First(g) != First(h)
  {
    assert First(g) in Elems(g.members) && First(h) in Elems(h.members);
  }

  lemma GroupSetOrdered(E: Edges, notes: map<Id, Note>, p: Params)
    requires Graph(E) && p.maxGroup >= 2
    ensures TotalOn(GroupLess, GroupSet(E, notes, p))
  {
    GroupSetDisjoint(E, notes, p);
    forall g, h | g in GroupSet(E, notes, p) && h in GroupSet(E, notes, p) && g != h
      ensures First(g) != First(h)
    {
      ApartFirst(g, h);
    }
    GroupsOrdered(GroupSet(E, notes, p));
  }

  ghost function GroupList(E: Edges, notes: map<Id, Note>, p: Params): seq<Group>
    requires Graph(E) && p.maxGroup >= 2
  {
    GroupSetOrdered(E, notes, p);
    Sorted(GroupLess, GroupSet(E, notes, p))
  }

  function ReasonFor(reasons: map<Id, Reason>, c: Id): Reason
  {
    if c in reasons then reasons[c] else NoClique
  }

  function Defer(left: seq<Id>, reasons: map<Id, Reason>): seq<Deferred>
  {
    seq(|left|, i requires 0 <= i < |left| => Deferred(left[i], ReasonFor(reasons, left[i])))
  }

  ghost function DeferredFrom(vertices: set<Id>, st: Packing): seq<Deferred>
  {
    Defer(SortedIds(vertices - st.taken), st.reasons)
  }

  ghost function DeferredList(E: Edges, notes: map<Id, Note>, p: Params): seq<Deferred>
    requires Graph(E)
  {
    DeferredFrom(Vertices(E), PackingOf(E, notes, p))
  }
}
