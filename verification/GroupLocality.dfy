/**
 Packing is local: restricted to a set of notes that no edge leaves, the groups of the whole are
 the groups of the part. Authors are such sets, because no pair mixes authors.
 */
module GroupLocality {
  import opened Basics
  import opened Order
  import opened Groups
  import opened GroupFacts
  import opened GroupResult
  import opened GroupEdges

  ghost predicate Closed(E: Edges, P: set<Id>)
  {
    forall k <- E :: k.0 in P <==> k.1 in P
  }

  function Part(E: Edges, P: set<Id>): Edges
  {
    map k | k in E && k.0 in P :: E[k]
  }

  ghost predicate SizesAgree(notes: map<Id, Note>, part: map<Id, Note>, P: set<Id>)
  {
    forall c <- P :: Size(notes, c) == Size(part, c)
  }

  /** Two sets agree on the part. */
  ghost predicate AgreeOn(A: set<Id>, B: set<Id>, P: set<Id>)
  {
    forall c <- P :: c in A <==> c in B
  }

  // ---- one clique -----------------------------------------------------------

  lemma PartAdjacent(E: Edges, P: set<Id>, a: Id, b: Id)
    requires Closed(E, P) && b in P
    ensures Adj(E, a, b) <==> Adj(Part(E, P), a, b)
    ensures Adj(E, a, b) ==> a in P && a in Vertices(E) && a in Vertices(Part(E, P))
    ensures Weight(E, a, b) == Weight(Part(E, P), a, b)
  {
    var F := Part(E, P);
    if (a, b) in E { assert (a, b) in F.Keys && (a, b) in E.Keys; }
    if (b, a) in E { assert (b, a) in F.Keys && (b, a) in E.Keys; }
  }

  lemma {:induction false} PartMinWeight(E: Edges, P: set<Id>, c: Id, s: seq<Id>)
    requires Closed(E, P) && s != [] && Elems(s) <= P
    ensures MinWeight(E, c, s) == MinWeight(Part(E, P), c, s)
  {
    var n := |s| - 1;
    assert s[n] in Elems(s);
    PartAdjacent(E, P, c, s[n]);
    if n > 0 {
      assert Elems(s[..n]) <= Elems(s);
      PartMinWeight(E, P, c, s[..n]);
    }
  }

  lemma PartCandidate(E: Edges, P: set<Id>, s: seq<Id>, c: Id)
    requires Closed(E, P) && s != [] && Elems(s) <= P
    ensures c in Vertices(E) && Joins(E, s, c) <==> c in Vertices(Part(E, P)) && Joins(Part(E, P), s, c)
    ensures Joins(E, s, c) ==> c in P
  {
    assert s[0] in Elems(s);
    forall m | m in s ensures m in P && (Adj(E, c, m) <==> Adj(Part(E, P), c, m)) {
      assert m in Elems(s);
      PartAdjacent(E, P, c, m);
    }
    PartAdjacent(E, P, c, s[0]);
    assert s[0] in s;
  }

  lemma PartCandidates(E: Edges, P: set<Id>, s: seq<Id>, out: set<Id>, partOut: set<Id>)
    requires Closed(E, P) && s != [] && Elems(s) <= P && AgreeOn(out, partOut, P)
    ensures Candidates(E, s, out) == Candidates(Part(E, P), s, partOut)
    ensures forall x <- Candidates(E, s, out) :: x.id in P
  {
    var F := Part(E, P);
    forall c ensures c in Vertices(E) && c !in out && Joins(E, s, c)
                     <==> c in Vertices(F) && c !in partOut && Joins(F, s, c)
             ensures Joins(E, s, c) ==> c in P
             ensures MinWeight(E, c, s) == MinWeight(F, c, s)
    {
      PartCandidate(E, P, s, c);
      PartMinWeight(E, P, c, s);
    }
  }

  lemma {:induction false} PartChars(notes: map<Id, Note>, part: map<Id, Note>, P: set<Id>, s: seq<Id>)
    requires SizesAgree(notes, part, P) && Elems(s) <= P
    ensures Chars(notes, s) == Chars(part, s)
  {
    if s != [] {
      var n := |s| - 1;
      assert s[n] in Elems(s) && Elems(s[..n]) <= Elems(s);
      PartChars(notes, part, P, s[..n]);
    }
  }

  lemma {:induction false} PartScan(notes: map<Id, Note>, part: map<Id, Note>, p: Params, P: set<Id>,
                                    s: seq<Id>, cs: seq<Cand>)
    requires SizesAgree(notes, part, P) && Elems(s) <= P && forall x <- cs :: x.id in P
    ensures Scan(notes, p, s, cs) == Scan(part, p, s, cs)
    ensures Ids(Scan(notes, p, s, cs).passed) <= P
  {
    if cs != [] {
      assert cs[0] in cs;
      PartChars(notes, part, P, s);
      PartScan(notes, part, p, P, s, cs[1..]);
    }
  }

  /** The parameters of a part: the same sizes, and a set no edge leaves. */
  ghost predicate IsPart(E: Edges, notes: map<Id, Note>, part: map<Id, Note>, P: set<Id>)
  {
    Graph(E) && Graph(Part(E, P)) && Closed(E, P) && SizesAgree(notes, part, P)
  }

  lemma PartRound(E: Edges, notes: map<Id, Note>, part: map<Id, Note>, p: Params, P: set<Id>,
                  out: set<Id>, partOut: set<Id>, s: seq<Id>)
    requires IsPart(E, notes, part, P) && s != [] && Elems(s) <= P && AgreeOn(out, partOut, P)
    ensures SortedCandidates(E, s, out) == SortedCandidates(Part(E, P), s, partOut)
    ensures var scan := Scan(notes, p, s, SortedCandidates(E, s, out));
      && scan == Scan(part, p, s, SortedCandidates(E, s, out))
      && Ids(scan.passed) <= P
      && (scan.added.Some? ==> scan.added.value in P)
  {
    PartCandidates(E, P, s, out, partOut);
    PartScan(notes, part, p, P, s, SortedCandidates(E, s, out));
  }

  lemma IdsConcat(a: seq<Skip>, b: seq<Skip>)
    ensures Ids(a + b) == Ids(a) + Ids(b)
  {
    assert forall x :: x in a + b <==> x in a || x in b;
  }

  lemma {:induction false} GrowExtends(E: Edges, notes: map<Id, Note>, p: Params, taken: set<Id>,
                                       s: seq<Id>, skipped: set<Id>)
    requires Graph(E) && s != []
    ensures s <= Grow(E, notes, p, taken, s, skipped).members
    decreases |Vertices(E) - Elems(s)|
  {
    var cs := SortedCandidates(E, s, taken + skipped);
    var scan := Scan(notes, p, s, cs);
    if scan.added.Some? {
      AddedIsNew(E, s, taken + skipped, scan.added.value, cs);
      GrowExtends(E, notes, p, taken, s + [scan.added.value], skipped + Ids(scan.passed));
    }
  }

  ghost predicate GrownInside(g: Grown, P: set<Id>)
  {
    Elems(g.members) <= P && Ids(g.log) <= P
  }

  /** One round of both growths makes the same choice. */
  lemma PartStep(E: Edges, notes: map<Id, Note>, part: map<Id, Note>, p: Params, P: set<Id>,
                 taken: set<Id>, partTaken: set<Id>, s: seq<Id>,
                 skipped: set<Id>, partSkipped: set<Id>, scan: Scanned)
    requires IsPart(E, notes, part, P) && s != [] && Elems(s) <= P
    requires AgreeOn(taken, partTaken, P) && AgreeOn(skipped, partSkipped, P)
    requires scan == Scan(notes, p, s, SortedCandidates(E, s, taken + skipped))
    ensures scan == Scan(part, p, s, SortedCandidates(Part(E, P), s, partTaken + partSkipped))
    ensures Ids(scan.passed) <= P
    ensures AgreeOn(skipped + Ids(scan.passed), partSkipped + Ids(scan.passed), P)
    ensures scan.added.Some? ==> scan.added.value in P
  {
    assert AgreeOn(taken + skipped, partTaken + partSkipped, P);
    PartRound(E, notes, part, p, P, taken + skipped, partTaken + partSkipped, s);
  }

  lemma RoundShrinks(E: Edges, notes: map<Id, Note>, p: Params, s: seq<Id>, out: set<Id>, scan: Scanned)
    requires Graph(E) && s != []
    requires scan == Scan(notes, p, s, SortedCandidates(E, s, out)) && scan.added.Some?
    ensures Elems(s + [scan.added.value]) == Elems(s) + {scan.added.value}
    ensures |Vertices(E) - Elems(s + [scan.added.value])| < |Vertices(E) - Elems(s)|
  {
    AddedIsNew(E, s, out, scan.added.value, SortedCandidates(E, s, out));
  }

  lemma {:induction false} PartGrow(E: Edges, notes: map<Id, Note>, part: map<Id, Note>, p: Params, P: set<Id>,
                                    taken: set<Id>, partTaken: set<Id>, s: seq<Id>,
                                    skipped: set<Id>, partSkipped: set<Id>)
    requires IsPart(E, notes, part, P) && s != [] && Elems(s) <= P
    requires AgreeOn(taken, partTaken, P) && AgreeOn(skipped, partSkipped, P)
    ensures Grow(E, notes, p, taken, s, skipped) == Grow(Part(E, P), part, p, partTaken, s, partSkipped)
    ensures GrownInside(Grow(E, notes, p, taken, s, skipped), P)
    decreases |Vertices(E) - Elems(s)|
  {
    var scan := Scan(notes, p, s, SortedCandidates(E, s, taken + skipped));
    PartStep(E, notes, part, p, P, taken, partTaken, s, skipped, partSkipped, scan);
    if scan.added.Some? {
      RoundShrinks(E, notes, p, s, taken + skipped, scan);
      var more := s + [scan.added.value];
      var out, partOut := skipped + Ids(scan.passed), partSkipped + Ids(scan.passed);
      PartGrow(E, notes, part, p, P, taken, partTaken, more, out, partOut);
      IdsConcat(scan.passed, Grow(E, notes, p, taken, more, out).log);
    }
  }

  // ---- the packing ----------------------------------------------------------

  ghost predicate ReasonsAgree(r: map<Id, Reason>, q: map<Id, Reason>, P: set<Id>)
  {
    forall c <- P :: (c in r <==> c in q) && (c in r ==> r[c] == q[c])
  }

  lemma {:induction false} RecordInside(r: map<Id, Reason>, q: map<Id, Reason>, P: set<Id>, log: seq<Skip>)
    requires ReasonsAgree(r, q, P)
    ensures ReasonsAgree(Record(r, log), Record(q, log), P)
    decreases |log|
  {
    if log != [] {
      RecordInside(SetDefault(r, log[0].id, log[0].reason), SetDefault(q, log[0].id, log[0].reason), P, log[1..]);
    }
  }

  lemma {:induction false} RecordOutside(r: map<Id, Reason>, P: set<Id>, log: seq<Skip>)
    requires Ids(log) !! P
    ensures ReasonsAgree(Record(r, log), r, P)
    decreases |log|
  {
    if log != [] {
      assert log[0] in log && Ids(log[1..]) <= Ids(log);
      assert log[0].id in Ids(log);
      RecordOutside(SetDefault(r, log[0].id, log[0].reason), P, log[1..]);
    }
  }

  predicate LeadIn(P: set<Id>, s: seq<Id>)
  {
    s != [] && s[0] in P
  }

  /** The part's packing is what the whole packing did inside the part. */
  ghost predicate PackedPart(whole: Packing, part: Packing, P: set<Id>)
  {
    && AgreeOn(whole.taken, part.taken, P)
    && part.packs == Filtered((s: seq<Id>) => LeadIn(P, s), whole.packs)
    && ReasonsAgree(whole.reasons, part.reasons, P)
  }

  lemma PackEdgeInside(E: Edges, notes: map<Id, Note>, part: map<Id, Note>, p: Params, P: set<Id>,
                       st: Packing, sp: Packing, e: Edge)
    requires IsPart(E, notes, part, P) && PackedPart(st, sp, P)
    requires e.a in P && e.b in P
    ensures PackedPart(PackEdge(E, notes, p, st, e), PackEdge(Part(E, P), part, p, sp, e), P)
  {
    if e.a in st.taken || e.b in st.taken {
    } else if Size(notes, e.a) + Size(notes, e.b) > p.maxChars {
      RecordInside(st.reasons, sp.reasons, P, [Skip(e.a, OverChars), Skip(e.b, OverChars)]);
    } else {
      assert Elems([e.a, e.b]) == {e.a, e.b};
      PartGrow(E, notes, part, p, P, st.taken, sp.taken, [e.a, e.b], {}, {});
      GrowExtends(E, notes, p, st.taken, [e.a, e.b], {});
      var g := Grow(E, notes, p, st.taken, [e.a, e.b], {});
      FilteredAppend((s: seq<Id>) => LeadIn(P, s), st.packs, g.members);
      RecordInside(st.reasons, sp.reasons, P, g.log);
    }
  }

  lemma PackEdgeOutside(E: Edges, notes: map<Id, Note>, p: Params, P: set<Id>,
                        st: Packing, sp: Packing, e: Edge)
    requires Graph(E) && Closed(E, P) && PackedPart(st, sp, P)
    requires e in EdgeSet(E) && e.a !in P && e.b !in P
    ensures PackedPart(PackEdge(E, notes, p, st, e), sp, P)
  {
    if e.a in st.taken || e.b in st.taken {
    } else if Size(notes, e.a) + Size(notes, e.b) > p.maxChars {
      RecordOutside(st.reasons, P, [Skip(e.a, OverChars), Skip(e.b, OverChars)]);
    } else {
      EdgeEndsAre(E, e);
      GrowOutside(E, notes, p, P, st.taken, e.a, e.b);
      AddOutside(P, st, sp, Grow(E, notes, p, st.taken, [e.a, e.b], {}));
    }
  }

  /** A growth that starts outside stays outside. */
  lemma GrowOutside(E: Edges, notes: map<Id, Note>, p: Params, P: set<Id>, taken: set<Id>, a: Id, b: Id)
    requires Graph(E) && Closed(E, P) && {a, b} <= Vertices(E) - P
    ensures var g := Grow(E, notes, p, taken, [a, b], {});
      Ids(g.log) !! P && Elems(g.members) !! P
  {
    assert Elems([a, b]) == {a, b};
    OtherPart(E, notes, P);
    PartGrow(E, notes, notes, p, Vertices(E) - P, taken, taken, [a, b], {}, {});
  }

  lemma AddOutside(P: set<Id>, st: Packing, sp: Packing, g: Grown)
    requires PackedPart(st, sp, P) && Ids(g.log) !! P && Elems(g.members) !! P
    ensures PackedPart(Packing(st.taken + Elems(g.members), st.packs + [g.members], Record(st.reasons, g.log)), sp, P)
  {
    if g.members != [] {
      assert g.members[0] in Elems(g.members);
    }
    FilteredAppend((s: seq<Id>) => LeadIn(P, s), st.packs, g.members);
    RecordOutside(st.reasons, P, g.log);
  }

  lemma OtherPart(E: Edges, notes: map<Id, Note>, P: set<Id>)
    requires Graph(E) && Closed(E, P)
    ensures IsPart(E, notes, notes, Vertices(E) - P)
  {
    forall k | k in E ensures k.0 in Vertices(E) && k.1 in Vertices(E) {
      assert k in E.Keys;
    }
  }

  lemma EdgeEndsAre(E: Edges, e: Edge)
    requires e in EdgeSet(E)
    ensures e.a in Vertices(E) && e.b in Vertices(E) && (e.a, e.b) in E
  {
    assert (e.a, e.b) in E.Keys;
  }

  lemma {:induction false} PartPack(E: Edges, notes: map<Id, Note>, part: map<Id, Note>, p: Params, P: set<Id>,
                                    edges: seq<Edge>)
    requires IsPart(E, notes, part, P) && forall e <- edges :: e in EdgeSet(E)
    ensures PackedPart(PackAll(E, notes, p, edges),
                       PackAll(Part(E, P), part, p, Filtered((e: Edge) => e.a in P, edges)), P)
  {
    if edges != [] {
      var n := |edges| - 1;
      var keep := (e: Edge) => e.a in P;
      PartPack(E, notes, part, p, P, edges[..n]);
      PackAllStep(E, notes, p, edges, n);
      FilteredAppend(keep, edges[..n], edges[n]);
      EdgeEndsAre(E, edges[n]);
      var st := PackAll(E, notes, p, edges[..n]);
      var less := Filtered(keep, edges[..n]);
      var sp := PackAll(Part(E, P), part, p, less);
      if edges[n].a in P {
        PackEdgeInside(E, notes, part, p, P, st, sp, edges[n]);
        assert (less + [edges[n]])[..|less|] == less;
      } else {
        PackEdgeOutside(E, notes, p, P, st, sp, edges[n]);
        assert less + [] == less;
      }
    }
  }

  lemma PartOrderedEdges(E: Edges, P: set<Id>)
    ensures OrderedEdges(Part(E, P)) == Filtered((e: Edge) => e.a in P, OrderedEdges(E))
  {
    EdgesOrdered(EdgeSet(E));
    var F := Part(E, P);
    forall e ensures e in EdgeSet(F) <==> e in EdgeSet(E) && e.a in P {
      if e in EdgeSet(F) {
        assert (e.a, e.b) in F.Keys;
        assert (e.a, e.b) in E.Keys;
      }
      if e in EdgeSet(E) && e.a in P {
        assert (e.a, e.b) in E.Keys;
        assert (e.a, e.b) in F.Keys;
      }
    }
    SortedFiltered(EdgeLess, (e: Edge) => e.a in P, EdgeSet(E), EdgeSet(F));
  }

  lemma PartPacking(E: Edges, notes: map<Id, Note>, part: map<Id, Note>, p: Params, P: set<Id>)
    requires IsPart(E, notes, part, P)
    ensures PackedPart(PackingOf(E, notes, p), PackingOf(Part(E, P), part, p), P)
  {
    PartOrderedEdges(E, P);
    PartPack(E, notes, part, p, P, OrderedEdges(E));
  }

  // ---- the groups -----------------------------------------------------------

  lemma {:induction false} PartRowScores(E: Edges, P: set<Id>, a: Id, s: seq<Id>)
    requires Closed(E, P) && Elems(s) <= P
    ensures RowScores(E, a, s) == RowScores(Part(E, P), a, s)
  {
    if s != [] {
      assert s[0] in Elems(s) && Elems(s[1..]) <= Elems(s);
      PartAdjacent(E, P, a, s[0]);
      PartRowScores(E, P, a, s[1..]);
    }
  }

  lemma {:induction false} PartAllScores(E: Edges, P: set<Id>, s: seq<Id>)
    requires Closed(E, P) && Elems(s) <= P
    ensures AllScores(E, s) == AllScores(Part(E, P), s)
  {
    if s != [] {
      assert Elems(s[1..]) <= Elems(s);
      PartRowScores(E, P, s[0], s[1..]);
      PartAllScores(E, P, s[1..]);
    }
  }

  lemma PartGroup(E: Edges, P: set<Id>, pack: seq<Id>)
    requires Closed(E, P) && Elems(pack) <= P && |Elems(pack)| >= 2
    ensures GroupOf(E, pack) == GroupOf(Part(E, P), pack)
  {
    assert Elems(SortedIds(Elems(pack))) == Elems(pack);
    PartAllScores(E, P, SortedIds(Elems(pack)));
  }

  predicate GroupIn(P: set<Id>, g: Group)
  {
    g.members != [] && g.members[0] in P
  }

  /** A clique lies on one side of a closed set. */
  lemma CliqueSide(E: Edges, P: set<Id>, s: seq<Id>)
    requires Closed(E, P) && Clique(E, s) && s != []
    ensures s[0] in P ==> Elems(s) <= P
    ensures s[0] !in P ==> Elems(s) !! P
  {
    forall c | c in s ensures c in P <==> s[0] in P {
      var i :| 0 <= i < |s| && s[i] == c;
      if i > 0 {
        assert Adj(E, s[0], s[i]);
      }
    }
  }

  lemma PackSide(E: Edges, notes: map<Id, Note>, p: Params, P: set<Id>, i: nat)
    requires Graph(E) && Closed(E, P) && p.maxGroup >= 2 && i < |PackingOf(E, notes, p).packs|
    ensures var pack := PackingOf(E, notes, p).packs[i];
      && (LeadIn(P, pack) ==> Elems(pack) <= P)
      && (LeadIn(P, pack) <==> GroupIn(P, GroupAt(E, notes, p, i)))
  {
    PackAllFacts(E, notes, p, OrderedEdges(E));
    PacksAreSound(E, notes, p, i);
    var pack := PackingOf(E, notes, p).packs[i];
    CliqueSide(E, P, pack);
    var g := GroupAt(E, notes, p, i);
    assert g.members[0] in Elems(g.members) && pack[0] in Elems(pack);
  }

  lemma InsidePackIsParts(E: Edges, notes: map<Id, Note>, part: map<Id, Note>, p: Params, P: set<Id>, i: nat)
    returns (j: nat)
    requires IsPart(E, notes, part, P) && p.maxGroup >= 2 && i < |PackingOf(E, notes, p).packs|
    requires LeadIn(P, PackingOf(E, notes, p).packs[i])
    ensures j < |PackingOf(Part(E, P), part, p).packs|
    ensures PackingOf(Part(E, P), part, p).packs[j] == PackingOf(E, notes, p).packs[i]
  {
    PartPacking(E, notes, part, p, P);
    var pack := PackingOf(E, notes, p).packs[i];
    var parts := PackingOf(Part(E, P), part, p).packs;
    assert pack in parts;
    j :| 0 <= j < |parts| && parts[j] == pack;
  }

  lemma WholeGroupInPart(E: Edges, notes: map<Id, Note>, part: map<Id, Note>, p: Params, P: set<Id>, g: Group)
    requires IsPart(E, notes, part, P) && p.maxGroup >= 2
    requires g in GroupSet(E, notes, p) && GroupIn(P, g)
    ensures g in GroupSet(Part(E, P), part, p)
  {
    var i := InSetIsAt(E, notes, p, g);
    PackSide(E, notes, p, P, i);
    PacksAreSound(E, notes, p, i);
    var j := InsidePackIsParts(E, notes, part, p, P, i);
    PartGroup(E, P, PackingOf(E, notes, p).packs[i]);
  }

  lemma PartGroupInWhole(E: Edges, notes: map<Id, Note>, part: map<Id, Note>, p: Params, P: set<Id>, g: Group)
    requires IsPart(E, notes, part, P) && p.maxGroup >= 2
    requires g in GroupSet(Part(E, P), part, p)
    ensures g in GroupSet(E, notes, p) && GroupIn(P, g)
  {
    var j := InSetIsAt(Part(E, P), part, p, g);
    var i := WholePackOf(E, notes, part, p, P, j);
    var pack := PackingOf(E, notes, p).packs[i];
    PackSide(E, notes, p, P, i);
    PacksAreSound(E, notes, p, i);
    PartGroup(E, P, pack);
  }

  lemma WholePackOf(E: Edges, notes: map<Id, Note>, part: map<Id, Note>, p: Params, P: set<Id>, j: nat)
    returns (i: nat)
    requires IsPart(E, notes, part, P) && j < |PackingOf(Part(E, P), part, p).packs|
    ensures i < |PackingOf(E, notes, p).packs|
    ensures PackingOf(E, notes, p).packs[i] == PackingOf(Part(E, P), part, p).packs[j]
    ensures LeadIn(P, PackingOf(E, notes, p).packs[i])
  {
    PartPacking(E, notes, part, p, P);
    var packs := PackingOf(E, notes, p).packs;
    var pack := PackingOf(Part(E, P), part, p).packs[j];
    assert pack in packs && LeadIn(P, pack);
    i :| 0 <= i < |packs| && packs[i] == pack;
  }

  /** The groups of a part are the whole's groups that lie in it, in the same order. */
  lemma PartGroups(E: Edges, notes: map<Id, Note>, part: map<Id, Note>, p: Params, P: set<Id>)
    requires IsPart(E, notes, part, P) && p.maxGroup >= 2
    ensures GroupList(Part(E, P), part, p) == Filtered((g: Group) => GroupIn(P, g), GroupList(E, notes, p))
  {
    GroupSetOrdered(E, notes, p);
    forall g ensures g in GroupSet(Part(E, P), part, p) <==> g in GroupSet(E, notes, p) && GroupIn(P, g) {
      if g in GroupSet(E, notes, p) && GroupIn(P, g) { WholeGroupInPart(E, notes, part, p, P, g); }
      if g in GroupSet(Part(E, P), part, p) { PartGroupInWhole(E, notes, part, p, P, g); }
    }
    SortedFiltered(GroupLess, (g: Group) => GroupIn(P, g), GroupSet(E, notes, p), GroupSet(Part(E, P), part, p));
  }

  lemma {:induction false} PartDefer(left: seq<Id>, r: map<Id, Reason>, q: map<Id, Reason>, P: set<Id>)
    requires ReasonsAgree(r, q, P)
    ensures Filtered((d: Deferred) => d.id in P, Defer(left, r)) == Defer(Filtered((c: Id) => c in P, left), q)
  {
    if left != [] {
      PartDefer(left[1..], r, q, P);
      assert Defer(left, r)[1..] == Defer(left[1..], r);
      var rest := Filtered((c: Id) => c in P, left[1..]);
      assert Defer([left[0]] + rest, q) == Defer([left[0]], q) + Defer(rest, q);
    }
  }

  lemma PartVertices(E: Edges, P: set<Id>, c: Id)
    requires Closed(E, P)
    ensures c in Vertices(Part(E, P)) <==> c in Vertices(E) && c in P
  {
    var F := Part(E, P);
    if c in Vertices(F) {
      var k :| k in F.Keys && (k.0 == c || k.1 == c);
      assert k in E.Keys;
    }
    if c in Vertices(E) && c in P {
      var k :| k in E.Keys && (k.0 == c || k.1 == c);
      assert k in F.Keys;
    }
  }

  /** The deferrals of a part are the whole's deferrals that lie in it, with the same reasons. */
  lemma PartDeferred(E: Edges, notes: map<Id, Note>, part: map<Id, Note>, p: Params, P: set<Id>)
    requires IsPart(E, notes, part, P)
    ensures DeferredList(Part(E, P), part, p) == Filtered((d: Deferred) => d.id in P, DeferredList(E, notes, p))
  {
    PartPacking(E, notes, part, p, P);
    var st, sp := PackingOf(E, notes, p), PackingOf(Part(E, P), part, p);
    PartLeft(E, P, st.taken, sp.taken);
    PartDefer(SortedIds(Vertices(E) - st.taken), st.reasons, sp.reasons, P);
  }

  lemma PartLeft(E: Edges, P: set<Id>, taken: set<Id>, partTaken: set<Id>)
    requires Closed(E, P) && AgreeOn(taken, partTaken, P)
    ensures SortedIds(Vertices(Part(E, P)) - partTaken)
            == Filtered((c: Id) => c in P, SortedIds(Vertices(E) - taken))
  {
    var whole, part := Vertices(E) - taken, Vertices(Part(E, P)) - partTaken;
    forall c ensures c in part <==> c in whole && c in P {
      PartVertices(E, P, c);
    }
    IdsOrdered(whole);
    SortedFiltered(Before, (c: Id) => c in P, whole, part);
  }

  // ---- authors --------------------------------------------------------------

  /** No pair mixes authors. */
  ghost predicate OneAuthorPairs(pairs: seq<Pair>, notes: map<Id, Note>)
    requires EndsKnown(pairs, notes)
  {
    forall q <- pairs :: notes[q.a].author == notes[q.b].author
  }

  function ByAuthor(notes: map<Id, Note>, author: string): map<Id, Note>
  {
    map c | c in notes && notes[c].author == author :: notes[c]
  }

  /** `own` lists, in any order, exactly the pairs of one author. */
  ghost predicate PairsOf(own: seq<Pair>, pairs: seq<Pair>, notes: map<Id, Note>, author: string)
    requires EndsKnown(pairs, notes)
  {
    forall q :: q in own <==> q in pairs && notes[q.a].author == author
  }

  ghost predicate AuthorPart(own: seq<Pair>, pairs: seq<Pair>, notes: map<Id, Note>, author: string)
  {
    && EndsKnown(pairs, notes) && OneAuthorPairs(pairs, notes)
    && PairsOf(own, pairs, notes, author) && EndsKnown(own, ByAuthor(notes, author))
  }

  lemma OwnEdgeInWhole(own: seq<Pair>, pairs: seq<Pair>, notes: map<Id, Note>, author: string, t: real, k: (Id, Id))
    requires AuthorPart(own, pairs, notes, author)
    requires k in EdgesOf(own, ByAuthor(notes, author), t)
    ensures k in EdgesOf(pairs, notes, t) && k.0 in ByAuthor(notes, author)
    ensures EdgesOf(own, ByAuthor(notes, author), t)[k] <= EdgesOf(pairs, notes, t)[k]
  {
    var mine := ByAuthor(notes, author);
    EdgesAreBest(own, mine, t);
    EdgesAreBest(pairs, notes, t);
    var q :| q in own && Qualifies(q, mine, t) && Key(q.a, q.b) == k && q.score == EdgesOf(own, mine, t)[k];
  }

  lemma WholeEdgeInOwn(own: seq<Pair>, pairs: seq<Pair>, notes: map<Id, Note>, author: string, t: real, k: (Id, Id))
    requires AuthorPart(own, pairs, notes, author)
    requires k in EdgesOf(pairs, notes, t) && k.0 in ByAuthor(notes, author)
    ensures k in EdgesOf(own, ByAuthor(notes, author), t)
    ensures EdgesOf(pairs, notes, t)[k] <= EdgesOf(own, ByAuthor(notes, author), t)[k]
  {
    var mine := ByAuthor(notes, author);
    EdgesAreBest(own, mine, t);
    EdgesAreBest(pairs, notes, t);
    var q :| q in pairs && Qualifies(q, notes, t) && Key(q.a, q.b) == k && q.score == EdgesOf(pairs, notes, t)[k];
  }

  lemma OwnEdges(own: seq<Pair>, pairs: seq<Pair>, notes: map<Id, Note>, author: string, t: real)
    requires AuthorPart(own, pairs, notes, author)
    ensures EdgesOf(own, ByAuthor(notes, author), t) == Part(EdgesOf(pairs, notes, t), ByAuthor(notes, author).Keys)
  {
    var P := ByAuthor(notes, author).Keys;
    forall k | k in EdgesOf(own, ByAuthor(notes, author), t)
      ensures k in Part(EdgesOf(pairs, notes, t), P)
      ensures EdgesOf(own, ByAuthor(notes, author), t)[k] <= Part(EdgesOf(pairs, notes, t), P)[k]
    {
      OwnEdgeInWhole(own, pairs, notes, author, t, k);
    }
    forall k | k in Part(EdgesOf(pairs, notes, t), P)
      ensures k in EdgesOf(own, ByAuthor(notes, author), t)
      ensures Part(EdgesOf(pairs, notes, t), P)[k] <= EdgesOf(own, ByAuthor(notes, author), t)[k]
    {
      WholeEdgeInOwn(own, pairs, notes, author, t, k);
    }
  }

  lemma AuthorsAreClosed(pairs: seq<Pair>, notes: map<Id, Note>, author: string, t: real)
    requires EndsKnown(pairs, notes) && OneAuthorPairs(pairs, notes)
    ensures Closed(EdgesOf(pairs, notes, t), ByAuthor(notes, author).Keys)
  {
    EdgesAreBest(pairs, notes, t);
    var E := EdgesOf(pairs, notes, t);
    forall k | k in E ensures k.0 in ByAuthor(notes, author) <==> k.1 in ByAuthor(notes, author) {
      var q :| q in pairs && Qualifies(q, notes, t) && Key(q.a, q.b) == k && q.score == E[k];
    }
  }

  /**
   Grouping over every author, restricted to one author, is grouping over that author's pairs
   alone: the same groups with the same scores in the same order, and the same deferrals.
   */
  lemma GroupingIsLocalToAuthors(own: seq<Pair>, pairs: seq<Pair>, notes: map<Id, Note>, author: string, p: Params)
    requires AuthorPart(own, pairs, notes, author) && p.maxGroup >= 2
    ensures var P := ByAuthor(notes, author).Keys;
      var whole := BuildGroups(pairs, notes, p);
      BuildGroups(own, ByAuthor(notes, author), p)
      == Built(Filtered((g: Group) => GroupIn(P, g), whole.groups),
               Filtered((d: Deferred) => d.id in P, whole.deferred))
  {
    var t := p.threshold;
    var mine := ByAuthor(notes, author);
    EdgesAreSound(pairs, notes, t);
    EdgesAreSound(own, mine, t);
    OwnEdges(own, pairs, notes, author, t);
    AuthorsAreClosed(pairs, notes, author, t);
    var E := EdgesOf(pairs, notes, t);
    assert IsPart(E, notes, mine, mine.Keys);
    PartGroups(E, notes, mine, p, mine.Keys);
    PartDeferred(E, notes, mine, p, mine.Keys);
  }
}
