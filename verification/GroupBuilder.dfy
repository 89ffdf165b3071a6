/** The loops of `build_groups`, proved to compute its reference definition. */
module GroupBuilder {
  import opened Basics
  import opened Order
  import opened Groups
  import opened GroupFacts
  import opened GroupResult
  import opened GroupEdges

  type Neighbours = map<Id, set<Id>>

  method CollectEdges(pairs: seq<Pair>, notes: map<Id, Note>, threshold: real) returns (edges: Edges)
    requires EndsKnown(pairs, notes)
    ensures edges == EdgesOf(pairs, notes, threshold)
  {
    edges := map[];
    for i := 0 to |pairs|
      invariant EndsKnown(pairs[..i], notes)
      invariant edges == EdgesOf(pairs[..i], notes, threshold)
    {
      var pair := pairs[i];
      if Qualifies(pair, notes, threshold) {
        var key := Key(pair.a, pair.b);
        edges := edges[key := if key in edges && edges[key] > pair.score then edges[key] else pair.score];
      }
      assert pairs[..i + 1][..i] == pairs[..i];
    }
    assert pairs[..|pairs|] == pairs;
  }

  /** The other ends of the keys that name c. */
  function Partners(keys: set<(Id, Id)>, c: Id): set<Id>
  {
    (set k <- keys | k.0 == c :: k.1) + (set k <- keys | k.1 == c :: k.0)
  }

  lemma PartnersStep(keys: set<(Id, Id)>, key: (Id, Id), c: Id)
    ensures Partners(keys + {key}, c)
            == Partners(keys, c) + (if c == key.0 then {key.1} else {}) + (if c == key.1 then {key.0} else {})
  {
  }

  lemma EndsStep(keys: set<(Id, Id)>, key: (Id, Id))
    ensures Ends(keys + {key}) == Ends(keys) + {key.0, key.1}
  {
  }

  function Listed(near: Neighbours, a: Id): set<Id>
  {
    if a in near then near[a] else {}
  }

  function Linked(near: Neighbours, a: Id, b: Id): Neighbours
  {
    near[a := Listed(near, a) + {b}]
  }

  ghost predicate NearOf(near: Neighbours, keys: set<(Id, Id)>)
  {
    near.Keys == Ends(keys) && forall c :: Listed(near, c) == Partners(keys, c)
  }

  lemma LinkedNearOf(near: Neighbours, keys: set<(Id, Id)>, key: (Id, Id))
    requires NearOf(near, keys)
    ensures NearOf(Linked(Linked(near, key.0, key.1), key.1, key.0), keys + {key})
  {
    EndsStep(keys, key);
    var next := Linked(Linked(near, key.0, key.1), key.1, key.0);
    forall c ensures Listed(next, c) == Partners(keys + {key}, c) {
      PartnersStep(keys, key, c);
      assert Listed(near, c) == Partners(keys, c);
    }
  }

  method CollectNeighbours(edges: Edges) returns (near: Neighbours)
    ensures NearOf(near, edges.Keys)
  {
    near := map[];
    var todo := edges.Keys;
    assert edges.Keys - todo == {};
    while todo != {}
      invariant todo <= edges.Keys
      invariant NearOf(near, edges.Keys - todo)
      decreases todo
    {
      var key :| key in todo;
      LinkedNearOf(near, edges.Keys - todo, key);
      near := Linked(near, key.0, key.1);
      near := Linked(near, key.1, key.0);
      assert edges.Keys - (todo - {key}) == (edges.Keys - todo) + {key};
      todo := todo - {key};
    }
    assert edges.Keys - todo == edges.Keys;
  }

  lemma NearIsAdjacent(edges: Edges, near: Neighbours, m: Id, c: Id)
    requires NearOf(near, edges.Keys)
    ensures c in Listed(near, m) <==> Adj(edges, c, m)
    ensures Adj(edges, c, m) ==> c in Vertices(edges)
  {
  }

  /** The notes adjacent to every member. */
  method Common(edges: Edges, near: Neighbours, members: seq<Id>) returns (common: set<Id>)
    requires NearOf(near, edges.Keys) && members != []
    requires forall m <- members :: m in near
    ensures forall c :: c in common <==> c in Vertices(edges) && Joins(edges, members, c)
  {
    assert members[0] in members;
    common := near[members[0]];
    forall c ensures c in common <==> c in Vertices(edges) && Joins(edges, members[..1], c) {
      NearIsAdjacent(edges, near, members[0], c);
      assert members[..1] == [members[0]];
      assert members[0] in members[..1];
    }
    for i := 1 to |members|
      invariant forall c :: c in common <==> c in Vertices(edges) && Joins(edges, members[..i], c)
    {
      assert members[i] in members;
      ghost var before := common;
      common := common * near[members[i]];
      forall c ensures c in common <==> c in Vertices(edges) && Joins(edges, members[..i + 1], c) {
        NearIsAdjacent(edges, near, members[i], c);
        JoinsOneMore(edges, members, i, c);
      }
    }
    assert members[..|members|] == members;
  }

  lemma JoinsOneMore(edges: Edges, members: seq<Id>, i: nat, c: Id)
    requires i < |members|
    ensures Joins(edges, members[..i + 1], c) <==> Joins(edges, members[..i], c) && Adj(edges, c, members[i])
  {
  }

  /** What the scan still has to do from here is what it had to do at the start. */
  ghost predicate Pending(whole: Scanned, reasons0: map<Id, Reason>, skipped0: set<Id>,
                          rest: Scanned, reasons: map<Id, Reason>, skipped: set<Id>)
  {
    && whole.added == rest.added
    && Record(reasons0, whole.passed) == Record(reasons, rest.passed)
    && skipped0 + Ids(whole.passed) == skipped + Ids(rest.passed)
  }

  lemma PendingStep(notes: map<Id, Note>, p: Params, members: seq<Id>, cs: seq<Cand>, i: nat, reason: Reason,
                    whole: Scanned, reasons0: map<Id, Reason>, skipped0: set<Id>,
                    reasons: map<Id, Reason>, skipped: set<Id>)
    requires i < |cs| && Blocked(notes, p, members, cs[i].id) == Some(reason)
    requires Pending(whole, reasons0, skipped0, Scan(notes, p, members, cs[i..]), reasons, skipped)
    ensures Pending(whole, reasons0, skipped0, Scan(notes, p, members, cs[i + 1..]),
                    SetDefault(reasons, cs[i].id, reason), skipped + {cs[i].id})
  {
  }

  /** One pass over the sorted candidates: skips the blocked ones, stops at the first that fits. */
  method PickCandidate(notes: map<Id, Note>, p: Params, members: seq<Id>, chars: nat, cs: seq<Cand>,
                       reasons0: map<Id, Reason>, skipped0: set<Id>)
    returns (added: Option<Id>, reasons: map<Id, Reason>, skipped: set<Id>)
    requires chars == Chars(notes, members) && forall c <- cs :: c.id in notes
    ensures var scan := Scan(notes, p, members, cs);
      && added == scan.added
      && reasons == Record(reasons0, scan.passed)
      && skipped == skipped0 + Ids(scan.passed)
  {
    reasons, skipped := reasons0, skipped0;
    ghost var whole := Scan(notes, p, members, cs);
    assert cs[0..] == cs;
    for i := 0 to |cs|
      invariant Pending(whole, reasons0, skipped0, Scan(notes, p, members, cs[i..]), reasons, skipped)
    {
      var candidate := cs[i].id;
      assert cs[i] in cs;
      if |members| >= p.maxGroup {
        PendingStep(notes, p, members, cs, i, OverGroup, whole, reasons0, skipped0, reasons, skipped);
        reasons := SetDefault(reasons, candidate, OverGroup);
        skipped := skipped + {candidate};
      } else if chars + |notes[candidate].text| > p.maxChars {
        PendingStep(notes, p, members, cs, i, OverChars, whole, reasons0, skipped0, reasons, skipped);
        reasons := SetDefault(reasons, candidate, OverChars);
        skipped := skipped + {candidate};
      } else {
        return Some(candidate), reasons, skipped;
      }
    }
    return None, reasons, skipped;
  }

  lemma {:induction false} RecordTwice(reasons: map<Id, Reason>, first: seq<Skip>, second: seq<Skip>)
    ensures Record(Record(reasons, first), second) == Record(reasons, first + second)
    decreases |first|
  {
    if first == [] {
      assert first + second == second;
    } else {
      RecordTwice(SetDefault(reasons, first[0].id, first[0].reason), first[1..], second);
      assert (first + second)[1..] == first[1..] + second;
    }
  }

  /** One round: the candidates of the current members, sorted and scanned. */
  method Round(edges: Edges, near: Neighbours, notes: map<Id, Note>, p: Params, taken: set<Id>,
               members: seq<Id>, chars: nat, reasons0: map<Id, Reason>, skipped0: set<Id>)
    returns (added: Option<Id>, reasons: map<Id, Reason>, skipped: set<Id>)
    requires NearOf(near, edges.Keys) && Vertices(edges) <= notes.Keys
    requires members != [] && (forall m <- members :: m in near) && chars == Chars(notes, members)
    ensures var scan := Scan(notes, p, members, SortedCandidates(edges, members, taken + skipped0));
      && added == scan.added
      && reasons == Record(reasons0, scan.passed)
      && skipped == skipped0 + Ids(scan.passed)
  {
    var common := Common(edges, near, members);
    var cands := set c <- common | c !in taken && c !in skipped0 :: Cand(MinWeight(edges, c, members), c);
    assert cands == Candidates(edges, members, taken + skipped0);
    CandsOrdered(cands);
    var cs := Sort(CandLess, cands);
    added, reasons, skipped := PickCandidate(notes, p, members, chars, cs, reasons0, skipped0);
  }

  /** Growing from here ends where growing from the start ends. */
  ghost predicate Growing(whole: Grown, reasons0: map<Id, Reason>, rest: Grown, reasons: map<Id, Reason>)
  {
    whole.members == rest.members && Record(reasons0, whole.log) == Record(reasons, rest.log)
  }

  lemma GrowUnrolls(E: Edges, notes: map<Id, Note>, p: Params, taken: set<Id>,
                    members: seq<Id>, skipped: set<Id>, scan: Scanned,
                    whole: Grown, reasons0: map<Id, Reason>, reasons: map<Id, Reason>)
    requires Graph(E) && members != []
    requires scan == Scan(notes, p, members, SortedCandidates(E, members, taken + skipped))
    requires Growing(whole, reasons0, Grow(E, notes, p, taken, members, skipped), reasons)
    ensures scan.added.None? ==> whole.members == members && Record(reasons0, whole.log) == Record(reasons, scan.passed)
    ensures scan.added.Some? ==>
              var c := scan.added.value;
              && c in Vertices(E)
              && |Vertices(E) - Elems(members + [c])| < |Vertices(E) - Elems(members)|
              && Growing(whole, reasons0, Grow(E, notes, p, taken, members + [c], skipped + Ids(scan.passed)),
                         Record(reasons, scan.passed))
  {
    if scan.added.Some? {
      var c := scan.added.value;
      AddedIsNew(E, members, taken + skipped, c, SortedCandidates(E, members, taken + skipped));
      var next := Grow(E, notes, p, taken, members + [c], skipped + Ids(scan.passed));
      RecordTwice(reasons, scan.passed, next.log);
    }
  }

  /** One round of growing, seen as a step towards what the whole growth ends in. */
  method GrowOnce(edges: Edges, near: Neighbours, notes: map<Id, Note>, p: Params, taken: set<Id>,
                  members: seq<Id>, chars: nat, ghost whole: Grown, ghost first: map<Id, Reason>,
                  reasons0: map<Id, Reason>, skipped0: set<Id>)
    returns (added: Option<Id>, reasons: map<Id, Reason>, skipped: set<Id>)
    requires Graph(edges) && NearOf(near, edges.Keys) && Vertices(edges) <= notes.Keys
    requires KnownClique(near, notes, members, chars)
    requires Growing(whole, first, Grow(edges, notes, p, taken, members, skipped0), reasons0)
    ensures added.None? ==> members == whole.members && reasons == Record(first, whole.log)
    ensures added.Some? ==>
              var c := added.value;
              && c in Vertices(edges)
              && |Vertices(edges) - Elems(members + [c])| < |Vertices(edges) - Elems(members)|
              && Growing(whole, first, Grow(edges, notes, p, taken, members + [c], skipped), reasons)
  {
    ghost var scan := Scan(notes, p, members, SortedCandidates(edges, members, taken + skipped0));
    GrowUnrolls(edges, notes, p, taken, members, skipped0, scan, whole, first, reasons0);
    added, reasons, skipped := Round(edges, near, notes, p, taken, members, chars, reasons0, skipped0);
  }

  method GrowClique(edges: Edges, near: Neighbours, notes: map<Id, Note>, p: Params, taken: set<Id>,
                    a: Id, b: Id, reasons0: map<Id, Reason>)
    returns (members: seq<Id>, reasons: map<Id, Reason>)
    requires Graph(edges) && NearOf(near, edges.Keys) && Vertices(edges) <= notes.Keys
    requires a in near && b in near
    ensures members == Grow(edges, notes, p, taken, [a, b], {}).members
    ensures reasons == Record(reasons0, Grow(edges, notes, p, taken, [a, b], {}).log)
  {
    members := [a, b];
    var chars: nat := |notes[a].text| + |notes[b].text|;
    PairChars(notes, a, b);
    var skipped: set<Id> := {};
    reasons := reasons0;
    ghost var whole := Grow(edges, notes, p, taken, [a, b], {});
    while true
      invariant KnownClique(near, notes, members, chars)
      invariant Growing(whole, reasons0, Grow(edges, notes, p, taken, members, skipped), reasons)
      decreases |Vertices(edges) - Elems(members)|
    {
      var added;
      added, reasons, skipped := GrowOnce(edges, near, notes, p, taken, members, chars, whole, reasons0,
                                          reasons, skipped);
      if added.None? {
        return;
      }
      OneMoreMember(edges, near, notes, members, chars, added.value);
      members := members + [added.value];
      chars := chars + |notes[added.value].text|;
    }
  }

  /** The members found so far are known notes, and `chars` is their size. */
  ghost predicate KnownClique(near: Neighbours, notes: map<Id, Note>, members: seq<Id>, chars: nat)
  {
    members != [] && (forall m <- members :: m in near) && chars == Chars(notes, members)
  }

  lemma OneMoreMember(edges: Edges, near: Neighbours, notes: map<Id, Note>, members: seq<Id>, chars: nat, c: Id)
    requires Graph(edges) && NearOf(near, edges.Keys) && Vertices(edges) <= notes.Keys
    requires KnownClique(near, notes, members, chars) && c in Vertices(edges)
    ensures KnownClique(near, notes, members + [c], chars + |notes[c].text|)
  {
    CharsAppend(notes, members, c);
  }

  lemma PairChars(notes: map<Id, Note>, a: Id, b: Id)
    ensures Chars(notes, [a, b]) == Size(notes, a) + Size(notes, b)
  {
    CharsAppend(notes, [], a);
    CharsAppend(notes, [a], b);
    assert [] + [a] == [a] && [a] + [b] == [a, b];
  }

  /** The body of the loop over the sorted edges. */
  method PackOne(edges: Edges, near: Neighbours, notes: map<Id, Note>, p: Params, st0: Packing, e: Edge)
    returns (st: Packing)
    requires Graph(edges) && NearOf(near, edges.Keys) && Vertices(edges) <= notes.Keys
    requires e.a in near && e.b in near
    ensures st == PackEdge(edges, notes, p, st0, e)
  {
    var a, b := e.a, e.b;
    if a in st0.taken || b in st0.taken {
      return st0;
    }
    if |notes[a].text| + |notes[b].text| > p.maxChars {
      PairRecord(st0.reasons, a, b);
      return st0.(reasons := SetDefault(SetDefault(st0.reasons, a, OverChars), b, OverChars));
    }
    var members, reasons := GrowClique(edges, near, notes, p, st0.taken, a, b, st0.reasons);
    st := Packing(st0.taken + Elems(members), st0.packs + [members], reasons);
  }

  lemma PackNext(edges: Edges, notes: map<Id, Note>, p: Params, ordered: seq<Edge>, i: nat)
    requires Graph(edges) && i < |ordered|
    ensures PackAll(edges, notes, p, ordered[..i + 1])
            == PackEdge(edges, notes, p, PackAll(edges, notes, p, ordered[..i]), ordered[i])
  {
    assert ordered[..i + 1][..i] == ordered[..i];
  }

  method PackEdges(edges: Edges, notes: map<Id, Note>, p: Params) returns (st: Packing)
    requires Graph(edges) && Vertices(edges) <= notes.Keys
    ensures st == PackingOf(edges, notes, p)
  {
    var near := CollectNeighbours(edges);
    EdgesOrdered(EdgeSet(edges));
    var ordered := Sort(EdgeLess, EdgeSet(edges));
    st := EMPTY;
    for i := 0 to |ordered|
      invariant st == PackAll(edges, notes, p, ordered[..i])
    {
      assert ordered[i] in EdgeSet(edges);
      PackNext(edges, notes, p, ordered, i);
      st := PackOne(edges, near, notes, p, st, ordered[i]);
    }
    assert ordered[..|ordered|] == ordered;
  }

  lemma PairRecord(reasons: map<Id, Reason>, a: Id, b: Id)
    ensures Record(reasons, [Skip(a, OverChars), Skip(b, OverChars)])
            == SetDefault(SetDefault(reasons, a, OverChars), b, OverChars)
  {
    var second := [Skip(b, OverChars)];
    var once := SetDefault(reasons, a, OverChars);
    assert [Skip(a, OverChars), Skip(b, OverChars)][1..] == second;
    assert second[1..] == [];
    assert Record(once, second) == Record(SetDefault(once, b, OverChars), []);
  }

  /** `_group`: the sorted members and the extremes of their pairwise scores. */
  method MakeGroup(edges: Edges, members: seq<Id>) returns (g: Group)
    requires |Elems(members)| >= 2
    ensures g == GroupOf(edges, members)
  {
    IdsOrdered(Elems(members));
    var ordered := Sort(Before, Elems(members));
    TwoListed(members, ordered);
    var scores := AllScores(edges, ordered);
    g := Group(ordered, MinOf(scores), MaxOf(scores));
  }

  method Build(pairs: seq<Pair>, notes: map<Id, Note>, p: Params)
    returns (groups: seq<Group>, deferred: seq<Deferred>)
    requires EndsKnown(pairs, notes) && p.maxGroup >= 2
    ensures Built(groups, deferred) == BuildGroups(pairs, notes, p)
  {
    EdgesAreSound(pairs, notes, p.threshold);
    var edges := CollectEdges(pairs, notes, p.threshold);
    var st := PackEdges(edges, notes, p);
    PacksAreGroups(edges, notes, p);
    GroupSetOrdered(edges, notes, p);
    groups := ListGroups(edges, st.packs);
    deferred := ListDeferred(Vertices(edges), st);
  }

  method ListGroups(edges: Edges, packs: seq<seq<Id>>) returns (groups: seq<Group>)
    requires forall i :: 0 <= i < |packs| ==> |Elems(packs[i])| >= 2
    requires TotalOn(GroupLess, GroupsOf(edges, packs, |packs|))
    ensures groups == Sorted(GroupLess, GroupsOf(edges, packs, |packs|))
  {
    var made: set<Group> := {};
    for i := 0 to |packs|
      invariant made == GroupsOf(edges, packs, i)
    {
      var g := MakeGroup(edges, packs[i]);
      GroupsOfStep(edges, packs, i);
      made := made + {g};
    }
    groups := Sort(GroupLess, made);
  }

  method ListDeferred(vertices: set<Id>, st: Packing) returns (deferred: seq<Deferred>)
    ensures deferred == DeferredFrom(vertices, st)
  {
    IdsOrdered(vertices - st.taken);
    var left := Sort(Before, vertices - st.taken);
    deferred := DeferEach(left, st.reasons);
  }

  method DeferEach(left: seq<Id>, reasons: map<Id, Reason>) returns (deferred: seq<Deferred>)
    ensures deferred == Defer(left, reasons)
  {
    deferred := [];
    for i := 0 to |left|
      invariant |deferred| == i
      invariant forall j :: 0 <= j < i ==> deferred[j] == Deferred(left[j], ReasonFor(reasons, left[j]))
    {
      deferred := deferred + [Deferred(left[i], ReasonFor(reasons, left[i]))];
    }
  }
}
