/**
 The data and the reference definition of consolidation grouping: similarity edges are packed
 greedily into cliques under a size cap and a character cap.

 The definitions follow the order in which the program decides; `GroupBuilder` holds the loops and
 is proved to compute them, `GroupFacts` and `GroupLocality` prove what they guarantee.
 */
module Groups {
  import opened Basics
  import opened Order

  type Id = string

  datatype Note = Note(
    id: Id, kind: string, author: string, shared: bool, saved: nat, occurredAt: Option<int>,
    tags: seq<string>, entities: seq<string>, similarAck: seq<Id>, supersedes: Option<Id>, text: string)

  datatype Pair = Pair(a: Id, b: Id, score: real)

  datatype Params = Params(threshold: real, neighbors: nat, maxGroup: nat, maxChars: nat)

  datatype Reason = OverGroup | OverChars | NoClique

  datatype Group = Group(members: seq<Id>, minScore: real, maxScore: real)

  datatype Deferred = Deferred(id: Id, reason: Reason)

  /** Scores of the undirected edges; an edge is keyed by its two ends in order. */
  type Edges = map<(Id, Id), real>

  datatype Edge = Edge(score: real, a: Id, b: Id)

  datatype Cand = Cand(score: real, id: Id)

  // ---- edges ----------------------------------------------------------------

  /** Every pair names notes that were read with it; the program looks both up. */
  ghost predicate EndsKnown(pairs: seq<Pair>, notes: map<Id, Note>)
  {
    forall p <- pairs :: p.a in notes && p.b in notes
  }

  predicate Acknowledged(p: Pair, notes: map<Id, Note>)
    requires p.a in notes && p.b in notes
  {
    p.b in notes[p.a].similarAck || p.a in notes[p.b].similarAck
  }

  predicate Qualifies(p: Pair, notes: map<Id, Note>, threshold: real)
    requires p.a in notes && p.b in notes
  {
    p.score >= threshold && p.a != p.b && !Acknowledged(p, notes)
  }

  function Key(a: Id, b: Id): (Id, Id)
  {
    if Before(a, b) then (a, b) else (b, a)
  }

  function AddPair(E: Edges, p: Pair, notes: map<Id, Note>, threshold: real): Edges
    requires p.a in notes && p.b in notes
  {
    if Qualifies(p, notes, threshold) then
      var k := Key(p.a, p.b);
      E[k := if k in E && E[k] > p.score then E[k] else p.score]
    else E
  }

  ghost function EdgesOf(pairs: seq<Pair>, notes: map<Id, Note>, threshold: real): Edges
    requires EndsKnown(pairs, notes)
  {
    if pairs == [] then map[]
    else
      var n := |pairs| - 1;
      AddPair(EdgesOf(pairs[..n], notes, threshold), pairs[n], notes, threshold)
  }

  /** No loops, and each undirected edge is keyed once. */
  ghost predicate Graph(E: Edges)
  {
    forall k <- E :: k.0 != k.1 && (k.1, k.0) !in E
  }

  predicate Adj(E: Edges, a: Id, b: Id)
  {
    (a, b) in E || (b, a) in E
  }

  function Weight(E: Edges, a: Id, b: Id): real
  {
    if (a, b) in E then E[(a, b)] else if (b, a) in E then E[(b, a)] else 0.0
  }

  function Ends(keys: set<(Id, Id)>): set<Id>
  {
    (set k <- keys :: k.0) + (set k <- keys :: k.1)
  }

  function Vertices(E: Edges): set<Id>
  {
    Ends(E.Keys)
  }

  function EdgeSet(E: Edges): set<Edge>
  {
    set k <- E.Keys :: Edge(E[k], k.0, k.1)
  }

  // ---- orders ---------------------------------------------------------------

  /** Highest score first, then the two ends. */
  predicate EdgeLess(e: Edge, f: Edge)
  {
    e.score > f.score
    || (e.score == f.score && (Before(e.a, f.a) || (e.a == f.a && Before(e.b, f.b))))
  }

  predicate CandLess(x: Cand, y: Cand)
  {
    x.score > y.score || (x.score == y.score && Before(x.id, y.id))
  }

  predicate GroupLess(g: Group, h: Group)
  {
    g.maxScore > h.maxScore || (g.maxScore == h.maxScore && Before(First(g), First(h)))
  }

  function First(g: Group): Id
  {
    if g.members == [] then "" else g.members[0]
  }

  lemma IdsOrdered(S: set<Id>)
    ensures TotalOn(Before, S)
  {
    BeforeIsAnOrder();
  }

  lemma EdgesOrdered(S: set<Edge>)
    ensures TotalOn(EdgeLess, S)
  {
    BeforeIsAnOrder();
  }

  lemma CandsOrdered(S: set<Cand>)
    ensures TotalOn(CandLess, S)
  {
    BeforeIsAnOrder();
  }

  lemma GroupsOrdered(S: set<Group>)
    requires forall g <- S, h <- S :: g != h ==> First(g) != First(h)
    ensures TotalOn(GroupLess, S)
  {
    BeforeIsAnOrder();
  }

  ghost function SortedIds(S: set<Id>): seq<Id>
  {
    IdsOrdered(S);
    Sorted(Before, S)
  }

  ghost function OrderedEdges(E: Edges): seq<Edge>
  {
    EdgesOrdered(EdgeSet(E));
    Sorted(EdgeLess, EdgeSet(E))
  }

  // ---- growing one clique ---------------------------------------------------

  function Size(notes: map<Id, Note>, c: Id): nat
  {
    if c in notes then |notes[c].text| else 0
  }

  function Chars(notes: map<Id, Note>, members: seq<Id>): nat
  {
    if members == [] then 0
    else Chars(notes, members[..|members| - 1]) + Size(notes, members[|members| - 1])
  }

  /** Why a cap keeps c out of a clique that now holds `members`. */
  function Blocked(notes: map<Id, Note>, p: Params, members: seq<Id>, c: Id): Option<Reason>
  {
    if |members| >= p.maxGroup then Some(OverGroup)
    else if Chars(notes, members) + Size(notes, c) > p.maxChars then Some(OverChars)
    else None
  }

  /** c is adjacent to every member. */
  predicate Joins(E: Edges, members: seq<Id>, c: Id)
  {
    forall m <- members :: Adj(E, c, m)
  }

  function MinWeight(E: Edges, c: Id, members: seq<Id>): real
    requires members != []
  {
    var n := |members| - 1;
    var w := Weight(E, c, members[n]);
    if n == 0 then w
    else
      var rest := MinWeight(E, c, members[..n]);
      if w < rest then w else rest
  }

  function Candidates(E: Edges, members: seq<Id>, out: set<Id>): set<Cand>
    requires members != []
  {
    set c <- Vertices(E) | c !in out && Joins(E, members, c) :: Cand(MinWeight(E, c, members), c)
  }

  ghost function SortedCandidates(E: Edges, members: seq<Id>, out: set<Id>): seq<Cand>
    requires members != []
  {
    CandsOrdered(Candidates(E, members, out));
    Sorted(CandLess, Candidates(E, members, out))
  }

  datatype Skip = Skip(id: Id, reason: Reason)

  datatype Scanned = Scanned(added: Option<Id>, passed: seq<Skip>)

  /** The first candidate no cap blocks, and the blocked ones passed on the way. */
  function Scan(notes: map<Id, Note>, p: Params, members: seq<Id>, cs: seq<Cand>): (r: Scanned)
    ensures r.added.Some? ==> exists i :: 0 <= i < |cs| && cs[i].id == r.added.value
  {
    if cs == [] then Scanned(None, [])
    else
      match Blocked(notes, p, members, cs[0].id)
      case None => Scanned(Some(cs[0].id), [])
      case Some(reason) =>
        var rest := Scan(notes, p, members, cs[1..]);
        Scanned(rest.added, [Skip(cs[0].id, reason)] + rest.passed)
  }

  function Ids(log: seq<Skip>): set<Id>
  {
    set s <- log :: s.id
  }

  datatype Grown = Grown(members: seq<Id>, log: seq<Skip>)

  /** Adds the best addable candidate until none is left. */
  ghost function Grow(E: Edges, notes: map<Id, Note>, p: Params, taken: set<Id>,
                      members: seq<Id>, skipped: set<Id>): Grown
    requires Graph(E) && members != []
    decreases |Vertices(E) - Elems(members)|
  {
    var cs := SortedCandidates(E, members, taken + skipped);
    var scan := Scan(notes, p, members, cs);
    match scan.added
    case None => Grown(members, scan.passed)
    case Some(c) =>
      AddedIsNew(E, members, taken + skipped, c, cs);
      var more := Grow(E, notes, p, taken, members + [c], skipped + Ids(scan.passed));
      Grown(more.members, scan.passed + more.log)
  }

  lemma AddedIsNew(E: Edges, members: seq<Id>, out: set<Id>, c: Id, cs: seq<Cand>)
    requires Graph(E) && members != []
    requires cs == SortedCandidates(E, members, out)
    requires exists i :: 0 <= i < |cs| && cs[i].id == c
    ensures c in Vertices(E) && c !in out && Joins(E, members, c) && c !in members
    ensures |Vertices(E) - Elems(members + [c])| < |Vertices(E) - Elems(members)|
  {
    var i :| 0 <= i < |cs| && cs[i].id == c;
    assert cs[i] in Candidates(E, members, out);
    assert c !in members;
    assert Vertices(E) - Elems(members + [c]) == Vertices(E) - Elems(members) - {c};
    assert c in Vertices(E) - Elems(members);
  }

  // ---- packing --------------------------------------------------------------

  /** `packs` lists the cliques in creation order, each led by the ends of its seed edge. */
  datatype Packing = Packing(taken: set<Id>, packs: seq<seq<Id>>, reasons: map<Id, Reason>)

  const EMPTY: Packing := Packing({}, [], map[])

  function SetDefault(reasons: map<Id, Reason>, c: Id, reason: Reason): map<Id, Reason>
  {
    if c in reasons then reasons else reasons[c := reason]
  }

  function Record(reasons: map<Id, Reason>, log: seq<Skip>): map<Id, Reason>
    decreases |log|
  {
    if log == [] then reasons else Record(SetDefault(reasons, log[0].id, log[0].reason), log[1..])
  }

  ghost function PackEdge(E: Edges, notes: map<Id, Note>, p: Params, st: Packing, e: Edge): Packing
    requires Graph(E)
  {
    if e.a in st.taken || e.b in st.taken then st
    else if Size(notes, e.a) + Size(notes, e.b) > p.maxChars then
      st.(reasons := Record(st.reasons, [Skip(e.a, OverChars), Skip(e.b, OverChars)]))
    else
      var g := Grow(E, notes, p, st.taken, [e.a, e.b], {});
      Packing(st.taken + Elems(g.members), st.packs + [g.members], Record(st.reasons, g.log))
  }

  ghost function PackAll(E: Edges, notes: map<Id, Note>, p: Params, edges: seq<Edge>): Packing
    requires Graph(E)
  {
    if edges == [] then EMPTY
    else
      var n := |edges| - 1;
      PackEdge(E, notes, p, PackAll(E, notes, p, edges[..n]), edges[n])
  }

  // ---- the result -----------------------------------------------------------

  function RowScores(E: Edges, a: Id, others: seq<Id>): seq<real>
  {
    if others == [] then [] else [Weight(E, a, others[0])] + RowScores(E, a, others[1..])
  }

  /** The scores of every two members, in listing order. */
  function AllScores(E: Edges, s: seq<Id>): seq<real>
  {
    if s == [] then [] else RowScores(E, s[0], s[1..]) + AllScores(E, s[1..])
  }

  function MinOf(xs: seq<real>): real
    requires xs != []
  {
    if |xs| == 1 then xs[0]
    else
      var rest := MinOf(xs[1..]);
      if xs[0] < rest then xs[0] else rest
  }

  function MaxOf(xs: seq<real>): real
    requires xs != []
  {
    if |xs| == 1 then xs[0]
    else
      var rest := MaxOf(xs[1..]);
      if xs[0] > rest then xs[0] else rest
  }

  ghost function GroupOf(E: Edges, pack: seq<Id>): (g: Group)
    requires |Elems(pack)| >= 2
  {
    var ordered := SortedIds(Elems(pack));
    TwoListed(pack, ordered);
    var scores := AllScores(E, ordered);
    Group(ordered, MinOf(scores), MaxOf(scores))
  }

  lemma TwoListed(pack: seq<Id>, ordered: seq<Id>)
    requires |Elems(pack)| >= 2 && ordered == SortedIds(Elems(pack))
    ensures |ordered| >= 2
  {
    assert Elems(pack) == Elems(ordered);
    ElemsSize(ordered);
  }
}
