/** The loops behind a plan: reading pairs, and deciding a verdict over the rows read. */
module Planner {
  import opened Basics
  import opened Order
  import opened Text
  import opened Rows
  import opened Verdicts
  import Groups
  import GroupEdges
  import GroupBuilder

  /** Over the rows seen so far, `best` holds each pair of ends once, with its best score. */
  ghost predicate BestOf(env: Env, M: map<Id, Note>, best: map<(Id, Id), real>, seen: set<(Id, Id)>)
  {
    && (forall k :: k in best <==> Before(k.0, k.1) && (k in seen || (k.1, k.0) in seen))
    && (forall k <- best :: k.0 in M && k.1 in M
                            && best[k] == BestScore(env, M, k in seen, (k.1, k.0) in seen, k.0, k.1))
  }

  function NearRows(env: Env, M: map<Id, Note>, p: Params): set<(Id, Id)>
  {
    set a <- M.Keys, b <- M.Keys | Near(env, M, p, a, b) :: (a, b)
  }

  function Kept(best: map<(Id, Id), real>, ends: (Id, Id), s: real): map<(Id, Id), real>
  {
    best[ends := if ends in best && best[ends] > s then best[ends] else s]
  }

  lemma KeptIsBest(env: Env, M: map<Id, Note>, best: map<(Id, Id), real>, seen: set<(Id, Id)>, a: Id, b: Id)
    requires BestOf(env, M, best, seen) && a in M && b in M && a != b && (a, b) !in seen
    ensures BestOf(env, M, Kept(best, Groups.Key(a, b), Sim(env, M, a, b)), seen + {(a, b)})
  {
    BeforeIsAnOrder();
    var ends := Groups.Key(a, b);
    var after := Kept(best, ends, Sim(env, M, a, b));
    assert Before(ends.0, ends.1);
    forall k | k in after
      ensures k.0 in M && k.1 in M
      ensures after[k] == BestScore(env, M, k in seen + {(a, b)}, (k.1, k.0) in seen + {(a, b)}, k.0, k.1)
    {
      if k != ends {
        assert k in best;
      }
    }
  }

  function PairsOf(best: map<(Id, Id), real>): set<Pair>
  {
    set k <- best.Keys :: Groups.Pair(k.0, k.1, best[k])
  }

  lemma AllRowsRead(env: Env, M: map<Id, Note>, p: Params, best: map<(Id, Id), real>)
    requires BestOf(env, M, best, NearRows(env, M, p))
    ensures PairsOf(best) == PairSet(env, M, p)
  {
    forall q ensures q in PairsOf(best) <==> q in PairSet(env, M, p) {
      if q in PairsOf(best) {
        var k :| k in best && q == Groups.Pair(k.0, k.1, best[k]);
        assert q == BestPair(env, M, p, k.0, k.1);
      }
      if q in PairSet(env, M, p) {
        assert q == BestPair(env, M, p, q.a, q.b);
        assert (q.a, q.b) in best;
      }
    }
  }

  /** `read_pairs`: every row of the neighbour search folded into one pair for its two ends. */
  method ReadAllPairs(env: Env, M: map<Id, Note>, p: Params) returns (pairs: seq<Pair>)
    ensures pairs == ReadPairs(env, M, p)
  {
    var rows := NearRows(env, M, p);
    var best: map<(Id, Id), real> := map[];
    var todo := rows;
    while todo != {}
      invariant todo <= rows
      invariant BestOf(env, M, best, rows - todo)
      decreases todo
    {
      var r :| r in todo;
      KeptIsBest(env, M, best, rows - todo, r.0, r.1);
      best := Kept(best, Groups.Key(r.0, r.1), Sim(env, M, r.0, r.1));
      assert rows - (todo - {r}) == (rows - todo) + {r};
      todo := todo - {r};
    }
    assert rows - todo == rows;
    AllRowsRead(env, M, p, best);
    PairsOrdered(PairSet(env, M, p));
    pairs := Sort(PairLess, PairsOf(best));
  }

  /** `plan_verdict` over the rows a state holds. */
  method Plan(env: Env, v: Verdict, b: Batch, st: State) returns (o: Outcome)
    requires Groups.EndsKnown(st.pairs, st.notes) && b.params.maxGroup >= 2
    ensures o == PlanVerdict(env, v, b, st)
  {
    if st.recorded.Some? {
      if st.recorded.value.payload == PayloadOf(v, b) {
        return Ended(st.recorded.value.result.(status := Duplicate));
      }
      return End(v, Rejected, ReusedKey);
    }
    if st.cached.Some? {
      return End(v, Cached, st.cached.value);
    }
    var members := SortStrings(v.memberIds);
    if exists i <- members :: i !in st.notes {
      return End(v, Stale, NoCurrentGroup);
    }
    if MixesAuthors(st.notes, members) {
      return End(v, Rejected, MixedAuthors);
    }
    var groups, deferred := GroupBuilder.Build(st.pairs, st.notes, b.params);
    var issued := Issued(v.ns, st.notes, groups, v.key);
    if issued.None? {
      return End(v, Stale, NoCurrentGroup);
    }
    if issued.value.members != members || members == [] {
      return End(v, Stale, MembersDiffer);
    }
    if v.verb != Keep && st.used >= b.maxActions {
      return End(v, Rejected, CapReached);
    }
    return PlanVerb(env, v, st, members);
  }
}
