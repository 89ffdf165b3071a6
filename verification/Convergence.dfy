/** With no other writer, applied verdicts come to an end, and what they archive always has a survivor. */
module Convergence {
  import opened Basics
  import opened Text
  import opened Order
  import opened Rows
  import opened Verdicts
  import opened PlanFacts
  import opened InvLineage
  import opened Acceptance
  import Groups
  import GroupResult
  import GroupEdges
  import GroupLocality

  type Group = Groups.Group

  /** The groups of a namespace that the report lists. */
  ghost function Unjudged(db: Db, env: Env, ns: string, p: Params): set<Group>
    requires p.maxGroup >= 2
  {
    set g <- Elems(ReportGroups(db, env, ns, p)) | Open(db, ns, ActiveNotes(db.notes, ns, None), g)
  }

  // ---- keep -----------------------------------------------------------------

  /** Any current group of the rows a verdict reads is a group over every author. */
  lemma CurrentIsReported(db: Db, env: Env, ns: string, p: Params, author: Option<string>, g: Group)
    requires p.maxGroup >= 2
    requires var N := ActiveNotes(db.notes, ns, author); g in GroupEdges.BuildGroups(ReadPairs(env, N, p), N, p).groups
    requires forall i <- g.members :: i in ActiveNotes(db.notes, ns, author)
    ensures g in ReportGroups(db, env, ns, p) && forall i <- g.members :: i in ActiveNotes(db.notes, ns, None)
    ensures KeyOfGroup(ns, ActiveNotes(db.notes, ns, None), g.members)
            == KeyOfGroup(ns, ActiveNotes(db.notes, ns, author), g.members)
  {
    match author
    case None =>
    case Some(u) =>
      AuthorGroups(db, env, ns, p, u);
      KeysAgree(ActiveNotes(db.notes, ns, None), ActiveNotes(db.notes, ns, author), g.members);
  }

  lemma NothingRecorded(db: Db, env: Env, v: Verdict, b: Batch)
    requires var st := LoadState(db, env, v, b); st.recorded.None? && st.cached.None?
    ensures Recorded(db, v.idem).None? && CachedWhy(db, v).None?
  {
  }

  lemma OpenIs(db: Db, ns: string, M: map<Id, Note>, v: Verdict, g: Group)
    requires CachedWhy(db, v).None? && v.ns == ns && g.members == SortStrings(v.memberIds)
    requires (forall i <- g.members :: i in M) && v.key == KeyOfGroup(ns, M, g.members)
    ensures Open(db, ns, M, g)
  {
  }

  /** The group a planned verdict is about is one the report lists. */
  lemma PlannedIsUnjudged(db: Db, env: Env, v: Verdict, b: Batch) returns (g: Group)
    requires b.params.maxGroup >= 2 && Decide(db, env, v, b).Planned?
    ensures g in Unjudged(db, env, v.ns, b.params)
    ensures (forall i <- g.members :: i in ActiveNotes(db.notes, v.ns, None))
            && KeyOfGroup(v.ns, ActiveNotes(db.notes, v.ns, None), g.members) == v.key
  {
    var st := LoadState(db, env, v, b);
    PlannedOnGroup(env, v, b, st);
    NothingRecorded(db, env, v, b);
    LoadIs(db, env, v, b);
    g := CurrentGroupOf(v, b, st);
    CurrentIsReported(db, env, v.ns, b.params, OneAuthor(db.notes, v.memberIds), g);
    OpenIs(db, v.ns, ActiveNotes(db.notes, v.ns, None), v, g);
  }

  lemma CurrentGroupOf(v: Verdict, b: Batch, st: State) returns (g: Group)
    requires Groups.EndsKnown(st.pairs, st.notes) && b.params.maxGroup >= 2 && OnGroup(v, b, st)
    ensures g in GroupEdges.BuildGroups(st.pairs, st.notes, b.params).groups && g.members == SortStrings(v.memberIds)
    ensures forall i <- g.members :: i in st.notes
    ensures KeyOfGroup(v.ns, st.notes, g.members) == v.key
  {
    g :| g in CurrentGroups(st, b.params) && g.members == SortStrings(v.memberIds);
  }

  lemma KeepTouchesNoNote(db: Db, env: Env, v: Verdict, b: Batch, now: Stamp)
    requires b.params.maxGroup >= 2 && Decide(db, env, v, b).Planned? && Decide(db, env, v, b).plan.verb == Keep
    ensures Commit(db, env, v, b, now).notes == db.notes
  {
    DecidedIsSound(db, env, v, b);
  }

  lemma CommitJudges(db: Db, env: Env, v: Verdict, b: Batch, now: Stamp, key: GroupKey, ns: string, members: seq<Id>)
    requires b.params.maxGroup >= 2 && Decide(db, env, v, b).Planned? && db.nextAction !in db.actions
    ensures KeyJudged(Commit(db, env, v, b, now), v.key)
    ensures KeyJudged(db, key) ==> KeyJudged(Commit(db, env, v, b, now), key)
    ensures UndoneWith(db, ns, members) ==> UndoneWith(Commit(db, env, v, b, now), ns, members)
  {
    var after := Commit(db, env, v, b, now);
    assert after.actions[db.nextAction].key == v.key;
    if a :| a in db.actions && db.actions[a].key == key {
      assert after.actions[a].key == key;
    }
    if a :| a in db.actions && db.actions[a].ns == ns && db.actions[a].undone.Some?
            && db.actions[a].members == members {
      assert after.actions[a] == db.actions[a];
    }
  }

  /** An applied keep changes no note and takes its group off the report. */
  lemma KeepShrinks(db: Db, env: Env, v: Verdict, b: Batch, now: Stamp)
    requires b.params.maxGroup >= 2 && Decide(db, env, v, b).Planned? && Decide(db, env, v, b).plan.verb == Keep
    requires db.nextAction !in db.actions
    ensures Commit(db, env, v, b, now).notes == db.notes
    ensures Unjudged(Commit(db, env, v, b, now), env, v.ns, b.params) < Unjudged(db, env, v.ns, b.params)
  {
    KeepTouchesNoNote(db, env, v, b, now);
    var after := Commit(db, env, v, b, now);
    var M := ActiveNotes(db.notes, v.ns, None);
    var g := PlannedIsUnjudged(db, env, v, b);
    CommitJudges(db, env, v, b, now, v.key, v.ns, []);
    assert g !in Unjudged(after, env, v.ns, b.params);
    forall h | h in Unjudged(after, env, v.ns, b.params) ensures h in Unjudged(db, env, v.ns, b.params) {
      CommitJudges(db, env, v, b, now, KeyOfGroup(v.ns, M, h.members), v.ns, h.members);
    }
  }

  // ---- retire and merge -----------------------------------------------------

  lemma ActiveAfter(notes: Notes, made: Option<Row>, plan: Plan, now: Stamp, who: string, ns: string)
    requires made.Some? ==> plan.replacement.Some? && plan.replacement.value !in plan.archived
    ensures ActiveNotes(ApplyNotes(notes, made, plan, now, who), ns, None).Keys
            <= (ActiveNotes(notes, ns, None).Keys - Elems(plan.archived))
               + (if made.Some? then {plan.replacement.value} else {})
  {
  }

  lemma {:induction false} TwoInside<T>(S: set<T>, x: T, y: T)
    requires x in S && y in S && x != y
    ensures |S| >= 2
  {
    assert |S - {x}| == |S| - 1;
    assert y in S - {x};
  }

  /** A merge that creates a note archives at least two. */
  lemma ArchivesEnough(db: Db, env: Env, v: Verdict, b: Batch)
    requires b.params.maxGroup >= 2 && Decide(db, env, v, b).Planned? && Decide(db, env, v, b).plan.verb != Keep
    ensures var plan := Decide(db, env, v, b).plan;
      && Elems(plan.archived) <= ActiveNotes(db.notes, v.ns, None).Keys
      && |Elems(plan.archived)| > (if plan.created then 1 else 0)
  {
    DecidedIsSound(db, env, v, b);
    PlannedOnGroup(env, v, b, LoadState(db, env, v, b));
    var plan := Decide(db, env, v, b).plan;
    assert plan.archived[0] in Elems(plan.archived);
    if plan.created {
      assert plan.archived[1] in Elems(plan.archived);
      TwoInside(Elems(plan.archived), plan.archived[0], plan.archived[1]);
    }
  }

  lemma FewerLeft<T>(A: set<T>, gone: set<T>, after: set<T>, added: set<T>)
    requires gone <= A && after <= (A - gone) + added && |added| < |gone|
    ensures |after| < |A|
  {
    SubsetSize(after, (A - gone) + added);
    assert |(A - gone) + added| <= |A - gone| + |added|;
    assert |A| == |A - gone| + |gone| by {
      assert A == (A - gone) + gone;
    }
  }

  /** An applied retire or merge leaves fewer active notes. */
  lemma ArchiveShrinks(db: Db, env: Env, v: Verdict, b: Batch, now: Stamp)
    requires b.params.maxGroup >= 2 && Decide(db, env, v, b).Planned? && Decide(db, env, v, b).plan.verb != Keep
    ensures |ActiveNotes(Commit(db, env, v, b, now).notes, v.ns, None)| < |ActiveNotes(db.notes, v.ns, None)|
  {
    DecidedIsSound(db, env, v, b);
    ArchivesEnough(db, env, v, b);
    var plan := Decide(db, env, v, b).plan;
    var made := CreatedRow(db, env, v, plan, LoadState(db, env, v, b).notes, now);
    ActiveAfter(db.notes, made, plan, now, b.author, v.ns);
    var before, after := ActiveNotes(db.notes, v.ns, None), ActiveNotes(Commit(db, env, v, b, now).notes, v.ns, None);
    FewerLeft(before.Keys, Elems(plan.archived), after.Keys, if made.Some? then {plan.replacement.value} else {});
  }

  /** Whatever an applied verdict archives, a survivor is active right after. */
  lemma AlwaysASurvivor(db: Db, env: Env, v: Verdict, b: Batch, now: Stamp)
    requires b.params.maxGroup >= 2 && Decide(db, env, v, b).Planned?
    ensures var plan := Decide(db, env, v, b).plan;
      plan.survivors != [] && forall s <- plan.survivors :: Active(Commit(db, env, v, b, now).notes, s)
  {
    DecidedIsSound(db, env, v, b);
    if Decide(db, env, v, b).plan.created {
      CreatedExists(db, env, v, b, now);
    }
  }

  // ---- a bound on whole runs ------------------------------------------------

  /** Groups share no member, so there are no more of them than notes. */
  lemma {:induction false} NoMoreGroupsThanNotes(S: set<Group>, ids: set<Id>)
    requires forall g <- S :: g.members != [] && Elems(g.members) <= ids
    requires forall g <- S, h <- S :: g != h ==> Elems(g.members) !! Elems(h.members)
    ensures |S| <= |ids|
  {
    if S != {} {
      var g :| g in S;
      var x := g.members[0];
      assert x in Elems(g.members);
      forall h | h in S - {g} ensures Elems(h.members) <= ids - {x} {
      }
      NoMoreGroupsThanNotes(S - {g}, ids - {x});
    }
  }

  lemma UnjudgedBound(db: Db, env: Env, ns: string, p: Params)
    requires p.maxGroup >= 2
    ensures |Unjudged(db, env, ns, p)| <= |ActiveNotes(db.notes, ns, None)|
  {
    var M := ActiveNotes(db.notes, ns, None);
    var pairs := AllPairs(db, env, ns, p);
    var S := Unjudged(db, env, ns, p);
    forall g | g in S ensures g.members != [] && Elems(g.members) <= M.Keys {
      GroupEdges.BuiltGroupsAreCliques(pairs, M, p, g);
    }
    forall g, h | g in S && h in S && g != h ensures Elems(g.members) !! Elems(h.members) {
      GroupEdges.BuiltGroupsDisjoint(pairs, M, p, g, h);
    }
    NoMoreGroupsThanNotes(S, M.Keys);
  }

  /** dbs[k + 1] is dbs[k] after the k-th verdict was applied, all in one namespace with one set of parameters. */
  ghost predicate Consolidates(env: Env, ns: string, p: Params, dbs: seq<Db>)
    requires p.maxGroup >= 2
  {
    && dbs != []
    && forall k :: 0 <= k < |dbs| - 1 ==> AppliedOnce(env, ns, p, dbs[k], dbs[k + 1])
  }

  ghost predicate AppliedOnce(env: Env, ns: string, p: Params, db: Db, after: Db)
    requires p.maxGroup >= 2
  {
    && db.nextAction !in db.actions
    && exists v: Verdict, b: Batch, now: Stamp :: Applies(env, ns, p, db, after, v, b, now)
  }

  ghost predicate Applies(env: Env, ns: string, p: Params, db: Db, after: Db, v: Verdict, b: Batch, now: Stamp)
    requires p.maxGroup >= 2
  {
    v.ns == ns && b.params == p && Decide(db, env, v, b).Planned? && after == Commit(db, env, v, b, now)
  }

  /** What every applied verdict lowers. */
  ghost function Size(db: Db, env: Env, ns: string, p: Params): nat
    requires p.maxGroup >= 2
  {
    Weight(|ActiveNotes(db.notes, ns, None)|, |Unjudged(db, env, ns, p)|)
  }

  function Weight(n: nat, u: nat): nat
  {
    n * (n + 1) + u
  }

  function Square(n: nat): nat
  {
    n * n
  }

  /** Every applied verdict decreases the pair of active notes and unjudged groups. */
  lemma AppliedShrinks(env: Env, ns: string, p: Params, db: Db, after: Db)
    requires p.maxGroup >= 2 && AppliedOnce(env, ns, p, db, after)
    ensures var n, m := |ActiveNotes(db.notes, ns, None)|, |ActiveNotes(after.notes, ns, None)|;
      m < n || (m == n && |Unjudged(after, env, ns, p)| < |Unjudged(db, env, ns, p)|)
  {
    var v: Verdict, b: Batch, now: Stamp :| Applies(env, ns, p, db, after, v, b, now);
    if Decide(db, env, v, b).plan.verb == Keep {
      KeepShrinks(db, env, v, b, now);
      SubsetSmaller(Unjudged(after, env, ns, p), Unjudged(db, env, ns, p));
    } else {
      ArchiveShrinks(db, env, v, b, now);
    }
  }

  lemma SubsetSmaller<T>(A: set<T>, B: set<T>)
    requires A < B
    ensures |A| < |B|
  {
    var x :| x in B && x !in A;
    SubsetSize(A, B - {x});
  }

  lemma SizeDrops(n: nat, u: nat, m: nat, w: nat)
    requires m < n || (m == n && w < u)
    requires w <= m
    ensures Weight(m, w) < Weight(n, u)
  {
  }

  /**
   Consolidation converges: with no other writer, a namespace of n active notes takes at most
   (n + 1)^2 applied verdicts, whatever they are.
   */
  lemma {:induction false} ConsolidationEnds(env: Env, ns: string, p: Params, dbs: seq<Db>)
    requires p.maxGroup >= 2 && Consolidates(env, ns, p, dbs)
    ensures |dbs| - 1 <= Size(dbs[0], env, ns, p)
    ensures var n := |ActiveNotes(dbs[0].notes, ns, None)|; |dbs| - 1 <= Square(n + 1)
    decreases |dbs|
  {
    SizeBound(dbs[0], env, ns, p);
    if |dbs| > 1 {
      assert AppliedOnce(env, ns, p, dbs[0], dbs[1]);
      SizeShrinks(env, ns, p, dbs[0], dbs[1]);
      forall k | 0 <= k < |dbs[1..]| - 1 ensures AppliedOnce(env, ns, p, dbs[1..][k], dbs[1..][k + 1]) {
        assert dbs[1..][k] == dbs[k + 1] && dbs[1..][k + 1] == dbs[(k + 1) + 1];
      }
      ConsolidationEnds(env, ns, p, dbs[1..]);
    }
  }

  lemma SizeShrinks(env: Env, ns: string, p: Params, db: Db, after: Db)
    requires p.maxGroup >= 2 && AppliedOnce(env, ns, p, db, after)
    ensures Size(after, env, ns, p) < Size(db, env, ns, p)
  {
    AppliedShrinks(env, ns, p, db, after);
    UnjudgedBound(after, env, ns, p);
    SizeDrops(|ActiveNotes(db.notes, ns, None)|, |Unjudged(db, env, ns, p)|,
              |ActiveNotes(after.notes, ns, None)|, |Unjudged(after, env, ns, p)|);
  }

  lemma SizeBound(db: Db, env: Env, ns: string, p: Params)
    requires p.maxGroup >= 2
    ensures var n := |ActiveNotes(db.notes, ns, None)|; Size(db, env, ns, p) <= Square(n + 1)
  {
    UnjudgedBound(db, env, ns, p);
  }
}
