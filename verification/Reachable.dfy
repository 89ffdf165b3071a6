/** The invariants together, in every reachable state, and the run-level promises of the action table. */
module Reachable {
  import opened Basics
  import opened Rows
  import opened NoteOps
  import opened Registry
  import opened Verdicts
  import opened PlanFacts
  import opened Histories
  import opened InvNotes
  import opened InvLineage
  import opened InvFacts
  import opened Runs

  ghost predicate Initial(db: Db)
  {
    db.notes == map[] && db.actions == map[] && db.registry == map[] && db.facts == map[]
  }

  ghost predicate Inv(env: Env, db: Db)
  {
    && InvRows(db) && Acyclic(db.notes) && FactsSound(db) && NamesHeldOnce(env, db.registry) && InvActions(db)
  }

  lemma StepKeepsInv(db: Db, env: Env, ev: Event)
    requires Inv(env, db) && WellFormed(ev)
    ensures Inv(env, Next(db, env, ev))
  {
    StepKeepsRows(db, env, ev);
    StepStaysAcyclic(db, env, ev);
    StepKeepsFacts(db, env, ev);
    StepKeepsNames(db, env, ev);
    StepKeepsActions(db, env, ev);
  }

  /** The same, for rows known to be the next ones. */
  lemma NextKeepsInv(db: Db, env: Env, ev: Event, after: Db)
    requires Inv(env, db) && WellFormed(ev) && after == Next(db, env, ev)
    ensures Inv(env, after)
  {
    StepKeepsInv(db, env, ev);
  }

  lemma InitialInv(env: Env, db: Db)
    requires Initial(db)
    ensures Inv(env, db)
  {
    forall p | |p| >= 2 ensures !IsPath(db.notes, p) {
      assert !Points(db.notes, p[0], p[1]);
    }
  }

  lemma {:induction false} RunKeepsInv(env: Env, ms: seq<Moment>, evs: seq<Event>)
    requires Run(env, ms, evs) && Inv(env, ms[0].db)
    ensures Inv(env, ms[|evs|].db)
    decreases |evs|
  {
    if evs != [] {
      RunTail(env, ms, evs);
      StepKeepsInv(ms[0].db, env, evs[0]);
      RunKeepsInv(env, ms[1..], evs[1..]);
    }
  }

  /**
   In every state any history reaches: active notes carry no archive lineage; every slug on a
   note, active or archived, is registered, and no note holds more than ten; lineage has no
   cycle; facts point at entities, facts and notes that exist, and a current fact cites a note;
   no name is held by two entities; no two actions share an idempotency key or a group key.
   */
  lemma EveryReachableState(env: Env, ms: seq<Moment>, evs: seq<Event>)
    requires Run(env, ms, evs) && Initial(ms[0].db)
    ensures Inv(env, ms[|evs|].db)
  {
    InitialInv(env, ms[0].db);
    RunKeepsInv(env, ms, evs);
  }

  // ---- the action table over a run ------------------------------------------

  lemma {:induction false} RunKeepsActions(env: Env, ms: seq<Moment>, evs: seq<Event>, id: nat)
    requires Run(env, ms, evs) && InvActions(ms[0].db) && id in ms[0].db.actions
    ensures InvActions(ms[|evs|].db) && id in ms[|evs|].db.actions
    ensures SameAction(ms[0].db.actions[id], ms[|evs|].db.actions[id])
    decreases |evs|
  {
    if evs != [] {
      RunTail(env, ms, evs);
      StepKeepsActions(ms[0].db, env, evs[0]);
      RunKeepsActions(env, ms[1..], evs[1..], id);
    }
  }

  lemma RecordedIs(db: Db, id: nat)
    requires InvActions(db) && id in db.actions
    ensures Recorded(db, db.actions[id].idem) == Some(db.actions[id])
  {
  }

  /**
   A replay returns the recorded result and writes nothing, at any later time: whether the action
   is already visible in the snapshot the preflight reads or only in the locked rows.
   */
  lemma ReplayReturnsRecord(env: Env, ms: seq<Moment>, evs: seq<Event>, v: Verdict, b: Batch, id: nat,
                            snapshot: Db, db: Db, now: Stamp)
    requires Run(env, ms, evs) && InvActions(ms[0].db) && id in ms[0].db.actions && b.params.maxGroup >= 2
    requires ms[0].db.actions[id].idem == v.idem && ms[0].db.actions[id].payload == PayloadOf(v, b)
    ensures var again := ms[0].db.actions[id].result.(status := Duplicate);
      && Process(ms[|evs|].db, db, env, v, b, now) == Step(db, again)
      && (Decide(snapshot, env, v, b).Planned? && !b.dryRun ==>
            Process(snapshot, ms[|evs|].db, env, v, b, now) == Step(ms[|evs|].db, again))
  {
    RunKeepsActions(env, ms, evs, id);
    RecordedIs(ms[|evs|].db, id);
  }

  /** A retire or merge never takes the run's count in a namespace above the batch's cap. */
  lemma CapHolds(db: Db, env: Env, v: Verdict, b: Batch, now: Stamp)
    requires b.params.maxGroup >= 2 && Decide(db, env, v, b).Planned?
    requires Decide(db, env, v, b).plan.verb != Keep
    ensures |UsedActions(Commit(db, env, v, b, now), b.runId, v.ns)| <= b.maxActions
  {
    PlannedOnGroup(env, v, b, LoadState(db, env, v, b));
    DecidedIsSound(db, env, v, b);
    OneMoreUsed(db, Commit(db, env, v, b, now), ActionOf(db, v, b, Decide(db, env, v, b).plan, now), b.runId, v.ns);
  }

  lemma OneMoreUsed(db: Db, after: Db, a: Action, runId: string, ns: string)
    requires after.actions == db.actions[db.nextAction := a]
    ensures |UsedActions(after, runId, ns)| <= |UsedActions(db, runId, ns)| + 1
  {
    var before := UsedActions(db, runId, ns);
    SubsetSize(UsedActions(after, runId, ns), before + {db.nextAction});
  }

  // ---- undo at once ---------------------------------------------------------

  /** An active note outside `archived` is reachable from r through supersedes links. */
  ghost predicate SucceededOutside(notes: Notes, r: Id, archived: seq<Id>)
  {
    exists p :: SuccessorPath(notes, r, p) && notes[p[|p| - 1]].archivedAt.None? && p[|p| - 1] !in archived
  }

  /** Whether r, about to be created, already looks used: by a successor or in an earlier action's members. */
  ghost predicate LeftoversOf(db: Db, plan: Plan)
  {
    plan.created && plan.replacement.Some?
    && (SucceededOutside(db.notes, plan.replacement.value, plan.archived) || InLaterAction(db, plan.replacement.value))
  }

  lemma CommittedRows(db: Db, env: Env, v: Verdict, b: Batch, now: Stamp, i: Id)
    requires b.params.maxGroup >= 2 && Decide(db, env, v, b).Planned? && i in db.notes
    ensures var plan := Decide(db, env, v, b).plan;
      Commit(db, env, v, b, now).notes[i]
      == if i in plan.archived then ArchivedInto(db.notes[i], now, b.author, plan.survivors) else db.notes[i]
  {
    DecidedIsSound(db, env, v, b);
  }

  lemma CommittedReplacement(db: Db, env: Env, v: Verdict, b: Batch, now: Stamp, r: Id)
    requires b.params.maxGroup >= 2 && Decide(db, env, v, b).Planned? && Decide(db, env, v, b).plan.created
    requires Decide(db, env, v, b).plan.replacement == Some(r)
    ensures var after := Commit(db, env, v, b, now).notes;
      && r !in db.notes && r in after && after.Keys == db.notes.Keys + {r}
      && after[r].archivedAt.None? && after[r].meta.supersedes.None? && after[r].meta.entitiesSetAt.None?
  {
    DecidedIsSound(db, env, v, b);
    var plan := Decide(db, env, v, b).plan;
    var M := LoadState(db, env, v, b).notes;
    CreatedExists(db, env, v, b, now);
    ApplyPlanInserts(db, env, v, b, plan, M, now, r);
  }

  lemma ApplyPlanInserts(db: Db, env: Env, v: Verdict, b: Batch, plan: Plan, M: map<Id, Note>, now: Stamp, r: Id)
    requires plan.replacement == Some(r) && r !in db.notes && r !in plan.archived
    requires var made := CreatedRow(db, env, v, plan, M, now);
      made.Some? && made.value.archivedAt.None? && made.value.meta.supersedes.None?
    ensures var after := ApplyPlan(db, env, v, b, plan, M, now).notes;
      && r in after && after.Keys == db.notes.Keys + {r}
      && after[r].archivedAt.None? && after[r].meta.supersedes.None? && after[r].meta.entitiesSetAt.None?
  {
    var made := CreatedRow(db, env, v, plan, M, now).value;
  }

  lemma PathAfterCommit(db: Db, env: Env, v: Verdict, b: Batch, now: Stamp, r: Id, p: seq<Id>)
    requires b.params.maxGroup >= 2 && Decide(db, env, v, b).Planned?
    requires Decide(db, env, v, b).plan.created && Decide(db, env, v, b).plan.replacement == Some(r)
    ensures SuccessorPath(Commit(db, env, v, b, now).notes, r, p) <==> SuccessorPath(db.notes, r, p)
  {
    CommittedReplacement(db, env, v, b, now, r);
    forall i | i in db.notes
      ensures Commit(db, env, v, b, now).notes[i].meta.supersedes == db.notes[i].meta.supersedes
    {
      CommittedRows(db, env, v, b, now, i);
    }
    SamePaths(db.notes, Commit(db, env, v, b, now).notes, r, p);
  }

  lemma SamePaths(notes: Notes, after: Notes, r: Id, p: seq<Id>)
    requires after.Keys == notes.Keys + {r} && r !in notes && after[r].meta.supersedes.None?
    requires forall i <- notes :: i in after && after[i].meta.supersedes == notes[i].meta.supersedes
    ensures SuccessorPath(after, r, p) <==> SuccessorPath(notes, r, p)
  {
    if SuccessorPath(after, r, p) {
      forall i | i in p ensures i in notes {
        var k :| 0 <= k < |p| && p[k] == i;
        assert p[k] in after.Keys;
        assert k == 0 || after[p[k]].meta.supersedes == Some(p[k - 1]);
      }
    }
  }

  lemma SuccessorAfterCommit(db: Db, env: Env, v: Verdict, b: Batch, now: Stamp, r: Id)
    requires b.params.maxGroup >= 2 && Decide(db, env, v, b).Planned?
    requires Decide(db, env, v, b).plan.created && Decide(db, env, v, b).plan.replacement == Some(r)
    ensures HasActiveSuccessor(Commit(db, env, v, b, now).notes, r)
            <==> SucceededOutside(db.notes, r, Decide(db, env, v, b).plan.archived)
  {
    var after := Commit(db, env, v, b, now).notes;
    var archived := Decide(db, env, v, b).plan.archived;
    if p :| SuccessorPath(after, r, p) && after[p[|p| - 1]].archivedAt.None? {
      PathAfterCommit(db, env, v, b, now, r, p);
      CommittedRows(db, env, v, b, now, p[|p| - 1]);
    }
    if p :| SuccessorPath(db.notes, r, p) && db.notes[p[|p| - 1]].archivedAt.None? && p[|p| - 1] !in archived {
      PathAfterCommit(db, env, v, b, now, r, p);
      CommittedRows(db, env, v, b, now, p[|p| - 1]);
    }
  }

  lemma LaterAfterCommit(db: Db, env: Env, v: Verdict, b: Batch, now: Stamp, r: Id)
    requires b.params.maxGroup >= 2 && Decide(db, env, v, b).Planned? && InvActions(db) && r !in db.notes
    ensures InLaterAction(Commit(db, env, v, b, now), r) <==> InLaterAction(db, r)
  {
    PlannedOnGroup(env, v, b, LoadState(db, env, v, b));
    var a := ActionOf(db, v, b, Decide(db, env, v, b).plan, now);
    assert r !in a.members;
    LaterWithOneMore(db, Commit(db, env, v, b, now), a, r);
  }

  lemma LaterWithOneMore(db: Db, after: Db, a: Action, r: Id)
    requires InvActions(db) && after.actions == db.actions[db.nextAction := a] && r !in a.members
    ensures InLaterAction(after, r) <==> InLaterAction(db, r)
  {
    assert db.nextAction !in db.actions;
    if InLaterAction(db, r) {
      var c :| c in db.actions && db.actions[c].undone.None? && db.actions[c].verb != Keep
               && r in db.actions[c].members;
      assert c in after.actions;
    }
  }

  lemma {:induction false} NoneRefused(notes: Notes, a: Action, ids: seq<Id>)
    requires forall i <- ids :: NoteRefusal(notes, a, i).None?
    ensures ArchivedRefusal(notes, a, ids).None?
  {
    if ids != [] {
      assert ids[0] in ids;
      NoneRefused(notes, a, ids[1..]);
    }
  }

  lemma FreshArchiveAccepted(db: Db, env: Env, v: Verdict, b: Batch, now: Stamp)
    requires b.params.maxGroup >= 2 && Decide(db, env, v, b).Planned?
    requires forall i <- db.notes :: !SetAfter(db.notes[i].meta, now)
    ensures var after := Commit(db, env, v, b, now);
      ArchivedRefusal(after.notes, after.actions[db.nextAction], after.actions[db.nextAction].archived).None?
  {
    DecidedIsSound(db, env, v, b);
    var after := Commit(db, env, v, b, now);
    var a := after.actions[db.nextAction];
    forall i | i in a.archived ensures NoteRefusal(after.notes, a, i).None? {
      CommittedRows(db, env, v, b, now, i);
    }
    NoneRefused(after.notes, a, a.archived);
  }

  lemma FreshPriorRegistered(db: Db, env: Env, v: Verdict, b: Batch, now: Stamp)
    requires b.params.maxGroup >= 2 && Decide(db, env, v, b).Planned? && InvRows(db)
    ensures PriorRegistered(Commit(db, env, v, b, now), Commit(db, env, v, b, now).actions[db.nextAction])
  {
    var a := ActionOf(db, v, b, Decide(db, env, v, b).plan, now);
    forall i | i in a.prior ensures forall s <- a.prior[i].entities :: s in db.registry {
      assert GoodRow(db.registry, db.notes[i]);
    }
  }

  lemma FreshReplacementRefusal(db: Db, env: Env, v: Verdict, b: Batch, now: Stamp)
    requires b.params.maxGroup >= 2 && Decide(db, env, v, b).Planned? && InvActions(db)
    ensures ReplacementRefusal(Commit(db, env, v, b, now), Commit(db, env, v, b, now).actions[db.nextAction]).None?
            <==> !LeftoversOf(db, Decide(db, env, v, b).plan)
  {
    var plan := Decide(db, env, v, b).plan;
    if plan.created {
      DecidedIsSound(db, env, v, b);
      var r := plan.replacement.value;
      CommittedReplacement(db, env, v, b, now, r);
      SuccessorAfterCommit(db, env, v, b, now, r);
      LaterAfterCommit(db, env, v, b, now, r);
    }
  }

  lemma UndoAtOnceBehind(db: Db, env: Env, v: Verdict, b: Batch, now: Stamp)
    requires Inv(env, db) && b.params.maxGroup >= 2 && Decide(db, env, v, b).Planned?
    requires NotesBehind(db.notes, now)
    ensures UndoAccepted(Commit(db, env, v, b, now), db.nextAction)
            <==> Decide(db, env, v, b).plan.verb != Keep && !LeftoversOf(db, Decide(db, env, v, b).plan)
  {
    FreshArchiveAccepted(db, env, v, b, now);
    FreshPriorRegistered(db, env, v, b, now);
    FreshReplacementRefusal(db, env, v, b, now);
  }

  // ---- slug stamps ----------------------------------------------------------

  ghost predicate NotesBehind(notes: Notes, t: Stamp)
  {
    forall i <- notes :: !SetAfter(notes[i].meta, t)
  }

  ghost predicate PriorsBehind(actions: map<nat, Action>, t: Stamp)
  {
    forall a <- actions :: forall i <- actions[a].prior :: !SetAfter(actions[a].prior[i], t)
  }

  /** Every slug stamp, on a note or in an action's record, was taken under the lock by now. */
  ghost predicate StampsBehind(db: Db, t: Stamp)
  {
    NotesBehind(db.notes, t) && PriorsBehind(db.actions, t)
  }

  lemma SaveStaysBehind(db: Db, env: Env, q: SaveRequest, now: Stamp, t: Stamp)
    requires NotesBehind(db.notes, t)
    ensures NotesBehind(Save(db, env, q, now).notes, t)
  {
    if SaveCheck(db, env, q, now).None? {
      SavedRowIsUnset(env, q, now);
    }
  }

  lemma SavedRowIsUnset(env: Env, q: SaveRequest, now: Stamp)
    requires SavedRow(env, q, now).Some?
    ensures SavedRow(env, q, now).value.meta.entitiesSetAt.None?
  {
  }

  lemma CommitStaysBehind(db: Db, env: Env, v: Verdict, b: Batch, now: Stamp, t: Stamp)
    requires StampsBehind(db, t) && b.params.maxGroup >= 2 && Decide(db, env, v, b).Planned?
    ensures StampsBehind(Commit(db, env, v, b, now), t)
  {
    var after := Commit(db, env, v, b, now);
    var plan := Decide(db, env, v, b).plan;
    if plan.created {
      DecidedIsSound(db, env, v, b);
      CommittedReplacement(db, env, v, b, now, plan.replacement.value);
    } else {
      NothingInserted(db, env, v, b, now);
    }
    forall i | i in after.notes ensures !SetAfter(after.notes[i].meta, t) {
      if i in db.notes {
        CommittedRows(db, env, v, b, now, i);
      }
    }
    PriorStaysBehind(db, v, b, plan, now, t);
  }

  lemma PriorStaysBehind(db: Db, v: Verdict, b: Batch, plan: Plan, now: Stamp, t: Stamp)
    requires StampsBehind(db, t)
    ensures PriorsBehind(db.actions[db.nextAction := ActionOf(db, v, b, plan, now)], t)
  {
  }

  lemma UndoStaysBehind(db: Db, id: nat, who: string, now: Stamp, t: Stamp)
    requires StampsBehind(db, t)
    ensures StampsBehind(Undo(db, id, who, now), t)
  {
    if UndoAccepted(db, id) {
      var a := db.actions[id];
      assert forall i <- a.prior :: !SetAfter(a.prior[i], t);
      assert forall i <- db.notes :: !SetAfter(db.notes[i].meta, t);
    }
  }

  lemma BehindLater(db: Db, t: Stamp, u: Stamp)
    requires StampsBehind(db, t) && t <= u
    ensures StampsBehind(db, u)
  {
  }

  lemma StepStaysBehind(m: Moment, env: Env, ev: Event)
    requires Ready(m, ev) && StampsBehind(m.db, m.locked)
    ensures StampsBehind(After(m, env, ev).db, After(m, env, ev).locked)
  {
    var t := After(m, env, ev).locked;
    BehindLater(m.db, m.locked, t);
    match ev
    case Saves(q, now) => SaveStaysBehind(m.db, env, q, now, t);
    case Judges(v, b, snapshot, now) =>
      ProcessRefines(snapshot, m.db, env, v, b, now);
      if Decide(m.db, env, v, b).Planned? {
        CommitStaysBehind(m.db, env, v, b, now, t);
      }
    case Undoes(id, who, now) => UndoStaysBehind(m.db, id, who, now, t);
    case Facts(ops, who, dryRun, now) =>
      if ApplyOps(m.db, ops, who, now).Some? {
        FactsTouchOnlyFacts(m.db, ops, who, now);
      }
    case _ =>
  }

  /** In every run the slug stamps are behind the lock's clock. */
  lemma {:induction false} RunStaysBehind(env: Env, ms: seq<Moment>, evs: seq<Event>)
    requires Run(env, ms, evs) && StampsBehind(ms[0].db, ms[0].locked)
    ensures StampsBehind(ms[|evs|].db, ms[|evs|].locked)
    decreases |evs|
  {
    if evs != [] {
      RunTail(env, ms, evs);
      StepStaysBehind(ms[0], env, evs[0]);
      RunStaysBehind(env, ms[1..], evs[1..]);
    }
  }

  /**
   At any moment a history reaches, undoing an action at once is accepted exactly when it archived
   something and, if it created a replacement, no trace of an earlier note with the same id is left:
   no active note outside the merged ones reachable from the id through supersedes links, and no
   standing retire or merge that lists the id as a member.
   */
  lemma UndoAtOnce(env: Env, ms: seq<Moment>, evs: seq<Event>, v: Verdict, b: Batch, snapshot: Db, now: Stamp)
    requires Run(env, ms, evs) && Initial(ms[0].db) && Ready(ms[|evs|], Judges(v, b, snapshot, now))
    requires Decide(ms[|evs|].db, env, v, b).Planned?
    ensures var db := ms[|evs|].db;
      UndoAccepted(Commit(db, env, v, b, now), db.nextAction)
      <==> Decide(db, env, v, b).plan.verb != Keep && !LeftoversOf(db, Decide(db, env, v, b).plan)
  {
    EveryReachableState(env, ms, evs);
    RunStaysBehind(env, ms, evs);
    BehindLater(ms[|evs|].db, ms[|evs|].locked, now);
    UndoAtOnceBehind(ms[|evs|].db, env, v, b, now);
  }

  /** When it is accepted, the active notes are again what they were. */
  lemma UndoAtOnceIsIdentity(db: Db, env: Env, v: Verdict, b: Batch, now: Stamp, who: string, later: Stamp)
    requires Inv(env, db) && b.params.maxGroup >= 2 && Decide(db, env, v, b).Planned?
    requires UndoAccepted(Commit(db, env, v, b, now), db.nextAction)
    ensures ActiveView(Undo(Commit(db, env, v, b, now), db.nextAction, who, later).notes) == ActiveView(db.notes)
  {
    var m := Moment(Commit(db, env, v, b, now), {now}, now);
    var a := ActionOf(db, v, b, Decide(db, env, v, b).plan, now);
    DecidedIsSound(db, env, v, b);
    CommitRecords(db, env, v, b, now);
    forall i | i in a.archived
      ensures i in db.notes && m.db.notes[i] == ArchivedInto(db.notes[i], now, b.author, a.survivors)
    {
      CommittedRows(db, env, v, b, now, i);
    }
    UndoRestores(m, db.nextAction, a, db.notes, who, later);
    if a.created {
      CommittedReplacement(db, env, v, b, now, a.replacement.value);
    } else {
      NothingInserted(db, env, v, b, now);
    }
    var after := Undo(m.db, db.nextAction, who, later).notes;
    forall i | i in db.notes ensures i in after && after[i] == db.notes[i] {
      CommittedRows(db, env, v, b, now, i);
      BackAgain(after, m.db.notes, db.notes, a, i);
    }
    SameActiveView(db.notes, after, a);
  }

  lemma BackAgain(after: Notes, mid: Notes, before: Notes, a: Action, i: Id)
    requires i in before && i in mid && after.Keys == mid.Keys
    requires forall j <- a.archived :: j in after && j in before && after[j] == before[j]
    requires i !in a.archived ==> mid[i] == before[i]
    requires a.created ==> a.replacement.Some? && a.replacement.value !in before
    requires forall j <- after :: j !in a.archived && !(a.created && a.replacement == Some(j)) ==> after[j] == mid[j]
    ensures after[i] == before[i]
  {
  }

  lemma SameActiveView(before: Notes, after: Notes, a: Action)
    requires forall i <- before :: i in after && after[i] == before[i]
    requires forall i <- after :: i in before || after[i].archivedAt.Some?
    ensures ActiveView(after) == ActiveView(before)
  {
  }

  lemma NothingInserted(db: Db, env: Env, v: Verdict, b: Batch, now: Stamp)
    requires b.params.maxGroup >= 2 && Decide(db, env, v, b).Planned? && !Decide(db, env, v, b).plan.created
    ensures Commit(db, env, v, b, now).notes.Keys == db.notes.Keys
  {
  }
}
