/** What an action may still assume about its notes after any history, and what undoing it does. */
module Runs {
  import opened Basics
  import opened Text
  import opened Rows
  import opened NoteOps
  import opened Registry
  import opened Verdicts
  import opened PlanFacts
  import opened Histories
  import opened InvNotes

  // ---- the action table -----------------------------------------------------

  /** Ids come from the sequence; no two actions share an idempotency key or a group key. */
  ghost predicate InvActions(db: Db)
  {
    && (forall a <- db.actions :: a < db.nextAction)
    && (forall a <- db.actions, c <- db.actions :: a != c ==>
          db.actions[a].idem != db.actions[c].idem && db.actions[a].key != db.actions[c].key)
  }

  /** Once written, an action row only ever gains its undo. */
  predicate SameAction(a: Action, c: Action)
  {
    a == c.(undone := a.undone)
  }

  ghost predicate ActionsKept(db: Db, after: Db)
  {
    forall a <- db.actions :: a in after.actions && SameAction(db.actions[a], after.actions[a])
                              && (db.actions[a].undone.Some? ==> after.actions[a] == db.actions[a])
  }

  lemma CommitIsNew(db: Db, env: Env, v: Verdict, b: Batch)
    requires b.params.maxGroup >= 2 && Decide(db, env, v, b).Planned?
    ensures forall a <- db.actions :: db.actions[a].idem != v.idem && db.actions[a].key != v.key
  {
    PlannedOnGroup(env, v, b, LoadState(db, env, v, b));
  }

  lemma SameActionsKept(db: Db, after: Db)
    requires InvActions(db) && after.actions == db.actions && after.nextAction == db.nextAction
    ensures InvActions(after) && ActionsKept(db, after)
  {
  }

  lemma CommitKeepsActions(db: Db, env: Env, v: Verdict, b: Batch, now: Stamp)
    requires InvActions(db) && b.params.maxGroup >= 2 && Decide(db, env, v, b).Planned?
    ensures InvActions(Commit(db, env, v, b, now)) && ActionsKept(db, Commit(db, env, v, b, now))
  {
    CommitIsNew(db, env, v, b);
  }

  lemma UndoKeepsActions(db: Db, id: nat, who: string, now: Stamp)
    requires InvActions(db)
    ensures InvActions(Undo(db, id, who, now)) && ActionsKept(db, Undo(db, id, who, now))
  {
    var after := Undo(db, id, who, now);
    if after != db {
      assert after.actions == db.actions[id := UndoneAction(db.actions[id], now, who)];
      assert forall a <- after.actions ::
          after.actions[a].idem == db.actions[a].idem && after.actions[a].key == db.actions[a].key;
    }
  }

  lemma StepKeepsActions(db: Db, env: Env, ev: Event)
    requires InvActions(db) && WellFormed(ev)
    ensures InvActions(Next(db, env, ev)) && ActionsKept(db, Next(db, env, ev))
  {
    match ev
    case Judges(v, b, snapshot, now) =>
      ProcessRefines(snapshot, db, env, v, b, now);
      if Decide(db, env, v, b).Planned? {
        CommitKeepsActions(db, env, v, b, now);
      }
      SameActionsKept(db, db);
    case Undoes(id, who, now) =>
      UndoKeepsActions(db, id, who, now);
    case Facts(ops, who, dryRun, now) =>
      if ApplyOps(db, ops, who, now).Some? {
        FactsTouchOnlyFacts(db, ops, who, now);
      }
      SameActionsKept(db, Next(db, env, ev));
    case _ =>
      SameActionsKept(db, Next(db, env, ev));
  }

  // ---- rows between an action and its undo -----------------------------------

  /**
   A row that changed shows it: it is active, or archived at `now`, or, under the lock, had its
   slugs set at `now`.
   */
  ghost predicate Marked(r: Row, now: Stamp, locked: bool)
  {
    r.archivedAt.None? || r.archivedAt == Some(now) || (locked && r.meta.entitiesSetAt == Some(now))
  }

  ghost predicate ChangesAreMarked(notes: Notes, after: Notes, now: Stamp, locked: bool)
  {
    forall i <- after :: (i in notes && after[i] == notes[i]) || Marked(after[i], now, locked)
  }

  lemma SaveMarks(db: Db, env: Env, q: SaveRequest, now: Stamp)
    ensures ChangesAreMarked(db.notes, Save(db, env, q, now).notes, now, false)
  {
    if SaveCheck(db, env, q, now).None? {
      SavedRowIsGood(db, env, q, now);
      SavedRowIsActive(env, q, now);
    }
  }

  lemma SavedRowIsActive(env: Env, q: SaveRequest, now: Stamp)
    requires SavedRow(env, q, now).Some?
    ensures SavedRow(env, q, now).value.archivedAt.None?
  {
  }

  lemma CommitMarks(db: Db, env: Env, v: Verdict, b: Batch, now: Stamp)
    requires b.params.maxGroup >= 2 && Decide(db, env, v, b).Planned?
    ensures ChangesAreMarked(db.notes, Commit(db, env, v, b, now).notes, now, true)
  {
  }

  lemma UndoMarks(db: Db, id: nat, who: string, now: Stamp)
    ensures ChangesAreMarked(db.notes, Undo(db, id, who, now).notes, now, true)
  {
  }

  function StampOf(ev: Event): Stamp
  {
    if ev.Restores? then 0 else ev.now
  }

  lemma StepMarks(db: Db, env: Env, ev: Event)
    requires WellFormed(ev)
    ensures ChangesAreMarked(db.notes, Next(db, env, ev).notes, StampOf(ev), StampsUnderLock(ev))
            || (ev.Restores? && forall i <- Next(db, env, ev).notes ::
                  || (i in db.notes && Next(db, env, ev).notes[i] == db.notes[i])
                  || Next(db, env, ev).notes[i].archivedAt.None?)
  {
    match ev
    case Saves(q, now) => SaveMarks(db, env, q, now);
    case Judges(v, b, snapshot, now) =>
      ProcessRefines(snapshot, db, env, v, b, now);
      if Decide(db, env, v, b).Planned? {
        CommitMarks(db, env, v, b, now);
      }
    case Undoes(id, who, now) => UndoMarks(db, id, who, now);
    case Facts(ops, who, dryRun, now) =>
      if ApplyOps(db, ops, who, now).Some? {
        FactsTouchOnlyFacts(db, ops, who, now);
      }
    case _ =>
  }

  /** A later change to note i that the undo of an action applied at t will notice. */
  predicate Spoiled(notes: Notes, i: Id, t: Stamp)
  {
    i !in notes || notes[i].archivedAt != Some(t) || SetAfter(notes[i].meta, t)
  }

  /** Once spoiled, always spoiled; until then, untouched. */
  lemma StepSpoils(m: Moment, env: Env, ev: Event, i: Id, t: Stamp)
    requires Ready(m, ev) && t in m.used && t <= m.locked
    ensures var after := Next(m.db, env, ev).notes;
      || Spoiled(after, i, t)
      || (!Spoiled(m.db.notes, i, t) && after[i] == m.db.notes[i])
  {
    StepMarks(m.db, env, ev);
  }

  /** The rows before the action, `rows`, are recoverable from every note still unspoiled. */
  ghost predicate Holds(m: Moment, id: nat, a: Action, rows: Notes)
  {
    && a.appliedAt in m.used && a.appliedAt <= m.locked
    && id in m.db.actions && SameAction(a, m.db.actions[id])
    && forall i <- a.archived :: i in rows
         && (Spoiled(m.db.notes, i, a.appliedAt)
             || m.db.notes[i] == ArchivedInto(rows[i], a.appliedAt, a.author, a.survivors))
  }

  lemma StepHolds(m: Moment, env: Env, ev: Event, id: nat, a: Action, rows: Notes)
    requires Ready(m, ev) && InvActions(m.db) && Holds(m, id, a, rows)
    ensures Holds(After(m, env, ev), id, a, rows)
  {
    StepKeepsActions(m.db, env, ev);
    forall i | i in a.archived
      ensures Spoiled(Next(m.db, env, ev).notes, i, a.appliedAt)
              || Next(m.db, env, ev).notes[i] == ArchivedInto(rows[i], a.appliedAt, a.author, a.survivors)
    {
      StepSpoils(m, env, ev, i, a.appliedAt);
    }
  }

  /** Right after the action, nothing is spoiled. */
  lemma CommitHolds(m: Moment, env: Env, v: Verdict, b: Batch, snapshot: Db, now: Stamp)
    requires Ready(m, Judges(v, b, snapshot, now)) && InvActions(m.db)
    requires Decide(m.db, env, v, b).Planned?
    requires Next(m.db, env, Judges(v, b, snapshot, now)) == Commit(m.db, env, v, b, now)
    ensures Holds(After(m, env, Judges(v, b, snapshot, now)), m.db.nextAction,
                  ActionOf(m.db, v, b, Decide(m.db, env, v, b).plan, now), m.db.notes)
  {
    DecidedIsSound(m.db, env, v, b);
  }

  /** The first step of a run, and the run after it. */
  lemma RunTail(env: Env, ms: seq<Moment>, evs: seq<Event>)
    requires Run(env, ms, evs) && evs != []
    ensures Ready(ms[0], evs[0]) && ms[1] == After(ms[0], env, evs[0]) && ms[1..][0] == ms[1]
    ensures Run(env, ms[1..], evs[1..]) && ms[1..][|evs[1..]|] == ms[|evs|]
  {
  }

  lemma {:induction false} RunHolds(env: Env, ms: seq<Moment>, evs: seq<Event>, id: nat, a: Action, rows: Notes)
    requires Run(env, ms, evs) && InvActions(ms[0].db) && Holds(ms[0], id, a, rows)
    ensures InvActions(ms[|evs|].db) && Holds(ms[|evs|], id, a, rows)
    decreases |evs|
  {
    if evs != [] {
      RunTail(env, ms, evs);
      StepKeepsActions(ms[0].db, env, evs[0]);
      StepHolds(ms[0], env, evs[0], id, a, rows);
      RunHolds(env, ms[1..], evs[1..], id, a, rows);
    }
  }

  // ---- undo -----------------------------------------------------------------

  lemma {:induction false} NoRefusal(notes: Notes, a: Action, ids: seq<Id>, i: Id)
    requires ArchivedRefusal(notes, a, ids).None? && i in ids
    ensures NoteRefusal(notes, a, i).None? && !Spoiled(notes, i, a.appliedAt)
  {
    if i != ids[0] {
      NoRefusal(notes, a, ids[1..], i);
    }
  }

  /** An accepted undo finds every archived note exactly as its action left it. */
  lemma AcceptedFindsIntact(m: Moment, id: nat, a: Action, rows: Notes, i: Id)
    requires Holds(m, id, a, rows) && UndoAccepted(m.db, id) && i in a.archived
    ensures i in rows && i in m.db.notes
    ensures m.db.notes[i] == ArchivedInto(rows[i], a.appliedAt, a.author, a.survivors)
  {
    NoRefusal(m.db.notes, m.db.actions[id], a.archived, i);
  }

  /** The action's record covers what it archived. */
  ghost predicate Records(a: Action, rows: Notes)
  {
    && a.prior.Keys == Elems(a.archived)
    && (forall i <- a.archived :: i in rows && rows[i].archivedAt.None? && a.prior[i] == rows[i].meta)
    && (a.created ==> a.replacement.Some? && a.replacement.value !in a.archived)
  }

  lemma CommitRecords(db: Db, env: Env, v: Verdict, b: Batch, now: Stamp)
    requires b.params.maxGroup >= 2 && Decide(db, env, v, b).Planned?
    ensures Records(ActionOf(db, v, b, Decide(db, env, v, b).plan, now), db.notes)
  {
    DecidedIsSound(db, env, v, b);
    var plan := Decide(db, env, v, b).plan;
    var a := ActionOf(db, v, b, plan, now);
    assert a.prior.Keys == Elems(a.archived);
    if plan.created {
      assert plan.replacement.value !in plan.archived;
    }
  }

  /** The notes an accepted undo leaves. */
  lemma UndoRestores(m: Moment, id: nat, a: Action, rows: Notes, who: string, now: Stamp)
    requires Holds(m, id, a, rows) && Records(a, rows) && UndoAccepted(m.db, id)
    ensures var after := Undo(m.db, id, who, now).notes;
      && after.Keys == m.db.notes.Keys
      && (forall i <- a.archived :: i in after && after[i] == rows[i])
      && (a.created ==> a.replacement.value in after && after[a.replacement.value].archivedAt.Some?)
      && (forall i <- after ::
            i !in a.archived && !(a.created && a.replacement == Some(i)) ==> after[i] == m.db.notes[i])
  {
    forall i | i in a.archived
      ensures i in m.db.notes && Undo(m.db, id, who, now).notes[i] == rows[i]
    {
      AcceptedFindsIntact(m, id, a, rows, i);
      assert i in a.prior.Keys by { assert i in Elems(a.archived); }
    }
  }

  /**
   Undo is exact, after any history. Whatever transactions ran between an action and its accepted
   undo, the undo gives back each archived note as it was just before the action, and changes the
   active notes by exactly those, less the replacement the action created.
   */
  lemma UndoIsExact(env: Env, ms: seq<Moment>, evs: seq<Event>, v: Verdict, b: Batch, snapshot: Db, applied: Stamp,
                    who: string, now: Stamp)
    requires Run(env, ms, evs) && InvActions(ms[0].db) && |evs| > 0
    requires evs[0] == Judges(v, b, snapshot, applied) && Decide(ms[0].db, env, v, b).Planned?
    requires ms[1].db == Commit(ms[0].db, env, v, b, applied)
    requires UndoAccepted(ms[|evs|].db, ms[0].db.nextAction)
    ensures var before := ms[0].db.notes;
      var last := ms[|evs|].db.notes;
      var plan := Decide(ms[0].db, env, v, b).plan;
      var after := Undo(ms[|evs|].db, ms[0].db.nextAction, who, now).notes;
      && (forall i <- plan.archived :: i in before && i in after && after[i] == before[i])
      && (forall i :: Active(after, i) <==>
            i in plan.archived || (Active(last, i) && !(plan.created && plan.replacement == Some(i))))
      && (forall i :: Active(after, i) && i !in plan.archived ==> after[i] == last[i])
  {
    var id := ms[0].db.nextAction;
    var a := ActionOf(ms[0].db, v, b, Decide(ms[0].db, env, v, b).plan, applied);
    var rows := ms[0].db.notes;
    CommitHolds(ms[0], env, v, b, snapshot, applied);
    CommitRecords(ms[0].db, env, v, b, applied);
    StepKeepsActions(ms[0].db, env, evs[0]);
    assert Run(env, ms[1..], evs[1..]);
    RunHolds(env, ms[1..], evs[1..], id, a, rows);
    UndoRestores(ms[|evs|], id, a, rows, who, now);
  }

  // ---- deleted entities -----------------------------------------------------

  /** Deleting an entity marks every note that holds it. */
  lemma DropSpoils(m: Moment, env: Env, ev: Event, id: nat, a: Action, rows: Notes, i: Id)
    requires Ready(m, ev) && Holds(m, id, a, rows) && i in a.archived
    requires ev.Drops? && !ev.dryRun && ev.slug in rows[i].meta.entities
    requires Next(m.db, env, ev) != m.db
    ensures Spoiled(Next(m.db, env, ev).notes, i, a.appliedAt)
  {
    StepSpoils(m, env, ev, i, a.appliedAt);
  }

  lemma {:induction false} RunStaysSpoiled(env: Env, ms: seq<Moment>, evs: seq<Event>, i: Id, t: Stamp)
    requires Run(env, ms, evs) && t in ms[0].used && t <= ms[0].locked && Spoiled(ms[0].db.notes, i, t)
    ensures Spoiled(ms[|evs|].db.notes, i, t)
    decreases |evs|
  {
    if evs != [] {
      StepSpoils(ms[0], env, evs[0], i, t);
      assert Run(env, ms[1..], evs[1..]);
      RunStaysSpoiled(env, ms[1..], evs[1..], i, t);
    }
  }

  lemma RunCut(env: Env, ms: seq<Moment>, evs: seq<Event>, from: nat, to: nat)
    requires Run(env, ms, evs) && from <= to <= |evs|
    ensures Run(env, ms[from..to + 1], evs[from..to])
  {
    var cs, es := ms[from..to + 1], evs[from..to];
    forall k | 0 <= k < |es| ensures Ready(cs[k], es[k]) && cs[k + 1] == After(cs[k], env, es[k]) {
      assert cs[k] == ms[from + k] && cs[k + 1] == ms[(from + k) + 1] && es[k] == evs[from + k];
    }
  }

  lemma SpoiledIsRefused(m: Moment, id: nat, a: Action, rows: Notes, i: Id)
    requires Holds(m, id, a, rows) && i in a.archived && Spoiled(m.db.notes, i, a.appliedAt)
    ensures !UndoAccepted(m.db, id)
  {
    if UndoAccepted(m.db, id) {
      NoRefusal(m.db.notes, m.db.actions[id], a.archived, i);
    }
  }

  lemma DropSpoilsForever(env: Env, ms: seq<Moment>, evs: seq<Event>, id: nat, a: Action, rows: Notes, i: Id)
    requires Run(env, ms, evs) && evs != [] && Holds(ms[0], id, a, rows) && i in a.archived
    requires evs[0].Drops? && !evs[0].dryRun && evs[0].slug in rows[i].meta.entities && ms[1].db != ms[0].db
    ensures Spoiled(ms[|evs|].db.notes, i, a.appliedAt)
  {
    DropSpoils(ms[0], env, evs[0], id, a, rows, i);
    assert Run(env, ms[1..], evs[1..]);
    RunStaysSpoiled(env, ms[1..], evs[1..], i, a.appliedAt);
  }

  /**
   A slug deleted after an action is never reattached by undoing it, even when an entity was
   registered under it again: no accepted undo restores a note that held the slug.
   */
  lemma DeletedSlugStaysOff(env: Env, ms: seq<Moment>, evs: seq<Event>, id: nat, a: Action, rows: Notes,
                            k: nat, i: Id)
    requires Run(env, ms, evs) && InvActions(ms[0].db) && Holds(ms[0], id, a, rows)
    requires k < |evs| && evs[k].Drops? && !evs[k].dryRun && ms[k + 1].db != ms[k].db
    requires i in a.archived && evs[k].slug in rows[i].meta.entities
    ensures !UndoAccepted(ms[|evs|].db, id)
  {
    RunCut(env, ms, evs, 0, k);
    RunHolds(env, ms[0..k + 1], evs[0..k], id, a, rows);
    RunCut(env, ms, evs, k, |evs|);
    DropSpoilsForever(env, ms[k..], evs[k..], id, a, rows, i);
    RunHolds(env, ms, evs, id, a, rows);
    SpoiledIsRefused(ms[|evs|], id, a, rows, i);
  }
}
