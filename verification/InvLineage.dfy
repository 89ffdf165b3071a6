/** Archive lineage in every reachable state: links name notes that were active, and never form a cycle. */
module InvLineage {
  import opened Basics
  import opened Rows
  import opened NoteOps
  import opened Registry
  import opened Verdicts
  import opened PlanFacts
  import opened Histories
  import opened InvNotes
  import GroupResult
  import Text

  /** u records that v replaced or absorbed it. */
  ghost predicate Points(notes: Notes, u: Id, v: Id)
  {
    && u in notes
    && (|| notes[u].meta.replacedBy == Some(v)
        || (notes[u].meta.consolidatedInto.Some? && v in notes[u].meta.consolidatedInto.value))
  }

  ghost predicate IsPath(notes: Notes, p: seq<Id>)
  {
    forall k :: 0 <= k < |p| - 1 ==> Points(notes, p[k], p[k + 1])
  }

  ghost predicate Acyclic(notes: Notes)
  {
    forall p | |p| >= 2 && IsPath(notes, p) :: p[0] != p[|p| - 1]
  }

  /** Every link that was not there before leads from an archived note to an active one. */
  ghost predicate LinksNameActive(notes: Notes, after: Notes)
  {
    forall u, v | Points(after, u, v) :: Points(notes, u, v) || (Active(after, v) && !Active(after, u))
  }

  ghost predicate ActiveIsClean(notes: Notes)
  {
    forall i <- notes :: CleanRow(notes[i])
  }

  /** Links into notes without links of their own close no cycle. */
  lemma StaysAcyclic(notes: Notes, after: Notes)
    requires Acyclic(notes) && LinksNameActive(notes, after) && ActiveIsClean(after)
    ensures Acyclic(after)
  {
    forall p | |p| >= 2 && IsPath(after, p) ensures p[0] != p[|p| - 1] {
      if p[0] == p[|p| - 1] {
        forall k | 0 <= k < |p| - 1 ensures Points(notes, p[k], p[k + 1]) {
          assert Points(after, p[k], p[k + 1]);
          var next := if k + 1 < |p| - 1 then k + 1 else 0;
          assert p[next] == p[k + 1] && Points(after, p[next], p[next + 1]);
          if Active(after, p[k + 1]) {
          }
        }
        assert IsPath(notes, p);
      }
    }
  }

  // ---- each transaction -----------------------------------------------------

  lemma SaveLinks(db: Db, env: Env, q: SaveRequest, now: Stamp)
    requires InvRows(db)
    ensures LinksNameActive(db.notes, Save(db, env, q, now).notes)
  {
    if SaveCheck(db, env, q, now).None? {
      SavedRowIsGood(db, env, q, now);
      var after := Save(db, env, q, now).notes;
      var id := SaveId(q);
      forall u, v | Points(after, u, v) && !Points(db.notes, u, v) ensures Active(after, v) && !Active(after, u) {
      }
    }
  }

  lemma ApplyNotesLinks(notes: Notes, made: Option<Row>, plan: Plan, now: Stamp, who: string)
    requires plan.created ==> made.Some? && plan.replacement.Some? && plan.survivors == [plan.replacement.value]
    requires made.Some? ==> made.value.archivedAt.None? && Clean(made.value.meta)
    requires !plan.created ==> made.None? && forall s <- plan.survivors :: Active(notes, s)
    requires plan.created ==> plan.replacement.value !in notes
    requires forall s <- plan.survivors :: s !in plan.archived
    ensures LinksNameActive(notes, ApplyNotes(notes, made, plan, now, who))
  {
  }

  lemma ApplyLinks(db: Db, env: Env, v: Verdict, b: Batch, now: Stamp)
    requires InvRows(db) && b.params.maxGroup >= 2 && Decide(db, env, v, b).Planned?
    ensures LinksNameActive(db.notes, Commit(db, env, v, b, now).notes)
  {
    DecidedIsSound(db, env, v, b);
    var plan := Decide(db, env, v, b).plan;
    if plan.created {
      CreatedExists(db, env, v, b, now);
    }
    ApplyNotesLinks(db.notes, CreatedRow(db, env, v, plan, LoadState(db, env, v, b).notes, now), plan, now, b.author);
  }

  lemma OnlyMergeCreates(env: Env, v: Verdict, st: State, members: seq<Id>)
    requires members != [] && forall i <- members :: i in st.notes
    requires PlanVerb(env, v, st, members).Planned? && PlanVerb(env, v, st, members).plan.created
    ensures ReplacementRow(env, v, st.notes, members, 0).Some?
  {
  }

  /** A plan that creates a replacement has a row for it. */
  lemma CreatedExists(db: Db, env: Env, v: Verdict, b: Batch, now: Stamp)
    requires b.params.maxGroup >= 2 && Decide(db, env, v, b).Planned? && Decide(db, env, v, b).plan.created
    ensures var plan := Decide(db, env, v, b).plan;
      var made := CreatedRow(db, env, v, plan, LoadState(db, env, v, b).notes, now);
      made.Some? && Clean(made.value.meta) && made.value.archivedAt.None? && made.value.meta.supersedes.None?
  {
    var st := LoadState(db, env, v, b);
    var members := Text.SortStrings(v.memberIds);
    PlannedOnGroup(env, v, b, st);
    OnlyMergeCreates(env, v, st, members);
    RowIgnoresClock(env, v, st.notes, members, now);
    CreatedRowIs(db, env, v, Decide(db, env, v, b).plan, st.notes, now);
  }

  lemma CreatedRowIs(db: Db, env: Env, v: Verdict, plan: Plan, M: map<Id, Note>, now: Stamp)
    requires Text.SortStrings(v.memberIds) != [] && plan.created
    requires forall i <- Text.SortStrings(v.memberIds) :: i in M
    requires ReplacementRow(env, v, M, Text.SortStrings(v.memberIds), now).Some?
    ensures var made := CreatedRow(db, env, v, plan, M, now);
      made.Some? && Clean(made.value.meta) && made.value.archivedAt.None? && made.value.meta.supersedes.None?
  {
  }

  lemma RowIgnoresClock(env: Env, v: Verdict, M: map<Id, Note>, members: seq<Id>, now: Stamp)
    requires members != [] && forall i <- members :: i in M
    ensures ReplacementRow(env, v, M, members, now).Some? == ReplacementRow(env, v, M, members, 0).Some?
  {
  }

  lemma JudgeLinks(snapshot: Db, db: Db, env: Env, v: Verdict, b: Batch, now: Stamp)
    requires InvRows(db) && b.params.maxGroup >= 2
    ensures LinksNameActive(db.notes, Process(snapshot, db, env, v, b, now).db.notes)
  {
    ProcessRefines(snapshot, db, env, v, b, now);
    if Decide(db, env, v, b).Planned? {
      ApplyLinks(db, env, v, b, now);
    }
  }

  lemma UndoLinks(db: Db, id: nat, who: string, now: Stamp)
    requires InvRows(db)
    ensures LinksNameActive(db.notes, Undo(db, id, who, now).notes)
  {
  }

  lemma ArchiveRestoreLinks(db: Db, ids: seq<Id>, now: Stamp, who: string)
    ensures LinksNameActive(db.notes, Archive(db, ids, now, who).notes)
    ensures LinksNameActive(db.notes, Restore(db, ids).notes)
    ensures LinksNameActive(db.notes, Delete(db, ids, now).notes)
  {
  }

  lemma LinkEntityLinks(db: Db, ids: seq<Id>, add: seq<Slug>, remove: seq<Slug>, who: string, confirm: bool, now: Stamp)
    ensures LinksNameActive(db.notes, Link(db, ids, add, remove, who, confirm, now).notes)
  {
  }

  lemma DropLinks(db: Db, slug: Slug, who: string, dryRun: bool, expected: Option<DropPlan>, now: Stamp)
    ensures LinksNameActive(db.notes, DropEntity(db, slug, who, dryRun, expected, now).notes)
  {
  }

  /** Every link a transaction writes names a note that is active when it is written. */
  lemma StepLinksNameActive(db: Db, env: Env, ev: Event)
    requires InvRows(db) && WellFormed(ev)
    ensures LinksNameActive(db.notes, Next(db, env, ev).notes)
  {
    match ev
    case Saves(q, now) => SaveLinks(db, env, q, now);
    case Judges(v, b, snapshot, now) => JudgeLinks(snapshot, db, env, v, b, now);
    case Undoes(id, who, now) => UndoLinks(db, id, who, now);
    case Facts(ops, who, dryRun, now) =>
      if ApplyOps(db, ops, who, now).Some? {
        FactsTouchOnlyFacts(db, ops, who, now);
      }
    case Archives(ids, now, who) => ArchiveRestoreLinks(db, ids, now, who);
    case Restores(ids) => ArchiveRestoreLinks(db, ids, 0, "");
    case Deletes(ids, now) => ArchiveRestoreLinks(db, ids, now, "");
    case Links(ids, add, remove, who, confirm, now) => LinkEntityLinks(db, ids, add, remove, who, confirm, now);
    case Drops(slug, who, dryRun, expected, now) => DropLinks(db, slug, who, dryRun, expected, now);
    case Upserts(items, dryRun, now) =>
  }

  lemma StepStaysAcyclic(db: Db, env: Env, ev: Event)
    requires InvRows(db) && Acyclic(db.notes) && WellFormed(ev)
    ensures Acyclic(Next(db, env, ev).notes)
  {
    StepLinksNameActive(db, env, ev);
    StepKeepsRows(db, env, ev);
    StaysAcyclic(db.notes, Next(db, env, ev).notes);
  }

  /** Following lineage visits no note twice, so it ends after at most one step more than there are notes. */
  lemma LineageEnds(notes: Notes, p: seq<Id>)
    requires Acyclic(notes) && IsPath(notes, p)
    ensures Distinct(p) && |p| <= |notes| + 1
  {
    forall i, j | 0 <= i < j < |p| ensures p[i] != p[j] {
      var q := p[i..j + 1];
      forall k | 0 <= k < |q| - 1 ensures Points(notes, q[k], q[k + 1]) {
        assert q[k] == p[i + k] && q[k + 1] == p[(i + k) + 1];
      }
      assert IsPath(notes, q);
    }
    if p != [] {
      var inner := p[..|p| - 1];
      forall x | x in Elems(inner) ensures x in notes.Keys {
        var k :| 0 <= k < |p| - 1 && p[k] == x;
        assert Points(notes, p[k], p[k + 1]);
      }
      DistinctSize(inner);
      SubsetSize(Elems(inner), notes.Keys);
    }
  }
}
