/** What a caller may rely on after each transaction, and how transactions undo or repeat one another. */
module Effects {
  import opened Basics
  import opened Text
  import opened Rows
  import opened NoteOps
  import opened Registry
  import opened Verdicts
  import opened PlanFacts
  import opened Histories
  import opened InvNotes
  import opened InvLineage
  import opened InvFacts
  import opened Runs
  import opened Reachable
  import opened Convergence

  /** Only the notes of `touched` may differ. */
  predicate OthersSame(before: Notes, after: Notes, touched: set<Id>)
  {
    forall i <- before :: i !in touched ==> i in after && after[i] == before[i]
  }

  // ---- save -----------------------------------------------------------------

  function SupersededBy(q: SaveRequest): set<Id>
  {
    if q.supersedes.Some? then {q.supersedes.value} else {}
  }

  /**
   An accepted save: one note more or none; a new one is active, with the request's text, author and
   namespace; a superseded one is archived behind an active note; no other note changes.
   */
  predicate Saved(before: Notes, after: Notes, q: SaveRequest, now: Stamp)
  {
    var id := SaveId(q);
    && after.Keys == before.Keys + {id}
    && (id !in before ==>
          && Active(after, id) && after[id].text == Strip(q.content) && after[id].meta.author == q.author
          && after[id].ns == q.ns && after[id].saved == now && after[id].meta.supersedes == q.supersedes)
    && (q.supersedes.Some? ==>
          && q.supersedes.value in before && before[q.supersedes.value].ns == q.ns && Active(after, id)
          && after[q.supersedes.value].archivedAt == Some(now)
          && after[q.supersedes.value].meta.replacedBy == Some(id))
    && OthersSame(before, after, SupersededBy(q))
  }

  lemma SaveLeaves(db: Db, env: Env, q: SaveRequest, now: Stamp)
    ensures if SaveCheck(db, env, q, now).Some? then Save(db, env, q, now) == db
            else Saved(db.notes, Save(db, env, q, now).notes, q, now)
  {
    if SaveCheck(db, env, q, now).None? {
      SavedRowIsActive(env, q, now);
    }
  }

  /** The same content saved again is accepted and changes nothing: the note keeps its first save. */
  lemma SaveAgainChangesNothing(db: Db, env: Env, q: SaveRequest, now: Stamp, later: Stamp)
    requires SaveCheck(db, env, q, now).None? && q.supersedes.None? && now <= later
    ensures var after := Save(db, env, q, now);
      SaveCheck(after, env, q, later).None? && Save(after, env, q, later) == after
  {
    SameRowLater(env, q, now, later);
  }

  lemma SameRowLater(env: Env, q: SaveRequest, now: Stamp, later: Stamp)
    requires SavedRow(env, q, now).Some?
    ensures SavedRow(env, q, later).Some?
    ensures SavedRow(env, q, later).value == SavedRow(env, q, now).value.(saved := later)
  {
  }

  // ---- archive and restore --------------------------------------------------

  /** The notes an archive or a restore of `ids` may touch. */
  function Among(notes: Notes, ids: seq<Id>): set<Id>
  {
    set i <- notes.Keys | i in ids
  }

  /**
   Exactly the active notes among the ids are archived, at `now` and by `who`, with no lineage; a
   restore of such a note gives back the row it was, and `n` is how many active notes went.
   */
  predicate ArchivedOnly(before: Notes, after: Notes, ids: seq<Id>, now: Stamp, who: string, n: nat)
  {
    && after.Keys == before.Keys
    && (forall i <- before :: Active(after, i) <==> Active(before, i) && i !in ids)
    && (forall i <- before :: Active(before, i) && i in ids ==>
          && after[i].archivedAt == Some(now) && after[i].meta.archivedBy == Some(who)
          && after[i].meta.replacedBy.None? && after[i].meta.consolidatedInto.None?
          && Restored(after[i]) == before[i])
    && (forall i <- before :: !(Active(before, i) && i in ids) ==> after[i] == before[i])
    && |ActiveView(after)| + n == |ActiveView(before)|
  }

  lemma ActiveCount(before: Notes, after: Notes, gone: set<Id>)
    requires after.Keys == before.Keys
    requires forall i <- before :: Active(after, i) <==> Active(before, i) && i !in gone
    requires forall i <- gone :: Active(before, i)
    ensures |ActiveView(after)| + |gone| == |ActiveView(before)|
  {
    assert ActiveView(before).Keys == ActiveView(after).Keys + gone;
    assert ActiveView(after).Keys !! gone;
  }

  lemma ArchivedRow(registry: map<Slug, Entity>, r: Row, now: Stamp, who: string)
    requires GoodRow(registry, r) && r.archivedAt.None?
    ensures Restored(Archived(r, now, who)) == r && r.meta.replacedBy.None? && r.meta.consolidatedInto.None?
  {
  }

  lemma ArchiveLeaves(db: Db, ids: seq<Id>, now: Stamp, who: string)
    requires InvRows(db)
    ensures ArchivedOnly(db.notes, Archive(db, ids, now, who).notes, ids, now, who,
                         |set i <- db.notes.Keys | i in ids && Active(db.notes, i)|)
  {
    var before, after := db.notes, Archive(db, ids, now, who).notes;
    ActiveCount(before, after, set i <- before.Keys | i in ids && Active(before, i));
    forall i | i in before && Active(before, i)
      ensures Restored(Archived(before[i], now, who)) == before[i]
      ensures before[i].meta.replacedBy.None? && before[i].meta.consolidatedInto.None?
    {
      ArchivedRow(db.registry, before[i], now, who);
    }
  }

  /** Every named note is active and points at no other; nothing else changes. */
  predicate RestoredOnly(before: Notes, after: Notes, ids: seq<Id>)
  {
    && after.Keys == before.Keys
    && (forall i <- before :: Active(after, i) <==> Active(before, i) || i in ids)
    && (forall i <- before :: i in ids ==> Clean(after[i].meta) && after[i].text == before[i].text)
    && OthersSame(before, after, Among(before, ids))
  }

  lemma RestoreLeaves(db: Db, ids: seq<Id>)
    ensures RestoredOnly(db.notes, Restore(db, ids).notes, ids)
  {
  }

  /** Archiving active notes and restoring them leaves the tables as they were. */
  lemma RestoreUndoesArchive(db: Db, ids: seq<Id>, now: Stamp, who: string)
    requires InvRows(db) && forall i <- ids :: Active(db.notes, i)
    ensures Restore(Archive(db, ids, now, who), ids) == db
  {
    ArchiveLeaves(db, ids, now, who);
    var back := Restore(Archive(db, ids, now, who), ids);
    forall i | i in db.notes ensures back.notes[i] == db.notes[i] {
    }
    assert back.notes == db.notes;
  }

  // ---- delete ---------------------------------------------------------------

  /**
   The named notes are gone and no other note changes; every fact stays, none cites a note that is
   gone, and exactly the current facts that did are archived.
   */
  predicate Deleted(before: Db, after: Db, ids: seq<Id>, now: Stamp)
  {
    && after.notes.Keys == before.notes.Keys - Elems(ids)
    && (forall i <- after.notes :: after.notes[i] == before.notes[i])
    && after.facts.Keys == before.facts.Keys
    && (forall k <- after.facts :: after.facts[k].noteId.Some? ==> after.facts[k].noteId.value in after.notes)
    && (forall k <- after.facts :: Current(before.facts, k) ==>
          (Current(after.facts, k) <==> before.facts[k].noteId.Some? && before.facts[k].noteId.value !in ids))
    && (forall k <- after.facts :: !Current(before.facts, k) ==>
          after.facts[k].archivedAt == before.facts[k].archivedAt)
    && (forall k <- after.facts :: after.facts[k].noteId == before.facts[k].noteId ==>
          after.facts[k] == before.facts[k])
  }

  lemma DeleteLeaves(db: Db, ids: seq<Id>, now: Stamp)
    requires FactsSound(db)
    ensures Deleted(db, Delete(db, ids, now), ids, now)
  {
    var after := Delete(db, ids, now);
    forall k | k in db.facts
      ensures after.facts[k].noteId.Some? ==> after.facts[k].noteId.value in after.notes
      ensures Current(db.facts, k) ==>
        (Current(after.facts, k) <==> db.facts[k].noteId.Some? && db.facts[k].noteId.value !in ids)
    {
      assert GoodFact(db, db.facts[k]);
    }
  }

  // ---- an applied plan ------------------------------------------------------

  /**
   What an applied plan leaves: the active notes are those that were, less the archived ones, plus a
   created replacement; a survivor is active; the action row holds what undoing it needs.
   */
  ghost predicate Written(before: Db, after: Db, plan: Plan, id: nat)
  {
    && (forall i :: Active(after.notes, i) <==>
          (Active(before.notes, i) && i !in plan.archived) || (plan.created && plan.replacement == Some(i)))
    && (forall i :: Active(after.notes, i) && Active(before.notes, i) ==> after.notes[i] == before.notes[i])
    && plan.survivors != [] && (forall s <- plan.survivors :: Active(after.notes, s))
    && id !in before.actions && after.actions.Keys == before.actions.Keys + {id}
    && after.actions[id].undone.None? && after.actions[id].archived == plan.archived
    && Records(after.actions[id], before.notes)
  }

  lemma CommitLeaves(db: Db, env: Env, v: Verdict, b: Batch, now: Stamp)
    requires InvActions(db) && b.params.maxGroup >= 2 && Decide(db, env, v, b).Planned?
    ensures Written(db, Commit(db, env, v, b, now), Decide(db, env, v, b).plan, db.nextAction)
  {
    CommitRecords(db, env, v, b, now);
    AlwaysASurvivor(db, env, v, b, now);
    forall i
      ensures var plan, after := Decide(db, env, v, b).plan, Commit(db, env, v, b, now);
        && (Active(after.notes, i) <==>
              (Active(db.notes, i) && i !in plan.archived) || (plan.created && plan.replacement == Some(i)))
        && (Active(after.notes, i) && Active(db.notes, i) ==> after.notes[i] == db.notes[i])
    {
      CommitActive(db, env, v, b, now, i);
    }
  }

  lemma CommitActive(db: Db, env: Env, v: Verdict, b: Batch, now: Stamp, i: Id)
    requires b.params.maxGroup >= 2 && Decide(db, env, v, b).Planned?
    ensures var plan, after := Decide(db, env, v, b).plan, Commit(db, env, v, b, now);
      && (Active(after.notes, i) <==>
            (Active(db.notes, i) && i !in plan.archived) || (plan.created && plan.replacement == Some(i)))
      && (Active(after.notes, i) && Active(db.notes, i) ==> after.notes[i] == db.notes[i])
  {
    DecidedIsSound(db, env, v, b);
    if Decide(db, env, v, b).plan.created {
      CommittedReplacement(db, env, v, b, now, Decide(db, env, v, b).plan.replacement.value);
    } else {
      NothingInserted(db, env, v, b, now);
    }
    if i in db.notes {
      CommittedRows(db, env, v, b, now, i);
    }
  }

  // ---- what a verdict reads -------------------------------------------------

  /** A row a verdict can read: one of its namespace, or one under an id its merged text may take. */
  ghost predicate NoteConcerns(notes: Notes, v: Verdict, i: Id)
  {
    i in notes && (notes[i].ns == v.ns || exists u :: i == NoteId(v.ns, u, v.mergedText))
  }

  predicate ActionConcerns(db: Db, v: Verdict, a: nat)
  {
    a in db.actions && (db.actions[a].ns == v.ns || db.actions[a].idem == v.idem || db.actions[a].key == v.key)
  }

  /** Whatever was committed between the two, it touched nothing a verdict on v's namespace reads. */
  ghost predicate SameReads(snapshot: Db, db: Db, v: Verdict)
  {
    && (forall i | NoteConcerns(snapshot.notes, v, i) || NoteConcerns(db.notes, v, i) ::
          i in snapshot.notes && i in db.notes && snapshot.notes[i] == db.notes[i])
    && (forall a | ActionConcerns(snapshot, v, a) || ActionConcerns(db, v, a) ::
          a in snapshot.actions && a in db.actions && snapshot.actions[a] == db.actions[a])
  }

  lemma SameActiveNotes(snapshot: Db, db: Db, v: Verdict, author: Option<string>)
    requires SameReads(snapshot, db, v)
    ensures ActiveNotes(snapshot.notes, v.ns, author) == ActiveNotes(db.notes, v.ns, author)
  {
    var M, N := ActiveNotes(snapshot.notes, v.ns, author), ActiveNotes(db.notes, v.ns, author);
    forall i ensures i in M <==> i in N {
      assert i in M ==> NoteConcerns(snapshot.notes, v, i);
      assert i in N ==> NoteConcerns(db.notes, v, i);
    }
    forall i | i in M ensures M[i] == N[i] {
      assert NoteConcerns(snapshot.notes, v, i);
    }
  }

  lemma SameCached(snapshot: Db, db: Db, v: Verdict)
    requires SameReads(snapshot, db, v)
    ensures CachedWhy(snapshot, v) == CachedWhy(db, v)
  {
    if a :| a in snapshot.actions && snapshot.actions[a].key == v.key {
      assert ActionConcerns(snapshot, v, a);
    }
    if a :| a in db.actions && db.actions[a].key == v.key {
      assert ActionConcerns(db, v, a);
    }
    SameUndone(snapshot, db, v, SortStrings(v.memberIds));
  }

  lemma SameUndone(snapshot: Db, db: Db, v: Verdict, members: seq<Id>)
    requires SameReads(snapshot, db, v)
    ensures UndoneWith(snapshot, v.ns, members) <==> UndoneWith(db, v.ns, members)
  {
    if a :| a in snapshot.actions && snapshot.actions[a].ns == v.ns && snapshot.actions[a].undone.Some?
            && snapshot.actions[a].members == members {
      assert ActionConcerns(snapshot, v, a);
    }
    if a :| a in db.actions && db.actions[a].ns == v.ns && db.actions[a].undone.Some?
            && db.actions[a].members == members {
      assert ActionConcerns(db, v, a);
    }
  }

  lemma SameUnrecorded(snapshot: Db, db: Db, v: Verdict)
    requires SameReads(snapshot, db, v) && Recorded(snapshot, v.idem).None?
    ensures Recorded(db, v.idem).None?
  {
    if a :| a in db.actions && db.actions[a].idem == v.idem {
      assert ActionConcerns(db, v, a);
    }
  }

  lemma SameUsed(snapshot: Db, db: Db, v: Verdict, runId: string)
    requires SameReads(snapshot, db, v)
    ensures UsedActions(snapshot, runId, v.ns) == UsedActions(db, runId, v.ns)
  {
    forall a ensures a in UsedActions(snapshot, runId, v.ns) <==> a in UsedActions(db, runId, v.ns) {
      assert a in UsedActions(snapshot, runId, v.ns) ==> ActionConcerns(snapshot, v, a);
      assert a in UsedActions(db, runId, v.ns) ==> ActionConcerns(db, v, a);
    }
  }

  lemma SameExisting(snapshot: Db, db: Db, v: Verdict, M: map<Id, Note>)
    requires SameReads(snapshot, db, v)
    ensures ExistingOf(snapshot.notes, MergedId(v, M)) == ExistingOf(db.notes, MergedId(v, M))
  {
    var id := MergedId(v, M);
    if id.Some? {
      assert NoteConcerns(snapshot.notes, v, id.value) <==> id.value in snapshot.notes;
      assert NoteConcerns(db.notes, v, id.value) <==> id.value in db.notes;
    }
  }

  lemma MembersAreRows(db: Db, env: Env, v: Verdict, b: Batch)
    requires b.params.maxGroup >= 2 && Decide(db, env, v, b).Planned?
    ensures forall i <- v.memberIds :: i in db.notes && db.notes[i].ns == v.ns
  {
    PlannedOnGroup(env, v, b, LoadState(db, env, v, b));
    LoadReads(db, env, v, b);
    SortKeeps(v.memberIds);
    assert forall i <- v.memberIds :: i in SortStrings(v.memberIds);
  }

  /** A planned verdict's members are rows of its namespace, so both sides see one author. */
  lemma SameAuthor(snapshot: Db, db: Db, v: Verdict)
    requires forall i <- v.memberIds :: i in snapshot.notes && snapshot.notes[i].ns == v.ns
    requires SameReads(snapshot, db, v)
    ensures OneAuthor(snapshot.notes, v.memberIds) == OneAuthor(db.notes, v.memberIds)
  {
    forall i | i in v.memberIds ensures i in db.notes && snapshot.notes[i] == db.notes[i] {
      assert NoteConcerns(snapshot.notes, v, i);
    }
  }

  lemma SameState(snapshot: Db, db: Db, env: Env, v: Verdict, b: Batch)
    requires Recorded(snapshot, v.idem).None? && CachedWhy(snapshot, v).None?
    requires OneAuthor(snapshot.notes, v.memberIds) == OneAuthor(db.notes, v.memberIds)
    requires SameReads(snapshot, db, v)
    ensures LoadState(snapshot, env, v, b) == LoadState(db, env, v, b)
  {
    var author := OneAuthor(db.notes, v.memberIds);
    SameUnrecorded(snapshot, db, v);
    SameCached(snapshot, db, v);
    SameActiveNotes(snapshot, db, v, author);
    SameUsed(snapshot, db, v, b.runId);
    SameExisting(snapshot, db, v, ActiveNotes(db.notes, v.ns, author));
  }

  lemma SameDecision(snapshot: Db, db: Db, env: Env, v: Verdict, b: Batch)
    requires b.params.maxGroup >= 2 && !b.dryRun && Decide(snapshot, env, v, b).Planned?
    requires LoadState(snapshot, env, v, b) == LoadState(db, env, v, b)
    ensures Agreed(snapshot, db, env, v, b)
  {
  }

  lemma PlannedIsUnrecorded(db: Db, env: Env, v: Verdict, b: Batch)
    requires b.params.maxGroup >= 2 && Decide(db, env, v, b).Planned?
    ensures Recorded(db, v.idem).None? && CachedWhy(db, v).None?
  {
    PlannedOnGroup(env, v, b, LoadState(db, env, v, b));
  }

  /**
   What commits between the two readings matters only where it touches what the verdict reads: a
   preflight plan is applied when the rows of the namespace, the rows the merged text may take the
   id of, and the actions of the namespace and of the keys are the same.
   */
  lemma UndisturbedIsApplied(snapshot: Db, db: Db, env: Env, v: Verdict, b: Batch, now: Stamp)
    requires b.params.maxGroup >= 2 && !b.dryRun && Decide(snapshot, env, v, b).Planned?
    requires SameReads(snapshot, db, v)
    ensures Agreed(snapshot, db, env, v, b)
    ensures Process(snapshot, db, env, v, b, now).db == Commit(db, env, v, b, now)
  {
    PlannedIsUnrecorded(snapshot, env, v, b);
    MembersAreRows(snapshot, env, v, b);
    SameAuthor(snapshot, db, v);
    SameState(snapshot, db, env, v, b);
    SameDecision(snapshot, db, env, v, b);
    ProcessRefines(snapshot, db, env, v, b, now);
  }
}
