/** Note rows in every reachable state: active notes carry no archive lineage, slugs are registered. */
module InvNotes {
  import opened Basics
  import opened Text
  import opened Rows
  import opened NoteOps
  import opened Registry
  import opened Verdicts
  import opened PlanFacts
  import opened Histories
  import Groups

  ghost predicate CleanRow(r: Row)
  {
    r.archivedAt.None? ==> Clean(r.meta)
  }

  predicate Known(registry: map<Slug, Entity>, slugs: seq<Slug>)
  {
    |slugs| <= MAX_NOTE_ENTITIES && forall s <- slugs :: s in registry
  }

  ghost predicate GoodRow(registry: map<Slug, Entity>, r: Row)
  {
    CleanRow(r) && Known(registry, r.meta.entities)
  }

  ghost predicate GoodNotes(notes: Notes, registry: map<Slug, Entity>)
  {
    forall i <- notes :: GoodRow(registry, notes[i])
  }

  ghost predicate GoodRegistry(registry: map<Slug, Entity>)
  {
    forall s <- registry :: ValidSlug(s)
  }

  /** The metadata an action would restore belongs to an active row. */
  ghost predicate GoodPrior(a: Action)
  {
    forall i <- a.prior :: Clean(a.prior[i]) && |a.prior[i].entities| <= MAX_NOTE_ENTITIES
  }

  ghost predicate GoodActions(actions: map<nat, Action>)
  {
    forall a <- actions :: GoodPrior(actions[a])
  }

  ghost predicate InvRows(db: Db)
  {
    GoodNotes(db.notes, db.registry) && GoodRegistry(db.registry) && GoodActions(db.actions)
  }

  // ---- save -----------------------------------------------------------------

  lemma SavedRowIsGood(db: Db, env: Env, q: SaveRequest, now: Stamp)
    requires SaveCheck(db, env, q, now).None?
    ensures SavedRow(env, q, now).Some? && GoodRow(db.registry, SavedRow(env, q, now).value)
  {
  }

  lemma SaveKeepsRows(db: Db, env: Env, q: SaveRequest, now: Stamp)
    requires InvRows(db)
    ensures InvRows(Save(db, env, q, now))
  {
    if SaveCheck(db, env, q, now).None? {
      SavedRowIsGood(db, env, q, now);
    }
  }

  lemma ArchiveKeepsRows(db: Db, ids: seq<Id>, now: Stamp, who: string)
    requires InvRows(db)
    ensures InvRows(Archive(db, ids, now, who))
  {
  }

  lemma RestoreKeepsRows(db: Db, ids: seq<Id>)
    requires InvRows(db)
    ensures InvRows(Restore(db, ids))
  {
  }

  lemma DeleteKeepsRows(db: Db, ids: seq<Id>, now: Stamp)
    requires InvRows(db)
    ensures InvRows(Delete(db, ids, now))
  {
  }

  // ---- link and registry ----------------------------------------------------

  lemma RelinkedKnown(registry: map<Slug, Entity>, before: seq<Slug>, add: seq<Slug>, remove: seq<Slug>)
    requires Known(registry, before) && (forall s <- add :: s in registry)
    requires |Relinked(before, add, remove)| <= MAX_NOTE_ENTITIES
    ensures Known(registry, Relinked(before, add, remove))
  {
    forall s | s in Relinked(before, add, remove) ensures s in registry {
      assert s in Elems(Dedup(before + add));
      assert s in Elems(before + add);
    }
  }

  lemma LinkKeepsRows(db: Db, ids: seq<Id>, add: seq<Slug>, remove: seq<Slug>, who: string, confirm: bool, now: Stamp)
    requires InvRows(db)
    ensures InvRows(Link(db, ids, add, remove, who, confirm, now))
  {
    if LinkCheck(db, ids, add, remove).None? && confirm {
      forall i | i in db.notes && i in ids
        ensures GoodRow(db.registry, LinkRow(db.notes[i], add, remove, who, now))
      {
        assert GoodRow(db.registry, db.notes[i]);
        RelinkedKnown(db.registry, db.notes[i].meta.entities, add, remove);
      }
    }
  }

  lemma {:induction false} MergeAllValid(registry: map<Slug, Entity>, items: seq<Item>, now: Stamp)
    requires GoodRegistry(registry) && MergeAll(registry, items, now).Some?
    ensures GoodRegistry(MergeAll(registry, items, now).value)
  {
    if items != [] {
      MergeAllValid(registry, items[..|items| - 1], now);
    }
  }

  lemma UpsertKeepsRows(db: Db, env: Env, items: seq<Item>, dryRun: bool, now: Stamp)
    requires InvRows(db)
    ensures InvRows(Upsert(db, env, items, dryRun, now))
  {
    if MergeAll(db.registry, items, now).Some? {
      MergeAllValid(db.registry, items, now);
    }
  }

  lemma DropKeepsRows(db: Db, slug: Slug, who: string, dryRun: bool, expected: Option<DropPlan>, now: Stamp)
    requires InvRows(db)
    ensures InvRows(DropEntity(db, slug, who, dryRun, expected, now))
  {
  }

  /** Fact operations leave notes, actions and the registry alone. */
  lemma {:induction false} FactsTouchOnlyFacts(db: Db, ops: seq<FactOp>, who: string, now: Stamp)
    requires ApplyOps(db, ops, who, now).Some?
    ensures ApplyOps(db, ops, who, now).value == db.(facts := ApplyOps(db, ops, who, now).value.facts)
  {
    if ops != [] {
      FactsTouchOnlyFacts(db, ops[..|ops| - 1], who, now);
    }
  }

  lemma FactsKeepRows(db: Db, ops: seq<FactOp>, who: string, dryRun: bool, now: Stamp)
    requires InvRows(db)
    ensures InvRows(ApplyFacts(db, ops, who, dryRun, now))
  {
    if ApplyOps(db, ops, who, now).Some? {
      FactsTouchOnlyFacts(db, ops, who, now);
    }
  }

  // ---- verdicts -------------------------------------------------------------

  lemma {:induction false} AllEntitiesFrom(M: map<Id, Note>, members: seq<Id>, registry: map<Slug, Entity>)
    requires forall i <- members :: i in M
    requires forall i <- M :: forall s <- M[i].entities :: s in registry
    ensures forall s <- AllEntities(M, members) :: s in registry
  {
    if members != [] {
      var n := |members| - 1;
      assert members[n] in members;
      AllEntitiesFrom(M, members[..n], registry);
    }
  }

  /** A merged note names only registered slugs. */
  lemma MergedEntitiesKnown(M: map<Id, Note>, members: seq<Id>, registry: map<Slug, Entity>)
    requires forall i <- members :: i in M
    requires forall i <- M :: forall s <- M[i].entities :: s in registry
    requires GoodRegistry(registry)
    ensures StripEach(MergedEntities(M, members)) == MergedEntities(M, members)
    ensures forall s <- MergedEntities(M, members) :: s in registry
  {
    AllEntitiesFrom(M, members, registry);
    var all := AllEntities(M, members);
    SortKeeps(Dedup(all));
    forall s | s in MergedEntities(M, members) ensures s in registry {
      assert s in Elems(Dedup(all));
      assert s in Elems(all);
    }
    ValidSlugsStrip(MergedEntities(M, members));
  }

  lemma BuiltEntities(env: Env, content: string, kind: string, tags: seq<string>, now: Stamp, ns: string,
                      author: string, occurredAt: Option<int>, entities: seq<string>, shared: bool)
    requires StripEach(entities) == entities
    requires BuildRow(env, content, kind, tags, now, ns, author, occurredAt, entities, shared).Some?
    ensures Elems(BuildRow(env, content, kind, tags, now, ns, author, occurredAt, entities, shared).value.meta.entities)
            == Elems(entities)
  {
  }

  lemma CreatedIsGood(db: Db, env: Env, v: Verdict, plan: Plan, M: map<Id, Note>, now: Stamp)
    requires InvRows(db) && CreatedRow(db, env, v, plan, M, now).Some?
    requires forall i <- M :: i in db.notes && M[i] == NoteOf(i, db.notes[i])
    ensures GoodRow(db.registry, CreatedRow(db, env, v, plan, M, now).value)
  {
    var members := SortStrings(v.memberIds);
    forall i | i in M ensures forall s <- M[i].entities :: s in db.registry {
      assert GoodRow(db.registry, db.notes[i]);
      SortKeeps(db.notes[i].meta.entities);
    }
    MergedEntitiesKnown(M, members, db.registry);
    assert members[0] in members;
    BuiltEntities(env, v.mergedText, M[members[0]].kind, SortStrings(Dedup(AllTags(M, members))), now, v.ns,
                  M[members[0]].author, LatestDate(M, members), MergedEntities(M, members), MembersShared(M, members));
    var r := CreatedRow(db, env, v, plan, M, now).value;
    forall s | s in r.meta.entities ensures s in db.registry {
      assert s in Elems(r.meta.entities);
      assert s in Elems(MergedEntities(M, members));
    }
  }

  lemma ApplyNotesGood(notes: Notes, registry: map<Slug, Entity>, made: Option<Row>, plan: Plan, now: Stamp,
                       who: string)
    requires GoodNotes(notes, registry) && (made.Some? ==> GoodRow(registry, made.value))
    ensures GoodNotes(ApplyNotes(notes, made, plan, now, who), registry)
  {
  }

  lemma PriorIsGood(db: Db, v: Verdict, b: Batch, plan: Plan, now: Stamp)
    requires InvRows(db) && ArchivesMembers(db, v, plan.archived)
    ensures GoodPrior(ActionOf(db, v, b, plan, now))
  {
  }

  lemma CommitKeepsRows(db: Db, env: Env, v: Verdict, b: Batch, now: Stamp)
    requires InvRows(db) && b.params.maxGroup >= 2 && Decide(db, env, v, b).Planned?
    ensures InvRows(Commit(db, env, v, b, now))
  {
    DecidedIsSound(db, env, v, b);
    var plan := Decide(db, env, v, b).plan;
    var M := LoadState(db, env, v, b).notes;
    LoadReads(db, env, v, b);
    var made := CreatedRow(db, env, v, plan, M, now);
    if made.Some? {
      CreatedIsGood(db, env, v, plan, M, now);
    }
    ApplyNotesGood(db.notes, db.registry, made, plan, now, b.author);
    PriorIsGood(db, v, b, plan, now);
  }

  predicate NotApplied(o: Outcome)
  {
    o.Ended? ==> o.result.status != Applied
  }

  lemma ReplacementNotApplied(v: Verdict, st: State, members: seq<Id>)
    requires members != [] && forall i <- members :: i in st.notes
    ensures NotApplied(PlanReplacement(v, st, members))
  {
  }

  lemma RetireNotApplied(v: Verdict, members: seq<Id>)
    ensures NotApplied(PlanRetire(v, members))
  {
  }

  lemma MergeNotApplied(env: Env, v: Verdict, st: State, members: seq<Id>)
    requires members != [] && forall i <- members :: i in st.notes
    ensures NotApplied(PlanMerge(env, v, st, members))
  {
    ReplacementNotApplied(v, st, members);
  }

  lemma VerbNotApplied(env: Env, v: Verdict, st: State, members: seq<Id>)
    requires members != [] && forall i <- members :: i in st.notes
    ensures NotApplied(PlanVerb(env, v, st, members))
  {
    RetireNotApplied(v, members);
    MergeNotApplied(env, v, st, members);
  }

  /** The members a plan goes on with. */
  predicate OnMembers(st: State, members: seq<Id>)
  {
    members != [] && forall i <- members :: i in st.notes
  }

  lemma EndsOrPlansVerb(env: Env, v: Verdict, b: Batch, st: State, members: seq<Id>)
    requires Groups.EndsKnown(st.pairs, st.notes) && b.params.maxGroup >= 2 && members == SortStrings(v.memberIds)
    ensures NotApplied(PlanVerdict(env, v, b, st))
            || (OnMembers(st, members) && PlanVerdict(env, v, b, st) == PlanVerb(env, v, st, members))
  {
  }

  /** Only a step that writes answers that it applied. */
  lemma EndedIsNotApplied(env: Env, v: Verdict, b: Batch, st: State)
    requires Groups.EndsKnown(st.pairs, st.notes) && b.params.maxGroup >= 2
    ensures NotApplied(PlanVerdict(env, v, b, st))
  {
    var members := SortStrings(v.memberIds);
    EndsOrPlansVerb(env, v, b, st, members);
    if OnMembers(st, members) {
      VerbNotApplied(env, v, st, members);
    }
  }

  /**
   The exact condition: a processed verdict writes, and answers that it applied, exactly when it is
   no dry run and snapshot and locked rows lead to the same plan; what it then writes is that plan
   on the locked rows. Otherwise every table stays as it is.
   */
  lemma ProcessRefines(snapshot: Db, db: Db, env: Env, v: Verdict, b: Batch, now: Stamp)
    requires b.params.maxGroup >= 2
    ensures var r := Process(snapshot, db, env, v, b, now);
      && (r.db != db <==> Agreed(snapshot, db, env, v, b))
      && (r.result.status == Applied <==> Agreed(snapshot, db, env, v, b))
      && (Agreed(snapshot, db, env, v, b) ==>
            && Decide(db, env, v, b).Planned?
            && r.db == Commit(db, env, v, b, now)
            && r.result == AppliedResult(v, Decide(db, env, v, b).plan, db.nextAction))
  {
    EndedIsNotApplied(env, v, b, LoadState(snapshot, env, v, b));
    EndedIsNotApplied(env, v, b, LoadState(db, env, v, b));
  }

  lemma JudgeKeepsRows(snapshot: Db, db: Db, env: Env, v: Verdict, b: Batch, now: Stamp)
    requires InvRows(db) && b.params.maxGroup >= 2
    ensures InvRows(Process(snapshot, db, env, v, b, now).db)
  {
    ProcessRefines(snapshot, db, env, v, b, now);
    if Decide(db, env, v, b).Planned? {
      CommitKeepsRows(db, env, v, b, now);
    }
  }

  lemma UndoKeepsRows(db: Db, id: nat, who: string, now: Stamp)
    requires InvRows(db)
    ensures InvRows(Undo(db, id, who, now))
  {
    if UndoAccepted(db, id) {
      var a := db.actions[id];
      assert GoodPrior(a);
      forall i | i in db.notes ensures GoodRow(db.registry, UndoNotes(db.notes, a, id, now, who)[i]) {
        assert GoodRow(db.registry, db.notes[i]);
      }
    }
  }

  /** Every transaction keeps the row invariant. */
  lemma StepKeepsRows(db: Db, env: Env, ev: Event)
    requires InvRows(db) && WellFormed(ev)
    ensures InvRows(Next(db, env, ev))
  {
    match ev
    case Saves(q, now) => SaveKeepsRows(db, env, q, now);
    case Archives(ids, now, who) => ArchiveKeepsRows(db, ids, now, who);
    case Restores(ids) => RestoreKeepsRows(db, ids);
    case Deletes(ids, now) => DeleteKeepsRows(db, ids, now);
    case Links(ids, add, remove, who, confirm, now) => LinkKeepsRows(db, ids, add, remove, who, confirm, now);
    case Upserts(items, dryRun, now) => UpsertKeepsRows(db, env, items, dryRun, now);
    case Drops(slug, who, dryRun, expected, now) => DropKeepsRows(db, slug, who, dryRun, expected, now);
    case Facts(ops, who, dryRun, now) => FactsKeepRows(db, ops, who, dryRun, now);
    case Judges(v, b, snapshot, now) => JudgeKeepsRows(snapshot, db, env, v, b, now);
    case Undoes(id, who, now) => UndoKeepsRows(db, id, who, now);
  }
}
