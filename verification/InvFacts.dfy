/** Facts and names in every reachable state. */
module InvFacts {
  import opened Basics
  import opened Rows
  import opened NoteOps
  import opened Registry
  import opened Verdicts
  import opened Histories
  import opened InvNotes

  /** A fact points only at entities, facts and notes that exist, and a current one cites a note. */
  ghost predicate GoodFact(db: Db, f: Fact)
  {
    && f.entity in db.registry && ValueRegistered(db, f.valueEntity)
    && (f.replacedBy.Some? ==> f.replacedBy.value in db.facts)
    && (f.noteId.Some? ==> f.noteId.value in db.notes)
    && (f.archivedAt.None? ==> f.noteId.Some?)
  }

  ghost predicate FactsSound(db: Db)
  {
    forall k <- db.facts :: GoodFact(db, db.facts[k])
  }

  /** Growing notes and registry keeps facts good. */
  lemma GrowthKeepsFacts(db: Db, after: Db)
    requires FactsSound(db) && after.facts == db.facts
    requires db.notes.Keys <= after.notes.Keys && db.registry.Keys <= after.registry.Keys
    ensures FactsSound(after)
  {
  }

  lemma DeleteKeepsFacts(db: Db, ids: seq<Id>, now: Stamp)
    requires FactsSound(db)
    ensures FactsSound(Delete(db, ids, now))
  {
  }

  lemma DropKeepsFacts(db: Db, slug: Slug, who: string, dryRun: bool, expected: Option<DropPlan>, now: Stamp)
    requires FactsSound(db)
    ensures FactsSound(DropEntity(db, slug, who, dryRun, expected, now))
  {
  }

  lemma {:induction false} OpsKeepFacts(db: Db, ops: seq<FactOp>, who: string, now: Stamp)
    requires FactsSound(db) && ApplyOps(db, ops, who, now).Some?
    ensures FactsSound(ApplyOps(db, ops, who, now).value)
  {
    if ops != [] {
      var n := |ops| - 1;
      OpsKeepFacts(db, ops[..n], who, now);
    }
  }

  lemma QuietStep(db: Db, env: Env, ev: Event)
    requires WellFormed(ev) && !ev.Deletes? && !ev.Drops? && !ev.Facts?
    ensures var after := Next(db, env, ev);
      after.facts == db.facts && db.notes.Keys <= after.notes.Keys && db.registry.Keys <= after.registry.Keys
  {
    match ev
    case Saves(q, now) => QuietSave(db, env, q, now);
    case Judges(v, b, snapshot, now) => QuietJudge(snapshot, db, env, v, b, now);
    case Undoes(id, who, now) => QuietUndo(db, id, who, now);
    case _ =>
  }

  lemma QuietSave(db: Db, env: Env, q: SaveRequest, now: Stamp)
    ensures var after := Save(db, env, q, now);
      after.facts == db.facts && db.notes.Keys <= after.notes.Keys && db.registry == after.registry
  {
  }

  lemma QuietUndo(db: Db, id: nat, who: string, now: Stamp)
    ensures var after := Undo(db, id, who, now);
      after.facts == db.facts && db.notes.Keys <= after.notes.Keys && db.registry == after.registry
  {
  }

  lemma QuietJudge(snapshot: Db, db: Db, env: Env, v: Verdict, b: Batch, now: Stamp)
    requires b.params.maxGroup >= 2
    ensures var after := Process(snapshot, db, env, v, b, now).db;
      after.facts == db.facts && db.notes.Keys <= after.notes.Keys && db.registry == after.registry
  {
    ProcessRefines(snapshot, db, env, v, b, now);
  }

  lemma StepKeepsFacts(db: Db, env: Env, ev: Event)
    requires FactsSound(db) && WellFormed(ev)
    ensures FactsSound(Next(db, env, ev))
  {
    match ev
    case Deletes(ids, now) => DeleteKeepsFacts(db, ids, now);
    case Drops(slug, who, dryRun, expected, now) => DropKeepsFacts(db, slug, who, dryRun, expected, now);
    case Facts(ops, who, dryRun, now) =>
      if ApplyOps(db, ops, who, now).Some? {
        OpsKeepFacts(db, ops, who, now);
      }
    case _ =>
      QuietStep(db, env, ev);
      GrowthKeepsFacts(db, Next(db, env, ev));
  }

  // ---- names ----------------------------------------------------------------

  /** No slug, name or alias, folded, is held by two entities. */
  ghost predicate NamesHeldOnce(env: Env, registry: map<Slug, Entity>)
  {
    forall s <- registry, t <- registry :: s != t ==> Claims(env, s, registry[s]) !! Claims(env, t, registry[t])
  }

  lemma NoCollision(env: Env, registry: map<Slug, Entity>, s: Slug, t: Slug)
    requires s in registry && t in registry && s != t && !Collides(env, registry, s)
    ensures Claims(env, s, registry[s]) !! Claims(env, t, registry[t])
  {
    var mine, theirs := Claims(env, s, registry[s]), Claims(env, t, registry[t]);
    assert t in registry.Keys && mine * theirs == {};
    forall x ensures !(x in mine && x in theirs) {
      assert x in mine * theirs <==> x in mine && x in theirs;
    }
  }

  lemma BatchKeepsNames(env: Env, registry: map<Slug, Entity>, after: map<Slug, Entity>, items: seq<Item>,
                        s: Slug, t: Slug)
    requires NamesHeldOnce(env, registry) && s in after && t in after && s != t
    requires forall i <- items :: i.slug in after && !Collides(env, after, i.slug)
    requires forall x <- after :: (exists i <- items :: i.slug == x) || (x in registry && after[x] == registry[x])
    ensures Claims(env, s, after[s]) !! Claims(env, t, after[t])
  {
    if exists i <- items :: i.slug == s {
      NoCollision(env, after, s, t);
    } else if exists i <- items :: i.slug == t {
      NoCollision(env, after, t, s);
    }
  }

  lemma UpsertKeepsNames(db: Db, env: Env, items: seq<Item>, dryRun: bool, now: Stamp)
    requires NamesHeldOnce(env, db.registry)
    ensures NamesHeldOnce(env, Upsert(db, env, items, dryRun, now).registry)
  {
    var after := Upsert(db, env, items, dryRun, now).registry;
    if after != db.registry {
      forall x | x in after
        ensures (exists i <- items :: i.slug == x) || (x in db.registry && after[x] == db.registry[x])
      {
      }
      forall s, t | s in after && t in after && s != t
        ensures Claims(env, s, after[s]) !! Claims(env, t, after[t])
      {
        BatchKeepsNames(env, db.registry, after, items, s, t);
      }
    }
  }

  lemma StepKeepsNames(db: Db, env: Env, ev: Event)
    requires NamesHeldOnce(env, db.registry) && WellFormed(ev)
    ensures NamesHeldOnce(env, Next(db, env, ev).registry)
  {
    match ev
    case Upserts(items, dryRun, now) => UpsertKeepsNames(db, env, items, dryRun, now);
    case Facts(ops, who, dryRun, now) =>
      if ApplyOps(db, ops, who, now).Some? {
        FactsTouchOnlyFacts(db, ops, who, now);
      }
    case Judges(v, b, snapshot, now) => QuietJudge(snapshot, db, env, v, b, now);
    case Saves(q, now) => QuietSave(db, env, q, now);
    case Undoes(id, who, now) => QuietUndo(db, id, who, now);
    case _ =>
  }
}
