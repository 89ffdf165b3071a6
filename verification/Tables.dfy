/**
 The tables as one object, with a method a transaction. Each keeps every reachable invariant, leaves
 the tables as the transaction's function says, and states what a caller relies on.
 */
module Tables {
  import opened Basics
  import opened Text
  import opened Rows
  import opened NoteOps
  import opened Registry
  import opened Verdicts
  import opened Histories
  import opened InvNotes
  import opened InvLineage
  import opened InvFacts
  import opened Runs
  import opened Reachable
  import opened Effects
  import Planner

  // ---- steps of the loops ---------------------------------------------------

  /** The notes after the slugs of those in `done` were rewritten. */
  function LinkedSome(notes: Notes, done: set<Id>, add: seq<Slug>, remove: seq<Slug>, author: string, now: Stamp): Notes
  {
    map i | i in notes :: if i in done then LinkRow(notes[i], add, remove, author, now) else notes[i]
  }

  function UnlinkedSome(notes: Notes, done: set<Id>, slug: Slug, author: string, now: Stamp): Notes
  {
    map i | i in notes :: if i in done then Unlink(notes[i], slug, author, now) else notes[i]
  }

  function RestoredSome(notes: Notes, a: Action, done: seq<Id>): Notes
  {
    map i | i in notes ::
      if i in done && i in a.prior then notes[i].(archivedAt := None, meta := a.prior[i]) else notes[i]
  }

  function RetiredIn(notes: Notes, a: Action, id: nat, who: string, now: Stamp): Notes
  {
    if !a.created || a.replacement.None? then notes
    else
      var r := a.replacement.value;
      if r in notes && !(r in a.archived && r in a.prior) then notes[r := Retired(notes[r], now, who, id)] else notes
  }

  lemma BothWrites(notes: Notes, a: Action, id: nat, who: string, now: Stamp)
    ensures RetiredIn(RestoredSome(notes, a, a.archived), a, id, who, now) == UndoNotes(notes, a, id, now, who)
  {
  }

  // ---- successors -----------------------------------------------------------

  /** The notes that supersede one of `ids`. */
  function SupersedingAny(notes: Notes, ids: set<Id>): set<Id>
  {
    set i <- notes.Keys | notes[i].meta.supersedes.Some? && notes[i].meta.supersedes.value in ids
  }

  /** Every note of `found` ends a chain of supersedes links that starts at r. */
  ghost predicate AllReached(notes: Notes, r: Id, found: set<Id>)
  {
    forall i <- found :: exists p :: SuccessorPath(notes, r, p) && p[|p| - 1] == i
  }

  lemma OneMoreReached(notes: Notes, r: Id, found: set<Id>, i: Id)
    requires AllReached(notes, r, found) && i in SupersedingAny(notes, found + {r})
    ensures exists p :: SuccessorPath(notes, r, p) && p[|p| - 1] == i
  {
    var above := notes[i].meta.supersedes.value;
    if above in found {
      var p :| SuccessorPath(notes, r, p) && p[|p| - 1] == above;
      var longer := p + [i];
      forall k | 0 < k < |longer| ensures notes[longer[k]].meta.supersedes == Some(longer[k - 1]) {
        if k < |p| {
          assert longer[k] == p[k] && longer[k - 1] == p[k - 1];
        }
      }
      assert SuccessorPath(notes, r, longer) && longer[|longer| - 1] == i;
    } else {
      assert SuccessorPath(notes, r, [i]);
    }
  }

  lemma {:induction false} ClosedReachesAll(notes: Notes, r: Id, found: set<Id>, p: seq<Id>)
    requires SupersedingAny(notes, found + {r}) <= found && SuccessorPath(notes, r, p)
    ensures p[|p| - 1] in found
    decreases |p|
  {
    var last := p[|p| - 1];
    assert last in notes;
    if |p| == 1 {
      assert last in SupersedingAny(notes, found + {r});
    } else {
      var shorter := p[..|p| - 1];
      assert forall i <- shorter :: i in notes by {
        assert forall i <- shorter :: i in p;
      }
      ClosedReachesAll(notes, r, found, shorter);
      assert notes[p[|p| - 1]].meta.supersedes == Some(p[|p| - 2]);
    }
  }

  /** The recursive query for an active successor: rounds until no note is new. */
  method HasSuccessor(notes: Notes, r: Id) returns (b: bool)
    ensures b <==> HasActiveSuccessor(notes, r)
  {
    var found: set<Id> := {};
    var unseen := SupersedingAny(notes, {r});
    while unseen != {}
      invariant found <= notes.Keys && unseen == SupersedingAny(notes, found + {r}) - found
      invariant AllReached(notes, r, found)
      decreases notes.Keys - found
    {
      forall i | i in unseen ensures exists p :: SuccessorPath(notes, r, p) && p[|p| - 1] == i {
        OneMoreReached(notes, r, found, i);
      }
      found := found + unseen;
      unseen := SupersedingAny(notes, found + {r}) - found;
    }
    forall i | i in SupersedingAny(notes, found + {r}) ensures i in found {
      assert i in found || i in unseen;
    }
    b := exists i <- found :: notes[i].archivedAt.None?;
    if HasActiveSuccessor(notes, r) {
      var p :| SuccessorPath(notes, r, p) && notes[p[|p| - 1]].archivedAt.None?;
      ClosedReachesAll(notes, r, found, p);
    }
  }

  class Store {
    var notes: Notes
    var actions: map<nat, Action>
    var nextAction: nat
    var registry: map<Slug, Entity>
    var facts: map<FactId, Fact>
    var namespaces: set<string>
    const env: Env

    function View(): Db
      reads this
    {
      Db(notes, actions, nextAction, registry, facts, namespaces)
    }

    /** What holds in every state any history reaches. */
    ghost predicate Valid()
      reads this
    {
      Inv(env, View())
    }

    constructor (env: Env, namespaces: set<string>)
      ensures Valid() && View() == Db(map[], map[], 1, map[], map[], namespaces) && this.env == env
    {
      notes, actions, nextAction, registry, facts := map[], map[], 1, map[], map[];
      this.namespaces := namespaces;
      this.env := env;
      new;
      InitialInv(env, View());
    }

    // ---- notes --------------------------------------------------------------

    /** `save_note`, past the neighbour search whose result the request carries. */
    method SaveNote(q: SaveRequest, now: Stamp) returns (refused: Option<SaveRefusal>)
      requires Valid()
      modifies this`notes
      ensures Valid()
      ensures refused == SaveCheck(old(View()), env, q, now) && View() == Save(old(View()), env, q, now)
      ensures refused.Some? ==> notes == old(notes)
      ensures refused.None? ==> Saved(old(notes), notes, q, now)
    {
      refused := WriteSaved(q, now);
      SaveIs(old(View()), env, q, now, View());
    }

    /** The checks and the writes of `save_note`. */
    method WriteSaved(q: SaveRequest, now: Stamp) returns (refused: Option<SaveRefusal>)
      modifies this`notes
      ensures refused == SaveCheck(old(View()), env, q, now) && View() == Save(old(View()), env, q, now)
    {
      refused := SaveCheck(View(), env, q, now);
      if refused.Some? {
        return;
      }
      var id := SaveId(q);
      if id !in notes {
        notes := notes[id := SavedRow(env, q, now).value];
      }
      if q.supersedes.Some? {
        var replaced := q.supersedes.value;
        var row := Archived(notes[replaced], now, q.author);
        notes := notes[replaced := row.(meta := row.meta.(replacedBy := Some(id)))];
      }
    }

    /** `archive_rows`: only active notes are stamped. */
    method ArchiveRows(ids: seq<Id>, now: Stamp, who: string) returns (n: nat)
      requires Valid()
      modifies this`notes
      ensures Valid()
      ensures View() == Archive(old(View()), ids, now, who)
      ensures ArchivedOnly(old(notes), notes, ids, now, who, n)
    {
      n := |set i <- notes.Keys | i in ids && Active(notes, i)|;
      StampArchived(ids, now, who);
      ArchiveIs(old(View()), env, ids, now, who, View());
    }

    method StampArchived(ids: seq<Id>, now: Stamp, who: string)
      modifies this`notes
      ensures View() == Archive(old(View()), ids, now, who)
    {
      notes := map i | i in notes ::
        if i in ids && notes[i].archivedAt.None? then Archived(notes[i], now, who) else notes[i];
    }

    /** `restore_rows`: the archive stamp and the lineage fields go together. */
    method RestoreRows(ids: seq<Id>)
      requires Valid()
      modifies this`notes
      ensures Valid()
      ensures View() == Restore(old(View()), ids)
      ensures RestoredOnly(old(notes), notes, ids)
    {
      ClearArchived(ids);
      RestoreIs(old(View()), env, ids, View());
    }

    method ClearArchived(ids: seq<Id>)
      modifies this`notes
      ensures View() == Restore(old(View()), ids)
    {
      notes := map i | i in notes :: if i in ids then Restored(notes[i]) else notes[i];
    }

    /** `delete_notes`: citing facts lose the citation, current ones are archived. */
    method DeleteNotes(ids: seq<Id>, now: Stamp)
      requires Valid()
      modifies this`notes, this`facts
      ensures Valid()
      ensures View() == Delete(old(View()), ids, now)
      ensures Deleted(old(View()), View(), ids, now)
    {
      RemoveNotes(ids, now);
      DeleteIs(old(View()), env, ids, now, View());
    }

    method RemoveNotes(ids: seq<Id>, now: Stamp)
      modifies this`notes, this`facts
      ensures View() == Delete(old(View()), ids, now)
    {
      var gone := Elems(ids) * notes.Keys;
      facts := map k | k in facts :: Uncite(facts[k], gone, now);
      notes := notes - gone;
    }

    /** `link_entities`: all rows are checked before any is written. */
    method LinkEntities(ids: seq<Id>, add: seq<Slug>, remove: seq<Slug>, author: string, confirm: bool, now: Stamp)
      returns (refused: Option<LinkRefusal>)
      requires Valid()
      modifies this`notes
      ensures Valid()
      ensures refused == LinkCheck(old(View()), ids, add, remove)
      ensures View() == Link(old(View()), ids, add, remove, author, confirm, now)
    {
      refused := WriteLinks(ids, add, remove, author, confirm, now);
      NextKeepsInv(old(View()), env, Links(ids, add, remove, author, confirm, now), View());
    }

    method WriteLinks(ids: seq<Id>, add: seq<Slug>, remove: seq<Slug>, author: string, confirm: bool, now: Stamp)
      returns (refused: Option<LinkRefusal>)
      modifies this`notes
      ensures refused == LinkCheck(old(View()), ids, add, remove)
      ensures View() == Link(old(View()), ids, add, remove, author, confirm, now)
    {
      refused := LinkCheck(View(), ids, add, remove);
      if refused.None? && confirm {
        RewriteLinked(ids, add, remove, author, now);
        LinkIs(old(View()), ids, add, remove, author, now);
      }
    }

    /** The writes of `link_entities`; a note whose slugs stay the same set is not touched. */
    method RewriteLinked(ids: seq<Id>, add: seq<Slug>, remove: seq<Slug>, author: string, now: Stamp)
      requires forall i <- ids :: i in notes
      modifies this`notes
      ensures notes == LinkedSome(old(notes), Elems(ids), add, remove, author, now)
    {
      ghost var before := notes;
      var todo := Elems(ids);
      assert LinkedSome(before, Elems(ids) - todo, add, remove, author, now) == notes;
      while todo != {}
        invariant todo <= Elems(ids) && forall i <- todo :: i in before && i in notes && notes[i] == before[i]
        invariant notes == LinkedSome(before, Elems(ids) - todo, add, remove, author, now)
        decreases todo
      {
        var i :| i in todo;
        var slugs := notes[i].meta.entities;
        var after := Relinked(slugs, add, remove);
        if Elems(slugs) != Elems(after) {
          notes := notes[i := notes[i].(meta := SetEntities(notes[i].meta, after, author, now))];
        }
        todo := todo - {i};
      }
      assert Elems(ids) - todo == Elems(ids);
    }

    // ---- entities and facts -------------------------------------------------

    /** `upsert`: the whole batch is merged and checked before any row is written. */
    method UpsertEntities(items: seq<Item>, dryRun: bool, now: Stamp) returns (refused: Option<UpsertRefusal>)
      requires Valid()
      modifies this`registry
      ensures Valid()
      ensures refused == UpsertCheck(old(View()), env, items, now)
      ensures View() == Upsert(old(View()), env, items, dryRun, now)
      ensures refused.Some? || dryRun ==> registry == old(registry)
      ensures refused.None? && !dryRun ==> registry.Keys == old(registry).Keys + set i <- items :: i.slug
    {
      refused := WriteBatch(items, dryRun, now);
      BatchIs(old(View()), env, items, dryRun, now, View());
    }

    method WriteBatch(items: seq<Item>, dryRun: bool, now: Stamp) returns (refused: Option<UpsertRefusal>)
      modifies this`registry
      ensures refused == UpsertCheck(old(View()), env, items, now)
      ensures View() == Upsert(old(View()), env, items, dryRun, now)
    {
      UpsertIs(View(), env, items, dryRun, now);
      var merged: map<Slug, Entity>;
      merged, refused := CheckBatch(items, now);
      if refused.None? && !dryRun {
        registry := merged;
      }
    }

    /** The checks of `upsert`, and the registry it would write. */
    method CheckBatch(items: seq<Item>, now: Stamp) returns (merged: map<Slug, Entity>, refused: Option<UpsertRefusal>)
      ensures refused == UpsertCheck(View(), env, items, now)
      ensures refused.None? ==> MergeAll(registry, items, now) == Some(merged)
    {
      merged := registry;
      if exists i <- items :: !ValidSlug(i.slug) {
        return merged, Some(BadSlug);
      }
      if Repeats(items) {
        return merged, Some(RepeatedSlug);
      }
      merged, refused := MergeItems(items, now);
      if refused.Some? {
        return;
      }
      if HasCredential(env, merged, items) {
        refused := Some(HoldsCredential);
      } else if HoldsHeldName(env, merged, items) {
        refused := Some(NameHeld);
      }
    }

    /** The items merged one by one into the registry they were read from, up to the first refused one. */
    method MergeItems(items: seq<Item>, now: Stamp) returns (merged: map<Slug, Entity>, refused: Option<UpsertRefusal>)
      requires !Repeats(items)
      ensures refused == FirstRefusal(registry, items)
      ensures refused.None? ==> MergeAll(registry, items, now) == Some(merged)
    {
      merged := registry;
      for k := 0 to |items|
        invariant MergeAll(registry, items[..k], now) == Some(merged) && FirstRefusal(registry, items[..k]).None?
      {
        refused := ItemRefusal(registry, items[k]);
        NextItem(registry, items, k, now);
        if refused.Some? {
          RefusedStays(registry, items, k + 1);
          return;
        }
        merged := merged[items[k].slug := MergeItem(registry, items[k]).value.(updatedAt := now)];
      }
      assert items[..|items|] == items;
      refused := None;
    }

    /** `delete` of an entity: notes one at a time, then facts, then the row. */
    method DeleteEntity(slug: Slug, author: string, dryRun: bool, expected: Option<DropPlan>, now: Stamp)
      returns (plan: Option<DropPlan>)
      requires Valid()
      modifies this`notes, this`facts, this`registry
      ensures Valid()
      ensures View() == DropEntity(old(View()), slug, author, dryRun, expected, now)
      ensures plan == if slug in old(registry) then Some(PlanDrop(old(View()), slug)) else None
    {
      plan := WriteDrop(slug, author, dryRun, expected, now);
      NextKeepsInv(old(View()), env, Drops(slug, author, dryRun, expected, now), View());
    }

    method WriteDrop(slug: Slug, author: string, dryRun: bool, expected: Option<DropPlan>, now: Stamp)
      returns (plan: Option<DropPlan>)
      modifies this`notes, this`facts, this`registry
      ensures View() == DropEntity(old(View()), slug, author, dryRun, expected, now)
      ensures plan == if slug in old(registry) then Some(PlanDrop(old(View()), slug)) else None
    {
      plan := if slug in registry then Some(PlanDrop(View(), slug)) else None;
      if plan.Some? && !dryRun && (expected.None? || expected.value == plan.value) {
        DropAll(slug, author, now);
        DropIs(old(View()), slug, author, expected, now);
      }
    }

    /** The writes of `delete`. */
    method DropAll(slug: Slug, author: string, now: Stamp)
      modifies this`notes, this`facts, this`registry
      ensures View() == Dropped(old(View()), slug, author, now)
    {
      UnlinkAll(slug, author, now);
      var gone := set k <- facts.Keys | Touches(facts[k], slug);
      facts := map k | k in facts && k !in gone :: ClearReplaced(facts[k], gone);
      registry := registry - {slug};
    }

    /** Every note holding the slug loses it and is stamped. */
    method UnlinkAll(slug: Slug, author: string, now: Stamp)
      modifies this`notes
      ensures notes == UnlinkedSome(old(notes), old(notes).Keys, slug, author, now)
    {
      ghost var before := notes;
      var linked := set i <- notes.Keys | slug in notes[i].meta.entities;
      var todo := linked;
      assert UnlinkedSome(before, linked - todo, slug, author, now) == notes;
      while todo != {}
        invariant todo <= linked && forall i <- todo :: i in before && i in notes && notes[i] == before[i]
        invariant notes == UnlinkedSome(before, linked - todo, slug, author, now)
        decreases todo
      {
        var i :| i in todo;
        var kept := Minus(notes[i].meta.entities, [slug]);
        notes := notes[i := notes[i].(meta := SetEntities(notes[i].meta, kept, author, now))];
        todo := todo - {i};
      }
      assert linked - todo == linked;
    }

    /** `apply`: the operations in order, all or none. */
    method ApplyFactOps(ops: seq<FactOp>, author: string, dryRun: bool, now: Stamp) returns (ok: bool)
      requires Valid()
      modifies this`facts
      ensures Valid()
      ensures View() == ApplyFacts(old(View()), ops, author, dryRun, now)
      ensures ok <==> ApplyOps(old(View()), ops, author, now).Some?
    {
      ok := WriteFacts(ops, author, dryRun, now);
      NextKeepsInv(old(View()), env, Facts(ops, author, dryRun, now), View());
    }

    method WriteFacts(ops: seq<FactOp>, author: string, dryRun: bool, now: Stamp) returns (ok: bool)
      modifies this`facts
      ensures View() == ApplyFacts(old(View()), ops, author, dryRun, now)
      ensures ok <==> ApplyOps(old(View()), ops, author, now).Some?
    {
      var result := RunOps(ops, author, now);
      ok := result.Some?;
      if ok && !dryRun {
        FactsTouchOnlyFacts(View(), ops, author, now);
        facts := result.value.facts;
      }
    }

    /** The operations one by one, up to the first refused one. */
    method RunOps(ops: seq<FactOp>, author: string, now: Stamp) returns (r: Option<Db>)
      ensures r == ApplyOps(View(), ops, author, now)
    {
      var working := View();
      for k := 0 to |ops|
        invariant ApplyOps(View(), ops[..k], author, now) == Some(working)
      {
        assert ops[..k + 1][..k] == ops[..k];
        var next := ApplyOp(working, ops[k], author, now);
        if next.None? {
          RefusedOp(View(), ops, k + 1, author, now);
          return None;
        }
        working := next.value;
      }
      assert ops[..|ops|] == ops;
      return Some(working);
    }

    // ---- verdicts -----------------------------------------------------------

    method FindRecorded(idem: string) returns (recorded: Option<Action>)
      requires Valid()
      ensures recorded == Recorded(View(), idem)
    {
      var same := set a <- actions.Keys | actions[a].idem == idem;
      if same == {} {
        assert forall a <- actions :: a !in same;
        return None;
      }
      var a :| a in same;
      return Some(actions[a]);
    }

    /** `load_state` on the rows as they are. */
    method Load(v: Verdict, b: Batch) returns (st: State)
      requires Valid()
      ensures st == LoadState(View(), env, v, b)
    {
      var recorded := FindRecorded(v.idem);
      var cached := CachedWhy(View(), v);
      if recorded.Some? || cached.Some? {
        return State(recorded, cached, [], map[], 0, None);
      }
      var mine := ActiveNotes(notes, v.ns, OneAuthor(notes, v.memberIds));
      var pairs := Planner.ReadAllPairs(env, mine, b.params);
      var used := |UsedActions(View(), b.runId, v.ns)|;
      st := State(None, None, pairs, mine, used, ExistingOf(notes, MergedId(v, mine)));
    }

    /** The read-only half of `process_verdict`; any transaction may commit before the other half. */
    method Preflight(v: Verdict, b: Batch) returns (o: Outcome)
      requires Valid() && b.params.maxGroup >= 2
      ensures o == Decide(View(), env, v, b)
    {
      var st := Load(v, b);
      o := Planner.Plan(env, v, b, st);
    }

    /** The half under the lock: plans again and writes exactly that plan, or nothing. */
    method ApplyVerdict(v: Verdict, b: Batch, preflight: Plan, now: Stamp) returns (r: Result)
      requires Valid() && b.params.maxGroup >= 2 && !b.dryRun
      modifies this`notes, this`actions, this`nextAction
      ensures Valid()
      ensures var o := Decide(old(View()), env, v, b);
        if o == Planned(preflight)
        then View() == Commit(old(View()), env, v, b, now) && r == AppliedResult(v, preflight, old(nextAction))
        else View() == old(View()) && r == Refused(v, o)
    {
      var st := Load(v, b);
      var outcome := Planner.Plan(env, v, b, st);
      if outcome.Ended? {
        return outcome.result;
      }
      if outcome.plan != preflight {
        return End(v, Stale, NotesChanged).result;
      }
      r := Write(v, b, preflight, st, now);
    }

    /** `apply_plan`, on the plan the rows lead to. */
    method Write(v: Verdict, b: Batch, plan: Plan, st: State, now: Stamp) returns (r: Result)
      requires Valid() && b.params.maxGroup >= 2
      requires st == LoadState(View(), env, v, b) && Decide(View(), env, v, b) == Planned(plan)
      modifies this`notes, this`actions, this`nextAction
      ensures Valid()
      ensures View() == Commit(old(View()), env, v, b, now)
      ensures r == AppliedResult(v, plan, old(nextAction))
      ensures Written(old(View()), View(), plan, old(nextAction))
    {
      r := AppliedResult(v, plan, nextAction);
      WritePlan(v, b, plan, st.notes, now);
      CommitIs(old(View()), env, v, b, now, View());
    }

    method WritePlan(v: Verdict, b: Batch, plan: Plan, M: map<Id, Note>, now: Stamp)
      modifies this`notes, this`actions, this`nextAction
      ensures View() == ApplyPlan(old(View()), env, v, b, plan, M, now)
    {
      var created := CreatedRow(View(), env, v, plan, M, now);
      var action := ActionOf(View(), v, b, plan, now);
      notes := ApplyNotes(notes, created, plan, now, b.author);
      actions := actions[nextAction := action];
      nextAction := nextAction + 1;
    }

    /** Other transactions commit: the rows become what their history makes of them. */
    method OthersCommit(after: Db, ghost ms: seq<Moment>, ghost evs: seq<Event>)
      requires Valid() && Run(env, ms, evs) && ms[0].db == View() && ms[|evs|].db == after
      modifies this
      ensures Valid() && View() == after
    {
      RunKeepsInv(env, ms, evs);
      notes, actions, nextAction := after.notes, after.actions, after.nextAction;
      registry, facts, namespaces := after.registry, after.facts, after.namespaces;
    }

    /**
     `process_verdict` with the history `evs` committed by others between its two readings: what
     `Process` says of the rows before and after that history.
     */
    method ProcessVerdict(v: Verdict, b: Batch, now: Stamp, after: Db, ghost ms: seq<Moment>, ghost evs: seq<Event>)
      returns (r: Result)
      requires Valid() && b.params.maxGroup >= 2
      requires Run(env, ms, evs) && ms[0].db == View() && ms[|evs|].db == after
      modifies this
      ensures Valid()
      ensures Step(View(), r) == Process(old(View()), after, env, v, b, now)
      ensures r.status == Applied <==> View() != after
    {
      ghost var snapshot := View();
      ProcessRefines(snapshot, after, env, v, b, now);
      var preflight := Preflight(v, b);
      OthersCommit(after, ms, evs);
      if preflight.Ended? {
        return preflight.result;
      }
      if b.dryRun {
        return WouldApplyResult(v, preflight.plan);
      }
      r := ApplyVerdict(v, b, preflight.plan, now);
    }

    /** `undo`: what it archived comes back as it was, what it created is archived. */
    method UndoAction(id: nat, who: string, now: Stamp) returns (refused: Option<UndoRefusal>)
      requires Valid()
      modifies this`notes, this`actions
      ensures Valid()
      ensures View() == Undo(old(View()), id, who, now)
      ensures id in old(actions) && old(actions)[id].undone.Some? ==> refused.None?
      ensures !(id in old(actions) && old(actions)[id].undone.Some?) ==> refused == UndoCheck(old(View()), id)
    {
      if id in actions && actions[id].undone.Some? {
        return None;
      }
      refused := WriteUndo(id, who, now);
      UndoIs(old(View()), env, id, who, now, View());
    }

    /** The checks and the writes of `undo` for an action not yet undone. */
    method WriteUndo(id: nat, who: string, now: Stamp) returns (refused: Option<UndoRefusal>)
      requires id in actions ==> actions[id].undone.None?
      modifies this`notes, this`actions
      ensures View() == Undo(old(View()), id, who, now) && refused == UndoCheck(old(View()), id)
    {
      if id !in actions {
        return Some(Unknown);
      }
      refused := RefuseUndo(actions[id]);
      if refused.Some? {
        return;
      }
      var a := actions[id];
      RestorePrior(a, id, who, now);
      actions := actions[id := UndoneAction(a, now, who)];
    }

    /** The checks of `undo` on an action not yet undone. */
    method RefuseUndo(a: Action) returns (refused: Option<UndoRefusal>)
      ensures refused == UndoCheckOf(View(), a)
    {
      if a.verb == Keep {
        return Some(NothingToUndo);
      }
      refused := ArchivedRefusal(notes, a, a.archived);
      if refused.Some? {
        return;
      }
      refused := RefuseReplacement(a);
      if refused.Some? {
        return;
      }
      if !PriorRegistered(View(), a) {
        return Some(DeletedEntity);
      }
    }

    /** The writes of `undo` to the notes, one archived note at a time. */
    method RestorePrior(a: Action, id: nat, who: string, now: Stamp)
      modifies this`notes
      ensures notes == UndoNotes(old(notes), a, id, now, who)
    {
      ghost var before := notes;
      for k := 0 to |a.archived|
        invariant notes == RestoredSome(before, a, a.archived[..k])
      {
        var i := a.archived[k];
        assert a.archived[..k + 1] == a.archived[..k] + [i];
        if i in notes && i in a.prior {
          notes := notes[i := notes[i].(archivedAt := None, meta := a.prior[i])];
        }
      }
      assert a.archived[..|a.archived|] == a.archived;
      if a.created && a.replacement.Some? {
        RetireReplacement(a, id, who, now);
      }
      BothWrites(before, a, id, who, now);
    }

    /** The created replacement is archived, unless the undo has just restored it. */
    method RetireReplacement(a: Action, id: nat, who: string, now: Stamp)
      requires a.created && a.replacement.Some?
      modifies this`notes
      ensures notes == RetiredIn(old(notes), a, id, who, now)
    {
      var r := a.replacement.value;
      if r in notes && !(r in a.archived && r in a.prior) {
        notes := notes[r := Retired(notes[r], now, who, id)];
      }
    }

    method RefuseReplacement(a: Action) returns (refused: Option<UndoRefusal>)
      ensures refused == ReplacementRefusal(View(), a)
    {
      if !a.created || a.replacement.None? {
        return None;
      }
      var r := a.replacement.value;
      if r !in notes {
        return Some(ReplacementGone);
      }
      if notes[r].archivedAt.Some? {
        return Some(ReplacementArchived);
      }
      var succeeded := HasSuccessor(notes, r);
      if succeeded {
        return Some(Superseded);
      }
      if InLaterAction(View(), r) {
        return Some(LaterAction);
      }
      if SetAfter(notes[r].meta, a.appliedAt) {
        return Some(ReplacementEntities);
      }
      return None;
    }
  }

  // ---- what the loops lean on ------------------------------------------------

  lemma LinkIs(db: Db, ids: seq<Id>, add: seq<Slug>, remove: seq<Slug>, author: string, now: Stamp)
    requires LinkCheck(db, ids, add, remove).None?
    ensures Link(db, ids, add, remove, author, true, now)
            == db.(notes := LinkedSome(db.notes, Elems(ids), add, remove, author, now))
  {
    assert forall i :: i in ids <==> i in Elems(ids);
  }

  function Dropped(db: Db, slug: Slug, author: string, now: Stamp): Db
  {
    var gone := set k <- db.facts.Keys | Touches(db.facts[k], slug);
    db.(notes := UnlinkedSome(db.notes, db.notes.Keys, slug, author, now),
        facts := map k | k in db.facts && k !in gone :: ClearReplaced(db.facts[k], gone),
        registry := db.registry - {slug})
  }

  lemma DropIs(db: Db, slug: Slug, author: string, expected: Option<DropPlan>, now: Stamp)
    requires slug in db.registry && (expected.Some? ==> expected.value == PlanDrop(db, slug))
    ensures DropEntity(db, slug, author, false, expected, now) == Dropped(db, slug, author, now)
  {
    assert UnlinkedSome(db.notes, db.notes.Keys, slug, author, now)
           == map i | i in db.notes :: Unlink(db.notes[i], slug, author, now);
  }

  lemma SaveIs(db: Db, env: Env, q: SaveRequest, now: Stamp, after: Db)
    requires Inv(env, db) && after == Save(db, env, q, now)
    ensures Inv(env, after)
    ensures if SaveCheck(db, env, q, now).Some? then after.notes == db.notes else Saved(db.notes, after.notes, q, now)
  {
    NextKeepsInv(db, env, Saves(q, now), after);
    SaveLeaves(db, env, q, now);
  }

  lemma ArchiveIs(db: Db, env: Env, ids: seq<Id>, now: Stamp, who: string, after: Db)
    requires Inv(env, db) && after == Archive(db, ids, now, who)
    ensures Inv(env, after)
    ensures ArchivedOnly(db.notes, after.notes, ids, now, who,
                         |set i <- db.notes.Keys | i in ids && Active(db.notes, i)|)
  {
    NextKeepsInv(db, env, Archives(ids, now, who), after);
    ArchiveLeaves(db, ids, now, who);
  }

  lemma RestoreIs(db: Db, env: Env, ids: seq<Id>, after: Db)
    requires Inv(env, db) && after == Restore(db, ids)
    ensures Inv(env, after) && RestoredOnly(db.notes, after.notes, ids)
  {
    NextKeepsInv(db, env, Restores(ids), after);
    RestoreLeaves(db, ids);
  }

  lemma DeleteIs(db: Db, env: Env, ids: seq<Id>, now: Stamp, after: Db)
    requires Inv(env, db) && after == Delete(db, ids, now)
    ensures Inv(env, after) && Deleted(db, after, ids, now)
  {
    NextKeepsInv(db, env, Deletes(ids, now), after);
    DeleteLeaves(db, ids, now);
  }

  lemma BatchIs(db: Db, env: Env, items: seq<Item>, dryRun: bool, now: Stamp, after: Db)
    requires Inv(env, db) && after == Upsert(db, env, items, dryRun, now)
    ensures Inv(env, after)
    ensures UpsertCheck(db, env, items, now).Some? || dryRun ==> after.registry == db.registry
    ensures UpsertCheck(db, env, items, now).None? && !dryRun ==>
              after.registry.Keys == db.registry.Keys + set i <- items :: i.slug
  {
    NextKeepsInv(db, env, Upserts(items, dryRun, now), after);
    UpsertIs(db, env, items, dryRun, now);
  }

  lemma UndoIs(db: Db, env: Env, id: nat, who: string, now: Stamp, after: Db)
    requires Inv(env, db) && after == Undo(db, id, who, now)
    ensures Inv(env, after)
  {
    NextKeepsInv(db, env, Undoes(id, who, now), after);
  }

  lemma CommitIs(db: Db, env: Env, v: Verdict, b: Batch, now: Stamp, after: Db)
    requires Inv(env, db) && b.params.maxGroup >= 2 && Decide(db, env, v, b).Planned?
    requires after == Commit(db, env, v, b, now)
    ensures Inv(env, after) && Written(db, after, Decide(db, env, v, b).plan, db.nextAction)
  {
    CommitKeepsRows(db, env, v, b, now);
    ApplyLinks(db, env, v, b, now);
    StaysAcyclic(db.notes, after.notes);
    CommitKeepsActions(db, env, v, b, now);
    GrowthKeepsFacts(db, after);
    CommitLeaves(db, env, v, b, now);
  }

  lemma NextItem(registry: map<Slug, Entity>, items: seq<Item>, k: nat, now: Stamp)
    requires k < |items| && !Repeats(items)
    requires MergeAll(registry, items[..k], now).Some? && FirstRefusal(registry, items[..k]).None?
    ensures FirstRefusal(registry, items[..k + 1]) == ItemRefusal(registry, items[k])
    ensures MergeItem(registry, items[k]).Some? ==>
              MergeAll(registry, items[..k + 1], now)
              == Some(MergeAll(registry, items[..k], now).value
                        [items[k].slug := MergeItem(registry, items[k]).value.(updatedAt := now)])
  {
    assert items[..k + 1][..k] == items[..k];
    assert forall j :: 0 <= j < k ==> items[..k][j] == items[j];
  }

  lemma {:induction false} RefusedStays(registry: map<Slug, Entity>, items: seq<Item>, k: nat)
    requires k <= |items| && FirstRefusal(registry, items[..k]).Some?
    ensures FirstRefusal(registry, items) == FirstRefusal(registry, items[..k])
    decreases |items| - k
  {
    if k < |items| {
      assert items[..k + 1][..k] == items[..k];
      RefusedStays(registry, items, k + 1);
    } else {
      assert items[..k] == items;
    }
  }

  lemma {:induction false} RefusedOp(db: Db, ops: seq<FactOp>, k: nat, author: string, now: Stamp)
    requires k <= |ops| && ApplyOps(db, ops[..k], author, now).None?
    ensures ApplyOps(db, ops, author, now).None?
    decreases |ops| - k
  {
    if k < |ops| {
      assert ops[..k + 1][..k] == ops[..k];
      RefusedOp(db, ops, k + 1, author, now);
    } else {
      assert ops[..k] == ops;
    }
  }
}
