/** The entity registry and the facts: one function a transaction. */
module Registry {
  import opened Basics
  import opened Rows
  import opened NoteOps

  // ---- upsert ---------------------------------------------------------------

  /** One item of an upsert; a missing field keeps the stored value. */
  datatype Item = Item(
    slug: Slug, kind: Option<string>, name: Option<string>, aliases: Option<seq<string>>,
    description: Option<string>, base: Option<Stamp>)

  function Or<T>(o: Option<T>, default: T): T
  {
    match o case Some(v) => v case None => default
  }

  /** The row an item asks for, or None when it is refused. */
  function MergeItem(registry: map<Slug, Entity>, item: Item): Option<Entity>
  {
    if !ValidSlug(item.slug) then None
    else if item.slug !in registry then
      if item.base.Some? || item.kind.None? || item.name.None? then None
      else Some(Entity(item.kind.value, item.name.value, Or(item.aliases, []), Or(item.description, ""), 0))
    else
      var current := registry[item.slug];
      var changes := item.description.Some? && item.description.value != current.description;
      if changes && item.base != Some(current.updatedAt) then None
      else Some(Entity(Or(item.kind, current.kind), Or(item.name, current.name), Or(item.aliases, current.aliases),
                       Or(item.description, current.description), current.updatedAt))
  }

  /** The names an entity holds: its slug, its folded name, its folded aliases. */
  function Claims(env: Env, slug: Slug, e: Entity): set<string>
  {
    {slug, env.fold(e.name)} + (set a <- e.aliases :: env.fold(a))
  }

  /** The registry as it would be after the batch, or None when an item is refused or repeats a slug. */
  function MergeAll(registry: map<Slug, Entity>, items: seq<Item>, now: Stamp): (r: Option<map<Slug, Entity>>)
    ensures r.Some? ==> r.value.Keys == registry.Keys + (set i <- items :: i.slug)
    ensures r.Some? ==> forall s | s in registry && forall i <- items :: i.slug != s :: r.value[s] == registry[s]
  {
    if items == [] then Some(registry)
    else
      var n := |items| - 1;
      assert items == items[..n] + [items[n]];
      match MergeAll(registry, items[..n], now)
      case None => None
      case Some(sofar) =>
        var merged := MergeItem(registry, items[n]);
        if merged.None? || exists i <- items[..n] :: i.slug == items[n].slug then None
        else Some(sofar[items[n].slug := merged.value.(updatedAt := now)])
  }

  function Texts(e: Entity): seq<string>
  {
    [e.name] + e.aliases + [e.description]
  }

  // ---- why a batch is refused -------------------------------------------------

  datatype UpsertRefusal =
    | RepeatedSlug | BadSlug | NewWithBase | Incomplete | NeedsBase | StaleBase | HoldsCredential | NameHeld

  /** Why one item is refused by itself. */
  function ItemRefusal(registry: map<Slug, Entity>, item: Item): (r: Option<UpsertRefusal>)
    ensures r.Some? <==> MergeItem(registry, item).None?
  {
    if !ValidSlug(item.slug) then Some(BadSlug)
    else if item.slug !in registry then
      if item.base.Some? then Some(NewWithBase)
      else if item.kind.None? || item.name.None? then Some(Incomplete) else None
    else
      var current := registry[item.slug];
      var changes := item.description.Some? && item.description.value != current.description;
      if changes && item.base.None? then Some(NeedsBase)
      else if changes && item.base.value != current.updatedAt then Some(StaleBase) else None
  }

  predicate Repeats(items: seq<Item>)
  {
    exists j, k :: 0 <= j < k < |items| && items[j].slug == items[k].slug
  }

  /** The refusal of the first item that is refused. */
  function FirstRefusal(registry: map<Slug, Entity>, items: seq<Item>): Option<UpsertRefusal>
  {
    if items == [] then None
    else
      var n := |items| - 1;
      var before := FirstRefusal(registry, items[..n]);
      if before.Some? then before else ItemRefusal(registry, items[n])
  }

  lemma RepeatsMore(items: seq<Item>, n: nat)
    requires n < |items| && n == |items| - 1
    ensures Repeats(items) <==> Repeats(items[..n]) || exists i <- items[..n] :: i.slug == items[n].slug
  {
    var first := items[..n];
    assert forall j :: 0 <= j < n ==> items[j] == first[j];
    if Repeats(items) {
      var j, k :| 0 <= j < k < |items| && items[j].slug == items[k].slug;
      assert first[j] in first;
    }
    if i :| i in first && i.slug == items[n].slug {
      var j :| 0 <= j < n && first[j] == i;
      assert items[j].slug == items[n].slug;
    }
  }

  /** The batch is merged exactly when no slug repeats and no item is refused. */
  lemma {:induction false} MergedIff(registry: map<Slug, Entity>, items: seq<Item>, now: Stamp)
    ensures MergeAll(registry, items, now).Some? <==> !Repeats(items) && FirstRefusal(registry, items).None?
  {
    if items != [] {
      MergedIff(registry, items[..|items| - 1], now);
      RepeatsMore(items, |items| - 1);
    }
  }

  predicate HasCredential(env: Env, merged: map<Slug, Entity>, items: seq<Item>)
    requires forall i <- items :: i.slug in merged
  {
    exists i <- items :: exists t <- Texts(merged[i.slug]) :: env.secret(t)
  }

  predicate HoldsHeldName(env: Env, merged: map<Slug, Entity>, items: seq<Item>)
    requires forall i <- items :: i.slug in merged
  {
    exists i <- items :: Collides(env, merged, i.slug)
  }

  /**
   Why a batch is refused: a malformed slug, a repeated one, an item by itself, a credential, a held
   name, in this order.
   */
  function UpsertCheck(db: Db, env: Env, items: seq<Item>, now: Stamp): Option<UpsertRefusal>
  {
    var first := FirstRefusal(db.registry, items);
    if exists i <- items :: !ValidSlug(i.slug) then Some(BadSlug)
    else if Repeats(items) then Some(RepeatedSlug)
    else if first.Some? then first
    else
      MergedIff(db.registry, items, now);
      var merged := MergeAll(db.registry, items, now).value;
      if HasCredential(env, merged, items) then Some(HoldsCredential)
      else if HoldsHeldName(env, merged, items) then Some(NameHeld)
      else None
  }

  predicate Collides(env: Env, registry: map<Slug, Entity>, slug: Slug)
    requires slug in registry
  {
    exists other <- registry.Keys :: other != slug
      && Claims(env, slug, registry[slug]) * Claims(env, other, registry[other]) != {}
  }

  function Upsert(db: Db, env: Env, items: seq<Item>, dryRun: bool, now: Stamp): Db
  {
    match MergeAll(db.registry, items, now)
    case None => db
    case Some(after) =>
      if dryRun || HasCredential(env, after, items) || HoldsHeldName(env, after, items) then db
      else db.(registry := after)
  }

  /** A batch is written exactly when it is not refused, and then as merged. */
  lemma UpsertIs(db: Db, env: Env, items: seq<Item>, dryRun: bool, now: Stamp)
    ensures UpsertCheck(db, env, items, now).Some? || dryRun ==> Upsert(db, env, items, dryRun, now) == db
    ensures UpsertCheck(db, env, items, now).None? ==> MergeAll(db.registry, items, now).Some?
    ensures UpsertCheck(db, env, items, now).None? && !dryRun ==>
              Upsert(db, env, items, dryRun, now) == db.(registry := MergeAll(db.registry, items, now).value)
  {
    MergedIff(db.registry, items, now);
    if MergeAll(db.registry, items, now).Some? {
      MergedSlugs(db.registry, items, now);
    }
  }

  lemma {:induction false} MergedSlugs(registry: map<Slug, Entity>, items: seq<Item>, now: Stamp)
    requires MergeAll(registry, items, now).Some?
    ensures forall i <- items :: ValidSlug(i.slug)
  {
    if items != [] {
      MergedSlugs(registry, items[..|items| - 1], now);
    }
  }

  // ---- delete ---------------------------------------------------------------

  function Unlink(r: Row, slug: Slug, author: string, now: Stamp): Row
  {
    if slug in r.meta.entities then r.(meta := SetEntities(r.meta, Minus(r.meta.entities, [slug]), author, now)) else r
  }

  predicate Touches(f: Fact, slug: Slug)
  {
    f.entity == slug || f.valueEntity == Some(slug)
  }

  function ClearReplaced(f: Fact, gone: set<FactId>): Fact
  {
    if f.replacedBy.Some? && f.replacedBy.value in gone then f.(replacedBy := None) else f
  }

  datatype DropPlan = DropPlan(notes: nat, facts: nat, incoming: nat)

  function PlanDrop(db: Db, slug: Slug): DropPlan
  {
    DropPlan(|set i <- db.notes.Keys | slug in db.notes[i].meta.entities|,
             |set k <- db.facts.Keys | db.facts[k].entity == slug|,
             |set k <- db.facts.Keys | db.facts[k].entity != slug && db.facts[k].valueEntity == Some(slug)|)
  }

  function DropEntity(db: Db, slug: Slug, author: string, dryRun: bool, expected: Option<DropPlan>, now: Stamp): Db
  {
    if slug !in db.registry || dryRun || (expected.Some? && expected.value != PlanDrop(db, slug)) then db
    else
      var gone := set k <- db.facts.Keys | Touches(db.facts[k], slug);
      db.(notes := map i | i in db.notes :: Unlink(db.notes[i], slug, author, now),
          facts := map k | k in db.facts && k !in gone :: ClearReplaced(db.facts[k], gone),
          registry := db.registry - {slug})
  }

  // ---- facts ----------------------------------------------------------------

  /** `newId` is the identifier the operation would give a new row. */
  datatype FactOp =
    | Add(noteId: Id, entity: Slug, attribute: string, valueText: Option<string>, valueEntity: Option<Slug>,
          allowMultiple: bool, newId: FactId)
    | Replace(id: FactId, noteId: Id, newAttribute: Option<string>, valueText: Option<string>,
              valueEntity: Option<Slug>, newId: FactId)
    | Remove(id: FactId, noteId: Id)

  predicate Current(facts: map<FactId, Fact>, k: FactId)
  {
    k in facts && facts[k].archivedAt.None?
  }

  predicate ValueRegistered(db: Db, v: Option<Slug>)
  {
    v.None? || v.value in db.registry
  }

  predicate HasValue(f: Fact, entity: Slug, attribute: string, text: Option<string>, other: Option<Slug>)
  {
    f.entity == entity && f.attribute == attribute && f.valueText == text && f.valueEntity == other
  }

  /** One operation, or None when it is refused. */
  function ApplyOp(db: Db, op: FactOp, author: string, now: Stamp): Option<Db>
  {
    if !Active(db.notes, op.noteId) then None
    else
      var ns := db.notes[op.noteId].ns;
      match op
      case Add(noteId, entity, attribute, text, other, multiple, newId) =>
        if entity !in db.registry || !ValueRegistered(db, other) then None
        else if exists k <- db.facts.Keys ::
                  Current(db.facts, k) && HasValue(db.facts[k], entity, attribute, text, other) then Some(db)
        else if !multiple && exists k <- db.facts.Keys ::
                  Current(db.facts, k) && db.facts[k].entity == entity && db.facts[k].attribute == attribute then None
        else if newId in db.facts then None
        else
          var added := Fact(ns, entity, attribute, text, other, Some(noteId), author, now, None, None);
          Some(db.(facts := db.facts[newId := added]))
      case Replace(id, noteId, attribute, text, other, newId) =>
        if !Current(db.facts, id) then None
        else
          var closing := db.facts[id];
          if closing.entity !in db.registry || !ValueRegistered(db, other) || newId in db.facts then None
          else
            var successor := Fact(ns, closing.entity, Or(attribute, closing.attribute), text, other, Some(noteId),
                                  author, now, None, None);
            var closed := closing.(archivedAt := Some(now), replacedBy := Some(newId));
            Some(db.(facts := db.facts[newId := successor][id := closed]))
      case Remove(id, noteId) =>
        if !Current(db.facts, id) then None
        else Some(db.(facts := db.facts[id := db.facts[id].(archivedAt := Some(now), replacedBy := None)]))
  }

  function ApplyOps(db: Db, ops: seq<FactOp>, author: string, now: Stamp): Option<Db>
  {
    if ops == [] then Some(db)
    else
      var n := |ops| - 1;
      match ApplyOps(db, ops[..n], author, now)
      case None => None
      case Some(sofar) => ApplyOp(sofar, ops[n], author, now)
  }

  /** All operations or none. */
  function ApplyFacts(db: Db, ops: seq<FactOp>, author: string, dryRun: bool, now: Stamp): Db
  {
    var r := ApplyOps(db, ops, author, now);
    if dryRun || r.None? then db else r.value
  }
}
