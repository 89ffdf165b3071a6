/** Every transaction on the shared rows as one kind of event, and histories of them. */
module Histories {
  import opened Basics
  import opened Rows
  import opened NoteOps
  import opened Registry
  import opened Verdicts

  /**
   One committed transaction. `now` is the stamp it writes; a verdict carries the rows of the
   snapshot its preflight read, which may be any rows at all.
   */
  datatype Event =
    | Saves(q: SaveRequest, now: Stamp)
    | Archives(ids: seq<Id>, now: Stamp, who: string)
    | Restores(ids: seq<Id>)
    | Deletes(ids: seq<Id>, now: Stamp)
    | Links(ids: seq<Id>, add: seq<Slug>, remove: seq<Slug>, who: string, confirm: bool, now: Stamp)
    | Upserts(items: seq<Item>, dryRun: bool, now: Stamp)
    | Drops(slug: Slug, who: string, dryRun: bool, expected: Option<DropPlan>, now: Stamp)
    | Facts(ops: seq<FactOp>, who: string, dryRun: bool, now: Stamp)
    | Judges(v: Verdict, b: Batch, snapshot: Db, now: Stamp)
    | Undoes(id: nat, who: string, now: Stamp)

  /** Requests that reach the store: the group cap is validated to be at least two. */
  predicate WellFormed(ev: Event)
  {
    ev.Judges? ==> ev.b.params.maxGroup >= 2
  }

  ghost function Next(db: Db, env: Env, ev: Event): Db
    requires WellFormed(ev)
  {
    match ev
    case Saves(q, now) => Save(db, env, q, now)
    case Archives(ids, now, who) => Archive(db, ids, now, who)
    case Restores(ids) => Restore(db, ids)
    case Deletes(ids, now) => Delete(db, ids, now)
    case Links(ids, add, remove, who, confirm, now) => Link(db, ids, add, remove, who, confirm, now)
    case Upserts(items, dryRun, now) => Upsert(db, env, items, dryRun, now)
    case Drops(slug, who, dryRun, expected, now) => DropEntity(db, slug, who, dryRun, expected, now)
    case Facts(ops, who, dryRun, now) => ApplyFacts(db, ops, who, dryRun, now)
    case Judges(v, b, snapshot, now) => Process(snapshot, db, env, v, b, now).db
    case Undoes(id, who, now) => Undo(db, id, who, now)
  }

  // ---- the clock ------------------------------------------------------------

  /** The rows, the stamps given out so far, and the last one taken under a lock. */
  datatype Moment = Moment(db: Db, used: set<Stamp>, locked: Stamp)

  /** A save and an archive read the clock before they take the lock. */
  predicate StampsUnderLock(ev: Event)
  {
    ev.Links? || ev.Drops? || ev.Judges? || ev.Undoes?
  }

  /** The clock never repeats, and runs forward for stamps taken under a lock. */
  predicate Ready(m: Moment, ev: Event)
  {
    && WellFormed(ev)
    && (!ev.Restores? ==> ev.now !in m.used)
    && (StampsUnderLock(ev) ==> ev.now > m.locked)
  }

  ghost function After(m: Moment, env: Env, ev: Event): Moment
    requires WellFormed(ev)
  {
    Moment(Next(m.db, env, ev),
           m.used + (if ev.Restores? then {} else {ev.now}),
           if StampsUnderLock(ev) then ev.now else m.locked)
  }

  /** ms[k] is the moment before evs[k]. */
  ghost predicate Run(env: Env, ms: seq<Moment>, evs: seq<Event>)
  {
    && |ms| == |evs| + 1
    && forall k :: 0 <= k < |evs| ==> Ready(ms[k], evs[k]) && ms[k + 1] == After(ms[k], env, evs[k])
  }
}
