/** Saving, archiving, restoring, linking and deleting notes: one function a transaction. */
module NoteOps {
  import opened Basics
  import opened Text
  import opened Rows

  // ---- save -----------------------------------------------------------------

  /** `neighbours` are the ids the similarity query returned, best first. */
  datatype SaveRequest = SaveRequest(
    content: string, kind: string, tags: seq<string>, entities: seq<string>, supersedes: Option<Id>,
    ns: string, occurredAt: Option<int>, author: string, allowSimilar: bool, shared: bool, neighbours: seq<Id>)

  datatype SaveRefusal =
    | FutureDate | BadNote | Credential | SupersedesItself | UnknownEntity | UnknownNamespace
    | UnknownSupersedes | SimilarNotes | IdenticalToArchived

  function Without(ids: seq<Id>, s: Option<Id>): seq<Id>
  {
    if ids == [] then []
    else (if Some(ids[0]) == s then [] else [ids[0]]) + Without(ids[1..], s)
  }

  function SavedRow(env: Env, q: SaveRequest, now: Stamp): Option<Row>
  {
    match BuildRow(env, q.content, q.kind, q.tags, now, q.ns, q.author, q.occurredAt, q.entities, q.shared)
    case None => None
    case Some(r) =>
      var acknowledged := Without(q.neighbours, q.supersedes);
      Some(r.(meta := r.meta.(similarAck := if q.allowSimilar then acknowledged else [],
                              supersedes := q.supersedes)))
  }

  function SaveId(q: SaveRequest): Id
  {
    NoteId(q.ns, q.author, q.content)
  }

  function JoinLines(s: seq<string>): string
  {
    if s == [] then [] else JoinLines(s[..|s| - 1]) + "\n" + s[|s| - 1]
  }

  function SaveCheck(db: Db, env: Env, q: SaveRequest, now: Stamp): Option<SaveRefusal>
  {
    var row := SavedRow(env, q, now);
    var id := SaveId(q);
    if q.occurredAt.Some? && q.occurredAt.value > now then Some(FutureDate)
    else if row.None? then Some(BadNote)
    else if env.secret(q.content + JoinLines(q.tags)) then Some(Credential)
    else if q.supersedes == Some(id) then Some(SupersedesItself)
    else if exists s <- row.value.meta.entities :: s !in db.registry then Some(UnknownEntity)
    else if q.ns !in db.namespaces then Some(UnknownNamespace)
    else if q.supersedes.Some? && !(q.supersedes.value in db.notes && db.notes[q.supersedes.value].ns == q.ns)
    then Some(UnknownSupersedes)
    else if id !in db.notes && q.neighbours != [] && !q.allowSimilar
            && (q.supersedes.None? || q.supersedes.value !in q.neighbours) then Some(SimilarNotes)
    else if id in db.notes && q.supersedes.Some? && db.notes[id].archivedAt.Some? then Some(IdenticalToArchived)
    else None
  }

  function Supersede(notes: Notes, replaced: Id, now: Stamp, who: string, replacement: Id): Notes
    requires replaced in notes
  {
    var r := Archived(notes[replaced], now, who);
    notes[replaced := r.(meta := r.meta.(replacedBy := Some(replacement)))]
  }

  function Save(db: Db, env: Env, q: SaveRequest, now: Stamp): Db
  {
    if SaveCheck(db, env, q, now).Some? then db
    else
      var id := SaveId(q);
      var notes := if id in db.notes then db.notes else db.notes[id := SavedRow(env, q, now).value];
      db.(notes := if q.supersedes.None? then notes
                   else Supersede(notes, q.supersedes.value, now, q.author, id))
  }

  // ---- archive, restore, delete ---------------------------------------------

  function Archive(db: Db, ids: seq<Id>, now: Stamp, who: string): Db
  {
    db.(notes := map i | i in db.notes ::
                   if i in ids && db.notes[i].archivedAt.None? then Archived(db.notes[i], now, who) else db.notes[i])
  }

  function Restore(db: Db, ids: seq<Id>): Db
  {
    db.(notes := map i | i in db.notes :: if i in ids then Restored(db.notes[i]) else db.notes[i])
  }

  /** A fact that cites a deleted note loses the citation; a current one is archived with it. */
  function Uncite(f: Fact, gone: set<Id>, now: Stamp): Fact
  {
    if f.noteId.Some? && f.noteId.value in gone then
      f.(noteId := None, archivedAt := if f.archivedAt.None? then Some(now) else f.archivedAt)
    else f
  }

  function Delete(db: Db, ids: seq<Id>, now: Stamp): Db
  {
    var gone := Elems(ids) * db.notes.Keys;
    db.(notes := db.notes - gone,
        facts := map k | k in db.facts :: Uncite(db.facts[k], gone, now))
  }

  // ---- link -----------------------------------------------------------------

  function Minus(s: seq<Slug>, remove: seq<Slug>): (r: seq<Slug>)
    ensures forall x :: x in r <==> x in s && x !in remove
    ensures |r| <= |s|
  {
    if s == [] then []
    else (if s[0] in remove then [] else [s[0]]) + Minus(s[1..], remove)
  }

  function Relinked(before: seq<Slug>, add: seq<Slug>, remove: seq<Slug>): seq<Slug>
  {
    Minus(Dedup(before + add), remove)
  }

  datatype LinkRefusal = NotActive | UnknownSlug | TooMany

  function LinkCheck(db: Db, ids: seq<Id>, add: seq<Slug>, remove: seq<Slug>): Option<LinkRefusal>
  {
    if exists i <- ids :: !Active(db.notes, i) then Some(NotActive)
    else if exists s <- add :: s !in db.registry then Some(UnknownSlug)
    else if exists i <- ids :: |Relinked(db.notes[i].meta.entities, add, remove)| > MAX_NOTE_ENTITIES
    then Some(TooMany)
    else None
  }

  function LinkRow(r: Row, add: seq<Slug>, remove: seq<Slug>, author: string, now: Stamp): Row
  {
    var before := r.meta.entities;
    var after := Relinked(before, add, remove);
    if Elems(before) == Elems(after) then r else r.(meta := SetEntities(r.meta, after, author, now))
  }

  function Link(db: Db, ids: seq<Id>, add: seq<Slug>, remove: seq<Slug>, author: string, confirm: bool, now: Stamp): Db
  {
    if LinkCheck(db, ids, add, remove).Some? || !confirm then db
    else
      db.(notes := map i | i in db.notes ::
                     if i in ids then LinkRow(db.notes[i], add, remove, author, now) else db.notes[i])
  }
}
