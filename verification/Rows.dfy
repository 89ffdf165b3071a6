/** The rows the note, entity, fact and consolidation transactions share. */
module Rows {
  import opened Basics
  import opened Text
  import Groups

  type Id = Groups.Id
  type Slug = string
  type FactId = string

  /** A logical clock reading. */
  type Stamp = nat

  /** What the transactions take from elsewhere: similarity, the credential scan, the token check, letter case. */
  datatype Env = Env(
    sim: (string, string) -> real,
    secret: string -> bool,
    tokensAgree: (seq<string>, string) -> bool,
    lower: string -> string,
    fold: string -> string)

  datatype Meta = Meta(
    tags: seq<string>, entities: seq<Slug>, author: string, shared: bool,
    similarAck: seq<Id>, supersedes: Option<Id>,
    archivedBy: Option<string>, replacedBy: Option<Id>, consolidatedInto: Option<seq<Id>>,
    mergedFrom: Option<seq<Id>>, consolidationAction: Option<nat>, undoneAction: Option<nat>,
    entitiesSetBy: Option<string>, entitiesSetAt: Option<Stamp>)

  datatype Row = Row(
    ns: string, kind: string, text: string, saved: Stamp, occurredAt: Option<int>,
    archivedAt: Option<Stamp>, meta: Meta)

  type Notes = map<Id, Row>

  datatype Entity = Entity(kind: string, name: string, aliases: seq<string>, description: string, updatedAt: Stamp)

  datatype Fact = Fact(
    ns: string, entity: Slug, attribute: string, valueText: Option<string>, valueEntity: Option<Slug>,
    noteId: Option<Id>, author: string, createdAt: Stamp, archivedAt: Option<Stamp>, replacedBy: Option<FactId>)

  // ---- consolidation records ------------------------------------------------

  datatype Verb = Keep | Retire | Merge

  /** One member's prompt-visible fields. */
  datatype MemberKey = MemberKey(
    id: Id, text: string, kind: string, author: string, saved: Stamp, occurredAt: Option<int>,
    tags: seq<string>, entities: seq<Slug>, supersedes: Option<Id>)

  /** What a group key digests; the digested value stands for the digest. */
  datatype GroupKey = GroupKey(version: string, ns: string, members: seq<MemberKey>)

  datatype Verdict = Verdict(
    ns: string, key: GroupKey, idem: string, memberIds: seq<Id>, verb: Verb,
    retireIds: seq<Id>, mergedText: string, reason: string)

  datatype Batch = Batch(
    runId: string, author: string, model: Option<string>, dryRun: bool, params: Groups.Params, maxActions: nat)

  /** What a payload hash digests. */
  datatype Payload = Payload(
    verdict: Verdict, runId: string, author: string, model: Option<string>, params: Groups.Params)

  datatype Status = Applied | WouldApply | Duplicate | Cached | Stale | Rejected

  datatype Why =
    | NoReason | ReusedKey | Judged | UndoneMembers | NoCurrentGroup | MembersDiffer | MixedAuthors
    | CapReached | NoRetireIds | RepeatedRetireId | OutsideGroup | NoneLeft
    | KindsDiffer | TooManyEntities | BadText | HasSecret | TokensDiffer | Restates(id: Id)
    | TwinArchived | TwinDiffers | TwinSharedDiffers | NotesChanged

  datatype Plan = Plan(
    verb: Verb, archived: seq<Id>, survivors: seq<Id>, replacement: Option<Id>, created: bool, why: Why)

  datatype Result = Result(
    key: GroupKey, status: Status, why: Why, actionId: Option<nat>,
    archived: seq<Id>, survivors: seq<Id>, replacement: Option<Id>)

  datatype UndoResult = UndoResult(restored: seq<Id>, archived: seq<Id>, at: Stamp, who: string)

  datatype Action = Action(
    idem: string, payload: Payload, runId: string, ns: string, verb: Verb, key: GroupKey,
    members: seq<Id>, archived: seq<Id>, survivors: seq<Id>, replacement: Option<Id>, created: bool,
    prior: map<Id, Meta>, appliedAt: Stamp, author: string, result: Result,
    undone: Option<UndoResult>)

  /** The tables. `nextAction` is the id sequence. */
  datatype Db = Db(
    notes: Notes, actions: map<nat, Action>, nextAction: nat,
    registry: map<Slug, Entity>, facts: map<FactId, Fact>, namespaces: set<string>)

  const MAX_NOTE_ENTITIES := 10
  const NOTE_MAX_CHARS := 1750
  const NOTE_KINDS := ["personal", "work"]

  predicate Active(notes: Notes, i: Id)
  {
    i in notes && notes[i].archivedAt.None?
  }

  /** The active notes: what every reader sees without asking for the archive. */
  function ActiveView(notes: Notes): Notes
  {
    map i | i in notes && notes[i].archivedAt.None? :: notes[i]
  }

  // ---- validation -----------------------------------------------------------

  predicate SlugChar(c: char)
  {
    'a' <= c <= 'z' || '0' <= c <= '9' || c == '-'
  }

  predicate ValidSlug(s: Slug)
  {
    1 <= |s| <= 40 && s[0] != '-' && forall c <- s :: SlugChar(c)
  }

  function StripEach(s: seq<string>): (r: seq<string>)
  {
    if s == [] then [] else StripEach(s[..|s| - 1]) + [Strip(s[|s| - 1])]
  }

  /** The slugs of a note, or None when the list is refused. */
  function NormalizeEntities(slugs: seq<string>): (r: Option<seq<Slug>>)
    ensures r.Some? ==> |r.value| <= MAX_NOTE_ENTITIES
  {
    var kept := Dedup(StripEach(slugs));
    if |kept| > MAX_NOTE_ENTITIES || exists s <- kept :: !ValidSlug(s) then None else Some(kept)
  }

  function LowerTags(env: Env, tags: seq<string>): seq<string>
  {
    if tags == [] then []
    else
      var n := |tags| - 1;
      LowerTags(env, tags[..n]) + (if Blank(tags[n]) then [] else [env.lower(Strip(tags[n]))])
  }

  /** An empty list of tags is refused. */
  function NormalizeTags(env: Env, tags: seq<string>): Option<seq<string>>
  {
    var kept := Dedup(LowerTags(env, tags));
    if kept == [] then None else Some(kept)
  }

  /** The id is a digest of namespace, author and text; the text hashed stands for the digest. */
  function NoteId(ns: string, author: string, content: string): Id
  {
    "note:" + ns + ":" + author + "\n" + Strip(content)
  }

  function FreshMeta(tags: seq<string>, entities: seq<Slug>, author: string, shared: bool): Meta
  {
    Meta(tags, entities, author, shared, [], None, None, None, None, None, None, None, None, None)
  }

  /** `build_note_row`: the validated row, or None when a field is refused. */
  function BuildRow(env: Env, content: string, kind: string, tags: seq<string>, now: Stamp, ns: string,
                    author: string, occurredAt: Option<int>, entities: seq<string>, shared: bool): (r: Option<Row>)
    ensures r.Some? ==>
              && r.value.archivedAt.None? && r.value.text == Strip(content) && r.value.text != []
              && r.value.kind == kind && r.value.ns == ns
              && |r.value.meta.entities| <= MAX_NOTE_ENTITIES
              && r.value.meta == FreshMeta(r.value.meta.tags, r.value.meta.entities, author, shared)
  {
    var text := Strip(content);
    var slugs := NormalizeEntities(entities);
    var kept := NormalizeTags(env, tags);
    if text == [] || |text| > NOTE_MAX_CHARS || kind !in NOTE_KINDS || author == ""
       || slugs.None? || kept.None? then None
    else Some(Row(ns, kind, text, now, occurredAt, None, FreshMeta(kept.value, slugs.value, author, shared)))
  }

  // ---- writes to one row ----------------------------------------------------

  function SetEntities(m: Meta, slugs: seq<Slug>, author: string, now: Stamp): Meta
  {
    m.(entities := slugs, entitiesSetBy := Some(author), entitiesSetAt := Some(now))
  }

  function Archived(r: Row, now: Stamp, who: string): Row
  {
    r.(archivedAt := Some(now), meta := r.meta.(archivedBy := Some(who)))
  }

  /** `ARCHIVE_LINEAGE_FIELDS` removed and the row active again. */
  function Restored(r: Row): Row
  {
    r.(archivedAt := None, meta := r.meta.(archivedBy := None, replacedBy := None, consolidatedInto := None))
  }

  predicate Clean(m: Meta)
  {
    m.archivedBy.None? && m.replacedBy.None? && m.consolidatedInto.None?
  }
}
