/** Consolidation verdicts: what a verdict plans over the current rows, and what applying it writes. */
module Verdicts {
  import opened Basics
  import opened Text
  import opened Order
  import opened Rows
  import Groups
  import GroupEdges

  type Note = Groups.Note
  type Pair = Groups.Pair
  type Params = Groups.Params

  const PROCEDURE_VERSION := "2"

  // ---- the notes and pairs a grouping reads ----------------------------------

  function NoteOf(i: Id, r: Row): Note
  {
    Groups.Note(i, r.kind, r.meta.author, r.meta.shared, r.saved, r.occurredAt,
                r.meta.tags, SortStrings(r.meta.entities), r.meta.similarAck, r.meta.supersedes, r.text)
  }

  /** The active notes of a namespace, of one author or of all. */
  function ActiveNotes(notes: Notes, ns: string, author: Option<string>): map<Id, Note>
  {
    map i | i in notes && notes[i].archivedAt.None? && notes[i].ns == ns
            && (author.None? || notes[i].meta.author == author.value)
      :: NoteOf(i, notes[i])
  }

  /** For a's search, x comes before y. */
  predicate Closer(env: Env, M: map<Id, Note>, a: Id, x: Id, y: Id)
    requires a in M && x in M && y in M
  {
    var sx, sy := env.sim(M[a].text, M[x].text), env.sim(M[a].text, M[y].text);
    sx > sy || (sx == sy && Before(x, y))
  }

  /** The notes that come before b in a's search. */
  function CloserThan(env: Env, M: map<Id, Note>, a: Id, b: Id): set<Id>
    requires a in M && b in M
  {
    set x <- M.Keys | x != a && M[x].author == M[a].author && Closer(env, M, a, x, b)
  }

  /** b is among a's nearest neighbours of the same author, at or above the threshold. */
  predicate Near(env: Env, M: map<Id, Note>, p: Params, a: Id, b: Id)
    requires a in M && b in M
  {
    && a != b && M[a].author == M[b].author
    && |CloserThan(env, M, a, b)| < p.neighbors
    && env.sim(M[a].text, M[b].text) >= p.threshold
  }

  function Sim(env: Env, M: map<Id, Note>, a: Id, b: Id): real
    requires a in M && b in M
  {
    env.sim(M[a].text, M[b].text)
  }

  /** The score kept for two notes, given which directions of the search found them. */
  function BestScore(env: Env, M: map<Id, Note>, there: bool, back: bool, a: Id, b: Id): real
    requires a in M && b in M
  {
    if there && back && Sim(env, M, b, a) > Sim(env, M, a, b) then Sim(env, M, b, a)
    else if there then Sim(env, M, a, b) else Sim(env, M, b, a)
  }

  /** The pair of two notes with the better score of the directions that found it. */
  function BestPair(env: Env, M: map<Id, Note>, p: Params, a: Id, b: Id): Pair
    requires a in M && b in M
  {
    Groups.Pair(a, b, BestScore(env, M, Near(env, M, p, a, b), Near(env, M, p, b, a), a, b))
  }

  function PairSet(env: Env, M: map<Id, Note>, p: Params): set<Pair>
  {
    set a <- M.Keys, b <- M.Keys | Before(a, b) && (Near(env, M, p, a, b) || Near(env, M, p, b, a))
      :: BestPair(env, M, p, a, b)
  }

  predicate PairLess(x: Pair, y: Pair)
  {
    Before(x.a, y.a) || (x.a == y.a && (Before(x.b, y.b) || (x.b == y.b && x.score < y.score)))
  }

  lemma PairsOrdered(S: set<Pair>)
    ensures TotalOn(PairLess, S)
  {
    BeforeIsAnOrder();
  }

  /** `read_pairs`: the pairs sorted by their ends. */
  ghost function ReadPairs(env: Env, M: map<Id, Note>, p: Params): (r: seq<Pair>)
    ensures Groups.EndsKnown(r, M)
  {
    PairsOrdered(PairSet(env, M, p));
    Sorted(PairLess, PairSet(env, M, p))
  }

  // ---- group keys -----------------------------------------------------------

  function KeyOf(n: Note): MemberKey
  {
    MemberKey(n.id, n.text, n.kind, n.author, n.saved, n.occurredAt, SortStrings(n.tags), n.entities, n.supersedes)
  }

  function KeysOf(M: map<Id, Note>, members: seq<Id>): (r: seq<MemberKey>)
    requires forall i <- members :: i in M
    ensures |r| == |members| && forall j :: 0 <= j < |r| ==> r[j] == KeyOf(M[members[j]])
  {
    if members == [] then [] else KeysOf(M, members[..|members| - 1]) + [KeyOf(M[members[|members| - 1]])]
  }

  /** Members are listed by id, as groups list them. */
  function KeyOfGroup(ns: string, M: map<Id, Note>, members: seq<Id>): GroupKey
    requires forall i <- members :: i in M
  {
    GroupKey(PROCEDURE_VERSION, ns, KeysOf(M, members))
  }

  // ---- what a plan reads ----------------------------------------------------

  datatype Existing = Existing(id: Id, kind: string, text: string, archived: bool, shared: bool)

  datatype State = State(
    recorded: Option<Action>, cached: Option<Why>, pairs: seq<Pair>, notes: map<Id, Note>,
    used: nat, replacement: Option<Existing>)

  function PayloadOf(v: Verdict, b: Batch): Payload
  {
    Payload(v, b.runId, b.author, b.model, b.params)
  }

  predicate KeyJudged(db: Db, key: GroupKey)
  {
    exists a <- db.actions.Keys :: db.actions[a].key == key
  }

  predicate UndoneWith(db: Db, ns: string, members: seq<Id>)
  {
    exists a <- db.actions.Keys ::
      db.actions[a].ns == ns && db.actions[a].undone.Some? && db.actions[a].members == members
  }

  function CachedWhy(db: Db, v: Verdict): Option<Why>
  {
    if KeyJudged(db, v.key) then Some(Judged)
    else if UndoneWith(db, v.ns, SortStrings(v.memberIds)) then Some(UndoneMembers)
    else None
  }

  ghost function Recorded(db: Db, idem: string): Option<Action>
  {
    if a :| a in db.actions && db.actions[a].idem == idem then Some(db.actions[a]) else None
  }

  /** The retire and merge actions of a run in a namespace. */
  function UsedActions(db: Db, runId: string, ns: string): set<nat>
  {
    set a <- db.actions.Keys | db.actions[a].runId == runId && db.actions[a].ns == ns && db.actions[a].verb != Keep
  }

  /** The one author of the submitted members, when every one is stored and they agree. */
  function OneAuthor(notes: Notes, ids: seq<Id>): Option<string>
  {
    if ids != [] && (forall i <- ids :: i in notes && notes[i].meta.author == AuthorOf(notes, ids[0]))
    then Some(AuthorOf(notes, ids[0])) else None
  }

  function AuthorOf(notes: Notes, i: Id): string
  {
    if i in notes then notes[i].meta.author else ""
  }

  function MergedId(v: Verdict, M: map<Id, Note>): Option<Id>
  {
    var members := SortStrings(v.memberIds);
    if v.verb != Merge || Blank(v.mergedText) || members == [] || exists i <- members :: i !in M then None
    else Some(NoteId(v.ns, M[members[0]].author, v.mergedText))
  }

  function ExistingOf(notes: Notes, id: Option<Id>): Option<Existing>
  {
    if id.None? || id.value !in notes then None
    else
      var r := notes[id.value];
      Some(Existing(id.value, r.kind, r.text, r.archivedAt.Some?, r.meta.shared))
  }

  ghost function LoadState(db: Db, env: Env, v: Verdict, b: Batch): State
  {
    var recorded := Recorded(db, v.idem);
    var cached := CachedWhy(db, v);
    if recorded.Some? || cached.Some? then State(recorded, cached, [], map[], 0, None)
    else
      var M := ActiveNotes(db.notes, v.ns, OneAuthor(db.notes, v.memberIds));
      State(None, None, ReadPairs(env, M, b.params), M, |UsedActions(db, b.runId, v.ns)|,
            ExistingOf(db.notes, MergedId(v, M)))
  }

  // ---- plan -----------------------------------------------------------------

  datatype Outcome = Planned(plan: Plan) | Ended(result: Result)

  function End(v: Verdict, status: Status, why: Why): Outcome
  {
    Ended(Result(v.key, status, why, None, [], [], None))
  }

  function Keeping(members: seq<Id>, drop: seq<Id>): (r: seq<Id>)
    ensures forall x :: x in r <==> x in members && x !in drop
  {
    if members == [] then []
    else (if members[0] in drop then [] else [members[0]]) + Keeping(members[1..], drop)
  }

  function PlanRetire(v: Verdict, members: seq<Id>): Outcome
  {
    var retire := v.retireIds;
    if retire == [] then End(v, Rejected, NoRetireIds)
    else if Dedup(retire) != retire then End(v, Rejected, RepeatedRetireId)
    else if exists i <- retire :: i !in members then End(v, Rejected, OutsideGroup)
    else if forall i <- members :: i in retire then End(v, Rejected, NoneLeft)
    else Planned(Plan(Retire, SortStrings(retire), Keeping(members, retire), None, false, NoReason))
  }

  function AllEntities(M: map<Id, Note>, members: seq<Id>): seq<Slug>
    requires forall i <- members :: i in M
  {
    if members == [] then [] else AllEntities(M, members[..|members| - 1]) + M[members[|members| - 1]].entities
  }

  function AllTags(M: map<Id, Note>, members: seq<Id>): seq<string>
    requires forall i <- members :: i in M
  {
    if members == [] then [] else AllTags(M, members[..|members| - 1]) + M[members[|members| - 1]].tags
  }

  /** The sorted union of the members' entity slugs. */
  function MergedEntities(M: map<Id, Note>, members: seq<Id>): seq<Slug>
    requires forall i <- members :: i in M
  {
    SortStrings(Dedup(AllEntities(M, members)))
  }

  predicate MembersShared(M: map<Id, Note>, members: seq<Id>)
    requires forall i <- members :: i in M
  {
    forall i <- members :: M[i].shared
  }

  function Later(a: Option<int>, b: Option<int>): Option<int>
  {
    if a.None? then b else if b.None? || a.value >= b.value then a else b
  }

  function LatestDate(M: map<Id, Note>, members: seq<Id>): Option<int>
    requires forall i <- members :: i in M
  {
    if members == [] then None
    else Later(LatestDate(M, members[..|members| - 1]), M[members[|members| - 1]].occurredAt)
  }

  function ReplacementRow(env: Env, v: Verdict, M: map<Id, Note>, members: seq<Id>, now: Stamp): Option<Row>
    requires members != [] && forall i <- members :: i in M
  {
    assert members[0] in members;
    BuildRow(env, v.mergedText, M[members[0]].kind, SortStrings(Dedup(AllTags(M, members))), now, v.ns,
             M[members[0]].author, LatestDate(M, members), MergedEntities(M, members), MembersShared(M, members))
  }

  function TextsOf(M: map<Id, Note>, members: seq<Id>): seq<string>
    requires forall i <- members :: i in M
  {
    if members == [] then [] else TextsOf(M, members[..|members| - 1]) + [M[members[|members| - 1]].text]
  }

  /** The first member whose text is the merged text up to whitespace. */
  function SameText(M: map<Id, Note>, members: seq<Id>, text: string): (r: Option<Id>)
    requires forall i <- members :: i in M
    ensures r.Some? ==> r.value in members && Words(M[r.value].text) == Words(text)
  {
    if members == [] then None
    else
      assert members[0] in members;
      if Words(M[members[0]].text) == Words(text) then Some(members[0])
      else SameText(M, members[1..], text)
  }

  /** Why the members cannot be merged into the text at all. */
  function MergeRefusal(env: Env, v: Verdict, M: map<Id, Note>, members: seq<Id>): Option<Why>
    requires members != [] && forall i <- members :: i in M
  {
    assert members[0] in members;
    if exists i <- members :: M[i].kind != M[members[0]].kind then Some(KindsDiffer)
    else if |MergedEntities(M, members)| > MAX_NOTE_ENTITIES then Some(TooManyEntities)
    else if ReplacementRow(env, v, M, members, 0).None? then Some(BadText)
    else if env.secret(v.mergedText) then Some(HasSecret)
    else if !env.tokensAgree(TextsOf(M, members), v.mergedText) then Some(TokensDiffer)
    else None
  }

  function PlanMerge(env: Env, v: Verdict, st: State, members: seq<Id>): Outcome
    requires members != [] && forall i <- members :: i in st.notes
  {
    match MergeRefusal(env, v, st.notes, members)
    case Some(why) => End(v, Rejected, why)
    case None =>
      match SameText(st.notes, members, v.mergedText)
      case Some(same) => Planned(Plan(Retire, Keeping(members, [same]), [same], None, false, Restates(same)))
      case None => PlanReplacement(v, st, members)
  }

  function PlanReplacement(v: Verdict, st: State, members: seq<Id>): Outcome
    requires members != [] && forall i <- members :: i in st.notes
  {
    var M := st.notes;
    assert members[0] in members;
    var id := NoteId(v.ns, M[members[0]].author, v.mergedText);
    match st.replacement
    case None => Planned(Plan(Merge, members, [id], Some(id), true, NoReason))
    case Some(e) =>
      if e.archived then End(v, Rejected, TwinArchived)
      else if e.kind != M[members[0]].kind || e.text != Strip(v.mergedText) || id in members
      then End(v, Rejected, TwinDiffers)
      else if e.shared != MembersShared(M, members) then End(v, Stale, TwinSharedDiffers)
      else Planned(Plan(Merge, members, [id], Some(id), false, NoReason))
  }

  /** The first current group with the submitted key. */
  function Issued(ns: string, M: map<Id, Note>, groups: seq<Groups.Group>, key: GroupKey): Option<Groups.Group>
  {
    if groups == [] then None
    else if (forall i <- groups[0].members :: i in M) && KeyOfGroup(ns, M, groups[0].members) == key
    then Some(groups[0])
    else Issued(ns, M, groups[1..], key)
  }

  ghost function CurrentGroups(st: State, p: Params): seq<Groups.Group>
    requires Groups.EndsKnown(st.pairs, st.notes) && p.maxGroup >= 2
  {
    GroupEdges.BuildGroups(st.pairs, st.notes, p).groups
  }

  predicate MixesAuthors(M: map<Id, Note>, members: seq<Id>)
    requires forall i <- members :: i in M
  {
    exists i <- members, j <- members :: M[i].author != M[j].author
  }

  function PlanVerb(env: Env, v: Verdict, st: State, members: seq<Id>): Outcome
    requires members != [] && forall i <- members :: i in st.notes
  {
    match v.verb
    case Keep => Planned(Plan(Keep, [], members, None, false, NoReason))
    case Retire => PlanRetire(v, members)
    case Merge => PlanMerge(env, v, st, members)
  }

  /** The change a verdict would make over the rows of st, or its terminal result. */
  ghost function PlanVerdict(env: Env, v: Verdict, b: Batch, st: State): Outcome
    requires Groups.EndsKnown(st.pairs, st.notes) && b.params.maxGroup >= 2
  {
    var members := SortStrings(v.memberIds);
    if st.recorded.Some? then
      if st.recorded.value.payload == PayloadOf(v, b)
      then Ended(st.recorded.value.result.(status := Duplicate)) else End(v, Rejected, ReusedKey)
    else if st.cached.Some? then End(v, Cached, st.cached.value)
    else if exists i <- members :: i !in st.notes then End(v, Stale, NoCurrentGroup)
    else if MixesAuthors(st.notes, members) then End(v, Rejected, MixedAuthors)
    else
      var issued := Issued(v.ns, st.notes, CurrentGroups(st, b.params), v.key);
      if issued.None? then End(v, Stale, NoCurrentGroup)
      else if issued.value.members != members || members == [] then End(v, Stale, MembersDiffer)
      else if v.verb != Keep && st.used >= b.maxActions then End(v, Rejected, CapReached)
      else PlanVerb(env, v, st, members)
  }

  // ---- apply ----------------------------------------------------------------

  function ArchivedInto(r: Row, now: Stamp, who: string, survivors: seq<Id>): Row
  {
    var a := Archived(r, now, who);
    a.(meta := a.meta.(consolidatedInto := Some(survivors)))
  }

  function ApplyNotes(notes: Notes, replacement: Option<Row>, plan: Plan, now: Stamp, who: string): Notes
  {
    var inserted := if replacement.Some? && plan.replacement.Some? && plan.replacement.value !in notes
                    then notes[plan.replacement.value := replacement.value] else notes;
    map i | i in inserted ::
      if i in plan.archived then ArchivedInto(inserted[i], now, who, plan.survivors) else inserted[i]
  }

  function PriorOf(notes: Notes, ids: seq<Id>): map<Id, Meta>
  {
    map i | i in notes && i in ids :: notes[i].meta
  }

  /** The row inserted for a created replacement. */
  function CreatedRow(db: Db, env: Env, v: Verdict, plan: Plan, M: map<Id, Note>, now: Stamp): Option<Row>
  {
    var members := SortStrings(v.memberIds);
    if !plan.created || members == [] || exists i <- members :: i !in M then None
    else
      match ReplacementRow(env, v, M, members, now)
      case None => None
      case Some(r) => Some(r.(meta := r.meta.(mergedFrom := Some(members), consolidationAction := Some(db.nextAction))))
  }

  function AppliedResult(v: Verdict, plan: Plan, actionId: nat): Result
  {
    Result(v.key, Applied, plan.why, Some(actionId), plan.archived, plan.survivors, plan.replacement)
  }

  function ActionOf(db: Db, v: Verdict, b: Batch, plan: Plan, now: Stamp): Action
  {
    Action(v.idem, PayloadOf(v, b), b.runId, v.ns, plan.verb, v.key, SortStrings(v.memberIds),
           plan.archived, plan.survivors, plan.replacement, plan.created,
           PriorOf(db.notes, plan.archived), now, b.author, AppliedResult(v, plan, db.nextAction), None)
  }

  /** Replacement, archive and action row. */
  function ApplyPlan(db: Db, env: Env, v: Verdict, b: Batch, plan: Plan, M: map<Id, Note>, now: Stamp): Db
  {
    db.(notes := ApplyNotes(db.notes, CreatedRow(db, env, v, plan, M, now), plan, now, b.author),
        actions := db.actions[db.nextAction := ActionOf(db, v, b, plan, now)],
        nextAction := db.nextAction + 1)
  }

  /** One atomic plan-and-apply step on the rows as they are. */
  ghost function Decide(db: Db, env: Env, v: Verdict, b: Batch): Outcome
    requires b.params.maxGroup >= 2
  {
    PlanVerdict(env, v, b, LoadState(db, env, v, b))
  }

  ghost function Commit(db: Db, env: Env, v: Verdict, b: Batch, now: Stamp): Db
    requires b.params.maxGroup >= 2 && Decide(db, env, v, b).Planned?
  {
    ApplyPlan(db, env, v, b, Decide(db, env, v, b).plan, LoadState(db, env, v, b).notes, now)
  }

  /** Snapshot and locked rows lead to the same plan, and the batch is to write it. */
  ghost predicate Agreed(snapshot: Db, db: Db, env: Env, v: Verdict, b: Batch)
    requires b.params.maxGroup >= 2
  {
    !b.dryRun && Decide(snapshot, env, v, b).Planned? && Decide(db, env, v, b) == Decide(snapshot, env, v, b)
  }

  function WouldApplyResult(v: Verdict, plan: Plan): Result
  {
    Result(v.key, WouldApply, plan.why, None, plan.archived, plan.survivors, plan.replacement)
  }

  /** What a step under the lock answers when it writes nothing. */
  function Refused(v: Verdict, o: Outcome): Result
  {
    match o case Ended(result) => result case Planned(_) => End(v, Stale, NotesChanged).result
  }

  /** What a step that writes nothing answers. */
  ghost function Unwritten(snapshot: Db, db: Db, env: Env, v: Verdict, b: Batch): Result
    requires b.params.maxGroup >= 2
  {
    match Decide(snapshot, env, v, b)
    case Ended(result) => result
    case Planned(plan) => if b.dryRun then WouldApplyResult(v, plan) else Refused(v, Decide(db, env, v, b))
  }

  datatype Step = Step(db: Db, result: Result)

  /**
   What `process_verdict` does as one step on the locked rows `db`, which may differ from the
   snapshot in any way; `Tables.Store.ProcessVerdict` takes the code's two readings.
   */
  ghost function Process(snapshot: Db, db: Db, env: Env, v: Verdict, b: Batch, now: Stamp): Step
    requires b.params.maxGroup >= 2
  {
    if Agreed(snapshot, db, env, v, b)
    then Step(Commit(db, env, v, b, now), AppliedResult(v, Decide(db, env, v, b).plan, db.nextAction))
    else Step(db, Unwritten(snapshot, db, env, v, b))
  }

  // ---- undo -----------------------------------------------------------------

  datatype UndoRefusal =
    | Unknown | NothingToUndo | NoteGone | NoteMoved | OtherLineage | EntitiesChanged
    | ReplacementGone | ReplacementArchived | Superseded | LaterAction | ReplacementEntities | DeletedEntity

  predicate SetAfter(m: Meta, t: Stamp)
  {
    m.entitiesSetAt.Some? && m.entitiesSetAt.value > t
  }

  function NoteRefusal(notes: Notes, a: Action, i: Id): Option<UndoRefusal>
  {
    if i !in notes then Some(NoteGone)
    else if notes[i].archivedAt != Some(a.appliedAt) then Some(NoteMoved)
    else if notes[i].meta.consolidatedInto != Some(a.survivors) then Some(OtherLineage)
    else if SetAfter(notes[i].meta, a.appliedAt) then Some(EntitiesChanged)
    else None
  }

  function ArchivedRefusal(notes: Notes, a: Action, ids: seq<Id>): Option<UndoRefusal>
  {
    if ids == [] then None
    else
      var first := NoteRefusal(notes, a, ids[0]);
      if first.Some? then first else ArchivedRefusal(notes, a, ids[1..])
  }

  /** p climbs from a note that supersedes r, each element superseding the one before it. */
  ghost predicate SuccessorPath(notes: Notes, r: Id, p: seq<Id>)
  {
    && p != [] && (forall i <- p :: i in notes)
    && notes[p[0]].meta.supersedes == Some(r)
    && forall k :: 0 < k < |p| ==> notes[p[k]].meta.supersedes == Some(p[k - 1])
  }

  ghost predicate HasActiveSuccessor(notes: Notes, r: Id)
  {
    exists p :: SuccessorPath(notes, r, p) && notes[p[|p| - 1]].archivedAt.None?
  }

  predicate InLaterAction(db: Db, r: Id)
  {
    exists a <- db.actions.Keys ::
      db.actions[a].undone.None? && db.actions[a].verb != Keep && r in db.actions[a].members
  }

  ghost function ReplacementRefusal(db: Db, a: Action): Option<UndoRefusal>
  {
    if !a.created || a.replacement.None? then None
    else
      var r := a.replacement.value;
      if r !in db.notes then Some(ReplacementGone)
      else if db.notes[r].archivedAt.Some? then Some(ReplacementArchived)
      else if HasActiveSuccessor(db.notes, r) then Some(Superseded)
      else if InLaterAction(db, r) then Some(LaterAction)
      else if SetAfter(db.notes[r].meta, a.appliedAt) then Some(ReplacementEntities)
      else None
  }

  predicate PriorRegistered(db: Db, a: Action)
  {
    forall i <- a.prior.Keys :: forall s <- a.prior[i].entities :: s in db.registry
  }

  /** Why an action that is not yet undone cannot be. */
  ghost function UndoCheckOf(db: Db, a: Action): Option<UndoRefusal>
  {
    if a.verb == Keep then Some(NothingToUndo)
    else
      var first := ArchivedRefusal(db.notes, a, a.archived);
      var second := ReplacementRefusal(db, a);
      if first.Some? then first
      else if second.Some? then second
      else if !PriorRegistered(db, a) then Some(DeletedEntity)
      else None
  }

  ghost function UndoCheck(db: Db, id: nat): Option<UndoRefusal>
  {
    if id !in db.actions then Some(Unknown) else UndoCheckOf(db, db.actions[id])
  }

  ghost predicate UndoAccepted(db: Db, id: nat)
  {
    id in db.actions && db.actions[id].undone.None? && UndoCheck(db, id).None?
  }

  function Retired(r: Row, now: Stamp, who: string, id: nat): Row
  {
    var a := Archived(r, now, who);
    a.(meta := a.meta.(undoneAction := Some(id)))
  }

  function UndoNotes(notes: Notes, a: Action, id: nat, now: Stamp, who: string): Notes
  {
    map i | i in notes ::
      if i in a.archived && i in a.prior then notes[i].(archivedAt := None, meta := a.prior[i])
      else if a.created && a.replacement == Some(i) then Retired(notes[i], now, who, id)
      else notes[i]
  }

  function UndoneAction(a: Action, now: Stamp, who: string): Action
  {
    var archived := if a.created && a.replacement.Some? then [a.replacement.value] else [];
    a.(undone := Some(UndoResult(a.archived, archived, now, who)))
  }

  /** An action already undone, and a refused undo, change nothing. */
  ghost function Undo(db: Db, id: nat, who: string, now: Stamp): Db
  {
    if !UndoAccepted(db, id) then db
    else
      var a := db.actions[id];
      db.(notes := UndoNotes(db.notes, a, id, now, who),
          actions := db.actions[id := UndoneAction(a, now, who)])
  }
}
