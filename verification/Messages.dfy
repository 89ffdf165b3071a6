/** The message lane: sending, superseding, claiming, cancelling and purging, one function a transaction. */
module Messages {
  import opened Basics
  import opened Text
  import opened Rendering

  type Id = nat
  type Stamp = nat

  /** What the lane takes from elsewhere: Unicode folding, scope normalisation, the URL check. */
  datatype Env = Env(
    nfkc: string -> string, casefold: string -> string, scopeOf: string -> Option<string>, refOk: string -> bool)

  /** A message with a scope is a handoff, one without is a general message. */
  datatype Message = Message(
    ns: string, scope: Option<string>, subject: string, subjectKey: string, status: string, content: string,
    author: string, sender: string, idem: Option<string>, expires: Option<Stamp>, created: Stamp,
    claimed: Option<Stamp>, cancelled: Option<Stamp>, superseded: Option<Stamp>)

  type Table = map<Id, Message>

  datatype Request = Request(
    ns: string, author: string, sender: string, subject: string, status: string, result: string,
    next: Option<string>, verification: Option<Verification>, refs: Option<seq<string>>,
    scope: Option<string>, idem: Option<string>, expires: Option<Stamp>)

  const DAY := 86400
  const MESSAGE_MAX_TTL_DAYS := 30
  const MESSAGE_TTL_DAYS := 7
  const COMPLETED_HANDOFF_TTL_DAYS := 3
  const MAX_REFS := 10
  const IDEMPOTENCY_KEY_MAX_CHARS := 128

  // ---- validation -----------------------------------------------------------

  /** Folded, with every whitespace run one space and none at the ends; None when nothing is left. */
  function NormalizeSubject(env: Env, subject: string): Option<string>
  {
    var words := Words(env.nfkc(subject));
    if Blank(subject) || words == [] then None else Some(JoinWith(" ", words))
  }

  function SubjectKey(env: Env, subject: string): Option<string>
  {
    match NormalizeSubject(env, subject) case None => None case Some(s) => Some(env.casefold(s))
  }

  predicate StatusAllowed(handoff: bool, status: string)
  {
    if handoff then status in {"in_progress", "blocked", "completed"} else status == "info"
  }

  /** in_progress and blocked carry a next, completed carries none. */
  predicate NextAllowed(handoff: bool, status: string, next: Option<string>)
  {
    match next
    case None => !(handoff && status in {"in_progress", "blocked"})
    case Some(t) => !Blank(t) && !(handoff && status == "completed")
  }

  predicate VerificationAllowed(v: Option<Verification>)
  {
    v.None? || (!Blank(v.value.command) && !Blank(v.value.result) && v.value.status in VERIFICATION_STATUSES)
  }

  predicate HasSpace(s: string)
  {
    exists c <- s :: IsSpace(c)
  }

  function RefOf(env: Env, u: string): Option<string>
  {
    if Blank(u) || HasSpace(Strip(u)) || !env.refOk(Strip(u)) then None else Some(Strip(u))
  }

  function RefsOf(env: Env, refs: seq<string>): (r: Option<seq<string>>)
    ensures r.Some? ==> forall u <- r.value :: NoLineEnd(u)
  {
    if refs == [] then Some([])
    else
      var first, rest := RefOf(env, refs[0]), RefsOf(env, refs[1..]);
      if first.None? || rest.None? then None
      else
        assert NoLineEnd(first.value) by {
          forall k | 0 <= k < |first.value| ensures !IsLineEnd(first.value[k]) {
            assert first.value[k] in first.value;
          }
        }
        Some([first.value] + rest.value)
  }

  function CheckedRefs(env: Env, refs: Option<seq<string>>): (r: Option<seq<string>>)
    ensures r.Some? ==> forall u <- r.value :: NoLineEnd(u)
  {
    match refs
    case None => Some([])
    case Some(us) => if |us| > MAX_REFS then None else RefsOf(env, us)
  }

  /** The expiry a message gets, or None when the requested one is refused. */
  function ResolveExpires(handoff: bool, status: string, expires: Option<Stamp>, now: Stamp): Option<Option<Stamp>>
  {
    match expires
    case Some(t) => if now < t <= now + MESSAGE_MAX_TTL_DAYS * DAY then Some(Some(t)) else None
    case None =>
      if !handoff then Some(Some(now + MESSAGE_TTL_DAYS * DAY))
      else if status == "completed" then Some(Some(now + COMPLETED_HANDOFF_TTL_DAYS * DAY))
      else Some(None)
  }

  function IdemOf(idem: Option<string>): Option<Option<string>>
  {
    match idem
    case None => Some(None)
    case Some(k) => if Strip(k) == "" || |Strip(k)| > IDEMPOTENCY_KEY_MAX_CHARS then None else Some(Some(Strip(k)))
  }

  /** A request after validation. */
  datatype Draft = Draft(report: Report, scope: Option<string>, subjectKey: string, content: string,
                         expires: Option<Stamp>, idem: Option<string>)

  function ScopeOf(env: Env, q: Request): Option<Option<string>>
  {
    match q.scope
    case None => Some(None)
    case Some(s) => match env.scopeOf(s) case None => None case Some(n) => Some(Some(n))
  }

  function ReportOf(env: Env, q: Request): Option<Report>
  {
    var subject := NormalizeSubject(env, q.subject);
    var refs := CheckedRefs(env, q.refs);
    if Blank(q.result) || subject.None? || refs.None? || !VerificationAllowed(q.verification)
       || !StatusAllowed(q.scope.Some?, q.status) || !NextAllowed(q.scope.Some?, q.status, q.next) then None
    else Some(Report(subject.value, q.status, q.result, q.next, q.verification, refs.value))
  }

  function DraftOf(env: Env, q: Request, now: Stamp): Option<Draft>
  {
    var report := ReportOf(env, q);
    var scope := ScopeOf(env, q);
    var expires := ResolveExpires(q.scope.Some?, q.status, q.expires, now);
    var idem := IdemOf(q.idem);
    if report.None? || scope.None? || expires.None? || idem.None? then None
    else
      var key := SubjectKey(env, report.value.subject);
      var content := Render(report.value);
      if key.None? || content.None? then None
      else Some(Draft(report.value, scope.value, key.value, content.value, expires.value, idem.value))
  }

  // ---- send -----------------------------------------------------------------

  predicate Open(m: Message)
  {
    m.claimed.None? && m.cancelled.None? && m.superseded.None?
  }

  predicate InChain(m: Message, ns: string, scope: Option<string>, key: string)
  {
    m.scope.Some? && m.ns == ns && m.scope == scope && m.subjectKey == key
  }

  predicate SameChain(m: Message, n: Message)
  {
    n.scope.Some? && InChain(m, n.ns, n.scope, n.subjectKey)
  }

  /** `_same_intent`; the status is not compared. */
  predicate SameIntent(m: Message, q: Request, d: Draft)
  {
    && m.ns == q.ns && m.scope == d.scope && m.subjectKey == d.subjectKey
    && m.content == d.content && m.author == q.author
    && (q.expires.Some? ==> m.expires == d.expires)
  }

  function Keyed(rows: Table, sender: string, idem: Option<string>): set<Id>
  {
    set i <- rows.Keys | idem.Some? && rows[i].sender == sender && rows[i].idem == idem
  }

  function NewMessage(q: Request, d: Draft, now: Stamp): Message
  {
    Message(q.ns, d.scope, d.report.subject, d.subjectKey, d.report.status, d.content, q.author, q.sender, d.idem,
            d.expires, now, None, None, None)
  }

  /** Every other open handoff of the chain is superseded. */
  function Superseding(rows: Table, id: Id, now: Stamp): Table
    requires id in rows
  {
    map i | i in rows ::
      if i != id && SameChain(rows[i], rows[id]) && Open(rows[i]) then rows[i].(superseded := Some(now)) else rows[i]
  }

  datatype Outcome = Invalid | UnknownNamespace | Conflict | Replayed(id: Id) | Sent(id: Id)

  /** What a send of a validated draft answers; `id` is the identifier drawn for a new row. */
  ghost function AnswerTo(rows: Table, namespaces: set<string>, q: Request, draft: Option<Draft>, id: Id): Outcome
  {
    match draft
    case None => Invalid
    case Some(d) =>
      var keyed := Keyed(rows, q.sender, d.idem);
      if q.ns !in namespaces then UnknownNamespace
      else if keyed != {} then
        if SameIntent(rows[AnyOf(keyed)], q, d) then Replayed(AnyOf(keyed)) else Conflict
      else Sent(id)
  }

  ghost function Placed(rows: Table, namespaces: set<string>, q: Request, draft: Option<Draft>, id: Id,
                        now: Stamp): Table
  {
    if AnswerTo(rows, namespaces, q, draft, id).Sent? then
      Superseding(rows[id := NewMessage(q, draft.value, now)], id, now)
    else rows
  }

  ghost function Answer(rows: Table, namespaces: set<string>, env: Env, q: Request, id: Id, now: Stamp): Outcome
  {
    AnswerTo(rows, namespaces, q, DraftOf(env, q, now), id)
  }

  ghost function SendTo(rows: Table, namespaces: set<string>, env: Env, q: Request, id: Id, now: Stamp): Table
  {
    Placed(rows, namespaces, q, DraftOf(env, q, now), id, now)
  }

  // ---- claim, cancel, purge -------------------------------------------------

  predicate Unexpired(m: Message, now: Stamp)
  {
    m.expires.None? || m.expires.value > now
  }

  predicate Pending(rows: Table, id: Id, now: Stamp)
  {
    id in rows && Open(rows[id]) && Unexpired(rows[id], now)
  }

  function ClaimIn(rows: Table, id: Id, now: Stamp): Table
  {
    if Pending(rows, id, now) then rows[id := rows[id].(claimed := Some(now))] else rows
  }

  function CancelIn(rows: Table, id: Id, now: Stamp): Table
  {
    if Pending(rows, id, now) then rows[id := rows[id].(cancelled := Some(now))] else rows
  }

  predicate Terminal(m: Message, now: Stamp)
  {
    !Open(m) || !Unexpired(m, now)
  }

  function PurgeIn(rows: Table, now: Stamp): Table
  {
    map i | i in rows && !Terminal(rows[i], now) :: rows[i]
  }

  // ---- the invariant --------------------------------------------------------

  /** A message has entered at most one of the three end states. */
  predicate OneState(m: Message)
  {
    && (m.claimed.Some? ==> m.cancelled.None? && m.superseded.None?)
    && (m.cancelled.Some? ==> m.superseded.None?)
  }

  /** The stored content is the rendering of a report with the stored subject and status. */
  ghost predicate Rendered(m: Message)
  {
    exists r: Report :: Valid(r) && Render(r) == Some(m.content) && r.subject == m.subject && r.status == m.status
  }

  ghost predicate RowsSound(rows: Table)
  {
    forall i <- rows :: OneState(rows[i]) && Rendered(rows[i])
  }

  /** An open handoff is the newest of its chain and the only open one. */
  ghost predicate ChainsSound(rows: Table)
  {
    forall i <- rows, j <- rows :: i != j && SameChain(rows[j], rows[i]) && Open(rows[i]) ==>
      !Open(rows[j]) && rows[j].created < rows[i].created
  }

  ghost predicate KeysUnique(rows: Table)
  {
    forall i <- rows, j <- rows :: i != j && rows[i].idem.Some? && rows[i].sender == rows[j].sender ==>
      rows[i].idem != rows[j].idem
  }

  ghost predicate Inv(rows: Table)
  {
    RowsSound(rows) && ChainsSound(rows) && KeysUnique(rows)
  }

  // ---- validated requests render --------------------------------------------

  predicate SpaceFree(s: string)
  {
    forall k :: 0 <= k < |s| ==> !IsSpace(s[k])
  }

  lemma {:induction false} WordsAreSpaceFree(s: string, word: string)
    requires SpaceFree(word)
    ensures forall i :: 0 <= i < |WordsFrom(s, word)| ==> SpaceFree(WordsFrom(s, word)[i])
    decreases |s|
  {
    if s != [] {
      if IsSpace(s[0]) {
        WordsAreSpaceFree(s[1..], []);
      } else {
        WordsAreSpaceFree(s[1..], word + [s[0]]);
      }
    }
  }

  lemma {:induction false} SpacedIsOneLine(words: seq<string>)
    requires forall i :: 0 <= i < |words| ==> SpaceFree(words[i])
    ensures NoLineEnd(JoinWith(" ", words))
  {
    if |words| > 1 {
      SpacedIsOneLine(words[1..]);
      assert SpaceFree(words[0]);
    } else if |words| == 1 {
      assert SpaceFree(words[0]);
    }
  }

  /** A validated request is a report the printer can take. */
  lemma DraftIsValid(env: Env, q: Request, now: Stamp)
    requires DraftOf(env, q, now).Some?
    ensures var d := DraftOf(env, q, now).value;
      Valid(d.report) && Render(d.report) == Some(d.content) && d.report.status == q.status
  {
    var words := Words(env.nfkc(q.subject));
    WordsAreSpaceFree(env.nfkc(q.subject), []);
    SpacedIsOneLine(words);
  }

  // ---- every step keeps it --------------------------------------------------

  lemma NewIsRendered(env: Env, q: Request, now: Stamp)
    requires DraftOf(env, q, now).Some?
    ensures Rendered(NewMessage(q, DraftOf(env, q, now).value, now))
  {
    DraftIsValid(env, q, now);
  }

  /** The clock read under the chain's lock is later than every stamp the chain holds. */
  ghost predicate AfterChain(rows: Table, m: Message)
  {
    forall i <- rows :: SameChain(rows[i], m) ==> rows[i].created < m.created
  }

  lemma InsertKeepsChains(rows: Table, id: Id, m: Message, now: Stamp)
    requires id !in rows && ChainsSound(rows) && AfterChain(rows, m)
    ensures ChainsSound(Superseding(rows[id := m], id, now))
  {
  }

  lemma InsertKeepsRows(rows: Table, id: Id, m: Message, now: Stamp)
    requires id !in rows && RowsSound(rows) && Open(m) && Rendered(m)
    ensures RowsSound(Superseding(rows[id := m], id, now))
  {
    var mid := rows[id := m];
    var after := Superseding(mid, id, now);
    forall i | i in after ensures OneState(after[i]) && Rendered(after[i]) {
      assert Rendered(mid[i]) && OneState(mid[i]);
      SameRendering(mid[i], after[i]);
    }
  }

  lemma InsertKeepsKeys(rows: Table, id: Id, m: Message, now: Stamp)
    requires id !in rows && KeysUnique(rows) && Keyed(rows, m.sender, m.idem) == {}
    ensures KeysUnique(Superseding(rows[id := m], id, now))
  {
    forall i | i in rows ensures !(rows[i].sender == m.sender && m.idem.Some? && rows[i].idem == m.idem) {
      assert i !in Keyed(rows, m.sender, m.idem);
    }
  }

  lemma SameRendering(m: Message, n: Message)
    requires Rendered(m) && n.content == m.content && n.subject == m.subject && n.status == m.status
    ensures Rendered(n)
  {
    var r: Report :| Valid(r) && Render(r) == Some(m.content) && r.subject == m.subject && r.status == m.status;
    assert Valid(r) && Render(r) == Some(n.content) && r.subject == n.subject && r.status == n.status;
  }

  lemma InsertKeepsInv(rows: Table, id: Id, m: Message, now: Stamp)
    requires Inv(rows) && id !in rows && Open(m) && Rendered(m) && AfterChain(rows, m)
    requires Keyed(rows, m.sender, m.idem) == {}
    ensures Inv(Superseding(rows[id := m], id, now))
  {
    InsertKeepsChains(rows, id, m, now);
    InsertKeepsRows(rows, id, m, now);
    InsertKeepsKeys(rows, id, m, now);
  }

  ghost predicate Insertable(rows: Table, m: Message)
  {
    Rendered(m) && AfterChain(rows, m)
  }

  lemma PlacedKeepsInv(rows: Table, namespaces: set<string>, q: Request, draft: Option<Draft>, id: Id, now: Stamp)
    requires Inv(rows) && id !in rows
    requires draft.Some? ==> Insertable(rows, NewMessage(q, draft.value, now))
    ensures Inv(Placed(rows, namespaces, q, draft, id, now))
  {
    if AnswerTo(rows, namespaces, q, draft, id).Sent? {
      InsertKeepsInv(rows, id, NewMessage(q, draft.value, now), now);
    }
  }

  lemma SendKeepsInv(rows: Table, namespaces: set<string>, env: Env, q: Request, id: Id, now: Stamp)
    requires Inv(rows) && id !in rows
    requires DraftOf(env, q, now).Some? ==> AfterChain(rows, NewMessage(q, DraftOf(env, q, now).value, now))
    ensures Inv(SendTo(rows, namespaces, env, q, id, now))
  {
    if DraftOf(env, q, now).Some? {
      NewIsRendered(env, q, now);
    }
    PlacedKeepsInv(rows, namespaces, q, DraftOf(env, q, now), id, now);
  }

  lemma EndKeepsRows(rows: Table, id: Id, m: Message)
    requires RowsSound(rows) && KeysUnique(rows) && id in rows && OneState(m)
    requires m == rows[id].(claimed := m.claimed, cancelled := m.cancelled)
    ensures RowsSound(rows[id := m]) && KeysUnique(rows[id := m])
  {
    assert Rendered(rows[id]);
    SameRendering(rows[id], m);
  }

  /** Moving one open row to an end state. */
  lemma EndKeepsInv(rows: Table, id: Id, m: Message)
    requires Inv(rows) && id in rows && Open(rows[id]) && !Open(m) && OneState(m)
    requires m == rows[id].(claimed := m.claimed, cancelled := m.cancelled)
    ensures Inv(rows[id := m])
  {
    EndKeepsRows(rows, id, m);
  }

  lemma PurgeKeepsInv(rows: Table, now: Stamp)
    requires Inv(rows)
    ensures Inv(PurgeIn(rows, now))
  {
  }

  // ---- runs -----------------------------------------------------------------

  datatype Event =
    | Sends(q: Request, id: Id, now: Stamp)
    | Claims(id: Id, now: Stamp)
    | Cancels(id: Id, now: Stamp)
    | Purges(now: Stamp)

  ghost function Next(rows: Table, namespaces: set<string>, env: Env, e: Event): Table
  {
    match e
    case Sends(q, id, now) => SendTo(rows, namespaces, env, q, id, now)
    case Claims(id, now) => ClaimIn(rows, id, now)
    case Cancels(id, now) => CancelIn(rows, id, now)
    case Purges(now) => PurgeIn(rows, now)
  }

  /** Every identifier drawn so far; a purge does not release them. */
  datatype Moment = Moment(rows: Table, issued: set<Id>)

  ghost predicate Ready(m: Moment, env: Env, e: Event)
  {
    e.Sends? ==>
      && e.id !in m.issued
      && (DraftOf(env, e.q, e.now).Some? ==> AfterChain(m.rows, NewMessage(e.q, DraftOf(env, e.q, e.now).value, e.now)))
  }

  ghost function After(m: Moment, namespaces: set<string>, env: Env, e: Event): Moment
  {
    Moment(Next(m.rows, namespaces, env, e), m.issued + if e.Sends? then {e.id} else {})
  }

  ghost predicate Run(namespaces: set<string>, env: Env, ms: seq<Moment>, es: seq<Event>)
  {
    && |ms| == |es| + 1
    && forall k {:trigger es[k]} :: 0 <= k < |es| ==>
         Ready(ms[k], env, es[k]) && ms[k + 1] == After(ms[k], namespaces, env, es[k])
  }

  ghost predicate Good(m: Moment)
  {
    Inv(m.rows) && m.rows.Keys <= m.issued
  }

  lemma StepIsGood(m: Moment, namespaces: set<string>, env: Env, e: Event)
    requires Good(m) && Ready(m, env, e)
    ensures Good(After(m, namespaces, env, e))
  {
    match e
    case Sends(q, id, now) => SendKeepsInv(m.rows, namespaces, env, q, id, now);
    case Claims(id, now) =>
      if Pending(m.rows, id, now) {
        EndKeepsInv(m.rows, id, m.rows[id].(claimed := Some(now)));
      }
    case Cancels(id, now) =>
      if Pending(m.rows, id, now) {
        EndKeepsInv(m.rows, id, m.rows[id].(cancelled := Some(now)));
      }
    case Purges(now) => PurgeKeepsInv(m.rows, now);
  }

  /**
   Over every run: each message is in at most one end state, each chain has at most one open
   handoff and it is the chain's newest, and a sender's idempotency key names one row.
   */
  lemma {:induction false} EveryRunIsGood(namespaces: set<string>, env: Env, ms: seq<Moment>, es: seq<Event>, k: nat)
    requires Run(namespaces, env, ms, es) && Good(ms[0]) && k <= |es|
    ensures Good(ms[k])
  {
    if k > 0 {
      EveryRunIsGood(namespaces, env, ms, es, k - 1);
      StepIsGood(ms[k - 1], namespaces, env, es[k - 1]);
    }
  }

  /** An end state, once entered, is never left: the row stays as it is until it is purged, for good. */
  lemma {:induction false} EndsAreFinal(namespaces: set<string>, env: Env, ms: seq<Moment>, es: seq<Event>,
                                        j: nat, k: nat, id: Id)
    requires Run(namespaces, env, ms, es) && Good(ms[0]) && j <= k <= |es|
    requires id in ms[j].issued && (id in ms[j].rows ==> !Open(ms[j].rows[id]))
    ensures id in ms[k].issued
    ensures id in ms[k].rows ==> id in ms[j].rows && ms[k].rows[id] == ms[j].rows[id]
  {
    if j < k {
      EndsAreFinal(namespaces, env, ms, es, j, k - 1, id);
      assert ms[k] == After(ms[k - 1], namespaces, env, es[k - 1]);
      EndedStays(ms[k - 1], namespaces, env, es[k - 1], id);
    }
  }

  lemma EndedStays(m: Moment, namespaces: set<string>, env: Env, e: Event, id: Id)
    requires Ready(m, env, e) && id in m.issued && (id in m.rows ==> !Open(m.rows[id]))
    ensures var after := After(m, namespaces, env, e);
      id in after.issued && (id in after.rows ==> id in m.rows && after.rows[id] == m.rows[id])
  {
  }

  /** In any run, at most one claim of a message succeeds. */
  lemma OneClaimSucceeds(namespaces: set<string>, env: Env, ms: seq<Moment>, es: seq<Event>, j: nat, k: nat, id: Id)
    requires Run(namespaces, env, ms, es) && Good(ms[0]) && j < k < |es|
    requires es[j].Claims? && es[j].id == id && Pending(ms[j].rows, id, es[j].now)
    requires es[k].Claims? && es[k].id == id
    ensures !Pending(ms[k].rows, id, es[k].now)
  {
    ClaimEndsAt(namespaces, env, ms, es, j);
    EndsAreFinal(namespaces, env, ms, es, j + 1, k, id);
  }

  lemma ClaimEndsAt(namespaces: set<string>, env: Env, ms: seq<Moment>, es: seq<Event>, j: nat)
    requires Run(namespaces, env, ms, es) && Good(ms[0]) && j < |es|
    requires es[j].Claims? && Pending(ms[j].rows, es[j].id, es[j].now)
    ensures es[j].id in ms[j + 1].issued && es[j].id in ms[j + 1].rows && !Open(ms[j + 1].rows[es[j].id])
  {
    EveryRunIsGood(namespaces, env, ms, es, j);
    assert ms[j + 1] == After(ms[j], namespaces, env, es[j]);
  }

  /** A superseded handoff is never pending again. */
  lemma OlderSnapshotStaysDown(namespaces: set<string>, env: Env, ms: seq<Moment>, es: seq<Event>,
                               j: nat, k: nat, earlier: Id, later: Id)
    requires Run(namespaces, env, ms, es) && Good(ms[0]) && j <= k <= |es|
    requires earlier in ms[j].rows && later in ms[j].rows && earlier != later
    requires SameChain(ms[j].rows[earlier], ms[j].rows[later])
    requires ms[j].rows[earlier].created <= ms[j].rows[later].created
    ensures forall now: Stamp :: !Pending(ms[k].rows, earlier, now)
  {
    EveryRunIsGood(namespaces, env, ms, es, j);
    assert SameChain(ms[j].rows[later], ms[j].rows[earlier]);
    EndsAreFinal(namespaces, env, ms, es, j, k, earlier);
  }

  // ---- replays --------------------------------------------------------------

  /**
   A replay answers with a row that says what the request says, status included, although only the
   content is compared.
   */
  lemma ReplaySaysTheSame(rows: Table, namespaces: set<string>, env: Env, q: Request, id: Id, now: Stamp)
    requires Inv(rows) && Answer(rows, namespaces, env, q, id, now).Replayed?
    ensures var m := rows[Answer(rows, namespaces, env, q, id, now).id];
      var d := DraftOf(env, q, now).value;
      && m.status == q.status && m.subject == d.report.subject && m.subjectKey == d.subjectKey
      && m.ns == q.ns && m.scope == d.scope && m.author == q.author && m.sender == q.sender && m.idem == d.idem
  {
    var m := rows[Answer(rows, namespaces, env, q, id, now).id];
    assert Rendered(m);
    var r: Report :| Valid(r) && Render(r) == Some(m.content) && r.subject == m.subject && r.status == m.status;
    DraftIsValid(env, q, now);
    SameContentSaysTheSame(r, DraftOf(env, q, now).value.report);
  }

  lemma DraftIgnoresClock(env: Env, q: Request, now: Stamp, later: Stamp)
    requires DraftOf(env, q, now).Some? && ResolveExpires(q.scope.Some?, q.status, q.expires, later).Some?
    ensures DraftOf(env, q, later).Some?
    ensures var d, e := DraftOf(env, q, now).value, DraftOf(env, q, later).value;
      e == d.(expires := e.expires) && (q.expires.Some? ==> e == d)
  {
  }

  /** One row's identity fields never change while it is stored. */
  predicate SameFields(m: Message, n: Message)
  {
    n == m.(claimed := n.claimed, cancelled := n.cancelled, superseded := n.superseded)
  }

  lemma StillThere(namespaces: set<string>, env: Env, ms: seq<Moment>, es: seq<Event>, j: nat, k: nat, id: Id)
    requires Run(namespaces, env, ms, es) && Good(ms[0]) && j <= k < |es|
    requires id in ms[j].rows && id in ms[k + 1].rows
    ensures id in ms[k].rows
  {
    EveryRunIsGood(namespaces, env, ms, es, j);
    if id !in ms[k].rows {
      GoneStays(namespaces, env, ms, es, j, k, id);
    }
  }

  lemma {:induction false} FieldsStay(namespaces: set<string>, env: Env, ms: seq<Moment>, es: seq<Event>,
                                      j: nat, k: nat, id: Id)
    requires Run(namespaces, env, ms, es) && Good(ms[0]) && j <= k <= |es|
    requires id in ms[j].rows && id in ms[k].rows
    ensures SameFields(ms[j].rows[id], ms[k].rows[id])
  {
    if j < k {
      StillThere(namespaces, env, ms, es, j, k - 1, id);
      FieldsStay(namespaces, env, ms, es, j, k - 1, id);
      StepOfRun(namespaces, env, ms, es, k - 1, id);
    }
  }

  lemma StepOfRun(namespaces: set<string>, env: Env, ms: seq<Moment>, es: seq<Event>, k: nat, id: Id)
    requires Run(namespaces, env, ms, es) && Good(ms[0]) && k < |es| && id in ms[k].rows && id in ms[k + 1].rows
    ensures SameFields(ms[k].rows[id], ms[k + 1].rows[id])
  {
    EveryRunIsGood(namespaces, env, ms, es, k);
    assert ms[k + 1] == After(ms[k], namespaces, env, es[k]);
    StepKeepsFields(ms[k], namespaces, env, es[k], id);
  }

  lemma StepKeepsFields(m: Moment, namespaces: set<string>, env: Env, e: Event, id: Id)
    requires Good(m) && Ready(m, env, e) && id in m.rows && id in After(m, namespaces, env, e).rows
    ensures SameFields(m.rows[id], After(m, namespaces, env, e).rows[id])
  {
    match e
    case Sends(q, added, now) => SendKeepsFields(m.rows, namespaces, q, DraftOf(env, q, now), added, now, id);
    case _ =>
  }

  lemma SendKeepsFields(rows: Table, namespaces: set<string>, q: Request, draft: Option<Draft>, added: Id,
                        now: Stamp, id: Id)
    requires id in rows && added !in rows
    ensures id in Placed(rows, namespaces, q, draft, added, now)
    ensures SameFields(rows[id], Placed(rows, namespaces, q, draft, added, now)[id])
  {
  }

  lemma {:induction false} GoneStays(namespaces: set<string>, env: Env, ms: seq<Moment>, es: seq<Event>,
                                     j: nat, k: nat, id: Id)
    requires Run(namespaces, env, ms, es) && j <= k < |es| && id in ms[j].issued && id !in ms[k].rows
    ensures id !in ms[k + 1].rows
  {
    IssuedGrows(namespaces, env, ms, es, j, k, id);
    assert ms[k + 1] == After(ms[k], namespaces, env, es[k]);
  }

  lemma {:induction false} IssuedGrows(namespaces: set<string>, env: Env, ms: seq<Moment>, es: seq<Event>,
                                       j: nat, k: nat, id: Id)
    requires Run(namespaces, env, ms, es) && j <= k <= |es| && id in ms[j].issued
    ensures id in ms[k].issued
  {
    if j < k {
      IssuedGrows(namespaces, env, ms, es, j, k - 1, id);
      assert ms[k] == After(ms[k - 1], namespaces, env, es[k - 1]);
    }
  }

  /**
   Sending again is a replay for as long as the row is stored, whatever happened in between: the
   stored row is returned and nothing changes.
   */
  lemma ResendIsReplay(namespaces: set<string>, env: Env, ms: seq<Moment>, es: seq<Event>, k: nat, id: Id, now: Stamp)
    requires Run(namespaces, env, ms, es) && Good(ms[0]) && 0 < k <= |es|
    requires es[0].Sends? && Answer(ms[0].rows, namespaces, env, es[0].q, es[0].id, es[0].now).Sent?
    requires es[0].q.idem.Some? && es[0].id in ms[k].rows
    requires ResolveExpires(es[0].q.scope.Some?, es[0].q.status, es[0].q.expires, now).Some?
    ensures Answer(ms[k].rows, namespaces, env, es[0].q, id, now) == Replayed(es[0].id)
    ensures SendTo(ms[k].rows, namespaces, env, es[0].q, id, now) == ms[k].rows
  {
    var q, first := es[0].q, es[0].id;
    assert ms[1] == After(ms[0], namespaces, env, es[0]);
    FieldsStay(namespaces, env, ms, es, 1, k, first);
    EveryRunIsGood(namespaces, env, ms, es, k);
    DraftIgnoresClock(env, q, es[0].now, now);
    var d := DraftOf(env, q, now).value;
    SentRow(ms[0], namespaces, env, q, first, es[0].now);
    ReplayIf(ms[k].rows, namespaces, q, d, first, id, now);
  }

  lemma SentRow(m: Moment, namespaces: set<string>, env: Env, q: Request, id: Id, now: Stamp)
    requires Answer(m.rows, namespaces, env, q, id, now).Sent?
    ensures var rows := SendTo(m.rows, namespaces, env, q, id, now);
      && q.ns in namespaces && DraftOf(env, q, now).Some?
      && id in rows && rows[id] == NewMessage(q, DraftOf(env, q, now).value, now)
  {
  }

  lemma ReplayIf(rows: Table, namespaces: set<string>, q: Request, d: Draft, first: Id, id: Id, now: Stamp)
    requires KeysUnique(rows) && first in rows && q.ns in namespaces && d.idem.Some?
    requires rows[first].sender == q.sender && rows[first].idem == d.idem && SameIntent(rows[first], q, d)
    ensures AnswerTo(rows, namespaces, q, Some(d), id) == Replayed(first)
    ensures Placed(rows, namespaces, q, Some(d), id, now) == rows
  {
    OnlyOneKeyed(rows, first);
  }

  lemma OnlyOneKeyed(rows: Table, id: Id)
    requires KeysUnique(rows) && id in rows && rows[id].idem.Some?
    ensures Keyed(rows, rows[id].sender, rows[id].idem) == {id}
  {
  }

  // ---- the table ------------------------------------------------------------

  datatype Refusal = NotFound | NotPending

  class Lane {
    var rows: Table
    var namespaces: set<string>

    ghost predicate Stored()
      reads this
    {
      Inv(rows)
    }

    constructor (registered: set<string>)
      ensures Stored() && rows == map[] && namespaces == registered
    {
      rows := map[];
      namespaces := registered;
    }

    /** `send_message`: a new row, or the stored one of an equal earlier request. */
    method Send(env: Env, q: Request, id: Id, now: Stamp) returns (r: Outcome)
      requires Stored() && id !in rows
      requires DraftOf(env, q, now).Some? ==> AfterChain(rows, NewMessage(q, DraftOf(env, q, now).value, now))
      modifies this`rows
      ensures Stored()
      ensures r == Answer(old(rows), namespaces, env, q, id, now)
      ensures rows == SendTo(old(rows), namespaces, env, q, id, now)
    {
      SendKeepsInv(rows, namespaces, env, q, id, now);
      r := Place(q, DraftOf(env, q, now), id, now);
    }

    /** The transaction of a send, on a validated draft. */
    method Place(q: Request, draft: Option<Draft>, id: Id, now: Stamp) returns (r: Outcome)
      requires KeysUnique(rows) && id !in rows
      modifies this`rows
      ensures r == AnswerTo(old(rows), namespaces, q, draft, id)
      ensures rows == Placed(old(rows), namespaces, q, draft, id, now)
    {
      if draft.None? {
        return Invalid;
      }
      var d := draft.value;
      if q.ns !in namespaces {
        return UnknownNamespace;
      }
      var keyed := Keyed(rows, q.sender, d.idem);
      if keyed != {} {
        var i :| i in keyed;
        return if SameIntent(rows[i], q, d) then Replayed(i) else Conflict;
      }
      rows := rows[id := NewMessage(q, d, now)];
      if d.scope.Some? {
        rows := Superseding(rows, id, now);
      } else {
        assert Superseding(rows, id, now) == rows;
      }
      return Sent(id);
    }

    /** `claim_message`: one conditional update decides. */
    method Claim(id: Id, now: Stamp) returns (r: Option<Refusal>)
      requires Stored()
      modifies this`rows
      ensures Stored()
      ensures rows == ClaimIn(old(rows), id, now)
      ensures r.None? <==> Pending(old(rows), id, now)
      ensures r == Some(NotFound) <==> id !in old(rows)
    {
      if id in rows && Open(rows[id]) && Unexpired(rows[id], now) {
        EndKeepsInv(rows, id, rows[id].(claimed := Some(now)));
        rows := rows[id := rows[id].(claimed := Some(now))];
        return None;
      }
      return if id in rows then Some(NotPending) else Some(NotFound);
    }

    /** `cancel_message`. */
    method Cancel(id: Id, now: Stamp) returns (r: Option<Refusal>)
      requires Stored()
      modifies this`rows
      ensures Stored()
      ensures rows == CancelIn(old(rows), id, now)
      ensures r.None? <==> Pending(old(rows), id, now)
      ensures r == Some(NotFound) <==> id !in old(rows)
    {
      if id in rows && Open(rows[id]) && Unexpired(rows[id], now) {
        EndKeepsInv(rows, id, rows[id].(cancelled := Some(now)));
        rows := rows[id := rows[id].(cancelled := Some(now))];
        return None;
      }
      return if id in rows then Some(NotPending) else Some(NotFound);
    }

    /** `delete_terminal_messages`: the rows still to be read stay, and only they. */
    method DeleteTerminal(now: Stamp) returns (n: nat)
      requires Stored()
      modifies this`rows
      ensures Stored()
      ensures rows == PurgeIn(old(rows), now)
      ensures n == |set i <- old(rows).Keys | Terminal(old(rows)[i], now)|
    {
      n := |set i <- rows.Keys | Terminal(rows[i], now)|;
      rows := PurgeIn(rows, now);
    }
  }
}
