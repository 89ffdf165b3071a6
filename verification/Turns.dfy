/** The verbatim turn lane: numbering turns, replaying appends, and reading a session in pages. */
module Turns {
  import opened Basics
  import opened Order

  datatype Turn = Turn(
    ns: string, origin: string, session: string, role: string, content: string,
    reasoning: Option<string>, repo: Option<string>, seqNo: nat)

  /** What a client sends; `id` is its own. */
  datatype Request = Request(
    id: string, ns: string, origin: string, session: string, role: string, content: string,
    reasoning: Option<string>, repo: Option<string>)

  type Table = map<string, Turn>

  datatype Refusal = Credential | Conflict | OtherNamespace(owner: string) | UnknownNamespace

  datatype Outcome = Stored(seqNo: nat) | Replayed(seqNo: nat) | Refused(why: Refusal)

  const MAX_RESPONSE_CHARS := 40_000

  predicate InSession(t: Turn, origin: string, session: string)
  {
    t.origin == origin && t.session == session
  }

  function Members(T: Table, origin: string, session: string): set<string>
  {
    set i <- T.Keys | InSession(T[i], origin, session)
  }

  function Seqs(T: Table, origin: string, session: string): set<nat>
  {
    set i <- Members(T, origin, session) :: T[i].seqNo
  }

  // ---- append ---------------------------------------------------------------

  /** The next sequence number: one more than the largest, from one. */
  function NextSeq(T: Table, origin: string, session: string): nat
  {
    var s := Seqs(T, origin, session);
    if s == {} then 1 else Greatest(s) + 1
  }

  function TurnOf(q: Request, n: nat): Turn
  {
    Turn(q.ns, q.origin, q.session, q.role, q.content, q.reasoning, q.repo, n)
  }

  predicate HasCredential(secret: string -> bool, q: Request)
  {
    secret(q.content) || (q.reasoning.Some? && q.reasoning.value != "" && secret(q.reasoning.value))
  }

  /** What an append answers. */
  ghost function Answer(T: Table, namespaces: set<string>, secret: string -> bool, q: Request): Outcome
  {
    var mine := Members(T, q.origin, q.session);
    if HasCredential(secret, q) then Refused(Credential)
    else if q.id in T then
      if T[q.id] == TurnOf(q, T[q.id].seqNo) then Replayed(T[q.id].seqNo) else Refused(Conflict)
    else if exists i <- mine :: T[i].ns != q.ns then Refused(OtherNamespace(T[AnyOf(mine)].ns))
    else if q.ns !in namespaces then Refused(UnknownNamespace)
    else Stored(NextSeq(T, q.origin, q.session))
  }

  ghost function AppendTo(T: Table, namespaces: set<string>, secret: string -> bool, q: Request): Table
  {
    match Answer(T, namespaces, secret, q)
    case Stored(n) => T[q.id := TurnOf(q, n)]
    case _ => T
  }

  function Drop(T: Table, origin: string, session: string): Table
  {
    map i | i in T && !InSession(T[i], origin, session) :: T[i]
  }

  /** The session's numbers are exactly 1 to n, each once, all in one namespace. */
  ghost predicate NumberedTo(T: Table, origin: string, session: string, n: nat)
  {
    var mine := Members(T, origin, session);
    && |mine| == n
    && (forall i <- mine :: 1 <= T[i].seqNo <= n)
    && (forall i <- mine, j <- mine :: i != j ==> T[i].seqNo != T[j].seqNo)
    && (forall k :: 1 <= k <= n ==> k in Seqs(T, origin, session))
    && (forall i <- mine, j <- mine :: T[i].ns == T[j].ns)
  }

  ghost predicate Numbered(T: Table)
  {
    forall origin: string, session: string ::
      NumberedTo(T, origin, session, |Members(T, origin, session)|)
  }

  lemma NextIsCount(T: Table, origin: string, session: string)
    requires Numbered(T)
    ensures NextSeq(T, origin, session) == |Members(T, origin, session)| + 1
  {
    var n := |Members(T, origin, session)|;
    assert NumberedTo(T, origin, session, n);
    if n > 0 {
      assert n in Seqs(T, origin, session);
    }
  }

  lemma StoredMembers(T: Table, q: Request, n: nat, origin: string, session: string)
    requires q.id !in T
    ensures Members(T[q.id := TurnOf(q, n)], origin, session)
            == Members(T, origin, session) + (if InSession(TurnOf(q, n), origin, session) then {q.id} else {})
  {
  }

  lemma OtherSession(T: Table, after: Table, origin: string, session: string)
    requires Numbered(T) && Members(after, origin, session) == Members(T, origin, session)
    requires forall i <- Members(T, origin, session) :: after[i] == T[i]
    ensures NumberedTo(after, origin, session, |Members(after, origin, session)|)
  {
    assert NumberedTo(T, origin, session, |Members(T, origin, session)|);
    assert Seqs(after, origin, session) == Seqs(T, origin, session);
  }

  lemma StoredSeqs(T: Table, q: Request, n: nat, k: nat)
    requires q.id !in T && (k == n || k in Seqs(T, q.origin, q.session))
    ensures k in Seqs(T[q.id := TurnOf(q, n)], q.origin, q.session)
  {
    var after := T[q.id := TurnOf(q, n)];
    if k == n {
      assert q.id in Members(after, q.origin, q.session) && after[q.id].seqNo == k;
    } else {
      var i :| i in Members(T, q.origin, q.session) && T[i].seqNo == k;
      assert i in Members(after, q.origin, q.session) && after[i].seqNo == k;
    }
  }

  lemma StoredDistinct(T: Table, q: Request, n: nat)
    requires n > 0 && NumberedTo(T, q.origin, q.session, n - 1) && q.id !in T
    requires forall i <- Members(T, q.origin, q.session) :: T[i].ns == q.ns
    ensures var after := T[q.id := TurnOf(q, n)];
      var mine := Members(after, q.origin, q.session);
      && |mine| == n
      && (forall i <- mine :: 1 <= after[i].seqNo <= n && after[i].ns == q.ns)
      && (forall i <- mine, j <- mine :: i != j ==> after[i].seqNo != after[j].seqNo)
  {
    StoredMembers(T, q, n, q.origin, q.session);
  }

  lemma OwnSession(T: Table, q: Request, n: nat)
    requires n > 0 && NumberedTo(T, q.origin, q.session, n - 1) && q.id !in T
    requires forall i <- Members(T, q.origin, q.session) :: T[i].ns == q.ns
    ensures NumberedTo(T[q.id := TurnOf(q, n)], q.origin, q.session, n)
  {
    StoredDistinct(T, q, n);
    var seqs := Seqs(T[q.id := TurnOf(q, n)], q.origin, q.session);
    forall k | 1 <= k <= n ensures k in seqs {
      StoredSeqs(T, q, n, k);
    }
  }

  lemma StoredKeepsNumbering(T: Table, q: Request, n: nat)
    requires Numbered(T) && q.id !in T && n == |Members(T, q.origin, q.session)| + 1
    requires forall i <- Members(T, q.origin, q.session) :: T[i].ns == q.ns
    ensures Numbered(T[q.id := TurnOf(q, n)])
  {
    var after := T[q.id := TurnOf(q, n)];
    forall origin: string, session: string
      ensures NumberedTo(after, origin, session, |Members(after, origin, session)|)
    {
      if origin == q.origin && session == q.session {
        assert NumberedTo(T, q.origin, q.session, |Members(T, q.origin, q.session)|);
        OwnSession(T, q, n);
      } else {
        OtherSession(T, after, origin, session);
      }
    }
  }

  /** Every append keeps every session numbered 1 to n in one namespace, and gives the next number. */
  lemma AppendKeepsNumbering(T: Table, namespaces: set<string>, secret: string -> bool, q: Request)
    requires Numbered(T)
    ensures Numbered(AppendTo(T, namespaces, secret, q))
    ensures var r := Answer(T, namespaces, secret, q);
      r.Stored? ==> r.seqNo == |Members(T, q.origin, q.session)| + 1
  {
    var r := Answer(T, namespaces, secret, q);
    if r.Stored? {
      NextIsCount(T, q.origin, q.session);
      StoredKeepsNumbering(T, q, r.seqNo);
    }
  }

  lemma DropKeepsNumbering(T: Table, origin: string, session: string)
    requires Numbered(T)
    ensures Numbered(Drop(T, origin, session))
  {
    var after := Drop(T, origin, session);
    forall o: string, s: string ensures NumberedTo(after, o, s, |Members(after, o, s)|) {
      if o == origin && s == session {
        assert Members(after, o, s) == {};
      } else {
        assert Members(after, o, s) == Members(T, o, s);
        OtherSession(T, after, o, s);
      }
    }
  }

  // ---- runs -----------------------------------------------------------------

  datatype Event = Append(q: Request) | Delete(origin: string, session: string)

  ghost function Next(T: Table, namespaces: set<string>, secret: string -> bool, e: Event): Table
  {
    match e
    case Append(q) => AppendTo(T, namespaces, secret, q)
    case Delete(origin, session) => Drop(T, origin, session)
  }

  ghost function After(T: Table, namespaces: set<string>, secret: string -> bool, es: seq<Event>): Table
    decreases |es|
  {
    if es == [] then T else After(Next(T, namespaces, secret, es[0]), namespaces, secret, es[1..])
  }

  lemma {:induction false} EveryRunIsNumbered(namespaces: set<string>, secret: string -> bool, T: Table, es: seq<Event>)
    requires Numbered(T)
    ensures Numbered(After(T, namespaces, secret, es))
    decreases |es|
  {
    if es != [] {
      match es[0] {
        case Append(q) => AppendKeepsNumbering(T, namespaces, secret, q);
        case Delete(origin, session) => DropKeepsNumbering(T, origin, session);
      }
      EveryRunIsNumbered(namespaces, secret, Next(T, namespaces, secret, es[0]), es[1..]);
    }
  }

  lemma {:induction false} RowsStay(namespaces: set<string>, secret: string -> bool, T: Table, es: seq<Event>,
                                    i: string)
    requires i in T
    requires forall e <- es :: !(e.Delete? && InSession(T[i], e.origin, e.session))
    ensures i in After(T, namespaces, secret, es) && After(T, namespaces, secret, es)[i] == T[i]
    decreases |es|
  {
    if es != [] {
      assert es[0] in es;
      RowsStay(namespaces, secret, Next(T, namespaces, secret, es[0]), es[1..], i);
    }
  }

  /**
   A replay changes nothing, however late: as long as its session was not deleted, sending a stored
   turn again answers with the number it got and leaves the table as it is.
   */
  lemma ReplayChangesNothing(T: Table, namespaces: set<string>, secret: string -> bool, q: Request, es: seq<Event>)
    requires Answer(T, namespaces, secret, q).Stored?
    requires forall e <- es :: !(e.Delete? && e.origin == q.origin && e.session == q.session)
    ensures var later := After(AppendTo(T, namespaces, secret, q), namespaces, secret, es);
      && Answer(later, namespaces, secret, q) == Replayed(Answer(T, namespaces, secret, q).seqNo)
      && AppendTo(later, namespaces, secret, q) == later
  {
    RowsStay(namespaces, secret, AppendTo(T, namespaces, secret, q), es, q.id);
  }

  // ---- reading in pages -----------------------------------------------------

  predicate Earlier(t: Turn, u: Turn)
  {
    t.seqNo < u.seqNo
  }

  /** With a query, a turn is shown when it or a neighbour matches. */
  datatype View = View(origin: string, session: string, query: Option<string -> bool>)

  predicate Shown(T: Table, v: View, t: Turn)
  {
    v.query.None?
    || exists i <- Members(T, v.origin, v.session) ::
         t.seqNo - 1 <= T[i].seqNo <= t.seqNo + 1 && v.query.value(T[i].content)
  }

  function ShownFrom(T: Table, v: View, offset: nat): set<Turn>
  {
    set i <- Members(T, v.origin, v.session) | T[i].seqNo >= offset && Shown(T, v, T[i]) :: T[i]
  }

  lemma TurnsOrdered(T: Table, v: View, offset: nat)
    requires Numbered(T)
    ensures TotalOn(Earlier, ShownFrom(T, v, offset))
  {
  }

  /** The whole reading from an offset, in order. */
  ghost function Reading(T: Table, v: View, offset: nat): seq<Turn>
    requires Numbered(T)
  {
    TurnsOrdered(T, v, offset);
    Sorted(Earlier, ShownFrom(T, v, offset))
  }

  function Chars(t: Turn): nat
  {
    |t.content| + match t.reasoning case None => 0 case Some(r) => |r|
  }

  function CharsOf(s: seq<Turn>): nat
  {
    if s == [] then 0 else CharsOf(s[..|s| - 1]) + Chars(s[|s| - 1])
  }

  function Take(s: seq<Turn>, n: nat): seq<Turn>
  {
    if n <= |s| then s[..n] else s
  }

  /** n rows are kept: at least one, at most `limit`, and another only while the characters fit. */
  ghost predicate IsCut(rows: seq<Turn>, limit: nat, n: nat)
  {
    && n <= |rows| && n <= limit
    && (rows != [] && limit > 0 ==> n >= 1)
    && (n >= 2 ==> CharsOf(rows[..n]) <= MAX_RESPONSE_CHARS)
    && (n < |rows| && n < limit ==> CharsOf(rows[..n + 1]) > MAX_RESPONSE_CHARS)
  }

  lemma {:induction false} CharsGrow(rows: seq<Turn>, n: nat, m: nat)
    requires n <= m <= |rows|
    ensures CharsOf(rows[..n]) <= CharsOf(rows[..m])
  {
    if n < m {
      CharsGrow(rows, n, m - 1);
      assert rows[..m][..m - 1] == rows[..m - 1];
    }
  }

  /** There is only one cut. */
  lemma CutIsUnique(rows: seq<Turn>, limit: nat, n: nat, m: nat)
    requires IsCut(rows, limit, n) && IsCut(rows, limit, m)
    ensures n == m
  {
    CharsGrow(rows, 0, 0);
    if n < m {
      CharsGrow(rows, n + 1, m);
    } else if m < n {
      CharsGrow(rows, m + 1, n);
    }
  }

  /** `_cut`: the rows within the caps, and the number of the first row left out. */
  method Cut(rows: seq<Turn>, limit: nat) returns (kept: seq<Turn>, next: Option<nat>)
    ensures kept <= rows && IsCut(rows, limit, |kept|)
    ensures next == if |kept| < |rows| then Some(rows[|kept|].seqNo) else None
  {
    kept := [];
    var total := 0;
    var window := Take(rows, limit);
    var i := 0;
    while i < |window|
      invariant 0 <= i <= |window| && kept == rows[..i]
      invariant total == CharsOf(rows[..i])
      invariant i >= 2 ==> total <= MAX_RESPONSE_CHARS
    {
      var size := Chars(window[i]);
      assert rows[..i + 1][..i] == rows[..i];
      if kept != [] && total + size > MAX_RESPONSE_CHARS {
        break;
      }
      kept := kept + [window[i]];
      total := total + size;
      i := i + 1;
    }
    next := if |kept| < |rows| then Some(rows[|kept|].seqNo) else None;
  }

  lemma {:induction false} CutExists(rows: seq<Turn>, limit: nat, k: nat) returns (n: nat)
    requires k <= |rows| && k <= limit
    requires k >= 2 ==> CharsOf(rows[..k]) <= MAX_RESPONSE_CHARS
    ensures IsCut(rows, limit, n)
    decreases limit - k
  {
    if k < |rows| && k < limit && (k == 0 || CharsOf(rows[..k + 1]) <= MAX_RESPONSE_CHARS) {
      n := CutExists(rows, limit, k + 1);
    } else {
      n := k;
    }
  }

  ghost function CutAt(rows: seq<Turn>, limit: nat): (n: nat)
    ensures IsCut(rows, limit, n)
  {
    assert exists n :: IsCut(rows, limit, n) by {
      var n := CutExists(rows, limit, 0);
    }
    var n :| IsCut(rows, limit, n);
    n
  }

  datatype Page = Page(turns: seq<Turn>, next: Option<nat>)

  /** With a query every turn of a page says whether it matches itself or stands beside a match. */
  datatype ReadOutcome = NotFound | Found(ns: string, page: Page, matches: Option<seq<bool>>)

  function MatchesOf(v: View, turns: seq<Turn>): Option<seq<bool>>
  {
    match v.query
    case None => None
    case Some(q) => Some(seq(|turns|, k requires 0 <= k < |turns| => q(turns[k].content)))
  }

  predicate InScope(scope: Option<set<string>>, ns: string)
  {
    scope.None? || ns in scope.value
  }

  /** Some turn of the session is in a namespace the key may read. */
  predicate ReadableBy(T: Table, v: View, scope: Option<set<string>>)
  {
    exists i <- Members(T, v.origin, v.session) :: InScope(scope, T[i].ns)
  }

  /** One page: the query reads one row more than `limit`, and the cut decides. */
  ghost function PageOf(T: Table, v: View, offset: nat, limit: nat): Page
    requires Numbered(T)
  {
    var rows := Take(Reading(T, v, offset), limit + 1);
    var n := CutAt(rows, limit);
    Page(rows[..n], if n < |rows| then Some(rows[n].seqNo) else None)
  }

  /** What is left after k rows is the reading from the next row's number. */
  lemma ReadingFrom(T: Table, v: View, offset: nat, k: nat)
    requires Numbered(T) && k < |Reading(T, v, offset)|
    ensures Reading(T, v, Reading(T, v, offset)[k].seqNo) == Reading(T, v, offset)[k..]
  {
    var all := Reading(T, v, offset);
    var from := all[k].seqNo;
    assert all[k] in all;
    forall t ensures t in all[k..] <==> t in ShownFrom(T, v, from) {
      assert t in all <==> t in ShownFrom(T, v, offset);
    }
    SortedIs(Earlier, ShownFrom(T, v, from), all[k..]);
  }

  lemma PageMoves(T: Table, v: View, offset: nat, limit: nat)
    requires Numbered(T) && limit >= 1
    ensures var p, all := PageOf(T, v, offset, limit), Reading(T, v, offset);
      && |p.turns| <= |all| && p.turns == all[..|p.turns|]
      && (p.next.None? ==> |p.turns| == |all|)
      && (p.next.Some? ==> |p.turns| >= 1 && Reading(T, v, p.next.value) == all[|p.turns|..])
  {
    var p, all := PageOf(T, v, offset, limit), Reading(T, v, offset);
    if p.next.Some? {
      ReadingFrom(T, v, offset, |p.turns|);
    }
  }

  /** The pages a client gets by following `next` until there is none. */
  ghost function Pages(T: Table, v: View, offset: nat, limit: nat): seq<seq<Turn>>
    requires Numbered(T) && limit >= 1
    decreases |Reading(T, v, offset)|
  {
    PageMoves(T, v, offset, limit);
    var p := PageOf(T, v, offset, limit);
    [p.turns] + (if p.next.None? then [] else Pages(T, v, p.next.value, limit))
  }

  function Joined(pages: seq<seq<Turn>>): seq<Turn>
  {
    if pages == [] then [] else pages[0] + Joined(pages[1..])
  }

  /**
   On an unchanged session, following `next` ends, and the pages put together are exactly the
   whole reading: every turn once, in order, whatever the limit and the sizes of the turns.
   */
  lemma {:induction false} PagesMakeTheReading(T: Table, v: View, offset: nat, limit: nat)
    requires Numbered(T) && limit >= 1
    ensures Joined(Pages(T, v, offset, limit)) == Reading(T, v, offset)
    ensures |Pages(T, v, offset, limit)| <= |Reading(T, v, offset)| + 1
    decreases |Reading(T, v, offset)|
  {
    var all := Reading(T, v, offset);
    var p := FirstPage(T, v, offset, limit, all);
    if p.next.None? {
      JoinedCons(Pages(T, v, offset, limit), p.turns, [], all);
    } else {
      PagesMakeTheReading(T, v, p.next.value, limit);
      JoinedCons(Pages(T, v, offset, limit), p.turns, Pages(T, v, p.next.value, limit), all);
    }
  }

  /** The first page, and the pages after it. */
  lemma FirstPage(T: Table, v: View, offset: nat, limit: nat, all: seq<Turn>) returns (p: Page)
    requires Numbered(T) && limit >= 1 && all == Reading(T, v, offset)
    ensures |p.turns| <= |all| && p.turns == all[..|p.turns|] && (p.next.None? ==> |p.turns| == |all|)
    ensures p.next.Some? ==> |p.turns| >= 1 && Reading(T, v, p.next.value) == all[|p.turns|..]
    ensures Pages(T, v, offset, limit)
            == [p.turns] + if p.next.None? then [] else Pages(T, v, p.next.value, limit)
  {
    PageMoves(T, v, offset, limit);
    p := PageOf(T, v, offset, limit);
  }

  lemma JoinedCons(pages: seq<seq<Turn>>, page: seq<Turn>, more: seq<seq<Turn>>, all: seq<Turn>)
    requires pages == [page] + more && |page| <= |all| && page == all[..|page|] && Joined(more) == all[|page|..]
    ensures Joined(pages) == all && |pages| == 1 + |more|
  {
    assert pages[1..] == more;
  }

  /** On a page of a query, a turn that is not a match stands next to one in the session. */
  lemma UnmatchedIsBesideMatch(T: Table, v: View, offset: nat, limit: nat, k: nat)
    requires Numbered(T) && v.query.Some?
    requires var p := PageOf(T, v, offset, limit);
      k < |p.turns| && !MatchesOf(v, p.turns).value[k]
    ensures var t := PageOf(T, v, offset, limit).turns[k];
      exists i <- Members(T, v.origin, v.session) ::
        (T[i].seqNo == t.seqNo - 1 || T[i].seqNo == t.seqNo + 1) && v.query.value(T[i].content)
  {
    var t := PageOf(T, v, offset, limit).turns[k];
    assert t in Reading(T, v, offset);
    var j :| j in Members(T, v.origin, v.session) && T[j] == t;
    var i :| i in Members(T, v.origin, v.session)
             && t.seqNo - 1 <= T[i].seqNo <= t.seqNo + 1 && v.query.value(T[i].content);
    SameNumberSameTurn(T, v, i, j);
  }

  lemma SameNumberSameTurn(T: Table, v: View, i: string, j: string)
    requires Numbered(T) && i in Members(T, v.origin, v.session) && j in Members(T, v.origin, v.session)
    ensures T[i].seqNo == T[j].seqNo ==> i == j
  {
    assert NumberedTo(T, v.origin, v.session, |Members(T, v.origin, v.session)|);
  }

  /** A whole session, read without a query from the start, is its turns numbered 1 to n. */
  lemma WholeSession(T: Table, origin: string, session: string)
    requires Numbered(T)
    ensures var all := Reading(T, View(origin, session, None), 1);
      && |all| == |Members(T, origin, session)|
      && forall k :: 0 <= k < |all| ==> all[k].seqNo == k + 1
  {
    var v := View(origin, session, None);
    var n := |Members(T, origin, session)|;
    var all := Reading(T, v, 1);
    assert NumberedTo(T, origin, session, n);
    forall j | 0 <= j < |all| ensures 1 <= all[j].seqNo <= n {
      assert all[j] in all;
    }
    forall k | 1 <= k <= n ensures HasNumber(all, k) {
      assert k in Seqs(T, origin, session);
      var i :| i in Members(T, origin, session) && T[i].seqNo == k;
      assert T[i] in all;
    }
    if n == 0 {
      assert ShownFrom(T, v, 1) == {};
    }
    ConsecutiveNumbers(all, n);
  }

  ghost predicate HasNumber(s: seq<Turn>, k: nat)
  {
    exists t :: t in s && t.seqNo == k
  }

  ghost predicate NumbersTo(all: seq<Turn>, n: nat)
  {
    && Ascending(Earlier, all)
    && (forall j :: 0 <= j < |all| ==> 1 <= all[j].seqNo <= n)
    && (forall k :: 1 <= k <= n ==> HasNumber(all, k))
    && (n == 0 ==> all == [])
  }

  lemma LastIsTop(all: seq<Turn>, n: nat)
    requires NumbersTo(all, n) && n > 0
    ensures all != [] && all[|all| - 1].seqNo == n
  {
    assert HasNumber(all, n);
    var t :| t in all && t.seqNo == n;
    var j :| 0 <= j < |all| && all[j] == t;
    assert j < |all| - 1 ==> Earlier(all[j], all[|all| - 1]);
  }

  lemma WithoutLast(all: seq<Turn>, n: nat)
    requires NumbersTo(all, n) && n > 0 && all != [] && all[|all| - 1].seqNo == n
    ensures NumbersTo(all[..|all| - 1], n - 1)
  {
    var last := |all| - 1;
    assert last > 0 ==> Earlier(all[0], all[last]);
    forall j | 0 <= j < last ensures all[j].seqNo <= n - 1 {
      assert Earlier(all[j], all[last]);
    }
    forall k | 1 <= k <= n - 1 ensures HasNumber(all[..last], k) {
      assert HasNumber(all, k);
      var u :| u in all && u.seqNo == k;
      var m :| 0 <= m < |all| && all[m] == u;
      assert all[..last][m] == u;
    }
  }

  lemma {:induction false} ConsecutiveNumbers(all: seq<Turn>, n: nat)
    requires NumbersTo(all, n)
    ensures |all| == n && forall k :: 0 <= k < |all| ==> all[k].seqNo == k + 1
    decreases n
  {
    if n > 0 {
      LastIsTop(all, n);
      WithoutLast(all, n);
      ConsecutiveNumbers(all[..|all| - 1], n - 1);
      assert all == all[..|all| - 1] + [all[|all| - 1]];
    }
  }

  // ---- the table ------------------------------------------------------------

  class Lane {
    var rows: Table
    var namespaces: set<string>

    ghost predicate Valid()
      reads this
    {
      Numbered(rows)
    }

    constructor (registered: set<string>)
      ensures Valid() && rows == map[] && namespaces == registered
    {
      rows := map[];
      namespaces := registered;
    }

    /** `append`: the next number of the session, or the number a replay already has. */
    method Append(q: Request, secret: string -> bool) returns (r: Outcome)
      requires Valid()
      modifies this`rows
      ensures Valid()
      ensures r == Answer(old(rows), namespaces, secret, q)
      ensures rows == AppendTo(old(rows), namespaces, secret, q)
    {
      AppendKeepsNumbering(rows, namespaces, secret, q);
      if HasCredential(secret, q) {
        return Refused(Credential);
      }
      if q.id in rows {
        var stored := rows[q.id];
        if stored.ns == q.ns && stored.origin == q.origin && stored.session == q.session && stored.role == q.role
           && stored.content == q.content && stored.reasoning == q.reasoning && stored.repo == q.repo {
          return Replayed(stored.seqNo);
        }
        return Refused(Conflict);
      }
      var mine := Members(rows, q.origin, q.session);
      if mine != {} {
        var any :| any in mine;
        ghost var n := |mine|;
        assert NumberedTo(rows, q.origin, q.session, n);
        var owner := rows[any].ns;
        if owner != q.ns {
          return Refused(OtherNamespace(owner));
        }
      }
      if q.ns !in namespaces {
        return Refused(UnknownNamespace);
      }
      var n := NextSeq(rows, q.origin, q.session);
      rows := rows[q.id := TurnOf(q, n)];
      return Stored(n);
    }

    /** `read_session` for a key that may read the namespaces of `scope`, or any. */
    method Read(v: View, scope: Option<set<string>>, offset: nat, limit: nat) returns (r: ReadOutcome)
      requires Valid()
      ensures r.NotFound? <==> !ReadableBy(rows, v, scope)
      ensures r.Found? ==> r.page == PageOf(rows, v, offset, limit) && r.matches == MatchesOf(v, r.page.turns)
      ensures r.Found? ==> forall i <- Members(rows, v.origin, v.session) :: rows[i].ns == r.ns
    {
      var readable := set i <- Members(rows, v.origin, v.session) | InScope(scope, rows[i].ns);
      if readable == {} {
        assert forall i <- Members(rows, v.origin, v.session) :: i !in readable;
        return NotFound;
      }
      var any :| any in readable;
      ghost var n := |Members(rows, v.origin, v.session)|;
      assert NumberedTo(rows, v.origin, v.session, n);
      var page := ReadPage(v, offset, limit);
      r := Found(rows[any].ns, page, MatchesOf(v, page.turns));
    }

    /** The query of one page and its cut. */
    method ReadPage(v: View, offset: nat, limit: nat) returns (p: Page)
      requires Valid()
      ensures p == PageOf(rows, v, offset, limit)
    {
      TurnsOrdered(rows, v, offset);
      var ordered := Sort(Earlier, ShownFrom(rows, v, offset));
      var fetched := Take(ordered, limit + 1);
      var kept, next := Cut(fetched, limit);
      CutIsUnique(fetched, limit, |kept|, CutAt(fetched, limit));
      p := Page(kept, next);
    }

    /** `delete_session`: every row of the session, and how many there were. */
    method DeleteSession(origin: string, session: string) returns (n: nat)
      requires Valid()
      modifies this`rows
      ensures Valid()
      ensures rows == Drop(old(rows), origin, session) && n == |Members(old(rows), origin, session)|
    {
      DropKeepsNumbering(rows, origin, session);
      n := |Members(rows, origin, session)|;
      rows := Drop(rows, origin, session);
    }
  }
}
