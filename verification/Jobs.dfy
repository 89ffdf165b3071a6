/** The durable job table: admission under caps, fair claiming, terminal marks and startup recovery. */
module Jobs {
  import opened Basics
  import opened Order

  type JobId = string
  type Path = string
  type Stamp = nat

  datatype Kind = Document | Repo

  datatype Status = Queued | Running | Succeeded | NoOp | Failed

  /** `spool` is the uploaded file of a document job. */
  datatype Job = Job(
    kind: Kind, status: Status, key: string, ns: string, document: string, spool: Path, created: Stamp, updated: Stamp)

  type Table = map<JobId, Job>

  datatype Limits = Limits(perKey: nat, all: nat, repos: nat, retention: nat)

  const RESERVED_KEY_PREFIX := "it-"

  predicate Terminal(s: Status)
  {
    s.Succeeded? || s.NoOp? || s.Failed?
  }

  predicate Live(T: Table, i: JobId, kind: Kind)
  {
    i in T && T[i].kind == kind && !Terminal(T[i].status)
  }

  predicate IsRunning(T: Table, i: JobId, kind: Kind)
  {
    i in T && T[i].kind == kind && T[i].status.Running?
  }

  function LiveJobs(T: Table, kind: Kind): set<JobId>
  {
    set i <- T.Keys | Live(T, i, kind)
  }

  function LiveOfKey(T: Table, key: string): set<JobId>
  {
    set i <- T.Keys | Live(T, i, Document) && T[i].key == key
  }

  // ---- admission ------------------------------------------------------------

  /** `_prune_rows`. */
  function Pruned(T: Table, L: Limits, now: Stamp): Table
  {
    map i | i in T && !(Terminal(T[i].status) && T[i].updated + L.retention < now) :: T[i]
  }

  predicate DocumentFits(T: Table, L: Limits, key: string)
  {
    |LiveOfKey(T, key)| < L.perKey && |LiveJobs(T, Document)| < L.all
  }

  function NewDocument(key: string, ns: string, document: string, spool: Path, now: Stamp): Job
  {
    Job(Document, Queued, key, ns, document, spool, now, now)
  }

  /** A refused admission rolls back, pruning included. */
  function DocumentAdmitted(T: Table, L: Limits, id: JobId, key: string, ns: string, document: string, spool: Path,
                         now: Stamp): Table
  {
    var kept := Pruned(T, L, now);
    if DocumentFits(kept, L, key) then kept[id := NewDocument(key, ns, document, spool, now)] else T
  }

  function RepoAdmitted(T: Table, L: Limits, id: JobId, key: string, now: Stamp): Table
  {
    var kept := Pruned(T, L, now);
    if |LiveJobs(kept, Repo)| < L.repos then kept[id := Job(Repo, Queued, key, "", "", "", now, now)] else T
  }

  // ---- claiming -------------------------------------------------------------

  /** Reserved keys are seen only by a claim that names their prefix. */
  predicate Sees(prefix: Option<string>, key: string)
  {
    match prefix case None => !(RESERVED_KEY_PREFIX <= key) case Some(p) => p <= key
  }

  predicate SameDocument(a: Job, b: Job)
  {
    a.ns == b.ns && a.document == b.document
  }

  predicate Eligible(T: Table, prefix: Option<string>, i: JobId)
  {
    && i in T && T[i].kind.Document? && T[i].status.Queued? && Sees(prefix, T[i].key)
    && forall a <- T.Keys :: IsRunning(T, a, Document) ==> !SameDocument(T[a], T[i])
  }

  function EligibleJobs(T: Table, prefix: Option<string>): set<JobId>
  {
    set i <- T.Keys | Eligible(T, prefix, i)
  }

  function RunningOfKey(T: Table, key: string): set<JobId>
  {
    set a <- T.Keys | IsRunning(T, a, Document) && T[a].key == key
  }

  function OfKey(T: Table, E: set<JobId>, key: string): set<JobId>
    requires E <= T.Keys
  {
    set i <- E | T[i].key == key
  }

  function Oldest(T: Table, E: set<JobId>, key: string): Stamp
    requires E <= T.Keys
  {
    var times := set i <- OfKey(T, E, key) :: T[i].created;
    if times == {} then 0 else Lowest(times)
  }

  function KeysOf(T: Table, E: set<JobId>): set<string>
    requires E <= T.Keys
  {
    set i <- E :: T[i].key
  }

  /** Fewest running jobs, then the oldest eligible job, then the key. */
  predicate KeyAhead(T: Table, E: set<JobId>, k: string, m: string)
    requires E <= T.Keys
  {
    var a, b := |RunningOfKey(T, k)|, |RunningOfKey(T, m)|;
    var s, t := Oldest(T, E, k), Oldest(T, E, m);
    a < b || (a == b && (s < t || (s == t && Before(k, m))))
  }

  function KeyOrder(T: Table, E: set<JobId>): (string, string) -> bool
    requires E <= T.Keys
  {
    (k: string, m: string) => KeyAhead(T, E, k, m)
  }

  predicate JobAhead(T: Table, i: JobId, j: JobId)
  {
    i in T && j in T && (T[i].created < T[j].created || (T[i].created == T[j].created && Before(i, j)))
  }

  function JobOrder(T: Table): (JobId, JobId) -> bool
  {
    (i: JobId, j: JobId) => JobAhead(T, i, j)
  }

  lemma KeysOrdered(T: Table, E: set<JobId>)
    requires E <= T.Keys
    ensures TotalOn(KeyOrder(T, E), KeysOf(T, E))
  {
    BeforeIsAnOrder();
  }

  lemma JobsOrdered(T: Table, E: set<JobId>)
    requires E <= T.Keys
    ensures TotalOn(JobOrder(T), E)
  {
    BeforeIsAnOrder();
  }

  ghost function ChosenKey(T: Table, E: set<JobId>): (k: string)
    requires E <= T.Keys && E != {}
    ensures k in KeysOf(T, E)
  {
    var i :| i in E;
    assert T[i].key in KeysOf(T, E);
    KeysOrdered(T, E);
    Least(KeyOrder(T, E), KeysOf(T, E))
  }

  ghost function Candidate(T: Table, E: set<JobId>): (i: JobId)
    requires E <= T.Keys && E != {}
    ensures i in E
  {
    var k := ChosenKey(T, E);
    var mine := OfKey(T, E, k);
    assert mine != {} by {
      var i :| i in E && T[i].key == k;
      assert i in mine;
    }
    JobsOrdered(T, mine);
    Least(JobOrder(T), mine)
  }

  function Started(j: Job, now: Stamp): Job
  {
    j.(status := Running, updated := now)
  }

  /** `claim_job("document")`: the oldest eligible job of the first key in the fair order. */
  ghost function ClaimDocument(T: Table, prefix: Option<string>): Option<JobId>
  {
    var E := EligibleJobs(T, prefix);
    if E == {} then None else Some(Candidate(T, E))
  }

  function EligibleRepos(T: Table, prefix: Option<string>): set<JobId>
  {
    set i <- T.Keys | T[i].kind.Repo? && T[i].status.Queued? && Sees(prefix, T[i].key)
                      && forall a <- T.Keys :: !IsRunning(T, a, Repo)
  }

  ghost function ClaimRepo(T: Table, prefix: Option<string>): Option<JobId>
  {
    var E := EligibleRepos(T, prefix);
    JobsOrdered(T, E);
    if E == {} then None else Some(Least(JobOrder(T), E))
  }

  ghost function ClaimOf(T: Table, kind: Kind, prefix: Option<string>): Option<JobId>
  {
    match kind case Document => ClaimDocument(T, prefix) case Repo => ClaimRepo(T, prefix)
  }

  ghost function Claimed(T: Table, kind: Kind, prefix: Option<string>, now: Stamp): Table
  {
    match ClaimOf(T, kind, prefix)
    case None => T
    case Some(i) => if i in T then T[i := Started(T[i], now)] else T
  }

  // ---- terminal marks and recovery ------------------------------------------

  /** `mark_terminal`. */
  function Marked(T: Table, i: JobId, status: Status, now: Stamp): Table
  {
    if i in T then T[i := T[i].(status := status, updated := now)] else T
  }

  /** `recover_and_prune`: every unfinished job of the kind is queued again. */
  function Requeued(T: Table, L: Limits, kind: Kind, now: Stamp): Table
  {
    var queued := map i | i in T :: if Live(T, i, kind) then T[i].(status := Queued, updated := now) else T[i];
    Pruned(queued, L, now)
  }

  /** The write of `reset_interrupted_uploads`: the jobs whose file is missing fail. */
  function Reset(T: Table, missing: set<JobId>, now: Stamp): Table
  {
    map i | i in T :: if i in missing then T[i].(status := Failed, updated := now) else T[i]
  }

  // ---- safety ---------------------------------------------------------------

  /** No two running jobs work on one document. */
  ghost predicate Exclusive(T: Table)
  {
    forall i <- T, j <- T :: i != j && IsRunning(T, i, Document) && IsRunning(T, j, Document) ==>
      !SameDocument(T[i], T[j])
  }

  ghost predicate OneRepoRuns(T: Table)
  {
    forall i <- T, j <- T :: IsRunning(T, i, Repo) && IsRunning(T, j, Repo) ==> i == j
  }

  ghost predicate WithinCaps(T: Table, L: Limits)
  {
    && (forall key: string :: |LiveOfKey(T, key)| <= L.perKey)
    && |LiveJobs(T, Document)| <= L.all && |LiveJobs(T, Repo)| <= L.repos
  }

  ghost predicate Safe(T: Table, L: Limits)
  {
    Exclusive(T) && OneRepoRuns(T) && WithinCaps(T, L)
  }

  /** Nothing becomes live or running: what holds stays. */
  lemma ShrinkIsSafe(T: Table, after: Table, L: Limits)
    requires Safe(T, L)
    requires forall i <- after ::
               i in T && after[i].kind == T[i].kind && SameDocument(after[i], T[i]) && after[i].key == T[i].key
    requires forall i <- after :: !Terminal(after[i].status) ==> !Terminal(T[i].status)
    requires forall i <- after :: after[i].status.Running? ==> T[i].status.Running?
    ensures Safe(after, L)
  {
    forall key: string ensures |LiveOfKey(after, key)| <= L.perKey {
      SubsetSize(LiveOfKey(after, key), LiveOfKey(T, key));
    }
    SubsetSize(LiveJobs(after, Document), LiveJobs(T, Document));
    SubsetSize(LiveJobs(after, Repo), LiveJobs(T, Repo));
  }

  lemma AddedLive(T: Table, id: JobId, j: Job, key: string)
    requires id !in T && j.status.Queued?
    ensures LiveOfKey(T[id := j], key) == LiveOfKey(T, key) + (if j.kind.Document? && j.key == key then {id} else {})
    ensures LiveJobs(T[id := j], Document) == LiveJobs(T, Document) + (if j.kind.Document? then {id} else {})
    ensures LiveJobs(T[id := j], Repo) == LiveJobs(T, Repo) + (if j.kind.Repo? then {id} else {})
  {
  }

  lemma AddIsSafe(T: Table, id: JobId, j: Job, L: Limits)
    requires Safe(T, L) && id !in T && j.status.Queued?
    requires j.kind.Document? ==> DocumentFits(T, L, j.key)
    requires j.kind.Repo? ==> |LiveJobs(T, Repo)| < L.repos
    ensures Safe(T[id := j], L)
  {
    var after := T[id := j];
    forall key: string ensures |LiveOfKey(after, key)| <= L.perKey {
      AddedLive(T, id, j, key);
    }
    AddedLive(T, id, j, j.key);
    AddKeepsRunning(T, id, j);
  }

  lemma AddKeepsRunning(T: Table, id: JobId, j: Job)
    requires Exclusive(T) && OneRepoRuns(T) && id !in T && j.status.Queued?
    ensures Exclusive(T[id := j]) && OneRepoRuns(T[id := j])
  {
  }

  lemma StartKeepsCaps(T: Table, i: JobId, now: Stamp, L: Limits)
    requires WithinCaps(T, L) && i in T && T[i].status.Queued?
    ensures WithinCaps(T[i := Started(T[i], now)], L)
  {
    var after := T[i := Started(T[i], now)];
    forall key: string ensures |LiveOfKey(after, key)| <= L.perKey {
      assert LiveOfKey(after, key) == LiveOfKey(T, key);
    }
    assert LiveJobs(after, Document) == LiveJobs(T, Document);
    assert LiveJobs(after, Repo) == LiveJobs(T, Repo);
  }

  lemma StartIsExclusive(T: Table, i: JobId, now: Stamp)
    requires Exclusive(T) && i in T && T[i].status.Queued?
    requires T[i].kind.Document? ==> forall a <- T.Keys :: IsRunning(T, a, Document) ==> !SameDocument(T[a], T[i])
    ensures Exclusive(T[i := Started(T[i], now)])
  {
  }

  lemma StartIsOnly(T: Table, i: JobId, now: Stamp)
    requires OneRepoRuns(T) && i in T && T[i].status.Queued?
    requires T[i].kind.Repo? ==> forall a <- T.Keys :: !IsRunning(T, a, Repo)
    ensures OneRepoRuns(T[i := Started(T[i], now)])
  {
  }

  lemma ClaimIsSafe(T: Table, L: Limits, kind: Kind, prefix: Option<string>, now: Stamp)
    requires Safe(T, L)
    ensures Safe(Claimed(T, kind, prefix, now), L)
  {
    if ClaimOf(T, kind, prefix).Some? {
      var i := ClaimOf(T, kind, prefix).value;
      ClaimedIs(T, kind, prefix);
      StartKeepsCaps(T, i, now, L);
      StartIsExclusive(T, i, now);
      StartIsOnly(T, i, now);
    }
  }

  lemma ClaimedIs(T: Table, kind: Kind, prefix: Option<string>)
    requires ClaimOf(T, kind, prefix).Some?
    ensures var i := ClaimOf(T, kind, prefix).value;
      && i in T && T[i].kind == kind && T[i].status.Queued? && Sees(prefix, T[i].key)
      && (kind.Document? ==> Eligible(T, prefix, i))
      && (kind.Repo? ==> forall a <- T.Keys :: !IsRunning(T, a, Repo))
  {
  }

  // ---- runs -----------------------------------------------------------------

  datatype Event =
    | AdmitsDocument(id: JobId, key: string, ns: string, document: string, spool: Path, now: Stamp)
    | AdmitsRepo(id: JobId, key: string, now: Stamp)
    | Claims(kind: Kind, prefix: Option<string>, now: Stamp)
    | Marks(id: JobId, status: Status, now: Stamp)
    | Resets(missing: set<JobId>, now: Stamp)
    | Recovers(kind: Kind, now: Stamp)

  /** Identifiers are fresh, and a mark is terminal. */
  predicate Ready(T: Table, e: Event)
  {
    match e
    case AdmitsDocument(id, _, _, _, _, _) => id !in T
    case AdmitsRepo(id, _, _) => id !in T
    case Marks(_, status, _) => Terminal(status)
    case _ => true
  }

  ghost function Next(T: Table, L: Limits, e: Event): Table
  {
    match e
    case AdmitsDocument(id, key, ns, document, spool, now) => DocumentAdmitted(T, L, id, key, ns, document, spool, now)
    case AdmitsRepo(id, key, now) => RepoAdmitted(T, L, id, key, now)
    case Claims(kind, prefix, now) => Claimed(T, kind, prefix, now)
    case Marks(id, status, now) => Marked(T, id, status, now)
    case Resets(missing, now) => Reset(T, missing, now)
    case Recovers(kind, now) => Requeued(T, L, kind, now)
  }

  lemma StepIsSafe(T: Table, L: Limits, e: Event)
    requires Safe(T, L) && Ready(T, e)
    ensures Safe(Next(T, L, e), L)
  {
    match e
    case AdmitsDocument(id, key, ns, document, spool, now) =>
      var kept := Pruned(T, L, now);
      ShrinkIsSafe(T, kept, L);
      if DocumentFits(kept, L, key) {
        AddIsSafe(kept, id, NewDocument(key, ns, document, spool, now), L);
      }
    case AdmitsRepo(id, key, now) =>
      var kept := Pruned(T, L, now);
      ShrinkIsSafe(T, kept, L);
      if |LiveJobs(kept, Repo)| < L.repos {
        AddIsSafe(kept, id, Job(Repo, Queued, key, "", "", "", now, now), L);
      }
    case Claims(kind, prefix, now) => ClaimIsSafe(T, L, kind, prefix, now);
    case Marks(id, status, now) => ShrinkIsSafe(T, Marked(T, id, status, now), L);
    case Resets(missing, now) => ShrinkIsSafe(T, Reset(T, missing, now), L);
    case Recovers(kind, now) => ShrinkIsSafe(T, Requeued(T, L, kind, now), L);
  }

  ghost predicate Run(L: Limits, ts: seq<Table>, es: seq<Event>)
  {
    && |ts| == |es| + 1
    && forall k {:trigger es[k]} :: 0 <= k < |es| ==> Ready(ts[k], es[k]) && ts[k + 1] == Next(ts[k], L, es[k])
  }

  /** In every reachable state: one running job a document, one running repo job, backlogs within the caps. */
  lemma {:induction false} EveryRunIsSafe(L: Limits, ts: seq<Table>, es: seq<Event>, k: nat)
    requires Run(L, ts, es) && ts[0] == map[] && k <= |es|
    ensures Safe(ts[k], L)
  {
    if k > 0 {
      EveryRunIsSafe(L, ts, es, k - 1);
      StepIsSafe(ts[k - 1], L, es[k - 1]);
    } else {
      assert forall key: string :: LiveOfKey(ts[0], key) == {};
      assert LiveJobs(ts[0], Document) == {} && LiveJobs(ts[0], Repo) == {};
    }
  }

  // ---- fairness -------------------------------------------------------------

  /** j could be claimed, and its key has nothing running. */
  ghost predicate Waits(T: Table, prefix: Option<string>, j: JobId)
  {
    Eligible(T, prefix, j) && RunningOfKey(T, T[j].key) == {}
  }

  lemma OldestIs(T: Table, E: set<JobId>, i: JobId)
    requires E <= T.Keys && i in E
    ensures Oldest(T, E, T[i].key) <= T[i].created
    ensures exists o :: o in E && T[o].key == T[i].key && T[o].created == Oldest(T, E, T[i].key)
  {
    var times := set o <- OfKey(T, E, T[i].key) :: T[o].created;
    assert i in OfKey(T, E, T[i].key);
    assert T[i].created in times;
    var o :| o in OfKey(T, E, T[i].key) && T[o].created == Lowest(times);
  }

  /**
   While its key has nothing running, a waiting job is passed over only for a queued job that is no
   newer than it.
   */
  lemma PassedOverForOlder(T: Table, prefix: Option<string>, j: JobId)
    requires Waits(T, prefix, j)
    ensures ClaimDocument(T, prefix).Some?
    ensures var i := ClaimDocument(T, prefix).value;
      Eligible(T, prefix, i) && T[i].created <= T[j].created && RunningOfKey(T, T[i].key) == {}
  {
    var E := EligibleJobs(T, prefix);
    assert j in E;
    var k := ChosenKey(T, E);
    var i := Candidate(T, E);
    var mine := OfKey(T, E, k);
    KeysOrdered(T, E);
    JobsOrdered(T, mine);
    assert i in mine;
    assert T[j].key in KeysOf(T, E);
    assert k == T[j].key || KeyAhead(T, E, k, T[j].key);
    OldestIs(T, E, j);
    OldestIs(T, E, i);
    var o :| o in E && T[o].key == k && T[o].created == Oldest(T, E, k);
    assert o in mine;
    assert i == o || JobOrder(T)(i, o);
  }

  /** The queued jobs no newer than a time. */
  function QueuedBy(T: Table, t: Stamp): set<JobId>
  {
    set i <- T.Keys | T[i].kind.Document? && T[i].status.Queued? && T[i].created <= t
  }

  /** Steps between recoveries, admitting only newer jobs. */
  predicate Ordinary(e: Event, t: Stamp)
  {
    match e
    case AdmitsDocument(_, _, _, _, _, now) => now > t
    case Recovers(_, _) => false
    case Marks(_, status, _) => Terminal(status)
    case _ => true
  }

  ghost function PassesOver(ts: seq<Table>, es: seq<Event>, prefix: Option<string>, j: JobId, n: nat): nat
    requires |ts| == |es| + 1 && n <= |es|
  {
    if n == 0 then 0
    else PassesOver(ts, es, prefix, j, n - 1)
         + if Skips(es[n - 1], prefix) && ClaimDocument(ts[n - 1], prefix) != Some(j) then 1 else 0
  }

  lemma ClaimRemoves(T: Table, L: Limits, e: Event, prefix: Option<string>, j: JobId)
    requires e.Claims? && e.kind.Document? && e.prefix == prefix && Waits(T, prefix, j)
    requires ClaimDocument(T, prefix) != Some(j)
    ensures |QueuedBy(Next(T, L, e), T[j].created)| < |QueuedBy(T, T[j].created)|
  {
    PassedOverForOlder(T, prefix, j);
    var i := ClaimDocument(T, prefix).value;
    var before, after := QueuedBy(T, T[j].created), QueuedBy(Next(T, L, e), T[j].created);
    assert i in before && i !in after;
    assert after <= before - {i};
    SubsetSize(after, before - {i});
  }

  /**
   Bounded waiting: while a job waits and its key has nothing running, it is passed over fewer times
   than there were queued jobs no newer than it at the start.
   */
  lemma {:induction false} WaitingIsBounded(L: Limits, ts: seq<Table>, es: seq<Event>, prefix: Option<string>,
                                            j: JobId, t: Stamp, n: nat)
    requires Run(L, ts, es) && n <= |es|
    requires forall k :: 0 <= k <= n ==> Waits(ts[k], prefix, j) && ts[k][j].created == t
    requires forall k :: 0 <= k < n ==> Ordinary(es[k], t)
    ensures PassesOver(ts, es, prefix, j, n) + |QueuedBy(ts[n], t)| <= |QueuedBy(ts[0], t)|
    ensures PassesOver(ts, es, prefix, j, n) < |QueuedBy(ts[0], t)|
  {
    assert Waits(ts[n], prefix, j);
    assert j in QueuedBy(ts[n], t);
    if n > 0 {
      WaitingIsBounded(L, ts, es, prefix, j, t, n - 1);
      assert Waits(ts[n - 1], prefix, j) && Ordinary(es[n - 1], t);
      WaitStep(ts[n - 1], L, es[n - 1], prefix, j);
    }
  }

  predicate Skips(e: Event, prefix: Option<string>)
  {
    e.Claims? && e.kind.Document? && e.prefix == prefix
  }

  lemma WaitStep(T: Table, L: Limits, e: Event, prefix: Option<string>, j: JobId)
    requires Waits(T, prefix, j) && Ready(T, e) && Ordinary(e, T[j].created)
    ensures |QueuedBy(Next(T, L, e), T[j].created)|
            + (if Skips(e, prefix) && ClaimDocument(T, prefix) != Some(j) then 1 else 0)
            <= |QueuedBy(T, T[j].created)|
  {
    SubsetSize(QueuedBy(Next(T, L, e), T[j].created), QueuedBy(T, T[j].created));
    if Skips(e, prefix) && ClaimDocument(T, prefix) != Some(j) {
      ClaimRemoves(T, L, e, prefix, j);
    }
  }

  // ---- the table ------------------------------------------------------------

  class Store {
    var jobs: Table
    const limits: Limits

    ghost predicate Valid()
      reads this
    {
      Safe(jobs, limits)
    }

    constructor (limits: Limits)
      ensures Valid() && jobs == map[] && this.limits == limits
    {
      jobs := map[];
      this.limits := limits;
      new;
      assert forall key: string :: LiveOfKey(jobs, key) == {};
      assert LiveJobs(jobs, Document) == {} && LiveJobs(jobs, Repo) == {};
    }

    /** `admit_document`: false when a backlog cap is reached, and then nothing is written. */
    method AdmitDocument(id: JobId, key: string, ns: string, document: string, spool: Path, now: Stamp)
      returns (admitted: bool)
      requires Valid() && id !in jobs
      modifies this`jobs
      ensures Valid()
      ensures jobs == DocumentAdmitted(old(jobs), limits, id, key, ns, document, spool, now)
      ensures admitted <==> id in jobs
    {
      StepIsSafe(jobs, limits, AdmitsDocument(id, key, ns, document, spool, now));
      var kept := Pruned(jobs, limits, now);
      if |LiveOfKey(kept, key)| >= limits.perKey {
        return false;
      }
      if |LiveJobs(kept, Document)| >= limits.all {
        return false;
      }
      jobs := kept[id := NewDocument(key, ns, document, spool, now)];
      return true;
    }

    /** `admit_repo`. */
    method AdmitRepo(id: JobId, key: string, now: Stamp) returns (admitted: bool)
      requires Valid() && id !in jobs
      modifies this`jobs
      ensures Valid()
      ensures jobs == RepoAdmitted(old(jobs), limits, id, key, now)
      ensures admitted <==> id in jobs
    {
      StepIsSafe(jobs, limits, AdmitsRepo(id, key, now));
      var kept := Pruned(jobs, limits, now);
      if |LiveJobs(kept, Repo)| >= limits.repos {
        return false;
      }
      jobs := kept[id := Job(Repo, Queued, key, "", "", "", now, now)];
      return true;
    }

    /** `claim_job`: the keys in the fair order, then the first key's jobs in theirs. */
    method Claim(kind: Kind, prefix: Option<string>, now: Stamp) returns (r: Option<JobId>)
      requires Valid()
      modifies this`jobs
      ensures Valid()
      ensures r == ClaimOf(old(jobs), kind, prefix)
      ensures jobs == Claimed(old(jobs), kind, prefix, now)
    {
      ClaimIsSafe(jobs, limits, kind, prefix, now);
      if kind.Document? {
        r := FirstDocument(prefix);
      } else {
        r := FirstRepo(prefix);
      }
      if r.Some? {
        jobs := jobs[r.value := Started(jobs[r.value], now)];
      }
    }

    method FirstDocument(prefix: Option<string>) returns (r: Option<JobId>)
      ensures r == ClaimDocument(jobs, prefix)
    {
      var E := EligibleJobs(jobs, prefix);
      if E == {} {
        return None;
      }
      KeysOrdered(jobs, E);
      var keys := Sort(KeyOrder(jobs, E), KeysOf(jobs, E));
      SortedHead(KeyOrder(jobs, E), KeysOf(jobs, E), ChosenKey(jobs, E));
      var mine := OfKey(jobs, E, keys[0]);
      JobsOrdered(jobs, mine);
      var ids := Sort(JobOrder(jobs), mine);
      SortedHead(JobOrder(jobs), mine, Candidate(jobs, E));
      return Some(ids[0]);
    }

    method FirstRepo(prefix: Option<string>) returns (r: Option<JobId>)
      ensures r == ClaimRepo(jobs, prefix)
    {
      var E := EligibleRepos(jobs, prefix);
      JobsOrdered(jobs, E);
      if E == {} {
        return None;
      }
      var ids := Sort(JobOrder(jobs), E);
      return Some(ids[0]);
    }

    /** `mark_terminal`. */
    method MarkTerminal(id: JobId, status: Status, now: Stamp)
      requires Valid() && Terminal(status)
      modifies this`jobs
      ensures Valid()
      ensures jobs == Marked(old(jobs), id, status, now)
    {
      StepIsSafe(jobs, limits, Marks(id, status, now));
      if id in jobs {
        jobs := jobs[id := jobs[id].(status := status, updated := now)];
      }
    }

    /** `recover_and_prune`. */
    method RecoverAndPrune(kind: Kind, now: Stamp)
      requires Valid()
      modifies this`jobs
      ensures Valid()
      ensures jobs == Requeued(old(jobs), limits, kind, now)
      ensures forall i <- jobs :: !IsRunning(jobs, i, kind)
    {
      StepIsSafe(jobs, limits, Recovers(kind, now));
      jobs := Requeued(jobs, limits, kind, now);
    }
  }
}
