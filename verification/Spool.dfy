/** Upload files and job rows across crashes: what holds at every crash point, and what recovery restores. */
module Spool {
  import opened Basics
  import opened Jobs

  /** The startup steps in order; a crash in any phase starts them again. */
  datatype Phase = Serving | Resetting | Requeueing | Sweeping

  /**
   The durable state is `jobs` and `disk`. `uploads` are files copied but not yet admitted, `doomed`
   the files a live request or worker is about to unlink; a crash forgets both.
   */
  datatype System = System(jobs: Table, disk: set<Path>, uploads: set<Path>, doomed: set<Path>, phase: Phase)

  function LiveSpools(T: Table): set<Path>
  {
    set i <- T.Keys | Live(T, i, Document) :: T[i].spool
  }

  function DocumentSpools(T: Table): set<Path>
  {
    set i <- T.Keys | T[i].kind.Document? :: T[i].spool
  }

  function TerminalSpools(T: Table): set<Path>
  {
    set i <- T.Keys | T[i].kind.Document? && Terminal(T[i].status) :: T[i].spool
  }

  /** The unfinished jobs whose file is gone. */
  function Missing(T: Table, disk: set<Path>): set<JobId>
  {
    set i <- T.Keys | Live(T, i, Document) && T[i].spool !in disk
  }

  // ---- the steps ------------------------------------------------------------

  datatype Event =
    | Uploads(path: Path)
    | Admits(id: JobId, key: string, ns: string, document: string, path: Path, now: Stamp)
    | LosesAdmission(id: JobId, key: string, ns: string, document: string, path: Path, now: Stamp)
    | Claims(prefix: Option<string>, now: Stamp)
    | Marks(id: JobId, status: Status, now: Stamp)
    | Unlinks(path: Path)
    | Crashes
    | Resets(now: Stamp)
    | Requeues(now: Stamp)
    | Sweeps(path: Path)
    | Opens

  predicate Fresh(s: System, p: Path)
  {
    p !in s.disk && p !in s.uploads && p !in s.doomed && p !in DocumentSpools(s.jobs)
  }

  /** Swept files: those of terminal jobs, and files no unfinished job names. */
  predicate ToSweep(s: System, p: Path)
  {
    p in TerminalSpools(s.jobs) || (p in s.disk && p !in LiveSpools(s.jobs))
  }

  /** Upload names are fresh; a worker marks only what it runs; startup comes before anything else. */
  predicate Ready(s: System, e: Event)
  {
    match e
    case Uploads(p) => s.phase.Serving? && Fresh(s, p)
    case Admits(id, _, _, _, p, _) => s.phase.Serving? && p in s.uploads && id !in s.jobs
    case LosesAdmission(id, _, _, _, p, _) => s.phase.Serving? && p in s.uploads && id !in s.jobs
    case Claims(_, _) => s.phase.Serving?
    case Marks(id, status, _) => s.phase.Serving? && IsRunning(s.jobs, id, Document) && Terminal(status)
    case Unlinks(p) => s.phase.Serving? && p in s.doomed
    case Crashes => true
    case Resets(_) => s.phase.Resetting?
    case Requeues(_) => s.phase.Requeueing?
    case Sweeps(p) => s.phase.Sweeping? && ToSweep(s, p)
    case Opens => s.phase.Sweeping? && s.disk <= LiveSpools(s.jobs)
  }

  /** The admission transaction; a refusal, or an error raised after the commit, unlinks the upload. */
  function Admitted(s: System, L: Limits, id: JobId, key: string, ns: string, document: string, p: Path, now: Stamp,
                    lost: bool): System
  {
    var after := DocumentAdmitted(s.jobs, L, id, key, ns, document, p, now);
    s.(jobs := after, uploads := s.uploads - {p},
       doomed := if id in after && !lost then s.doomed else s.doomed + {p})
  }

  ghost function Next(s: System, L: Limits, e: Event): System
    requires Ready(s, e)
  {
    match e
    case Uploads(p) => s.(disk := s.disk + {p}, uploads := s.uploads + {p})
    case Admits(id, key, ns, document, p, now) => Admitted(s, L, id, key, ns, document, p, now, false)
    case LosesAdmission(id, key, ns, document, p, now) => Admitted(s, L, id, key, ns, document, p, now, true)
    case Claims(prefix, now) => s.(jobs := Claimed(s.jobs, Document, prefix, now))
    case Marks(id, status, now) => s.(jobs := Marked(s.jobs, id, status, now), doomed := s.doomed + {s.jobs[id].spool})
    case Unlinks(p) => s.(disk := s.disk - {p}, doomed := s.doomed - {p})
    case Crashes => s.(uploads := {}, doomed := {}, phase := Resetting)
    case Resets(now) => s.(jobs := Reset(s.jobs, Missing(s.jobs, s.disk), now), phase := Requeueing)
    case Requeues(now) => s.(jobs := Requeued(s.jobs, L, Document, now), phase := Sweeping)
    case Sweeps(p) => s.(disk := s.disk - {p})
    case Opens => s.(phase := Serving)
  }

  // ---- what holds -----------------------------------------------------------

  /** Every unfinished document job has its file. */
  ghost predicate FilesPresent(T: Table, disk: set<Path>)
  {
    forall i <- T :: Live(T, i, Document) ==> T[i].spool in disk
  }

  ghost predicate SpoolsDiffer(T: Table)
  {
    forall i <- T, j <- T :: i != j && T[i].kind.Document? && T[j].kind.Document? ==> T[i].spool != T[j].spool
  }

  ghost predicate NoneRunning(T: Table)
  {
    forall i <- T :: !IsRunning(T, i, Document)
  }

  ghost predicate Sound(s: System)
  {
    && SpoolsDiffer(s.jobs)
    && s.uploads !! DocumentSpools(s.jobs) && s.uploads <= s.disk && s.uploads !! s.doomed
    && (!s.phase.Serving? ==> s.uploads == {} && s.doomed == {})
    && (s.phase.Requeueing? || s.phase.Sweeping? ==> FilesPresent(s.jobs, s.disk))
    && (s.phase.Sweeping? ==> NoneRunning(s.jobs))
  }

  /** No unfinished job's file is missing or about to go. */
  ghost predicate Intact(s: System)
  {
    && FilesPresent(s.jobs, s.disk)
    && s.doomed !! LiveSpools(s.jobs)
  }

  /** The rows of a step: same spools for the rows that stay, and only one row may be new. */
  ghost predicate RowsFrom(T: Table, after: Table)
  {
    forall i <- after :: i in T && after[i].kind == T[i].kind && after[i].spool == T[i].spool
  }

  lemma RowsFromSpools(T: Table, after: Table)
    requires RowsFrom(T, after)
    ensures SpoolsDiffer(T) ==> SpoolsDiffer(after)
    ensures DocumentSpools(after) <= DocumentSpools(T)
  {
  }

  lemma AdmitKeepsSound(s: System, L: Limits, id: JobId, key: string, ns: string, document: string, p: Path,
                        now: Stamp, lost: bool)
    requires Sound(s) && s.phase.Serving? && p in s.uploads && id !in s.jobs
    ensures Sound(Admitted(s, L, id, key, ns, document, p, now, lost))
  {
  }

  lemma ResetRows(T: Table, disk: set<Path>, now: Stamp)
    ensures var after := Reset(T, Missing(T, disk), now);
      RowsFrom(T, after) && FilesPresent(after, disk)
  {
  }

  lemma SweepKeepsFiles(s: System, p: Path)
    requires Sound(s) && s.phase.Sweeping? && ToSweep(s, p)
    ensures p !in LiveSpools(s.jobs) && FilesPresent(s.jobs, s.disk - {p})
  {
  }

  lemma StepIsSound(s: System, L: Limits, e: Event)
    requires Sound(s) && Ready(s, e)
    ensures Sound(Next(s, L, e))
  {
    match e
    case Admits(id, key, ns, document, p, now) => AdmitKeepsSound(s, L, id, key, ns, document, p, now, false);
    case LosesAdmission(id, key, ns, document, p, now) => AdmitKeepsSound(s, L, id, key, ns, document, p, now, true);
    case Claims(prefix, now) =>
    case Marks(id, status, now) =>
    case Resets(now) =>
    case Requeues(now) =>
    case Sweeps(p) => SweepKeepsFiles(s, p);
    case _ =>
  }

  // ---- runs -----------------------------------------------------------------

  ghost predicate Run(L: Limits, ss: seq<System>, es: seq<Event>)
  {
    && |ss| == |es| + 1
    && forall k {:trigger es[k]} :: 0 <= k < |es| ==> Ready(ss[k], es[k]) && ss[k + 1] == Next(ss[k], L, es[k])
  }

  predicate Initial(s: System)
  {
    s.jobs == map[] && s.uploads == {} && s.doomed == {} && s.phase == Resetting
  }

  lemma {:induction false} EveryRunIsSound(L: Limits, ss: seq<System>, es: seq<Event>, k: nat)
    requires Run(L, ss, es) && Initial(ss[0]) && k <= |es|
    ensures Sound(ss[k])
  {
    if k > 0 {
      EveryRunIsSound(L, ss, es, k - 1);
      StepIsSound(ss[k - 1], L, es[k - 1]);
    }
  }

  /**
   Recovery restores the spool, however many crashes came before it and wherever they hit, even
   inside an earlier recovery: when it ends, no document job is running and the files on disk are
   exactly those of the unfinished jobs.
   */
  lemma RecoveryIsExact(L: Limits, ss: seq<System>, es: seq<Event>, k: nat)
    requires Run(L, ss, es) && Initial(ss[0]) && k < |es| && es[k].Opens?
    ensures var s := ss[k + 1];
      s.phase.Serving? && NoneRunning(s.jobs) && s.disk == LiveSpools(s.jobs)
  {
    EveryRunIsSound(L, ss, es, k);
    var s := ss[k];
    assert Ready(s, es[k]) && ss[k + 1] == Next(s, L, es[k]);
    forall p | p in LiveSpools(s.jobs) ensures p in s.disk {
      var i :| i in s.jobs && Live(s.jobs, i, Document) && s.jobs[i].spool == p;
    }
  }

  // ---- no crash point loses a file ------------------------------------------

  lemma AdmitKeepsIntact(s: System, L: Limits, id: JobId, key: string, ns: string, document: string, p: Path,
                         now: Stamp, lost: bool)
    requires Sound(s) && Intact(s) && s.phase.Serving? && p in s.uploads && id !in s.jobs
    ensures var after := Admitted(s, L, id, key, ns, document, p, now, lost);
      Intact(after) <==> !(lost && id in after.jobs)
  {
  }

  lemma MarkKeepsIntact(s: System, L: Limits, id: JobId, status: Status, now: Stamp)
    requires Sound(s) && Intact(s) && Ready(s, Event.Marks(id, status, now))
    ensures Intact(Next(s, L, Event.Marks(id, status, now)))
  {
  }

  lemma UnlinkKeepsIntact(s: System, L: Limits, p: Path)
    requires Sound(s) && Intact(s) && Ready(s, Unlinks(p))
    ensures Intact(Next(s, L, Unlinks(p)))
  {
  }

  lemma SweepKeepsIntact(s: System, L: Limits, p: Path)
    requires Sound(s) && Intact(s) && Ready(s, Sweeps(p))
    ensures Intact(Next(s, L, Sweeps(p)))
  {
  }

  /** An admission that commits and then raises. */
  predicate LosesFile(s: System, L: Limits, e: Event)
  {
    e.LosesAdmission? && e.id in DocumentAdmitted(s.jobs, L, e.id, e.key, e.ns, e.document, e.path, e.now)
  }

  /** Exactly one kind of step endangers an unfinished job's file: an error raised after the admission committed. */
  lemma StepIsIntact(s: System, L: Limits, e: Event)
    requires Sound(s) && Intact(s) && Ready(s, e)
    ensures Intact(Next(s, L, e)) <==> !LosesFile(s, L, e)
  {
    match e
    case Uploads(p) =>
      assert LiveSpools(s.jobs) <= DocumentSpools(s.jobs);
    case Admits(id, key, ns, document, p, now) => AdmitKeepsIntact(s, L, id, key, ns, document, p, now, false);
    case LosesAdmission(id, key, ns, document, p, now) => AdmitKeepsIntact(s, L, id, key, ns, document, p, now, true);
    case Claims(prefix, now) =>
    case Marks(id, status, now) => MarkKeepsIntact(s, L, id, status, now);
    case Unlinks(p) => UnlinkKeepsIntact(s, L, p);
    case Resets(now) =>
    case Requeues(now) =>
    case Sweeps(p) => SweepKeepsIntact(s, L, p);
    case _ =>
  }

  /**
   Crash safety: in every run without such a lost admission, at every point, crashed or not, each
   unfinished document job has its file on disk; so recovery fails no job for a missing file.
   */
  lemma {:induction false} EveryPointIsIntact(L: Limits, ss: seq<System>, es: seq<Event>, k: nat)
    requires Run(L, ss, es) && Initial(ss[0]) && k <= |es|
    requires forall j :: 0 <= j < k ==> !LosesFile(ss[j], L, es[j])
    ensures Intact(ss[k])
    ensures Missing(ss[k].jobs, ss[k].disk) == {}
  {
    if k > 0 {
      EveryPointIsIntact(L, ss, es, k - 1);
      EveryRunIsSound(L, ss, es, k - 1);
      StepIsIntact(ss[k - 1], L, es[k - 1]);
    }
  }

  // ---- exactly when a file is lost -------------------------------------------

  /** The file of an unfinished job is removed. */
  predicate UnlinksLive(s: System, e: Event)
  {
    e.Unlinks? && e.path in LiveSpools(s.jobs)
  }

  lemma UnlinkKeepsFiles(s: System, p: Path)
    requires FilesPresent(s.jobs, s.disk)
    ensures FilesPresent(s.jobs, s.disk - {p}) <==> p !in LiveSpools(s.jobs)
  {
    if p in LiveSpools(s.jobs) {
      var i :| i in s.jobs && Live(s.jobs, i, Document) && s.jobs[i].spool == p;
    }
  }

  lemma AdmitKeepsFiles(s: System, L: Limits, id: JobId, key: string, ns: string, document: string, p: Path,
                        now: Stamp, lost: bool)
    requires FilesPresent(s.jobs, s.disk) && p in s.disk
    ensures FilesPresent(Admitted(s, L, id, key, ns, document, p, now, lost).jobs, s.disk)
  {
  }

  /** Of all steps only the unlink of an unfinished job's file leaves such a job without its file. */
  lemma StepKeepsFiles(s: System, L: Limits, e: Event)
    requires Sound(s) && Ready(s, e) && FilesPresent(s.jobs, s.disk)
    ensures FilesPresent(Next(s, L, e).jobs, Next(s, L, e).disk) <==> !UnlinksLive(s, e)
  {
    match e
    case Admits(id, key, ns, document, p, now) => AdmitKeepsFiles(s, L, id, key, ns, document, p, now, false);
    case LosesAdmission(id, key, ns, document, p, now) => AdmitKeepsFiles(s, L, id, key, ns, document, p, now, true);
    case Claims(prefix, now) =>
    case Unlinks(p) => UnlinkKeepsFiles(s, p);
    case Resets(now) => ResetRows(s.jobs, s.disk, now);
    case Requeues(now) =>
    case Sweeps(p) => SweepKeepsFiles(s, p);
    case _ =>
  }

  ghost predicate DoomedLive(s: System, p: Path)
  {
    p in s.doomed && p in LiveSpools(s.jobs)
  }

  lemma AdmitDooms(s: System, L: Limits, id: JobId, key: string, ns: string, document: string, p: Path,
                   now: Stamp, lost: bool, q: Path)
    requires Sound(s) && s.phase.Serving? && p in s.uploads && id !in s.jobs
    requires DoomedLive(Admitted(s, L, id, key, ns, document, p, now, lost), q)
    ensures DoomedLive(s, q) || (q == p && lost && id in DocumentAdmitted(s.jobs, L, id, key, ns, document, p, now))
  {
    var after := Admitted(s, L, id, key, ns, document, p, now, lost);
    var i :| i in after.jobs && Live(after.jobs, i, Document) && after.jobs[i].spool == q;
    if i != id {
      assert i in s.jobs && Live(s.jobs, i, Document) && s.jobs[i].spool == q;
      assert q in DocumentSpools(s.jobs);
    }
  }

  lemma MarkDooms(s: System, L: Limits, id: JobId, status: Status, now: Stamp, q: Path)
    requires Sound(s) && Ready(s, Event.Marks(id, status, now))
    requires DoomedLive(Next(s, L, Event.Marks(id, status, now)), q)
    ensures DoomedLive(s, q)
  {
    var after := Next(s, L, Event.Marks(id, status, now));
    var i :| i in after.jobs && Live(after.jobs, i, Document) && after.jobs[i].spool == q;
    assert i != id && i in s.jobs && Live(s.jobs, i, Document) && s.jobs[i].spool == q;
  }

  lemma ClaimDooms(s: System, L: Limits, prefix: Option<string>, now: Stamp, q: Path)
    requires DoomedLive(s.(jobs := Claimed(s.jobs, Document, prefix, now)), q)
    ensures DoomedLive(s, q)
  {
    var after := Claimed(s.jobs, Document, prefix, now);
    var i :| i in after && Live(after, i, Document) && after[i].spool == q;
    assert i in s.jobs && Live(s.jobs, i, Document) && s.jobs[i].spool == q;
  }

  /** An unfinished job's file comes to be doomed only by an admission lost after it committed. */
  lemma StepDooms(s: System, L: Limits, e: Event, p: Path)
    requires Sound(s) && Ready(s, e) && DoomedLive(Next(s, L, e), p)
    ensures !e.Crashes? && (DoomedLive(s, p) || (LosesFile(s, L, e) && e.path == p))
  {
    match e
    case Admits(id, key, ns, document, q, now) => AdmitDooms(s, L, id, key, ns, document, q, now, false, p);
    case LosesAdmission(id, key, ns, document, q, now) => AdmitDooms(s, L, id, key, ns, document, q, now, true, p);
    case Claims(prefix, now) => ClaimDooms(s, L, prefix, now, p);
    case Marks(id, status, now) => MarkDooms(s, L, id, status, now, p);
    case Resets(now) => assert Next(s, L, e).doomed == {};
    case Requeues(now) => assert Next(s, L, e).doomed == {};
    case _ =>
  }

  /** The admission at step j was lost, nothing crashed since, and step k unlinks its unfinished job's file. */
  ghost predicate LostThenUnlinked(L: Limits, ss: seq<System>, es: seq<Event>, j: int, k: int)
    requires |ss| == |es| + 1
  {
    && 0 <= j < k < |es| && LosesFile(ss[j], L, es[j])
    && (forall i :: j < i < k ==> !es[i].Crashes?)
    && es[k].Unlinks? && es[k].path == es[j].path && UnlinksLive(ss[k], es[k])
  }

  lemma {:induction false} DoomedWasLost(L: Limits, ss: seq<System>, es: seq<Event>, k: nat, p: Path) returns (j: nat)
    requires Run(L, ss, es) && Initial(ss[0]) && k <= |es| && DoomedLive(ss[k], p)
    ensures j < k && LosesFile(ss[j], L, es[j]) && es[j].path == p
    ensures forall i :: j < i < k ==> !es[i].Crashes?
    decreases k
  {
    EveryRunIsSound(L, ss, es, k - 1);
    assert Ready(ss[k - 1], es[k - 1]) && ss[k] == Next(ss[k - 1], L, es[k - 1]);
    StepDooms(ss[k - 1], L, es[k - 1], p);
    if DoomedLive(ss[k - 1], p) {
      j := DoomedWasLost(L, ss, es, k - 1, p);
    } else {
      j := k - 1;
    }
  }

  ghost predicate FilesLost(s: System)
  {
    !FilesPresent(s.jobs, s.disk)
  }

  /** The first point at which a file is missing follows an unlink of it. */
  lemma {:induction false} LostByUnlink(L: Limits, ss: seq<System>, es: seq<Event>, n: nat) returns (k: nat)
    requires Run(L, ss, es) && Initial(ss[0]) && n <= |es| && FilesLost(ss[n])
    ensures k < n && UnlinksLive(ss[k], es[k])
    decreases n
  {
    if FilesLost(ss[n - 1]) {
      k := LostByUnlink(L, ss, es, n - 1);
    } else {
      EveryRunIsSound(L, ss, es, n - 1);
      assert Ready(ss[n - 1], es[n - 1]) && ss[n] == Next(ss[n - 1], L, es[n - 1]);
      StepKeepsFiles(ss[n - 1], L, es[n - 1]);
      k := n - 1;
    }
  }

  lemma UnlinkLoses(L: Limits, ss: seq<System>, es: seq<Event>, k: nat)
    requires Run(L, ss, es) && k < |es| && UnlinksLive(ss[k], es[k])
    ensures FilesLost(ss[k + 1])
  {
    var s, p := ss[k], es[k].path;
    assert Ready(s, es[k]) && ss[k + 1] == Next(s, L, es[k]);
    var i :| i in s.jobs && Live(s.jobs, i, Document) && s.jobs[i].spool == p;
    assert Live(ss[k + 1].jobs, i, Document) && ss[k + 1].jobs[i].spool !in ss[k + 1].disk;
  }

  /**
   Exactly when a run leaves an unfinished document job without its file: when an admission was lost
   after it committed and its file is unlinked, while the job is unfinished, before a crash.
   */
  lemma FilesLostExactly(L: Limits, ss: seq<System>, es: seq<Event>)
    requires Run(L, ss, es) && Initial(ss[0])
    ensures (exists n: nat :: n <= |es| && FilesLost(ss[n]))
            <==> (exists j: int, k: int :: LostThenUnlinked(L, ss, es, j, k))
  {
    if n: nat :| n <= |es| && FilesLost(ss[n]) {
      var k := LostByUnlink(L, ss, es, n);
      assert Ready(ss[k], es[k]);
      var j := DoomedWasLost(L, ss, es, k, es[k].path);
      assert LostThenUnlinked(L, ss, es, j, k);
    }
    if j, k :| LostThenUnlinked(L, ss, es, j, k) {
      UnlinkLoses(L, ss, es, k);
    }
  }

  lemma FirstAdmission(L: Limits, id: JobId, key: string, ns: string, document: string, p: Path, now: Stamp)
    requires L.perKey > 0 && L.all > 0
    ensures DocumentAdmitted(map[], L, id, key, ns, document, p, now)
            == map[id := NewDocument(key, ns, document, p, now)]
  {
    assert Pruned(map[], L, now) == map[];
    assert LiveOfKey(map[], key) == {} && LiveJobs(map[], Document) == {};
  }

  lemma EmptyRecovery(L: Limits, now: Stamp)
    ensures Reset(map[], Missing(map[], {}), now) == map[] && Requeued(map[], L, Document, now) == map[]
  {
  }

  /** The states of a first upload whose admission commits and is lost. */
  function LostUpload(id: JobId, job: Job, p: Path): seq<System>
  {
    var admitted := map[id := job];
    [System(map[], {}, {}, {}, Resetting), System(map[], {}, {}, {}, Requeueing), System(map[], {}, {}, {}, Sweeping),
     System(map[], {}, {}, {}, Serving), System(map[], {p}, {p}, {}, Serving),
     System(admitted, {p}, {}, {p}, Serving), System(admitted, {}, {}, {}, Serving)]
  }

  lemma StartsEmpty(L: Limits, now: Stamp, s0: System, s1: System, s2: System, s3: System)
    requires s0 == System(map[], {}, {}, {}, Resetting) && s1 == s0.(phase := Requeueing)
    requires s2 == s0.(phase := Sweeping) && s3 == s0.(phase := Serving)
    ensures s1 == Next(s0, L, Event.Resets(now)) && s2 == Next(s1, L, Event.Requeues(now))
    ensures Ready(s2, Opens) && s3 == Next(s2, L, Opens)
  {
    EmptyRecovery(L, now);
  }

  lemma LosesUpload(L: Limits, e: Event, s3: System, s4: System, s5: System, s6: System)
    requires L.perKey > 0 && L.all > 0 && e.LosesAdmission?
    requires s3 == System(map[], {}, {}, {}, Serving) && s4 == s3.(disk := {e.path}, uploads := {e.path})
    requires s5 == System(map[e.id := NewDocument(e.key, e.ns, e.document, e.path, e.now)], {e.path}, {}, {e.path},
                          Serving)
    requires s6 == s5.(disk := {}, doomed := {})
    ensures Ready(s3, Uploads(e.path)) && s4 == Next(s3, L, Uploads(e.path))
    ensures Ready(s4, e) && s5 == Next(s4, L, e) && Ready(s5, Unlinks(e.path)) && s6 == Next(s5, L, Unlinks(e.path))
  {
    FirstAdmission(L, e.id, e.key, e.ns, e.document, e.path, e.now);
  }

  /**
   Whatever the caps, the first upload can lose its file: recovery, the upload, an admission that
   commits and raises, and the unlink leave a queued job without its file.
   */
  lemma AdmissionLosesFile(L: Limits, id: JobId, key: string, ns: string, document: string, p: Path, now: Stamp)
    returns (ss: seq<System>, es: seq<Event>)
    requires L.perKey > 0 && L.all > 0
    ensures Run(L, ss, es) && Initial(ss[0]) && |es| == 6
    ensures Live(ss[6].jobs, id, Document) && ss[6].jobs[id].spool == p && p !in ss[6].disk && FilesLost(ss[6])
  {
    var lost := LosesAdmission(id, key, ns, document, p, now);
    ss := LostUpload(id, NewDocument(key, ns, document, p, now), p);
    es := [Event.Resets(now), Event.Requeues(now), Opens, Uploads(p), lost, Unlinks(p)];
    StartsEmpty(L, now, ss[0], ss[1], ss[2], ss[3]);
    LosesUpload(L, lost, ss[3], ss[4], ss[5], ss[6]);
    forall k {:trigger es[k]} | 0 <= k < |es| ensures Ready(ss[k], es[k]) && ss[k + 1] == Next(ss[k], L, es[k]) {
      assert k == 0 || k == 1 || k == 2 || k == 3 || k == 4 || k == 5;
    }
    assert Live(ss[6].jobs, id, Document) && ss[6].jobs[id].spool !in ss[6].disk;
  }

  /** The rows after the two database steps of recovery. */
  lemma RecoveredRows(T: Table, disk: set<Path>, L: Limits, now: Stamp)
    requires SpoolsDiffer(T)
    ensures var after := Requeued(Reset(T, Missing(T, disk), now), L, Document, now);
      && SpoolsDiffer(after) && NoneRunning(after) && FilesPresent(after, disk)
      && LiveJobs(after, Document) == set i <- LiveJobs(T, Document) | T[i].spool in disk
  {
    var mid := Reset(T, Missing(T, disk), now);
  }

  // ---- the service ----------------------------------------------------------

  class Service {
    var jobs: Table
    var disk: set<Path>
    const limits: Limits

    ghost predicate Valid()
      reads this
    {
      Safe(jobs, limits) && SpoolsDiffer(jobs)
    }

    constructor (limits: Limits, files: set<Path>)
      ensures Valid() && jobs == map[] && disk == files && this.limits == limits
    {
      jobs := map[];
      disk := files;
      this.limits := limits;
      new;
      assert forall key: string :: LiveOfKey(jobs, key) == {};
      assert LiveJobs(jobs, Document) == {} && LiveJobs(jobs, Repo) == {};
    }

    /** `reset_interrupted_uploads`: jobs whose file is gone fail, no other row changes. */
    method ResetInterrupted(now: Stamp)
      requires Valid()
      modifies this`jobs
      ensures Valid()
      ensures jobs == Reset(old(jobs), Missing(old(jobs), disk), now)
      ensures FilesPresent(jobs, disk)
    {
      ResetRows(jobs, disk, now);
      RowsFromSpools(jobs, Reset(jobs, Missing(jobs, disk), now));
      Jobs.StepIsSafe(jobs, limits, Jobs.Resets(Missing(jobs, disk), now));
      var missing := FindMissing();
      if missing != {} {
        jobs := Reset(jobs, missing, now);
      } else {
        assert Reset(jobs, missing, now) == jobs;
      }
    }

    method FindMissing() returns (missing: set<JobId>)
      ensures missing == Missing(jobs, disk)
    {
      var todo := LiveJobs(jobs, Document);
      missing := {};
      while todo != {}
        invariant todo <= LiveJobs(jobs, Document)
        invariant missing == set i <- LiveJobs(jobs, Document) - todo | jobs[i].spool !in disk
        decreases todo
      {
        var i :| i in todo;
        if jobs[i].spool !in disk {
          missing := missing + {i};
        }
        todo := todo - {i};
      }
      assert missing == Missing(jobs, disk);
    }

    /** `prune_spool`: files of terminal jobs by name, then every other file no unfinished job names. */
    method PruneSpool()
      requires Valid() && FilesPresent(jobs, disk)
      modifies this`disk
      ensures disk == LiveSpools(jobs)
    {
      var active := LiveSpools(jobs);
      NamesApart();
      UnlinkEach(TerminalSpools(jobs), active);
      UnlinkUnnamed(active);
    }

    /** No file belongs to both an unfinished and a terminal job. */
    lemma NamesApart()
      requires Valid() && FilesPresent(jobs, disk)
      ensures TerminalSpools(jobs) !! LiveSpools(jobs) && LiveSpools(jobs) <= disk
    {
    }

    method UnlinkEach(paths: set<Path>, active: set<Path>)
      requires paths !! active && active <= disk
      modifies this`disk
      ensures active <= disk
    {
      var todo := paths;
      while todo != {}
        invariant todo !! active && active <= disk
        decreases todo
      {
        var p :| p in todo;
        disk := disk - {p};
        todo := todo - {p};
      }
    }

    /** The listing of the directory, one file at a time. */
    method UnlinkUnnamed(active: set<Path>)
      requires active <= disk
      modifies this`disk
      ensures disk == active
    {
      var listing := disk;
      while listing != {}
        invariant active <= disk <= active + listing
        decreases listing
      {
        var p :| p in listing;
        if p !in active {
          disk := disk - {p};
        }
        listing := listing - {p};
      }
    }

    /** `recover`: the unfinished jobs are exactly those that still have their file, all queued. */
    method Recover(now: Stamp)
      requires Valid()
      modifies this
      ensures Valid()
      ensures NoneRunning(jobs) && disk == LiveSpools(jobs)
      ensures LiveJobs(jobs, Document)
              == set i <- LiveJobs(old(jobs), Document) | old(jobs)[i].spool in old(disk)
    {
      RecoveredRows(jobs, disk, limits, now);
      ResetInterrupted(now);
      Jobs.StepIsSafe(jobs, limits, Jobs.Recovers(Document, now));
      jobs := Requeued(jobs, limits, Document, now);
      PruneSpool();
    }

    /** `run_claimed`: the terminal state first, then the file. */
    method RunClaimed(id: JobId, status: Status, now: Stamp)
      requires Valid() && IsRunning(jobs, id, Document) && Terminal(status)
      modifies this
      ensures Valid()
      ensures jobs == Marked(old(jobs), id, status, now) && disk == old(disk) - {old(jobs)[id].spool}
      ensures FilesPresent(old(jobs), old(disk)) ==> FilesPresent(jobs, disk)
    {
      Jobs.StepIsSafe(jobs, limits, Jobs.Marks(id, status, now));
      var path := jobs[id].spool;
      jobs := Marked(jobs, id, status, now);
      disk := disk - {path};
    }

    /** The upload route: the file is written first, and goes again when the backlog is full. */
    method Upload(id: JobId, key: string, ns: string, document: string, path: Path, now: Stamp) returns (admitted: bool)
      requires Valid() && id !in jobs && path !in disk && path !in DocumentSpools(jobs)
      modifies this
      ensures Valid()
      ensures jobs == DocumentAdmitted(old(jobs), limits, id, key, ns, document, path, now)
      ensures admitted <==> id in jobs
      ensures disk == if admitted then old(disk) + {path} else old(disk)
      ensures FilesPresent(old(jobs), old(disk)) ==> FilesPresent(jobs, disk)
    {
      Jobs.StepIsSafe(jobs, limits, Jobs.AdmitsDocument(id, key, ns, document, path, now));
      disk := disk + {path};
      jobs := DocumentAdmitted(jobs, limits, id, key, ns, document, path, now);
      admitted := id in jobs;
      if !admitted {
        disk := disk - {path};
      }
    }
  }
}
