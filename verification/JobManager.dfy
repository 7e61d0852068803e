/** The daemon's job manager (internal/jobs): the job table, the FIFO queue and the running slots.

    The datatypes and functions give the meaning of each section that the source runs while it
    holds the manager's mutex, on a value `Mem`.  The class has the source's fields and updates
    them in place; every method is proved to do to the fields what its function does to a `Mem`,
    and to keep the invariant `MemInv`. */
module JobManager {
  import opened Extrema
  import opened Wrappers

  type Id = string

  datatype Status = Created | Queued | Running | Canceling | Succeeded | Failed | Canceled | Interrupted

  predicate Terminal(status: Status) {
    status in {Succeeded, Failed, Canceled, Interrupted}
  }

  /** Holding one of the bounded slots. */
  predicate Active(status: Status) {
    status == Running || status == Canceling
  }

  /** To be queued again after a restart. */
  predicate Waiting(status: Status) {
    status == Created || status == Queued
  }

  datatype AppError = AppError(code: string, step: string, message: string)

  datatype RunResult = RunResult(outputPath: string, language: string, segments: nat)

  datatype Request = Request(kind: string, inputPath: string, modelId: string, options: map<string, string>)

  datatype Progress = Progress(percent: Option<int>, current: int, total: int)

  datatype Job = Job(
    request: Request,
    status: Status,
    stage: string,
    progress: Progress,
    result: Option<RunResult>,
    error: Option<AppError>)

  const CANCELED_ERROR := AppError("canceled", "cancel", "job was canceled.")
  const CANCELED_EARLY_ERROR := AppError("canceled", "cancel", "job was canceled before it started.")
  const NOT_CANCELABLE_ERROR := AppError("invalid_state", "cancel", "terminal job cannot be canceled.")
  const NOT_DELETABLE_ERROR := AppError("invalid_state", "delete_job", "only terminal jobs can be deleted.")
  const UNKNOWN_JOB_ERROR := AppError("unknown_job", "job", "unknown job")
  const RESTARTED_ERROR := AppError("daemon_restarted", "daemon", "daemon restarted while job was active.")
  const MISSING_REQUEST_ERROR := AppError("daemon_restarted_missing_request", "daemon",
                                          "daemon restarted but the queued job request could not be recovered.")

  /** Everything the manager keeps in memory.  `ctxDone` holds the ids whose own context was
      canceled, `closed` says that the manager's context was. */
  datatype Mem = Mem(
    jobs: map<Id, Job>,
    requests: map<Id, Request>,
    queue: seq<Id>,
    running: set<Id>,
    ctxDone: set<Id>,
    closed: bool,
    maxRunning: nat)

  // ---------------------------------------------------------------- lock sections

  function NewJob(req: Request): Job {
    Job(req, Created, "validating", Progress(None, 0, 0), None, None)
  }

  /** The first lock section of Create. */
  function Insert(m: Mem, id: Id, req: Request): Mem {
    m.(jobs := m.jobs[id := NewJob(req)], requests := m.requests[id := req])
  }

  function Enqueue(m: Mem, id: Id): Mem {
    if id in m.jobs then
      m.(jobs := m.jobs[id := m.jobs[id].(status := Queued, stage := "queued")], queue := m.queue + [id])
    else
      m
  }

  predicate CanStart(m: Mem) {
    !m.closed && m.queue != [] && |m.running| < m.maxRunning
  }

  function StartNext(m: Mem): Mem
    requires m.queue != [] && m.queue[0] in m.jobs
  {
    var id := m.queue[0];
    m.(jobs := m.jobs[id := m.jobs[id].(status := Running, stage := "starting")],
       queue := m.queue[1..],
       running := m.running + {id})
  }

  function Finished(job: Job, status: Status, result: Option<RunResult>, error: Option<AppError>): Job {
    job.(status := status, stage := "done", result := result, error := error)
  }

  predicate ContextDone(m: Mem, id: Id) {
    m.closed || id in m.ctxDone
  }

  /** The status a returning runner leads to, and the error kept with it. */
  function TerminalState(done: bool, job: Job, error: Option<AppError>): (r: (Status, Option<AppError>))
    ensures r.0 == Canceled <==> done || job.status == Canceling
    ensures r.0 == Succeeded <==> !done && job.status != Canceling && error == None
    ensures r.0 in {Canceled, Succeeded, Failed}
    ensures r.1 == if r.0 == Canceled then Some(CANCELED_ERROR) else error
  {
    if done || job.status == Canceling then (Canceled, Some(CANCELED_ERROR))
    else if error == None then (Succeeded, None)
    else (Failed, error)
  }

  /** The lock section at the end of run. */
  function Finish(m: Mem, id: Id, result: RunResult, error: Option<AppError>): Mem {
    if id !in m.jobs then m else
    var (status, kept) := TerminalState(ContextDone(m, id), m.jobs[id], error);
    var outcome := if status == Succeeded then Some(result) else None;
    m.(jobs := m.jobs[id := Finished(m.jobs[id], status, outcome, kept)], running := m.running - {id})
  }

  function Without(queue: seq<Id>, id: Id): (r: seq<Id>)
    ensures multiset(r) == multiset(queue)[id := 0]
    ensures forall x :: x in r <==> x in queue && x != id
  {
    assert queue != [] ==> queue == [queue[0]] + queue[1..];
    if queue == [] then []
    else if queue[0] == id then Without(queue[1..], id)
    else [queue[0]] + Without(queue[1..], id)
  }

  lemma WithoutStep(filtered: seq<Id>, rest: seq<Id>, id: Id)
    requires rest != []
    ensures filtered + Without(rest, id)
         == (if rest[0] == id then filtered else filtered + [rest[0]]) + Without(rest[1..], id)
  {
  }

  lemma WithoutNothing(filtered: seq<Id>, rest: seq<Id>, id: Id)
    requires rest == []
    ensures filtered + Without(rest, id) == filtered
  {
  }

  datatype CancelOutcome = Withdrawn | Signaled | AlreadyCanceling | NotCancelable(error: AppError)

  function CancelOutcomeOf(m: Mem, id: Id): CancelOutcome {
    if id !in m.jobs then NotCancelable(UNKNOWN_JOB_ERROR)
    else if Waiting(m.jobs[id].status) then Withdrawn
    else if m.jobs[id].status == Running then Signaled
    else if m.jobs[id].status == Canceling then AlreadyCanceling
    else NotCancelable(NOT_CANCELABLE_ERROR)
  }

  function Cancel(m: Mem, id: Id): Mem {
    match CancelOutcomeOf(m, id)
    case Withdrawn =>
      m.(queue := Without(m.queue, id),
         jobs := m.jobs[id := Finished(m.jobs[id], Canceled, None, Some(CANCELED_EARLY_ERROR))])
    case Signaled =>
      m.(jobs := m.jobs[id := m.jobs[id].(status := Canceling, stage := "canceling")])
    case _ => m
  }

  function DeleteError(m: Mem, id: Id): Option<AppError> {
    if id !in m.jobs then Some(UNKNOWN_JOB_ERROR)
    else if !Terminal(m.jobs[id].status) then Some(NOT_DELETABLE_ERROR)
    else None
  }

  function Delete(m: Mem, id: Id): Mem {
    if DeleteError(m, id) == None then m.(jobs := m.jobs - {id}, requests := m.requests - {id}) else m
  }

  function SetStage(m: Mem, id: Id, stage: string): Mem {
    if id in m.jobs then m.(jobs := m.jobs[id := m.jobs[id].(stage := stage)]) else m
  }

  function SetProgress(m: Mem, id: Id, percent: int): Mem {
    if id in m.jobs then m.(jobs := m.jobs[id := m.jobs[id].(progress := Progress(Some(percent), percent, 100))]) else m
  }

  // ---------------------------------------------------------------- the invariant

  predicate NoDup(ids: seq<Id>) {
    forall i, j :: 0 <= i < j < |ids| ==> ids[i] != ids[j]
  }

  /** A result is present exactly when the job succeeded, an error exactly when it otherwise ended. */
  predicate OutcomeOk(job: Job) {
    if Terminal(job.status)
    then (job.result.Some? <==> job.status == Succeeded) && (job.error.Some? <==> job.status != Succeeded)
    else job.result == None
  }

  ghost predicate QueueInv(m: Mem) {
    && NoDup(m.queue)
    && (forall id :: id in m.queue <==> id in m.jobs && m.jobs[id].status == Queued)
    && (forall id <- m.queue :: id in m.requests)
  }

  ghost predicate SlotInv(m: Mem) {
    && (forall id :: id in m.running <==> id in m.jobs && Active(m.jobs[id].status))
    && |m.running| <= m.maxRunning
    && 0 < m.maxRunning
  }

  ghost predicate MemInv(m: Mem) {
    && QueueInv(m)
    && SlotInv(m)
    && (forall id <- m.jobs :: OutcomeOk(m.jobs[id]))
  }

  /** The job Create has inserted and not enqueued yet: nobody but Cancel has touched it. */
  predicate InWindow(m: Mem, id: Id) {
    id in m.jobs ==> m.jobs[id].status in {Created, Canceled} && id in m.requests
  }

  lemma InsertKeepsInv(m: Mem, id: Id, req: Request)
    requires MemInv(m) && id !in m.jobs
    ensures MemInv(Insert(m, id, req)) && InWindow(Insert(m, id, req), id)
  {
  }

  /** A change of one job's stage or progress. */
  lemma DetailKeepsInv(m: Mem, id: Id, job: Job)
    requires MemInv(m) && id in m.jobs && OutcomeOk(job) && job.status == m.jobs[id].status
    ensures MemInv(m.(jobs := m.jobs[id := job]))
  {
  }

  lemma EnqueueKeepsInv(m: Mem, id: Id)
    requires MemInv(m) && InWindow(m, id)
    ensures MemInv(Enqueue(m, id))
  {
    var e := Enqueue(m, id);
    assert id !in m.queue;
    if id in m.jobs {
      assert e.queue == m.queue + [id];
      assert forall x :: x in e.queue <==> x in m.queue || x == id;
    }
  }

  lemma StartKeepsInv(m: Mem)
    requires MemInv(m) && CanStart(m)
    ensures m.queue[0] in m.jobs && m.queue[0] !in m.running
    ensures MemInv(StartNext(m))
    ensures StartNext(m).jobs[m.queue[0]].status == Running
  {
    var id := m.queue[0];
    assert id in m.queue;
    var e := StartNext(m);
    assert m.queue == [id] + e.queue;
    forall x ensures x in e.queue <==> x in e.jobs && e.jobs[x].status == Queued {
      if x in e.queue {
        assert x in m.queue;
        var k :| 0 <= k < |e.queue| && e.queue[k] == x;
        assert m.queue[k + 1] == x;
      }
    }
  }

  lemma FinishKeepsInv(m: Mem, id: Id, result: RunResult, error: Option<AppError>)
    requires MemInv(m) && id in m.running
    ensures MemInv(Finish(m, id, result, error))
    ensures |Finish(m, id, result, error).running| == |m.running| - 1
  {
  }

  lemma {:induction false} WithoutNoDup(queue: seq<Id>, id: Id)
    requires NoDup(queue)
    ensures NoDup(Without(queue, id))
  {
    if queue != [] {
      WithoutNoDup(queue[1..], id);
      assert queue[0] !in queue[1..];
    }
  }

  lemma CancelKeepsQueue(m: Mem, id: Id)
    requires MemInv(m)
    ensures QueueInv(Cancel(m, id))
  {
    hide OutcomeOk, SlotInv, NoDup;
    WithoutNoDup(m.queue, id);
  }

  lemma CancelKeepsInv(m: Mem, id: Id)
    requires MemInv(m)
    ensures MemInv(Cancel(m, id))
  {
    CancelKeepsQueue(m, id);
    hide QueueInv, Without;
  }

  lemma DeleteKeepsInv(m: Mem, id: Id)
    requires MemInv(m)
    ensures MemInv(Delete(m, id))
  {
  }

  // ---------------------------------------------------------------- recovery

  /** A file that is not there, one that was truncated and not written, one with contents that are not
      one complete value, or a complete one. */
  datatype File<+T> = Absent | Torn | Spoiled | Whole(value: T)

  /** How a file write ends: the file holds the text; the text is shorter than what another write has
      left behind it; nothing is written; a part of the text is written.  The last two are errors. */
  datatype Write = Done | Short | Refused | Partial

  predicate Succeeds(w: Write) {
    w.Done? || w.Short?
  }

  datatype Dir = Dir(request: File<Request>, job: File<Job>)

  /** The job directories under the manager's root. */
  type Disk = map<Id, Dir>

  /** Queued again, as opposed to kept as it is or marked interrupted. */
  predicate Requeued(d: Dir) {
    d.job.Whole? && Waiting(d.job.value.status) && d.request.Whole?
  }

  /** What recoverJobs makes of the job in a readable job.json. */
  function RecoveredJob(d: Dir): Job
    requires d.job.Whole?
  {
    var job := d.job.value;
    if Active(job.status) then Finished(job, Interrupted, None, Some(RESTARTED_ERROR))
    else if Waiting(job.status) && !d.request.Whole? then Finished(job, Interrupted, None, Some(MISSING_REQUEST_ERROR))
    else if job.status == Created then job.(status := Queued, stage := "queued")
    else job
  }

  /** The job.json of these directories is written again. */
  predicate Rewritten(d: Dir) {
    d.job.Whole?
    && (Active(d.job.value.status) || d.job.value.status == Created || (d.job.value.status == Queued && !d.request.Whole?))
  }

  /** These are the directories whose job changes. */
  lemma RewrittenIff(d: Dir)
    ensures Rewritten(d) <==> d.job.Whole? && RecoveredJob(d) != d.job.value
  {
  }

  /** What recoverJobs leaves of a directory, given how its write ends. */
  function RecoveredDir(d: Dir, w: Write): Dir {
    if !Rewritten(d) || w.Refused? then d
    else if w.Partial? then d.(job := Torn)
    else d.(job := Whole(RecoveredJob(d)))
  }

  predicate Readable(disk: Disk, id: Id) {
    id in disk && disk[id].job.Whole?
  }

  function RequeuedIds(disk: Disk, order: seq<Id>): (r: seq<Id>)
    ensures forall id :: id in r <==> id in order && id in disk && Requeued(disk[id])
    ensures NoDup(order) ==> NoDup(r)
  {
    if order == [] then [] else
    var rest := RequeuedIds(disk, order[..|order| - 1]);
    var id := order[|order| - 1];
    if id in disk && Requeued(disk[id]) then rest + [id] else rest
  }

  ghost predicate Ahead(all: seq<Id>, x: Id, y: Id) {
    exists a, b | 0 <= a < b < |all| :: all[a] == x && all[b] == y
  }

  /** The ids of `part` come in the order they have in `all`. */
  ghost predicate KeepsOrder(part: seq<Id>, all: seq<Id>) {
    forall i, j | 0 <= i < j < |part| :: Ahead(all, part[i], part[j])
  }

  lemma AheadMore(all: seq<Id>, x: Id, y: Id, id: Id)
    ensures Ahead(all, x, y) ==> Ahead(all + [id], x, y)
    ensures x in all ==> Ahead(all + [id], x, id)
  {
    var more := all + [id];
    if Ahead(all, x, y) {
      var a, b :| 0 <= a < b < |all| && all[a] == x && all[b] == y;
      assert more[a] == x && more[b] == y;
    }
    if x in all {
      var a :| 0 <= a < |all| && all[a] == x;
      assert more[a] == x && more[|all|] == id;
    }
  }

  lemma KeepsOrderMore(part: seq<Id>, all: seq<Id>, id: Id)
    requires KeepsOrder(part, all) && forall x <- part :: x in all
    ensures KeepsOrder(part, all + [id]) && KeepsOrder(part + [id], all + [id])
  {
    hide Ahead;
    forall i, j | 0 <= i < j < |part| ensures Ahead(all + [id], part[i], part[j]) {
      AheadMore(all, part[i], part[j], id);
    }
    var longer := part + [id];
    forall i, j | 0 <= i < j < |longer| ensures Ahead(all + [id], longer[i], longer[j]) {
      assert longer[i] == part[i] && part[i] in all;
      AheadMore(all, longer[i], longer[j], id);
      if j < |part| { assert longer[j] == part[j]; }
    }
  }

  lemma {:induction false} RequeuedInOrder(disk: Disk, order: seq<Id>)
    ensures KeepsOrder(RequeuedIds(disk, order), order)
  {
    if order != [] {
      var before, id := order[..|order| - 1], order[|order| - 1];
      RequeuedInOrder(disk, before);
      hide KeepsOrder, Requeued;
      KeepsOrderMore(RequeuedIds(disk, before), before, id);
      assert before + [id] == order;
    }
  }

  function Ids(order: seq<Id>): set<Id> {
    set id | id in order
  }

  function RecoveredJobs(disk: Disk, ids: set<Id>): map<Id, Job> {
    map id | id in ids && Readable(disk, id) :: RecoveredJob(disk[id])
  }

  function RecoveredRequests(disk: Disk, ids: set<Id>): map<Id, Request> {
    map id | id in ids && id in disk && Requeued(disk[id]) :: disk[id].request.value
  }

  /** Memory after recoverJobs has read the directories of `order`. */
  function RecoveredMem(disk: Disk, order: seq<Id>, maxRunning: nat): Mem {
    Mem(RecoveredJobs(disk, Ids(order)), RecoveredRequests(disk, Ids(order)), RequeuedIds(disk, order),
        {}, {}, false, maxRunning)
  }

  /** How the writes of a recovery end; those that are not mentioned succeed. */
  type Writes = map<Id, Write>

  function WriteOf(writes: Writes, id: Id): Write {
    if id in writes then writes[id] else Done
  }

  /** The disk after recoverJobs has been through `ids`. */
  function RecoveredDisk(disk: Disk, ids: set<Id>, writes: Writes): Disk {
    map id | id in disk :: if id in ids then RecoveredDir(disk[id], WriteOf(writes, id)) else disk[id]
  }

  /** A directory listing: every job directory, once. */
  predicate Lists(order: seq<Id>, disk: Disk) {
    NoDup(order) && (forall id <- order :: id in disk) && (forall id <- disk :: id in order)
  }

  ghost predicate DiskOutcomesOk(disk: Disk) {
    forall id <- disk :: disk[id].job.Whole? ==> OutcomeOk(disk[id].job.value)
  }

  /** The jobs are those whose job.json is complete, ended ones unchanged; the others are queued or
      ended.  File and memory agree unless the file had to be written again and was not. */
  lemma RecoveryKeepsJobs(disk: Disk, order: seq<Id>, maxRunning: nat, writes: Writes)
    requires Lists(order, disk)
    ensures var m := RecoveredMem(disk, order, maxRunning);
            && (forall id :: id in m.jobs <==> Readable(disk, id))
            && (forall id <- m.jobs :: Terminal(disk[id].job.value.status) ==> m.jobs[id] == disk[id].job.value)
            && (forall id <- m.jobs :: m.jobs[id].status == Queued || Terminal(m.jobs[id].status))
            && (forall id <- m.jobs ::
                 RecoveredDisk(disk, Ids(order), writes)[id].job == Whole(m.jobs[id])
                 <==> (Rewritten(disk[id]) ==> Succeeds(WriteOf(writes, id))))
  {
  }

  lemma RecoveredOutcomes(disk: Disk, ids: set<Id>)
    requires DiskOutcomesOk(disk)
    ensures forall id <- RecoveredJobs(disk, ids) :: OutcomeOk(RecoveredJobs(disk, ids)[id])
    ensures forall id <- RecoveredJobs(disk, ids) :: !Active(RecoveredJobs(disk, ids)[id].status)
  {
  }

  lemma RecoveredQueue(disk: Disk, order: seq<Id>, maxRunning: nat)
    requires Lists(order, disk)
    ensures QueueInv(RecoveredMem(disk, order, maxRunning))
  {
  }

  lemma RecoveryEstablishesInv(disk: Disk, order: seq<Id>, maxRunning: nat)
    requires Lists(order, disk) && DiskOutcomesOk(disk) && 0 < maxRunning
    ensures MemInv(RecoveredMem(disk, order, maxRunning))
    ensures RecoveredMem(disk, order, maxRunning).running == {}
  {
    hide QueueInv, OutcomeOk, RecoveredJobs, RecoveredRequests, RequeuedIds, DiskOutcomesOk;
    RecoveredQueue(disk, order, maxRunning);
    RecoveredOutcomes(disk, Ids(order));
  }

  /** The ids of `ids` that are not in `out`, in order. */
  function Kept(ids: seq<Id>, out: set<Id>): seq<Id> {
    if ids == [] then [] else
    var rest := Kept(ids[..|ids| - 1], out);
    if ids[|ids| - 1] in out then rest else rest + [ids[|ids| - 1]]
  }

  lemma {:induction false} KeptAppend(ids: seq<Id>, id: Id, out: set<Id>)
    ensures Kept(ids + [id], out) == Kept(ids, out) + if id in out then [] else [id]
  {
    assert (ids + [id])[..|ids|] == ids;
  }

  /** The jobs a recovery loses: it truncated their job.json and did not get to write it. */
  function Lost(disk: Disk, ids: set<Id>, writes: Writes): set<Id> {
    set id | id in ids && id in disk && Rewritten(disk[id]) && WriteOf(writes, id).Partial?
  }

  function Forgetting(m: Mem, lost: set<Id>): Mem {
    m.(jobs := m.jobs - lost, requests := m.requests - lost, queue := Kept(m.queue, lost))
  }

  /** A directory a recovery has been at, as a second recovery sees it. */
  predicate SameDir(p: Dir, d: Dir) {
    && p.request == d.request && (p.job.Whole? <==> d.job.Whole?) && (Requeued(p) <==> Requeued(d))
    && (p.job.Whole? && d.job.Whole? ==> RecoveredJob(p) == RecoveredJob(d))
    && RecoveredDir(p, Done) == RecoveredDir(d, Done)
  }

  lemma RecoveredDirAgain(d: Dir, w: Write)
    ensures if Rewritten(d) && w.Partial? then RecoveredDir(d, w) == d.(job := Torn) else SameDir(RecoveredDir(d, w), d)
    ensures !Rewritten(RecoveredDir(d, Done))
  {
  }

  /** What a crashed recovery leaves for the next: the lost jobs are torn, the rest is as good as new. */
  ghost predicate AlikeBut(partial: Disk, disk: Disk, lost: set<Id>) {
    && partial.Keys == disk.Keys
    && (forall id <- disk :: if id in lost then partial[id] == disk[id].(job := Torn) else SameDir(partial[id], disk[id]))
  }

  lemma PartialDirs(disk: Disk, ids: set<Id>, writes: Writes)
    ensures AlikeBut(RecoveredDisk(disk, ids, writes), disk, Lost(disk, ids, writes))
  {
    hide RecoveredDir, SameDir, Rewritten;
    forall id | id in disk
      ensures if id in Lost(disk, ids, writes) then RecoveredDisk(disk, ids, writes)[id] == disk[id].(job := Torn)
              else SameDir(RecoveredDisk(disk, ids, writes)[id], disk[id])
    {
      RecoveredDirAgain(disk[id], WriteOf(writes, id));
      Alike(disk[id]);
    }
  }

  lemma Alike(d: Dir)
    ensures SameDir(d, d)
  {
  }

  lemma {:induction false} RequeuedIdsAgree(disk: Disk, partial: Disk, lost: set<Id>, order: seq<Id>)
    requires AlikeBut(partial, disk, lost)
    ensures RequeuedIds(partial, order) == Kept(RequeuedIds(disk, order), lost)
  {
    if order != [] {
      var rest, id := order[..|order| - 1], order[|order| - 1];
      RequeuedIdsAgree(disk, partial, lost, rest);
      if id in disk { KeptAppend(RequeuedIds(disk, rest), id, lost); }
    }
  }

  /** A second daemon that starts after a first one crashed anywhere in its own recovery, with any of
      its writes made, refused or cut short, ends as an uninterrupted recovery does, but for exactly
      the jobs whose job.json the first one truncated and did not write. */
  lemma RecoveryRestartable(disk: Disk, ids: set<Id>, writes: Writes, order: seq<Id>, maxRunning: nat)
    requires Lists(order, disk)
    ensures var partial, lost := RecoveredDisk(disk, ids, writes), Lost(disk, ids, writes);
            && Lists(order, partial)
            && RecoveredMem(partial, order, maxRunning) == Forgetting(RecoveredMem(disk, order, maxRunning), lost)
            && AlikeBut(partial, disk, lost)
  {
    hide RequeuedIds, NoDup, Rewritten, Readable, RecoveredDisk, RecoveredJobs, RecoveredRequests, Kept, AlikeBut;
    var partial, lost := RecoveredDisk(disk, ids, writes), Lost(disk, ids, writes);
    PartialDirs(disk, ids, writes);
    assert partial.Keys == disk.Keys by { AlikeKeys(disk, partial, lost); }
    RequeuedIdsAgree(disk, partial, lost, order);
    SameJobs(disk, partial, lost, Ids(order));
    SameRequests(disk, partial, lost, Ids(order));
  }

  lemma AlikeKeys(disk: Disk, partial: Disk, lost: set<Id>)
    requires AlikeBut(partial, disk, lost)
    ensures partial.Keys == disk.Keys
  {
  }

  lemma SameJobs(disk: Disk, partial: Disk, lost: set<Id>, ids: set<Id>)
    requires AlikeBut(partial, disk, lost)
    ensures RecoveredJobs(partial, ids) == RecoveredJobs(disk, ids) - lost
  {
    hide RecoveredDir, RecoveredJob, Requeued;
  }

  lemma SameRequests(disk: Disk, partial: Disk, lost: set<Id>, ids: set<Id>)
    requires AlikeBut(partial, disk, lost)
    ensures RecoveredRequests(partial, ids) == RecoveredRequests(disk, ids) - lost
  {
    hide RecoveredDir, RecoveredJob;
  }

  /** The four fields after recoverJobs has been through `order`. */
  ghost function RecoveredFields(disk: Disk, order: seq<Id>, writes: Writes)
    : (map<Id, Job>, map<Id, Request>, seq<Id>, Disk)
  {
    (RecoveredJobs(disk, Ids(order)), RecoveredRequests(disk, Ids(order)), RequeuedIds(disk, order),
     RecoveredDisk(disk, Ids(order), writes))
  }

  /** What one turn of the loop of recoverJobs adds. */
  lemma RecoverStep(disk: Disk, order: seq<Id>, writes: Writes, i: nat)
    requires Lists(order, disk) && i < |order|
    ensures var (jobs, requests, queue, after) := RecoveredFields(disk, order[..i], writes);
            var id := order[i];
            && id in disk && id in after && after[id] == disk[id]
            && RecoveredFields(disk, order[..i + 1], writes)
            == (if disk[id].job.Whole? then jobs[id := RecoveredJob(disk[id])] else jobs,
                if Requeued(disk[id]) then requests[id := disk[id].request.value] else requests,
                if Requeued(disk[id]) then queue + [id] else queue,
                after[id := RecoveredDir(disk[id], WriteOf(writes, id))])
  {
    hide RecoveredDir, RecoveredJob, Requeued;
    var id, ids := order[i], Ids(order[..i]);
    assert id in order;
    assert order[..i + 1] == order[..i] + [id];
    assert order[..i + 1][..i] == order[..i];
    assert Ids(order[..i + 1]) == ids + {id};
    SeenStep(disk, ids, writes, id);
  }

  lemma SeenStep(disk: Disk, ids: set<Id>, writes: Writes, id: Id)
    requires id in disk && id !in ids
    ensures RecoveredDisk(disk, ids + {id}, writes)
         == RecoveredDisk(disk, ids, writes)[id := RecoveredDir(disk[id], WriteOf(writes, id))]
    ensures RecoveredJobs(disk, ids + {id})
         == if disk[id].job.Whole? then RecoveredJobs(disk, ids)[id := RecoveredJob(disk[id])] else RecoveredJobs(disk, ids)
    ensures RecoveredRequests(disk, ids + {id})
         == if Requeued(disk[id]) then RecoveredRequests(disk, ids)[id := disk[id].request.value]
            else RecoveredRequests(disk, ids)
  {
    hide RecoveredDir, RecoveredJob, Requeued;
  }

  // ---------------------------------------------------------------- the class

  /** How many queued jobs one undisturbed call of schedule starts. */
  ghost function Startable(m: Mem): nat
    requires |m.running| <= m.maxRunning
  {
    if m.closed then 0 else MinInt(|m.queue|, m.maxRunning - |m.running|)
  }

  /** `now` is `first` with the ids of `started`, taken from the head of the queue, set running. */
  ghost predicate StartedFrom(first: Mem, now: Mem, started: seq<Id>) {
    && first.queue == started + now.queue
    && now.running == first.running + (set id | id in started)
    && now.jobs.Keys == first.jobs.Keys
    && (forall id <- now.jobs :: now.jobs[id] == if id in started
                                 then first.jobs[id].(status := Running, stage := "starting")
                                 else first.jobs[id])
    && now.requests == first.requests && now.closed == first.closed && now.maxRunning == first.maxRunning
    && |now.running| == |first.running| + |started|
  }

  lemma StartedMore(running: set<Id>, started: seq<Id>, id: Id)
    ensures running + (set x | x in started) + {id} == running + (set x | x in started + [id])
  {
    assert forall x :: x in started + [id] <==> x in started || x == id;
  }

  lemma StartedJobs(first: map<Id, Job>, now: map<Id, Job>, started: seq<Id>, id: Id)
    requires now.Keys == first.Keys && id in now && id !in started
    requires forall x <- now :: now[x] == if x in started then first[x].(status := Running, stage := "starting") else first[x]
    ensures var after, more := now[id := now[id].(status := Running, stage := "starting")], started + [id];
            after.Keys == first.Keys
            && forall x <- after ::
                 after[x] == if x in more then first[x].(status := Running, stage := "starting") else first[x]
  {
    assert forall x :: x in started + [id] <==> x in started || x == id;
  }

  lemma StartedOne(first: Mem, now: Mem, started: seq<Id>)
    requires StartedFrom(first, now, started)
    requires now.queue != [] && now.queue[0] in now.jobs && now.queue[0] !in now.running
    ensures StartedFrom(first, StartNext(now), started + [now.queue[0]])
  {
    var id, after := now.queue[0], StartNext(now);
    StartedMore(first.running, started, id);
    StartedJobs(first.jobs, now.jobs, started, id) by { assert id !in (set x | x in started); }
    assert now.queue == [id] + after.queue;
    assert first.queue == started + [id] + after.queue;
  }

  lemma StartedFromStep(first: Mem, now: Mem, started: seq<Id>)
    requires MemInv(now) && CanStart(now) && StartedFrom(first, now, started)
    ensures now.queue[0] in now.jobs && StartedFrom(first, StartNext(now), started + [now.queue[0]])
  {
    StartKeepsInv(now);
    hide MemInv, StartedFrom;
    StartedOne(first, now, started);
  }

  class Manager {
    var jobs: map<Id, Job>
    var requests: map<Id, Request>
    var queue: seq<Id>
    var running: set<Id>
    var ctxDone: set<Id>
    var closed: bool
    var disk: Disk
    const maxRunning: nat

    ghost function View(): Mem
      reads this
    {
      Mem(jobs, requests, queue, running, ctxDone, closed, maxRunning)
    }

    ghost predicate Valid()
      reads this
    {
      MemInv(View())
    }

    /** NewManager up to its call of schedule, on the directories found under the root. */
    constructor (limit: int, disk: Disk, order: seq<Id>, writes: Writes)
      requires Lists(order, disk)
      ensures DiskOutcomesOk(disk) ==> Valid()
      ensures View() == RecoveredMem(disk, order, if limit <= 0 then 1 else limit)
      ensures this.disk == RecoveredDisk(disk, Ids(order), writes)
    {
      jobs, requests, queue, running, ctxDone, closed := map[], map[], [], {}, {}, false;
      this.disk := disk;
      maxRunning := if limit <= 0 then 1 else limit;
      new;
      RecoverJobs(order, writes);
      if DiskOutcomesOk(disk) { RecoveryEstablishesInv(disk, order, maxRunning); }
    }

    method RecoverJobs(order: seq<Id>, writes: Writes)
      requires Lists(order, disk)
      requires View() == Mem(map[], map[], [], {}, {}, false, maxRunning)
      modifies this
      ensures View() == RecoveredMem(old(disk), order, maxRunning)
      ensures disk == RecoveredDisk(old(disk), Ids(order), writes)
    {
      hide RecoveredDir, RecoveredJob, Requeued, Rewritten;
      ghost var before := disk;
      var i := 0;
      assert order[..i] == [] && Ids([]) == {};
      assert RecoveredDisk(before, {}, writes) == before && RecoveredJobs(before, {}) == map[];
      while i < |order|
        invariant 0 <= i <= |order|
        invariant (jobs, requests, queue, disk) == RecoveredFields(before, order[..i], writes)
        invariant running == {} && ctxDone == {} && !closed
      {
        RecoverStep(before, order, writes, i);
        RecoverJob(order[i], WriteOf(writes, order[i]));
        i := i + 1;
      }
      assert order[..i] == order;
    }

    /** The body of the loop of recoverJobs; `write` says how the write of job.json ends, if there is one. */
    method RecoverJob(id: Id, write: Write)
      requires id in disk
      modifies this`jobs, this`requests, this`queue, this`disk
      ensures disk == old(disk)[id := RecoveredDir(old(disk)[id], write)]
      ensures old(disk)[id].job.Whole? ==> jobs == old(jobs)[id := RecoveredJob(old(disk)[id])]
      ensures !old(disk)[id].job.Whole? ==> jobs == old(jobs)
      ensures Requeued(old(disk)[id]) ==>
                requests == old(requests)[id := old(disk)[id].request.value] && queue == old(queue) + [id]
      ensures !Requeued(old(disk)[id]) ==> requests == old(requests) && queue == old(queue)
    {
      var d := disk[id];
      if !d.job.Whole? {
        assert disk == disk[id := d];
        return;
      }
      var job := d.job.value;
      if Active(job.status) {
        job := Finished(job, Interrupted, None, Some(RESTARTED_ERROR));
        SaveJob(id, job, write);
      } else if Waiting(job.status) {
        if !d.request.Whole? {
          job := Finished(job, Interrupted, None, Some(MISSING_REQUEST_ERROR));
          SaveJob(id, job, write);
        } else {
          requests := requests[id := d.request.value];
          if job.status == Created {
            job := job.(status := Queued, stage := "queued");
            SaveJob(id, job, write);
          }
          queue := queue + [id];
        }
      }
      jobs := jobs[id := job];
      assert job == RecoveredJob(d);
      assert disk == old(disk)[id := RecoveredDir(d, write)];
    }

    /** saveJob during recovery, when no other write is under way; its error is ignored. */
    method SaveJob(id: Id, job: Job, write: Write)
      requires id in disk
      modifies this`disk
      ensures disk == old(disk)[id := old(disk)[id].(job :=
                match write case Refused => old(disk)[id].job case Partial => Torn case _ => Whole(job))]
    {
      var d := disk[id];
      if write == Refused {
        assert disk == disk[id := d];
        return;
      }
      d := d.(job := Torn);
      if write != Partial {
        d := d.(job := Whole(job));
      }
      disk := disk[id := d];
    }

    /** The lock section of Create. */
    method InsertJob(id: Id, req: Request)
      requires Valid() && id !in jobs
      modifies this`jobs, this`requests
      ensures Valid() && View() == Insert(old(View()), id, req)
    {
      jobs := jobs[id := NewJob(req)];
      requests := requests[id := req];
    }

    method EnqueueJob(id: Id)
      requires Valid() && InWindow(View(), id)
      modifies this`jobs, this`queue
      ensures Valid() && View() == Enqueue(old(View()), id)
    {
      EnqueueKeepsInv(View(), id);
      if id in jobs {
        jobs := jobs[id := jobs[id].(status := Queued, stage := "queued")];
        queue := queue + [id];
      }
    }

    /** One turn of the loop of schedule: the id it starts, or none when it returns. */
    method ScheduleOnce() returns (started: Option<Id>)
      requires Valid()
      modifies this`jobs, this`queue, this`running
      ensures Valid()
      ensures started.Some? <==> CanStart(old(View()))
      ensures started == None ==> View() == old(View())
      ensures started.Some? ==> View() == StartNext(old(View())) && started.value == old(queue)[0]
    {
      if closed || |queue| == 0 || |running| >= maxRunning {
        return None;
      }
      StartKeepsInv(View());
      var id := queue[0];
      queue := queue[1..];
      running := running + {id};
      jobs := jobs[id := jobs[id].(status := Running, stage := "starting")];
      started := Some(id);
    }

    /** The whole of schedule when no other thread takes the mutex in between: it starts the first
        queued jobs in order, as many as there are free slots. */
    method Schedule() returns (started: seq<Id>)
      requires Valid()
      modifies this`jobs, this`queue, this`running
      ensures Valid() && !CanStart(View())
      ensures |started| == Startable(old(View()))
      ensures StartedFrom(old(View()), View(), started)
    {
      started := [];
      ghost var first := View();
      while true
        invariant Valid() && StartedFrom(first, View(), started)
        invariant closed ==> started == []
        decreases |queue|
      {
        ghost var now := View();
        var next := ScheduleOnce();
        if next == None {
          break;
        }
        StartedFromStep(first, now, started);
        started := started + [next.value];
      }
    }

    /** The lock section at the end of run. */
    method FinishRun(id: Id, result: RunResult, error: Option<AppError>)
      requires Valid() && (id in jobs ==> id in running)
      modifies this`jobs, this`running
      ensures Valid() && View() == Finish(old(View()), id, result, error)
    {
      if id !in jobs {
        return;
      }
      FinishKeepsInv(View(), id, result, error);
      running := running - {id};
      var (status, kept) := TerminalState(closed || id in ctxDone, jobs[id], error);
      if status == Succeeded {
        jobs := jobs[id := Finished(jobs[id], status, Some(result), None)];
      } else {
        jobs := jobs[id := Finished(jobs[id], status, None, kept)];
      }
    }

    method RemoveQueued(id: Id)
      modifies this`queue
      ensures queue == Without(old(queue), id)
    {
      var filtered := [];
      var rest := queue;
      while rest != []
        invariant queue == old(queue) && filtered + Without(rest, id) == Without(queue, id)
        decreases |rest|
      {
        WithoutStep(filtered, rest, id);
        if rest[0] != id {
          filtered := filtered + [rest[0]];
        }
        rest := rest[1..];
      }
      WithoutNothing(filtered, rest, id);
      queue := filtered;
    }

    method CancelJob(id: Id) returns (outcome: CancelOutcome)
      requires Valid()
      modifies this`jobs, this`queue
      ensures Valid() && View() == Cancel(old(View()), id)
      ensures outcome == CancelOutcomeOf(old(View()), id)
    {
      CancelKeepsInv(View(), id);
      if id !in jobs {
        return NotCancelable(UNKNOWN_JOB_ERROR);
      }
      match jobs[id].status {
        case Queued | Created =>
          RemoveQueued(id);
          jobs := jobs[id := Finished(jobs[id], Canceled, None, Some(CANCELED_EARLY_ERROR))];
          return Withdrawn;
        case Running =>
          jobs := jobs[id := jobs[id].(status := Canceling, stage := "canceling")];
          return Signaled;
        case Canceling =>
          return AlreadyCanceling;
        case _ =>
          return NotCancelable(NOT_CANCELABLE_ERROR);
      }
    }

    method DeleteJob(id: Id) returns (error: Option<AppError>)
      requires Valid()
      modifies this`jobs, this`requests
      ensures Valid() && View() == Delete(old(View()), id)
      ensures error == DeleteError(old(View()), id)
    {
      DeleteKeepsInv(View(), id);
      if id !in jobs {
        return Some(UNKNOWN_JOB_ERROR);
      }
      if !Terminal(jobs[id].status) {
        return Some(NOT_DELETABLE_ERROR);
      }
      jobs := jobs - {id};
      requests := requests - {id};
      error := None;
    }

    method SetJobStage(id: Id, stage: string)
      requires Valid()
      modifies this`jobs
      ensures Valid() && View() == SetStage(old(View()), id, stage)
    {
      if id in jobs {
        jobs := jobs[id := jobs[id].(stage := stage)];
      }
    }

    method SetJobProgress(id: Id, percent: int)
      requires Valid()
      modifies this`jobs
      ensures Valid() && View() == SetProgress(old(View()), id, percent)
    {
      if id in jobs {
        jobs := jobs[id := jobs[id].(progress := Progress(Some(percent), percent, 100))];
      }
    }
  }
}
