/** The job manager under every interleaving of its lock sections and file writes, with crashes and
    restarts between any two of them.

    A thread is what is left of a call of Create, Cancel, Delete, schedule or run: the next section
    it has to execute.  The mutex is released and retaken between sections, so the steps of
    different threads interleave freely.  A file write is two steps, one that truncates and one
    that fills in the contents; either may fail, and a text that is filled in over a longer one of
    another thread leaves a file that is no longer one complete value. */
module JobProtocol {
  import opened Wrappers
  import opened JobManager

  /** Where a thread goes after saveJob. */
  datatype Cont = ToEnqueue | ToSchedule | ToSpawn | ToReturn

  datatype Pc =
    | WriteRequest(id: Id, req: Request)            // Create: truncate request.json
    | FillRequest(id: Id, req: Request)             // Create: write its contents
    | Save(id: Id, k: Cont)                         // saveJob: look the job up and encode it
    | WriteJob(id: Id, job: Job, k: Cont)           // saveJob: truncate job.json
    | FillJob(id: Id, job: Job, k: Cont)            // saveJob: write its contents
    | EnqueueNow(id: Id)                            // the lock section of enqueue
    | ScheduleNow                                   // one turn of the loop of schedule
    | SpawnRun(id: Id)                              // schedule: start the goroutine of the job
    | RunGet(id: Id)                                // run: read the job
    | RunBody(id: Id)                               // run: inside the runner
    | RunEnd(id: Id, result: RunResult, error: Option<AppError>)   // the lock section that ends run
    | SignalContext(id: Id)                         // Cancel: cancel the context of a running job
    | RemoveDir(id: Id)                             // Delete: remove the job's directory

  /** What happened so far.  `known` and `deleted` are over the life of the directory, the rest is
      over the life of one process: ids in the order they were put into the queue and in the order
      they were started, ids canceled while queued, and ids whose slot was given back. */
  datatype History = History(
    known: set<Id>,
    deleted: set<Id>,
    enqueued: seq<Id>,
    started: seq<Id>,
    withdrawn: set<Id>,
    released: seq<Id>)

  datatype State = State(mem: Mem, disk: Disk, threads: map<nat, Pc>, up: bool, hist: History)

  datatype Label =
    | CallCreate(t: nat, id: Id, req: Request)
    | CallCancel(t: nat, id: Id)
    | CallDelete(t: nat, id: Id)
    | CallShutdown
    | Advance(t: nat, w: Write)                     // the next section of a thread, and how its write ends
    | Fork(t: nat, child: nat)
    | Emit(t: nat, stage: Option<string>, percent: Option<int>)
    | RunnerReturns(t: nat, result: RunResult, error: Option<AppError>)
    | OpenLog(id: Id)                               // an event store (re)creates the job's directory
    | Crash
    | CrashInRecovery(seen: set<Id>, writes: Writes)  // a restart that itself crashed, having been through `seen`
    | Boot(t: nat, order: seq<Id>, limit: int, writes: Writes)

  const EMPTY_DIR := Dir(Absent, Absent)

  function DirOf(disk: Disk, id: Id): Dir {
    if id in disk then disk[id] else EMPTY_DIR
  }

  function Limit(limit: int): nat {
    if limit <= 0 then 1 else limit
  }

  function EmptyMem(maxRunning: nat): Mem {
    Mem(map[], map[], [], {}, {}, false, maxRunning)
  }

  function NewProcess(h: History): History {
    History(h.known, h.deleted, [], [], {}, [])
  }

  function Put(s: State, t: nat, pc: Pc): State {
    s.(threads := s.threads[t := pc])
  }

  function Drop(s: State, t: nat): State {
    s.(threads := s.threads - {t})
  }

  function Continue(s: State, t: nat, id: Id, k: Cont): State {
    match k
    case ToEnqueue => Put(s, t, EnqueueNow(id))
    case ToSchedule => Put(s, t, ScheduleNow)
    case ToSpawn => Put(s, t, SpawnRun(id))
    case ToReturn => Drop(s, t)
  }

  /** A failed saveJob makes Create return an error; everywhere else the error is ignored. */
  function SaveFailed(s: State, t: nat, id: Id, k: Cont): State {
    if k == ToEnqueue then Drop(s, t) else Continue(s, t, id, k)
  }

  predicate Enabled(s: State, l: Label) {
    match l
    case CallCreate(t, id, _) => s.up && t !in s.threads && id !in s.hist.known
    case CallCancel(t, _) => s.up && t !in s.threads
    case CallDelete(t, _) => s.up && t !in s.threads
    case CallShutdown => s.up
    case Advance(t, w) =>
      t in s.threads && !s.threads[t].RunBody? && !s.threads[t].SpawnRun? && (w.Short? ==> Overlapped(s.disk, s.threads[t]))
    case Fork(t, child) => t in s.threads && s.threads[t].SpawnRun? && child !in s.threads
    case Emit(t, _, _) => t in s.threads && s.threads[t].RunBody?
    case RunnerReturns(t, _, _) => t in s.threads && s.threads[t].RunBody?
    case OpenLog(id) => s.up && id in s.hist.known
    case Crash => s.up
    case CrashInRecovery(_, _) => !s.up
    case Boot(_, order, _, _) => !s.up && Lists(order, s.disk)
  }

  /** Another thread has filled job.json in since this one truncated it. */
  predicate Overlapped(disk: Disk, pc: Pc) {
    pc.FillJob? && pc.id in disk && (disk[pc.id].job.Whole? || disk[pc.id].job.Spoiled?)
  }

  function Next(s: State, l: Label): State
    requires Enabled(s, l)
  {
    match l
    case CallCreate(t, id, req) =>
      Put(s, t, WriteRequest(id, req)).(mem := Insert(s.mem, id, req), hist := s.hist.(known := s.hist.known + {id}))
    case CallCancel(t, id) => NextCancel(s, t, id)
    case CallDelete(t, id) =>
      if DeleteError(s.mem, id) == None then
        Put(s, t, RemoveDir(id)).(mem := Delete(s.mem, id), hist := s.hist.(deleted := s.hist.deleted + {id}))
      else s
    case CallShutdown => s.(mem := s.mem.(closed := true))
    case Advance(t, w) => NextAdvance(s, t, w)
    case Fork(t, child) =>
      Put(Put(s, child, RunGet(s.threads[t].id)), t, ScheduleNow)
    case Emit(t, stage, percent) =>
      var id := s.threads[t].id;
      var staged := if stage.Some? && stage.value != "" then SetStage(s.mem, id, stage.value) else s.mem;
      s.(mem := if percent.Some? then SetProgress(staged, id, percent.value) else staged)
    case RunnerReturns(t, result, error) =>
      Put(s, t, RunEnd(s.threads[t].id, result, error))
    case OpenLog(id) => s.(disk := s.disk[id := DirOf(s.disk, id)])
    case Crash => State(EmptyMem(s.mem.maxRunning), s.disk, map[], false, NewProcess(s.hist))
    case CrashInRecovery(seen, writes) => s.(disk := RecoveredDisk(s.disk, seen, writes))
    case Boot(t, order, limit, writes) =>
      var mem := RecoveredMem(s.disk, order, Limit(limit));
      State(mem, RecoveredDisk(s.disk, Ids(order), writes), map[t := ScheduleNow], true,
            NewProcess(s.hist).(enqueued := mem.queue))
  }

  function NextCancel(s: State, t: nat, id: Id): State {
    match CancelOutcomeOf(s.mem, id)
    case Withdrawn =>
      Put(s, t, Save(id, ToReturn)).(
        mem := Cancel(s.mem, id),
        hist := if id in s.mem.queue then s.hist.(withdrawn := s.hist.withdrawn + {id}) else s.hist)
    case Signaled => Put(s, t, SignalContext(id)).(mem := Cancel(s.mem, id))
    case _ => s
  }

  function NextAdvance(s: State, t: nat, w: Write): State
    requires t in s.threads && !s.threads[t].RunBody? && !s.threads[t].SpawnRun?
  {
    match s.threads[t]
    case WriteRequest(id, req) =>
      if !Succeeds(w) then Drop(s, t)
      else Put(s, t, FillRequest(id, req)).(disk := s.disk[id := DirOf(s.disk, id).(request := Torn)])
    case FillRequest(id, req) =>
      if !Succeeds(w) then Drop(s, t)
      else if id !in s.disk then Put(s, t, Save(id, ToEnqueue))
      else Put(s, t, Save(id, ToEnqueue)).(disk := s.disk[id := s.disk[id].(request := Whole(req))])
    case Save(id, k) =>
      if id in s.mem.jobs then Put(s, t, WriteJob(id, s.mem.jobs[id], k)) else Continue(s, t, id, k)
    case WriteJob(id, job, k) =>
      if Succeeds(w) && id in s.disk
      then Put(s, t, FillJob(id, job, k)).(disk := s.disk[id := s.disk[id].(job := Torn)])
      else SaveFailed(s, t, id, k)
    case FillJob(id, job, k) =>
      var n := if Succeeds(w) then Continue(s, t, id, k) else SaveFailed(s, t, id, k);
      if w.Refused? || id !in s.disk || s.disk[id].job.Absent? then n
      else n.(disk := s.disk[id := s.disk[id].(job := if w.Done? then Whole(job) else Spoiled)])
    case EnqueueNow(id) =>
      Put(s, t, Save(id, ToSchedule)).(
        mem := Enqueue(s.mem, id),
        hist := if id in s.mem.jobs then s.hist.(enqueued := s.hist.enqueued + [id]) else s.hist)
    case ScheduleNow =>
      if CanStart(s.mem) && s.mem.queue[0] in s.mem.jobs then
        var id := s.mem.queue[0];
        Put(s, t, Save(id, ToSpawn)).(mem := StartNext(s.mem), hist := s.hist.(started := s.hist.started + [id]))
      else Drop(s, t)
    case RunGet(id) => Put(s, t, RunBody(id))
    case RunEnd(id, result, error) =>
      if id in s.mem.jobs then
        Put(s, t, Save(id, ToSchedule)).(
          mem := Finish(s.mem, id, result, error), hist := s.hist.(released := s.hist.released + [id]))
      else Drop(s, t)
    case SignalContext(id) =>
      Put(s, t, Save(id, ToReturn)).(mem := s.mem.(ctxDone := s.mem.ctxDone + {id}))
    case RemoveDir(id) =>
      if Succeeds(w) then Drop(s, t).(disk := s.disk - {id}) else Drop(s, t)
    case _ => s
  }

  /** An empty root directory, before the first daemon. */
  predicate Start(s: State) {
    && s.mem == EmptyMem(1) && s.disk == map[] && s.threads == map[] && !s.up
    && s.hist == History({}, {}, [], [], {}, [])
  }

  ghost predicate Step(s: State, n: State) {
    exists l :: Enabled(s, l) && n == Next(s, l)
  }

  // ---------------------------------------------------------------- the invariant

  /** The id this thread is still to put into the queue. */
  function PendingOf(pc: Pc): Option<Id> {
    match pc
    case WriteRequest(id, _) => Some(id)
    case FillRequest(id, _) => Some(id)
    case Save(id, k) => if k == ToEnqueue then Some(id) else None
    case WriteJob(id, _, k) => if k == ToEnqueue then Some(id) else None
    case FillJob(id, _, k) => if k == ToEnqueue then Some(id) else None
    case EnqueueNow(id) => Some(id)
    case _ => None
  }

  /** The started job this thread answers for. */
  function RunnerOf(pc: Pc): Option<Id> {
    match pc
    case Save(id, k) => if k == ToSpawn then Some(id) else None
    case WriteJob(id, _, k) => if k == ToSpawn then Some(id) else None
    case FillJob(id, _, k) => if k == ToSpawn then Some(id) else None
    case SpawnRun(id) => Some(id)
    case RunGet(id) => Some(id)
    case RunBody(id) => Some(id)
    case RunEnd(id, _, _) => Some(id)
    case _ => None
  }

  /** This thread will call schedule once more, whatever happens to its writes. */
  predicate Owes(pc: Pc) {
    match pc
    case ScheduleNow => true
    case SpawnRun(_) => true
    case Save(_, k) => k == ToSchedule || k == ToSpawn
    case WriteJob(_, _, k) => k == ToSchedule || k == ToSpawn
    case FillJob(_, _, k) => k == ToSchedule || k == ToSpawn
    case _ => false
  }

  function Names(pc: Pc): set<Id> {
    if pc.ScheduleNow? then {} else {pc.id}
  }

  ghost predicate KnownInv(s: State) {
    && s.mem.jobs.Keys + s.disk.Keys + s.hist.deleted <= s.hist.known
    && (forall t <- s.threads :: Names(s.threads[t]) <= s.hist.known)
    && (forall id <- s.hist.enqueued :: id in s.hist.known)
  }

  /** At most one thread is to enqueue an id, and until it does nobody starts the job. */
  ghost predicate PendingInv(threads: map<nat, Pc>, mem: Mem, enqueued: seq<Id>) {
    && (forall t <- threads, u <- threads | PendingOf(threads[t]).Some? ::
          PendingOf(threads[t]) == PendingOf(threads[u]) ==> t == u)
    && (forall t <- threads | PendingOf(threads[t]).Some? ::
          InWindow(mem, PendingOf(threads[t]).value) && PendingOf(threads[t]).value !in enqueued)
  }

  /** Exactly one thread answers for each occupied slot. */
  ghost predicate RunnerInv(threads: map<nat, Pc>, running: set<Id>) {
    && (forall t <- threads, u <- threads | RunnerOf(threads[t]).Some? ::
          RunnerOf(threads[t]) == RunnerOf(threads[u]) ==> t == u)
    && (forall t <- threads | RunnerOf(threads[t]).Some? :: RunnerOf(threads[t]).value in running)
    && (forall id <- running :: exists t <- threads :: RunnerOf(threads[t]) == Some(id))
  }

  ghost predicate SomeoneOwes(threads: map<nat, Pc>) {
    exists t <- threads :: Owes(threads[t])
  }

  /** No lost wakeup: a queued job that could start has a thread that will look at the queue. */
  ghost predicate WakeupInv(s: State) {
    CanStart(s.mem) ==> SomeoneOwes(s.threads)
  }

  ghost predicate FifoInv(queue: seq<Id>, running: set<Id>, hist: History) {
    && NoDup(hist.enqueued)
    && hist.started + queue == Kept(hist.enqueued, hist.withdrawn)
    && NoDup(hist.released)
    && (forall id :: id in hist.started <==> id in running || id in hist.released)
    && (forall id <- hist.released :: id !in running)
    && (forall id <- hist.withdrawn :: id in hist.enqueued)
  }

  predicate RequestSafe(disk: Disk, deleted: set<Id>, id: Id) {
    id in deleted || (id in disk && disk[id].request.Whole?)
  }

  /** A copy of a job that recovery could meet is never ahead of its request. */
  predicate CopySafe(disk: Disk, deleted: set<Id>, id: Id, job: Job) {
    OutcomeOk(job) && (Waiting(job.status) ==> RequestSafe(disk, deleted, id))
  }

  predicate NotCreated(jobs: map<Id, Job>, id: Id) {
    id in jobs ==> jobs[id].status != Created
  }

  predicate PcSafe(jobs: map<Id, Job>, disk: Disk, deleted: set<Id>, pc: Pc) {
    match pc
    case WriteRequest(id, _) => id in disk ==> !disk[id].request.Whole?
    case FillRequest(id, _) => if id in disk then !disk[id].request.Whole? else id in deleted
    case Save(id, k) => if k == ToEnqueue then RequestSafe(disk, deleted, id) else NotCreated(jobs, id)
    case WriteJob(id, job, k) => CopySafe(disk, deleted, id, job) && (k == ToEnqueue ==> RequestSafe(disk, deleted, id))
    case FillJob(id, job, k) => CopySafe(disk, deleted, id, job) && (k == ToEnqueue ==> RequestSafe(disk, deleted, id))
    case EnqueueNow(id) => RequestSafe(disk, deleted, id)
    case SignalContext(id) => NotCreated(jobs, id)
    case RemoveDir(id) => id in deleted
    case _ => true
  }

  ghost predicate DiskInv(disk: Disk, deleted: set<Id>) {
    forall id <- disk :: disk[id].job.Whole? ==> CopySafe(disk, deleted, id, disk[id].job.value)
  }

  ghost predicate QueuedSafe(jobs: map<Id, Job>, disk: Disk, deleted: set<Id>) {
    forall id <- jobs :: jobs[id].status == Queued ==> RequestSafe(disk, deleted, id)
  }

  ghost predicate PoolSafe(threads: map<nat, Pc>, jobs: map<Id, Job>, disk: Disk, deleted: set<Id>) {
    forall t <- threads :: PcSafe(jobs, disk, deleted, threads[t])
  }

  ghost predicate Inv(s: State) {
    && MemInv(s.mem)
    && KnownInv(s)
    && PendingInv(s.threads, s.mem, s.hist.enqueued)
    && RunnerInv(s.threads, s.mem.running)
    && WakeupInv(s)
    && FifoInv(s.mem.queue, s.mem.running, s.hist)
    && DiskInv(s.disk, s.hist.deleted)
    && QueuedSafe(s.mem.jobs, s.disk, s.hist.deleted)
    && PoolSafe(s.threads, s.mem.jobs, s.disk, s.hist.deleted)
    && (!s.up ==> s.mem == EmptyMem(s.mem.maxRunning) && s.threads == map[] && s.hist == NewProcess(s.hist))
  }

  // ---------------------------------------------------------------- one thread moves

  lemma PendingMove(threads: map<nat, Pc>, mem: Mem, enqueued: seq<Id>, t: nat, pc: Pc)
    requires PendingInv(threads, mem, enqueued)
    requires PendingOf(pc) == None || (t in threads && PendingOf(pc) == PendingOf(threads[t]))
    ensures PendingInv(threads[t := pc], mem, enqueued)
  {
  }

  lemma RunnerMove(threads: map<nat, Pc>, running: set<Id>, t: nat, pc: Pc)
    requires RunnerInv(threads, running)
    requires RunnerOf(pc) == if t in threads then RunnerOf(threads[t]) else None
    ensures RunnerInv(threads[t := pc], running)
  {
    var after := threads[t := pc];
    forall id | id in running ensures exists u <- after :: RunnerOf(after[u]) == Some(id) {
      var u :| u in threads && RunnerOf(threads[u]) == Some(id);
      assert u in after;
    }
  }

  lemma PendingDrop(threads: map<nat, Pc>, mem: Mem, enqueued: seq<Id>, t: nat)
    requires PendingInv(threads, mem, enqueued)
    ensures PendingInv(threads - {t}, mem, enqueued)
  {
  }

  lemma RunnerDrop(threads: map<nat, Pc>, running: set<Id>, t: nat)
    requires RunnerInv(threads, running) && t in threads && RunnerOf(threads[t]) == None
    ensures RunnerInv(threads - {t}, running)
  {
    var after := threads - {t};
    forall id | id in running ensures exists u <- after :: RunnerOf(after[u]) == Some(id) {
      var u :| u in threads && RunnerOf(threads[u]) == Some(id);
      assert u in after;
    }
  }

  lemma OwesMove(threads: map<nat, Pc>, t: nat, pc: Pc)
    requires SomeoneOwes(threads)
    requires t in threads && Owes(threads[t]) ==> Owes(pc)
    ensures SomeoneOwes(threads[t := pc])
  {
    var u :| u in threads && Owes(threads[u]);
    assert u in threads[t := pc];
  }

  lemma OwesDrop(threads: map<nat, Pc>, t: nat)
    requires SomeoneOwes(threads) && t in threads && !Owes(threads[t])
    ensures SomeoneOwes(threads - {t})
  {
    var u :| u in threads && Owes(threads[u]);
    assert u in threads - {t};
  }

  /** Nothing the disk promised about requests is lost. */
  ghost predicate DiskKeeps(disk: Disk, after: Disk, deleted: set<Id>) {
    && (forall id :: RequestSafe(disk, deleted, id) ==> RequestSafe(after, deleted, id))
    && (forall id <- disk :: id in after || id in deleted)
  }

  /** Only the request of `mine` may have been completed. */
  ghost predicate CompletesOnly(disk: Disk, after: Disk, mine: Option<Id>) {
    forall id <- after | after[id].request.Whole? && Some(id) != mine :: id in disk && disk[id].request.Whole?
  }

  lemma PoolSafeDisk(threads: map<nat, Pc>, jobs: map<Id, Job>, disk: Disk, after: Disk, deleted: set<Id>, t: nat)
    requires PoolSafe(threads, jobs, disk, deleted) && DiskKeeps(disk, after, deleted)
    requires t in threads && CompletesOnly(disk, after, PendingOf(threads[t]))
    requires forall u <- threads | PendingOf(threads[t]).Some? :: PendingOf(threads[u]) == PendingOf(threads[t]) ==> u == t
    ensures PoolSafe(threads - {t}, jobs, after, deleted)
  {
    forall u | u in threads - {t} ensures PcSafe(jobs, after, deleted, threads[u]) {
      assert PcSafe(jobs, disk, deleted, threads[u]);
    }
  }

  lemma QueuedSafeDisk(s: State, disk: Disk)
    requires QueuedSafe(s.mem.jobs, s.disk, s.hist.deleted) && DiskKeeps(s.disk, disk, s.hist.deleted)
    ensures QueuedSafe(s.mem.jobs, disk, s.hist.deleted)
  {
  }

  lemma PoolSafePut(threads: map<nat, Pc>, jobs: map<Id, Job>, disk: Disk, deleted: set<Id>, t: nat, pc: Pc)
    requires PoolSafe(threads - {t}, jobs, disk, deleted) && PcSafe(jobs, disk, deleted, pc)
    ensures PoolSafe(threads[t := pc], jobs, disk, deleted)
  {
    var after := threads[t := pc];
    forall u | u in after ensures PcSafe(jobs, disk, deleted, after[u]) {
      if u != t { assert u in threads - {t}; }
    }
  }

  lemma KnownMove(s: State, threads: map<nat, Pc>, disk: Disk)
    requires KnownInv(s) && disk.Keys <= s.hist.known
    requires forall t <- threads :: Names(threads[t]) <= s.hist.known
    ensures KnownInv(s.(threads := threads, disk := disk))
  {
  }

  /** A step of thread `t` that changes nothing but its program counter and the disk. */
  lemma Move(s: State, t: nat, pc: Pc, disk: Disk)
    requires Inv(s) && s.up && t in s.threads
    requires PendingOf(pc) == None || PendingOf(pc) == PendingOf(s.threads[t])
    requires RunnerOf(pc) == RunnerOf(s.threads[t])
    requires Owes(s.threads[t]) ==> Owes(pc)
    requires DiskKeeps(s.disk, disk, s.hist.deleted) && CompletesOnly(s.disk, disk, PendingOf(s.threads[t]))
    requires DiskInv(disk, s.hist.deleted) && PcSafe(s.mem.jobs, disk, s.hist.deleted, pc)
    requires disk.Keys + Names(pc) <= s.hist.known
    ensures var n := s.(threads := s.threads[t := pc], disk := disk); Inv(n)
  {
    var threads := s.threads[t := pc];
    var n := s.(threads := threads, disk := disk);
    assert KnownInv(n) by { KnownMove(s, threads, disk); }
    assert PendingInv(threads, s.mem, s.hist.enqueued) by { PendingMove(s.threads, s.mem, s.hist.enqueued, t, pc); }
    assert RunnerInv(threads, s.mem.running) by { RunnerMove(s.threads, s.mem.running, t, pc); }
    assert CanStart(s.mem) ==> SomeoneOwes(threads) by { if CanStart(s.mem) { OwesMove(s.threads, t, pc); } }
    assert PoolSafe(threads, s.mem.jobs, disk, s.hist.deleted) by {
      PoolSafeDisk(s.threads, s.mem.jobs, s.disk, disk, s.hist.deleted, t);
      PoolSafePut(s.threads, s.mem.jobs, disk, s.hist.deleted, t, pc);
    }
    assert QueuedSafe(s.mem.jobs, disk, s.hist.deleted) by { QueuedSafeDisk(s, disk); }
  }

  /** A step that ends thread `t`. */
  lemma End(s: State, t: nat, disk: Disk)
    requires Inv(s) && s.up && t in s.threads
    requires RunnerOf(s.threads[t]) == None
    requires Owes(s.threads[t]) ==> !CanStart(s.mem)
    requires DiskKeeps(s.disk, disk, s.hist.deleted) && CompletesOnly(s.disk, disk, None)
    requires DiskInv(disk, s.hist.deleted) && disk.Keys <= s.hist.known
    ensures Inv(s.(threads := s.threads - {t}, disk := disk))
  {
    PendingDrop(s.threads, s.mem, s.hist.enqueued, t);
    RunnerDrop(s.threads, s.mem.running, t);
    if CanStart(s.mem) { OwesDrop(s.threads, t); }
    PoolSafeDisk(s.threads, s.mem.jobs, s.disk, disk, s.hist.deleted, t);
    QueuedSafeDisk(s, disk);
  }

  /** What the invariant says about one thread. */
  lemma ThreadFacts(s: State, t: nat)
    requires Inv(s) && t in s.threads
    ensures PcSafe(s.mem.jobs, s.disk, s.hist.deleted, s.threads[t])
    ensures Names(s.threads[t]) <= s.hist.known && s.disk.Keys <= s.hist.known
    ensures RunnerOf(s.threads[t]).Some? ==> RunnerOf(s.threads[t]).value in s.mem.running
  {
    hide MemInv, PendingInv, WakeupInv, FifoInv, DiskInv, QueuedSafe, PcSafe;
  }

  // ---------------------------------------------------------------- the file-writing steps

  lemma ContinueKeeps(s: State, t: nat, id: Id, k: Cont, disk: Disk)
    requires Inv(s) && s.up && t in s.threads
    requires s.threads[t].Save? || s.threads[t].WriteJob? || s.threads[t].FillJob?
    requires s.threads[t].id == id && s.threads[t].k == k
    requires DiskKeeps(s.disk, disk, s.hist.deleted) && CompletesOnly(s.disk, disk, None)
    requires DiskInv(disk, s.hist.deleted) && disk.Keys <= s.hist.known
    ensures Inv(Continue(s, t, id, k).(disk := disk))
    ensures Inv(SaveFailed(s, t, id, k).(disk := disk))
  {
    hide Inv, DiskInv, DiskKeeps;
    ThreadFacts(s, t);
    CompletesNone(s.disk, disk, PendingOf(s.threads[t]));
    match k
    case ToEnqueue =>
      assert PcSafe(s.mem.jobs, disk, s.hist.deleted, EnqueueNow(id)) by { KeptSafe(s.disk, disk, s.hist.deleted, id); }
      Move(s, t, EnqueueNow(id), disk);
      End(s, t, disk);
    case ToSchedule => Move(s, t, ScheduleNow, disk);
    case ToSpawn => Move(s, t, SpawnRun(id), disk);
    case ToReturn => End(s, t, disk);
  }

  lemma KeptSafe(disk: Disk, after: Disk, deleted: set<Id>, id: Id)
    requires DiskKeeps(disk, after, deleted) && RequestSafe(disk, deleted, id)
    ensures RequestSafe(after, deleted, id)
  {
  }

  lemma CompletesNone(disk: Disk, after: Disk, mine: Option<Id>)
    requires CompletesOnly(disk, after, None)
    ensures CompletesOnly(disk, after, mine)
  {
  }

  /** A disk on which one file of the directory `id` was written. */
  lemma DiskWritten(s: State, id: Id, dir: Dir, mine: Option<Id>)
    requires Inv(s) && id in s.hist.known
    requires DirOf(s.disk, id).request.Whole? ==> dir.request.Whole?
    requires dir.request.Whole? && mine != Some(id) ==> DirOf(s.disk, id).request.Whole?
    requires dir.job.Whole? ==>
               OutcomeOk(dir.job.value)
               && (Waiting(dir.job.value.status) ==> dir.request.Whole? || id in s.hist.deleted)
    ensures var disk := s.disk[id := dir];
            && DiskKeeps(s.disk, disk, s.hist.deleted) && CompletesOnly(s.disk, disk, mine)
            && DiskInv(disk, s.hist.deleted) && disk.Keys <= s.hist.known
  {
    hide MemInv, PendingInv, RunnerInv, WakeupInv, FifoInv, QueuedSafe, PoolSafe, OutcomeOk;
  }

  lemma DiskSame(s: State, mine: Option<Id>)
    requires Inv(s)
    ensures DiskKeeps(s.disk, s.disk, s.hist.deleted) && CompletesOnly(s.disk, s.disk, mine)
    ensures DiskInv(s.disk, s.hist.deleted) && s.disk.Keys <= s.hist.known
  {
    hide MemInv, PendingInv, RunnerInv, WakeupInv, FifoInv, QueuedSafe, PoolSafe, DiskInv;
  }

  lemma RequestWriteKeeps(s: State, t: nat, w: Write)
    requires Inv(s) && s.up && t in s.threads && (s.threads[t].WriteRequest? || s.threads[t].FillRequest?)
    ensures Inv(NextAdvance(s, t, w))
  {
    hide Inv, DiskInv, DiskKeeps, CompletesOnly;
    var pc, id := s.threads[t], s.threads[t].id;
    ThreadFacts(s, t);
    DiskSame(s, Some(id));
    DiskSame(s, None);
    if !Succeeds(w) {
      End(s, t, s.disk);
    } else if pc.WriteRequest? {
      var dir := DirOf(s.disk, id).(request := Torn);
      JobOnDisk(s, id);
      DiskWritten(s, id, dir, Some(id));
      Move(s, t, FillRequest(id, pc.req), s.disk[id := dir]);
    } else if id in s.disk {
      var dir := s.disk[id].(request := Whole(pc.req));
      JobOnDisk(s, id);
      DiskWritten(s, id, dir, Some(id));
      Move(s, t, Save(id, ToEnqueue), s.disk[id := dir]);
    } else {
      Move(s, t, Save(id, ToEnqueue), s.disk);
    }
  }

  lemma JobOnDisk(s: State, id: Id)
    requires Inv(s)
    ensures DirOf(s.disk, id).job.Whole? ==> CopySafe(s.disk, s.hist.deleted, id, DirOf(s.disk, id).job.value)
  {
    hide MemInv, KnownInv, PendingInv, RunnerInv, WakeupInv, FifoInv, QueuedSafe, PoolSafe, CopySafe;
  }

  lemma SaveKeeps(s: State, t: nat, w: Write)
    requires Inv(s) && s.up && t in s.threads && s.threads[t].Save?
    ensures Inv(NextAdvance(s, t, w))
  {
    hide Inv, DiskInv, DiskKeeps, CompletesOnly, OutcomeOk;
    var pc := s.threads[t];
    ThreadFacts(s, t);
    DiskSame(s, PendingOf(pc));
    DiskSame(s, None);
    if pc.id in s.mem.jobs {
      JobSafe(s, pc.id);
      Move(s, t, WriteJob(pc.id, s.mem.jobs[pc.id], pc.k), s.disk);
    } else {
      ContinueKeeps(s, t, pc.id, pc.k, s.disk);
      ContinueSameDisk(s, t, pc.id, pc.k);
    }
  }

  lemma ContinueSameDisk(s: State, t: nat, id: Id, k: Cont)
    ensures Continue(s, t, id, k).(disk := s.disk) == Continue(s, t, id, k)
    ensures SaveFailed(s, t, id, k).(disk := s.disk) == SaveFailed(s, t, id, k)
  {
  }

  /** A copy of the job may be written now, unless it is still to be put into the queue. */
  lemma JobSafe(s: State, id: Id)
    requires Inv(s) && id in s.mem.jobs
    ensures OutcomeOk(s.mem.jobs[id])
    ensures Waiting(s.mem.jobs[id].status) && s.mem.jobs[id].status != Created ==> RequestSafe(s.disk, s.hist.deleted, id)
  {
    hide KnownInv, PendingInv, RunnerInv, WakeupInv, FifoInv, PoolSafe, DiskInv, OutcomeOk, RequestSafe;
  }

  lemma JobWriteKeeps(s: State, t: nat, w: Write)
    requires Inv(s) && s.up && t in s.threads && (s.threads[t].WriteJob? || s.threads[t].FillJob?)
    ensures Inv(NextAdvance(s, t, w))
  {
    hide Inv, DiskInv, DiskKeeps, CompletesOnly, OutcomeOk, Continue, SaveFailed;
    var pc, id := s.threads[t], s.threads[t].id;
    ThreadFacts(s, t);
    DiskSame(s, None);
    ContinueSameDisk(s, t, id, pc.k);
    if pc.WriteJob? {
      if Succeeds(w) && id in s.disk {
        var dir := s.disk[id].(job := Torn);
        DiskWritten(s, id, dir, PendingOf(pc));
        Move(s, t, FillJob(id, pc.job, pc.k), s.disk[id := dir]);
      } else {
        ContinueKeeps(s, t, id, pc.k, s.disk);
      }
    } else if w.Refused? || id !in s.disk || s.disk[id].job.Absent? {
      ContinueKeeps(s, t, id, pc.k, s.disk);
    } else {
      var dir := s.disk[id].(job := if w.Done? then Whole(pc.job) else Spoiled);
      DiskWritten(s, id, dir, None);
      ContinueKeeps(s, t, id, pc.k, s.disk[id := dir]);
    }
  }

  lemma RemoveDirKeeps(s: State, t: nat, w: Write)
    requires Inv(s) && s.up && t in s.threads && s.threads[t].RemoveDir?
    ensures Inv(NextAdvance(s, t, w))
  {
    hide MemInv, PendingInv, RunnerInv, WakeupInv, FifoInv, QueuedSafe, PoolSafe, OutcomeOk;
    ThreadFacts(s, t);
    End(s, t, if Succeeds(w) then s.disk - {s.threads[t].id} else s.disk);
  }

  // ---------------------------------------------------------------- the steps that change memory

  ghost predicate SameElsewhere(mem: Mem, after: Mem, id: Id) {
    forall x | x != id ::
      && (x in mem.jobs <==> x in after.jobs) && (x in mem.jobs ==> mem.jobs[x] == after.jobs[x])
      && (x in mem.requests <==> x in after.requests)
  }

  ghost predicate OthersPend(threads: map<nat, Pc>, t: nat, id: Id) {
    exists u <- threads :: u != t && PendingOf(threads[u]) == Some(id)
  }

  lemma PendingAct(threads: map<nat, Pc>, mem: Mem, after: Mem, enqueued: seq<Id>, more: seq<Id>, t: nat, id: Id, pc: Pc)
    requires PendingInv(threads, mem, enqueued) && SameElsewhere(mem, after, id) && PendingOf(pc) == None
    requires OthersPend(threads, t, id) ==> InWindow(after, id) && more == enqueued
    requires more == enqueued || more == enqueued + [id]
    ensures PendingInv(threads[t := pc], after, more)
  {
    var next := threads[t := pc];
    forall u | u in next && PendingOf(next[u]).Some?
      ensures InWindow(after, PendingOf(next[u]).value) && PendingOf(next[u]).value !in more
    {
      assert u in threads;
    }
  }

  lemma PoolSafeAct(threads: map<nat, Pc>, jobs: map<Id, Job>, after: map<Id, Job>, disk: Disk, deleted: set<Id>,
                    t: nat, id: Id, pc: Pc)
    requires PoolSafe(threads, jobs, disk, deleted) && PcSafe(after, disk, deleted, pc)
    requires forall x | x != id :: (x in after ==> x in jobs && jobs[x] == after[x])
    requires NotCreated(jobs, id) ==> NotCreated(after, id)
    ensures PoolSafe(threads[t := pc], after, disk, deleted)
  {
    var next := threads[t := pc];
    forall u | u in next ensures PcSafe(after, disk, deleted, next[u]) {
      if u != t { assert PcSafe(jobs, disk, deleted, threads[u]); }
    }
  }

  /** The history after a section that touched the job `id`. */
  ghost predicate HistoryStep(h: History, after: History, id: Id) {
    && after.known == h.known && after.deleted == h.deleted
    && (after.enqueued == h.enqueued || after.enqueued == h.enqueued + [id])
  }

  lemma KnownAct(s: State, t: nat, id: Id, pc: Pc, mem: Mem, hist: History)
    requires KnownInv(s) && SameElsewhere(s.mem, mem, id) && HistoryStep(s.hist, hist, id)
    requires {id} + Names(pc) <= s.hist.known
    ensures KnownInv(s.(threads := s.threads[t := pc], mem := mem, hist := hist))
  {
  }

  /** A section run by thread `t` that changes the job `id` and perhaps the queue and the slots. */
  lemma Act(s: State, t: nat, id: Id, pc: Pc, mem: Mem, hist: History)
    requires Inv(s) && s.up
    requires MemInv(mem) && SameElsewhere(s.mem, mem, id) && HistoryStep(s.hist, hist, id)
    requires {id} + Names(pc) <= s.hist.known && PendingOf(pc) == None
    requires OthersPend(s.threads, t, id) ==> InWindow(mem, id) && hist.enqueued == s.hist.enqueued
    requires RunnerInv(s.threads[t := pc], mem.running)
    requires Owes(pc) || (CanStart(mem) ==> CanStart(s.mem) && (t in s.threads ==> !Owes(s.threads[t])))
    requires FifoInv(mem.queue, mem.running, hist)
    requires id in mem.jobs && mem.jobs[id].status == Queued ==> RequestSafe(s.disk, s.hist.deleted, id)
    requires NotCreated(s.mem.jobs, id) ==> NotCreated(mem.jobs, id)
    requires PcSafe(mem.jobs, s.disk, s.hist.deleted, pc)
    ensures var n := s.(threads := s.threads[t := pc], mem := mem, hist := hist); Inv(n)
  {
    var threads := s.threads[t := pc];
    var n := s.(threads := threads, mem := mem, hist := hist);
    assert KnownInv(n) by { KnownAct(s, t, id, pc, mem, hist); }
    assert PendingInv(threads, mem, hist.enqueued) by {
      PendingAct(s.threads, s.mem, mem, s.hist.enqueued, hist.enqueued, t, id, pc);
    }
    assert WakeupInv(n) by {
      if Owes(pc) { assert t in threads && Owes(threads[t]); }
      else if CanStart(mem) { OwesMove(s.threads, t, pc); }
    }
    assert QueuedSafe(mem.jobs, s.disk, s.hist.deleted);
    assert PoolSafe(threads, mem.jobs, s.disk, s.hist.deleted) by {
      PoolSafeAct(s.threads, s.mem.jobs, mem.jobs, s.disk, s.hist.deleted, t, id, pc);
    }
  }

  lemma EnqueueKeeps(s: State, t: nat, w: Write)
    requires Inv(s) && s.up && t in s.threads && s.threads[t].EnqueueNow?
    ensures Inv(NextAdvance(s, t, w))
  {
    var id, pc, n := s.threads[t].id, Save(s.threads[t].id, ToSchedule), NextAdvance(s, t, w);
    assert PendingOf(s.threads[t]) == Some(id);
    assert PcSafe(s.mem.jobs, s.disk, s.hist.deleted, s.threads[t]) && Names(s.threads[t]) <= s.hist.known;
    assert MemInv(n.mem) by { EnqueueKeepsInv(s.mem, id); }
    assert RunnerInv(n.threads, n.mem.running) by { RunnerMove(s.threads, s.mem.running, t, pc); }
    assert FifoInv(n.mem.queue, n.mem.running, n.hist) by { FifoEnqueues(s.mem, s.hist, id); }
    Act(s, t, id, pc, n.mem, n.hist);
  }

  lemma FifoEnqueues(mem: Mem, hist: History, id: Id)
    requires FifoInv(mem.queue, mem.running, hist) && id !in hist.enqueued
    ensures id in mem.jobs ==>
              FifoInv(Enqueue(mem, id).queue, mem.running, hist.(enqueued := hist.enqueued + [id]))
  {
    KeptAppend(hist.enqueued, id, hist.withdrawn);
    assert hist.started + (mem.queue + [id]) == hist.started + mem.queue + [id];
  }

  lemma RunnerStarts(threads: map<nat, Pc>, running: set<Id>, t: nat, pc: Pc, id: Id)
    requires RunnerInv(threads, running) && (t in threads ==> RunnerOf(threads[t]) == None)
    requires id !in running && RunnerOf(pc) == Some(id)
    ensures RunnerInv(threads[t := pc], running + {id})
  {
    var after := threads[t := pc];
    forall x | x in running + {id} ensures exists u <- after :: RunnerOf(after[u]) == Some(x) {
      if x == id { assert t in after; } else {
        var u :| u in threads && RunnerOf(threads[u]) == Some(x);
        assert u in after;
      }
    }
  }

  lemma RunnerStops(threads: map<nat, Pc>, running: set<Id>, t: nat, pc: Pc, id: Id)
    requires RunnerInv(threads, running) && t in threads && RunnerOf(threads[t]) == Some(id)
    requires RunnerOf(pc) == None
    ensures RunnerInv(threads[t := pc], running - {id})
  {
    var after := threads[t := pc];
    forall x | x in running - {id} ensures exists u <- after :: RunnerOf(after[u]) == Some(x) {
      var u :| u in threads && RunnerOf(threads[u]) == Some(x);
      assert u in after;
    }
  }

  /** The start of the next queued job. */
  lemma FifoStarts(queue: seq<Id>, running: set<Id>, hist: History)
    requires FifoInv(queue, running, hist) && queue != [] && queue[0] !in running
    ensures FifoInv(queue[1..], running + {queue[0]}, hist.(started := hist.started + [queue[0]]))
  {
    hide NoDup;
    var id := queue[0];
    assert hist.started + queue == hist.started + [id] + queue[1..];
    assert id !in hist.released by { HeadNotStarted(queue, running, hist); }
  }

  lemma HeadNotStarted(queue: seq<Id>, running: set<Id>, hist: History)
    requires FifoInv(queue, running, hist) && queue != []
    ensures queue[0] !in hist.started
  {
    hide Kept;
    KeptNoDup(hist.enqueued, hist.withdrawn);
    assert (hist.started + queue)[|hist.started|] == queue[0];
    forall k | 0 <= k < |hist.started| ensures hist.started[k] != queue[0] {
      assert (hist.started + queue)[k] == hist.started[k];
    }
  }

  lemma {:induction false} KeptNoDup(ids: seq<Id>, out: set<Id>)
    requires NoDup(ids)
    ensures NoDup(Kept(ids, out))
    ensures forall id :: id in Kept(ids, out) <==> id in ids && id !in out
  {
    if ids != [] {
      KeptNoDup(ids[..|ids| - 1], out);
      assert ids == ids[..|ids| - 1] + [ids[|ids| - 1]];
    }
  }

  /** What the invariant says about the head of the queue. */
  lemma HeadFacts(s: State, t: nat)
    requires Inv(s) && CanStart(s.mem)
    ensures s.mem.queue[0] in s.mem.jobs && s.mem.queue[0] in s.hist.known && !OthersPend(s.threads, t, s.mem.queue[0])
    ensures s.mem.jobs[s.mem.queue[0]].status == Queued
  {
    hide RunnerInv, WakeupInv, FifoInv, DiskInv, QueuedSafe, PoolSafe;
    assert s.mem.queue[0] in s.mem.queue;
  }

  lemma StartChangesOne(mem: Mem)
    requires CanStart(mem) && mem.queue[0] in mem.jobs
    ensures SameElsewhere(mem, StartNext(mem), mem.queue[0])
  {
  }

  lemma ScheduleKeeps(s: State, t: nat, w: Write)
    requires Inv(s) && s.up && t in s.threads && s.threads[t].ScheduleNow?
    ensures Inv(NextAdvance(s, t, w))
  {
    hide MemInv, KnownInv, PendingInv, RunnerInv, WakeupInv, FifoInv, DiskInv, QueuedSafe, PoolSafe, SameElsewhere;
    if !CanStart(s.mem) {
      DiskSame(s, None);
      End(s, t, s.disk);
      return;
    }
    StartKeepsInv(s.mem);
    HeadFacts(s, t);
    StartChangesOne(s.mem);
    var id, pc, n := s.mem.queue[0], Save(s.mem.queue[0], ToSpawn), NextAdvance(s, t, w);
    RunnerStarts(s.threads, s.mem.running, t, pc, id);
    FifoStarts(s.mem.queue, s.mem.running, s.hist);
    Act(s, t, id, pc, n.mem, n.hist);
  }

  /** What the invariant says about a started job. */
  lemma RunnerFacts(s: State, t: nat, u: nat)
    requires Inv(s) && u in s.threads && RunnerOf(s.threads[u]).Some?
    ensures var id := RunnerOf(s.threads[u]).value;
            id in s.mem.jobs && id in s.hist.known && Active(s.mem.jobs[id].status) && !OthersPend(s.threads, t, id)
  {
    hide WakeupInv, FifoInv, DiskInv, QueuedSafe, PoolSafe;
  }

  lemma FinishChangesOne(mem: Mem, id: Id, result: RunResult, error: Option<AppError>)
    requires id in mem.jobs
    ensures SameElsewhere(mem, Finish(mem, id, result, error), id)
    ensures id in Finish(mem, id, result, error).jobs && Terminal(Finish(mem, id, result, error).jobs[id].status)
  {
  }

  lemma RunEndKeeps(s: State, t: nat, w: Write)
    requires Inv(s) && s.up && t in s.threads && s.threads[t].RunEnd?
    ensures s.threads[t].id in s.mem.jobs
    ensures Inv(NextAdvance(s, t, w))
  {
    hide MemInv, KnownInv, PendingInv, RunnerInv, WakeupInv, FifoInv, DiskInv, QueuedSafe, PoolSafe,
         SameElsewhere, Finish, OthersPend;
    var end, id := s.threads[t], s.threads[t].id;
    var pc, n := Save(id, ToSchedule), NextAdvance(s, t, w);
    ThreadFacts(s, t);
    RunnerFacts(s, t, t);
    FinishKeepsInv(s.mem, id, end.result, end.error);
    FinishChangesOne(s.mem, id, end.result, end.error);
    FinishSlots(s.mem, id, end.result, end.error);
    RunnerStops(s.threads, s.mem.running, t, pc, id);
    FifoReleases(s.mem.queue, s.mem.running, s.hist, id);
    Act(s, t, id, pc, n.mem, n.hist);
  }

  lemma FinishSlots(mem: Mem, id: Id, result: RunResult, error: Option<AppError>)
    requires id in mem.jobs
    ensures var m := Finish(mem, id, result, error);
            m.queue == mem.queue && m.running == mem.running - {id} && m.maxRunning == mem.maxRunning
  {
  }

  // ---------------------------------------------------------------- the calls

  lemma PendingCreates(threads: map<nat, Pc>, mem: Mem, enqueued: seq<Id>, known: set<Id>, t: nat, id: Id, req: Request)
    requires PendingInv(threads, mem, enqueued) && t !in threads && id !in known && id !in enqueued
    requires forall u <- threads :: Names(threads[u]) <= known
    ensures PendingInv(threads[t := WriteRequest(id, req)], Insert(mem, id, req), enqueued)
  {
    forall u | u in threads ensures PendingOf(threads[u]) != Some(id) { assert Names(threads[u]) <= known; }
  }

  lemma PoolSafeCreates(s: State, t: nat, id: Id, req: Request)
    requires Inv(s) && id !in s.hist.known
    ensures PoolSafe(s.threads[t := WriteRequest(id, req)], Insert(s.mem, id, req).jobs, s.disk, s.hist.deleted)
  {
    forall u | u in s.threads ensures PcSafe(Insert(s.mem, id, req).jobs, s.disk, s.hist.deleted, s.threads[u]) {
      assert PcSafe(s.mem.jobs, s.disk, s.hist.deleted, s.threads[u]) && Names(s.threads[u]) <= s.hist.known;
    }
  }

  lemma KnownCreates(s: State, t: nat, id: Id, req: Request)
    requires KnownInv(s) && Enabled(s, CallCreate(t, id, req))
    ensures KnownInv(Next(s, CallCreate(t, id, req)))
  {
  }

  lemma CreateKeeps(s: State, t: nat, id: Id, req: Request)
    requires Inv(s) && Enabled(s, CallCreate(t, id, req))
    ensures Inv(Next(s, CallCreate(t, id, req)))
  {
    hide MemInv, PendingInv, RunnerInv, FifoInv, DiskInv, PoolSafe, RequestSafe;
    var pc, n := WriteRequest(id, req), Next(s, CallCreate(t, id, req));
    assert id !in s.mem.jobs;
    InsertKeepsInv(s.mem, id, req);
    KnownCreates(s, t, id, req);
    assert id !in s.hist.enqueued;
    PendingCreates(s.threads, s.mem, s.hist.enqueued, s.hist.known, t, id, req);
    RunnerMove(s.threads, s.mem.running, t, pc);
    FifoForgets(s.mem.queue, s.mem.running, s.hist, n.hist);
    assert WakeupInv(n) by { if CanStart(s.mem) { OwesMove(s.threads, t, pc); } }
    PoolSafeCreates(s, t, id, req);
    assert QueuedSafe(n.mem.jobs, n.disk, n.hist.deleted);
  }

  /** A queued id was not started. */
  lemma QueuedNotStarted(queue: seq<Id>, running: set<Id>, hist: History, id: Id)
    requires FifoInv(queue, running, hist) && id in queue
    ensures id !in hist.started && id in hist.enqueued
  {
    KeptNoDup(hist.enqueued, hist.withdrawn);
    hide Kept;
    var all, n := hist.started + queue, |hist.started|;
    var k :| 0 <= k < |queue| && queue[k] == id;
    assert all[n + k] == id && all[n + k] in all;
    forall i | 0 <= i < n ensures hist.started[i] != id { assert all[i] == hist.started[i]; }
  }

  lemma FifoWithdraws(queue: seq<Id>, running: set<Id>, hist: History, id: Id)
    requires FifoInv(queue, running, hist) && id in queue
    ensures FifoInv(Without(queue, id), running, hist.(withdrawn := hist.withdrawn + {id}))
  {
    QueuedNotStarted(queue, running, hist, id);
    KeptOneLess(hist.enqueued, hist.withdrawn, id);
    WithoutConcat(hist.started, queue, id);
    WithoutAbsent(hist.started, id);
    hide Without, Kept, NoDup;
  }

  lemma {:induction false} WithoutAbsent(ids: seq<Id>, id: Id)
    requires id !in ids
    ensures Without(ids, id) == ids
  {
    if ids != [] { WithoutAbsent(ids[1..], id); }
  }

  lemma {:induction false} WithoutConcat(a: seq<Id>, b: seq<Id>, id: Id)
    ensures Without(a + b, id) == Without(a, id) + Without(b, id)
  {
    if a == [] { assert a + b == b; } else {
      assert (a + b)[1..] == a[1..] + b;
      WithoutConcat(a[1..], b, id);
    }
  }

  lemma WithoutOne(x: Id, id: Id)
    ensures Without([x], id) == if x == id then [] else [x]
  {
    assert [x][1..] == [] && Without([], id) == [];
  }

  lemma KeptLast(ids: seq<Id>, out: set<Id>)
    requires ids != []
    ensures var rest, last := Kept(ids[..|ids| - 1], out), ids[|ids| - 1];
            Kept(ids, out) == if last in out then rest else rest + [last]
  {
  }

  lemma {:induction false} KeptOneLess(ids: seq<Id>, out: set<Id>, id: Id)
    ensures Kept(ids, out + {id}) == Without(Kept(ids, out), id)
  {
    if ids != [] {
      hide Kept, Without;
      var rest, last := ids[..|ids| - 1], ids[|ids| - 1];
      KeptOneLess(rest, out, id);
      KeptLast(ids, out);
      KeptLast(ids, out + {id});
      WithoutConcat(Kept(rest, out), [last], id);
      WithoutOne(last, id);
    }
  }

  lemma FifoReleases(queue: seq<Id>, running: set<Id>, hist: History, id: Id)
    requires FifoInv(queue, running, hist) && id in running
    ensures FifoInv(queue, running - {id}, hist.(released := hist.released + [id]))
  {
  }

  lemma CancelChangesOne(mem: Mem, id: Id)
    requires id in mem.jobs
    ensures SameElsewhere(mem, Cancel(mem, id), id) && id in Cancel(mem, id).jobs
    ensures Cancel(mem, id).running == mem.running && Cancel(mem, id).maxRunning == mem.maxRunning
    ensures Cancel(mem, id).closed == mem.closed
    ensures CancelOutcomeOf(mem, id) == Withdrawn ==>
              Cancel(mem, id).jobs[id].status == Canceled && Cancel(mem, id).queue == Without(mem.queue, id)
              && Cancel(mem, id).requests == mem.requests
    ensures CancelOutcomeOf(mem, id) == Signaled ==>
              Cancel(mem, id).jobs[id].status == Canceling && Cancel(mem, id).queue == mem.queue
  {
    hide Without;
  }

  lemma JobKnown(s: State, id: Id)
    requires Inv(s) && id in s.mem.jobs
    ensures id in s.hist.known
  {
    hide MemInv, PendingInv, RunnerInv, WakeupInv, FifoInv, DiskInv, QueuedSafe, PoolSafe;
  }

  /** A waiting job that a thread is still to enqueue stays in its window when it is canceled. */
  lemma WindowCanceled(s: State, t: nat, id: Id)
    requires Inv(s) && id in s.mem.jobs && CancelOutcomeOf(s.mem, id) == Withdrawn
    ensures OthersPend(s.threads, t, id) ==> InWindow(Cancel(s.mem, id), id) && id !in s.mem.queue
  {
    hide KnownInv, RunnerInv, WakeupInv, FifoInv, DiskInv, QueuedSafe, PoolSafe, Without;
  }

  lemma FewerCannotStart(mem: Mem, id: Id)
    requires CancelOutcomeOf(mem, id) == Withdrawn
    ensures CanStart(Cancel(mem, id)) ==> CanStart(mem)
  {
    if mem.queue == [] { assert Without(mem.queue, id) == []; }
  }

  lemma WithdrawKeeps(s: State, t: nat, id: Id)
    requires Inv(s) && Enabled(s, CallCancel(t, id)) && CancelOutcomeOf(s.mem, id) == Withdrawn
    ensures Inv(Next(s, CallCancel(t, id)))
  {
    hide MemInv, KnownInv, PendingInv, RunnerInv, WakeupInv, FifoInv, DiskInv, QueuedSafe, PoolSafe,
         SameElsewhere, OthersPend, Cancel, CanStart, InWindow;
    var n := Next(s, CallCancel(t, id));
    CancelKeepsInv(s.mem, id);
    CancelChangesOne(s.mem, id);
    JobKnown(s, id);
    WindowCanceled(s, t, id);
    FewerCannotStart(s.mem, id);
    RunnerMove(s.threads, s.mem.running, t, Save(id, ToReturn));
    if id in s.mem.queue { FifoWithdraws(s.mem.queue, s.mem.running, s.hist, id); }
    else { WithoutAbsent(s.mem.queue, id); }
    Act(s, t, id, Save(id, ToReturn), n.mem, n.hist);
  }

  /** A job that runs is in nobody's window. */
  lemma StartedNotPending(s: State, t: nat, id: Id)
    requires Inv(s) && id in s.mem.jobs && s.mem.jobs[id].status !in {Created, Canceled}
    ensures !OthersPend(s.threads, t, id)
  {
    hide MemInv, KnownInv, RunnerInv, WakeupInv, FifoInv, DiskInv, QueuedSafe, PoolSafe;
  }

  lemma CancelRunningKeeps(s: State, t: nat, id: Id)
    requires Inv(s) && Enabled(s, CallCancel(t, id)) && CancelOutcomeOf(s.mem, id) == Signaled
    ensures Inv(Next(s, CallCancel(t, id)))
  {
    hide MemInv, KnownInv, PendingInv, RunnerInv, WakeupInv, FifoInv, DiskInv, QueuedSafe, PoolSafe,
         SameElsewhere, OthersPend, Cancel;
    var n := Next(s, CallCancel(t, id));
    CancelKeepsInv(s.mem, id);
    CancelChangesOne(s.mem, id);
    JobKnown(s, id);
    StartedNotPending(s, t, id);
    RunnerMove(s.threads, s.mem.running, t, SignalContext(id));
    Act(s, t, id, SignalContext(id), n.mem, n.hist);
  }

  lemma DeleteChangesOne(mem: Mem, id: Id)
    requires DeleteError(mem, id) == None
    ensures SameElsewhere(mem, Delete(mem, id), id) && id !in Delete(mem, id).jobs
  {
  }

  lemma DeletedWindow(mem: Mem, id: Id)
    requires DeleteError(mem, id) == None
    ensures InWindow(Delete(mem, id), id)
  {
  }

  lemma DeleteKeeps(s: State, t: nat, id: Id)
    requires Inv(s) && Enabled(s, CallDelete(t, id))
    ensures Inv(Next(s, CallDelete(t, id)))
  {
    hide MemInv, KnownInv, PendingInv, RunnerInv, WakeupInv, FifoInv, DiskInv, QueuedSafe, PoolSafe,
         SameElsewhere, OthersPend;
    if DeleteError(s.mem, id) == None {
      var s' := s.(hist := s.hist.(deleted := s.hist.deleted + {id}));
      DeletedKeeps(s, id);
      DeleteKeepsInv(s.mem, id);
      DeleteChangesOne(s.mem, id);
      DeletedWindow(s.mem, id);
      JobKnown(s, id);
      RunnerMove(s.threads, s.mem.running, t, RemoveDir(id));
      FifoForgets(s.mem.queue, s.mem.running, s.hist, s'.hist);
      Act(s', t, id, RemoveDir(id), Delete(s.mem, id), s'.hist);
    }
  }

  /** The order of the jobs says nothing about known and deleted ids. */
  lemma FifoForgets(queue: seq<Id>, running: set<Id>, hist: History, after: History)
    requires FifoInv(queue, running, hist)
    requires after.enqueued == hist.enqueued && after.started == hist.started
    requires after.withdrawn == hist.withdrawn && after.released == hist.released
    ensures FifoInv(queue, running, after)
  {
  }

  lemma DeletedKeeps(s: State, id: Id)
    requires Inv(s) && s.up && id in s.mem.jobs
    ensures Inv(s.(hist := s.hist.(deleted := s.hist.deleted + {id})))
  {
    hide MemInv, PendingInv, RunnerInv, WakeupInv, OutcomeOk;
    var deleted := s.hist.deleted + {id};
    FifoForgets(s.mem.queue, s.mem.running, s.hist, s.hist.(deleted := deleted));
    assert PoolSafe(s.threads, s.mem.jobs, s.disk, deleted) by {
      forall u | u in s.threads ensures PcSafe(s.mem.jobs, s.disk, deleted, s.threads[u]) {
        assert PcSafe(s.mem.jobs, s.disk, s.hist.deleted, s.threads[u]);
      }
    }
    assert WakeupInv(s.(hist := s.hist.(deleted := deleted))) by { WakeupSame(s, s.(hist := s.hist.(deleted := deleted))); }
  }

  lemma WakeupSame(s: State, n: State)
    requires WakeupInv(s) && n.threads == s.threads && (CanStart(n.mem) ==> CanStart(s.mem))
    ensures WakeupInv(n)
  {
  }

  /** Steps that change neither threads nor queue nor slots. */
  lemma QuietMem(s: State, mem: Mem)
    requires Inv(s) && s.up && MemInv(mem)
    requires mem.queue == s.mem.queue && mem.running == s.mem.running && mem.requests == s.mem.requests
    requires mem.maxRunning == s.mem.maxRunning && (s.mem.closed ==> mem.closed)
    requires mem.jobs.Keys == s.mem.jobs.Keys
    requires forall id <- mem.jobs :: mem.jobs[id].status == s.mem.jobs[id].status
    ensures Inv(s.(mem := mem))
  {
    hide MemInv, RunnerInv, WakeupInv, FifoInv, DiskInv, RequestSafe;
    assert PendingInv(s.threads, mem, s.hist.enqueued);
    assert PoolSafe(s.threads, mem.jobs, s.disk, s.hist.deleted) by {
      forall u | u in s.threads ensures PcSafe(mem.jobs, s.disk, s.hist.deleted, s.threads[u]) {
        assert PcSafe(s.mem.jobs, s.disk, s.hist.deleted, s.threads[u]);
      }
    }
    WakeupSame(s, s.(mem := mem));
  }

  lemma DetailKeeps(s: State, id: Id, job: Job)
    requires Inv(s) && s.up && id in s.mem.jobs && OutcomeOk(job) && job.status == s.mem.jobs[id].status
    ensures Inv(s.(mem := s.mem.(jobs := s.mem.jobs[id := job])))
  {
    hide MemInv, KnownInv, PendingInv, RunnerInv, WakeupInv, FifoInv, DiskInv, QueuedSafe, PoolSafe;
    DetailKeepsInv(s.mem, id, job);
    QuietMem(s, s.mem.(jobs := s.mem.jobs[id := job]));
  }

  function Updated(job: Job, stage: Option<string>, percent: Option<int>): Job {
    var staged := if stage.Some? && stage.value != "" then job.(stage := stage.value) else job;
    if percent.Some? then staged.(progress := Progress(percent, percent.value, 100)) else staged
  }

  lemma EmitIs(s: State, l: Label)
    requires Enabled(s, l) && l.Emit?
    ensures var id := s.threads[l.t].id;
            Next(s, l) == if id in s.mem.jobs
                          then s.(mem := s.mem.(jobs := s.mem.jobs[id := Updated(s.mem.jobs[id], l.stage, l.percent)]))
                          else s
  {
    var id := s.threads[l.t].id;
    if id in s.mem.jobs {
      assert s.mem.jobs[id := s.mem.jobs[id]] == s.mem.jobs;
    }
  }

  lemma EmitKeeps(s: State, l: Label)
    requires Inv(s) && Enabled(s, l) && l.Emit?
    ensures Inv(Next(s, l))
  {
    hide Inv, Next, Updated;
    InvUp(s, l.t);
    EmitIs(s, l);
    var id := s.threads[l.t].id;
    if id in s.mem.jobs {
      UpdatedOk(s, id, l.stage, l.percent);
      DetailKeeps(s, id, Updated(s.mem.jobs[id], l.stage, l.percent));
    }
  }

  lemma UpdatedOk(s: State, id: Id, stage: Option<string>, percent: Option<int>)
    requires Inv(s) && id in s.mem.jobs
    ensures OutcomeOk(Updated(s.mem.jobs[id], stage, percent))
    ensures Updated(s.mem.jobs[id], stage, percent).status == s.mem.jobs[id].status
  {
    hide KnownInv, PendingInv, RunnerInv, WakeupInv, FifoInv, DiskInv, QueuedSafe, PoolSafe, QueueInv, SlotInv;
  }

  lemma SignalKeeps(s: State, t: nat, w: Write)
    requires Inv(s) && s.up && t in s.threads && s.threads[t].SignalContext?
    ensures Inv(NextAdvance(s, t, w))
  {
    hide Inv, DiskInv, DiskKeeps, CompletesOnly;
    var id := s.threads[t].id;
    ThreadFacts(s, t);
    DiskSame(s, None);
    Move(s, t, Save(id, ToReturn), s.disk);
    var n := s.(threads := s.threads[t := Save(id, ToReturn)], disk := s.disk);
    InvHasMem(n);
    ContextKeepsInv(n.mem, id);
    QuietMem(n, s.mem.(ctxDone := s.mem.ctxDone + {id}));
  }

  lemma InvHasMem(s: State)
    requires Inv(s)
    ensures MemInv(s.mem)
  {
  }

  lemma ContextKeepsInv(mem: Mem, id: Id)
    requires MemInv(mem)
    ensures MemInv(mem.(ctxDone := mem.ctxDone + {id}))
  {
    hide OutcomeOk, NoDup;
  }

  lemma ClosedKeepsInv(mem: Mem)
    requires MemInv(mem)
    ensures MemInv(mem.(closed := true))
  {
    hide OutcomeOk, NoDup;
  }

  lemma RunnerForks(threads: map<nat, Pc>, running: set<Id>, t: nat, child: nat, id: Id)
    requires RunnerInv(threads, running) && t in threads && child !in threads && RunnerOf(threads[t]) == Some(id)
    ensures RunnerInv(threads[child := RunGet(id)][t := ScheduleNow], running)
  {
    assert id in running;
    RunnerStops(threads, running, t, ScheduleNow, id);
    hide RunnerInv;
    RunnerStarts(threads[t := ScheduleNow], running - {id}, child, RunGet(id), id);
    assert running - {id} + {id} == running;
    assert threads[t := ScheduleNow][child := RunGet(id)] == threads[child := RunGet(id)][t := ScheduleNow];
  }

  lemma ForkKeeps(s: State, t: nat, child: nat)
    requires Inv(s) && Enabled(s, Fork(t, child))
    ensures Inv(Next(s, Fork(t, child)))
  {
    hide MemInv, PendingInv, RunnerInv, FifoInv, DiskInv, QueuedSafe, PoolSafe, RequestSafe;
    var id, n := s.threads[t].id, Next(s, Fork(t, child));
    ThreadFacts(s, t);
    KnownMove(s, n.threads, s.disk);
    PendingMove(s.threads, s.mem, s.hist.enqueued, child, RunGet(id));
    PendingMove(s.threads[child := RunGet(id)], s.mem, s.hist.enqueued, t, ScheduleNow);
    RunnerForks(s.threads, s.mem.running, t, child, id);
    assert SomeoneOwes(n.threads) by { assert t in n.threads && Owes(n.threads[t]); }
    PoolSafeTwo(s, t, child, id);
  }

  lemma PoolSafeTwo(s: State, t: nat, child: nat, id: Id)
    requires PoolSafe(s.threads, s.mem.jobs, s.disk, s.hist.deleted)
    ensures PoolSafe(s.threads[child := RunGet(id)][t := ScheduleNow], s.mem.jobs, s.disk, s.hist.deleted)
  {
    hide CopySafe, RequestSafe, NotCreated;
  }

  // ---------------------------------------------------------------- crashes and restarts

  lemma OpenLogKeeps(s: State, id: Id)
    requires Inv(s) && Enabled(s, OpenLog(id))
    ensures Inv(Next(s, OpenLog(id)))
  {
    hide MemInv, PendingInv, RunnerInv, FifoInv, WakeupInv, OutcomeOk;
    var disk := s.disk[id := DirOf(s.disk, id)];
    assert PoolSafe(s.threads, s.mem.jobs, disk, s.hist.deleted) by {
      forall u | u in s.threads ensures PcSafe(s.mem.jobs, disk, s.hist.deleted, s.threads[u]) {
        assert PcSafe(s.mem.jobs, s.disk, s.hist.deleted, s.threads[u]);
      }
    }
    WakeupSame(s, s.(disk := disk));
  }

  /** A stopped daemon keeps the invariant as long as its disk does. */
  lemma StoppedKeeps(n: State)
    requires !n.up && n.mem == EmptyMem(n.mem.maxRunning) && n.threads == map[] && n.hist == NewProcess(n.hist)
    requires 0 < n.mem.maxRunning && n.disk.Keys + n.hist.deleted <= n.hist.known && DiskInv(n.disk, n.hist.deleted)
    ensures Inv(n)
  {
    hide DiskInv;
    assert FifoInv([], {}, n.hist) by { assert Kept([], {}) == []; }
  }

  /** What the invariant says about the disk. */
  lemma DiskFacts(s: State)
    requires Inv(s)
    ensures DiskInv(s.disk, s.hist.deleted) && s.disk.Keys + s.hist.deleted <= s.hist.known && 0 < s.mem.maxRunning
  {
    hide PendingInv, RunnerInv, WakeupInv, FifoInv, DiskInv, QueuedSafe, PoolSafe, QueueInv;
  }

  lemma CrashKeeps(s: State, l: Label)
    requires Inv(s) && Enabled(s, l) && (l.Crash? || l.CrashInRecovery?)
    ensures Inv(Next(s, l))
  {
    hide MemInv, KnownInv, PendingInv, RunnerInv, WakeupInv, FifoInv, DiskInv, QueuedSafe, PoolSafe;
    DiskFacts(s);
    if l.CrashInRecovery? { RecoveredDiskInv(s.disk, s.hist.deleted, l.seen, l.writes); }
    StoppedKeeps(Next(s, l));
  }

  lemma RecoveredDiskInv(disk: Disk, deleted: set<Id>, ids: set<Id>, writes: Writes)
    requires DiskInv(disk, deleted)
    ensures DiskInv(RecoveredDisk(disk, ids, writes), deleted)
    ensures forall id :: RequestSafe(disk, deleted, id) <==> RequestSafe(RecoveredDisk(disk, ids, writes), deleted, id)
    ensures RecoveredDisk(disk, ids, writes).Keys == disk.Keys
  {
  }

  lemma BootHistory(queue: seq<Id>, hist: History)
    requires NoDup(queue)
    ensures FifoInv(queue, {}, NewProcess(hist).(enqueued := queue))
  {
    KeptAll(queue);
  }

  lemma RecoveredQueuedSafe(disk: Disk, order: seq<Id>, writes: Writes, deleted: set<Id>)
    requires DiskInv(disk, deleted)
    ensures QueuedSafe(RecoveredJobs(disk, Ids(order)), RecoveredDisk(disk, Ids(order), writes), deleted)
  {
    hide OutcomeOk;
  }

  lemma BootKeeps(s: State, t: nat, order: seq<Id>, limit: int, writes: Writes)
    requires Inv(s) && Enabled(s, Boot(t, order, limit, writes))
    ensures Inv(Next(s, Boot(t, order, limit, writes)))
  {
    hide MemInv, KnownInv, PendingInv, RunnerInv, FifoInv, DiskInv, QueuedSafe, PoolSafe, RecoveredJobs,
         RecoveredRequests, RecoveredDisk, RequeuedIds;
    var n := Next(s, Boot(t, order, limit, writes));
    DiskFacts(s);
    assert DiskOutcomesOk(s.disk) by { OutcomesOnDisk(s.disk, s.hist.deleted); }
    RecoveryEstablishesInv(s.disk, order, Limit(limit));
    RecoveredDiskInv(s.disk, s.hist.deleted, Ids(order), writes);
    RecoveredQueuedSafe(s.disk, order, writes, s.hist.deleted);
    BootHistory(n.mem.queue, s.hist);
    assert SomeoneOwes(n.threads) by { assert t in n.threads && Owes(n.threads[t]); }
    BootThreads(t, n.mem, n.hist, n.disk);
    assert KnownInv(n) by { BootKnown(s, t, order, limit, writes); }
  }

  lemma OutcomesOnDisk(disk: Disk, deleted: set<Id>)
    requires DiskInv(disk, deleted)
    ensures DiskOutcomesOk(disk)
  {
    hide OutcomeOk;
  }

  lemma BootThreads(t: nat, mem: Mem, hist: History, disk: Disk)
    ensures PendingInv(map[t := ScheduleNow], mem, hist.enqueued) && RunnerInv(map[t := ScheduleNow], {})
    ensures PoolSafe(map[t := ScheduleNow], mem.jobs, disk, hist.deleted)
  {
  }

  lemma BootKnown(s: State, t: nat, order: seq<Id>, limit: int, writes: Writes)
    requires Enabled(s, Boot(t, order, limit, writes)) && s.disk.Keys + s.hist.deleted <= s.hist.known
    ensures KnownInv(Next(s, Boot(t, order, limit, writes)))
  {
  }

  lemma {:induction false} KeptAll(ids: seq<Id>)
    ensures Kept(ids, {}) == ids
  {
    if ids != [] { KeptAll(ids[..|ids| - 1]); }
  }

  // ---------------------------------------------------------------- the whole run

  lemma StepKeepsInv(s: State, l: Label)
    requires Inv(s) && Enabled(s, l)
    ensures Inv(Next(s, l))
  {
    match l {
      case CallCreate(t, id, req) => CreateKeeps(s, t, id, req);
      case CallCancel(t, id) => CancelKeeps(s, t, id);
      case CallDelete(t, id) => DeleteKeeps(s, t, id);
      case CallShutdown => ShutdownKeeps(s);
      case Advance(t, w) => hide Inv; AdvanceKeeps(s, t, w);
      case Fork(t, child) => ForkKeeps(s, t, child);
      case Emit(_, _, _) => EmitKeeps(s, l);
      case RunnerReturns(t, result, error) => ReturnKeeps(s, t, result, error);
      case OpenLog(id) => OpenLogKeeps(s, id);
      case Crash => CrashKeeps(s, l);
      case CrashInRecovery(_, _) => CrashKeeps(s, l);
      case Boot(t, order, limit, writes) => BootKeeps(s, t, order, limit, writes);
    }
  }

  lemma CancelKeeps(s: State, t: nat, id: Id)
    requires Inv(s) && Enabled(s, CallCancel(t, id))
    ensures Inv(Next(s, CallCancel(t, id)))
  {
    hide Inv;
    match CancelOutcomeOf(s.mem, id) {
      case Withdrawn => WithdrawKeeps(s, t, id);
      case Signaled => CancelRunningKeeps(s, t, id);
      case _ =>
    }
  }

  lemma ShutdownKeeps(s: State)
    requires Inv(s) && s.up
    ensures Inv(s.(mem := s.mem.(closed := true)))
  {
    hide Inv;
    InvHasMem(s);
    ClosedKeepsInv(s.mem);
    QuietMem(s, s.mem.(closed := true));
  }

  lemma ReturnKeeps(s: State, t: nat, result: RunResult, error: Option<AppError>)
    requires Inv(s) && Enabled(s, RunnerReturns(t, result, error))
    ensures Inv(Next(s, RunnerReturns(t, result, error)))
  {
    hide Inv, DiskInv, DiskKeeps, CompletesOnly;
    InvUp(s, t);
    ThreadFacts(s, t);
    DiskSame(s, None);
    Move(s, t, RunEnd(s.threads[t].id, result, error), s.disk);
  }

  lemma InvUp(s: State, t: nat)
    requires Inv(s) && t in s.threads
    ensures s.up
  {
  }

  lemma AdvanceKeeps(s: State, t: nat, w: Write)
    requires Inv(s) && Enabled(s, Advance(t, w))
    ensures Inv(NextAdvance(s, t, w))
  {
    hide Inv;
    InvUp(s, t);
    match s.threads[t] {
      case WriteRequest(_, _) => RequestWriteKeeps(s, t, w);
      case FillRequest(_, _) => RequestWriteKeeps(s, t, w);
      case Save(_, _) => SaveKeeps(s, t, w);
      case WriteJob(_, _, _) => JobWriteKeeps(s, t, w);
      case FillJob(_, _, _) => JobWriteKeeps(s, t, w);
      case EnqueueNow(_) => EnqueueKeeps(s, t, w);
      case ScheduleNow => ScheduleKeeps(s, t, w);
      case RunGet(_) => GetKeeps(s, t, w);
      case RunEnd(_, _, _) => RunEndKeeps(s, t, w);
      case SignalContext(_) => SignalKeeps(s, t, w);
      case RemoveDir(_) => RemoveDirKeeps(s, t, w);
    }
  }

  lemma GetKeeps(s: State, t: nat, w: Write)
    requires Inv(s) && s.up && t in s.threads && s.threads[t].RunGet?
    ensures Inv(NextAdvance(s, t, w))
  {
    hide Inv, DiskInv, DiskKeeps, CompletesOnly;
    ThreadFacts(s, t);
    DiskSame(s, None);
    Move(s, t, RunBody(s.threads[t].id), s.disk);
  }
}
