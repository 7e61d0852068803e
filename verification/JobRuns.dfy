/** What holds over whole runs of the job manager: any number of calls, worker goroutines, crashes
    and restarts, interleaved in any way. */
module JobRuns {
  import opened Wrappers
  import opened JobManager
  import opened JobProtocol

  ghost predicate IsRun(run: seq<State>) {
    && run != [] && Start(run[0])
    && (forall i | 0 <= i < |run| - 1 :: Step(run[i], run[i + 1]))
  }

  lemma {:induction false} RunKeepsInv(run: seq<State>, i: nat)
    requires IsRun(run) && i < |run|
    ensures Inv(run[i])
  {
    hide Inv, Enabled, Next;
    if i > 0 {
      RunKeepsInv(run, i - 1);
      assert Step(run[i - 1], run[i]);
      var l :| Enabled(run[i - 1], l) && run[i] == Next(run[i - 1], l);
      StepKeepsInv(run[i - 1], l);
    } else {
      StartInv(run[0]);
    }
  }

  lemma StartInv(s: State)
    requires Start(s)
    ensures Inv(s)
  {
  }

  /** The label of the last step of a prefix. */
  lemma LastStep(run: seq<State>, j: nat) returns (l: Label)
    requires IsRun(run) && 0 < j < |run|
    ensures Inv(run[j - 1]) && Enabled(run[j - 1], l) && run[j] == Next(run[j - 1], l)
  {
    RunKeepsInv(run, j - 1);
    assert Step(run[j - 1], run[(j - 1) + 1]);
    l :| Enabled(run[j - 1], l) && run[j] == Next(run[j - 1], l);
  }

  /** The states i to j belong to one process: the daemon was up in all of them. */
  ghost predicate OneProcess(run: seq<State>, i: nat, j: nat) {
    i <= j < |run| && forall k | i <= k <= j :: run[k].up
  }

  // ---------------------------------------------------------------- scheduling

  /** No order of creations, cancellations and completions strands a queued job: while one could
      start, some thread is still to look at the queue. */
  lemma NoLostWakeup(run: seq<State>, i: nat)
    requires IsRun(run) && i < |run| && CanStart(run[i].mem)
    ensures exists t <- run[i].threads :: Owes(run[i].threads[t])
  {
    RunKeepsInv(run, i);
  }

  /** When every call and every worker has come to its end, no job is left queued or running, unless
      the manager was shut down, and every slot that was taken was given back. */
  lemma NothingStranded(run: seq<State>, i: nat)
    requires IsRun(run) && i < |run| && run[i].threads == map[]
    ensures run[i].mem.running == {}
    ensures forall id :: id in run[i].hist.started <==> id in run[i].hist.released
    ensures !run[i].mem.closed ==> run[i].mem.queue == []
    ensures forall id <- run[i].mem.jobs | !run[i].mem.closed ::
              run[i].mem.jobs[id].status == Created || Terminal(run[i].mem.jobs[id].status)
  {
    RunKeepsInv(run, i);
    var s := run[i];
    assert s.mem.running == {};
    assert CanStart(s.mem) ==> SomeoneOwes(s.threads);
    SlotsFree(s.mem);
  }

  lemma SlotsFree(m: Mem)
    requires MemInv(m) && m.running == {} && !CanStart(m)
    ensures !m.closed ==> m.queue == []
    ensures forall id <- m.jobs | !m.closed :: m.jobs[id].status == Created || Terminal(m.jobs[id].status)
  {
  }

  /** The slots: never more in use than allowed, each taken and given back at most once per job. */
  lemma SlotsBounded(run: seq<State>, i: nat)
    requires IsRun(run) && i < |run|
    ensures var s := run[i];
            && (forall id :: id in s.mem.running <==> id in s.mem.jobs && Active(s.mem.jobs[id].status))
            && (run[i].up ==> |s.mem.running| <= s.mem.maxRunning)
            && NoDup(s.hist.started) && NoDup(s.hist.released)
            && (forall id :: id in s.mem.running <==> id in s.hist.started && id !in s.hist.released)
  {
    RunKeepsInv(run, i);
    StartedDistinct(run[i]);
  }

  lemma StartedDistinct(s: State)
    requires Inv(s)
    ensures NoDup(s.hist.started)
    ensures forall id <- s.hist.started :: id in s.hist.enqueued && id !in s.hist.withdrawn && id !in s.mem.queue
    ensures forall id <- s.mem.running :: id in s.hist.started
  {
    KeptNoDup(s.hist.enqueued, s.hist.withdrawn);
    var all := s.hist.started + s.mem.queue;
    assert forall k | 0 <= k < |s.hist.started| :: all[k] == s.hist.started[k];
    assert forall k | 0 <= k < |s.mem.queue| :: all[|s.hist.started| + k] == s.mem.queue[k];
    forall id | id in s.hist.started
      ensures id in s.hist.enqueued && id !in s.hist.withdrawn && id !in s.mem.queue
    {
      var k :| 0 <= k < |s.hist.started| && s.hist.started[k] == id;
      assert all[k] in all;
    }
  }

  /** First in, first out: what was started, followed by what is queued, is what was enqueued
      without what was canceled while it was queued. */
  lemma FirstInFirstOut(run: seq<State>, i: nat)
    requires IsRun(run) && i < |run|
    ensures run[i].hist.started + run[i].mem.queue == Kept(run[i].hist.enqueued, run[i].hist.withdrawn)
    ensures NoDup(run[i].hist.enqueued)
  {
    RunKeepsInv(run, i);
  }

  /** A worker never finds its job missing, so neither reading it nor ending it fails. */
  lemma WorkersFindTheirJob(run: seq<State>, i: nat, t: nat)
    requires IsRun(run) && i < |run| && t in run[i].threads && RunnerOf(run[i].threads[t]).Some?
    ensures var id := RunnerOf(run[i].threads[t]).value;
            id in run[i].mem.jobs && Active(run[i].mem.jobs[id].status)
  {
    RunKeepsInv(run, i);
    assert MemInv(run[i].mem);
  }

  // ---------------------------------------------------------------- cancellation

  // What one step may do to the job `id`, to the queue's history and to the calls still to enqueue.

  function JobOf(m: Mem, id: Id): Option<Job> {
    if id in m.jobs then Some(m.jobs[id]) else None
  }

  predicate Enqueues(s: State, l: Label, id: Id) {
    l.Advance? && l.t in s.threads && s.threads[l.t] == EnqueueNow(id)
  }

  predicate Ends(s: State, l: Label, id: Id) {
    l.Advance? && l.t in s.threads && s.threads[l.t].RunEnd? && s.threads[l.t].id == id
  }

  predicate Starts(s: State, l: Label, id: Id) {
    l.Advance? && l.t in s.threads && s.threads[l.t].ScheduleNow? && CanStart(s.mem) && s.mem.queue[0] == id
  }

  predicate Reports(s: State, l: Label, id: Id) {
    l.Emit? && l.t in s.threads && s.threads[l.t].RunBody? && s.threads[l.t].id == id
  }

  /** Memory after a section: only four kinds of sections change it. */
  function MemAfter(s: State, pc: Pc): Mem {
    match pc
    case EnqueueNow(id) => Enqueue(s.mem, id)
    case ScheduleNow => if CanStart(s.mem) && s.mem.queue[0] in s.mem.jobs then StartNext(s.mem) else s.mem
    case RunEnd(id, result, error) => if id in s.mem.jobs then Finish(s.mem, id, result, error) else s.mem
    case SignalContext(id) => s.mem.(ctxDone := s.mem.ctxDone + {id})
    case _ => s.mem
  }

  lemma AdvanceMem(s: State, t: nat, w: Write)
    requires Enabled(s, Advance(t, w))
    ensures NextAdvance(s, t, w).mem == MemAfter(s, s.threads[t])
  {
    hide DirOf, Enqueue, StartNext, Finish;
  }

  lemma AdvanceLeavesJob(s: State, t: nat, w: Write, id: Id)
    requires Enabled(s, Advance(t, w))
    requires var l := Advance(t, w); !Enqueues(s, l, id) && !Ends(s, l, id) && !Starts(s, l, id)
    ensures JobOf(NextAdvance(s, t, w).mem, id) == JobOf(s.mem, id)
  {
    hide NextAdvance, TerminalState, Finished;
    AdvanceMem(s, t, w);
  }

  lemma StepLeavesJob(s: State, l: Label, id: Id)
    requires Enabled(s, l) && s.up && Next(s, l).up
    requires !Enqueues(s, l, id) && !Ends(s, l, id) && !Starts(s, l, id) && !Reports(s, l, id)
    requires (l.CallCreate? || l.CallCancel? || l.CallDelete?) ==> l.id != id
    ensures JobOf(Next(s, l).mem, id) == JobOf(s.mem, id)
  {
    match l {
      case Emit(_, _, _) => EmitIs(s, l);
      case Advance(t, w) => AdvanceLeavesJob(s, t, w, id);
      case _ =>
    }
  }

  lemma AdvanceHistory(s: State, t: nat, w: Write)
    requires Enabled(s, Advance(t, w))
    ensures NextAdvance(s, t, w).hist.withdrawn == s.hist.withdrawn
    ensures NextAdvance(s, t, w).hist.known == s.hist.known
  {
  }

  lemma HistoryGrows(s: State, l: Label)
    requires Enabled(s, l) && s.up && Next(s, l).up
    ensures s.hist.withdrawn <= Next(s, l).hist.withdrawn && s.hist.known <= Next(s, l).hist.known
  {
    if l.Advance? { AdvanceHistory(s, l.t, l.w); }
  }

  /** No call is still to enqueue `id`. */
  ghost predicate PastEnqueue(s: State, id: Id) {
    forall t <- s.threads :: PendingOf(s.threads[t]) != Some(id)
  }

  /** The threads after a section of thread `t`: it ends, or goes on without a new call to enqueue. */
  lemma AdvancePool(s: State, t: nat, w: Write) returns (next: Option<Pc>)
    requires Enabled(s, Advance(t, w))
    ensures NextAdvance(s, t, w).threads == match next case Some(pc) => s.threads[t := pc] case None => s.threads - {t}
    ensures next.Some? ==> PendingOf(next.value) == None || PendingOf(next.value) == PendingOf(s.threads[t])
  {
    hide Enqueue, StartNext, Finish, DirOf;
    next := None;
    match s.threads[t] {
      case WriteRequest(id, req) => if Succeeds(w) { next := Some(FillRequest(id, req)); }
      case FillRequest(id, req) => if Succeeds(w) { next := Some(Save(id, ToEnqueue)); }
      case Save(id, k) => next := if id in s.mem.jobs then Some(WriteJob(id, s.mem.jobs[id], k)) else AfterSave(id, k);
      case WriteJob(id, job, k) =>
        next := if Succeeds(w) && id in s.disk then Some(FillJob(id, job, k))
                else if k == ToEnqueue then None else AfterSave(id, k);
      case FillJob(_, _, k) => next := if !Succeeds(w) && k == ToEnqueue then None else AfterSave(s.threads[t].id, k);
      case EnqueueNow(id) => next := Some(Save(id, ToSchedule));
      case ScheduleNow =>
        if CanStart(s.mem) && s.mem.queue[0] in s.mem.jobs { next := Some(Save(s.mem.queue[0], ToSpawn)); }
      case RunGet(id) => next := Some(RunBody(id));
      case RunEnd(id, _, _) => if id in s.mem.jobs { next := Some(Save(id, ToSchedule)); }
      case SignalContext(id) => next := Some(Save(id, ToReturn));
      case RemoveDir(_) =>
    }
  }

  function AfterSave(id: Id, k: Cont): Option<Pc> {
    match k
    case ToEnqueue => Some(EnqueueNow(id))
    case ToSchedule => Some(ScheduleNow)
    case ToSpawn => Some(SpawnRun(id))
    case ToReturn => None
  }

  /** A section changes no thread but its own, and never adds a call that is to enqueue. */
  lemma AdvanceThreads(s: State, t: nat, w: Write, u: nat)
    requires Enabled(s, Advance(t, w)) && u in NextAdvance(s, t, w).threads
    ensures u in s.threads
    ensures u != t ==> NextAdvance(s, t, w).threads[u] == s.threads[u]
    ensures u == t ==> var pending := PendingOf(NextAdvance(s, t, w).threads[u]);
                       pending == None || pending == PendingOf(s.threads[t])
  {
    hide NextAdvance, PendingOf;
    var next := AdvancePool(s, t, w);
  }

  lemma AdvancePastEnqueue(s: State, t: nat, w: Write, id: Id)
    requires Enabled(s, Advance(t, w)) && PastEnqueue(s, id)
    ensures PastEnqueue(NextAdvance(s, t, w), id)
  {
    forall u | u in NextAdvance(s, t, w).threads ensures PendingOf(NextAdvance(s, t, w).threads[u]) != Some(id) {
      AdvanceThreads(s, t, w, u);
    }
  }

  lemma StaysPastEnqueue(s: State, l: Label, id: Id)
    requires Enabled(s, l) && s.up && Next(s, l).up
    requires PastEnqueue(s, id) && id in s.hist.known
    ensures PastEnqueue(Next(s, l), id) && id in Next(s, l).hist.known
  {
    HistoryGrows(s, l);
    if l.Advance? { AdvancePastEnqueue(s, l.t, l.w, id); }
  }

  // ---------------------------------------------------------------- cancellation and final states

  /** A job canceled while it was queued is never started later by the same process. */
  lemma {:induction false} WithdrawnNeverStarts(run: seq<State>, i: nat, j: nat, id: Id)
    requires IsRun(run) && OneProcess(run, i, j) && id in run[i].hist.withdrawn
    ensures id in run[j].hist.withdrawn && id !in run[j].hist.started && id !in run[j].mem.running
  {
    hide Inv;
    if i < j {
      WithdrawnNeverStarts(run, i, j - 1, id);
      var l := LastStep(run, j);
      HistoryGrows(run[j - 1], l);
    }
    RunKeepsInv(run, j);
    StartedDistinct(run[j]);
  }

  lemma EndedJobIdle(s: State, l: Label, id: Id)
    requires Inv(s) && Enabled(s, l) && id in s.mem.jobs && Terminal(s.mem.jobs[id].status)
    ensures !Ends(s, l, id) && !Starts(s, l, id) && !Reports(s, l, id)
  {
    hide Inv;
    if l.Advance? || l.Emit? {
      if RunnerOf(s.threads[l.t]).Some? { RunnerFacts(s, l.t, l.t); }
      if CanStart(s.mem) { HeadFacts(s, l.t); }
    }
  }

  /** Within one process an ended job that is not deleted changes in exactly one way: when the call
      that created it enqueues it after it was canceled. */
  lemma OnlyEnqueueRevives(s: State, l: Label, id: Id)
    requires Inv(s) && Enabled(s, l) && s.up && Next(s, l).up
    requires id in s.mem.jobs && Terminal(s.mem.jobs[id].status) && id in Next(s, l).mem.jobs
    ensures Next(s, l).mem.jobs[id] != s.mem.jobs[id] <==> Enqueues(s, l, id)
  {
    hide Inv, Next, Enabled;
    EndedJobIdle(s, l, id);
    JobKnown(s, id);
    NotCreatedAgain(s, l, id);
    if Enqueues(s, l, id) {
      EnqueueRevives(s, l, id);
    } else if (l.CallCancel? || l.CallDelete?) && l.id == id {
      EndedUnanswered(s, l, id);
    } else {
      StepLeavesJob(s, l, id);
    }
  }

  lemma NotCreatedAgain(s: State, l: Label, id: Id)
    requires Enabled(s, l) && id in s.hist.known
    ensures l.CallCreate? ==> l.id != id
  {
  }

  lemma EnqueueRevives(s: State, l: Label, id: Id)
    requires Enabled(s, l) && Enqueues(s, l, id) && id in s.mem.jobs && Terminal(s.mem.jobs[id].status)
    ensures id in Next(s, l).mem.jobs && Next(s, l).mem.jobs[id] != s.mem.jobs[id]
  {
  }

  /** Canceling an ended job changes nothing; deleting it removes it. */
  lemma EndedUnanswered(s: State, l: Label, id: Id)
    requires Enabled(s, l) && (l.CallCancel? || l.CallDelete?) && l.id == id
    requires id in s.mem.jobs && Terminal(s.mem.jobs[id].status)
    ensures id in Next(s, l).mem.jobs ==> Next(s, l).mem.jobs[id] == s.mem.jobs[id]
  {
  }

  /** A deleted id never comes back within the process. */
  lemma NotReborn(s: State, l: Label, id: Id)
    requires Inv(s) && Enabled(s, l) && s.up && Next(s, l).up && id in s.hist.known
    requires id !in s.mem.jobs
    ensures id !in Next(s, l).mem.jobs
  {
    hide Inv, Next;
    if l.Advance? || l.Emit? {
      if RunnerOf(s.threads[l.t]).Some? { RunnerFacts(s, l.t, l.t); }
      if CanStart(s.mem) { HeadFacts(s, l.t); }
    }
    if Enqueues(s, l, id) || ((l.CallCancel? || l.CallDelete?) && l.id == id) {
      UnknownUnanswered(s, l, id);
    } else {
      StepLeavesJob(s, l, id);
    }
  }

  lemma UnknownUnanswered(s: State, l: Label, id: Id)
    requires Enabled(s, l) && id !in s.mem.jobs
    requires Enqueues(s, l, id) || ((l.CallCancel? || l.CallDelete?) && l.id == id)
    ensures id !in Next(s, l).mem.jobs
  {
  }

  lemma EndedOutcome(s: State, id: Id)
    requires Inv(s) && id in s.mem.jobs
    ensures OutcomeOk(s.mem.jobs[id]) && id in s.hist.known
  {
  }

  lemma NotEnqueued(s: State, l: Label, id: Id)
    requires Enabled(s, l) && PastEnqueue(s, id)
    ensures !Enqueues(s, l, id)
  {
    if l.Advance? { assert PendingOf(s.threads[l.t]) != Some(id); }
  }

  /** The job `id` is ended as `job` or deleted, and will not be enqueued again. */
  ghost predicate EndedAs(s: State, id: Id, job: Job) {
    PastEnqueue(s, id) && id in s.hist.known && (id in s.mem.jobs ==> s.mem.jobs[id] == job)
  }

  lemma EndedStep(s: State, l: Label, id: Id, job: Job)
    requires Inv(s) && Enabled(s, l) && s.up && Next(s, l).up
    requires EndedAs(s, id, job) && Terminal(job.status)
    ensures EndedAs(Next(s, l), id, job)
  {
    hide Inv;
    StaysPastEnqueue(s, l, id);
    NotEnqueued(s, l, id);
    if id !in s.mem.jobs {
      NotReborn(s, l, id);
    } else if id in Next(s, l).mem.jobs {
      OnlyEnqueueRevives(s, l, id);
    }
  }

  /** Terminal is final: once past enqueue, an ended job keeps its status, result and error until it
      is deleted or the process ends; its result is there exactly when it succeeded and its error
      exactly when it did not. */
  lemma {:induction false} TerminalIsFinal(run: seq<State>, i: nat, j: nat, id: Id)
    requires IsRun(run) && OneProcess(run, i, j)
    requires id in run[i].mem.jobs && Terminal(run[i].mem.jobs[id].status) && PastEnqueue(run[i], id)
    ensures EndedAs(run[j], id, run[i].mem.jobs[id])
    ensures var job := run[i].mem.jobs[id];
            (job.result.Some? <==> job.status == Succeeded) && (job.error.Some? <==> job.status != Succeeded)
  {
    hide Inv, Enabled, Next;
    RunKeepsInv(run, i);
    EndedOutcome(run[i], id);
    if i < j {
      TerminalIsFinal(run, i, j - 1, id);
      var l := LastStep(run, j);
      EndedStep(run[j - 1], l, id, run[i].mem.jobs[id]);
    }
  }

  lemma CancelingIdle(s: State, l: Label, id: Id)
    requires Inv(s) && Enabled(s, l) && id in s.mem.jobs && s.mem.jobs[id].status == Canceling
    ensures !Starts(s, l, id) && !Enqueues(s, l, id) && (l.CallCreate? ==> l.id != id)
  {
    hide Inv;
    JobKnown(s, id);
    ActivePastEnqueue(s, id);
    if l.Advance? {
      assert PendingOf(s.threads[l.t]) != Some(id);
      if CanStart(s.mem) { HeadFacts(s, l.t); }
    }
  }

  lemma CancelingStep(s: State, l: Label, id: Id)
    requires Inv(s) && Enabled(s, l) && s.up && Next(s, l).up
    requires id in s.mem.jobs && s.mem.jobs[id].status == Canceling
    ensures id in Next(s, l).mem.jobs
    ensures Next(s, l).mem.jobs[id].status == if Ends(s, l, id) then Canceled else Canceling
  {
    hide Inv;
    CancelingIdle(s, l, id);
    if Reports(s, l, id) {
      EmitIs(s, l);
    } else if !Ends(s, l, id) && !((l.CallCancel? || l.CallDelete?) && l.id == id) {
      StepLeavesJob(s, l, id);
    }
  }

  lemma ActivePastEnqueue(s: State, id: Id)
    requires Inv(s) && id in s.mem.jobs && Active(s.mem.jobs[id].status)
    ensures PastEnqueue(s, id)
  {
    hide MemInv, KnownInv, RunnerInv, WakeupInv, FifoInv, DiskInv, QueuedSafe, PoolSafe;
  }

  /** The cancel of `id` was accepted while it ran. */
  ghost predicate CancelAccepted(s: State, id: Id) {
    && PastEnqueue(s, id) && id in s.hist.known
    && (id in s.mem.jobs ==> s.mem.jobs[id].status in {Canceling, Canceled})
  }

  lemma AcceptedStep(s: State, l: Label, id: Id)
    requires Inv(s) && Enabled(s, l) && s.up && Next(s, l).up && CancelAccepted(s, id)
    ensures CancelAccepted(Next(s, l), id)
  {
    hide Inv, Enabled, Next;
    StaysPastEnqueue(s, l, id);
    if id in s.mem.jobs && s.mem.jobs[id].status == Canceling {
      CancelingStep(s, l, id);
    } else if id in s.mem.jobs {
      EndedStep(s, l, id, s.mem.jobs[id]);
    } else {
      NotReborn(s, l, id);
    }
  }

  /** Once Cancel has accepted a running job, its status in the same process is "canceling" and
      then "canceled", whatever the runner returns, until the job is deleted. */
  lemma {:induction false} AcceptedCancelHolds(run: seq<State>, i: nat, j: nat, id: Id)
    requires IsRun(run) && OneProcess(run, i, j)
    requires id in run[i].mem.jobs && run[i].mem.jobs[id].status == Canceling
    ensures CancelAccepted(run[j], id)
  {
    hide Inv, Enabled, Next;
    RunKeepsInv(run, i);
    if i == j {
      EndedOutcome(run[i], id);
      ActivePastEnqueue(run[i], id);
    } else {
      AcceptedCancelHolds(run, i, j - 1, id);
      var l := LastStep(run, j);
      AcceptedStep(run[j - 1], l, id);
    }
  }

  // ---------------------------------------------------------------- crash recovery

  /** The stage of a job that is queued again. */
  function QueuedStage(job: Job): string {
    if job.status == Created then "queued" else job.stage
  }

  /** A restart after a crash at any point of any run, also inside an earlier restart: the manager's
      invariant holds with no slot in use, the jobs are those whose job.json is complete, ended jobs
      come back as they were, and a job that was never deleted always finds its request. */
  lemma RestartReads(run: seq<State>, i: nat, t: nat, order: seq<Id>, limit: int, writes: Writes)
    requires IsRun(run) && i < |run| && Enabled(run[i], Boot(t, order, limit, writes))
    ensures var disk, n := run[i].disk, Next(run[i], Boot(t, order, limit, writes));
            && Inv(n) && n.mem.running == {}
            && (forall id :: id in n.mem.jobs <==> Readable(disk, id))
            && (forall id <- n.mem.jobs | Terminal(disk[id].job.value.status) :: n.mem.jobs[id] == disk[id].job.value)
            && (forall id <- n.mem.jobs | Active(disk[id].job.value.status) ::
                  n.mem.jobs[id] == disk[id].job.value.(status := Interrupted, stage := "done", result := None,
                                                        error := Some(RESTARTED_ERROR)))
            && (forall id <- n.mem.jobs | Waiting(disk[id].job.value.status) && id !in run[i].hist.deleted ::
                  n.mem.jobs[id] == disk[id].job.value.(status := Queued, stage := QueuedStage(disk[id].job.value))
                  && id in n.mem.queue
                  && disk[id].request.Whole? && n.mem.requests[id] == disk[id].request.value)
  {
    var s, l := run[i], Boot(t, order, limit, writes);
    RunKeepsInv(run, i);
    StepKeepsInv(s, l);
    DiskFacts(s);
    BootMem(s, l);
    hide Inv, Enabled, Next, Readable, RecoveredMem;
    RecoveredTable(s.disk, order, Limit(limit));
    forall id | id in Next(s, l).mem.jobs {
      JobRead(s.disk, s.hist.deleted, id);
    }
  }

  lemma BootMem(s: State, l: Label)
    requires l.Boot? && Enabled(s, l)
    ensures Lists(l.order, s.disk) && Next(s, l).mem == RecoveredMem(s.disk, l.order, Limit(l.limit))
  {
  }

  /** The recovered memory, id by id. */
  lemma RecoveredTable(disk: Disk, order: seq<Id>, maxRunning: nat)
    requires Lists(order, disk)
    ensures var m := RecoveredMem(disk, order, maxRunning);
            && m.running == {}
            && (forall id :: id in m.jobs <==> Readable(disk, id))
            && (forall id <- m.jobs :: m.jobs[id] == RecoveredJob(disk[id]))
            && (forall id <- m.jobs | Requeued(disk[id]) :: id in m.queue && id in m.requests && m.requests[id] == disk[id].request.value)
  {
    hide RecoveredJob;
  }

  /** What is made of one readable job. */
  lemma JobRead(disk: Disk, deleted: set<Id>, id: Id)
    requires Readable(disk, id) && DiskInv(disk, deleted)
    ensures var copy, job := disk[id].job.value, RecoveredJob(disk[id]);
            && (Terminal(copy.status) ==> job == copy)
            && (Active(copy.status) ==>
                  job == copy.(status := Interrupted, stage := "done", result := None, error := Some(RESTARTED_ERROR)))
            && (Waiting(copy.status) && id !in deleted ==>
                  Requeued(disk[id]) && job == copy.(status := Queued, stage := QueuedStage(copy)))
  {
    assert CopySafe(disk, deleted, id, disk[id].job.value);
  }

  /** Restarting once more restarts the same jobs, but for exactly those whose job.json the first
      recovery truncated and did not get to write. */
  lemma RestartIdempotent(run: seq<State>, i: nat, t: nat, order: seq<Id>, limit: int, writes: Writes, again: Writes)
    requires IsRun(run) && i < |run| && Enabled(run[i], Boot(t, order, limit, writes))
    ensures var once, lost := Next(run[i], Boot(t, order, limit, writes)), Lost(run[i].disk, Ids(order), writes);
            var down := Next(once, Crash);
            && Enabled(down, Boot(t, order, limit, again))
            && Next(down, Boot(t, order, limit, again)).mem == Forgetting(once.mem, lost)
            && (forall id <- once.disk | Succeeds(WriteOf(writes, id)) ::
                  Next(down, Boot(t, order, limit, again)).disk[id] == once.disk[id])
  {
    hide RecoveredMem, RecoveredDisk, Inv, Forgetting, Lists, Lost;
    RecoveryRestartable(run[i].disk, Ids(order), writes, order, Limit(limit));
    WrittenOnce(run[i].disk, order, writes, again);
  }

  /** A directory whose write succeeded is not written again by the next recovery. */
  lemma WrittenOnce(disk: Disk, order: seq<Id>, writes: Writes, again: Writes)
    requires Lists(order, disk)
    ensures var once := RecoveredDisk(disk, Ids(order), writes);
            once.Keys == disk.Keys && RecoveredDisk(once, Ids(order), again).Keys == disk.Keys
            && forall id <- once | Succeeds(WriteOf(writes, id)) :: RecoveredDisk(once, Ids(order), again)[id] == once[id]
  {
    hide RecoveredDir;
    forall id | id in disk && Succeeds(WriteOf(writes, id))
      ensures RecoveredDir(RecoveredDir(disk[id], WriteOf(writes, id)), WriteOf(again, id))
           == RecoveredDir(disk[id], WriteOf(writes, id))
    {
      WrittenDir(disk[id], WriteOf(writes, id), WriteOf(again, id));
    }
  }

  lemma WrittenDir(d: Dir, w: Write, again: Write)
    requires Succeeds(w)
    ensures RecoveredDir(RecoveredDir(d, w), again) == RecoveredDir(d, w)
  {
  }
}
