/** What the files of the job manager hold over whole runs: which jobs a restart finds, and when the
    saved copy of an ended job is the one in memory.

    Runs carry their labels here, because what a file holds depends on which writes were made. */
module JobSaves {
  import opened Wrappers
  import opened JobManager
  import opened JobProtocol
  import opened JobRuns

  ghost predicate IsTrace(run: seq<State>, labels: seq<Label>) {
    && |run| == |labels| + 1 && Start(run[0])
    && (forall i | 0 <= i < |labels| :: Enabled(run[i], labels[i]) && run[i + 1] == Next(run[i], labels[i]))
  }

  lemma TraceIsRun(run: seq<State>, labels: seq<Label>)
    requires IsTrace(run, labels)
    ensures IsRun(run)
  {
    hide Enabled, Next, Start;
    forall i | 0 <= i < |run| - 1 ensures Step(run[i], run[i + 1]) {
      assert Enabled(run[i], labels[i]) && run[i + 1] == Next(run[i], labels[i]);
    }
  }

  /** A trace without its last step. */
  lemma Shorter(run: seq<State>, labels: seq<Label>)
    requires IsTrace(run, labels) && labels != []
    ensures IsTrace(run[..|labels|], labels[..|labels| - 1])
    ensures var s, l := run[|labels| - 1], labels[|labels| - 1];
            Inv(s) && Enabled(s, l) && run[|labels|] == Next(s, l)
  {
    hide Enabled, Next, Start, Inv;
    TraceIsRun(run, labels);
    RunKeepsInv(run, |labels| - 1);
    var k := |labels| - 1;
    assert Enabled(run[k], labels[k]) && run[k + 1] == Next(run[k], labels[k]);
  }

  // ---------------------------------------------------------------- which jobs can be read

  /** The job directories that a step recovers, and how its writes end. */
  function RecoveryOf(l: Label): (set<Id>, Writes) {
    match l
    case CrashInRecovery(seen, writes) => (seen, writes)
    case Boot(_, order, _, writes) => (Ids(order), writes)
    case _ => ({}, map[])
  }

  predicate RewrittenBy(s: State, l: Label, id: Id) {
    id in RecoveryOf(l).0 && id in s.disk && Rewritten(s.disk[id])
  }

  /** The step completes a write of the job.json of `id`. */
  predicate Completes(s: State, l: Label, id: Id) {
    if l.Advance? then l.t in s.threads && s.threads[l.t].FillJob? && s.threads[l.t].id == id && l.w.Done?
    else RewrittenBy(s, l, id) && Succeeds(WriteOf(RecoveryOf(l).1, id))
  }

  /** The step truncates the job.json of `id` without filling it in, or leaves a mixture of texts in it. */
  predicate Breaks(s: State, l: Label, id: Id) {
    if l.Advance? then
      l.t in s.threads && id in s.disk
      && match s.threads[l.t]
         case WriteJob(x, _, _) => x == id && Succeeds(l.w)
         case FillJob(x, _, _) => x == id && (l.w.Short? || l.w.Partial?)
         case _ => false
    else
      RewrittenBy(s, l, id) && WriteOf(RecoveryOf(l).1, id).Partial?
  }

  ghost predicate OnceWritten(run: seq<State>, labels: seq<Label>, id: Id)
    requires |labels| < |run|
  {
    exists j | 0 <= j < |labels| :: Completes(run[j], labels[j], id)
  }

  /** Since it was last truncated or garbled, the job.json of `id` was not written completely. */
  ghost predicate LeftBroken(run: seq<State>, labels: seq<Label>, id: Id)
    requires |labels| < |run|
  {
    exists j | 0 <= j < |labels| ::
      Breaks(run[j], labels[j], id) && forall k | j < k < |labels| :: !Completes(run[k], labels[k], id)
  }

  lemma OnceWrittenStep(run: seq<State>, labels: seq<Label>, id: Id)
    requires |run| == |labels| + 1 && labels != []
    ensures var k := |labels| - 1;
            OnceWritten(run, labels, id)
            <==> OnceWritten(run[..|labels|], labels[..k], id) || Completes(run[k], labels[k], id)
  {
    hide Completes;
    var k := |labels| - 1;
    if OnceWritten(run[..|labels|], labels[..k], id) {
      var j :| 0 <= j < k && Completes(run[..|labels|][j], labels[..k][j], id);
      assert Completes(run[j], labels[j], id);
    }
    if OnceWritten(run, labels, id) && !Completes(run[k], labels[k], id) {
      var j :| 0 <= j < |labels| && Completes(run[j], labels[j], id);
      assert Completes(run[..|labels|][j], labels[..k][j], id);
    }
  }

  lemma LeftBrokenStep(run: seq<State>, labels: seq<Label>, id: Id)
    requires |run| == |labels| + 1 && labels != []
    ensures var k := |labels| - 1;
            LeftBroken(run, labels, id)
            <==> Breaks(run[k], labels[k], id)
                 || (LeftBroken(run[..|labels|], labels[..k], id) && !Completes(run[k], labels[k], id))
  {
    hide Completes, Breaks;
    var k := |labels| - 1;
    var head, past := run[..|labels|], labels[..k];
    assert forall i | 0 <= i < k :: head[i] == run[i] && past[i] == labels[i];
    if Breaks(run[k], labels[k], id) {
      assert LeftBroken(run, labels, id);
    } else if LeftBroken(head, past, id) && !Completes(run[k], labels[k], id) {
      var j :| 0 <= j < k && Breaks(head[j], past[j], id) && forall i | j < i < k :: !Completes(head[i], past[i], id);
      assert Breaks(run[j], labels[j], id);
      forall i | j < i < |labels| ensures !Completes(run[i], labels[i], id) {
        if i < k { assert !Completes(head[i], past[i], id); }
      }
    }
  }

  /** A thread that has truncated a job.json finds it again. */
  ghost predicate FilesPresent(s: State) {
    forall t <- s.threads | s.threads[t].FillJob? && s.threads[t].id !in s.hist.deleted ::
      s.threads[t].id in s.disk && !s.disk[s.threads[t].id].job.Absent?
  }

  /** The files of a job before and after a section that writes no job.json, unless its directory is removed. */
  lemma OtherFiles(s: State, t: nat, w: Write, id: Id)
    requires Enabled(s, Advance(t, w)) && !s.threads[t].WriteJob? && !s.threads[t].FillJob?
    requires s.threads[t].RemoveDir? ==> s.threads[t].id != id
    ensures DirOf(NextAdvance(s, t, w).disk, id).job == DirOf(s.disk, id).job
  {
    hide Enqueue, StartNext, Finish, CanStart;
  }

  lemma JobFiles(s: State, t: nat, w: Write, id: Id)
    requires Enabled(s, Advance(t, w)) && (s.threads[t].WriteJob? || s.threads[t].FillJob?)
    requires s.threads[t].FillJob? && s.threads[t].id == id ==> id in s.disk && !s.disk[id].job.Absent?
    ensures var file, l := DirOf(NextAdvance(s, t, w).disk, id).job, Advance(t, w);
            && (Completes(s, l, id) ==> file == Whole(s.threads[t].job))
            && (Breaks(s, l, id) ==> file == if s.threads[t].WriteJob? then Torn else Spoiled)
            && (!Completes(s, l, id) && !Breaks(s, l, id) ==> file == DirOf(s.disk, id).job)
    ensures !(Completes(s, Advance(t, w), id) && Breaks(s, Advance(t, w), id))
  {
    hide Continue, SaveFailed;
    ContinueDisk(s, t, s.threads[t].id, s.threads[t].k);
  }

  lemma ContinueDisk(s: State, t: nat, id: Id, k: Cont)
    ensures Continue(s, t, id, k).disk == s.disk && SaveFailed(s, t, id, k).disk == s.disk
  {
  }

  /** What a section of a thread does to the job.json of a job that is not deleted. */
  lemma AdvanceFiles(s: State, t: nat, w: Write, id: Id)
    requires Inv(s) && Enabled(s, Advance(t, w)) && FilesPresent(s) && id !in s.hist.deleted
    ensures var file, l := DirOf(NextAdvance(s, t, w).disk, id).job, Advance(t, w);
            && (Completes(s, l, id) ==> file == Whole(s.threads[t].job))
            && (Breaks(s, l, id) ==> file.Torn? || file.Spoiled?)
            && (!Completes(s, l, id) && !Breaks(s, l, id) ==> file == DirOf(s.disk, id).job)
            && !(Completes(s, l, id) && Breaks(s, l, id))
  {
    ThreadFacts(s, t);
    hide Inv, NextAdvance, CopySafe, RequestSafe;
    if s.threads[t].WriteJob? || s.threads[t].FillJob? { JobFiles(s, t, w, id); } else { OtherFiles(s, t, w, id); }
  }

  /** A thread is to fill a job.json in only when it has just truncated it. */
  lemma OwnFill(s: State, t: nat, w: Write)
    requires Enabled(s, Advance(t, w)) && t in NextAdvance(s, t, w).threads && NextAdvance(s, t, w).threads[t].FillJob?
    ensures var pc, n := NextAdvance(s, t, w).threads[t], NextAdvance(s, t, w);
            pc.id in n.disk && !n.disk[pc.id].job.Absent?
  {
    hide Enqueue, StartNext, Finish, CanStart, DirOf;
  }

  lemma AdvanceFill(s: State, t: nat, w: Write, u: nat)
    requires Enabled(s, Advance(t, w)) && u in NextAdvance(s, t, w).threads && NextAdvance(s, t, w).threads[u].FillJob?
    ensures var pc, n := NextAdvance(s, t, w).threads[u], NextAdvance(s, t, w);
            || (u != t && u in s.threads && s.threads[u] == pc)
            || (pc.id in n.disk && !n.disk[pc.id].job.Absent?)
  {
    hide NextAdvance;
    AdvanceThreads(s, t, w, u);
    if u == t { OwnFill(s, t, w); }
  }

  lemma FilesPresentStep(s: State, l: Label)
    requires Inv(s) && Enabled(s, l) && FilesPresent(s)
    ensures FilesPresent(Next(s, l))
  {
    hide Inv, RecoveredMem, Insert, Cancel, Delete, DeleteError, SetStage, SetProgress;
    if l.Advance? {
      var n := NextAdvance(s, l.t, l.w);
      hide NextAdvance;
      forall u | u in n.threads && n.threads[u].FillJob? && n.threads[u].id !in n.hist.deleted
        ensures n.threads[u].id in n.disk && !n.disk[n.threads[u].id].job.Absent?
      {
        AdvanceFill(s, l.t, l.w, u);
        AdvanceDeleted(s, l.t, l.w);
        AdvanceFiles(s, l.t, l.w, n.threads[u].id);
      }
    } else if l.CrashInRecovery? {
      NoThreads(s);
    }
  }

  lemma NoThreads(s: State)
    requires Inv(s) && !s.up
    ensures s.threads == map[] && s.mem.jobs == map[]
  {
  }

  /** A restart, complete or not, as far as one directory goes. */
  lemma RecoveryFiles(s: State, l: Label, id: Id)
    requires Enabled(s, l) && (l.CrashInRecovery? || l.Boot?)
    ensures Readable(Next(s, l).disk, id) <==> Completes(s, l, id) || (Readable(s.disk, id) && !Breaks(s, l, id))
    ensures Completes(s, l, id) ==> Readable(s.disk, id)
  {
  }

  /** One step changes what can be read in exactly two ways. */
  lemma ReadableStep(s: State, l: Label, id: Id)
    requires Inv(s) && Enabled(s, l) && FilesPresent(s) && id !in Next(s, l).hist.deleted
    ensures id !in s.hist.deleted
    ensures Readable(Next(s, l).disk, id) <==> Completes(s, l, id) || (Readable(s.disk, id) && !Breaks(s, l, id))
    ensures !(Completes(s, l, id) && Breaks(s, l, id))
  {
    hide Inv, RecoveredMem, Insert, Cancel, Delete, DeleteError, SetStage, SetProgress, NextAdvance, FilesPresent;
    if l.Advance? {
      AdvanceDeleted(s, l.t, l.w);
      AdvanceFiles(s, l.t, l.w, id);
    } else if l.CrashInRecovery? || l.Boot? {
      RecoveryFiles(s, l, id);
    }
  }

  lemma AdvanceDeleted(s: State, t: nat, w: Write)
    requires Enabled(s, Advance(t, w))
    ensures NextAdvance(s, t, w).hist.deleted == s.hist.deleted
  {
  }

  lemma {:induction false} TraceFiles(run: seq<State>, labels: seq<Label>)
    requires IsTrace(run, labels)
    ensures FilesPresent(run[|labels|])
  {
    if labels != [] {
      hide Inv, Enabled, Next, FilesPresent;
      Shorter(run, labels);
      var k := |labels| - 1;
      TraceFiles(run[..|labels|], labels[..k]);
      FilesPresentStep(run[k], labels[k]);
    }
  }

  /** A job that was never deleted can be read exactly when its job.json was once written and no
      truncation of it was left unfilled, whatever calls, failed writes, crashes and restarts there were. */
  lemma {:induction false} ReadableIff(run: seq<State>, labels: seq<Label>, id: Id)
    requires IsTrace(run, labels) && id !in run[|labels|].hist.deleted
    ensures Readable(run[|labels|].disk, id) <==> OnceWritten(run, labels, id) && !LeftBroken(run, labels, id)
  {
    if labels != [] {
      hide Inv, Enabled, Next, OnceWritten, LeftBroken, Completes, Breaks, FilesPresent;
      Shorter(run, labels);
      var k := |labels| - 1;
      TraceFiles(run[..|labels|], labels[..k]);
      ReadableStep(run[k], labels[k], id);
      ReadableIff(run[..|labels|], labels[..k], id);
      OnceWrittenStep(run, labels, id);
      LeftBrokenStep(run, labels, id);
    }
  }

  lemma RestartOrder(s: State, boot: Label)
    requires boot.Boot? && Enabled(s, boot)
    ensures KeepsOrder(Next(s, boot).mem.queue, boot.order)
  {
    RequeuedInOrder(s.disk, boot.order);
    hide KeepsOrder, RequeuedIds, RecoveredDisk, RecoveredJobs, RecoveredRequests;
  }

  /** A restart after a crash at any point of any run, also inside an earlier restart: the manager's
      invariant holds with no slot in use; of the jobs never deleted, those come back whose job.json
      was once written and not left broken; ended ones come back as they were saved, those that were
      saved running are interrupted, and waiting ones are queued with their request, in the order of
      the listing. */
  lemma RestartRecovers(run: seq<State>, labels: seq<Label>, boot: Label)
    requires IsTrace(run, labels) && boot.Boot? && Enabled(run[|labels|], boot)
    ensures var disk, n, deleted := run[|labels|].disk, Next(run[|labels|], boot), run[|labels|].hist.deleted;
            && Inv(n) && n.mem.running == {}
            && (forall id | id !in deleted ::
                  id in n.mem.jobs <==> OnceWritten(run, labels, id) && !LeftBroken(run, labels, id))
            && KeepsOrder(n.mem.queue, boot.order)
            && (forall id :: id in n.mem.jobs <==> Readable(disk, id))
            && (forall id <- n.mem.jobs | Terminal(disk[id].job.value.status) :: n.mem.jobs[id] == disk[id].job.value)
            && (forall id <- n.mem.jobs | Active(disk[id].job.value.status) ::
                  n.mem.jobs[id] == disk[id].job.value.(status := Interrupted, stage := "done", result := None,
                                                        error := Some(RESTARTED_ERROR)))
            && (forall id <- n.mem.jobs | Waiting(disk[id].job.value.status) && id !in deleted ::
                  n.mem.jobs[id] == disk[id].job.value.(status := Queued, stage := QueuedStage(disk[id].job.value))
                  && id in n.mem.queue
                  && disk[id].request.Whole? && n.mem.requests[id] == disk[id].request.value)
  {
    hide Inv, Next, OnceWritten, LeftBroken, Readable;
    TraceIsRun(run, labels);
    RestartReads(run, |labels|, boot.t, boot.order, boot.limit, boot.writes);
    RestartOrder(run[|labels|], boot);
    forall id | id !in run[|labels|].hist.deleted
      ensures Readable(run[|labels|].disk, id) <==> OnceWritten(run, labels, id) && !LeftBroken(run, labels, id)
    {
      ReadableIff(run, labels, id);
    }
  }

  // ---------------------------------------------------------------- what the files hold, deleted jobs included

  /** What a step does to one file: nothing, a complete value, or anything else. */
  datatype Effect<T> = Keeps | Sets(value: T) | Ruins

  /** The value was written completely, and nothing was done to the file since. */
  ghost predicate Stands<T>(effects: seq<Effect<T>>, value: T) {
    exists j | 0 <= j < |effects| :: effects[j] == Sets(value) && forall k | j < k < |effects| :: effects[k] == Keeps
  }

  lemma StandsStep<T>(effects: seq<Effect<T>>, last: Effect<T>, value: T)
    ensures Stands(effects + [last], value) <==> last == Sets(value) || (last == Keeps && Stands(effects, value))
  {
    var all := effects + [last];
    assert all[|effects|] == last && forall k | 0 <= k < |effects| :: all[k] == effects[k];
    if last == Sets(value) {
      assert all[|effects|] == Sets(value);
    } else if last == Keeps && Stands(effects, value) {
      var j :| 0 <= j < |effects| && effects[j] == Sets(value) && forall k | j < k < |effects| :: effects[k] == Keeps;
      assert all[j] == Sets(value);
      assert forall k | j < k < |all| :: all[k] == Keeps;
    }
  }

  function JobEffect(s: State, l: Label, id: Id): Effect<Job> {
    if l.Advance? then
      if l.t !in s.threads || id !in s.disk then Keeps else
      match s.threads[l.t]
      case WriteJob(x, _, _) => if x == id && Succeeds(l.w) then Ruins else Keeps
      case FillJob(x, job, _) =>
        if x != id || l.w.Refused? || s.disk[id].job.Absent? then Keeps else if l.w.Done? then Sets(job) else Ruins
      case RemoveDir(x) => if x == id && Succeeds(l.w) then Ruins else Keeps
      case _ => Keeps
    else if !RewrittenBy(s, l, id) then Keeps
    else
      match WriteOf(RecoveryOf(l).1, id)
      case Refused => Keeps
      case Partial => Ruins
      case _ => Sets(RecoveredJob(s.disk[id]))
  }

  function RequestEffect(s: State, l: Label, id: Id): Effect<Request> {
    if !l.Advance? || l.t !in s.threads || !Succeeds(l.w) then Keeps else
    match s.threads[l.t]
    case WriteRequest(x, _) => if x == id then Ruins else Keeps
    case FillRequest(x, req) => if x == id && id in s.disk then Sets(req) else Keeps
    case RemoveDir(x) => if x == id then Ruins else Keeps
    case _ => Keeps
  }

  function JobEffects(run: seq<State>, labels: seq<Label>, id: Id): seq<Effect<Job>>
    requires |labels| < |run|
  {
    seq(|labels|, i requires 0 <= i < |labels| => JobEffect(run[i], labels[i], id))
  }

  function RequestEffects(run: seq<State>, labels: seq<Label>, id: Id): seq<Effect<Request>>
    requires |labels| < |run|
  {
    seq(|labels|, i requires 0 <= i < |labels| => RequestEffect(run[i], labels[i], id))
  }

  /** A file before and after a step with some effect. */
  predicate Affected<T(==)>(before: File<T>, effect: Effect<T>, after: File<T>) {
    match effect
    case Keeps => after == before
    case Sets(value) => after == Whole(value)
    case Ruins => !after.Whole?
  }

  ghost predicate DirAffected(s: State, l: Label, n: State, id: Id) {
    && Affected(DirOf(s.disk, id).job, JobEffect(s, l, id), DirOf(n.disk, id).job)
    && Affected(DirOf(s.disk, id).request, RequestEffect(s, l, id), DirOf(n.disk, id).request)
  }

  lemma AdvanceAffects(s: State, t: nat, w: Write, id: Id)
    requires Enabled(s, Advance(t, w))
    ensures DirAffected(s, Advance(t, w), NextAdvance(s, t, w), id)
  {
    hide Enqueue, StartNext, Finish, CanStart;
  }

  lemma RecoveryAffects(s: State, l: Label, id: Id)
    requires Enabled(s, l) && (l.CrashInRecovery? || l.Boot?)
    ensures DirAffected(s, l, Next(s, l), id)
  {
    hide RecoveredMem;
  }

  lemma StepAffects(s: State, l: Label, id: Id)
    requires Enabled(s, l)
    ensures DirAffected(s, l, Next(s, l), id)
  {
    hide NextAdvance, RecoveredMem, RecoveredDisk, Insert, Cancel, Delete, DeleteError, SetStage, SetProgress;
    if l.Advance? { AdvanceAffects(s, l.t, l.w, id); }
    else if l.CrashInRecovery? || l.Boot? { RecoveryAffects(s, l, id); }
  }

  lemma EffectsStep(run: seq<State>, labels: seq<Label>, id: Id)
    requires |run| == |labels| + 1 && labels != []
    ensures var k := |labels| - 1;
            var head, past := run[..|labels|], labels[..k];
            && JobEffects(run, labels, id) == JobEffects(head, past, id) + [JobEffect(run[k], labels[k], id)]
            && RequestEffects(run, labels, id) == RequestEffects(head, past, id) + [RequestEffect(run[k], labels[k], id)]
  {
    hide JobEffect, RequestEffect;
  }

  /** Over every run, and for deleted jobs too, a file holds a value exactly when that value was written
      completely and nothing was done to the file since. */
  lemma {:induction false} FilesHold(run: seq<State>, labels: seq<Label>, id: Id, job: Job, request: Request)
    requires IsTrace(run, labels)
    ensures var d := DirOf(run[|labels|].disk, id);
            && (d.job == Whole(job) <==> Stands(JobEffects(run, labels, id), job))
            && (d.request == Whole(request) <==> Stands(RequestEffects(run, labels, id), request))
  {
    hide Inv, Enabled, Next, Stands, JobEffect, RequestEffect, DirOf;
    if labels == [] {
      NothingHeld(run, id, job, request);
    } else {
      Shorter(run, labels);
      hide IsTrace;
      var k := |labels| - 1;
      var head, past := run[..|labels|], labels[..k];
      FilesHold(head, past, id, job, request);
      StepAffects(run[k], labels[k], id);
      EffectsStep(run, labels, id);
      hide JobEffects, RequestEffects;
      StandsStep(JobEffects(head, past, id), JobEffect(run[k], labels[k], id), job);
      StandsStep(RequestEffects(head, past, id), RequestEffect(run[k], labels[k], id), request);
    }
  }

  lemma NothingHeld(run: seq<State>, id: Id, job: Job, request: Request)
    requires IsTrace(run, [])
    ensures DirOf(run[0].disk, id) == EMPTY_DIR
    ensures !Stands(JobEffects(run, [], id), job) && !Stands(RequestEffects(run, [], id), request)
  {
  }

  /** A restart gives up a waiting job for lack of its request. */
  predicate GivenUp(disk: Disk, n: State, id: Id) {
    && Readable(disk, id) && Waiting(disk[id].job.value.status) && id in n.mem.jobs
    && n.mem.jobs[id] == Finished(disk[id].job.value, Interrupted, None, Some(MISSING_REQUEST_ERROR))
  }

  /** A restart after any run gives up exactly those jobs of which a waiting copy was written completely
      and stands, and no request does.  All of them were deleted. */
  lemma GivenUpIff(run: seq<State>, labels: seq<Label>, boot: Label, id: Id)
    requires IsTrace(run, labels) && boot.Boot? && Enabled(run[|labels|], boot)
    ensures GivenUp(run[|labels|].disk, Next(run[|labels|], boot), id)
            <==> (exists job: Job :: Waiting(job.status) && Stands(JobEffects(run, labels, id), job))
                 && (forall request: Request :: !Stands(RequestEffects(run, labels, id), request))
    ensures GivenUp(run[|labels|].disk, Next(run[|labels|], boot), id) ==> id in run[|labels|].hist.deleted
  {
    hide Stands, Inv, Enabled, Next, JobEffects, RequestEffects;
    var s := run[|labels|];
    var d := DirOf(s.disk, id);
    BootGivesUp(s, boot, id);
    forall job: Job ensures d.job == Whole(job) <==> Stands(JobEffects(run, labels, id), job) {
      FilesHold(run, labels, id, job, job.request);
    }
    forall request: Request ensures d.request == Whole(request) <==> Stands(RequestEffects(run, labels, id), request) {
      FilesHold(run, labels, id, NewJob(request), request);
    }
    if d.job.Whole? { assert Stands(JobEffects(run, labels, id), d.job.value); }
    if d.request.Whole? { assert Stands(RequestEffects(run, labels, id), d.request.value); }
    TraceIsRun(run, labels);
    RunKeepsInv(run, |labels|);
    DiskFacts(s);
  }

  lemma BootGivesUp(s: State, boot: Label, id: Id)
    requires boot.Boot? && Enabled(s, boot)
    ensures GivenUp(s.disk, Next(s, boot), id)
            <==> (var d := DirOf(s.disk, id); d.job.Whole? && Waiting(d.job.value.status) && !d.request.Whole?)
  {
  }

  // ---------------------------------------------------------------- saves and the jobs they save

  /** The thread holds an encoded copy of a job that it is still to write. */
  predicate HoldsCopy(pc: Pc) {
    pc.WriteJob? || pc.FillJob?
  }

  /** What an observer of one process notes down.

      A save is up to date while the job has not changed since it was encoded.  `current` holds the
      threads with an up-to-date copy; `saved` the ids whose save that finished last was up to date
      and has been since; `finished` and `failed` the ids for which some up-to-date save has
      finished or failed since the job last changed; `revived` the ids that have changed after
      they had ended. */
  datatype Track = Track(current: set<nat>, saved: set<Id>, finished: set<Id>, failed: set<Id>, revived: set<Id>)

  const NOTHING := Track({}, {}, {}, {}, {})

  function Changed(m: Mem, n: Mem): set<Id> {
    set id | id in m.jobs.Keys + n.jobs.Keys && JobOf(m, id) != JobOf(n, id)
  }

  /** The notes after a change of the jobs `ids`: every save of theirs is out of date. */
  function Outdate(tr: Track, s: State, n: State, ids: set<Id>): Track {
    Track((set t | t in tr.current && !(t in s.threads && HoldsCopy(s.threads[t]) && s.threads[t].id in ids)),
          tr.saved - ids, tr.finished - ids, tr.failed - ids,
          tr.revived + (set id | id in ids && id in s.mem.jobs && Terminal(s.mem.jobs[id].status) && id in n.mem.jobs))
  }

  /** The notes after a section of saveJob. */
  function FollowSave(tr: Track, s: State, t: nat, w: Write): Track
    requires t in s.threads
  {
    match s.threads[t]
    case Save(_, _) => tr.(current := tr.current + {t})
    case WriteJob(id, _, _) =>
      if t in tr.current && !(Succeeds(w) && id in s.disk) then tr.(failed := tr.failed + {id}) else tr
    case FillJob(id, _, _) =>
      if t !in tr.current then (if w.Done? then tr.(saved := tr.saved - {id}) else tr)
      else if !Succeeds(w) then tr.(failed := tr.failed + {id})
      else tr.(finished := tr.finished + {id}, saved := if w.Done? then tr.saved + {id} else tr.saved)
    case _ => tr
  }

  /** The notes of a process that has just recovered its jobs. */
  function Recovering(disk: Disk, order: seq<Id>, writes: Writes): Track {
    var kept := set id | id in order && Readable(disk, id);
    var good := set id | id in kept && (Rewritten(disk[id]) ==> Succeeds(WriteOf(writes, id)));
    Track({}, good, good, kept - good, {})
  }

  function Follow(tr: Track, s: State, l: Label): Track
    requires Enabled(s, l)
  {
    match l
    case Boot(_, order, _, writes) => Recovering(s.disk, order, writes)
    case Crash => NOTHING
    case Advance(t, w) =>
      Outdate(FollowSave(tr, s, t, w), s, Next(s, l), Changed(s.mem, Next(s, l).mem))
    case _ => Outdate(tr, s, Next(s, l), Changed(s.mem, Next(s, l).mem))
  }

  ghost function TrackOf(run: seq<State>, labels: seq<Label>): Track
    requires IsTrace(run, labels)
    decreases |labels|
  {
    if labels == [] then NOTHING else
    var k := |labels| - 1;
    Shorter(run, labels);
    Follow(TrackOf(run[..|labels|], labels[..k]), run[k], labels[k])
  }

  /** Up-to-date copies are the job in memory; the others are of a job that had not ended. */
  predicate CopyOk(job: Job, copy: Job, current: bool, revived: bool) {
    if current then copy == job else revived || !Terminal(copy.status)
  }

  ghost predicate CopiesInv(tr: Track, threads: map<nat, Pc>, jobs: map<Id, Job>) {
    forall t <- threads | HoldsCopy(threads[t]) && threads[t].id in jobs ::
      CopyOk(jobs[threads[t].id], threads[t].job, t in tr.current, threads[t].id in tr.revived)
  }

  ghost predicate FileCopiesInv(tr: Track, disk: Disk, jobs: map<Id, Job>, deleted: set<Id>) {
    forall id <- jobs | id !in deleted && Readable(disk, id) ::
      CopyOk(jobs[id], disk[id].job.value, id in tr.saved, id in tr.revived)
  }

  /** Thread `t` will save the job `id` as it is now. */
  predicate Saves(current: set<nat>, threads: map<nat, Pc>, t: nat, id: Id) {
    t in threads && (threads[t].Save? || (HoldsCopy(threads[t]) && t in current)) && threads[t].id == id
  }

  ghost predicate SaveOwed(current: set<nat>, threads: map<nat, Pc>, id: Id) {
    exists t <- threads :: Saves(current, threads, t, id)
  }

  /** An ended job is saved, or its save has failed, or some thread is still to save it. */
  ghost predicate OwedInv(tr: Track, threads: map<nat, Pc>, jobs: map<Id, Job>) {
    forall id <- jobs | Terminal(jobs[id].status) ::
      id in tr.finished + tr.failed || SaveOwed(tr.current, threads, id)
  }

  ghost predicate TrackInv(tr: Track, s: State) {
    && CopiesInv(tr, s.threads, s.mem.jobs)
    && FileCopiesInv(tr, s.disk, s.mem.jobs, s.hist.deleted)
    && OwedInv(tr, s.threads, s.mem.jobs)
  }

  lemma OwnCopy(s: State, t: nat, w: Write)
    requires Enabled(s, Advance(t, w))
    requires t in NextAdvance(s, t, w).threads && HoldsCopy(NextAdvance(s, t, w).threads[t])
    ensures var pc, n := NextAdvance(s, t, w).threads[t], NextAdvance(s, t, w);
            if s.threads[t].Save? then
              s.threads[t].id == pc.id && pc.id in s.mem.jobs && s.mem.jobs[pc.id] == pc.job && n.mem == s.mem
            else HoldsCopy(s.threads[t]) && s.threads[t].id == pc.id && s.threads[t].job == pc.job
  {
    hide Enqueue, StartNext, Finish, CanStart, DirOf;
  }

  lemma AdvanceCopy(s: State, t: nat, w: Write, u: nat)
    requires Enabled(s, Advance(t, w))
    requires u in NextAdvance(s, t, w).threads && HoldsCopy(NextAdvance(s, t, w).threads[u])
    ensures u in s.threads
    ensures var pc, n := NextAdvance(s, t, w).threads[u], NextAdvance(s, t, w);
            if s.threads[u].Save? && u == t then
              s.threads[u].id == pc.id && pc.id in s.mem.jobs && s.mem.jobs[pc.id] == pc.job && n.mem == s.mem
            else HoldsCopy(s.threads[u]) && s.threads[u].id == pc.id && s.threads[u].job == pc.job
  {
    hide NextAdvance;
    AdvanceThreads(s, t, w, u);
    if u == t { OwnCopy(s, t, w); }
  }

  /** Where the copies come from: a step leaves a thread's copy alone or encodes the job anew. */
  lemma CopyStep(s: State, l: Label, u: nat)
    requires Enabled(s, l) && u in Next(s, l).threads && HoldsCopy(Next(s, l).threads[u])
    ensures u in s.threads
    ensures var pc := Next(s, l).threads[u];
            if s.threads[u].Save? then
              l.Advance? && l.t == u && s.threads[u].id == pc.id && pc.id in s.mem.jobs && s.mem.jobs[pc.id] == pc.job
              && Next(s, l).mem == s.mem
            else HoldsCopy(s.threads[u]) && s.threads[u].id == pc.id && s.threads[u].job == pc.job
  {
    hide NextAdvance, Cancel, Delete, DeleteError, SetStage, SetProgress, Insert, RecoveredMem, RecoveredDisk, DirOf,
         CancelOutcomeOf;
    if l.Advance? { AdvanceCopy(s, l.t, l.w, u); }
  }

  /** A job that appears while the daemon is up is one nobody knew. */
  lemma JobAppears(s: State, l: Label, id: Id)
    requires Inv(s) && Enabled(s, l) && !l.Boot? && id in Next(s, l).mem.jobs && id !in s.mem.jobs
    ensures id !in s.hist.known
  {
    hide Inv, Next;
    if s.up && id in s.hist.known {
      StaysUp(s, l);
      NotReborn(s, l, id);
    } else if !s.up {
      NoThreads(s);
      StaysDown(s, l);
    }
  }

  lemma StaysUp(s: State, l: Label)
    requires Enabled(s, l) && s.up && Next(s, l).mem.jobs != map[]
    ensures Next(s, l).up
  {
  }

  lemma StaysDown(s: State, l: Label)
    requires Inv(s) && Enabled(s, l) && !s.up && !l.Boot?
    ensures Next(s, l).mem == s.mem && l.CrashInRecovery?
  {
  }

  lemma FollowCurrent(tr: Track, s: State, l: Label, u: nat)
    requires Enabled(s, l) && !l.Boot? && !l.Crash? && u in s.threads && (HoldsCopy(s.threads[u]) || s.threads[u].Save?)
    ensures var ids := Changed(s.mem, Next(s, l).mem);
            u in Follow(tr, s, l).current
            <==> if s.threads[u].Save? then u in tr.current || (l.Advance? && l.t == u)
                 else u in tr.current && s.threads[u].id !in ids
  {
    hide Next, Changed;
  }

  lemma FollowIds(tr: Track, s: State, l: Label, id: Id)
    requires Enabled(s, l) && !l.Boot? && !l.Crash?
    ensures var ids, after := Changed(s.mem, Next(s, l).mem), Follow(tr, s, l);
            && (id in after.saved
                <==> id !in ids && if l.Advance? && Completes(s, l, id) then l.t in tr.current else id in tr.saved)
            && (id in after.revived
                <==> id in tr.revived
                     || (id in ids && id in s.mem.jobs && Terminal(s.mem.jobs[id].status) && id in Next(s, l).mem.jobs))
            && (id !in ids && id in tr.finished + tr.failed ==> id in after.finished + after.failed)
  {
    hide Next, Changed;
  }

  lemma CopiesStep(tr: Track, s: State, l: Label)
    requires Inv(s) && Enabled(s, l) && CopiesInv(tr, s.threads, s.mem.jobs)
    ensures CopiesInv(Follow(tr, s, l), Next(s, l).threads, Next(s, l).mem.jobs)
  {
    var n, after := Next(s, l), Follow(tr, s, l);
    if l.Boot? || l.Crash? { return; }
    hide Inv, Next, Follow, Enabled, HoldsCopy;
    forall u | u in n.threads && HoldsCopy(n.threads[u]) && n.threads[u].id in n.mem.jobs
      ensures CopyOk(n.mem.jobs[n.threads[u].id], n.threads[u].job, u in after.current, n.threads[u].id in after.revived)
    {
      var id := n.threads[u].id;
      CopyStep(s, l, u);
      ThreadFacts(s, u);
      if id !in s.mem.jobs { JobAppears(s, l, id); }
      FollowCurrent(tr, s, l, u);
      FollowIds(tr, s, l, id);
    }
  }

  /** Where the files come from: a complete job.json is the copy just written or was there before. */
  lemma FileStep(s: State, l: Label, id: Id)
    requires Inv(s) && Enabled(s, l) && FilesPresent(s) && !l.Boot? && !l.CrashInRecovery?
    requires id !in s.hist.deleted && Readable(Next(s, l).disk, id)
    ensures if l.Advance? && Completes(s, l, id)
            then Next(s, l).disk[id].job.value == s.threads[l.t].job && Next(s, l).mem == s.mem
            else Readable(s.disk, id) && Next(s, l).disk[id].job == s.disk[id].job
  {
    hide Inv, FilesPresent, NextAdvance;
    if l.Advance? {
      AdvanceFiles(s, l.t, l.w, id);
      if Completes(s, l, id) { FillMemory(s, l.t, l.w); }
    }
  }

  lemma FillMemory(s: State, t: nat, w: Write)
    requires Enabled(s, Advance(t, w)) && s.threads[t].FillJob?
    ensures NextAdvance(s, t, w).mem == s.mem
  {
  }

  lemma DeletedGrows(s: State, l: Label)
    requires Enabled(s, l)
    ensures s.hist.deleted <= Next(s, l).hist.deleted
  {
    hide NextAdvance;
    if l.Advance? { AdvanceDeleted(s, l.t, l.w); }
  }

  lemma RecoveredCopy(disk: Disk, order: seq<Id>, writes: Writes, id: Id)
    requires Lists(order, disk) && Readable(disk, id)
    ensures var tr, after := Recovering(disk, order, writes), RecoveredDisk(disk, Ids(order), writes);
            var job := RecoveredJob(disk[id]);
            && (Readable(after, id) ==> CopyOk(job, after[id].job.value, id in tr.saved, false))
            && id in tr.finished + tr.failed
  {
  }

  lemma BootCopies(s: State, l: Label)
    requires Enabled(s, l) && l.Boot?
    ensures FileCopiesInv(Follow(NOTHING, s, l), Next(s, l).disk, Next(s, l).mem.jobs, Next(s, l).hist.deleted)
    ensures OwedInv(Follow(NOTHING, s, l), Next(s, l).threads, Next(s, l).mem.jobs)
  {
    var jobs := Next(s, l).mem.jobs;
    assert Next(s, l).disk == RecoveredDisk(s.disk, Ids(l.order), l.writes);
    assert forall id <- jobs :: Readable(s.disk, id) && jobs[id] == RecoveredJob(s.disk[id]);
    assert Follow(NOTHING, s, l) == Recovering(s.disk, l.order, l.writes);
    hide Next, Follow, Enabled, RecoveredDisk, RecoveredJob, Readable, Recovering, CopyOk;
    forall id | id in jobs { RecoveredCopy(s.disk, l.order, l.writes, id); }
  }

  lemma FileCopiesStep(tr: Track, s: State, l: Label)
    requires Inv(s) && Enabled(s, l) && FilesPresent(s)
    requires CopiesInv(tr, s.threads, s.mem.jobs) && FileCopiesInv(tr, s.disk, s.mem.jobs, s.hist.deleted)
    ensures FileCopiesInv(Follow(tr, s, l), Next(s, l).disk, Next(s, l).mem.jobs, Next(s, l).hist.deleted)
  {
    if l.Boot? { BootCopies(s, l); return; }
    if l.Crash? { return; }
    if l.CrashInRecovery? { NoThreads(s); return; }
    var n, after := Next(s, l), Follow(tr, s, l);
    DeletedGrows(s, l);
    hide Inv, Next, Follow, Enabled, FilesPresent;
    forall id | id in n.mem.jobs && id !in n.hist.deleted && Readable(n.disk, id)
      ensures CopyOk(n.mem.jobs[id], n.disk[id].job.value, id in after.saved, id in after.revived)
    {
      FileStep(s, l, id);
      DiskFacts(s);
      if l.Advance? && Completes(s, l, id) { ThreadFacts(s, l.t); }
      if id !in s.mem.jobs { JobAppears(s, l, id); }
      FollowIds(tr, s, l, id);
    }
  }


  lemma AdvanceEndsOnly(s: State, t: nat, w: Write, id: Id)
    requires Enabled(s, Advance(t, w)) && id in NextAdvance(s, t, w).mem.jobs
    requires JobOf(NextAdvance(s, t, w).mem, id) != JobOf(s.mem, id)
    requires Terminal(NextAdvance(s, t, w).mem.jobs[id].status)
    ensures NextAdvance(s, t, w).threads == s.threads[t := Save(id, ToSchedule)]
  {
    hide DirOf, TerminalState, Finished;
    if !Ends(s, Advance(t, w), id) {
      if Enqueues(s, Advance(t, w), id) || Starts(s, Advance(t, w), id) { return; }
      AdvanceLeavesJob(s, t, w, id);
    }
  }

  lemma CallEndsOnly(s: State, l: Label, id: Id)
    requires Enabled(s, l) && (l.CallCancel? || l.CallDelete? || l.CallCreate?) && l.id == id
    requires id in Next(s, l).mem.jobs && Terminal(Next(s, l).mem.jobs[id].status)
    requires JobOf(s.mem, id) != JobOf(Next(s, l).mem, id)
    ensures Next(s, l).threads == s.threads[l.t := Save(id, ToReturn)]
  {
    hide Without;
  }

  /** A job that has just ended is about to be saved. */
  lemma EndedIsSaved(s: State, l: Label, id: Id) returns (t: nat)
    requires Inv(s) && Enabled(s, l) && s.up && Next(s, l).up
    requires id in Next(s, l).mem.jobs && Terminal(Next(s, l).mem.jobs[id].status)
    requires JobOf(s.mem, id) != JobOf(Next(s, l).mem, id)
    ensures t in Next(s, l).threads && Next(s, l).threads[t].Save? && Next(s, l).threads[t].id == id
  {
    hide Inv, NextAdvance, Enqueues, Ends, Starts;
    if l.Advance? {
      AdvanceEndsOnly(s, l.t, l.w, id);
      t := l.t;
    } else if Reports(s, l, id) {
      RunnerFacts(s, l.t, l.t);
      EmitIs(s, l);
    } else if (l.CallCreate? || l.CallCancel? || l.CallDelete?) && l.id == id {
      CallEndsOnly(s, l, id);
      t := l.t;
    } else {
      StepLeavesJob(s, l, id);
    }
  }

  /** Other threads do not disturb a save. */
  lemma OthersStay(s: State, l: Label, u: nat)
    requires Enabled(s, l) && !l.Boot? && !l.Crash? && u in s.threads && !(l.Advance? && l.t == u)
    requires HoldsCopy(s.threads[u]) || s.threads[u].Save?
    ensures u in Next(s, l).threads && Next(s, l).threads[u] == s.threads[u]
  {
    if l.Advance? { var next := AdvancePool(s, l.t, l.w); }
  }

  /** A save goes on, finishes or fails. */
  lemma SaveStep(tr: Track, s: State, t: nat, w: Write, id: Id)
    requires Enabled(s, Advance(t, w)) && Saves(tr.current, s.threads, t, id) && id in s.mem.jobs
    ensures var after := FollowSave(tr, s, t, w);
            || id in after.finished + after.failed
            || Saves(after.current, NextAdvance(s, t, w).threads, t, id)
    ensures NextAdvance(s, t, w).mem == s.mem
  {
  }

  lemma SaveGoesOn(tr: Track, s: State, l: Label, id: Id, u: nat)
    requires Enabled(s, l) && !l.Boot? && !l.Crash? && Saves(tr.current, s.threads, u, id)
    requires id in s.mem.jobs && id !in Changed(s.mem, Next(s, l).mem)
    ensures var after := Follow(tr, s, l);
            id in after.finished + after.failed || Saves(after.current, Next(s, l).threads, u, id)
  {
    if l.Advance? && l.t == u {
      SaveStep(tr, s, u, l.w, id);
    } else {
      hide Next, Follow, Enabled;
      OthersStay(s, l, u);
      FollowCurrent(tr, s, l, u);
    }
  }

  lemma OwedStep(tr: Track, s: State, l: Label)
    requires Inv(s) && Enabled(s, l) && OwedInv(tr, s.threads, s.mem.jobs)
    ensures OwedInv(Follow(tr, s, l), Next(s, l).threads, Next(s, l).mem.jobs)
  {
    if l.Boot? { BootCopies(s, l); return; }
    if l.Crash? { return; }
    if l.CrashInRecovery? { NoThreads(s); return; }
    var n, after := Next(s, l), Follow(tr, s, l);
    StaysUpInside(s, l);
    hide Inv, Next, Follow, Enabled;
    forall id | id in n.mem.jobs && Terminal(n.mem.jobs[id].status)
      ensures id in after.finished + after.failed || SaveOwed(after.current, n.threads, id)
    {
      if JobOf(s.mem, id) != JobOf(n.mem, id) {
        var t := EndedIsSaved(s, l, id);
        assert Saves(after.current, n.threads, t, id);
      } else if id in tr.finished + tr.failed {
        FollowIds(tr, s, l, id);
      } else {
        var u :| u in s.threads && Saves(tr.current, s.threads, u, id);
        SaveGoesOn(tr, s, l, id, u);
        if id !in after.finished + after.failed { assert u in n.threads; }
      }
    }
  }

  lemma StaysUpInside(s: State, l: Label)
    requires Inv(s) && Enabled(s, l) && !l.Boot? && !l.Crash? && !l.CrashInRecovery?
    ensures s.up && Next(s, l).up
  {
    hide Inv, NextAdvance, RecoveredMem, Insert, Cancel, Delete, DeleteError, SetStage, SetProgress;
    if l.Advance? { AdvanceUp(s, l.t, l.w); }
    if l.Advance? || l.Emit? || l.RunnerReturns? || l.Fork? { InvUp(s, l.t); }
  }

  lemma AdvanceUp(s: State, t: nat, w: Write)
    requires Enabled(s, Advance(t, w))
    ensures NextAdvance(s, t, w).up == s.up
  {
  }

  lemma {:induction false} TraceTrack(run: seq<State>, labels: seq<Label>)
    requires IsTrace(run, labels)
    ensures TrackInv(TrackOf(run, labels), run[|labels|])
  {
    if labels != [] {
      hide Inv, Enabled, Next, FilesPresent, Follow;
      Shorter(run, labels);
      var k := |labels| - 1;
      var tr := TrackOf(run[..|labels|], labels[..k]);
      TraceFiles(run[..|labels|], labels[..k]);
      TraceTrack(run[..|labels|], labels[..k]);
      CopiesStep(tr, run[k], labels[k]);
      FileCopiesStep(tr, run[k], labels[k]);
      OwedStep(tr, run[k], labels[k]);
    }
  }

  // ---------------------------------------------------------------- when the saved copy is the job

  lemma NewlySaved(tr: Track, s: State, l: Label, id: Id)
    requires Enabled(s, l) && id in Follow(tr, s, l).saved && id !in tr.saved
    ensures Completes(s, l, id) || (l.Boot? && Readable(s.disk, id))
  {
    hide NextAdvance;
  }

  /** What counts as saved was written. */
  lemma {:induction false} SavedWritten(run: seq<State>, labels: seq<Label>, id: Id)
    requires IsTrace(run, labels) && id in TrackOf(run, labels).saved && id !in run[|labels|].hist.deleted
    ensures OnceWritten(run, labels, id)
  {
    hide Inv, Enabled, Next, Follow, OnceWritten, Completes;
    Shorter(run, labels);
    var k := |labels| - 1;
    var head, past := run[..|labels|], labels[..k];
    var tr := TrackOf(head, past);
    DeletedGrows(run[k], labels[k]);
    OnceWrittenStep(run, labels, id);
    if id in tr.saved {
      SavedWritten(head, past, id);
    } else {
      NewlySaved(tr, run[k], labels[k], id);
      ReadableIff(head, past, id);
    }
  }

  /** The job.json of `id` holds the job as it is in memory. */
  predicate SavedAsIs(s: State, id: Id) {
    id in s.mem.jobs && Readable(s.disk, id) && s.disk[id].job.value == s.mem.jobs[id]
  }

  /** Some up-to-date save has finished, and after it one that was encoded before the job last changed. */
  predicate Overtaken(tr: Track, id: Id) {
    id in tr.finished && id !in tr.saved
  }

  /** A save that was up to date when it finished, with no other save finishing after it that was not
      and no truncation left unfilled, means that the file is the job.  For an ended job that was
      not revived there is no other way. */
  lemma SavedCopyIsTheJob(run: seq<State>, labels: seq<Label>, id: Id)
    requires IsTrace(run, labels) && id in run[|labels|].mem.jobs && id !in run[|labels|].hist.deleted
    ensures var s, tr := run[|labels|], TrackOf(run, labels);
            && (id in tr.saved && !LeftBroken(run, labels, id) ==> SavedAsIs(s, id))
            && (Terminal(s.mem.jobs[id].status) && id !in tr.revived ==>
                  (SavedAsIs(s, id) <==> id in tr.saved && !LeftBroken(run, labels, id)))
  {
    hide LeftBroken, OnceWritten;
    TraceTrack(run, labels);
    ReadableIff(run, labels, id);
    if id in TrackOf(run, labels).saved { SavedWritten(run, labels, id); }
  }

  /** When no thread is left, the file of an ended job that none of whose up-to-date saves failed is
      the job in memory, unless a save encoded before the job's last change finished after one that
      was encoded since, or a truncation was left unfilled; if the job was not revived, only then. */
  lemma SavedAtRest(run: seq<State>, labels: seq<Label>, id: Id)
    requires IsTrace(run, labels) && run[|labels|].threads == map[]
    requires id in run[|labels|].mem.jobs && id !in run[|labels|].hist.deleted
    requires Terminal(run[|labels|].mem.jobs[id].status) && id !in TrackOf(run, labels).failed
    ensures var s, tr := run[|labels|], TrackOf(run, labels);
            && (!Overtaken(tr, id) && !LeftBroken(run, labels, id) ==> SavedAsIs(s, id))
            && (id !in tr.revived ==>
                  (SavedAsIs(s, id) <==> !Overtaken(tr, id) && !LeftBroken(run, labels, id)))
  {
    hide LeftBroken, SavedAsIs;
    TraceTrack(run, labels);
    SavedCopyIsTheJob(run, labels, id);
  }

  /** A saved copy that is not the ended job is of an earlier state, before it had ended. */
  lemma SavedEarlier(run: seq<State>, labels: seq<Label>, id: Id)
    requires IsTrace(run, labels) && id in run[|labels|].mem.jobs && id !in run[|labels|].hist.deleted
    requires id !in TrackOf(run, labels).revived && Readable(run[|labels|].disk, id) && !SavedAsIs(run[|labels|], id)
    ensures !Terminal(run[|labels|].disk[id].job.value.status)
  {
    TraceTrack(run, labels);
  }

  /** What a recovery makes of a saved copy is the ended job exactly when the copy is. */
  lemma RecoveredIsTheJob(d: Dir, job: Job)
    requires d.job.Whole? && Terminal(job.status) && job.status != Interrupted
    ensures RecoveredJob(d) == job <==> d.job.value == job
    ensures !Terminal(d.job.value.status) ==> RecoveredJob(d).status in {Queued, Interrupted}
  {
  }

  lemma CrashAndBoot(s: State, boot: Label)
    requires s.up && boot.Boot? && Enabled(Next(s, Crash), boot)
    ensures Lists(boot.order, s.disk)
    ensures Next(Next(s, Crash), boot).mem == RecoveredMem(s.disk, boot.order, Limit(boot.limit))
  {
  }

  lemma RecoveredJobIs(disk: Disk, order: seq<Id>, maxRunning: nat, id: Id)
    requires Lists(order, disk) && Readable(disk, id)
    ensures id in RecoveredMem(disk, order, maxRunning).jobs
    ensures RecoveredMem(disk, order, maxRunning).jobs[id] == RecoveredJob(disk[id])
  {
    hide RecoveredJob;
  }

  /** A crash now, and a restart: a job that has ended comes back as it was exactly when its saved copy
      is up to date and whole.  Otherwise it is missing, or is queued again or marked interrupted. */
  lemma EndedJobSurvives(run: seq<State>, labels: seq<Label>, boot: Label, id: Id)
    requires IsTrace(run, labels) && run[|labels|].up
    requires boot.Boot? && Enabled(Next(run[|labels|], Crash), boot)
    requires id in run[|labels|].mem.jobs && id !in run[|labels|].hist.deleted
    requires Terminal(run[|labels|].mem.jobs[id].status) && run[|labels|].mem.jobs[id].status != Interrupted
    requires id !in TrackOf(run, labels).revived
    ensures var s, tr := run[|labels|], TrackOf(run, labels);
            var n := Next(Next(s, Crash), boot);
            && (JobOf(n.mem, id) == JobOf(s.mem, id) <==> id in tr.saved && !LeftBroken(run, labels, id))
            && (id in n.mem.jobs <==> OnceWritten(run, labels, id) && !LeftBroken(run, labels, id))
            && (id in n.mem.jobs && n.mem.jobs[id] != s.mem.jobs[id] ==> n.mem.jobs[id].status in {Queued, Interrupted})
  {
    var s := run[|labels|];
    CrashAndBoot(s, boot);
    hide LeftBroken, OnceWritten, TrackInv, Enabled, Next, IsTrace, RecoveredMem, RecoveredJob;
    SavedCopyIsTheJob(run, labels, id);
    ReadableIff(run, labels, id);
    RecoveryKeepsJobs(s.disk, boot.order, Limit(boot.limit), boot.writes);
    if Readable(s.disk, id) {
      RecoveredJobIs(s.disk, boot.order, Limit(boot.limit), id);
      if !SavedAsIs(s, id) { SavedEarlier(run, labels, id); }
      RecoveredIsTheJob(s.disk[id], s.mem.jobs[id]);
    }
  }
}