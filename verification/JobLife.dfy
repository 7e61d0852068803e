/** The life of a job, step by step: what each section does to it, how a run ends, and what a shutdown
    means for the jobs that run. */
module JobLife {
  import opened Wrappers
  import opened JobManager
  import opened JobProtocol
  import opened JobRuns

  /** How a worker that has returned leaves its job: canceled if the manager was shut down, if the
      job's own context was canceled or if its cancel was accepted; otherwise with what the runner
      returned, as a success without an error and as a failure with exactly that error. */
  lemma RunEndsAs(s: State, l: Label, id: Id)
    requires Inv(s) && Enabled(s, l) && Ends(s, l, id)
    ensures id in s.mem.jobs && id in Next(s, l).mem.jobs && Next(s, l).mem.running == s.mem.running - {id}
    ensures var result, error := s.threads[l.t].result, s.threads[l.t].error;
            var before, after := s.mem.jobs[id], Next(s, l).mem.jobs[id];
            && (after.status == Canceled <==> s.mem.closed || id in s.mem.ctxDone || before.status == Canceling)
            && (after.status == Canceled ==> after.result == None && after.error == Some(CANCELED_ERROR))
            && (after.status != Canceled && error == None ==>
                  after.status == Succeeded && after.result == Some(result) && after.error == None)
            && (after.status != Canceled && error != None ==>
                  after.status == Failed && after.result == None && after.error == error)
            && after.request == before.request && after.progress == before.progress && after.stage == "done"
  {
    RunnerFacts(s, l.t, l.t);
    hide Inv;
  }

  /** The contexts are canceled by a shutdown and by the signal that follows an accepted cancel, and by
      nothing else. */
  lemma ContextsStep(s: State, l: Label)
    requires Enabled(s, l) && s.up && Next(s, l).up
    ensures Next(s, l).mem.closed <==> s.mem.closed || l.CallShutdown?
    ensures Next(s, l).mem.ctxDone == s.mem.ctxDone + Signals(s, l)
  {
    hide NextAdvance;
    if l.Advance? { AdvanceContexts(s, l.t, l.w); }
  }

  /** The job whose context a step cancels, if any. */
  function Signals(s: State, l: Label): set<Id> {
    if l.Advance? && l.t in s.threads && s.threads[l.t].SignalContext? then {s.threads[l.t].id} else {}
  }

  lemma AdvanceContexts(s: State, t: nat, w: Write)
    requires Enabled(s, Advance(t, w))
    ensures NextAdvance(s, t, w).mem.closed == s.mem.closed
    ensures NextAdvance(s, t, w).mem.ctxDone == s.mem.ctxDone + Signals(s, Advance(t, w))
  {
    hide NextAdvance, TerminalState, Finished;
    AdvanceMem(s, t, w);
  }

  // ---------------------------------------------------------------- what changes a status

  predicate Cancels(l: Label, id: Id) {
    l.CallCancel? && l.id == id
  }

  predicate Deletes(l: Label, id: Id) {
    l.CallDelete? && l.id == id
  }

  /** The status of a known job after a step that is not the end of its run. */
  function StatusAfter(s: State, l: Label, id: Id, status: Status): Status {
    if Enqueues(s, l, id) then Queued
    else if Starts(s, l, id) then Running
    else if Cancels(l, id) && Waiting(status) then Canceled
    else if Cancels(l, id) && status == Running then Canceling
    else status
  }

  lemma CallLife(s: State, l: Label, id: Id)
    requires Enabled(s, l) && (Cancels(l, id) || Deletes(l, id)) && id in s.mem.jobs
    ensures id !in Next(s, l).mem.jobs <==> Deletes(l, id) && Terminal(s.mem.jobs[id].status)
    ensures id in Next(s, l).mem.jobs ==> Next(s, l).mem.jobs[id].status == StatusAfter(s, l, id, s.mem.jobs[id].status)
  {
    hide Without;
  }

  /** What an accepted cancel leaves: a waiting job ends at once and leaves the queue, in which the
      others keep their order; a running one is marked and keeps its slot; any other is left alone. */
  lemma CancelStep(s: State, t: nat, id: Id)
    requires Enabled(s, CallCancel(t, id)) && id in s.mem.jobs
    ensures var before, mem := s.mem.jobs[id], Next(s, CallCancel(t, id)).mem;
            && (Waiting(before.status) ==>
                  mem.jobs == s.mem.jobs[id := before.(status := Canceled, stage := "done", result := None,
                                                       error := Some(CANCELED_EARLY_ERROR))])
            && (before.status == Running ==>
                  mem.jobs == s.mem.jobs[id := before.(status := Canceling, stage := "canceling")])
            && (!Waiting(before.status) && before.status != Running ==> mem == s.mem)
            && mem.running == s.mem.running
            && multiset(mem.queue) == (if Waiting(before.status) then multiset(s.mem.queue)[id := 0] else multiset(s.mem.queue))
  {
    hide Without;
  }

  lemma StartLife(s: State, t: nat, w: Write, id: Id)
    requires Inv(s) && Enabled(s, Advance(t, w)) && Starts(s, Advance(t, w), id)
    ensures id in s.mem.jobs && s.mem.jobs[id].status == Queued && id !in s.mem.running
    ensures NextAdvance(s, t, w).mem.jobs == s.mem.jobs[id := s.mem.jobs[id].(status := Running, stage := "starting")]
    ensures NextAdvance(s, t, w).mem.running == s.mem.running + {id}
  {
    HeadFacts(s, t);
    assert MemInv(s.mem);
    StartKeepsInv(s.mem);
    AdvanceMem(s, t, w);
    hide Inv, MemInv, NextAdvance;
  }

  lemma EnqueueLife(s: State, t: nat, w: Write, id: Id)
    requires Enabled(s, Advance(t, w)) && Enqueues(s, Advance(t, w), id) && id in s.mem.jobs
    ensures NextAdvance(s, t, w).mem.jobs == s.mem.jobs[id := s.mem.jobs[id].(status := Queued, stage := "queued")]
  {
  }

  /** The life of a job within one process.  It appears, as created, when Create inserts it; it
      disappears exactly when it has ended and Delete removes it.  In between its status changes when
      its creator enqueues it, when it is started from the head of the queue, when its run ends, and
      when it is canceled while it waits or runs, and by no other step. */
  lemma StatusStep(s: State, l: Label, id: Id)
    requires Inv(s) && Enabled(s, l) && s.up && Next(s, l).up
    ensures id !in s.mem.jobs ==>
              (id in Next(s, l).mem.jobs <==> l.CallCreate? && l.id == id)
              && (l.CallCreate? && l.id == id ==>
                    Next(s, l).mem.jobs[id] == Job(l.req, Created, "validating", Progress(None, 0, 0), None, None))
    ensures id in s.mem.jobs ==>
              (id !in Next(s, l).mem.jobs <==> Deletes(l, id) && Terminal(s.mem.jobs[id].status))
    ensures id in s.mem.jobs && id in Next(s, l).mem.jobs && !Ends(s, l, id) ==>
              Next(s, l).mem.jobs[id].status == StatusAfter(s, l, id, s.mem.jobs[id].status)
  {
    hide Inv, Next, NextAdvance;
    if id !in s.mem.jobs {
      if l.CallCreate? && l.id == id { CreatedJob(s, l); } else { StaysUnknown(s, l, id); }
    } else {
      JobKnown(s, id);
      NotCreatedAgain(s, l, id);
      if Cancels(l, id) || Deletes(l, id) {
        CallLife(s, l, id);
      } else if Ends(s, l, id) {
        RunEndsAs(s, l, id);
      } else if Starts(s, l, id) {
        StartLife(s, l.t, l.w, id);
        assert Next(s, l) == NextAdvance(s, l.t, l.w) by { AdvanceIs(s, l); }
      } else if Enqueues(s, l, id) {
        EnqueueLife(s, l.t, l.w, id);
        assert Next(s, l) == NextAdvance(s, l.t, l.w) by { AdvanceIs(s, l); }
      } else if Reports(s, l, id) {
        EmitIs(s, l);
      } else {
        StepLeavesJob(s, l, id);
      }
    }
  }

  lemma AdvanceIs(s: State, l: Label)
    requires Enabled(s, l) && l.Advance?
    ensures Next(s, l) == NextAdvance(s, l.t, l.w)
  {
  }

  lemma CreatedJob(s: State, l: Label)
    requires Enabled(s, l) && l.CallCreate?
    ensures l.id in Next(s, l).mem.jobs
    ensures Next(s, l).mem.jobs[l.id] == Job(l.req, Created, "validating", Progress(None, 0, 0), None, None)
  {
  }

  /** Only Create makes a job of an id that is not in memory. */
  lemma StaysUnknown(s: State, l: Label, id: Id)
    requires Inv(s) && Enabled(s, l) && s.up && Next(s, l).up && id !in s.mem.jobs
    requires !(l.CallCreate? && l.id == id)
    ensures id !in Next(s, l).mem.jobs
  {
    hide Inv, Next;
    if l.Advance? || l.Emit? {
      if RunnerOf(s.threads[l.t]).Some? { RunnerFacts(s, l.t, l.t); }
      if CanStart(s.mem) { HeadFacts(s, l.t); }
    }
    if Enqueues(s, l, id) || ((l.CallCancel? || l.CallDelete?) && l.id == id) {
      UnknownUnanswered(s, l, id);
    } else {
      StepLeavesJob(s, l, id);
    }
  }

  /** What a worker reports: a stage that is not empty replaces the stage, a percentage the progress. */
  lemma ReportStep(s: State, l: Label)
    requires Inv(s) && Enabled(s, l) && l.Emit?
    ensures var id := s.threads[l.t].id;
            && id in s.mem.jobs && id in Next(s, l).mem.jobs
            && var before, after := s.mem.jobs[id], Next(s, l).mem.jobs[id];
               && after.stage == (if l.stage == None || l.stage == Some("") then before.stage else l.stage.value)
               && after.progress == (if l.percent == None then before.progress
                                     else Progress(l.percent, l.percent.value, 100))
               && after.status == before.status && after.result == before.result && after.error == before.error
               && after.request == before.request
  {
    RunnerFacts(s, l.t, l.t);
    EmitIs(s, l);
    hide Inv, Next;
  }

  /** Requests are taken in by Create and dropped by Delete, and change in no other way. */
  lemma RequestsStep(s: State, l: Label)
    requires Enabled(s, l) && s.up && Next(s, l).up
    ensures Next(s, l).mem.requests
         == if l.CallCreate? then s.mem.requests[l.id := l.req]
            else if l.CallDelete? && l.id in s.mem.jobs && Terminal(s.mem.jobs[l.id].status) then s.mem.requests - {l.id}
            else s.mem.requests
  {
    hide NextAdvance, Without;
    if l.Advance? { AdvanceRequests(s, l.t, l.w); }
  }

  lemma AdvanceRequests(s: State, t: nat, w: Write)
    requires Enabled(s, Advance(t, w))
    ensures NextAdvance(s, t, w).mem.requests == s.mem.requests
  {
    hide NextAdvance, TerminalState, Finished;
    AdvanceMem(s, t, w);
  }

  /** A delete that is accepted is to remove the directory, and the removal leaves nothing of it. */
  lemma DeleteStep(s: State, t: nat, id: Id)
    requires Enabled(s, CallDelete(t, id)) && id in s.mem.jobs && Terminal(s.mem.jobs[id].status)
    ensures var n := Next(s, CallDelete(t, id));
            && t in n.threads && n.threads[t] == RemoveDir(id) && n.disk == s.disk
            && Next(n, Advance(t, Done)).disk == s.disk - {id} && t !in Next(n, Advance(t, Done)).threads
  {
  }

  // ---------------------------------------------------------------- a creation that fails

  /** The thread is about to write a file for Create. */
  predicate CreateWrites(pc: Pc, id: Id) {
    (pc.WriteRequest? || pc.FillRequest? || ((pc.WriteJob? || pc.FillJob?) && pc.k == ToEnqueue)) && pc.id == id
  }

  /** When one of its writes fails, Create gives up: nobody is to enqueue the job any more. */
  lemma FailedCreateGivesUp(s: State, t: nat, w: Write, id: Id)
    requires Inv(s) && Enabled(s, Advance(t, w)) && CreateWrites(s.threads[t], id) && !Succeeds(w)
    ensures NextAdvance(s, t, w).threads == s.threads - {t} && NextAdvance(s, t, w).mem == s.mem
    ensures PastEnqueue(NextAdvance(s, t, w), id)
  {
    assert PendingInv(s.threads, s.mem, s.hist.enqueued);
    assert PendingOf(s.threads[t]) == Some(id);
    hide Inv, PendingInv;
    FailedThread(s, t, w, id);
    forall u | u in NextAdvance(s, t, w).threads ensures PendingOf(NextAdvance(s, t, w).threads[u]) != Some(id) {
      PendingAlone(s, t, u, id);
    }
  }

  lemma FailedThread(s: State, t: nat, w: Write, id: Id)
    requires Enabled(s, Advance(t, w)) && CreateWrites(s.threads[t], id) && !Succeeds(w)
    ensures NextAdvance(s, t, w).threads == s.threads - {t} && NextAdvance(s, t, w).mem == s.mem
  {
    hide DirOf;
  }

  lemma PendingAlone(s: State, t: nat, u: nat, id: Id)
    requires Inv(s) && t in s.threads && PendingOf(s.threads[t]) == Some(id)
    ensures u in s.threads && u != t ==> PendingOf(s.threads[u]) != Some(id)
  {
    assert PendingInv(s.threads, s.mem, s.hist.enqueued);
    hide Inv;
  }

  /** The job was inserted and is not going to be enqueued. */
  ghost predicate GivenUpOn(s: State, id: Id) {
    && PastEnqueue(s, id) && id in s.hist.known
    && (id in s.mem.jobs ==> s.mem.jobs[id].status in {Created, Canceled})
  }

  /** A job that Create gave up on stays created until it is canceled: the process never queues it and
      never runs it. */
  lemma {:induction false} GivenUpStays(run: seq<State>, i: nat, j: nat, id: Id)
    requires IsRun(run) && OneProcess(run, i, j) && GivenUpOn(run[i], id)
    ensures GivenUpOn(run[j], id) && id !in run[j].mem.queue && id !in run[j].mem.running
  {
    hide Inv, Enabled, Next;
    if i < j {
      GivenUpStays(run, i, j - 1, id);
      var l := LastStep(run, j);
      GivenUpStep(run[j - 1], l, id);
    }
    RunKeepsInv(run, j);
    NotQueued(run[j], id);
  }

  lemma NotQueued(s: State, id: Id)
    requires Inv(s) && GivenUpOn(s, id)
    ensures id !in s.mem.queue && id !in s.mem.running
  {
    assert MemInv(s.mem);
    hide Inv;
  }

  lemma GivenUpStep(s: State, l: Label, id: Id)
    requires Inv(s) && Enabled(s, l) && s.up && Next(s, l).up && GivenUpOn(s, id)
    ensures GivenUpOn(Next(s, l), id)
  {
    hide Inv, Enabled, Next;
    StaysPastEnqueue(s, l, id);
    NotEnqueued(s, l, id);
    StatusStep(s, l, id);
    if id in s.mem.jobs {
      if Starts(s, l, id) { StartLife(s, l.t, l.w, id); }
      if Ends(s, l, id) { EndedWasActive(s, l, id); }
    } else {
      NotReborn(s, l, id);
    }
  }

  lemma EndedWasActive(s: State, l: Label, id: Id)
    requires Inv(s) && Enabled(s, l) && Ends(s, l, id)
    ensures id in s.mem.jobs && Active(s.mem.jobs[id].status)
  {
    RunnerFacts(s, l.t, l.t);
  }

  // ---------------------------------------------------------------- shutdown

  /** The manager was shut down while `id` held a slot. */
  ghost predicate Stopping(s: State, id: Id) {
    && s.mem.closed && PastEnqueue(s, id) && id in s.hist.known
    && (id in s.mem.jobs ==> s.mem.jobs[id].status in {Running, Canceling, Canceled})
  }

  lemma StoppingStep(s: State, l: Label, id: Id)
    requires Inv(s) && Enabled(s, l) && s.up && Next(s, l).up && Stopping(s, id)
    ensures Stopping(Next(s, l), id)
  {
    hide Inv, Enabled, Next;
    StaysPastEnqueue(s, l, id);
    ContextsStep(s, l);
    NotEnqueued(s, l, id);
    StatusStep(s, l, id);
    if id in s.mem.jobs && Ends(s, l, id) { RunEndsAs(s, l, id); }
    if id !in s.mem.jobs { NotReborn(s, l, id); }
  }

  /** A job that is still active when the manager is shut down never ends as anything but canceled in
      that process, whatever its runner returns. */
  lemma {:induction false} ShutdownCancels(run: seq<State>, i: nat, j: nat, id: Id)
    requires IsRun(run) && OneProcess(run, i, j) && run[i].mem.closed
    requires id in run[i].mem.jobs && Active(run[i].mem.jobs[id].status)
    ensures Stopping(run[j], id)
  {
    hide Inv, Enabled, Next;
    RunKeepsInv(run, i);
    if i == j {
      EndedOutcome(run[i], id);
      ActivePastEnqueue(run[i], id);
    } else {
      ShutdownCancels(run, i, j - 1, id);
      var l := LastStep(run, j);
      StoppingStep(run[j - 1], l, id);
    }
  }

  /** After a shutdown nothing is started. */
  lemma ClosedStartsNothing(s: State, l: Label)
    requires Inv(s) && Enabled(s, l) && s.up && Next(s, l).up && s.mem.closed
    ensures Next(s, l).hist.started == s.hist.started && Next(s, l).mem.running <= s.mem.running
  {
    hide Inv, NextAdvance, Without;
    if l.Advance? { ClosedAdvance(s, l.t, l.w); }
  }

  lemma ClosedAdvance(s: State, t: nat, w: Write)
    requires Enabled(s, Advance(t, w)) && s.mem.closed
    ensures NextAdvance(s, t, w).hist.started == s.hist.started && NextAdvance(s, t, w).mem.running <= s.mem.running
  {
    AdvanceMem(s, t, w);
    ClosedHistory(s, t, w);
    hide NextAdvance, TerminalState, Finished;
  }

  lemma ClosedHistory(s: State, t: nat, w: Write)
    requires Enabled(s, Advance(t, w)) && s.mem.closed
    ensures NextAdvance(s, t, w).hist.started == s.hist.started
  {
    hide DirOf, Enqueue, StartNext, Finish;
  }
}
