/** Runs of the job manager, written out step by step, that show what it does not promise. */
module JobFindings {
  import opened Wrappers
  import opened JobManager
  import opened JobProtocol
  import opened JobSaves

  /** No write fails, and nothing crashes. */
  predicate Undisturbed(l: Label) {
    !l.Crash? && !l.CrashInRecovery? && (l.Advance? ==> l.w.Done?) && (l.Boot? ==> l.writes == map[])
  }

  /** Reached by a run that nothing disturbs. */
  ghost predicate Reachable(s: State) {
    exists run, labels :: IsTrace(run, labels) && (forall l <- labels :: Undisturbed(l)) && run[|labels|] == s
  }

  lemma Leg(s: State, l: Label, n: State)
    requires Reachable(s) && Enabled(s, l) && Undisturbed(l) && n == Next(s, l)
    ensures Reachable(n)
  {
    hide Enabled, Next, Start, Undisturbed;
    var run, labels :| IsTrace(run, labels) && (forall l <- labels :: Undisturbed(l)) && run[|labels|] == s;
    var states, steps := run + [n], labels + [l];
    forall i | 0 <= i < |steps| ensures Enabled(states[i], steps[i]) && states[i + 1] == Next(states[i], steps[i]) {
      if i < |labels| { assert states[i] == run[i] && states[i + 1] == run[i + 1] && steps[i] == labels[i]; }
    }
    assert IsTrace(states, steps) && states[|steps|] == n;
  }

  const REQ := Request("transcribe", "talk.mp4", "", map[])
  const CREATED := NewJob(REQ)
  const QUEUED := CREATED.(status := Queued, stage := "queued")

  /** A daemon with one slot, nothing running, and nothing but the job "a" ever created. */
  function One(jobs: map<Id, Job>, queue: seq<Id>, disk: Disk, threads: map<nat, Pc>, hist: History): State {
    State(Mem(jobs, if jobs == map[] then map[] else map["a" := REQ], queue, {}, {}, false, 1), disk, threads, true, hist)
  }

  const NEW := History({}, {}, [], [], {}, [])
  const MADE := History({"a"}, {}, [], [], {}, [])

  lemma EmptyRoot()
    ensures Reachable(State(EmptyMem(1), map[], map[], false, NEW))
  {
    var s := State(EmptyMem(1), map[], map[], false, NEW);
    var labels: seq<Label> := [];
    assert IsTrace([s], labels) && [s][|labels|] == s;
  }

  /** The daemon is up and idle, and no job was ever created. */
  lemma FreshDaemon()
    ensures Reachable(One(map[], [], map[], map[], NEW))
  {
    hide Reachable;
    EmptyRoot();
    var s0, s1 := State(EmptyMem(1), map[], map[], false, NEW), One(map[], [], map[], map[0 := ScheduleNow], NEW);
    assert Reachable(s1) by {
      assert RecoveredMem(map[], [], 1) == s1.mem;
      Leg(s0, Boot(0, [], 1, map[]), s1);
    }
    assert Reachable(One(map[], [], map[], map[], NEW)) by {
      assert s1.threads - {0} == map[];
      Leg(s1, Advance(0, Done), One(map[], [], map[], map[], NEW));
    }
  }

  /** Thread 1 creates the job "a" and has written its request. */
  lemma RequestWritten()
    ensures Reachable(One(map["a" := CREATED], [], map["a" := Dir(Whole(REQ), Absent)], map[1 := Save("a", ToEnqueue)], MADE))
  {
    FreshDaemon();
    hide Reachable, RecoveredMem, RecoveredDisk, RecoveredDir, NextCancel;
    var jobs := map["a" := CREATED];
    var s0 := One(map[], [], map[], map[], NEW);
    var s1 := One(jobs, [], map[], map[1 := WriteRequest("a", REQ)], MADE);
    var s2 := One(jobs, [], map["a" := Dir(Torn, Absent)], map[1 := FillRequest("a", REQ)], MADE);
    var s3 := One(jobs, [], map["a" := Dir(Whole(REQ), Absent)], map[1 := Save("a", ToEnqueue)], MADE);
    assert Reachable(s1) by { Leg(s0, CallCreate(1, "a", REQ), s1); }
    assert Reachable(s2) by { Leg(s1, Advance(1, Done), s2); }
    assert Reachable(s3) by { Leg(s2, Advance(1, Done), s3); }
  }

  /** Thread 1 has written both files of the job "a". */
  lemma JobWritten()
    ensures Reachable(One(map["a" := CREATED], [], map["a" := Dir(Whole(REQ), Whole(CREATED))], map[1 := EnqueueNow("a")], MADE))
  {
    RequestWritten();
    hide Reachable, RecoveredMem, RecoveredDisk, RecoveredDir, NextCancel;
    var jobs := map["a" := CREATED];
    var s3 := One(jobs, [], map["a" := Dir(Whole(REQ), Absent)], map[1 := Save("a", ToEnqueue)], MADE);
    var s4 := One(jobs, [], map["a" := Dir(Whole(REQ), Absent)], map[1 := WriteJob("a", CREATED, ToEnqueue)], MADE);
    var s5 := One(jobs, [], map["a" := Dir(Whole(REQ), Torn)], map[1 := FillJob("a", CREATED, ToEnqueue)], MADE);
    var s6 := One(jobs, [], map["a" := Dir(Whole(REQ), Whole(CREATED))], map[1 := EnqueueNow("a")], MADE);
    assert Reachable(s4) by { Leg(s3, Advance(1, Done), s4); }
    assert Reachable(s5) by { Leg(s4, Advance(1, Done), s5); }
    assert Reachable(s6) by { Leg(s5, Advance(1, Done), s6); }
  }

  const ENQUEUED := MADE.(enqueued := ["a"])
  const WITHDRAWN := ENQUEUED.(withdrawn := {"a"})
  const GONE := WITHDRAWN.(deleted := {"a"})

  const EARLY := Finished(CREATED, Canceled, None, Some(CANCELED_EARLY_ERROR))
  const REVIVED := EARLY.(status := Queued, stage := "queued")

  lemma CanceledInWindow()
    ensures Reachable(One(map["a" := EARLY], [], map["a" := Dir(Whole(REQ), Whole(CREATED))],
                          map[1 := EnqueueNow("a"), 2 := Save("a", ToReturn)], MADE))
  {
    JobWritten();
    hide Reachable, RecoveredMem, RecoveredDisk, RecoveredDir;
    var disk := map["a" := Dir(Whole(REQ), Whole(CREATED))];
    var s6 := One(map["a" := CREATED], [], disk, map[1 := EnqueueNow("a")], MADE);
    var s7 := One(map["a" := EARLY], [], disk, map[1 := EnqueueNow("a"), 2 := Save("a", ToReturn)], MADE);
    assert Reachable(s7) by { Leg(s6, CallCancel(2, "a"), s7); }
  }

  /** A cancel that lands between the insertion of a job and its enqueueing is overwritten: the next
      step of Create queues the canceled job. */
  lemma CancelInWindowIsOverwritten()
    ensures exists s, l :: Reachable(s) && s.up && Enabled(s, l) && "a" in s.mem.jobs && "a" in Next(s, l).mem.jobs
                           && s.mem.jobs["a"].status == Canceled && Next(s, l).mem.jobs["a"].status == Queued
  {
    CanceledInWindow();
    hide Reachable, RecoveredMem, RecoveredDisk, RecoveredDir;
    var disk := map["a" := Dir(Whole(REQ), Whole(CREATED))];
    var s7 := One(map["a" := EARLY], [], disk, map[1 := EnqueueNow("a"), 2 := Save("a", ToReturn)], MADE);
    var l := Advance(1, Done);
    assert Enabled(s7, l) && Next(s7, l).mem.jobs["a"].status == Queued;
  }

  lemma Revived()
    ensures Reachable(One(map["a" := REVIVED], ["a"], map["a" := Dir(Whole(REQ), Whole(CREATED))],
                          map[1 := Save("a", ToSchedule), 2 := Save("a", ToReturn)], ENQUEUED))
  {
    CanceledInWindow();
    hide Reachable, RecoveredMem, RecoveredDisk, RecoveredDir, NextCancel, StartNext, Finish;
    var disk, rest := map["a" := Dir(Whole(REQ), Whole(CREATED))], Save("a", ToReturn);
    var s7 := One(map["a" := EARLY], [], disk, map[1 := EnqueueNow("a"), 2 := rest], MADE);
    var s8 := One(map["a" := REVIVED], ["a"], disk, map[1 := Save("a", ToSchedule), 2 := rest], ENQUEUED);
    assert Reachable(s8) by { Leg(s7, Advance(1, Done), s8); }
  }

  lemma RevivedQueued()
    ensures Reachable(One(map["a" := REVIVED], ["a"], map["a" := Dir(Whole(REQ), Whole(CREATED))],
                          map[1 := WriteJob("a", REVIVED, ToSchedule), 2 := Save("a", ToReturn)], ENQUEUED))
  {
    Revived();
    hide Reachable, RecoveredMem, RecoveredDisk, RecoveredDir, NextCancel, Enqueue, StartNext, Finish;
    var jobs, disk, rest := map["a" := REVIVED], map["a" := Dir(Whole(REQ), Whole(CREATED))], Save("a", ToReturn);
    var s8 := One(jobs, ["a"], disk, map[1 := Save("a", ToSchedule), 2 := rest], ENQUEUED);
    var s9 := One(jobs, ["a"], disk, map[1 := WriteJob("a", REVIVED, ToSchedule), 2 := rest], ENQUEUED);
    assert Reachable(s9) by { Leg(s8, Advance(1, Done), s9); }
  }

  lemma RevivedTruncates()
    ensures Reachable(One(map["a" := REVIVED], ["a"], map["a" := Dir(Whole(REQ), Torn)],
                          map[1 := FillJob("a", REVIVED, ToSchedule), 2 := Save("a", ToReturn)], ENQUEUED))
  {
    RevivedQueued();
    hide Reachable, RecoveredMem, RecoveredDisk, RecoveredDir, NextCancel, Enqueue, StartNext, Finish;
    var jobs, rest := map["a" := REVIVED], Save("a", ToReturn);
    var s9 := One(jobs, ["a"], map["a" := Dir(Whole(REQ), Whole(CREATED))],
                  map[1 := WriteJob("a", REVIVED, ToSchedule), 2 := rest], ENQUEUED);
    var s10 := One(jobs, ["a"], map["a" := Dir(Whole(REQ), Torn)],
                   map[1 := FillJob("a", REVIVED, ToSchedule), 2 := rest], ENQUEUED);
    assert Reachable(s10) by { Leg(s9, Advance(1, Done), s10); }
  }

  lemma RevivedSaved()
    ensures Reachable(One(map["a" := REVIVED], ["a"], map["a" := Dir(Whole(REQ), Whole(REVIVED))],
                          map[1 := ScheduleNow, 2 := Save("a", ToReturn)], ENQUEUED))
  {
    RevivedTruncates();
    hide Reachable, RecoveredMem, RecoveredDisk, RecoveredDir, NextCancel, Enqueue, StartNext, Finish;
    var jobs, rest := map["a" := REVIVED], Save("a", ToReturn);
    var s10 := One(jobs, ["a"], map["a" := Dir(Whole(REQ), Torn)],
                   map[1 := FillJob("a", REVIVED, ToSchedule), 2 := rest], ENQUEUED);
    var s11 := One(jobs, ["a"], map["a" := Dir(Whole(REQ), Whole(REVIVED))],
                   map[1 := ScheduleNow, 2 := rest], ENQUEUED);
    assert Reachable(s11) by { Leg(s10, Advance(1, Done), s11); }
  }

  /** A few steps later the canceled job runs, with the error of its cancel still on it. */
  lemma CanceledJobRuns()
    ensures exists s :: Reachable(s) && "a" in s.mem.jobs && s.mem.jobs["a"].status == Running
                        && s.mem.jobs["a"].error == Some(CANCELED_EARLY_ERROR)
  {
    RevivedSaved();
    hide Reachable, RecoveredMem, RecoveredDisk, RecoveredDir, NextCancel;
    var s11 := One(map["a" := REVIVED], ["a"], map["a" := Dir(Whole(REQ), Whole(REVIVED))],
                   map[1 := ScheduleNow, 2 := Save("a", ToReturn)], ENQUEUED);
    var s12 := Next(s11, Advance(1, Done));
    assert Reachable(s12) by { Leg(s11, Advance(1, Done), s12); }
    assert s12.mem.jobs["a"].status == Running && s12.mem.jobs["a"].error == Some(CANCELED_EARLY_ERROR);
  }

  lemma CopyPending()
    ensures Reachable(One(map["a" := QUEUED], ["a"], map["a" := Dir(Whole(REQ), Whole(CREATED))],
                          map[1 := WriteJob("a", QUEUED, ToSchedule)], ENQUEUED))
  {
    JobWritten();
    hide Reachable, RecoveredMem, RecoveredDisk, RecoveredDir;
    var disk := map["a" := Dir(Whole(REQ), Whole(CREATED))];
    var s6 := One(map["a" := CREATED], [], disk, map[1 := EnqueueNow("a")], MADE);
    var s7 := One(map["a" := QUEUED], ["a"], disk, map[1 := Save("a", ToSchedule)], ENQUEUED);
    var s8 := One(map["a" := QUEUED], ["a"], disk, map[1 := WriteJob("a", QUEUED, ToSchedule)], ENQUEUED);
    assert Reachable(s7) by { Leg(s6, Advance(1, Done), s7); }
    assert Reachable(s8) by { Leg(s7, Advance(1, Done), s8); }
  }

  /** After the next section of thread 1, a crash and a restart the job `id` is gone. */
  ghost predicate NextSectionLoses(s: State, id: Id) {
    s.up && Enabled(s, Advance(1, Done))
    && var down := Next(Next(s, Advance(1, Done)), Crash);
       Enabled(down, Boot(0, [id], 1, map[])) && id !in Next(down, Boot(0, [id], 1, map[])).mem.jobs
  }

  lemma TornIsNotFound(down: State)
    requires !down.up && down.disk == map["a" := Dir(Whole(REQ), Torn)]
    ensures Enabled(down, Boot(0, ["a"], 1, map[])) && "a" !in Next(down, Boot(0, ["a"], 1, map[])).mem.jobs
  {
    assert !Readable(down.disk, "a");
  }

  lemma TruncationLoses()
    ensures NextSectionLoses(One(map["a" := QUEUED], ["a"], map["a" := Dir(Whole(REQ), Whole(CREATED))],
                                 map[1 := WriteJob("a", QUEUED, ToSchedule)], ENQUEUED), "a")
  {
    hide RecoveredMem, RecoveredDisk, Lists;
    var s8 := One(map["a" := QUEUED], ["a"], map["a" := Dir(Whole(REQ), Whole(CREATED))],
                  map[1 := WriteJob("a", QUEUED, ToSchedule)], ENQUEUED);
    TornIsNotFound(Next(Next(s8, Advance(1, Done)), Crash));
  }

  /** A crash between the two halves of a rewrite loses a job that was saved, queued and never
      deleted: its job.json was whole before, and the next daemon does not find the job. */
  lemma RewriteLosesJob()
    ensures exists s :: Reachable(s) && "a" in s.mem.queue && Readable(s.disk, "a") && s.hist.deleted == {}
                        && NextSectionLoses(s, "a")
  {
    CopyPending();
    TruncationLoses();
    hide Reachable, NextSectionLoses;
    var s8 := One(map["a" := QUEUED], ["a"], map["a" := Dir(Whole(REQ), Whole(CREATED))],
                  map[1 := WriteJob("a", QUEUED, ToSchedule)], ENQUEUED);
    assert "a" in s8.mem.queue && Readable(s8.disk, "a") && s8.hist.deleted == {};
  }

  lemma CanceledEarly()
    ensures Reachable(One(map["a" := Finished(QUEUED, Canceled, None, Some(CANCELED_EARLY_ERROR))], [],
                          map["a" := Dir(Whole(REQ), Whole(CREATED))],
                          map[1 := WriteJob("a", QUEUED, ToSchedule), 2 := Save("a", ToReturn)], WITHDRAWN))
  {
    CopyPending();
    hide Reachable, RecoveredMem, RecoveredDisk, RecoveredDir, NextAdvance;
    var disk := map["a" := Dir(Whole(REQ), Whole(CREATED))];
    var write := WriteJob("a", QUEUED, ToSchedule);
    var s8 := One(map["a" := QUEUED], ["a"], disk, map[1 := write], ENQUEUED);
    var s9 := One(map["a" := Finished(QUEUED, Canceled, None, Some(CANCELED_EARLY_ERROR))], [], disk,
                  map[1 := write, 2 := Save("a", ToReturn)], WITHDRAWN);
    assert Reachable(s9) by { Leg(s8, CallCancel(2, "a"), s9); }
  }

  lemma DirectoryRemoved()
    ensures Reachable(One(map[], [], map[], map[1 := WriteJob("a", QUEUED, ToSchedule), 2 := Save("a", ToReturn)], GONE))
  {
    CanceledEarly();
    hide Reachable, RecoveredMem, RecoveredDisk, RecoveredDir, NextCancel;
    var disk := map["a" := Dir(Whole(REQ), Whole(CREATED))];
    var write := WriteJob("a", QUEUED, ToSchedule);
    var s9 := One(map["a" := Finished(QUEUED, Canceled, None, Some(CANCELED_EARLY_ERROR))], [], disk,
                  map[1 := write, 2 := Save("a", ToReturn)], WITHDRAWN);
    var s10 := One(map[], [], disk, map[1 := write, 2 := Save("a", ToReturn), 3 := RemoveDir("a")], GONE);
    var s11 := One(map[], [], map[], map[1 := write, 2 := Save("a", ToReturn)], GONE);
    assert Reachable(s10) by { Leg(s9, CallDelete(3, "a"), s10); }
    assert Reachable(s11) by { Leg(s10, Advance(3, Done), s11); }
  }

  /** The directory was made again and the late write of job.json has succeeded. */
  lemma LateWrite()
    ensures Reachable(One(map[], [], map["a" := Dir(Absent, Whole(QUEUED))],
                          map[1 := ScheduleNow, 2 := Save("a", ToReturn)], GONE))
  {
    DirectoryRemoved();
    hide Reachable, RecoveredMem, RecoveredDisk, RecoveredDir, NextCancel;
    var rest := Save("a", ToReturn);
    var s11 := One(map[], [], map[], map[1 := WriteJob("a", QUEUED, ToSchedule), 2 := rest], GONE);
    var s12 := One(map[], [], map["a" := EMPTY_DIR], map[1 := WriteJob("a", QUEUED, ToSchedule), 2 := rest], GONE);
    var s13 := One(map[], [], map["a" := Dir(Absent, Torn)], map[1 := FillJob("a", QUEUED, ToSchedule), 2 := rest], GONE);
    var s14 := One(map[], [], map["a" := Dir(Absent, Whole(QUEUED))], map[1 := ScheduleNow, 2 := rest], GONE);
    assert Reachable(s12) by { Leg(s11, OpenLog("a"), s12); }
    assert Reachable(s13) by { Leg(s12, Advance(1, Done), s13); }
    assert Reachable(s14) by { Leg(s13, Advance(1, Done), s14); }
  }

  /** A crash now and a restart bring the job `id` back, with the error of a missing request. */
  ghost predicate RestartMissesRequest(s: State, id: Id) {
    s.up && Enabled(Next(s, Crash), Boot(0, [id], 1, map[]))
    && var m := Next(Next(s, Crash), Boot(0, [id], 1, map[])).mem;
       id in m.jobs && m.jobs[id].error == Some(MISSING_REQUEST_ERROR)
  }

  lemma NoRequestFound(s: State)
    requires s.up && s.disk == map["a" := Dir(Absent, Whole(QUEUED))]
    ensures RestartMissesRequest(s, "a")
  {
    assert Readable(s.disk, "a");
  }

  /** A job that was deleted can come back after a crash without its request: its creator had encoded
      it before the cancel and the delete, an event store made its directory again, and the late
      write of job.json then succeeded. */
  lemma DeletedJobReturnsWithoutRequest()
    ensures exists s :: Reachable(s) && s.hist.deleted == {"a"} && RestartMissesRequest(s, "a")
  {
    LateWrite();
    hide Reachable, RestartMissesRequest;
    var s14 := One(map[], [], map["a" := Dir(Absent, Whole(QUEUED))], map[1 := ScheduleNow, 2 := Save("a", ToReturn)], GONE);
    NoRequestFound(s14);
    assert s14.hist.deleted == {"a"};
  }

  // ---------------------------------------------------------------- a finished job runs twice

  const LATE := WriteJob("a", QUEUED, ToSchedule)
  const CREATE := WriteRequest("b", REQ)
  const RUNNING := QUEUED.(status := Running, stage := "starting")
  const RESULT := RunResult("talk.srt", "en", 1)
  const DONE := Finished(RUNNING, Succeeded, Some(RESULT), None)
  const SECOND := ENQUEUED.(known := {"a", "b"})
  const ONE_LEFT := SECOND.(deleted := {"b"})
  const STARTED := ONE_LEFT.(started := ["a"])
  const RELEASED := STARTED.(released := ["a"])

  /** The job "a" with its files, and the threads `threads`. */
  function Slow(job: Job, queue: seq<Id>, running: set<Id>, file: File<Job>, threads: map<nat, Pc>, hist: History): State {
    State(Mem(map["a" := job], map["a" := REQ], queue, running, {}, false, 1),
          map["a" := Dir(Whole(REQ), file)], threads, true, hist)
  }

  /** The same before "a" has started, with a job "b" in memory. */
  function WithSecond(b: Job, threads: map<nat, Pc>): State {
    State(Mem(map["a" := QUEUED, "b" := b], map["a" := REQ, "b" := REQ], ["a"], {}, {}, false, 1),
          map["a" := Dir(Whole(REQ), Whole(CREATED))], threads, true, SECOND)
  }

  /** The same with "b" deleted and its directory as `dir`. */
  function SecondGone(dir: Dir, threads: map<nat, Pc>): State {
    State(Mem(map["a" := QUEUED], map["a" := REQ], ["a"], {}, {}, false, 1),
          map["a" := Dir(Whole(REQ), Whole(CREATED)), "b" := dir], threads, true, ONE_LEFT)
  }

  /** The same with no trace of "b". */
  function BeforeStart(threads: map<nat, Pc>): State {
    Slow(QUEUED, ["a"], {}, Whole(CREATED), threads, ONE_LEFT)
  }

  /** Thread 2 creates a job "b", which thread 3 cancels. */
  lemma SecondCanceled()
    ensures Reachable(WithSecond(EARLY, map[1 := LATE, 2 := CREATE, 3 := Save("b", ToReturn)]))
  {
    CopyPending();
    hide Reachable, RecoveredMem, RecoveredDisk, RecoveredDir, Delete, NextAdvance;
    var c0 := Slow(QUEUED, ["a"], {}, Whole(CREATED), map[1 := LATE], ENQUEUED);
    var c1 := WithSecond(CREATED, map[1 := LATE, 2 := CREATE]);
    var c2 := WithSecond(EARLY, map[1 := LATE, 2 := CREATE, 3 := Save("b", ToReturn)]);
    assert c0 == One(map["a" := QUEUED], ["a"], map["a" := Dir(Whole(REQ), Whole(CREATED))], map[1 := LATE], ENQUEUED);
    assert map["a" := QUEUED]["b" := CREATED] == map["a" := QUEUED, "b" := CREATED];
    assert map["a" := REQ]["b" := REQ] == map["a" := REQ, "b" := REQ];
    assert ENQUEUED.known + {"b"} == SECOND.known;
    assert Reachable(c1) by { Leg(c0, CallCreate(2, "b", REQ), c1); }
    assert Reachable(c2) by { Leg(c1, CallCancel(3, "b"), c2); }
  }

  /** Thread 4 deletes "b" before its request is written. */
  lemma SecondDeleted()
    ensures Reachable(BeforeStart(map[1 := LATE, 2 := CREATE, 3 := Save("b", ToReturn), 4 := RemoveDir("b")]))
  {
    SecondCanceled();
    hide Reachable, RecoveredMem, RecoveredDisk, RecoveredDir, NextCancel, NextAdvance, Insert;
    var c2 := WithSecond(EARLY, map[1 := LATE, 2 := CREATE, 3 := Save("b", ToReturn)]);
    var c3 := BeforeStart(map[1 := LATE, 2 := CREATE, 3 := Save("b", ToReturn), 4 := RemoveDir("b")]);
    assert Reachable(c3) by { Leg(c2, CallDelete(4, "b"), c3); }
  }

  lemma SecondUnsaved()
    ensures Reachable(BeforeStart(map[1 := LATE, 2 := CREATE, 4 := RemoveDir("b")]))
  {
    SecondDeleted();
    hide Reachable, RecoveredMem, RecoveredDisk, RecoveredDir, NextCancel, Insert, Delete;
    var c3 := BeforeStart(map[1 := LATE, 2 := CREATE, 3 := Save("b", ToReturn), 4 := RemoveDir("b")]);
    var c4 := BeforeStart(map[1 := LATE, 2 := CREATE, 4 := RemoveDir("b")]);
    assert Reachable(c4) by { Leg(c3, Advance(3, Done), c4); }
  }

  lemma SecondWritten()
    ensures Reachable(SecondGone(Dir(Whole(REQ), Absent), map[1 := LATE, 2 := Save("b", ToEnqueue), 4 := RemoveDir("b")]))
  {
    SecondUnsaved();
    hide Reachable, RecoveredMem, RecoveredDisk, RecoveredDir, NextCancel, Insert, Delete;
    var c4 := BeforeStart(map[1 := LATE, 2 := CREATE, 4 := RemoveDir("b")]);
    var c5 := SecondGone(Dir(Torn, Absent), map[1 := LATE, 2 := FillRequest("b", REQ), 4 := RemoveDir("b")]);
    var c6 := SecondGone(Dir(Whole(REQ), Absent), map[1 := LATE, 2 := Save("b", ToEnqueue), 4 := RemoveDir("b")]);
    assert Reachable(c5) by { Leg(c4, Advance(2, Done), c5); }
    assert Reachable(c6) by { Leg(c5, Advance(2, Done), c6); }
  }

  lemma SecondRemoved()
    ensures Reachable(BeforeStart(map[1 := LATE, 2 := Save("b", ToEnqueue)]))
  {
    SecondWritten();
    hide Reachable, RecoveredMem, RecoveredDisk, RecoveredDir, NextCancel, Insert, Delete;
    var c6 := SecondGone(Dir(Whole(REQ), Absent), map[1 := LATE, 2 := Save("b", ToEnqueue), 4 := RemoveDir("b")]);
    var c7 := BeforeStart(map[1 := LATE, 2 := Save("b", ToEnqueue)]);
    assert Reachable(c7) by { Leg(c6, Advance(4, Done), c7); }
  }

  lemma SecondNotFound()
    ensures Reachable(BeforeStart(map[1 := LATE, 2 := EnqueueNow("b")]))
  {
    SecondRemoved();
    hide Reachable, RecoveredMem, RecoveredDisk, RecoveredDir, NextCancel, Insert, Delete;
    var c7 := BeforeStart(map[1 := LATE, 2 := Save("b", ToEnqueue)]);
    var c8 := BeforeStart(map[1 := LATE, 2 := EnqueueNow("b")]);
    assert Reachable(c8) by { Leg(c7, Advance(2, Done), c8); }
  }

  /** The creation of "b" ends in a call of schedule, as they all do. */
  lemma SecondSchedules()
    ensures Reachable(BeforeStart(map[1 := LATE, 2 := ScheduleNow]))
  {
    SecondNotFound();
    hide Reachable, RecoveredMem, RecoveredDisk, RecoveredDir, NextCancel, Insert, Delete;
    var c8 := BeforeStart(map[1 := LATE, 2 := EnqueueNow("b")]);
    var c9 := BeforeStart(map[1 := LATE, 2 := Save("b", ToSchedule)]);
    var c10 := BeforeStart(map[1 := LATE, 2 := ScheduleNow]);
    assert Reachable(c9) by { Leg(c8, Advance(2, Done), c9); }
    assert Reachable(c10) by { Leg(c9, Advance(2, Done), c10); }
  }

  /** That call starts "a". */
  lemma Started()
    ensures Reachable(Slow(RUNNING, [], {"a"}, Whole(CREATED), map[1 := LATE, 2 := WriteJob("a", RUNNING, ToSpawn)], STARTED))
  {
    SecondSchedules();
    hide Reachable, RecoveredMem, RecoveredDisk, RecoveredDir, NextCancel, Insert, Delete;
    var c10 := BeforeStart(map[1 := LATE, 2 := ScheduleNow]);
    var c11 := Slow(RUNNING, [], {"a"}, Whole(CREATED), map[1 := LATE, 2 := Save("a", ToSpawn)], STARTED);
    var c12 := Slow(RUNNING, [], {"a"}, Whole(CREATED), map[1 := LATE, 2 := WriteJob("a", RUNNING, ToSpawn)], STARTED);
    assert Reachable(c11) by { Leg(c10, Advance(2, Done), c11); }
    assert Reachable(c12) by { Leg(c11, Advance(2, Done), c12); }
  }

  lemma StartSaved()
    ensures Reachable(Slow(RUNNING, [], {"a"}, Whole(RUNNING), map[1 := LATE, 2 := SpawnRun("a")], STARTED))
  {
    Started();
    hide Reachable, RecoveredMem, RecoveredDisk, RecoveredDir, NextCancel, Insert, Delete;
    var c12 := Slow(RUNNING, [], {"a"}, Whole(CREATED), map[1 := LATE, 2 := WriteJob("a", RUNNING, ToSpawn)], STARTED);
    var c13 := Slow(RUNNING, [], {"a"}, Torn, map[1 := LATE, 2 := FillJob("a", RUNNING, ToSpawn)], STARTED);
    var c14 := Slow(RUNNING, [], {"a"}, Whole(RUNNING), map[1 := LATE, 2 := SpawnRun("a")], STARTED);
    assert Reachable(c13) by { Leg(c12, Advance(2, Done), c13); }
    assert Reachable(c14) by { Leg(c13, Advance(2, Done), c14); }
  }

  lemma Forked()
    ensures Reachable(Slow(RUNNING, [], {"a"}, Whole(RUNNING), map[1 := LATE, 5 := RunGet("a")], STARTED))
  {
    StartSaved();
    hide Reachable, RecoveredMem, RecoveredDisk, RecoveredDir, NextCancel, Insert, Delete;
    var c14 := Slow(RUNNING, [], {"a"}, Whole(RUNNING), map[1 := LATE, 2 := SpawnRun("a")], STARTED);
    var c15 := Slow(RUNNING, [], {"a"}, Whole(RUNNING), map[1 := LATE, 2 := ScheduleNow, 5 := RunGet("a")], STARTED);
    var c16 := Slow(RUNNING, [], {"a"}, Whole(RUNNING), map[1 := LATE, 5 := RunGet("a")], STARTED);
    assert Reachable(c15) by { Leg(c14, Fork(2, 5), c15); }
    assert Reachable(c16) by { Leg(c15, Advance(2, Done), c16); }
  }

  lemma Ran()
    ensures Reachable(Slow(RUNNING, [], {"a"}, Whole(RUNNING), map[1 := LATE, 5 := RunEnd("a", RESULT, None)], STARTED))
  {
    Forked();
    hide Reachable, RecoveredMem, RecoveredDisk, RecoveredDir, NextCancel, Insert, Delete;
    var c16 := Slow(RUNNING, [], {"a"}, Whole(RUNNING), map[1 := LATE, 5 := RunGet("a")], STARTED);
    var c17 := Slow(RUNNING, [], {"a"}, Whole(RUNNING), map[1 := LATE, 5 := RunBody("a")], STARTED);
    var c18 := Slow(RUNNING, [], {"a"}, Whole(RUNNING), map[1 := LATE, 5 := RunEnd("a", RESULT, None)], STARTED);
    assert Reachable(c17) by { Leg(c16, Advance(5, Done), c17); }
    assert Reachable(c18) by { Leg(c17, RunnerReturns(5, RESULT, None), c18); }
  }

  lemma Ended()
    ensures Reachable(Slow(DONE, [], {}, Whole(RUNNING), map[1 := LATE, 5 := WriteJob("a", DONE, ToSchedule)], RELEASED))
  {
    Ran();
    hide Reachable, RecoveredMem, RecoveredDisk, RecoveredDir, NextCancel, Insert, Delete;
    var c18 := Slow(RUNNING, [], {"a"}, Whole(RUNNING), map[1 := LATE, 5 := RunEnd("a", RESULT, None)], STARTED);
    var c19 := Slow(DONE, [], {}, Whole(RUNNING), map[1 := LATE, 5 := Save("a", ToSchedule)], RELEASED);
    var c20 := Slow(DONE, [], {}, Whole(RUNNING), map[1 := LATE, 5 := WriteJob("a", DONE, ToSchedule)], RELEASED);
    assert Reachable(c19) by { Leg(c18, Advance(5, Done), c19); }
    assert Reachable(c20) by { Leg(c19, Advance(5, Done), c20); }
  }

  /** The worker of "a" has ended and saved it. */
  lemma EndSaved()
    ensures Reachable(Slow(DONE, [], {}, Whole(DONE), map[1 := LATE, 5 := ScheduleNow], RELEASED))
  {
    Ended();
    hide Reachable, RecoveredMem, RecoveredDisk, RecoveredDir, NextCancel, Insert, Delete;
    var c20 := Slow(DONE, [], {}, Whole(RUNNING), map[1 := LATE, 5 := WriteJob("a", DONE, ToSchedule)], RELEASED);
    var c21 := Slow(DONE, [], {}, Torn, map[1 := LATE, 5 := FillJob("a", DONE, ToSchedule)], RELEASED);
    var c22 := Slow(DONE, [], {}, Whole(DONE), map[1 := LATE, 5 := ScheduleNow], RELEASED);
    assert Reachable(c21) by { Leg(c20, Advance(5, Done), c21); }
    assert Reachable(c22) by { Leg(c21, Advance(5, Done), c22); }
  }

  /** The creator of "a" goes on with the save it has long encoded. */
  lemma LateCopy()
    ensures Reachable(Slow(DONE, [], {}, Torn, map[1 := FillJob("a", QUEUED, ToSchedule)], RELEASED))
  {
    EndSaved();
    hide Reachable, RecoveredMem, RecoveredDisk, RecoveredDir, NextCancel, Insert, Delete;
    var c22 := Slow(DONE, [], {}, Whole(DONE), map[1 := LATE, 5 := ScheduleNow], RELEASED);
    var c23 := Slow(DONE, [], {}, Whole(DONE), map[1 := LATE], RELEASED);
    var c24 := Slow(DONE, [], {}, Torn, map[1 := FillJob("a", QUEUED, ToSchedule)], RELEASED);
    assert Reachable(c23) by { Leg(c22, Advance(5, Done), c23); }
    assert Reachable(c24) by { Leg(c23, Advance(1, Done), c24); }
  }

  /** Nothing is left to do: in memory the job has succeeded, its file says that it is queued. */
  lemma LateCopySaved()
    ensures Reachable(Slow(DONE, [], {}, Whole(QUEUED), map[], RELEASED))
  {
    LateCopy();
    hide Reachable, RecoveredMem, RecoveredDisk, RecoveredDir, NextCancel, Insert, Delete;
    var c24 := Slow(DONE, [], {}, Torn, map[1 := FillJob("a", QUEUED, ToSchedule)], RELEASED);
    var c25 := Slow(DONE, [], {}, Whole(QUEUED), map[1 := ScheduleNow], RELEASED);
    var c26 := Slow(DONE, [], {}, Whole(QUEUED), map[], RELEASED);
    assert Reachable(c25) by { Leg(c24, Advance(1, Done), c25); }
    assert Reachable(c26) by { Leg(c25, Advance(1, Done), c26); }
  }

  /** What a restart makes of a job: it is queued, and the first call of schedule starts it. */
  ghost predicate RestartRunsAgain(s: State, id: Id) {
    s.up && Enabled(Next(s, Crash), Boot(0, [id], 1, map[]))
    && var n := Next(Next(s, Crash), Boot(0, [id], 1, map[]));
       id in n.mem.queue && Enabled(n, Advance(0, Done))
       && var m := Next(n, Advance(0, Done)).mem; id in m.jobs && m.jobs[id].status == Running
  }

  const REQUEUED := Mem(map["a" := QUEUED], map["a" := REQ], ["a"], {}, {}, false, 1)

  lemma QueuedFileTable(disk: Disk)
    requires disk == map["a" := Dir(Whole(REQ), Whole(QUEUED))]
    ensures RecoveredJobs(disk, Ids(["a"])) == REQUEUED.jobs && RecoveredRequests(disk, Ids(["a"])) == REQUEUED.requests
  {
    assert Readable(disk, "a");
  }

  lemma QueuedFileIsQueued()
    ensures RecoveredMem(map["a" := Dir(Whole(REQ), Whole(QUEUED))], ["a"], 1) == REQUEUED
  {
    var disk: Disk := map["a" := Dir(Whole(REQ), Whole(QUEUED))];
    QueuedFileTable(disk);
    hide RecoveredJobs, RecoveredRequests;
    assert RequeuedIds(disk, ["a"]) == ["a"] by { assert ["a"][..0] == []; }
  }

  lemma HeadStarts(n: State)
    requires n.mem == REQUEUED && n.threads == map[0 := ScheduleNow]
    ensures Enabled(n, Advance(0, Done)) && "a" in Next(n, Advance(0, Done)).mem.jobs
    ensures Next(n, Advance(0, Done)).mem.jobs["a"].status == Running
  {
  }

  lemma QueuedFileRunsAgain(s: State)
    requires s.up && s.disk == map["a" := Dir(Whole(REQ), Whole(QUEUED))]
    ensures RestartRunsAgain(s, "a")
  {
    QueuedFileIsQueued();
    hide RecoveredMem, RecoveredDisk, NextAdvance;
    var n := Next(Next(s, Crash), Boot(0, ["a"], 1, map[]));
    HeadStarts(n);
  }

  /** A save that was encoded early and made late: with no failed write, no crash and no call left
      under way, the file of a job that has succeeded says that it is queued, and after the next
      restart the job runs a second time. */
  lemma FinishedJobRunsAgain()
    ensures exists s :: Reachable(s) && s.threads == map[] && "a" in s.mem.jobs && s.mem.jobs["a"].status == Succeeded
                        && s.hist.deleted == {"b"} && RestartRunsAgain(s, "a")
  {
    LateCopySaved();
    var c26 := Slow(DONE, [], {}, Whole(QUEUED), map[], RELEASED);
    QueuedFileRunsAgain(c26);
    hide Reachable, RestartRunsAgain;
    assert c26.threads == map[] && c26.mem.jobs["a"].status == Succeeded && c26.hist.deleted == {"b"};
  }
}
