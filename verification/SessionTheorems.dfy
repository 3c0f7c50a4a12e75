/**
 What the control plane promises over whole runs.
 */
module SessionTheorems {
  import opened Prelude
  import opened SessionControl
  import opened SessionSafety

  /** The steps that only write notes into a record. */
  predicate WritesNotes(step: Step) {
    step.SeedState? || step.FailedStartDone? || step.SubmitReply? || step.WorkerEvent?
  }

  lemma PutWritesNotes(s: State, sid: SessionId, r: Record)
    requires SameHandles(RecordOf(s, sid), r)
    ensures OnlyNotes(s, Put(s, sid, r))
  {
  }

  lemma RegionsWriteNotes(s: State, sid: SessionId, news: WorkerNews)
    ensures OnlyNotes(s, WorkerEventRegion(s, sid, news))
    ensures OnlyNotes(s, SubmitReplyRegion(s, sid).0)
  {
    var r := RecordOf(s, sid);
    PutWritesNotes(s, sid, r);
    PutWritesNotes(s, sid, r.(pending := Some(PlanRole)));
    PutWritesNotes(s, sid, r.(pending := Some(ClarificationRole)));
    PutWritesNotes(s, sid, r.(pending := None));
    if news.DoneNews? {
      PutWritesNotes(s, sid, r.(pending := None, completedAt := Some(news.now)));
    }
  }

  lemma NoteStepWritesNotes(s: State, step: Step)
    requires WritesNotes(step) && Enabled(s, step)
    ensures OnlyNotes(s, Apply(s, step))
  {
    match step
    case SeedState(sid) => RegionsWriteNotes(s, sid, OtherNews);
    case FailedStartDone(sid, now) => RegionsWriteNotes(s, sid, DoneNews(now));
    case SubmitReply(sid) => RegionsWriteNotes(s, sid, OtherNews);
    case WorkerEvent(w, news) => RegionsWriteNotes(s, s.workers[w].session, news);
  }

  lemma StepKeepsInv(s: State, step: Step)
    requires Inv(s) && Enabled(s, step) && Assumed(s, step)
    ensures Inv(Apply(s, step))
  {
    match step
    case StartTask(sid, box, w, fire, outcome) => StartTaskKeepsInv(s, sid, box, w, fire, outcome);
    case EnterStopSession(t, sid) => EnterStopSessionKeepsInv(s, t, sid);
    case EnterStopAll(t) => EnterStopAllKeepsInv(s, t);
    case EnterReap(t, now) => EnterReapKeepsInv(s, t, now);
    case EnterRetire(t, sid) => EnterRetireKeepsInv(s, t, sid);
    case SandboxStopReturns(t, sid, survives) => SandboxStopKeepsInv(s, t, sid, survives);
    case Release(t, sids) => ReleaseKeepsInv(s, t, sids);
    case WorkerExit(w) => WorkerExitKeepsInv(s, w);
    case SandboxDies(x) => SandboxDiesKeepsInv(s, x);
    case _ =>
      NoteStepWritesNotes(s, step);
      NotesKeepInv(s, Apply(s, step));
  }

  lemma InitialInv(s: State)
    requires Initial(s)
    ensures Inv(s)
  {
    assert Holding(s) == {};
  }

  lemma {:induction false} RunKeepsInv(s: State, run: seq<Step>)
    requires Inv(s) && Fair(s, run)
    ensures Possible(s, run) && Inv(After(s, run))
    decreases |run|
  {
    if run != [] {
      StepKeepsInv(s, run[0]);
      RunKeepsInv(Apply(s, run[0]), run[1..]);
    }
  }

  // ---------------------------------------------------------------- safety over all runs

  /** In every interleaving a session has at most one live worker. */
  lemma AtMostOneLiveWorker(s0: State, run: seq<Step>, v: WorkerId, w: WorkerId)
    requires Initial(s0) && Fair(s0, run)
    ensures Possible(s0, run)
    ensures var s := After(s0, run);
            (v in s.workers && w in s.workers && s.workers[v].live && s.workers[w].live
             && s.workers[v].session == s.workers[w].session) ==> v == w
  {
    InitialInv(s0);
    RunKeepsInv(s0, run);
    var s := After(s0, run);
    if v in s.workers && w in s.workers && s.workers[v].live && s.workers[w].live
       && s.workers[v].session == s.workers[w].session {
      var sid := s.workers[v].session;
      assert forall t | Stopping(s, t, sid) :: Captured(s, t, sid) && s.records[sid].stopping;
    }
  }

  /** A worker's exit handler finds its own worker in the record, or none: never a newer one. */
  lemma ExitNeverClearsAnother(s0: State, run: seq<Step>, w: WorkerId)
    requires Initial(s0) && Fair(s0, run)
    ensures Possible(s0, run)
    ensures var s := After(s0, run);
            Enabled(s, WorkerExit(w)) ==>
              && s.workers[w].session in s.records
              && s.records[s.workers[w].session].worker in {None, Some(w)}
  {
    InitialInv(s0);
    RunKeepsInv(s0, run);
    var s := After(s0, run);
    if Enabled(s, WorkerExit(w)) {
      var sid := s.workers[w].session;
      if s.records[sid].worker.Some? {
        AtMostOneLiveWorker(s0, run, w, s.records[sid].worker.value);
      }
    }
  }

  /** Records that hold a running worker or a running Fire sandbox never outnumber `max_active_sessions`. */
  lemma CapacityHolds(s0: State, run: seq<Step>)
    requires Initial(s0) && Fair(s0, run)
    ensures Possible(s0, run)
    ensures s0.maxActive.Some? ==> |Holding(After(s0, run))| <= s0.maxActive.value
  {
    InitialInv(s0);
    RunKeepsInv(s0, run);
    MaxActiveFixed(s0, run);
  }

  lemma StepKeepsLimit(s: State, step: Step)
    requires Enabled(s, step)
    ensures Apply(s, step).maxActive == s.maxActive
  {
    if WritesNotes(step) {
      NoteStepWritesNotes(s, step);
    }
  }

  lemma {:induction false} MaxActiveFixed(s: State, run: seq<Step>)
    requires Possible(s, run)
    ensures After(s, run).maxActive == s.maxActive
    decreases |run|
  {
    if run != [] {
      StepKeepsLimit(s, run[0]);
      MaxActiveFixed(Apply(s, run[0]), run[1..]);
    }
  }

  /** Nothing new happens on sandbox `x`: no task is sent to it, no worker is added on it. */
  predicate Untouched(s: State, s': State, x: SandboxId) {
    && x in s.sandboxes && x in s'.sandboxes
    && s'.sandboxes[x].picked
    && s'.sandboxes[x].tasksSent == s.sandboxes[x].tasksSent
    && (forall v | v in s'.workers && s'.workers[v].sandbox == x :: v in s.workers && s.workers[v].sandbox == x)
  }

  /** The record of a picked sandbox is flagged, so `start_task` answers "busy" there. */
  lemma PickedStartUntouched(s: State, sid: SessionId, box: SandboxId, w: WorkerId, fire: bool, outcome: Outcome, x: SandboxId)
    requires SandboxesOk(s) && x in s.sandboxes && s.sandboxes[x].picked
    requires box !in s.sandboxes && w !in s.workers
    ensures Untouched(s, StartTaskRegion(s, sid, box, w, fire, outcome).0, x)
  {
    if Admitted(s, sid) {
      StartTaskStarts(s, sid, box, w, fire, outcome);
      assert RecordOf(s, sid).sandbox != Some(x);
    }
  }

  lemma PickedStepUntouched(s: State, step: Step, x: SandboxId)
    requires SandboxesOk(s) && RecordedWorkersOk(s) && Enabled(s, step) && x in s.sandboxes && s.sandboxes[x].picked
    ensures Untouched(s, Apply(s, step), x)
  {
    if WritesNotes(step) {
      NoteStepWritesNotes(s, step);
    } else if step.StartTask? {
      PickedStartUntouched(s, step.sid, step.box, step.worker, step.fire, step.outcome, x);
    }
  }

  /** Once any thread has picked a sandbox for stopping, it gets no further task and no further worker. */
  lemma {:induction false} PickedNeverUsedAgain(s: State, run: seq<Step>, x: SandboxId)
    requires Inv(s) && Fair(s, run) && x in s.sandboxes && s.sandboxes[x].picked
    ensures Possible(s, run) && Untouched(s, After(s, run), x)
    decreases |run|
  {
    if run != [] {
      StepKeepsInv(s, run[0]);
      PickedStepUntouched(s, run[0], x);
      PickedNeverUsedAgain(Apply(s, run[0]), run[1..], x);
    }
  }

  lemma StartKeepsFlaggedSandbox(s: State, sid: SessionId, box: SandboxId, w: WorkerId, fire: bool, outcome: Outcome, other: SessionId)
    requires other in s.records && s.records[other].stopping
    requires box !in s.sandboxes && w !in s.workers
    ensures RecordOf(StartTaskRegion(s, sid, box, w, fire, outcome).0, other) == s.records[other]
  {
    if Admitted(s, sid) {
      StartTaskStarts(s, sid, box, w, fire, outcome);
    }
  }

  lemma OthersKeepFlaggedSandbox(s: State, step: Step, sid: SessionId)
    requires Enabled(s, step) && !step.Release? && sid in s.records && s.records[sid].stopping
    ensures var r' := RecordOf(Apply(s, step), sid); r'.sandbox == s.records[sid].sandbox && r'.stopping
  {
    if WritesNotes(step) {
      NoteStepWritesNotes(s, step);
    } else if step.StartTask? {
      StartKeepsFlaggedSandbox(s, step.sid, step.box, step.worker, step.fire, step.outcome, sid);
    }
  }

  /** A picked sandbox leaves its record, and the record its flag, only after that sandbox's `stop()` came back. */
  lemma ReleasedOnlyAfterStop(s: State, step: Step, sid: SessionId)
    requires Inv(s) && Enabled(s, step) && Assumed(s, step)
    requires sid in s.records && s.records[sid].sandbox.Some? && s.sandboxes[s.records[sid].sandbox.value].picked
    ensures var r' := RecordOf(Apply(s, step), sid);
            (r'.sandbox == s.records[sid].sandbox && r'.stopping)
            || s.sandboxes[s.records[sid].sandbox.value].stopReturned
  {
    if step.Release? {
      ReleaseReleases(s, step.thread, step.sids);
    } else {
      OthersKeepFlaggedSandbox(s, step, sid);
    }
  }
}
