/**
 The coordinator's own count of active sessions, which also counts every record
 that is being stopped: by how much each step changes it, and exactly when it
 stays within the limit.
 */
module SessionCount {
  import opened Prelude
  import opened SessionControl
  import opened SessionSafety
  import opened SessionTheorems

  function Counted(s: State): set<SessionId> {
    set sid | sid in s.records && CountsTowardCapacity(s, s.records[sid])
  }

  lemma CountIsSize(s: State)
    ensures ActiveCount(s) == |Counted(s)|
  {
    assert Counted(s) == set sid | sid in s.records && CountsTowardCapacity(s, s.records[sid]);
  }

  /** The step sets the stopping flag of this session's record, or would if it were not set. */
  predicate Flags(s: State, step: Step, sid: SessionId)
    requires sid in s.records
  {
    match step
    case EnterStopSession(_, x) => x == sid && s.records[sid].sandbox.Some?
    case EnterStopAll(_) => s.records[sid].sandbox.Some?
    case EnterReap(_, now) => IdleTooLong(s, s.records[sid], now)
    case EnterRetire(_, x) => x == sid
    case _ => false
  }

  /** The sessions that the step flags and that did not count before. */
  function NewlyCounted(s: State, step: Step): set<SessionId> {
    set sid | sid in s.records && Flags(s, step, sid) && !CountsTowardCapacity(s, s.records[sid])
  }

  lemma CountGrowsBy(s: State, s': State, more: set<SessionId>)
    requires s'.records.Keys == s.records.Keys && more <= s.records.Keys && more !! Counted(s)
    requires forall sid | sid in s.records :: sid in Counted(s') <==> sid in Counted(s) || sid in more
    ensures ActiveCount(s') == ActiveCount(s) + |more|
  {
    CountIsSize(s);
    CountIsSize(s');
    assert Counted(s') == Counted(s) + more;
  }

  // ---------------------------------------------------------------- the four ways to begin a stop

  function Grown(s: State, targets: map<SessionId, Target>): set<SessionId> {
    set sid | sid in s.records && sid in targets && s.records[sid].sandbox.Some? && !CountsTowardCapacity(s, s.records[sid])
  }

  /** A capture makes its targets with a sandbox count, and changes nothing else about the count. */
  lemma CaptureCounts(s: State, s': State, t: ThreadId, targets: map<SessionId, Target>)
    requires RecordedWorkersOk(s) && Captures(s, s', t, targets)
    ensures ActiveCount(s') == ActiveCount(s) + |Grown(s, targets)|
  {
    forall sid | sid in s.records
      ensures sid in Counted(s') <==> sid in Counted(s) || sid in Grown(s, targets)
    {
      CaptureCountsOne(s, s', t, targets, sid);
    }
    CountGrowsBy(s, s', Grown(s, targets));
  }

  lemma CaptureCountsOne(s: State, s': State, t: ThreadId, targets: map<SessionId, Target>, sid: SessionId)
    requires RecordedWorkersOk(s) && Captures(s, s', t, targets) && sid in s.records
    ensures sid in s'.records
    ensures CountsTowardCapacity(s', s'.records[sid]) <==> CountsTowardCapacity(s, s.records[sid]) || sid in Grown(s, targets)
  {
    var r, r' := s.records[sid], s'.records[sid];
    assert SandboxRunning(s', r.sandbox) <==> SandboxRunning(s, r.sandbox);
    assert SandboxRunning(s, r.sandbox) ==> s'.sandboxes[r.sandbox.value].fire == s.sandboxes[r.sandbox.value].fire;
    if sid in targets {
      assert CapturesRecord(RecordOf(s, sid), RecordOf(s', sid), targets[sid]);
    }
  }

  lemma StopSessionCounts(s: State, t: ThreadId, sid: SessionId)
    requires RecordedWorkersOk(s) && t !in s.stops && NoStopInFlight(s, sid)
    ensures ActiveCount(EnterStopSessionRegion(s, t, sid)) == ActiveCount(s) + |NewlyCounted(s, EnterStopSession(t, sid))|
  {
    var s' := EnterStopSessionRegion(s, t, sid);
    EnterStopSessionCaptures(s, t, sid);
    CaptureCounts(s, s', t, s'.stops[t].targets);
    assert Grown(s, s'.stops[t].targets) == NewlyCounted(s, EnterStopSession(t, sid));
  }

  lemma StopAllCounts(s: State, t: ThreadId)
    requires RecordedWorkersOk(s) && t !in s.stops && forall sid | sid in StopAllTargets(s) :: NoStopInFlight(s, sid)
    ensures ActiveCount(EnterStopAllRegion(s, t)) == ActiveCount(s) + |NewlyCounted(s, EnterStopAll(t))|
  {
    var s' := EnterStopAllRegion(s, t);
    EnterStopAllCaptures(s, t);
    CaptureCounts(s, s', t, s'.stops[t].targets);
    assert Grown(s, s'.stops[t].targets) == NewlyCounted(s, EnterStopAll(t));
  }

  lemma ReapCounts(s: State, t: ThreadId, now: int)
    ensures ActiveCount(EnterReapRegion(s, t, now)) == ActiveCount(s) + |NewlyCounted(s, EnterReap(t, now))|
  {
    var s' := EnterReapRegion(s, t, now);
    forall sid | sid in s.records
      ensures sid in Counted(s') <==> sid in Counted(s) || sid in NewlyCounted(s, EnterReap(t, now))
    {
      ReapCountsOne(s, t, now, sid);
    }
    CountGrowsBy(s, s', NewlyCounted(s, EnterReap(t, now)));
  }

  lemma ReapCountsOne(s: State, t: ThreadId, now: int, sid: SessionId)
    requires sid in s.records
    ensures var s' := EnterReapRegion(s, t, now);
            CountsTowardCapacity(s', s'.records[sid]) <==>
            CountsTowardCapacity(s, s.records[sid]) || IdleTooLong(s, s.records[sid], now)
  {
    var s' := EnterReapRegion(s, t, now);
    var x := s.records[sid].sandbox;
    assert SandboxRunning(s', x) <==> SandboxRunning(s, x);
    assert SandboxRunning(s, x) ==> s'.sandboxes[x.value].fire == s.sandboxes[x.value].fire;
  }

  lemma RetireCounts(s: State, t: ThreadId, sid: SessionId)
    requires RecordedWorkersOk(s) && TargetsOk(s) && Enabled(s, EnterRetire(t, sid)) && NoEmptyStopInFlight(s, sid)
    ensures ActiveCount(EnterRetireRegion(s, t, sid)) == ActiveCount(s) + |NewlyCounted(s, EnterRetire(t, sid))|
  {
    var s' := EnterRetireRegion(s, t, sid);
    EnterRetireCaptures(s, t, sid);
    CaptureCounts(s, s', t, s'.stops[t].targets);
    assert Grown(s, s'.stops[t].targets) == NewlyCounted(s, EnterRetire(t, sid));
  }

  /** Beginning a stop lifts the count by exactly the uncounted records it flags. */
  lemma EnteringCounts(s: State, step: Step)
    requires Inv(s) && Enabled(s, step) && Assumed(s, step)
    requires step.EnterStopSession? || step.EnterStopAll? || step.EnterReap? || step.EnterRetire?
    ensures ActiveCount(Apply(s, step)) == ActiveCount(s) + |NewlyCounted(s, step)|
  {
    match step
    case EnterStopSession(t, sid) => StopSessionCounts(s, t, sid);
    case EnterStopAll(t) => StopAllCounts(s, t);
    case EnterReap(t, now) => ReapCounts(s, t, now);
    case EnterRetire(t, sid) => RetireCounts(s, t, sid);
  }

  /** What a reap newly counts are exactly the idle sandboxes that are no Fire sandboxes. */
  lemma ReapCountsYolo(s: State, t: ThreadId, now: int)
    ensures NewlyCounted(s, EnterReap(t, now)) ==
            set sid | sid in s.records && IdleTooLong(s, s.records[sid], now) && !s.sandboxes[s.records[sid].sandbox.value].fire
  {
  }

  // ---------------------------------------------------------------- all other steps

  lemma CountShrinks(s: State, s': State)
    requires forall sid | sid in s'.records && CountsTowardCapacity(s', s'.records[sid]) ::
               sid in s.records && CountsTowardCapacity(s, s.records[sid])
    ensures ActiveCount(s') <= ActiveCount(s)
  {
    CountIsSize(s);
    CountIsSize(s');
    SubsetSize(Counted(s'), Counted(s));
  }

  lemma OthersShrinkCount(s: State, step: Step)
    requires Inv(s) && Enabled(s, step) && Assumed(s, step)
    requires WritesNotes(step) || step.SandboxStopReturns? || step.Release? || step.WorkerExit? || step.SandboxDies?
    ensures ActiveCount(Apply(s, step)) <= ActiveCount(s)
  {
    var s' := Apply(s, step);
    if WritesNotes(step) {
      NoteStepWritesNotes(s, step);
    } else if step.Release? {
      ReleaseReleases(s, step.thread, step.sids);
    }
    CountShrinks(s, s');
  }

  /** The guard of `start_task` keeps its own count within the limit. */
  lemma StartKeepsCount(s: State, sid: SessionId, box: SandboxId, w: WorkerId, fire: bool, outcome: Outcome)
    requires Inv(s) && box !in s.sandboxes && w !in s.workers
    requires s.maxActive.Some? && ActiveCount(s) <= s.maxActive.value
    ensures ActiveCount(StartTaskRegion(s, sid, box, w, fire, outcome).0) <= s.maxActive.value
  {
    var s' := StartTaskRegion(s, sid, box, w, fire, outcome).0;
    PutCountsTheSame(s, sid);
    if Admitted(s, sid) {
      StartTaskStarts(s, sid, box, w, fire, outcome);
      AdmittedCounts(s, s', sid, box, w);
    } else {
      RefusedOnlyPuts(s, sid, box, w, fire, outcome);
    }
  }

  lemma RefusedOnlyPuts(s: State, sid: SessionId, box: SandboxId, w: WorkerId, fire: bool, outcome: Outcome)
    ensures !Admitted(s, sid) ==> StartTaskRegion(s, sid, box, w, fire, outcome).0 == Put(s, sid, RecordOf(s, sid))
  {
  }

  lemma PutCountsTheSame(s: State, sid: SessionId)
    ensures ActiveCount(Put(s, sid, RecordOf(s, sid))) == ActiveCount(s)
  {
    var p := Put(s, sid, RecordOf(s, sid));
    CountIsSize(s);
    CountIsSize(p);
    assert Counted(p) == Counted(s);
  }

  lemma AdmittedCounts(s: State, s': State, sid: SessionId, box: SandboxId, w: WorkerId)
    requires Inv(s) && box !in s.sandboxes && w !in s.workers && Admitted(s, sid) && Starts(s, s', sid, box, w)
    requires s.maxActive.Some? && ActiveCount(s) <= s.maxActive.value
    ensures ActiveCount(s') <= s.maxActive.value
  {
    CountIsSize(s);
    CountIsSize(s');
    StartCountsOne(s, s', sid, box, w);
    if CountsTowardCapacity(s, RecordOf(s, sid)) {
      assert sid in Counted(s);
      SubsetSize(Counted(s'), Counted(s));
    } else {
      PutCountsTheSame(s, sid);
      SubsetSize(Counted(s'), Counted(s) + {sid});
    }
  }

  lemma StartCountsOne(s: State, s': State, sid: SessionId, box: SandboxId, w: WorkerId)
    requires Inv(s) && box !in s.sandboxes && w !in s.workers && Starts(s, s', sid, box, w)
    ensures Counted(s') <= Counted(s) + {sid}
  {
    forall x | x in Counted(s') && x != sid ensures x in Counted(s) {
      assert s'.records[x] == s.records[x];
    }
  }

  // ---------------------------------------------------------------- exactly when it stays within the limit

  predicate OwnWithin(s: State) {
    s.maxActive.Some? ==> ActiveCount(s) <= s.maxActive.value
  }

  predicate Room(s: State, step: Step) {
    s.maxActive.Some? ==> ActiveCount(s) + |NewlyCounted(s, step)| <= s.maxActive.value
  }

  /** From a state within the limit a step leaves it if and only if it flags more uncounted records than there is room for. */
  lemma OwnCountStaysIff(s: State, step: Step)
    requires Inv(s) && Enabled(s, step) && Assumed(s, step) && OwnWithin(s)
    ensures OwnWithin(Apply(s, step)) <==> Room(s, step)
  {
    StepKeepsLimit(s, step);
    if step.EnterStopSession? || step.EnterStopAll? || step.EnterReap? || step.EnterRetire? {
      EnteringCounts(s, step);
    } else {
      assert NewlyCounted(s, step) == {};
      if step.StartTask? {
        if s.maxActive.Some? {
          StartKeepsCount(s, step.sid, step.box, step.worker, step.fire, step.outcome);
        }
      } else {
        OthersShrinkCount(s, step);
      }
    }
  }

  /** In every state of the run the own count is within the limit. */
  ghost predicate WithinThroughout(s: State, run: seq<Step>)
    requires Possible(s, run)
    decreases |run|
  {
    OwnWithin(s) && (run == [] || WithinThroughout(Apply(s, run[0]), run[1..]))
  }

  /** Every step of the run has room where it is taken. */
  ghost predicate RoomThroughout(s: State, run: seq<Step>)
    requires Possible(s, run)
    decreases |run|
  {
    run == [] || (Room(s, run[0]) && RoomThroughout(Apply(s, run[0]), run[1..]))
  }

  /** Over whole runs: the own count stays within the limit if and only if no step flags more than there is room for. */
  lemma {:induction false} OwnCountRunIff(s: State, run: seq<Step>)
    requires Inv(s) && Fair(s, run) && OwnWithin(s)
    ensures Possible(s, run) && (WithinThroughout(s, run) <==> RoomThroughout(s, run))
    decreases |run|
  {
    RunKeepsInv(s, run);
    if run != [] {
      OwnCountStaysIff(s, run[0]);
      StepKeepsInv(s, run[0]);
      if Room(s, run[0]) {
        OwnCountRunIff(Apply(s, run[0]), run[1..]);
      }
    }
  }
}
