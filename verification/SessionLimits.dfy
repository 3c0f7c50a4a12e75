/**
 The edge of what the control plane promises: from every state in which a stop
 overlaps another as the assumptions exclude, a run to two live workers, or to
 a task on a picked sandbox; and closed runs that show that such states, and an
 own count beyond the limit, are reached.
 */
module SessionLimits {
  import opened Prelude
  import opened SessionControl
  import opened SessionSafety
  import opened SessionTheorems
  import opened SessionCount

  /** `step` leads from `s` to `s'`; `fair` also asks for the environment's grant. */
  predicate Leads(s: State, step: Step, s': State, fair: bool) {
    Enabled(s, step) && Apply(s, step) == s' && (fair ==> Assumed(s, step))
  }

  ghost predicate Arrives(s: State, run: seq<Step>, last: State, fair: bool) {
    Possible(s, run) && After(s, run) == last && (fair ==> Fair(s, run))
  }

  lemma Stay(s: State, fair: bool)
    ensures Arrives(s, [], s, fair)
  {
  }

  lemma Prepend(s: State, step: Step, s': State, run: seq<Step>, last: State, fair: bool) returns (longer: seq<Step>)
    requires Leads(s, step, s', fair) && Arrives(s', run, last, fair)
    ensures Arrives(s, longer, last, fair)
  {
    longer := [step] + run;
    assert longer[1..] == run;
  }

  // ---------------------------------------------------------------- every overlap breaks

  /** Outside session `sid` the state is as it was, but for sandboxes that no longer run. */
  ghost predicate Around(s: State, s': State, sid: SessionId) {
    && s'.maxActive == s.maxActive && s'.workers == s.workers
    && s'.sandboxes.Keys == s.sandboxes.Keys && s'.records.Keys == s.records.Keys
    && (forall x | x in s.sandboxes ::
          s'.sandboxes[x].fire == s.sandboxes[x].fire && (s'.sandboxes[x].running ==> s.sandboxes[x].running))
    && (forall k | k in s.records && k != sid :: s'.records[k] == s.records[k])
  }

  /** So a session that counts, once it holds nothing and is not flagged, leaves room for itself. */
  lemma AroundMakesRoom(s: State, s': State, sid: SessionId)
    requires Around(s, s', sid) && sid in Counted(s) && !CountsTowardCapacity(s', s'.records[sid])
    ensures ActiveCount(s') < ActiveCount(s)
  {
    CountIsSize(s);
    CountIsSize(s');
    forall k | k in Counted(s') ensures k in Counted(s) - {sid} {
      assert s'.records[k] == s.records[k];
    }
    SubsetSize(Counted(s'), Counted(s) - {sid});
  }

  /** Thread `u` is stopping session `sid` alone, which holds sandbox `x` and no worker. */
  predicate StopsAlone(s: State, u: ThreadId, sid: SessionId, x: SandboxId, stopped: bool) {
    && sid in s.records && s.records[sid].worker.None? && s.records[sid].sandbox == Some(x) && s.records[sid].stopping
    && u in s.stops && s.stops[u] == Stop(StopSession, map[sid := Target(None, Some(x), stopped)])
    && x in s.sandboxes
  }

  lemma SecondStopEnters(s: State, u: ThreadId, sid: SessionId, x: SandboxId)
    requires sid in s.records && s.records[sid].worker.None? && s.records[sid].sandbox == Some(x) && s.records[sid].stopping
    requires x in s.sandboxes && u !in s.stops
    ensures var s' := EnterStopSessionRegion(s, u, sid); Around(s, s', sid) && StopsAlone(s', u, sid, x, false)
  {
  }

  lemma SecondStopReturns(s: State, u: ThreadId, sid: SessionId, x: SandboxId)
    requires StopsAlone(s, u, sid, x, false)
    ensures var step := SandboxStopReturns(u, sid, false);
            Enabled(s, step) && Assumed(s, step)
            && Around(s, Apply(s, step), sid) && StopsAlone(Apply(s, step), u, sid, x, true)
  {
    assert map[sid := Target(None, Some(x), false)][sid := Target(None, Some(x), true)] == map[sid := Target(None, Some(x), true)];
  }

  lemma SecondStopReleases(s: State, u: ThreadId, sid: SessionId, x: SandboxId)
    requires StopsAlone(s, u, sid, x, true)
    ensures var step := Release(u, {sid});
            && Enabled(s, step) && Assumed(s, step) && Around(s, Apply(s, step), sid)
            && var r := Apply(s, step).records[sid]; r.worker.None? && r.sandbox.None? && !r.stopping
  {
  }

  lemma FreeSessionStarts(s: State, sid: SessionId, box: SandboxId, w: WorkerId, fire: bool)
    requires sid in s.records && s.records[sid].worker.None? && s.records[sid].sandbox.None? && !s.records[sid].stopping
    requires s.maxActive.Some? ==> ActiveCount(s) < s.maxActive.value
    requires box !in s.sandboxes && w !in s.workers
    ensures Apply(s, StartTask(sid, box, w, fire, Launched)).workers == s.workers[w := Worker(sid, box, true)]
  {
    assert Put(s, sid, RecordOf(s, sid)) == s;
  }

  lemma AroundTwice(s: State, s': State, s'': State, sid: SessionId)
    requires Around(s, s', sid) && Around(s', s'', sid)
    ensures Around(s, s'', sid)
  {
  }

  /** A second stop runs through and frees the session while the first is under way. */
  lemma SecondStopFrees(s: State, u: ThreadId, sid: SessionId, x: SandboxId) returns (s1: State, s2: State, s3: State)
    requires sid in s.records && s.records[sid].worker.None? && s.records[sid].sandbox == Some(x) && s.records[sid].stopping
    requires x in s.sandboxes && u !in s.stops
    ensures Leads(s, EnterStopSession(u, sid), s1, false)
    ensures Leads(s1, SandboxStopReturns(u, sid, false), s2, true) && Leads(s2, Release(u, {sid}), s3, true)
    ensures Around(s, s3, sid) && var r := s3.records[sid]; r.worker.None? && r.sandbox.None? && !r.stopping
  {
    SecondStopEnters(s, u, sid, x);
    s1 := Apply(s, EnterStopSession(u, sid));
    SecondStopReturns(s1, u, sid, x);
    s2 := Apply(s1, SandboxStopReturns(u, sid, false));
    SecondStopReleases(s2, u, sid, x);
    s3 := Apply(s2, Release(u, {sid}));
    AroundTwice(s, s1, s2, sid);
    AroundTwice(s, s2, s3, sid);
  }

  /** Whenever a stop of a session still waits for its live worker, a second `stop_session` there leads on to two live
      workers; it is the only step of this run that the environment does not grant. */
  lemma SecondStopBreaksSingleWorker(s: State, t: ThreadId, sid: SessionId, v: WorkerId,
                                     u: ThreadId, box: SandboxId, w: WorkerId, fire: bool) returns (run: seq<Step>)
    requires Inv(s) && Stopping(s, t, sid) && s.stops[t].targets[sid].worker == Some(v)
    requires WorkerRunning(s, Some(v)) && s.workers[v].session == sid
    requires u !in s.stops && box !in s.sandboxes && w !in s.workers && OwnWithin(s)
    ensures Possible(s, run) && run != [] && run[0] == EnterStopSession(u, sid) && Fair(Apply(s, run[0]), run[1..])
    ensures var s' := After(s, run);
            && v != w && v in s'.workers && w in s'.workers && s'.workers[v].live && s'.workers[w].live
            && s'.workers[v].session == s'.workers[w].session == sid
  {
    var x := s.records[sid].sandbox.value;
    var s1, s2, s3 := SecondStopFrees(s, u, sid, x);
    AroundMakesRoom(s, s3, sid);
    FreeSessionStarts(s3, sid, box, w, fire);
    var s4 := Apply(s3, StartTask(sid, box, w, fire, Launched));
    Stay(s4, true);
    run := Prepend(s3, StartTask(sid, box, w, fire, Launched), s4, [], s4, true);
    run := Prepend(s2, Release(u, {sid}), s3, run, s4, true);
    var rest := Prepend(s1, SandboxStopReturns(u, sid, false), s2, run, s4, true);
    run := [EnterStopSession(u, sid)] + rest;
    assert run[1..] == rest;
  }

  /** Thread `t` has only to release session `sid`, where it found nothing to stop. */
  predicate EmptyStopUnderWay(s: State, t: ThreadId, sid: SessionId) {
    && t in s.stops && s.stops[t].kind == StopSession && sid in s.stops[t].targets
    && s.stops[t].targets[sid] == Target(None, None, true)
  }

  lemma ReapFlags(s: State, u: ThreadId, now: int, sid: SessionId, x: SandboxId)
    requires u !in s.stops && sid in ReapTargets(s, now) && s.records[sid].sandbox == Some(x)
    ensures var s' := EnterReapRegion(s, u, now);
            && s'.workers == s.workers && s'.maxActive == s.maxActive && s'.stops == s.stops[u := Stop(Reap, ReapTargets(s, now))]
            && s'.records.Keys == s.records.Keys
            && s'.records[sid] == s.records[sid].(stopping := true, completedAt := None)
            && x in s'.sandboxes && s'.sandboxes[x] == s.sandboxes[x].(picked := true)
  {
    assert ReapTargets(s, now)[sid].sandbox == Some(x);
  }

  lemma EmptyStopUnflags(s: State, t: ThreadId, sid: SessionId, x: SandboxId)
    requires EmptyStopUnderWay(s, t, sid) && sid in s.records && s.records[sid].sandbox == Some(x)
    ensures var step := Release(t, {sid});
            && Enabled(s, step) && Assumed(s, step)
            && Apply(s, step).records == s.records[sid := s.records[sid].(stopping := false)]
            && Apply(s, step).workers == s.workers && Apply(s, step).sandboxes == s.sandboxes
            && Apply(s, step).maxActive == s.maxActive
  {
    assert ReleaseRegion(s, t, {sid}).records == s.records[sid := s.records[sid].(stopping := false)];
  }

  lemma ReapedSandboxStarts(s: State, sid: SessionId, x: SandboxId, box: SandboxId, w: WorkerId, fire: bool)
    requires sid in s.records && !WorkerRunning(s, s.records[sid].worker) && !s.records[sid].stopping
    requires s.records[sid].sandbox == Some(x) && SandboxRunning(s, Some(x))
    requires s.maxActive.Some? ==> ActiveCount(s) < s.maxActive.value || s.sandboxes[x].fire
    requires w !in s.workers
    ensures var s' := StartTaskRegion(s, sid, box, w, fire, Launched).0;
            && x in s'.sandboxes && s'.sandboxes[x] == s.sandboxes[x].(tasksSent := s.sandboxes[x].tasksSent + 1)
            && w in s'.workers && s'.workers[w] == Worker(sid, x, true)
  {
    assert Put(s, sid, RecordOf(s, sid)) == s;
  }

  /** Room for the task once the reap and the release are done. */
  predicate RoomAfterReap(s: State, u: ThreadId, now: int, x: SandboxId) {
    s.maxActive.Some? ==>
      (x in s.sandboxes && s.sandboxes[x].fire) || ActiveCount(s) + |NewlyCounted(s, EnterReap(u, now))| <= s.maxActive.value
  }

  lemma ReapThenReleaseRoom(s: State, s1: State, s2: State, u: ThreadId, now: int, sid: SessionId, x: SandboxId)
    requires sid in ReapTargets(s, now) && s.records[sid].sandbox == Some(x) && s1 == EnterReapRegion(s, u, now)
    requires s1.records[sid].stopping && x in s1.sandboxes && s1.sandboxes[x].fire == s.sandboxes[x].fire
    requires s2.records == s1.records[sid := s1.records[sid].(stopping := false)]
    requires s2.workers == s1.workers && s2.sandboxes == s1.sandboxes && s2.maxActive == s1.maxActive
    requires s1.records[sid].worker == s.records[sid].worker && s1.records[sid].sandbox == Some(x)
    requires RoomAfterReap(s, u, now, x)
    ensures s2.maxActive.Some? ==> ActiveCount(s2) < s2.maxActive.value || s2.sandboxes[x].fire
  {
    ReapCounts(s, u, now);
    CountIsSize(s1);
    CountIsSize(s2);
    if !s2.sandboxes[x].fire {
      assert sid in Counted(s1) && sid !in Counted(s2);
      forall k | k in Counted(s2) ensures k in Counted(s1) - {sid} {
        assert s2.records[k] == s1.records[k];
      }
      SubsetSize(Counted(s2), Counted(s1) - {sid});
    }
  }

  /** Whenever a stop that found nothing is still to release a session that the reaper picks meanwhile, the release
      clears the reaper's flag and the picked sandbox gets another task and worker; only the reap is not granted. */
  lemma EmptyStopBreaksPicking(s: State, t: ThreadId, u: ThreadId, now: int, sid: SessionId, x: SandboxId,
                               box: SandboxId, w: WorkerId, fire: bool) returns (run: seq<Step>)
    requires Inv(s) && EmptyStopUnderWay(s, t, sid) && Enabled(s, EnterReap(u, now))
    requires sid in ReapTargets(s, now) && s.records[sid].sandbox == Some(x)
    requires box !in s.sandboxes && w !in s.workers && RoomAfterReap(s, u, now, x)
    requires forall k | k in ReapTargets(s, now) && k != sid :: NoEmptyStopInFlight(s, k)
    ensures Possible(s, run) && run != [] && run[0] == EnterReap(u, now) && Fair(Apply(s, run[0]), run[1..])
    ensures var s1, s' := Apply(s, run[0]), After(s, run);
            && x in s1.sandboxes && s1.sandboxes[x].picked
            && x in s'.sandboxes && s'.sandboxes[x].tasksSent == s1.sandboxes[x].tasksSent + 1
            && w in s'.workers && s'.workers[w] == Worker(sid, x, true)
  {
    ReapFlags(s, u, now, sid, x);
    var s1 := Apply(s, EnterReap(u, now));
    EmptyStopUnflags(s1, t, sid, x);
    var s2 := Apply(s1, Release(t, {sid}));
    ReapThenReleaseRoom(s, s1, s2, u, now, sid, x);
    ReapedSandboxStarts(s2, sid, x, box, w, fire);
    var s3 := Apply(s2, StartTask(sid, box, w, fire, Launched));
    Stay(s3, true);
    run := Prepend(s2, StartTask(sid, box, w, fire, Launched), s3, [], s3, true);
    var rest := Prepend(s1, Release(t, {sid}), s2, run, s3, true);
    run := [EnterReap(u, now)] + rest;
    assert run[1..] == rest;
  }

  function Fresh(maxActive: Option<nat>): State {
    State(maxActive, 1, false, map[], map[], map[], map[])
  }

  // ---------------------------------------------------------------- such states are reached

  const BOX := Sandbox(true, true, false, false, 1)
  const RECORD := Record(Some(0), None, Some(0), false, None)
  const FLAGGED := Record(None, None, Some(0), true, None)
  const LAUNCH := StartTask("a", 0, 0, true, Launched)

  lemma StepFrom(s: State, step: Step, s': State)
    requires Inv(s) && Leads(s, step, s', true)
    ensures Inv(s')
  {
    StepKeepsInv(s, step);
  }

  const S1 := State(None, 1, false, map["a" := RECORD], map[0 := Worker("a", 0, true)], map[0 := BOX], map[])
  const S2 := S1.(records := map["a" := FLAGGED], sandboxes := map[0 := BOX.(picked := true)],
                  stops := map[0 := Stop(StopSession, map["a" := Target(Some(0), Some(0), false)])])

  lemma OverlapBegins()
    ensures Leads(Fresh(None), LAUNCH, S1, true)
    ensures Leads(S1, EnterStopSession(0, "a"), S2, true)
  {
  }

  /** `stop_session` does not test the flag: a run in which a second one ends early and two workers of one session live. */
  lemma OverlappingStopsBreakSingleWorker() returns (run: seq<Step>)
    ensures Possible(Fresh(None), run)
    ensures var s := After(Fresh(None), run);
            && 0 in s.workers && 1 in s.workers && s.workers[0].live && s.workers[1].live
            && s.workers[0].session == s.workers[1].session
  {
    OverlapBegins();
    InitialInv(Fresh(None));
    StepFrom(Fresh(None), LAUNCH, S1);
    StepFrom(S1, EnterStopSession(0, "a"), S2);
    assert Stopping(S2, 0, "a");
    run := SecondStopBreaksSingleWorker(S2, 0, "a", 0, 1, 1, 1, true);
    var last := After(S2, run);
    run := Prepend(S1, EnterStopSession(0, "a"), S2, run, last, false);
    run := Prepend(Fresh(None), LAUNCH, S1, run, last, false);
  }

  const E1 := Fresh(None).(stops := map[0 := Stop(StopSession, map["a" := Target(None, None, true)])])
  const E2 := E1.(records := map["a" := RECORD], workers := map[0 := Worker("a", 0, true)], sandboxes := map[0 := BOX])
  const E3 := E2.(records := map["a" := RECORD.(completedAt := Some(0))])
  const E4 := E3.(records := map["a" := Record(None, None, Some(0), false, Some(0))], workers := map[0 := Worker("a", 0, false)])

  lemma EmptyStopBegins()
    ensures Leads(Fresh(None), EnterStopSession(0, "a"), E1, true)
    ensures Leads(E1, LAUNCH, E2, true)
  {
  }

  lemma EmptyStopGoesOn()
    ensures Leads(E2, WorkerEvent(0, DoneNews(0)), E3, true)
    ensures Leads(E3, WorkerExit(0), E4, true)
  {
  }

  /** A session is started and left idle while a stop that found nothing there is still to release it. */
  lemma EmptyStopLeavesIdle(step: Step, last: State) returns (run: seq<Step>)
    requires Leads(E4, step, last, false)
    ensures Inv(E4) && EmptyStopUnderWay(E4, 0, "a") && Arrives(Fresh(None), run, last, false)
  {
    EmptyStopBegins();
    EmptyStopGoesOn();
    InitialInv(Fresh(None));
    StepFrom(Fresh(None), EnterStopSession(0, "a"), E1);
    StepFrom(E1, LAUNCH, E2);
    StepFrom(E2, WorkerEvent(0, DoneNews(0)), E3);
    StepFrom(E3, WorkerExit(0), E4);
    Stay(last, false);
    run := Prepend(E4, step, last, [], last, false);
    run := Prepend(E3, WorkerExit(0), E4, run, last, false);
    run := Prepend(E2, WorkerEvent(0, DoneNews(0)), E3, run, last, false);
    run := Prepend(E1, LAUNCH, E2, run, last, false);
    run := Prepend(Fresh(None), EnterStopSession(0, "a"), E1, run, last, false);
  }

  lemma IdleSessionIsPicked()
    ensures Enabled(E4, EnterReap(1, 5)) && ReapTargets(E4, 5).Keys == {"a"}
  {
    assert IdleTooLong(E4, E4.records["a"], 5);
  }

  /** A run in which a `stop_session` that found nothing to stop clears the flag of a reaping begun meanwhile, and the
      picked sandbox gets another task. */
  lemma EmptyStopBreaksReaping() returns (before: seq<Step>, more: seq<Step>)
    ensures Possible(Fresh(None), before) && Possible(After(Fresh(None), before), more)
    ensures var s, s' := After(Fresh(None), before), After(After(Fresh(None), before), more);
            && 0 in s.sandboxes && s.sandboxes[0].picked
            && 0 in s'.sandboxes && s'.sandboxes[0].tasksSent == s.sandboxes[0].tasksSent + 1
  {
    IdleSessionIsPicked();
    var e5 := Apply(E4, EnterReap(1, 5));
    before := EmptyStopLeavesIdle(EnterReap(1, 5), e5);
    var run := EmptyStopBreaksPicking(E4, 0, 1, 5, "a", 0, 1, 1, true);
    more := run[1..];
  }

  // ---------------------------------------------------------------- the code's own count

  const YOLO_BOX := Sandbox(false, true, false, false, 1)
  const YOLO_A := StartTask("a", 0, 0, false, Launched)
  const YOLO_B := StartTask("b", 1, 1, false, Launched)
  const C1 := State(Some(1), 1, false, map["a" := RECORD], map[0 := Worker("a", 0, true)], map[0 := YOLO_BOX], map[])
  const C2 := C1.(records := map["a" := RECORD.(worker := None)], workers := map[0 := Worker("a", 0, false)])
  const C3 := C2.(records := map["a" := RECORD.(worker := None), "b" := RECORD.(worker := Some(1), sandbox := Some(1))],
                  workers := map[0 := Worker("a", 0, false), 1 := Worker("b", 1, true)],
                  sandboxes := map[0 := YOLO_BOX, 1 := YOLO_BOX])

  const C4 := C3.(records := map["a" := FLAGGED, "b" := RECORD.(worker := Some(1), sandbox := Some(1))],
                  sandboxes := map[0 := YOLO_BOX.(picked := true), 1 := YOLO_BOX],
                  stops := map[0 := Stop(StopSession, map["a" := Target(None, Some(0), false)])])

  lemma OwnCountBegins()
    ensures Leads(Fresh(Some(1)), YOLO_A, C1, true)
    ensures Leads(C1, WorkerExit(0), C2, true)
  {
    var p := Put(Fresh(Some(1)), "a", EMPTY_RECORD);
    assert (set sid | sid in p.records && CountsTowardCapacity(p, p.records[sid])) == {};
  }

  lemma OwnCountAdmits()
    ensures Leads(C2, YOLO_B, C3, true)
  {
    var p := Put(C2, "b", EMPTY_RECORD);
    assert (set sid | sid in p.records && CountsTowardCapacity(p, p.records[sid])) == {};
  }

  lemma OwnCountStops()
    ensures Leads(C3, EnterStopSession(0, "a"), C4, true)
    ensures ActiveCount(C4) == 2
  {
    var targets := C4.stops[0].targets;
    assert "a" in targets && targets["a"].sandbox == Some(0);
    assert MarkPicked(C3, targets) == C4.sandboxes;
    assert (set sid | sid in C4.records && CountsTowardCapacity(C4, C4.records[sid])) == {"a", "b"};
  }

  /** The code's own count includes records being stopped: a stop alone lifts it past the limit. */
  lemma OwnCountMayExceedLimit() returns (run: seq<Step>)
    ensures Fair(Fresh(Some(1)), run) && Possible(Fresh(Some(1)), run)
    ensures ActiveCount(After(Fresh(Some(1)), run)) == 2
  {
    OwnCountBegins();
    OwnCountAdmits();
    OwnCountStops();
    Stay(C4, true);
    run := Prepend(C3, EnterStopSession(0, "a"), C4, [], C4, true);
    run := Prepend(C2, YOLO_B, C3, run, C4, true);
    run := Prepend(C1, WorkerExit(0), C2, run, C4, true);
    run := Prepend(Fresh(Some(1)), YOLO_A, C1, run, C4, true);
  }
}
