/**
 One inductive invariant of the session control plane and the safety theorems
 that follow from it for every interleaving.
 */
module SessionSafety {
  import opened Prelude
  import opened SessionControl

  // ---------------------------------------------------------------- the invariant

  predicate Captured(s: State, t: ThreadId, sid: SessionId) {
    t in s.stops && sid in s.stops[t].targets
  }

  /** Thread `t` is stopping session `sid` and holds a sandbox to stop. */
  predicate Stopping(s: State, t: ThreadId, sid: SessionId) {
    Captured(s, t, sid) && s.stops[t].targets[sid].sandbox.Some?
  }

  /** A record's worker is live on the record's own running sandbox, and nobody is stopping that. */
  ghost predicate RecordedWorkersOk(s: State) {
    forall sid | sid in s.records && s.records[sid].worker.Some? ::
      var r := s.records[sid]; var w := r.worker.value;
      && w in s.workers && s.workers[w].live && s.workers[w].session == sid
      && r.sandbox == Some(s.workers[w].sandbox) && !r.stopping && SandboxRunning(s, r.sandbox)
  }

  /** A live worker is either recorded, or captured by a thread that is stopping its session. */
  ghost predicate LiveWorkersOk(s: State) {
    forall w | w in s.workers && s.workers[w].live ::
      var sid := s.workers[w].session;
      && sid in s.records
      && (s.records[sid].worker == Some(w)
          || exists t :: Stopping(s, t, sid) && s.stops[t].targets[sid].worker == Some(w))
  }

  /** A captured sandbox stays in its flagged record until release. */
  ghost predicate TargetsOk(s: State) {
    forall t, sid | Captured(s, t, sid) ::
      var g := s.stops[t].targets[sid];
      && (g.sandbox.None? ==> g.worker.None?)
      && (g.worker.Some? ==> g.worker.value in s.workers)
      && (g.stopped ==> !WorkerRunning(s, g.worker))
      && (g.sandbox.Some? ==>
            && sid in s.records && s.records[sid].sandbox == g.sandbox && s.records[sid].stopping
            && g.sandbox.value in s.sandboxes
            && (g.stopped ==> s.sandboxes[g.sandbox.value].stopReturned))
  }

  /** A flagged record has a thread stopping it. */
  ghost predicate FlagsOk(s: State) {
    forall sid | sid in s.records && s.records[sid].stopping :: exists t :: Stopping(s, t, sid)
  }

  ghost predicate StopsDisjoint(s: State) {
    forall t, u, sid | Captured(s, t, sid) && Captured(s, u, sid) :: t == u
  }

  /** Sandboxes are recorded once, and a picked one only under the stopping flag. */
  ghost predicate SandboxesOk(s: State) {
    && (forall sid | sid in s.records && s.records[sid].sandbox.Some? ::
          && s.records[sid].sandbox.value in s.sandboxes
          && (s.sandboxes[s.records[sid].sandbox.value].picked ==> s.records[sid].stopping))
    && (forall a, b | a in s.records && b in s.records && s.records[a].sandbox.Some?
                      && s.records[a].sandbox == s.records[b].sandbox :: a == b)
    && (forall w | w in s.workers :: s.workers[w].sandbox in s.sandboxes)
  }

  ghost predicate WithinCapacity(s: State) {
    s.maxActive.Some? ==> |Holding(s)| <= s.maxActive.value
  }

  ghost predicate Inv(s: State) {
    && RecordedWorkersOk(s) && LiveWorkersOk(s) && TargetsOk(s) && FlagsOk(s)
    && StopsDisjoint(s) && SandboxesOk(s) && WithinCapacity(s)
  }

  // ---------------------------------------------------------------- preservation, step by step

  lemma HoldingShrinks(s: State, s': State)
    requires WithinCapacity(s) && s'.maxActive == s.maxActive
    requires forall sid | sid in s'.records && Holds(s', s'.records[sid]) :: sid in s.records && Holds(s, s.records[sid])
    ensures WithinCapacity(s')
  {
    SubsetSize(Holding(s'), Holding(s));
  }

  /** What all four entering regions do: thread `t` captures `targets`, none of which is being stopped. */
  ghost predicate Captures(s: State, s': State, t: ThreadId, targets: map<SessionId, Target>) {
    && t !in s.stops && t in s'.stops && s'.stops[t].targets == targets
    && s'.stops == s.stops[t := s'.stops[t]]
    && s'.maxActive == s.maxActive && s'.workers == s.workers && s'.sandboxes == MarkPicked(s, targets)
    && s'.records.Keys == s.records.Keys
    && (forall sid | sid in targets :: NoStopInFlight(s, sid) && CapturesRecord(RecordOf(s, sid), RecordOf(s', sid), targets[sid]))
    && (forall sid | sid in s.records && sid !in targets ::
          SameHandles(s.records[sid], s'.records[sid]))
  }

  predicate SameHandles(r: Record, r': Record) {
    r'.worker == r.worker && r'.sandbox == r.sandbox && r'.stopping == r.stopping
  }

  predicate CapturesRecord(r: Record, r': Record, g: Target) {
    && g.worker == r.worker && g.sandbox == r.sandbox && g.stopped == r.sandbox.None?
    && r'.worker == None && r'.sandbox == r.sandbox && r'.stopping == (r.stopping || r.sandbox.Some?)
  }

  lemma CaptureKeepsWorkers(s: State, s': State, t: ThreadId, targets: map<SessionId, Target>)
    requires Captures(s, s', t, targets)
    requires RecordedWorkersOk(s) && LiveWorkersOk(s)
    ensures RecordedWorkersOk(s') && LiveWorkersOk(s')
  {
    forall w | w in s'.workers && s'.workers[w].live && s'.records[s'.workers[w].session].worker != Some(w)
      ensures exists u :: Stopping(s', u, s'.workers[w].session) && s'.stops[u].targets[s'.workers[w].session].worker == Some(w)
    {
      var sid := s.workers[w].session;
      if s.records[sid].worker == Some(w) {
        assert Stopping(s', t, sid);
      } else {
        var u :| Stopping(s, u, sid) && s.stops[u].targets[sid].worker == Some(w);
        assert Stopping(s', u, sid);
      }
    }
  }

  lemma CaptureKeepsTargets(s: State, s': State, t: ThreadId, targets: map<SessionId, Target>)
    requires Captures(s, s', t, targets)
    requires RecordedWorkersOk(s) && TargetsOk(s) && SandboxesOk(s) && StopsDisjoint(s)
    ensures TargetsOk(s') && StopsDisjoint(s')
  {
    forall u, sid | Captured(s', u, sid) ensures Captured(s, u, sid) || (u == t && sid in targets) {}
  }

  lemma CaptureKeepsFlags(s: State, s': State, t: ThreadId, targets: map<SessionId, Target>)
    requires Captures(s, s', t, targets)
    requires FlagsOk(s) && SandboxesOk(s)
    ensures FlagsOk(s') && SandboxesOk(s')
  {
    forall sid | sid in s'.records && s'.records[sid].stopping ensures exists u :: Stopping(s', u, sid) {
      if s.records[sid].stopping {
        var u :| Stopping(s, u, sid);
        assert Stopping(s', u, sid);
      } else {
        assert Stopping(s', t, sid);
      }
    }
  }

  lemma CaptureKeepsInv(s: State, s': State, t: ThreadId, targets: map<SessionId, Target>)
    requires Inv(s) && Captures(s, s', t, targets)
    ensures Inv(s')
  {
    CaptureKeepsWorkers(s, s', t, targets);
    CaptureKeepsTargets(s, s', t, targets);
    CaptureKeepsFlags(s, s', t, targets);
    HoldingShrinks(s, s');
  }

  lemma EnterStopSessionCaptures(s: State, t: ThreadId, sid: SessionId)
    requires t !in s.stops && NoStopInFlight(s, sid)
    ensures Captures(s, EnterStopSessionRegion(s, t, sid), t, EnterStopSessionRegion(s, t, sid).stops[t].targets)
  {
    assert sid in s.records ==> s.records.Keys + {sid} == s.records.Keys;
  }

  lemma EnterStopSessionKeepsInv(s: State, t: ThreadId, sid: SessionId)
    requires Inv(s) && t !in s.stops && NoStopInFlight(s, sid)
    ensures Inv(EnterStopSessionRegion(s, t, sid))
  {
    EnterStopSessionCaptures(s, t, sid);
    CaptureKeepsInv(s, EnterStopSessionRegion(s, t, sid), t, EnterStopSessionRegion(s, t, sid).stops[t].targets);
  }

  lemma EnterStopAllCaptures(s: State, t: ThreadId)
    requires t !in s.stops && forall sid | sid in StopAllTargets(s) :: NoStopInFlight(s, sid)
    ensures Captures(s, EnterStopAllRegion(s, t), t, EnterStopAllRegion(s, t).stops[t].targets)
  {
  }

  lemma EnterStopAllKeepsInv(s: State, t: ThreadId)
    requires Inv(s) && t !in s.stops && forall sid | sid in StopAllTargets(s) :: NoStopInFlight(s, sid)
    ensures Inv(EnterStopAllRegion(s, t))
  {
    EnterStopAllCaptures(s, t);
    CaptureKeepsInv(s, EnterStopAllRegion(s, t), t, EnterStopAllRegion(s, t).stops[t].targets);
  }

  /** A stop in flight on an unflagged session can only be one that found nothing to stop. */
  lemma UnflaggedMeansNoStop(s: State, sid: SessionId)
    requires TargetsOk(s) && NoEmptyStopInFlight(s, sid) && !RecordOf(s, sid).stopping
    ensures NoStopInFlight(s, sid)
  {
    forall t | t in s.stops ensures sid !in s.stops[t].targets {
      assert Captured(s, t, sid) ==> RecordOf(s, sid).stopping;
    }
  }

  lemma EnterReapCaptures(s: State, t: ThreadId, now: int)
    requires RecordedWorkersOk(s) && TargetsOk(s)
    requires t !in s.stops && forall sid | sid in ReapTargets(s, now) :: NoEmptyStopInFlight(s, sid)
    ensures Captures(s, EnterReapRegion(s, t, now), t, EnterReapRegion(s, t, now).stops[t].targets)
  {
    forall sid | sid in ReapTargets(s, now)
      ensures NoStopInFlight(s, sid) && s.records[sid].worker.None?
    {
      UnflaggedMeansNoStop(s, sid);
    }
  }

  lemma EnterReapKeepsInv(s: State, t: ThreadId, now: int)
    requires Inv(s) && t !in s.stops && forall sid | sid in ReapTargets(s, now) :: NoEmptyStopInFlight(s, sid)
    ensures Inv(EnterReapRegion(s, t, now))
  {
    EnterReapCaptures(s, t, now);
    CaptureKeepsInv(s, EnterReapRegion(s, t, now), t, ReapTargets(s, now));
  }

  lemma EnterRetireCaptures(s: State, t: ThreadId, sid: SessionId)
    requires RecordedWorkersOk(s) && TargetsOk(s) && Enabled(s, EnterRetire(t, sid)) && NoEmptyStopInFlight(s, sid)
    ensures Captures(s, EnterRetireRegion(s, t, sid), t, EnterRetireRegion(s, t, sid).stops[t].targets)
  {
    UnflaggedMeansNoStop(s, sid);
    assert s.records[sid].worker.None?;
  }

  lemma EnterRetireKeepsInv(s: State, t: ThreadId, sid: SessionId)
    requires Inv(s) && Enabled(s, EnterRetire(t, sid)) && NoEmptyStopInFlight(s, sid)
    ensures Inv(EnterRetireRegion(s, t, sid))
  {
    EnterRetireCaptures(s, t, sid);
    CaptureKeepsInv(s, EnterRetireRegion(s, t, sid), t, EnterRetireRegion(s, t, sid).stops[t].targets);
  }

  /** The threads that are stopping something go on doing so. */
  ghost predicate StopsStay(s: State, s': State) {
    forall t, sid | Stopping(s, t, sid) ::
      Stopping(s', t, sid) && s'.stops[t].targets[sid].worker == s.stops[t].targets[sid].worker
  }

  /** Replies and events only write what no handle depends on, or create an empty record. */
  ghost predicate OnlyNotes(s: State, s': State) {
    && s'.maxActive == s.maxActive && s'.workers == s.workers && s'.sandboxes == s.sandboxes && s'.stops == s.stops
    && s.records.Keys <= s'.records.Keys
    && (forall sid | sid in s'.records :: SameHandles(RecordOf(s, sid), s'.records[sid]))
  }

  lemma NotesKeepInv(s: State, s': State)
    requires Inv(s) && OnlyNotes(s, s')
    ensures Inv(s')
  {
    forall t, sid | Captured(s', t, sid) ensures Captured(s, t, sid) {}
    assert StopsStay(s, s');
    HoldingShrinks(s, s');
  }

  /** The exit of worker `w`: its session's record, if there is one, forgets whatever worker it names. */
  ghost predicate Exits(s: State, s': State, w: WorkerId) {
    && w in s.workers && s.workers[w].live
    && s'.maxActive == s.maxActive && s'.sandboxes == s.sandboxes && s'.stops == s.stops
    && s'.workers == s.workers[w := s.workers[w].(live := false)]
    && s'.records.Keys == s.records.Keys
    && forall sid | sid in s.records ::
         && s'.records[sid].sandbox == s.records[sid].sandbox && s'.records[sid].stopping == s.records[sid].stopping
         && s'.records[sid].worker == if sid == s.workers[w].session then None else s.records[sid].worker
  }

  lemma ExitKeepsWorkers(s: State, s': State, w: WorkerId)
    requires RecordedWorkersOk(s) && LiveWorkersOk(s) && FlagsOk(s) && TargetsOk(s) && StopsDisjoint(s) && Exits(s, s', w)
    ensures RecordedWorkersOk(s') && LiveWorkersOk(s')
  {
    assert StopsStay(s, s');
    forall v | v in s'.workers && s'.workers[v].live ensures s.records[s.workers[v].session].worker == Some(v) ==>
        s.workers[v].session != s.workers[w].session
    {
      assert v != w;
      var sid := s.workers[w].session;
      if s.records[sid].worker != Some(w) {
        var t :| Stopping(s, t, sid) && s.stops[t].targets[sid].worker == Some(w);
        assert s.records[sid].stopping;
      }
    }
  }

  lemma ExitKeepsStops(s: State, s': State, w: WorkerId)
    requires TargetsOk(s) && FlagsOk(s) && StopsDisjoint(s) && SandboxesOk(s) && Exits(s, s', w)
    ensures TargetsOk(s') && FlagsOk(s') && StopsDisjoint(s') && SandboxesOk(s')
  {
    forall t, sid | Captured(s', t, sid) ensures Captured(s, t, sid) {}
    assert StopsStay(s, s');
  }

  lemma WorkerExitKeepsInv(s: State, w: WorkerId)
    requires Inv(s) && Enabled(s, WorkerExit(w))
    ensures Inv(Apply(s, WorkerExit(w)))
  {
    var s' := Apply(s, WorkerExit(w));
    assert Exits(s, s', w);
    ExitKeepsWorkers(s, s', w);
    ExitKeepsStops(s, s', w);
    HoldingShrinks(s, s');
  }

  lemma SandboxDiesKeepsInv(s: State, x: SandboxId)
    requires Inv(s) && Enabled(s, SandboxDies(x)) && Assumed(s, SandboxDies(x))
    ensures Inv(Apply(s, SandboxDies(x)))
  {
    var s' := Apply(s, SandboxDies(x));
    forall t, sid | Captured(s', t, sid) ensures Captured(s, t, sid) {}
    assert StopsStay(s, s');
    HoldingShrinks(s, s');
  }

  /** One captured sandbox's `stop()` came back, and its worker had ended. */
  ghost predicate StopReturned(s: State, s': State, t: ThreadId, sid: SessionId) {
    && Captured(s, t, sid) && s.stops[t].targets[sid].sandbox.Some?
    && (forall x | x in s.stops[t].targets :: !WorkerRunning(s, s.stops[t].targets[x].worker))
    && s'.maxActive == s.maxActive && s'.workers == s.workers && s'.records == s.records
    && s'.sandboxes.Keys == s.sandboxes.Keys
    && (forall u, x :: Captured(s', u, x) <==> Captured(s, u, x))
    && (forall u, x | Captured(s, u, x) ::
          if u == t && x == sid then s'.stops[u].targets[x] == s.stops[u].targets[x].(stopped := true)
          else s'.stops[u].targets[x] == s.stops[u].targets[x])
    && (forall x | x in s.sandboxes ::
          if Some(x) == s.stops[t].targets[sid].sandbox
          then s'.sandboxes[x] == s.sandboxes[x].(running := s'.sandboxes[x].running, stopReturned := true)
               && (s'.sandboxes[x].running ==> s.sandboxes[x].running)
          else s'.sandboxes[x] == s.sandboxes[x])
  }

  lemma StopReturnedKeepsTargets(s: State, s': State, t: ThreadId, sid: SessionId)
    requires StopReturned(s, s', t, sid)
    requires TargetsOk(s) && StopsDisjoint(s) && SandboxesOk(s)
    ensures TargetsOk(s') && StopsDisjoint(s') && SandboxesOk(s')
  {
  }

  lemma StopReturnedKeepsRecords(s: State, s': State, t: ThreadId, sid: SessionId)
    requires StopReturned(s, s', t, sid)
    requires RecordedWorkersOk(s) && LiveWorkersOk(s) && FlagsOk(s) && TargetsOk(s) && SandboxesOk(s)
    ensures RecordedWorkersOk(s') && LiveWorkersOk(s') && FlagsOk(s')
  {
    assert StopsStay(s, s');
    assert s.records[sid].stopping;
    forall x | x in s'.records && s'.records[x].worker.Some? ensures SandboxRunning(s', s'.records[x].sandbox) {
      assert x != sid;
    }
  }

  lemma StopReturnedKeepsInv(s: State, s': State, t: ThreadId, sid: SessionId)
    requires Inv(s) && StopReturned(s, s', t, sid)
    ensures Inv(s')
  {
    StopReturnedKeepsTargets(s, s', t, sid);
    StopReturnedKeepsRecords(s, s', t, sid);
    HoldingShrinks(s, s');
  }

  lemma SandboxStopKeepsInv(s: State, t: ThreadId, sid: SessionId, survives: bool)
    requires Inv(s)
    requires Enabled(s, SandboxStopReturns(t, sid, survives)) && Assumed(s, SandboxStopReturns(t, sid, survives))
    ensures Inv(SandboxStopRegion(s, t, sid, survives))
  {
    var s' := SandboxStopRegion(s, t, sid, survives);
    assert Captured(s, t, sid);
    assert StopReturned(s, s', t, sid);
    StopReturnedKeepsInv(s, s', t, sid);
  }

  /** The records of `sids` lost the sandbox that thread `t` had captured there. */
  ghost predicate Releases(s: State, s': State, t: ThreadId, sids: set<SessionId>) {
    && (forall sid | sid in sids :: Captured(s, t, sid) && s.stops[t].targets[sid].stopped)
    && s'.maxActive == s.maxActive && s'.workers == s.workers && s'.sandboxes == s.sandboxes
    && (forall u, x :: Captured(s', u, x) <==> Captured(s, u, x) && (u != t || x !in sids))
    && (forall u, x | Captured(s', u, x) :: s'.stops[u].targets[x] == s.stops[u].targets[x])
    && s'.records.Keys == s.records.Keys
    && (forall sid | sid in s.records ::
          if sid in sids && s.stops[t].targets[sid].sandbox.Some?
          then s'.records[sid] == Released(s.records[sid], s.stops[t].targets[sid])
          else s'.records[sid] == s.records[sid])
  }

  lemma ReleasesKeepHandles(s: State, s': State, t: ThreadId, sids: set<SessionId>)
    requires Releases(s, s', t, sids)
    requires RecordedWorkersOk(s) && LiveWorkersOk(s) && TargetsOk(s)
    ensures RecordedWorkersOk(s') && LiveWorkersOk(s')
  {
    forall w | w in s'.workers && s'.workers[w].live && s'.records[s'.workers[w].session].worker != Some(w)
      ensures exists u :: Stopping(s', u, s'.workers[w].session) && s'.stops[u].targets[s'.workers[w].session].worker == Some(w)
    {
      var sid := s.workers[w].session;
      var u :| Stopping(s, u, sid) && s.stops[u].targets[sid].worker == Some(w);
      assert Stopping(s', u, sid);
    }
  }

  lemma ReleasesKeepFlags(s: State, s': State, t: ThreadId, sids: set<SessionId>)
    requires Releases(s, s', t, sids)
    requires TargetsOk(s) && FlagsOk(s) && StopsDisjoint(s) && SandboxesOk(s)
    ensures TargetsOk(s') && FlagsOk(s') && StopsDisjoint(s') && SandboxesOk(s')
  {
    forall sid | sid in s'.records && s'.records[sid].stopping ensures exists u :: Stopping(s', u, sid) {
      var u :| Stopping(s, u, sid);
      assert Stopping(s', u, sid);
    }
  }

  /** An emptily captured session is not flagged, so `stop_session` clears nothing there. */
  lemma ReleaseReleases(s: State, t: ThreadId, sids: set<SessionId>)
    requires TargetsOk(s) && FlagsOk(s) && StopsDisjoint(s) && Enabled(s, Release(t, sids))
    ensures Releases(s, ReleaseRegion(s, t, sids), t, sids)
  {
    forall sid | sid in sids ensures Captured(s, t, sid) {}
    forall sid | sid in sids && sid in s.records && s.stops[t].targets[sid].sandbox.None?
      ensures !s.records[sid].stopping
    {
      assert Captured(s, t, sid);
    }
  }

  lemma ReleaseKeepsInv(s: State, t: ThreadId, sids: set<SessionId>)
    requires Inv(s) && Enabled(s, Release(t, sids))
    ensures Inv(ReleaseRegion(s, t, sids))
  {
    var s' := ReleaseRegion(s, t, sids);
    ReleaseReleases(s, t, sids);
    ReleasesKeepHandles(s, s', t, sids);
    ReleasesKeepFlags(s, s', t, sids);
    HoldingShrinks(s, s');
  }

  // ---------------------------------------------------------------- starting a task

  /** `start_task` neither refused nor, on the way, changed anything outside its own record. */
  predicate Admitted(s: State, sid: SessionId) {
    var r := RecordOf(s, sid);
    && !WorkerRunning(s, r.worker) && !r.stopping
    && (s.maxActive.Some? ==> ActiveCount(Put(s, sid, r)) < s.maxActive.value || CountsTowardCapacity(s, r))
  }

  /** An admitted start rewrites one unflagged record, and at most adds worker `w` on a sandbox that runs. */
  ghost predicate Starts(s: State, s': State, sid: SessionId, box: SandboxId, w: WorkerId) {
    && s'.maxActive == s.maxActive && s'.stops == s.stops
    && sid in s'.records && s'.records == s.records[sid := s'.records[sid]] && !s'.records[sid].stopping
    && (forall x | x in s.sandboxes ::
          && x in s'.sandboxes && s'.sandboxes[x] == s.sandboxes[x].(tasksSent := s'.sandboxes[x].tasksSent)
          && (RecordOf(s, sid).sandbox != Some(x) ==> s'.sandboxes[x] == s.sandboxes[x]))
    && (forall x | x in s'.sandboxes && x !in s.sandboxes :: x == box && !s'.sandboxes[x].picked)
    && match s'.records[sid].worker {
         case None =>
           s'.workers == s.workers && s'.records[sid].sandbox in {None, RecordOf(s, sid).sandbox}
         case Some(v) =>
           && v == w && SandboxRunning(s', s'.records[sid].sandbox)
           && s'.workers == s.workers[w := Worker(sid, s'.records[sid].sandbox.value, true)]
           && (s'.records[sid].sandbox.value == box || s'.records[sid].sandbox == RecordOf(s, sid).sandbox)
       }
  }

  lemma LaunchStarts(s: State, sid: SessionId, box: SandboxId, w: WorkerId, fire: bool, outcome: Outcome)
    requires sid in s.records && box !in s.sandboxes && w !in s.workers && !s.records[sid].stopping
    ensures SandboxRunning(s, s.records[sid].sandbox) ==> Starts(s, LaunchOnRunning(s, sid, w, outcome), sid, box, w)
    ensures Starts(s, LaunchOnFresh(s, sid, box, w, fire, outcome), sid, box, w)
  {
  }

  lemma StartsWithItsRecord(s: State, s': State, sid: SessionId, box: SandboxId, w: WorkerId)
    requires Starts(Put(s, sid, RecordOf(s, sid)), s', sid, box, w)
    ensures Starts(s, s', sid, box, w)
  {
    var p := Put(s, sid, RecordOf(s, sid));
    assert p.records[sid := s'.records[sid]] == s.records[sid := s'.records[sid]];
  }

  lemma StartTaskStarts(s: State, sid: SessionId, box: SandboxId, w: WorkerId, fire: bool, outcome: Outcome)
    requires box !in s.sandboxes && w !in s.workers && Admitted(s, sid)
    ensures Starts(s, StartTaskRegion(s, sid, box, w, fire, outcome).0, sid, box, w)
  {
    var p := Put(s, sid, RecordOf(s, sid));
    LaunchStarts(p, sid, box, w, fire, outcome);
    StartsWithItsRecord(s, StartTaskRegion(s, sid, box, w, fire, outcome).0, sid, box, w);
  }

  lemma CountedCoverHolding(s: State, sid: SessionId)
    ensures |Holding(s)| <= ActiveCount(Put(s, sid, RecordOf(s, sid)))
  {
    var p := Put(s, sid, RecordOf(s, sid));
    SubsetSize(Holding(s), set x | x in p.records && CountsTowardCapacity(p, p.records[x]));
  }

  lemma StartsKeepCapacity(s: State, s': State, sid: SessionId, box: SandboxId, w: WorkerId)
    requires Inv(s) && box !in s.sandboxes && w !in s.workers && Admitted(s, sid) && Starts(s, s', sid, box, w)
    ensures WithinCapacity(s')
  {
    assert Holding(s') <= Holding(s) + {sid};
    if s.maxActive.Some? {
      if CountsTowardCapacity(s, RecordOf(s, sid)) {
        SubsetSize(Holding(s'), Holding(s));
      } else {
        CountedCoverHolding(s, sid);
        SubsetSize(Holding(s'), Holding(s) + {sid});
      }
    }
  }

  lemma StartsKeepWorkers(s: State, s': State, sid: SessionId, box: SandboxId, w: WorkerId)
    requires box !in s.sandboxes && w !in s.workers && Admitted(s, sid) && Starts(s, s', sid, box, w)
    requires RecordedWorkersOk(s) && LiveWorkersOk(s) && TargetsOk(s)
    ensures RecordedWorkersOk(s') && LiveWorkersOk(s')
  {
    assert StopsStay(s, s');
    forall v | v in s.workers && s.workers[v].live ensures s.workers[v].session != sid {
      assert forall t | Stopping(s, t, s.workers[v].session) :: s.records[s.workers[v].session].stopping;
    }
  }

  lemma StartsKeepStops(s: State, s': State, sid: SessionId, box: SandboxId, w: WorkerId)
    requires box !in s.sandboxes && w !in s.workers && Admitted(s, sid) && Starts(s, s', sid, box, w)
    requires TargetsOk(s) && FlagsOk(s) && StopsDisjoint(s)
    ensures TargetsOk(s') && FlagsOk(s') && StopsDisjoint(s')
  {
    forall t, x | Captured(s', t, x) ensures Captured(s, t, x) {}
    assert StopsStay(s, s');
  }

  lemma StartsKeepSandboxes(s: State, s': State, sid: SessionId, box: SandboxId, w: WorkerId)
    requires box !in s.sandboxes && w !in s.workers && Admitted(s, sid) && Starts(s, s', sid, box, w)
    requires SandboxesOk(s)
    ensures SandboxesOk(s')
  {
  }

  lemma StartTaskKeepsInv(s: State, sid: SessionId, box: SandboxId, w: WorkerId, fire: bool, outcome: Outcome)
    requires Inv(s) && box !in s.sandboxes && w !in s.workers
    ensures Inv(StartTaskRegion(s, sid, box, w, fire, outcome).0)
  {
    var s' := StartTaskRegion(s, sid, box, w, fire, outcome).0;
    if !Admitted(s, sid) {
      NotesKeepInv(s, s');
    } else {
      StartTaskStarts(s, sid, box, w, fire, outcome);
      StartsKeepCapacity(s, s', sid, box, w);
      StartsKeepWorkers(s, s', sid, box, w);
      StartsKeepStops(s, s', sid, box, w);
      StartsKeepSandboxes(s, s', sid, box, w);
    }
  }
}
