/**
 The session control plane of coordinator.py as a transition system.

 Callers, one worker thread per session and the idle reaper share the session
 records under one lock, and drop the lock around `worker.stop()` and
 `sandbox.stop()`.  One `Step` is one locked region, one return of an unlocked
 `sandbox.stop()`, or one move of the environment; a run is any interleaving.

 `Enabled` is what the code itself tests.  `Assumed` is what the environment
 has to grant on top of it; `SessionLimits` shows what happens without it.
 */
module SessionControl {
  import opened Prelude

  type SessionId = string
  type WorkerId = nat
  type SandboxId = nat
  type ThreadId = nat

  datatype Record = Record(
    worker: Option<WorkerId>,
    pending: Option<Role>,
    sandbox: Option<SandboxId>,
    stopping: bool,
    completedAt: Option<int>)

  /** `live` holds until the worker's own exit handler has run. */
  datatype Worker = Worker(session: SessionId, sandbox: SandboxId, live: bool)

  /** `picked`: some thread has chosen it for stopping.  `stopReturned`: a `stop()` call on it came back. */
  datatype Sandbox = Sandbox(fire: bool, running: bool, picked: bool, stopReturned: bool, tasksSent: nat)

  datatype StopKind = StopSession | StopAll | Reap | Retire

  /** What a stopping thread captured of one session; `stopped` once its `sandbox.stop()` came back. */
  datatype Target = Target(worker: Option<WorkerId>, sandbox: Option<SandboxId>, stopped: bool)

  /** A thread between its first and its last locked region. */
  datatype Stop = Stop(kind: StopKind, targets: map<SessionId, Target>)

  datatype State = State(
    maxActive: Option<nat>,
    idleTimeout: nat,
    review: bool,
    records: map<SessionId, Record>,
    workers: map<WorkerId, Worker>,
    sandboxes: map<SandboxId, Sandbox>,
    stops: map<ThreadId, Stop>)

  datatype Status = Started | Busy | Capacity

  /** How the body of the `try` in `start_task` ends. */
  datatype Outcome = StartFails | SendFails | ThreadFails | Launched

  datatype WorkerNews = PlanMessage | ClarificationMessage | DoneNews(now: int) | OtherNews

  datatype Step =
    | SeedState(sid: SessionId)
    | StartTask(sid: SessionId, box: SandboxId, worker: WorkerId, fire: bool, outcome: Outcome)
    | FailedStartDone(sid: SessionId, now: int)
    | SubmitReply(sid: SessionId)
    | EnterStopSession(thread: ThreadId, sid: SessionId)
    | EnterStopAll(thread: ThreadId)
    | EnterReap(thread: ThreadId, now: int)
    | EnterRetire(thread: ThreadId, sid: SessionId)
    | SandboxStopReturns(thread: ThreadId, sid: SessionId, survives: bool)
    | Release(thread: ThreadId, sids: set<SessionId>)
    | WorkerEvent(worker: WorkerId, news: WorkerNews)
    | WorkerExit(worker: WorkerId)
    | SandboxDies(sandbox: SandboxId)

  const EMPTY_RECORD := Record(None, None, None, false, None)

  // ---------------------------------------------------------------- queries

  function RecordOf(s: State, sid: SessionId): Record {
    if sid in s.records then s.records[sid] else EMPTY_RECORD
  }

  predicate WorkerRunning(s: State, w: Option<WorkerId>) {
    w.Some? && w.value in s.workers && s.workers[w.value].live
  }

  predicate SandboxRunning(s: State, x: Option<SandboxId>) {
    x.Some? && x.value in s.sandboxes && s.sandboxes[x.value].running
  }

  /** A running worker or a running Fire sandbox. */
  predicate Holds(s: State, r: Record) {
    WorkerRunning(s, r.worker) || (SandboxRunning(s, r.sandbox) && s.sandboxes[r.sandbox.value].fire)
  }

  /** The code's own test, which also counts every record that is being stopped. */
  predicate CountsTowardCapacity(s: State, r: Record) {
    r.stopping || Holds(s, r)
  }

  function ActiveCount(s: State): nat {
    |set sid | sid in s.records && CountsTowardCapacity(s, s.records[sid])|
  }

  function Holding(s: State): set<SessionId> {
    set sid | sid in s.records && Holds(s, s.records[sid])
  }

  predicate IdleTooLong(s: State, r: Record, now: int) {
    && SandboxRunning(s, r.sandbox)
    && !r.stopping
    && !WorkerRunning(s, r.worker)
    && r.completedAt.Some?
    && now - r.completedAt.value > s.idleTimeout
  }

  function ReapTargets(s: State, now: int): map<SessionId, Target> {
    map sid | sid in s.records && IdleTooLong(s, s.records[sid], now) :: Target(None, s.records[sid].sandbox, false)
  }

  function StopAllTargets(s: State): map<SessionId, Target> {
    map sid | sid in s.records && (s.records[sid].worker.Some? || s.records[sid].sandbox.Some?)
      :: Target(s.records[sid].worker, s.records[sid].sandbox, s.records[sid].sandbox.None?)
  }

  /** No thread is between its first and last locked region on this session. */
  predicate NoStopInFlight(s: State, sid: SessionId) {
    forall t | t in s.stops :: sid !in s.stops[t].targets
  }

  /** No `stop_session` that found no sandbox to stop is still on its way to its last locked region. */
  predicate NoEmptyStopInFlight(s: State, sid: SessionId) {
    forall t | t in s.stops && sid in s.stops[t].targets :: s.stops[t].targets[sid].sandbox.Some?
  }

  // ---------------------------------------------------------------- locked regions

  function Put(s: State, sid: SessionId, r: Record): State {
    s.(records := s.records[sid := r])
  }

  function MarkPicked(s: State, targets: map<SessionId, Target>): map<SandboxId, Sandbox> {
    map x | x in s.sandboxes ::
      if exists sid | sid in targets :: targets[sid].sandbox == Some(x)
      then s.sandboxes[x].(picked := true) else s.sandboxes[x]
  }

  function AddStop(s: State, thread: ThreadId, kind: StopKind, targets: map<SessionId, Target>): State {
    s.(stops := s.stops[thread := Stop(kind, targets)], sandboxes := MarkPicked(s, targets))
  }

  /** The `try` body of `start_task` on the record's own running sandbox, whose failure leaves it in place. */
  function LaunchOnRunning(s: State, sid: SessionId, w: WorkerId, outcome: Outcome): State
    requires sid in s.records && SandboxRunning(s, s.records[sid].sandbox)
  {
    var x := s.records[sid].sandbox.value;
    var cleared := s.records[sid].(worker := None, pending := None);
    var sent := s.sandboxes[x := s.sandboxes[x].(tasksSent := s.sandboxes[x].tasksSent + 1)];
    match outcome
    case StartFails => Put(s, sid, cleared)
    case SendFails => Put(s, sid, cleared)
    case ThreadFails => Put(s, sid, cleared).(sandboxes := sent)
    case Launched =>
      Put(s, sid, cleared.(worker := Some(w))).(sandboxes := sent, workers := s.workers[w := Worker(sid, x, true)])
  }

  /** The same on a sandbox made for this task, which a failure stops and forgets. */
  function LaunchOnFresh(s: State, sid: SessionId, box: SandboxId, w: WorkerId, fire: bool, outcome: Outcome): State
    requires sid in s.records
  {
    var cleared := s.records[sid].(worker := None, pending := None);
    match outcome
    case StartFails => Put(s, sid, cleared)
    case SendFails =>
      Put(s, sid, cleared.(sandbox := None))
        .(sandboxes := s.sandboxes[box := Sandbox(fire, false, false, true, 0)])
    case ThreadFails =>
      Put(s, sid, cleared.(sandbox := None))
        .(sandboxes := s.sandboxes[box := Sandbox(fire, false, false, true, 1)])
    case Launched =>
      Put(s, sid, cleared.(worker := Some(w), sandbox := Some(box)))
        .(sandboxes := s.sandboxes[box := Sandbox(fire, true, false, false, 1)],
          workers := s.workers[w := Worker(sid, box, true)])
  }

  /** The locked region of `start_task`; a failure is reported later and still answers "started". */
  function StartTaskRegion(s0: State, sid: SessionId, box: SandboxId, w: WorkerId, fire: bool, outcome: Outcome)
    : (State, Status)
  {
    var r := RecordOf(s0, sid);
    var s := Put(s0, sid, r);
    if WorkerRunning(s, r.worker) || r.stopping then (s, Busy)
    else if s.maxActive.Some? && ActiveCount(s) >= s.maxActive.value && !CountsTowardCapacity(s, r) then (s, Capacity)
    else if SandboxRunning(s, r.sandbox) then (LaunchOnRunning(s, sid, w, outcome), Started)
    else (LaunchOnFresh(s, sid, box, w, fire, outcome), Started)
  }

  /** What both stops leave in a record: no worker, and the flag if there is a sandbox to stop. */
  function Marked(r: Record): Record {
    Record(None, None, r.sandbox, r.stopping || r.sandbox.Some?, None)
  }

  function EnterStopSessionRegion(s: State, thread: ThreadId, sid: SessionId): State {
    var r := RecordOf(s, sid);
    var marked :=
      if sid !in s.records then s
      else Put(s, sid, Marked(r));
    AddStop(marked, thread, StopSession, map[sid := Target(r.worker, r.sandbox, r.sandbox.None?)])
  }

  function EnterStopAllRegion(s: State, thread: ThreadId): State {
    var marked := s.(records := map sid | sid in s.records :: Marked(s.records[sid]));
    AddStop(marked, thread, StopAll, StopAllTargets(s))
  }

  function EnterReapRegion(s: State, thread: ThreadId, now: int): State {
    var targets := ReapTargets(s, now);
    var marked := s.(records := map sid | sid in s.records ::
      if sid in targets then s.records[sid].(stopping := true, completedAt := None) else s.records[sid]);
    AddStop(marked, thread, Reap, targets)
  }

  function EnterRetireRegion(s: State, thread: ThreadId, sid: SessionId): State
    requires sid in s.records
  {
    var r := s.records[sid];
    AddStop(Put(s, sid, r.(stopping := true)), thread, Retire, map[sid := Target(None, r.sandbox, false)])
  }

  function Released(r: Record, t: Target): Record {
    r.(sandbox := if r.sandbox == t.sandbox then None else r.sandbox, stopping := false)
  }

  /** The last locked region: `stop_all` skips sessions for which it holds no sandbox. */
  predicate ReleaseTouches(kind: StopKind, t: Target) {
    kind != StopAll || t.sandbox.Some?
  }

  function ReleaseRegion(s: State, thread: ThreadId, sids: set<SessionId>): State
    requires thread in s.stops && sids <= s.stops[thread].targets.Keys
  {
    var stop := s.stops[thread];
    s.(records := map sid | sid in s.records ::
         if sid in sids && ReleaseTouches(stop.kind, stop.targets[sid])
         then Released(s.records[sid], stop.targets[sid]) else s.records[sid],
       stops := s.stops[thread := stop.(targets := stop.targets - sids)])
  }

  function SandboxStopRegion(s: State, thread: ThreadId, sid: SessionId, survives: bool): State
    requires thread in s.stops && sid in s.stops[thread].targets
  {
    var stop := s.stops[thread];
    var t := stop.targets[sid];
    var s1 := s.(stops := s.stops[thread := stop.(targets := stop.targets[sid := t.(stopped := true)])]);
    if t.sandbox.None? || t.sandbox.value !in s.sandboxes then s1
    else
      var x := t.sandbox.value;
      s1.(sandboxes := s.sandboxes[x := s.sandboxes[x].(running := survives && s.sandboxes[x].running,
                                                         stopReturned := true)])
  }

  function WorkerEventRegion(s: State, sid: SessionId, news: WorkerNews): State {
    var r := RecordOf(s, sid);
    match news
    case PlanMessage => Put(s, sid, if s.review then r.(pending := Some(PlanRole)) else r)
    case ClarificationMessage => Put(s, sid, r.(pending := Some(ClarificationRole)))
    case DoneNews(now) => Put(s, sid, r.(pending := None, completedAt := Some(now)))
    case OtherNews => Put(s, sid, r)
  }

  function WorkerExitRegion(s: State, sid: SessionId): State {
    if sid in s.records then Put(s, sid, s.records[sid].(worker := None, pending := None)) else s
  }

  function SubmitReplyRegion(s: State, sid: SessionId): (State, bool) {
    var r := RecordOf(s, sid);
    if r.worker.None? || r.pending.None? then (s, false)
    else (Put(s, sid, r.(pending := None)), true)
  }

  // ---------------------------------------------------------------- the transition system

  predicate Enabled(s: State, step: Step) {
    match step
    case StartTask(_, box, w, _, _) => box !in s.sandboxes && w !in s.workers
    case EnterStopSession(t, _) => t !in s.stops
    case EnterStopAll(t) => t !in s.stops
    case EnterReap(t, _) => t !in s.stops && s.idleTimeout != 0
    case EnterRetire(t, sid) =>
      && t !in s.stops && sid in s.records && !s.records[sid].stopping
      && s.records[sid].sandbox.Some? && !SandboxRunning(s, s.records[sid].sandbox)
    case SandboxStopReturns(t, sid, _) =>
      && t in s.stops && sid in s.stops[t].targets
      && s.stops[t].targets[sid].sandbox.Some? && !s.stops[t].targets[sid].stopped
    case Release(t, sids) =>
      && t in s.stops && sids <= s.stops[t].targets.Keys
      && (s.stops[t].kind == StopAll ==> sids == s.stops[t].targets.Keys)
      && (forall sid | sid in sids :: s.stops[t].targets[sid].stopped)
    case WorkerEvent(w, _) => w in s.workers && s.workers[w].live
    case WorkerExit(w) => w in s.workers && s.workers[w].live
    case SandboxDies(x) => x in s.sandboxes
    case _ => true
  }

  /** What the environment grants: stops on one session do not overlap, `worker.stop()` comes back only
      after the worker's exit, and no sandbox dies under a live worker. */
  predicate Assumed(s: State, step: Step) {
    match step
    case EnterStopSession(_, sid) => NoStopInFlight(s, sid)
    case EnterStopAll(_) => forall sid | sid in StopAllTargets(s) :: NoStopInFlight(s, sid)
    case EnterReap(_, now) => forall sid | sid in ReapTargets(s, now) :: NoEmptyStopInFlight(s, sid)
    case EnterRetire(_, sid) => NoEmptyStopInFlight(s, sid)
    case SandboxStopReturns(t, _, _) =>
      t in s.stops ==> forall sid | sid in s.stops[t].targets :: !WorkerRunning(s, s.stops[t].targets[sid].worker)
    case SandboxDies(x) => forall w | w in s.workers && s.workers[w].live :: s.workers[w].sandbox != x
    case _ => true
  }

  function Apply(s: State, step: Step): State
    requires Enabled(s, step)
  {
    match step
    case SeedState(sid) => Put(s, sid, RecordOf(s, sid))
    case StartTask(sid, box, w, fire, outcome) => StartTaskRegion(s, sid, box, w, fire, outcome).0
    case FailedStartDone(sid, now) => WorkerEventRegion(s, sid, DoneNews(now))
    case SubmitReply(sid) => SubmitReplyRegion(s, sid).0
    case EnterStopSession(t, sid) => EnterStopSessionRegion(s, t, sid)
    case EnterStopAll(t) => EnterStopAllRegion(s, t)
    case EnterReap(t, now) => EnterReapRegion(s, t, now)
    case EnterRetire(t, sid) => EnterRetireRegion(s, t, sid)
    case SandboxStopReturns(t, sid, survives) => SandboxStopRegion(s, t, sid, survives)
    case Release(t, sids) => ReleaseRegion(s, t, sids)
    case WorkerEvent(w, news) => WorkerEventRegion(s, s.workers[w].session, news)
    case WorkerExit(w) =>
      WorkerExitRegion(s, s.workers[w].session).(workers := s.workers[w := s.workers[w].(live := false)])
    case SandboxDies(x) => s.(sandboxes := s.sandboxes[x := s.sandboxes[x].(running := false)])
  }

  predicate Initial(s: State) {
    && s.records == map[] && s.workers == map[] && s.sandboxes == map[] && s.stops == map[]
    && (s.maxActive.Some? ==> s.maxActive.value > 0)
  }

  /** Every step of the run is enabled where it is taken. */
  ghost predicate Possible(s: State, run: seq<Step>)
    decreases |run|
  {
    run == [] || (Enabled(s, run[0]) && Possible(Apply(s, run[0]), run[1..]))
  }

  /** Every step of the run is enabled and granted by the environment where it is taken. */
  ghost predicate Fair(s: State, run: seq<Step>)
    decreases |run|
  {
    run == [] || (Enabled(s, run[0]) && Assumed(s, run[0]) && Fair(Apply(s, run[0]), run[1..]))
  }

  ghost function After(s: State, run: seq<Step>): State
    requires Possible(s, run)
    decreases |run|
  {
    if run == [] then s else After(Apply(s, run[0]), run[1..])
  }
}
