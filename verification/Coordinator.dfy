/**
 The locked regions of coordinator.py in the form the program has: an object
 whose methods update the records in place, proved against the transition
 system of `SessionControl`.
 */
module CoordinatorRegions {
  import opened Prelude
  import opened SessionControl

  /** `m` when the keys in `done` have got their value of `after`. */
  function Updated<K, V>(m: map<K, V>, done: set<K>, after: map<K, V>): map<K, V>
    requires m.Keys == after.Keys
  {
    map k | k in m :: if k in done then after[k] else m[k]
  }

  function Restricted<K, V>(m: map<K, V>, done: set<K>): map<K, V> {
    map k | k in m && k in done :: m[k]
  }

  lemma UpdatedOne<K, V>(m: map<K, V>, done: set<K>, after: map<K, V>, k: K)
    requires m.Keys == after.Keys && k !in done
    ensures k in m ==> Updated(m, done, after)[k] == m[k]
    ensures Updated(m, done + {k}, after) ==
              if k in m then Updated(m, done, after)[k := after[k]] else Updated(m, done, after)
  {
  }

  lemma RestrictedOne<K, V>(m: map<K, V>, done: set<K>, k: K)
    ensures Restricted(m, done + {k}) == if k in m then Restricted(m, done)[k := m[k]] else Restricted(m, done)
  {
  }

  lemma UpdatedEnough<K, V>(m: map<K, V>, done: set<K>, after: map<K, V>)
    requires m.Keys == after.Keys && forall k | k in m && k !in done :: after[k] == m[k]
    ensures Updated(m, done, after) == after
  {
  }

  class Coordinator {
    const maxActive: Option<nat>
    const idleTimeout: nat
    const review: bool
    var records: map<SessionId, Record>
    // The world the records refer to: threads, sandboxes, and the callers between two locked regions.
    var workers: map<WorkerId, Worker>
    var sandboxes: map<SandboxId, Sandbox>
    var stops: map<ThreadId, Stop>

    function Snapshot(): State
      reads this
    {
      State(maxActive, idleTimeout, review, records, workers, sandboxes, stops)
    }

    constructor (maxActive: Option<nat>, idleTimeout: nat, review: bool)
      requires maxActive.Some? ==> maxActive.value > 0
      ensures Initial(Snapshot())
      ensures this.maxActive == maxActive && this.idleTimeout == idleTimeout && this.review == review
    {
      this.maxActive, this.idleTimeout, this.review := maxActive, idleTimeout, review;
      records, workers, sandboxes, stops := map[], map[], map[], map[];
    }

    /** Counts record by record what `ActiveCount` says as a set. */
    method ActiveSessionCount() returns (count: nat)
      ensures count == ActiveCount(Snapshot())
    {
      count := 0;
      var todo := records.Keys;
      ghost var counted: set<SessionId> := {};
      while todo != {}
        invariant todo <= records.Keys
        invariant counted == set sid | sid in records && sid !in todo && CountsTowardCapacity(Snapshot(), records[sid])
        invariant count == |counted|
      {
        var sid :| sid in todo;
        todo := todo - {sid};
        if CountsTowardCapacity(Snapshot(), records[sid]) {
          count := count + 1;
          counted := counted + {sid};
        }
      }
      assert counted == set sid | sid in records && CountsTowardCapacity(Snapshot(), records[sid]);
    }

    method LaunchOnExisting(sid: SessionId, w: WorkerId, outcome: Outcome)
      requires sid in records && SandboxRunning(Snapshot(), records[sid].sandbox)
      modifies this
      ensures Snapshot() == LaunchOnRunning(old(Snapshot()), sid, w, outcome)
    {
      var x := records[sid].sandbox.value;
      records := records[sid := records[sid].(worker := None, pending := None)];
      if outcome.ThreadFails? || outcome.Launched? {
        sandboxes := sandboxes[x := sandboxes[x].(tasksSent := sandboxes[x].tasksSent + 1)];
      }
      if outcome.Launched? {
        workers := workers[w := Worker(sid, x, true)];
        records := records[sid := records[sid].(worker := Some(w))];
      }
    }

    method LaunchOnNew(sid: SessionId, box: SandboxId, w: WorkerId, fire: bool, outcome: Outcome)
      requires sid in records
      modifies this
      ensures Snapshot() == LaunchOnFresh(old(Snapshot()), sid, box, w, fire, outcome)
    {
      var record := records[sid].(worker := None, pending := None);
      if outcome.Launched? {
        sandboxes := sandboxes[box := Sandbox(fire, true, false, false, 1)];
        workers := workers[w := Worker(sid, box, true)];
        record := record.(worker := Some(w), sandbox := Some(box));
      } else if !outcome.StartFails? {
        sandboxes := sandboxes[box := Sandbox(fire, false, false, true, if outcome.ThreadFails? then 1 else 0)];
        record := record.(sandbox := None);
      }
      records := records[sid := record];
    }

    method StartTask(sid: SessionId, box: SandboxId, w: WorkerId, fire: bool, outcome: Outcome) returns (status: Status)
      modifies this
      ensures (Snapshot(), status) == StartTaskRegion(old(Snapshot()), sid, box, w, fire, outcome)
    {
      var record := RecordOf(Snapshot(), sid);
      records := records[sid := record];
      if WorkerRunning(Snapshot(), record.worker) || record.stopping {
        return Busy;
      }
      if maxActive.Some? {
        var active := ActiveSessionCount();
        if active >= maxActive.value && !CountsTowardCapacity(Snapshot(), record) {
          return Capacity;
        }
      }
      status := Started;
      if SandboxRunning(Snapshot(), record.sandbox) {
        LaunchOnExisting(sid, w, outcome);
      } else {
        LaunchOnNew(sid, box, w, fire, outcome);
      }
    }

    method SubmitReply(sid: SessionId) returns (accepted: bool)
      modifies this
      ensures (Snapshot(), accepted) == SubmitReplyRegion(old(Snapshot()), sid)
    {
      if sid !in records || records[sid].worker.None? || records[sid].pending.None? {
        return false;
      }
      records := records[sid := records[sid].(pending := None)];
      accepted := true;
    }

    /** What a thread carries in its local variables out of its first locked region. */
    method Remember(thread: ThreadId, kind: StopKind, targets: map<SessionId, Target>)
      modifies this
      ensures Snapshot() == AddStop(old(Snapshot()), thread, kind, targets)
    {
      sandboxes := MarkPicked(Snapshot(), targets);
      stops := stops[thread := Stop(kind, targets)];
    }

    method EnterStopSession(thread: ThreadId, sid: SessionId)
      modifies this
      ensures Snapshot() == EnterStopSessionRegion(old(Snapshot()), thread, sid)
    {
      var target := Target(None, None, true);
      if sid in records {
        var record := records[sid];
        target := Target(record.worker, record.sandbox, record.sandbox.None?);
        record := record.(pending := None, worker := None);
        if target.sandbox.Some? {
          record := record.(stopping := true);
        }
        records := records[sid := record.(completedAt := None)];
      }
      Remember(thread, StopSession, map[sid := target]);
    }

    /** One turn of the loop of `stop_all`. */
    method MarkForStop(sid: SessionId, targets: map<SessionId, Target>) returns (targets': map<SessionId, Target>)
      requires sid in records
      modifies `records
      ensures records == old(records)[sid := Marked(old(records)[sid])]
      ensures targets' == if sid in StopAllTargets(old(Snapshot()))
                          then targets[sid := StopAllTargets(old(Snapshot()))[sid]] else targets
    {
      var record := records[sid];
      targets' := targets;
      if record.worker.Some? || record.sandbox.Some? {
        targets' := targets[sid := Target(record.worker, record.sandbox, record.sandbox.None?)];
      }
      if record.sandbox.Some? {
        record := record.(stopping := true);
      }
      records := records[sid := record.(worker := None, pending := None, completedAt := None)];
    }

    /** The loop of `stop_all`. */
    method MarkAll() returns (targets: map<SessionId, Target>)
      modifies `records
      ensures targets == StopAllTargets(old(Snapshot()))
      ensures records == EnterStopAllRegion(old(Snapshot()), 0).records
    {
      ghost var before, all := records, StopAllTargets(Snapshot());
      ghost var marked := EnterStopAllRegion(Snapshot(), 0).records;
      ghost var done: set<SessionId> := {};
      targets := map[];
      var todo := records.Keys;
      while todo != {}
        invariant todo == before.Keys - done
        invariant records == Updated(before, done, marked) && targets == Restricted(all, done)
      {
        var sid :| sid in todo;
        UpdatedOne(before, done, marked, sid);
        RestrictedOne(all, done, sid);
        todo, done := todo - {sid}, done + {sid};
        targets := MarkForStop(sid, targets);
      }
      UpdatedEnough(before, done, marked);
    }

    method EnterStopAll(thread: ThreadId)
      modifies this
      ensures Snapshot() == EnterStopAllRegion(old(Snapshot()), thread)
    {
      var targets := MarkAll();
      Remember(thread, StopAll, targets);
    }

    /** One turn of the reaper's loop. */
    method PickIfIdle(sid: SessionId, now: int, targets: map<SessionId, Target>, ghost before: State)
      returns (targets': map<SessionId, Target>)
      requires Snapshot() == before.(records := records)
      requires sid in records && sid in before.records && records[sid] == before.records[sid]
      modifies `records
      ensures if sid in ReapTargets(before, now).Keys
              then records == old(records)[sid := old(records)[sid].(stopping := true, completedAt := None)]
                   && targets' == targets[sid := Target(None, old(records)[sid].sandbox, false)]
              else records == old(records) && targets' == targets
    {
      var record := records[sid];
      targets' := targets;
      if record.sandbox.None? || record.stopping || !SandboxRunning(Snapshot(), record.sandbox)
         || WorkerRunning(Snapshot(), record.worker) || record.completedAt.None?
         || now - record.completedAt.value <= idleTimeout {
        return;
      }
      records := records[sid := record.(stopping := true, completedAt := None)];
      targets' := targets[sid := Target(None, record.sandbox, false)];
    }

    /** The loop of the reaper's locked region. */
    method PickIdle(now: int) returns (targets: map<SessionId, Target>)
      modifies `records
      ensures targets == ReapTargets(old(Snapshot()), now)
      ensures records == EnterReapRegion(old(Snapshot()), 0, now).records
    {
      ghost var before, idle := Snapshot(), ReapTargets(Snapshot(), now);
      ghost var picked := EnterReapRegion(before, 0, now).records;
      ghost var done: set<SessionId> := {};
      targets := map[];
      var todo := records.Keys;
      while todo != {}
        invariant todo == before.records.Keys - done
        invariant records == Updated(before.records, done, picked) && targets == Restricted(idle, done)
      {
        var sid :| sid in todo;
        UpdatedOne(before.records, done, picked, sid);
        RestrictedOne(idle, done, sid);
        todo, done := todo - {sid}, done + {sid};
        targets := PickIfIdle(sid, now, targets, before);
      }
      UpdatedEnough(before.records, done, picked);
    }

    method EnterReap(thread: ThreadId, now: int)
      modifies this
      ensures Snapshot() == EnterReapRegion(old(Snapshot()), thread, now)
    {
      var targets := PickIdle(now);
      Remember(thread, Reap, targets);
    }

    /** The first half of `_retire_stale_sandbox`; `retiring` is false where the code returns early. */
    method EnterRetire(thread: ThreadId, sid: SessionId) returns (retiring: bool)
      requires thread !in stops
      modifies this
      ensures retiring == Enabled(old(Snapshot()), Step.EnterRetire(thread, sid))
      ensures Snapshot() == if retiring then EnterRetireRegion(old(Snapshot()), thread, sid) else old(Snapshot())
    {
      if sid !in records || records[sid].stopping || records[sid].sandbox.None?
         || SandboxRunning(Snapshot(), records[sid].sandbox) {
        return false;
      }
      var record := records[sid];
      records := records[sid := record.(stopping := true)];
      Remember(thread, Retire, map[sid := Target(None, record.sandbox, false)]);
      retiring := true;
    }

    /** One turn of the loop in the last locked region. */
    method ReleaseOne(kind: StopKind, sid: SessionId, target: Target)
      modifies `records
      ensures records == if sid in old(records) && ReleaseTouches(kind, target)
                         then old(records)[sid := Released(old(records)[sid], target)] else old(records)
    {
      if ReleaseTouches(kind, target) && sid in records {
        var record := records[sid];
        if record.sandbox == target.sandbox {
          record := record.(sandbox := None);
        }
        records := records[sid := record.(stopping := false)];
      }
    }

    /** The loop in the last locked region of every stop. */
    method ReleaseAll(thread: ThreadId, sids: set<SessionId>)
      requires thread in stops && sids <= stops[thread].targets.Keys
      modifies `records
      ensures records == ReleaseRegion(old(Snapshot()), thread, sids).records
    {
      var stop := stops[thread];
      ghost var before, released := records, ReleaseRegion(Snapshot(), thread, sids).records;
      ghost var done: set<SessionId> := {};
      var todo := sids;
      while todo != {}
        invariant todo == sids - done && done <= sids
        invariant records == Updated(before, done, released)
      {
        var sid :| sid in todo;
        UpdatedOne(before, done, released, sid);
        todo, done := todo - {sid}, done + {sid};
        ReleaseOne(stop.kind, sid, stop.targets[sid]);
      }
      UpdatedEnough(before, done, released);
    }

    /** The last locked region of every stop. */
    method ReleaseStopped(thread: ThreadId, sids: set<SessionId>)
      requires thread in stops && sids <= stops[thread].targets.Keys
      modifies this
      ensures Snapshot() == ReleaseRegion(old(Snapshot()), thread, sids)
    {
      ReleaseAll(thread, sids);
      stops := stops[thread := stops[thread].(targets := stops[thread].targets - sids)];
    }

    method HandleWorkerEvent(sid: SessionId, news: WorkerNews)
      modifies this
      ensures Snapshot() == WorkerEventRegion(old(Snapshot()), sid, news)
    {
      var record := RecordOf(Snapshot(), sid);
      match news {
        case PlanMessage =>
          if review {
            record := record.(pending := Some(PlanRole));
          }
        case ClarificationMessage => record := record.(pending := Some(ClarificationRole));
        case DoneNews(now) => record := record.(pending := None, completedAt := Some(now));
        case OtherNews =>
      }
      records := records[sid := record];
    }

    method HandleWorkerExit(sid: SessionId)
      modifies this
      ensures Snapshot() == WorkerExitRegion(old(Snapshot()), sid)
    {
      if sid in records {
        records := records[sid := records[sid].(worker := None, pending := None)];
      }
    }
  }
}
