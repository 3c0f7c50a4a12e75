/**
 `FireSandbox.start` and `stop` in sandbox/fire.py: what a session takes from
 the host, and that a failed start or a stop gives it back.

 Every external command may fail; what it would hand out when it works (a new
 directory, a lease, a process, a connection) comes from a `Plan`.
 */
module FireLifecycle {
  import opened Prelude

  datatype Allocation = Allocation(tap: string, guestIp: string, iface: string)

  datatype Rule =
    | Masquerade(iface: string, guestIp: string)
    | Forward(tap: string, outIface: string)
    | DropInput(droppedTap: string)
    | Conntrack

  /** What the host has handed out, to this session and to others.  `taps` are the TAP devices of Fire sessions. */
  datatype Resources = Resources(
    taps: set<string>, rules: multiset<Rule>, cids: set<nat>, processes: set<nat>, connections: set<nat>, dirs: set<nat>)

  /** What one sandbox object holds. */
  datatype Holding = Holding(
    dir: Option<nat>, allocation: Option<Allocation>, cid: Option<nat>, process: Option<nat>, connection: Option<nat>)

  const NOTHING := Holding(None, None, None, None, None)

  /** How the steps of a start come out. */
  datatype Plan = Plan(
    services: bool, dir: Option<nat>, copies: bool,
    subnet: Option<Allocation>, tapAdd: bool, tapAddress: bool, tapUp: bool,
    conntrackAdd: bool, masquerade: bool, forward: bool, drop: bool,
    cid: Option<nat>, process: Option<nat>, socketAppears: bool, configures: bool,
    connection: Option<nat>, agentReady: bool)

  /** Which commands of a teardown work. */
  datatype Teardown = Teardown(ends: bool, masq: bool, forward: bool, drop: bool, tap: bool, cid: bool, dir: bool, lists: bool)

  const ALL_WORK := Teardown(true, true, true, true, true, true, true, true)

  /** New names are new: directories, leases, processes and connections are not handed out twice. */
  predicate NewFor(host: Resources, p: Plan) {
    && NewTo(host.dirs, p.dir) && NewTo(host.cids, p.cid)
    && NewTo(host.processes, p.process) && NewTo(host.connections, p.connection)
  }

  /** `iptables -A`. */
  function Append(rules: multiset<Rule>, r: Rule): multiset<Rule> {
    rules[r := rules[r] + 1]
  }

  /** `iptables -D`: one matching rule, if there is one. */
  function Delete(rules: multiset<Rule>, r: Rule): multiset<Rule> {
    if r in rules then rules[r := rules[r] - 1] else rules
  }

  function MasqueradeOf(a: Allocation): Rule {
    Masquerade(a.iface, a.guestIp)
  }

  function ForwardOf(a: Allocation): Rule {
    Forward(a.tap, a.iface)
  }

  function DropOf(a: Allocation): Rule {
    DropInput(a.tap)
  }

  function With<T>(s: set<T>, o: Option<T>): set<T> {
    match o
    case None => s
    case Some(x) => s + {x}
  }

  function Without<T>(s: set<T>, o: Option<T>): set<T> {
    match o
    case None => s
    case Some(x) => s - {x}
  }

  function TapOf(o: Option<Allocation>): Option<string> {
    match o
    case None => None
    case Some(a) => Some(a.tap)
  }

  /** `o` is nothing, or new to `s`. */
  predicate NewTo<T>(s: set<T>, o: Option<T>) {
    o.Some? ==> o.value !in s
  }

  /** `host` is `base` with what `h` names, apart from the rules. */
  ghost predicate Acquired(base: Resources, host: Resources, h: Holding) {
    && host.taps == With(base.taps, TapOf(h.allocation)) && NewTo(base.taps, TapOf(h.allocation))
    && host.cids == With(base.cids, h.cid) && NewTo(base.cids, h.cid)
    && host.processes == With(base.processes, h.process) && NewTo(base.processes, h.process)
    && host.connections == With(base.connections, h.connection) && NewTo(base.connections, h.connection)
    && host.dirs == With(base.dirs, h.dir) && NewTo(base.dirs, h.dir)
  }

  /** The rules after the deletions that work. */
  function Unapplied(rules: multiset<Rule>, a: Allocation, t: Teardown): multiset<Rule> {
    var first := if t.masq then Delete(rules, MasqueradeOf(a)) else rules;
    var second := if t.forward then Delete(first, ForwardOf(a)) else first;
    if t.drop then Delete(second, DropOf(a)) else second
  }

  /** How far applying the rules gets: 0 when the shared rule cannot be made sure of, then one more for each rule added. */
  function Stage(rules: multiset<Rule>, p: Plan): nat {
    if Conntrack !in rules && !p.conntrackAdd then 0
    else if !p.masquerade then 1
    else if !p.forward then 2
    else if !p.drop then 3
    else 4
  }

  /** The rules after the appends of the given stage. */
  function Applied(rules: multiset<Rule>, a: Allocation, stage: nat): multiset<Rule> {
    var shared := if Conntrack in rules || stage == 0 then rules else Append(rules, Conntrack);
    var first := if stage < 2 then shared else Append(shared, MasqueradeOf(a));
    var second := if stage < 3 then first else Append(first, ForwardOf(a));
    if stage < 4 then second else Append(second, DropOf(a))
  }

  /** The host after a teardown of `h`; deleting a rule that is not there changes nothing. */
  function Released(host: Resources, h: Holding, t: Teardown): Resources {
    Resources(
      if t.tap then Without(host.taps, TapOf(h.allocation)) else host.taps,
      match h.allocation case None => host.rules case Some(a) => Unapplied(host.rules, a, t),
      if t.cid then Without(host.cids, h.cid) else host.cids,
      if t.ends then Without(host.processes, h.process) else host.processes,
      Without(host.connections, h.connection),
      if t.dir then Without(host.dirs, h.dir) else host.dirs)
  }

  const CID_MIN := 3
  const CID_MAX := 4294967294

  /** Guest CIDs lent out on this host; each call holds the file lock throughout. */
  class CidLeaseManager {
    var active: set<nat>

    constructor (leased: set<nat>)
      ensures active == leased
    {
      active := leased;
    }

    /** The first of the drawn candidates that is not lent out, so a new one. */
    method Allocate(draws: seq<nat>) returns (cid: Option<nat>)
      requires forall i | 0 <= i < |draws| :: CID_MIN <= draws[i] <= CID_MAX
      modifies this
      ensures active == With(old(active), cid) && NewTo(old(active), cid)
      ensures match cid
              case None => forall i | 0 <= i < |draws| :: draws[i] in old(active)
              case Some(c) => exists k | 0 <= k < |draws| :: draws[k] == c && forall i | 0 <= i < k :: draws[i] in old(active)
    {
      for i := 0 to |draws|
        invariant active == old(active)
        invariant forall k | 0 <= k < i :: draws[k] in active
      {
        if draws[i] in active {
          continue;
        }
        active := active + {draws[i]};
        return Some(draws[i]);
      }
      cid := None;
    }

    method Release(cid: nat)
      modifies this
      ensures active == old(active) - {cid}
    {
      if cid !in active {
        return;
      }
      active := active - {cid};
    }
  }

  class FireSandbox {
    var host: Resources
    var sessionTempDir: Option<nat>
    var allocation: Option<Allocation>
    var guestCid: Option<nat>
    var process: Option<nat>
    var vsockConn: Option<nat>
    var stopping: bool

    constructor (resources: Resources)
      ensures host == resources && Held() == NOTHING && Valid()
    {
      host, stopping := resources, false;
      sessionTempDir, allocation, guestCid, process, vsockConn := None, None, None, None, None;
    }

    function Held(): Holding
      reads this
    {
      Holding(sessionTempDir, allocation, guestCid, process, vsockConn)
    }

    /** Between calls: the device this object remembers is on the host, and no stop is under way. */
    ghost predicate Valid()
      reads this
    {
      !stopping && (allocation.Some? ==> allocation.value.tap in host.taps)
    }

    /** `IptablesManager.cleanup`: the shared rule goes only when no TAP of a Fire session is listed. */
    method Cleanup(t: Teardown)
      requires allocation.Some?
      modifies this`host
      ensures var rules := Unapplied(old(host).rules, old(allocation).value, t);
              host == old(host).(rules := if t.lists && host.taps == {} then Delete(rules, Conntrack) else rules)
    {
      var a := allocation.value;
      if t.masq {
        host := host.(rules := Delete(host.rules, MasqueradeOf(a)));
      }
      if t.forward {
        host := host.(rules := Delete(host.rules, ForwardOf(a)));
      }
      if t.drop {
        host := host.(rules := Delete(host.rules, DropOf(a)));
      }
      var active := !t.lists || host.taps != {};
      if !active {
        host := host.(rules := Delete(host.rules, Conntrack));
      }
    }

    method CloseConnection()
      modifies this`host, this`vsockConn
      ensures host == old(host).(connections := Without(old(host).connections, old(vsockConn))) && vsockConn == None
    {
      if vsockConn == None {
        return;
      }
      host := host.(connections := host.connections - {vsockConn.value});
      vsockConn := None;
    }

    method EndProcess(t: Teardown)
      modifies this`host
      ensures host == old(host).(processes := if t.ends then Without(old(host).processes, process) else old(host).processes)
    {
      if process.Some? && t.ends {
        host := host.(processes := host.processes - {process.value});
      }
    }

    method ReleaseNetwork(t: Teardown)
      requires allocation.Some? ==> allocation.value.tap in host.taps
      modifies this`host, this`allocation
      ensures host == old(host).(
                rules := match old(allocation) case None => old(host).rules case Some(a) => Unapplied(old(host).rules, a, t),
                taps := if t.tap then Without(old(host).taps, TapOf(old(allocation))) else old(host).taps)
      ensures allocation == None
    {
      if allocation.Some? {
        // the own TAP is still there, so it counts as active
        Cleanup(t);
        if t.tap {
          host := host.(taps := host.taps - {allocation.value.tap});
        }
        allocation := None;
      }
    }

    method ReleaseLease(t: Teardown)
      modifies this`host, this`guestCid
      ensures host == old(host).(cids := if t.cid then Without(old(host).cids, old(guestCid)) else old(host).cids)
      ensures guestCid == None
    {
      if guestCid.Some? {
        if t.cid {
          host := host.(cids := host.cids - {guestCid.value});
        }
        guestCid := None;
      }
    }

    method RemoveDir(t: Teardown)
      modifies this`host, this`sessionTempDir
      ensures host == old(host).(dirs := if t.dir then Without(old(host).dirs, old(sessionTempDir)) else old(host).dirs)
      ensures sessionTempDir == None
    {
      if sessionTempDir.Some? && t.dir {
        host := host.(dirs := host.dirs - {sessionTempDir.value});
      }
      sessionTempDir := None;
    }

    method Stop(t: Teardown)
      requires stopping || (allocation.Some? ==> allocation.value.tap in host.taps)
      modifies this
      ensures old(stopping) ==> host == old(host) && Held() == old(Held()) && stopping
      ensures !old(stopping) ==> host == Released(old(host), old(Held()), t) && Held() == NOTHING && Valid()
    {
      if stopping {
        return;
      }
      stopping := true;
      CloseConnection();
      EndProcess(t);
      ReleaseNetwork(t);
      ReleaseLease(t);
      RemoveDir(t);
      process := None;
      stopping := false;
    }

    /** `TapDeviceManager.create` up to the device: a device whose setup fails is deleted again. */
    method CreateTap(p: Plan) returns (created: Option<Allocation>)
      modifies this`host
      ensures created == if DeviceWorks(p) && p.subnet.value.tap !in old(host).taps then p.subnet else None
      ensures host == old(host).(taps := With(old(host).taps, TapOf(created)))
    {
      if p.subnet == None || !p.tapAdd || p.subnet.value.tap in host.taps {
        return None;
      }
      ghost var before := host;
      var tap := p.subnet.value.tap;
      host := host.(taps := host.taps + {tap});
      if !p.tapAddress || !p.tapUp {
        host := host.(taps := host.taps - {tap});
        assert host.taps == before.taps;
        return None;
      }
      created := p.subnet;
    }

    /** `IptablesManager.apply`: the shared rule if it is missing, then the three rules until one fails. */
    method ApplyRules(a: Allocation, p: Plan) returns (ok: bool)
      modifies this`host
      ensures host == old(host).(rules := Applied(old(host).rules, a, Stage(old(host).rules, p)))
      ensures ok <==> Stage(old(host).rules, p) == 4
    {
      if Conntrack !in host.rules {
        if !p.conntrackAdd {
          return false;
        }
        host := host.(rules := Append(host.rules, Conntrack));
      }
      if !p.masquerade {
        return false;
      }
      host := host.(rules := Append(host.rules, MasqueradeOf(a)));
      if !p.forward {
        return false;
      }
      host := host.(rules := Append(host.rules, ForwardOf(a)));
      if !p.drop {
        return false;
      }
      host := host.(rules := Append(host.rules, DropOf(a)));
      ok := true;
    }

    /** The first steps of `start`: services, directory, root filesystem, device and rules. */
    method TakeNetwork(p: Plan) returns (ok: bool)
      requires sessionTempDir == None && allocation == None && NewFor(host, p)
      modifies this`host, this`sessionTempDir, this`allocation
      ensures sessionTempDir == if p.services then p.dir else None
      ensures allocation == Reached(old(host), p)
      ensures host == old(host).(
                dirs := With(old(host).dirs, sessionTempDir),
                taps := With(old(host).taps, TapOf(allocation)),
                rules := RulesTaken(old(host), p))
      ensures ok <==> allocation.Some? && Stage(old(host).rules, p) == 4
    {
      ok := false;
      if !p.services || p.dir == None {
        return;
      }
      sessionTempDir := p.dir;
      host := host.(dirs := host.dirs + {p.dir.value});
      if !p.copies {
        return;
      }
      allocation := CreateTap(p);
      if allocation == None {
        return;
      }
      ok := ApplyRules(allocation.value, p);
    }

    /** The steps after that: lease, process, configuration, connection and the agent's first event. */
    method TakeMachine(p: Plan) returns (ok: bool)
      requires guestCid == None && process == None && vsockConn == None
      modifies this`host, this`guestCid, this`process, this`vsockConn
      ensures guestCid == p.cid
      ensures process == if guestCid.Some? then p.process else None
      ensures vsockConn == if process.Some? && p.socketAppears && p.configures then p.connection else None
      ensures host == old(host).(
                cids := With(old(host).cids, guestCid),
                processes := With(old(host).processes, process),
                connections := With(old(host).connections, vsockConn))
      ensures ok <==> vsockConn.Some? && p.agentReady
    {
      ok := false;
      if p.cid == None {
        return;
      }
      guestCid := p.cid;
      host := host.(cids := host.cids + {p.cid.value});
      if p.process == None {
        return;
      }
      process := p.process;
      host := host.(processes := host.processes + {p.process.value});
      if !p.socketAppears || !p.configures || p.connection == None {
        return;
      }
      vsockConn := p.connection;
      host := host.(connections := host.connections + {p.connection.value});
      ok := p.agentReady;
    }

    /** The guarded part of `start`: the steps in order until one fails. */
    method Boot(p: Plan) returns (ok: bool)
      requires Held() == NOTHING && !stopping && NewFor(host, p)
      modifies this
      ensures !stopping && Acquired(old(host), host, Held()) && allocation == Reached(old(host), p)
      ensures host.rules == RulesTaken(old(host), p)
      ensures ok <==> Succeeds(old(host), p)
      ensures ok ==> Full(Held())
    {
      ok := TakeNetwork(p);
      if ok {
        ok := TakeMachine(p);
      }
    }

    /**
     A start takes one of everything, or nothing but perhaps the shared rule and
     what the cleanup deletes too much; `alive` is whether the process this
     object remembers still runs.  What a dead predecessor left is released first.
     */
    method Start(p: Plan, alive: bool) returns (ok: bool, ghost base: Resources)
      requires Valid() && (process == None ==> Held() == NOTHING)
      requires NewFor(host, p)
      modifies this
      ensures Valid() && (process == None ==> Held() == NOTHING)
      ensures if old(process.Some? && alive && vsockConn.Some?) then
                !ok && host == old(host) && Held() == old(Held())
              else
                && base == Released(old(host), old(Held()), ALL_WORK)
                && (ok <==> Succeeds(base, p))
                && if ok then
                     && Full(Held()) && Acquired(base, host, Held()) && allocation == p.subnet
                     && host.rules == Applied(base.rules, allocation.value, 4)
                   else Held() == NOTHING && host == base.(rules := AfterFailure(base, p))
    {
      base := host;
      if process.Some? && alive && vsockConn.Some? {
        return false, base;
      }
      NothingToRelease(host);
      if process.Some? {
        Stop(ALL_WORK);
      }
      base := host;
      ok := Boot(p);
      if !ok {
        ReleaseUndoes(base, host, Held());
        Stop(ALL_WORK);
      }
    }
  }

  /** One of everything. */
  predicate Full(h: Holding) {
    h.dir.Some? && h.allocation.Some? && h.cid.Some? && h.process.Some? && h.connection.Some?
  }

  predicate DeviceWorks(p: Plan) {
    p.subnet.Some? && p.tapAdd && p.tapAddress && p.tapUp
  }

  /** The device that a start with this plan gets to. */
  function Reached(base: Resources, p: Plan): Option<Allocation> {
    if p.services && p.dir.Some? && p.copies && DeviceWorks(p) && p.subnet.value.tap !in base.taps then p.subnet
    else None
  }

  /** The rules once a start with this plan has failed or succeeded in applying its own. */
  function RulesTaken(base: Resources, p: Plan): multiset<Rule> {
    match Reached(base, p)
    case None => base.rules
    case Some(a) => Applied(base.rules, a, Stage(base.rules, p))
  }

  predicate Succeeds(base: Resources, p: Plan) {
    && Reached(base, p).Some? && Stage(base.rules, p) == 4
    && p.cid.Some? && p.process.Some? && p.socketAppears && p.configures && p.connection.Some? && p.agentReady
  }

  /** The rules a failed start leaves: one of each own rule is deleted, whether or not this start appended it. */
  function AfterFailure(base: Resources, p: Plan): multiset<Rule> {
    match Reached(base, p)
    case None => base.rules
    case Some(a) => Unapplied(RulesTaken(base, p), a, ALL_WORK)
  }

  lemma NothingToRelease(host: Resources)
    ensures Released(host, NOTHING, ALL_WORK) == host
  {
  }

  lemma ReleaseUndoes(base: Resources, host: Resources, h: Holding)
    requires Acquired(base, host, h)
    ensures Released(host, h, ALL_WORK) == base.(rules := match h.allocation
                                                          case None => host.rules
                                                          case Some(a) => Unapplied(host.rules, a, ALL_WORK))
  {
  }

  // ---------------------------------------------------------------- what balances

  /** The shared rule is the one thing a session leaves behind. */
  function WithShared(rules: multiset<Rule>): multiset<Rule> {
    if Conntrack in rules then rules else Append(rules, Conntrack)
  }

  /** An own rule that is not appended in this stage was there before. */
  predicate OldRuleInTheWay(rules: multiset<Rule>, a: Allocation, stage: nat) {
    exists r | r in rules :: Own(a, r) && !Appends(a, stage, r)
  }

  predicate Own(a: Allocation, r: Rule) {
    r == MasqueradeOf(a) || r == ForwardOf(a) || r == DropOf(a)
  }

  /** This stage appends the rule. */
  predicate Appends(a: Allocation, stage: nat, r: Rule) {
    || (r == MasqueradeOf(a) && stage >= 2)
    || (r == ForwardOf(a) && stage >= 3)
    || (r == DropOf(a) && stage >= 4)
  }

  function StartingFrom(rules: multiset<Rule>, stage: nat): multiset<Rule> {
    if stage == 0 then rules else WithShared(rules)
  }

  lemma AppliedCounts(rules: multiset<Rule>, a: Allocation, stage: nat, r: Rule)
    ensures Applied(rules, a, stage)[r] == StartingFrom(rules, stage)[r] + if Appends(a, stage, r) then 1 else 0
  {
  }

  lemma UnappliedCounts(rules: multiset<Rule>, a: Allocation, r: Rule)
    ensures Unapplied(rules, a, ALL_WORK)[r] == if Own(a, r) && r in rules then rules[r] - 1 else rules[r]
  {
  }

  lemma CountsAfter(rules: multiset<Rule>, a: Allocation, stage: nat, r: Rule)
    ensures var after := Unapplied(Applied(rules, a, stage), a, ALL_WORK);
            after[r] ==
              if Own(a, r) && !Appends(a, stage, r) then (if r in rules then rules[r] - 1 else 0)
              else StartingFrom(rules, stage)[r]
  {
    AppliedCounts(rules, a, stage, r);
    UnappliedCounts(Applied(rules, a, stage), a, r);
  }

  /**
   Applying up to any point and cleaning up restores the rules exactly when no
   own rule that was not appended had been there before.
   */
  lemma RulesBalanceIff(rules: multiset<Rule>, a: Allocation, stage: nat)
    requires stage <= 4
    ensures Unapplied(Applied(rules, a, stage), a, ALL_WORK) == StartingFrom(rules, stage) <==> !OldRuleInTheWay(rules, a, stage)
  {
    var after := Unapplied(Applied(rules, a, stage), a, ALL_WORK);
    var start := StartingFrom(rules, stage);
    CountsAfter(rules, a, stage, MasqueradeOf(a));
    CountsAfter(rules, a, stage, ForwardOf(a));
    CountsAfter(rules, a, stage, DropOf(a));
    if !OldRuleInTheWay(rules, a, stage) {
      forall r ensures after[r] == start[r] {
        CountsAfter(rules, a, stage, r);
      }
    }
  }

  /** A failed start gives back everything else, and the rules unless an old own rule was in the way. */
  lemma FailedStartBalances(base: Resources, p: Plan)
    requires !Succeeds(base, p)
    ensures var reached := Reached(base, p);
            var stage := Stage(base.rules, p);
            base.(rules := AfterFailure(base, p)) ==
              base.(rules := if reached == None then base.rules else StartingFrom(base.rules, stage))
            <==> !(reached.Some? && OldRuleInTheWay(base.rules, reached.value, stage))
  {
    if Reached(base, p).Some? {
      RulesBalanceIff(base.rules, Reached(base, p).value, Stage(base.rules, p));
    }
  }

  /** A start that gets as far as the device and cannot add its first own rule. */
  function FailsAtMasquerade(a: Allocation, dir: nat): Plan {
    Plan(true, Some(dir), true, Some(a), true, true, true, true, false, true, true, None, None, true, true, None, true)
  }

  /** The other case happens: on any host that still has an old own rule for a free device, such a start loses one. */
  lemma FailedStartTakesOldRule(base: Resources, a: Allocation, dir: nat, stale: Rule)
    requires dir !in base.dirs && a.tap !in base.taps
    requires Own(a, stale) && stale in base.rules
    ensures var p := FailsAtMasquerade(a, dir);
            && NewFor(base, p) && !Succeeds(base, p)
            && AfterFailure(base, p)[stale] == base.rules[stale] - 1
            && base.(rules := AfterFailure(base, p)) != base.(rules := StartingFrom(base.rules, Stage(base.rules, p)))
  {
    var p := FailsAtMasquerade(a, dir);
    var stage := Stage(base.rules, p);
    assert Reached(base, p) == Some(a) && stage == 1;
    CountsAfter(base.rules, a, stage, stale);
    assert OldRuleInTheWay(base.rules, a, stage);
    FailedStartBalances(base, p);
  }

  /** A successful start and the stop that follows restore the host, whatever rules were there; the shared rule stays. */
  lemma StopBalances(base: Resources, host: Resources, h: Holding)
    requires Full(h) && Acquired(base, host, h) && host.rules == Applied(base.rules, h.allocation.value, 4)
    ensures Released(host, h, ALL_WORK) == base.(rules := WithShared(base.rules))
  {
    ReleaseUndoes(base, host, h);
    RulesBalanceIff(base.rules, h.allocation.value, 4);
  }

  /** A second stop, or one without a start, does nothing. */
  lemma StopTwice(host: Resources, t: Teardown)
    ensures Released(host, NOTHING, t) == host
  {
  }

  /** Without the shared rule it never goes: no teardown takes it away, even the last session's. */
  lemma SharedRuleStays(host: Resources, h: Holding, t: Teardown)
    ensures Released(host, h, t).rules[Conntrack] == host.rules[Conntrack]
  {
  }
}
