/**
 Prompts and replies on the life of one sandbox: user, coordinator record,
 worker thread, the two ordered channels, and the agent's wait loops.

 A reply carries as a tag the number of the prompt the user was looking at; the
 program's replies carry no such number, and nothing here tests it.  That the
 tag is right when the agent consumes the reply is what has to be proved.
 */
module Dialogue {
  import opened Prelude

  datatype AgentMsg = Message(role: Role, number: nat) | Done

  datatype HostMsg = Task | UserReply(tag: nat) | StopMsg

  /** The worker's reply queue; `Poison` is the `None` that `stop` puts there. */
  datatype Item = Reply(tag: nat) | Poison

  datatype WorkerPhase = NoWorker | Reading | Waiting | Sending(tag: nat) | Leaving

  /** `Closing` must send `done` next: after the iteration-limit message, or a stop while waiting. */
  datatype AgentPhase = Idle | Running | Awaiting(number: nat) | Closing | Halted

  datatype State = State(
    yolo: bool,              // a fresh agent and fresh channels per task
    review: bool,            // plans wait for approval
    recorded: bool,          // the record holds the worker
    pending: bool,           // the record shows a pending role
    inflight: seq<nat>,      // accepted, not yet in the worker's queue
    worker: WorkerPhase,
    queue: seq<Item>,
    stopped: bool,           // a stop was requested: no task follows on this sandbox
    toAgent: seq<HostMsg>,
    toHost: seq<AgentMsg>,
    agent: AgentPhase,
    prompts: nat,            // prompts sent by the agent
    asked: nat,              // number of the last prompt handed to the record
    shown: nat,              // prompts handed to the record
    accepted: nat)           // replies accepted by `submit_reply`

  datatype Step =
    | StartTask | Submit | Deliver | ClearPending | Stop
    | WorkerReceives | WorkerTakes | WorkerSends | WorkerGivesUp | WorkerExits
    | AgentReads | AgentSays | AgentPlans | AgentClarifies | AgentHitsLimit | AgentFinishes

  /** The messages on which both the coordinator and the worker expect a reply. */
  predicate Asks(m: AgentMsg, review: bool) {
    m.Message? && ExpectsReply(m.role, review)
  }

  function Initially(yolo: bool, review: bool): State {
    State(yolo, review, false, false, [], NoWorker, [], false, [], [], if yolo then Halted else Idle, 0, 0, 0, 0)
  }

  predicate Enabled(s: State, step: Step) {
    match step
    case StartTask => !s.recorded && s.worker == NoWorker && !s.stopped && (s.yolo ==> s.agent == Halted)
    case Deliver => s.inflight != []
    case WorkerReceives => s.worker == Reading && s.toHost != []
    case WorkerTakes => s.worker == Waiting && s.queue != []
    case WorkerSends => s.worker.Sending?
    case WorkerGivesUp => s.worker in {Reading, Waiting} && s.stopped
    case WorkerExits => s.worker == Leaving
    case AgentReads => (s.agent == Idle || s.agent.Awaiting?) && s.toAgent != []
    case AgentSays => s.agent in {Running, Closing}
    case AgentPlans => s.agent == Running
    case AgentClarifies => s.agent == Running
    case AgentHitsLimit => s.agent == Running
    case AgentFinishes => s.agent in {Running, Closing}
    case _ => true
  }

  /** `_wait_for_task_event` while idle, `_wait_for_user_reply` while awaiting: each drops what it does not wait for. */
  function AgentAfterReading(agent: AgentPhase, m: HostMsg): AgentPhase {
    match (agent, m)
    case (Idle, Task) => Running
    case (Idle, StopMsg) => Halted
    case (Awaiting(_), UserReply(_)) => Running
    case (Awaiting(_), StopMsg) => Closing
    case _ => agent
  }

  function Received(s: State, m: AgentMsg): State {
    if m.Done? then s.(pending := false, worker := Leaving)
    else if Asks(m, s.review) then s.(pending := true, asked := m.number, shown := s.shown + 1, worker := Waiting)
    else s
  }

  function Apply(s: State, step: Step): State
    requires Enabled(s, step)
  {
    match step
    case StartTask =>
      s.(recorded := true, pending := false, worker := Reading, queue := [],
         toAgent := if s.yolo then [Task] else s.toAgent + [Task],
         toHost := if s.yolo then [] else s.toHost,
         agent := if s.yolo then Idle else s.agent)
    case Submit =>
      if s.recorded && s.pending then s.(pending := false, inflight := s.inflight + [s.asked], accepted := s.accepted + 1)
      else s
    case Deliver =>
      s.(inflight := s.inflight[1..], queue := if s.worker == NoWorker then s.queue else s.queue + [Reply(s.inflight[0])])
    case ClearPending => s.(pending := false)
    case Stop =>
      s.(recorded := false, pending := false, stopped := true, queue := s.queue + [Poison], toAgent := s.toAgent + [StopMsg])
    case WorkerReceives => Received(s.(toHost := s.toHost[1..]), s.toHost[0])
    case WorkerTakes =>
      s.(queue := s.queue[1..], worker := if s.queue[0].Reply? then Sending(s.queue[0].tag) else Leaving)
    case WorkerSends => s.(toAgent := s.toAgent + [UserReply(s.worker.tag)], worker := Reading)
    case WorkerGivesUp => s.(worker := Leaving)
    case WorkerExits => s.(worker := NoWorker, recorded := false, pending := false)
    case AgentReads => s.(toAgent := s.toAgent[1..], agent := AgentAfterReading(s.agent, s.toAgent[0]))
    case AgentSays => s.(toHost := s.toHost + [Message(StatusRole, 0)])
    case AgentPlans =>
      if s.review then
        s.(prompts := s.prompts + 1, toHost := s.toHost + [Message(PlanRole, s.prompts + 1)], agent := Awaiting(s.prompts + 1))
      else s.(toHost := s.toHost + [Message(PlanRole, 0)])
    case AgentClarifies =>
      s.(prompts := s.prompts + 1, toHost := s.toHost + [Message(ClarificationRole, s.prompts + 1)],
         agent := Awaiting(s.prompts + 1))
    case AgentHitsLimit =>
      s.(prompts := s.prompts + 1, toHost := s.toHost + [Message(ClarificationRole, s.prompts + 1)], agent := Closing)
    case AgentFinishes => s.(toHost := s.toHost + [Done], agent := if s.yolo then Halted else Idle)
  }

  // ---------------------------------------------------------------- counting what is under way

  function PromptsIn(q: seq<AgentMsg>, review: bool): nat {
    if q == [] then 0 else (if Asks(q[0], review) then 1 else 0) + PromptsIn(q[1..], review)
  }

  function RepliesIn(q: seq<HostMsg>): nat {
    if q == [] then 0 else (if q[0].UserReply? then 1 else 0) + RepliesIn(q[1..])
  }

  function QueuedIn(q: seq<Item>): nat {
    if q == [] then 0 else (if q[0].Reply? then 1 else 0) + QueuedIn(q[1..])
  }

  lemma {:induction false} PromptsAppend(q: seq<AgentMsg>, m: AgentMsg, review: bool)
    ensures PromptsIn(q + [m], review) == PromptsIn(q, review) + if Asks(m, review) then 1 else 0
  {
    if q != [] {
      assert (q + [m])[1..] == q[1..] + [m];
      PromptsAppend(q[1..], m, review);
    }
  }

  lemma {:induction false} RepliesAppend(q: seq<HostMsg>, m: HostMsg)
    ensures RepliesIn(q + [m]) == RepliesIn(q) + if m.UserReply? then 1 else 0
  {
    if q != [] {
      assert (q + [m])[1..] == q[1..] + [m];
      RepliesAppend(q[1..], m);
    }
  }

  lemma {:induction false} QueuedAppend(q: seq<Item>, m: Item)
    ensures QueuedIn(q + [m]) == QueuedIn(q) + if m.Reply? then 1 else 0
  {
    if q != [] {
      assert (q + [m])[1..] == q[1..] + [m];
      QueuedAppend(q[1..], m);
    }
  }

  /** A count of zero means there is none. */
  lemma {:induction false} NoPrompts(q: seq<AgentMsg>, review: bool)
    requires PromptsIn(q, review) == 0
    ensures forall i | 0 <= i < |q| :: !Asks(q[i], review)
  {
    if q != [] {
      NoPrompts(q[1..], review);
      assert forall i | 1 <= i < |q| :: q[i] == q[1..][i - 1];
    }
  }

  lemma {:induction false} NoQueued(q: seq<Item>)
    requires QueuedIn(q) == 0
    ensures forall i | 0 <= i < |q| :: !q[i].Reply?
  {
    if q != [] {
      NoQueued(q[1..]);
      assert forall i | 1 <= i < |q| :: q[i] == q[1..][i - 1];
    }
  }

  lemma {:induction false} NoReplies(q: seq<HostMsg>)
    ensures RepliesIn(q) == 0 <==> forall i | 0 <= i < |q| :: !q[i].UserReply?
  {
    if q != [] {
      NoReplies(q[1..]);
      assert forall i | 1 <= i < |q| :: q[i] == q[1..][i - 1];
      assert forall i | 0 <= i < |q| - 1 :: q[1..][i] == q[i + 1];
    }
  }

  lemma NothingUnderWay(s: State)
    requires Tokens(s) == 0
    ensures forall i | 0 <= i < |s.toHost| :: !Asks(s.toHost[i], s.review)
    ensures forall i | 0 <= i < |s.queue| :: !s.queue[i].Reply?
    ensures forall i | 0 <= i < |s.toAgent| :: !s.toAgent[i].UserReply?
    ensures s.inflight == [] && !s.worker.Sending? && s.worker != Waiting
  {
    NoPrompts(s.toHost, s.review);
    NoQueued(s.queue);
    NoReplies(s.toAgent);
  }

  /** Accepted replies that the worker has not sent on. */
  function OnTheWay(s: State): nat {
    |s.inflight| + QueuedIn(s.queue) + if s.worker.Sending? then 1 else 0
  }

  /** The user may still answer. */
  predicate Open(s: State) {
    s.worker == Waiting && s.inflight == [] && QueuedIn(s.queue) == 0
  }

  /** A prompt is somewhere between being sent and its reply being read. */
  function Tokens(s: State): nat {
    PromptsIn(s.toHost, s.review) + (if Open(s) then 1 else 0) + OnTheWay(s) + RepliesIn(s.toAgent)
  }

  predicate HasTask(q: seq<HostMsg>) {
    exists i :: 0 <= i < |q| && q[i].Task?
  }

  // ---------------------------------------------------------------- the invariant

  /** Everything under way belongs to the latest prompt. */
  ghost predicate TagsOk(s: State) {
    && (forall i | 0 <= i < |s.toHost| && Asks(s.toHost[i], s.review) :: s.toHost[i].number == s.prompts)
    && (s.worker == Waiting ==> s.asked == s.prompts)
    && (forall i | 0 <= i < |s.inflight| :: s.inflight[i] == s.prompts)
    && (forall i | 0 <= i < |s.queue| && s.queue[i].Reply? :: s.queue[i].tag == s.prompts)
    && (s.worker.Sending? ==> s.worker.tag == s.prompts)
    && (forall i | 0 <= i < |s.toAgent| && s.toAgent[i].UserReply? :: s.toAgent[i].tag == s.prompts)
    && (s.agent.Awaiting? ==> s.agent.number == s.prompts)
  }

  /** While a task is unread, nothing else is under way. */
  ghost predicate TaskPlaceOk(s: State) {
    HasTask(s.toAgent) ==>
      && s.agent == Idle && s.toHost == [] && OnTheWay(s) == 0 && s.worker in {Reading, Leaving, NoWorker}
  }

  /** Behind a task comes nothing but a stop, and no task comes behind a stop. */
  predicate MayFollow(a: HostMsg, b: HostMsg) {
    (a.Task? ==> b.StopMsg?) && (a.StopMsg? ==> !b.Task?)
  }

  ghost predicate Ordered(q: seq<HostMsg>) {
    forall i, j | 0 <= i < j < |q| :: MayFollow(q[i], q[j])
  }

  /** `done` is the last message of its task. */
  ghost predicate DoneLast(s: State) {
    forall i | 0 <= i < |s.toHost| && s.toHost[i].Done? :: i == |s.toHost| - 1 && s.agent in {Idle, Halted}
  }

  /** While nobody stops: the worker is the record's, and leaves only after reading `done`. */
  ghost predicate Undisturbed(s: State) {
    && (s.recorded <==> s.worker != NoWorker)
    && (forall i | 0 <= i < |s.queue| :: s.queue[i].Reply?)
    && (s.worker != Waiting ==> s.inflight == [] && s.queue == [])
    && (forall i | 0 <= i < |s.toAgent| :: !s.toAgent[i].StopMsg?)
    && (s.worker in {NoWorker, Leaving} ==> s.toHost == [] && s.agent in {Idle, Halted} && !HasTask(s.toAgent) && OnTheWay(s) == 0)
    && (s.worker in {Reading, Waiting, Sending(s.prompts)} ==>
          HasTask(s.toAgent) || s.agent !in {Idle, Halted} || (s.toHost != [] && s.toHost[|s.toHost| - 1].Done?))
    && (s.agent == Halted ==> s.yolo)
  }

  ghost predicate Inv(s: State) {
    && Tokens(s) <= 1
    && (s.agent == Running ==> Tokens(s) == 0)
    && TagsOk(s) && TaskPlaceOk(s) && Ordered(s.toAgent) && DoneLast(s)
    && (if s.stopped then !s.recorded else Undisturbed(s))
    && (s.pending && s.recorded ==> Open(s))
    && s.accepted + (if Open(s) then 1 else 0) <= s.shown
    && s.shown + PromptsIn(s.toHost, s.review) <= s.prompts
  }

  lemma StartTaskKeepsInv(s: State)
    requires Inv(s) && Enabled(s, StartTask)
    ensures Inv(Apply(s, StartTask))
  {
    var t := Apply(s, StartTask);
    assert Undisturbed(s) && s.worker == NoWorker;
    assert s.toHost == [] && OnTheWay(s) == 0 && !HasTask(s.toAgent);
    RepliesAppend(s.toAgent, Task);
    assert t.queue == [] && OnTheWay(t) == 0 && RepliesIn(t.toAgent) <= RepliesIn(s.toAgent);
    assert t.toAgent[|t.toAgent| - 1] == Task;
    if !s.yolo {
      assert t.agent == Idle && t.toHost == [];
      forall i, j | 0 <= i < j < |t.toAgent| ensures MayFollow(t.toAgent[i], t.toAgent[j]) {
        assert !s.toAgent[i].Task? && !s.toAgent[i].StopMsg?;
      }
    }
  }

  lemma SubmitKeepsInv(s: State)
    requires Inv(s) && Enabled(s, Submit)
    ensures Inv(Apply(s, Submit))
  {
  }

  lemma DeliverKeepsInv(s: State)
    requires Inv(s) && Enabled(s, Deliver)
    ensures Inv(Apply(s, Deliver))
  {
    QueuedAppend(s.queue, Reply(s.inflight[0]));
  }

  lemma ClearPendingKeepsInv(s: State)
    requires Inv(s) && Enabled(s, ClearPending)
    ensures Inv(Apply(s, ClearPending))
  {
  }

  lemma StopKeepsInv(s: State)
    requires Inv(s) && Enabled(s, Stop)
    ensures Inv(Apply(s, Stop))
  {
    QueuedAppend(s.queue, Poison);
    RepliesAppend(s.toAgent, StopMsg);
    assert Tokens(Apply(s, Stop)) <= Tokens(s);
    assert HasTask(s.toAgent + [StopMsg]) ==> HasTask(s.toAgent);
  }

  lemma WorkerReadsDone(s: State)
    requires Inv(s) && Enabled(s, WorkerReceives) && s.toHost[0].Done?
    ensures Inv(Apply(s, WorkerReceives))
  {
    assert s.toHost[1..] == [];
  }

  lemma WorkerReadsPrompt(s: State)
    requires Inv(s) && Enabled(s, WorkerReceives) && Asks(s.toHost[0], s.review)
    ensures Inv(Apply(s, WorkerReceives))
  {
    assert s.toHost[0].number == s.prompts;
    assert s.toHost[1..] != [] ==> s.toHost[1..][|s.toHost| - 2] == s.toHost[|s.toHost| - 1];
  }

  lemma WorkerReadsNote(s: State)
    requires Inv(s) && Enabled(s, WorkerReceives) && s.toHost[0].Message? && !Asks(s.toHost[0], s.review)
    ensures Inv(Apply(s, WorkerReceives))
  {
    assert s.toHost[1..] != [] ==> s.toHost[1..][|s.toHost| - 2] == s.toHost[|s.toHost| - 1];
  }

  lemma WorkerReceivesKeepsInv(s: State)
    requires Inv(s) && Enabled(s, WorkerReceives)
    ensures Inv(Apply(s, WorkerReceives))
  {
    if s.toHost[0].Done? {
      WorkerReadsDone(s);
    } else if Asks(s.toHost[0], s.review) {
      WorkerReadsPrompt(s);
    } else {
      WorkerReadsNote(s);
    }
  }

  lemma WorkerTakesKeepsInv(s: State)
    requires Inv(s) && Enabled(s, WorkerTakes)
    ensures Inv(Apply(s, WorkerTakes))
  {
  }

  lemma WorkerSendsKeepsInv(s: State)
    requires Inv(s) && Enabled(s, WorkerSends)
    ensures Inv(Apply(s, WorkerSends))
  {
    RepliesAppend(s.toAgent, UserReply(s.worker.tag));
  }

  lemma WorkerGivesUpKeepsInv(s: State)
    requires Inv(s) && Enabled(s, WorkerGivesUp)
    ensures Inv(Apply(s, WorkerGivesUp))
  {
  }

  lemma WorkerExitsKeepsInv(s: State)
    requires Inv(s) && Enabled(s, WorkerExits)
    ensures Inv(Apply(s, WorkerExits))
  {
  }

  lemma IdleAgentReads(s: State)
    requires Inv(s) && Enabled(s, AgentReads) && s.agent == Idle
    ensures Inv(Apply(s, AgentReads))
  {
    NoReplies(s.toAgent[1..]);
    assert HasTask(s.toAgent[1..]) ==> HasTask(s.toAgent);
  }

  lemma AwaitingAgentReads(s: State)
    requires Inv(s) && Enabled(s, AgentReads) && s.agent.Awaiting?
    ensures Inv(Apply(s, AgentReads))
  {
    assert !HasTask(s.toAgent);
  }

  lemma AgentReadsKeepsInv(s: State)
    requires Inv(s) && Enabled(s, AgentReads)
    ensures Inv(Apply(s, AgentReads))
  {
    if s.agent == Idle {
      IdleAgentReads(s);
    } else {
      AwaitingAgentReads(s);
    }
  }

  lemma AgentSaysKeepsInv(s: State)
    requires Inv(s) && Enabled(s, AgentSays)
    ensures Inv(Apply(s, AgentSays))
  {
    PromptsAppend(s.toHost, Message(StatusRole, 0), s.review);
  }

  lemma AgentPlansKeepsInv(s: State)
    requires Inv(s) && Enabled(s, AgentPlans)
    ensures Inv(Apply(s, AgentPlans))
  {
    NothingUnderWay(s);
    PromptsAppend(s.toHost, Apply(s, AgentPlans).toHost[|s.toHost|], s.review);
  }

  lemma AgentClarifiesKeepsInv(s: State)
    requires Inv(s) && Enabled(s, AgentClarifies)
    ensures Inv(Apply(s, AgentClarifies))
  {
    NothingUnderWay(s);
    PromptsAppend(s.toHost, Message(ClarificationRole, s.prompts + 1), s.review);
  }

  lemma AgentHitsLimitKeepsInv(s: State)
    requires Inv(s) && Enabled(s, AgentHitsLimit)
    ensures Inv(Apply(s, AgentHitsLimit))
  {
    NothingUnderWay(s);
    PromptsAppend(s.toHost, Message(ClarificationRole, s.prompts + 1), s.review);
  }

  lemma AgentFinishesKeepsInv(s: State)
    requires Inv(s) && Enabled(s, AgentFinishes)
    ensures Inv(Apply(s, AgentFinishes))
  {
    PromptsAppend(s.toHost, Done, s.review);
  }

  lemma StepKeepsInv(s: State, step: Step)
    requires Inv(s) && Enabled(s, step)
    ensures Inv(Apply(s, step))
  {
    match step
    case StartTask => StartTaskKeepsInv(s);
    case Submit => SubmitKeepsInv(s);
    case Deliver => DeliverKeepsInv(s);
    case ClearPending => ClearPendingKeepsInv(s);
    case Stop => StopKeepsInv(s);
    case WorkerReceives => WorkerReceivesKeepsInv(s);
    case WorkerTakes => WorkerTakesKeepsInv(s);
    case WorkerSends => WorkerSendsKeepsInv(s);
    case WorkerGivesUp => WorkerGivesUpKeepsInv(s);
    case WorkerExits => WorkerExitsKeepsInv(s);
    case AgentReads => AgentReadsKeepsInv(s);
    case AgentSays => AgentSaysKeepsInv(s);
    case AgentPlans => AgentPlansKeepsInv(s);
    case AgentClarifies => AgentClarifiesKeepsInv(s);
    case AgentHitsLimit => AgentHitsLimitKeepsInv(s);
    case AgentFinishes => AgentFinishesKeepsInv(s);
  }

  // ---------------------------------------------------------------- over all runs

  ghost predicate Possible(s: State, run: seq<Step>)
    decreases |run|
  {
    run == [] || (Enabled(s, run[0]) && Possible(Apply(s, run[0]), run[1..]))
  }

  ghost function After(s: State, run: seq<Step>): State
    requires Possible(s, run)
    decreases |run|
  {
    if run == [] then s else After(Apply(s, run[0]), run[1..])
  }

  lemma {:induction false} RunKeepsInv(s: State, run: seq<Step>)
    requires Inv(s) && Possible(s, run)
    ensures Inv(After(s, run))
    decreases |run|
  {
    if run != [] {
      StepKeepsInv(s, run[0]);
      RunKeepsInv(Apply(s, run[0]), run[1..]);
    }
  }

  lemma Reached(yolo: bool, review: bool, run: seq<Step>)
    requires Possible(Initially(yolo, review), run)
    ensures Inv(After(Initially(yolo, review), run))
  {
    assert Inv(Initially(yolo, review));
    RunKeepsInv(Initially(yolo, review), run);
  }

  /** At most one accepted reply is on its way, and accepted replies never outnumber prompts. */
  lemma OneReplyPerPrompt(yolo: bool, review: bool, run: seq<Step>)
    requires Possible(Initially(yolo, review), run)
    ensures var s := After(Initially(yolo, review), run);
            && OnTheWay(s) + RepliesIn(s.toAgent) <= 1
            && s.accepted <= s.shown <= s.prompts
  {
    Reached(yolo, review, run);
  }

  /** Whatever reply the wait loop consumes was given to the very prompt the agent waits on, its latest. */
  lemma ReplyAnswersLatestPrompt(yolo: bool, review: bool, run: seq<Step>)
    requires Possible(Initially(yolo, review), run)
    ensures var s := After(Initially(yolo, review), run);
            s.agent.Awaiting? && s.toAgent != [] && s.toAgent[0].UserReply? ==>
              s.toAgent[0].tag == s.agent.number == s.prompts
  {
    Reached(yolo, review, run);
  }

  /** When a task is read no reply and no prompt is left over from the one before: the extra reply to the
      iteration-limit message was dropped while idle. */
  lemma NothingLeftOverAtTaskStart(yolo: bool, review: bool, run: seq<Step>)
    requires Possible(Initially(yolo, review), run)
    ensures var s := After(Initially(yolo, review), run);
            s.agent == Idle && s.toAgent != [] && s.toAgent[0].Task? ==>
              && RepliesIn(s.toAgent) == 0 && OnTheWay(s) == 0 && s.toHost == [] && !Open(s)
  {
    Reached(yolo, review, run);
    var s := After(Initially(yolo, review), run);
    if s.agent == Idle && s.toAgent != [] && s.toAgent[0].Task? {
      NoReplies(s.toAgent);
    }
  }

  /** No reply reaches an agent at work: nothing is under way between its prompts. */
  lemma NothingUnderWayAtWork(yolo: bool, review: bool, run: seq<Step>)
    requires Possible(Initially(yolo, review), run)
    ensures var s := After(Initially(yolo, review), run);
            s.agent == Running ==> RepliesIn(s.toAgent) == 0 && OnTheWay(s) == 0 && PromptsIn(s.toHost, review) == 0
  {
    Reached(yolo, review, run);
    ModeFixed(Initially(yolo, review), run);
  }

  lemma {:induction false} ModeFixed(s: State, run: seq<Step>)
    requires Possible(s, run)
    ensures After(s, run).review == s.review && After(s, run).yolo == s.yolo
    decreases |run|
  {
    if run != [] {
      ModeFixed(Apply(s, run[0]), run[1..]);
    }
  }

  /** While nobody stops, a worker that leaves has read `done`, and a submitted reply is refused from then on. */
  lemma UnstoppedWorkerLeavesAfterDone(yolo: bool, review: bool, run: seq<Step>)
    requires Possible(Initially(yolo, review), run)
    ensures var s := After(Initially(yolo, review), run);
            !s.stopped && s.worker in {Leaving, NoWorker} ==>
              && s.agent in {Idle, Halted} && s.toHost == [] && OnTheWay(s) == 0
              && Apply(s, Submit).accepted == s.accepted
  {
    Reached(yolo, review, run);
  }
}
