/**
 The agent loop of agent/agent.py and the child runs of agent/subagents.py: one
 object whose methods append to its history and to the events it sends, driven
 by an arbitrary model, arbitrary tools and an arbitrary user.

 A method's exceptions are its `Exit`.  `Blocked` is the run that still waits
 for a user who has sent nothing more.
 */
module AgentLoop {
  import opened Prelude
  import PromptWindow

  // ---------------------------------------------------------------- what the model decides

  /** An optional argument that should be a string. */
  datatype Arg = Missing | Text(text: string) | NotText

  datatype Decision =
    | AgentDone(reply: Arg)
    | AgentClarify(question: Arg)
    | AgentReplan(feedback: Arg)
    | ReadSkillFile(skill: Arg, path: Arg)
    | SpawnSubagent(request: SpawnArgs)
    | CallTool(name: string)

  /** The arguments of `spawn_subagent` that decide whether and how a child runs. */
  datatype SpawnArgs = SpawnArgs(wellFormed: bool, allowedTools: set<string>, maxIterations: Option<int>)

  /** A normalised plan, as far as the loop looks at it. */
  datatype Plan = Plan(referencedSkills: seq<string>)

  datatype Answer = Reply(text: string, plan: Plan, action: Option<Decision>) | RuntimeError | OtherError

  datatype Lookup = Found | Unknown | LookupRaises

  datatype Approval = Auto | Review

  datatype HostEvent = UserReply(approved: bool, text: string) | StopRequest | OtherEvent

  // ---------------------------------------------------------------- what the agent emits

  datatype Event =
    | Message(role: Role)
    | Action(tool: string, failed: bool)
    | DoneEvent(success: bool, reply: string, exportError: bool)

  datatype HistoryItem = Acted(event: Event) | Clarified(question: string, answer: string) | Replanned(feedback: string)

  /** What the model is asked: for a plan, for a summary of everything older than the window, or for the next step. */
  datatype Question =
    | ForPlan(feedback: Option<string>)
    | ForSummary(previous: string, events: seq<HistoryItem>)
    | ForDecision(plan: Plan, activated: set<string>, window: PromptWindow.Window<HistoryItem>, summary: string)

  /** A summary call, made at tick `at`. */
  datatype SummaryCall = SummaryCall(at: nat, previous: string, events: seq<HistoryItem>)

  /** A decision call at tick `at`: the history and summary it was built from, the window that was fitted at tick
      `counted`, and the last summary call that had returned by then. */
  datatype DecisionCall = DecisionCall(
    at: nat, counted: nat, past: seq<HistoryItem>, summary: string, window: PromptWindow.Window<HistoryItem>,
    plan: Plan, activated: set<string>, summarized: Option<SummaryCall>)

  datatype Exit<+T> = Ok(value: T) | AgentFailure | LlmFailure | Crash | Blocked

  /** An exception passes through. */
  function Passed<T, U>(e: Exit<T>): Exit<U>
    requires !e.Ok?
  {
    match e
    case AgentFailure => AgentFailure
    case LlmFailure => LlmFailure
    case Crash => Crash
    case Blocked => Blocked
  }

  datatype Outcome = Outcome(finished: bool, plan: Plan, observation: Option<HistoryItem>, replanned: bool)

  datatype PlanTurn = Planned(plan: Plan) | Errored | Rejected(text: string) | Ended(exit: Exit<Plan>)

  datatype Task = Task(approval: Approval, history: seq<HistoryItem>, plan: Option<Plan>, summary: string)

  datatype Status = Completed | Timeout | MaxIterations | ChildFailed | Disabled | InvalidRequest

  const MAX_ITERATIONS_REPLY := "Stopped after reaching iteration limit."
  const MAX_ACTIVATION_ATTEMPTS := 3
  const MIN_OVERRIDE := 3
  const CAPABILITY_TOOLS: set<string> := {"shell", "web_search", "web_fetch", "http_request"}

  // ---------------------------------------------------------------- small pure parts

  predicate IsSpace(c: char) {
    c in {' ', '\t', '\n', '\r'} || '\U{000B}' <= c <= '\U{000C}'
  }

  predicate IsBlank(s: string) {
    forall i | 0 <= i < |s| :: IsSpace(s[i])
  }

  /** The configuration entries that decide about children. */
  datatype Config = Config(spawnToggle: bool, subagentsEnabled: bool, tools: set<string>, maxIterations: nat)

  predicate MaySpawn(c: Config) {
    c.spawnToggle && c.subagentsEnabled
  }

  function ChildConfig(base: Config, request: SpawnArgs, maxIterations: nat): Config {
    base.(spawnToggle := false, subagentsEnabled := false,
          tools := CAPABILITY_TOOLS * request.allowedTools * base.tools, maxIterations := maxIterations)
  }

  /** Whatever the base configuration says, a child cannot spawn and has no tool its parent lacks. */
  lemma ChildNeverSpawns(base: Config, request: SpawnArgs, maxIterations: nat)
    ensures var c := ChildConfig(base, request, maxIterations); !MaySpawn(c) && c.tools <= base.tools
  {
  }

  function Max(a: int, b: int): int { if a >= b then a else b }

  /** `_clamp_subagent_int` for `max_iterations`; `None` is a refused request. */
  function ClampIterations(raw: Option<int>, cap: nat): (m: Option<nat>)
    requires cap > 0
    ensures m.Some? ==> 1 <= m.value <= cap
    ensures m.None? <==> raw.Some? && raw.value <= 0
    ensures raw.Some? && raw.value >= MIN_OVERRIDE ==> m == Some(Min(raw.value, cap))
  {
    match raw
    case None => Some(cap)
    case Some(n) => if n <= 0 then None else Some(Max(Min(n, cap), Min(MIN_OVERRIDE, cap)))
  }

  /** `complete` calls that one task may cost in the agent itself, under automatic approval. */
  function Budget(m: nat): nat {
    4 * m * m + 6 * m
  }

  /** What a wait loop has left once it has dropped the events it does not wait for. */
  function FromFirstAnswer(inputs: seq<HostEvent>): (rest: seq<HostEvent>)
    ensures rest != [] ==> !rest[0].OtherEvent?
  {
    if inputs == [] || !inputs[0].OtherEvent? then inputs else FromFirstAnswer(inputs[1..])
  }

  predicate Names(arg: Arg) {
    arg.Text? && arg.text != ""
  }

  /** What the user is asked; a missing or empty question is replaced. */
  function QuestionOf(question: Arg): string
    requires !question.NotText?
  {
    if question.Missing? || question.text == "" then "Please clarify what you want next." else question.text
  }

  /** `n * m` by counting, so that one more of `n` is one more `m`. */
  function Times(n: nat, m: nat): nat {
    if n == 0 then 0 else m + Times(n - 1, m)
  }

  lemma {:induction false} TimesIsProduct(n: nat, m: nat)
    ensures Times(n, m) == n * m
  {
    if n > 0 {
      TimesIsProduct(n - 1, m);
    }
  }

  /** How many `done` are among the events. */
  function Dones(events: seq<Event>): nat {
    if events == [] then 0
    else
      var last := events[|events| - 1];
      Dones(events[..|events| - 1]) + if last.DoneEvent? then 1 else 0
  }

  predicate NoDone(events: seq<Event>) {
    Dones(events) == 0
  }

  lemma {:induction false} NoDoneMeans(events: seq<Event>)
    ensures NoDone(events) <==> forall i | 0 <= i < |events| :: !events[i].DoneEvent?
    decreases |events|
  {
    if events != [] {
      NoDoneMeans(events[..|events| - 1]);
    }
  }

  /** The action events among those sent. */
  function Actions(events: seq<Event>): seq<Event> {
    if events == [] then []
    else
      var last := events[|events| - 1];
      Actions(events[..|events| - 1]) + if last.Action? then [last] else []
  }

  /** The events that a history records. */
  function Recorded(history: seq<HistoryItem>): seq<Event> {
    if history == [] then []
    else
      var last := history[|history| - 1];
      Recorded(history[..|history| - 1]) + if last.Acted? then [last.event] else []
  }

  /** The action that an outcome leaves to be recorded. */
  function Owed(r: Exit<Outcome>): seq<Event> {
    if r.Ok? && r.value.observation.Some? && r.value.observation.value.Acted? then [r.value.observation.value.event] else []
  }

  /** One `done`, and nothing after it. */
  predicate OneDoneLast(events: seq<Event>) {
    events != [] && events[|events| - 1].DoneEvent? && Dones(events) == 1
  }

  /** The status that a finished child's `done` stands for. */
  function StatusOf(done: Event): Status
    requires done.DoneEvent?
  {
    if done.success then Completed
    else if done.reply == MAX_ITERATIONS_REPLY then MaxIterations
    else ChildFailed
  }

  // ---------------------------------------------------------------- the world around one agent process

  /** The model, the tools, the skills, the clock and the output directory, shared by an agent and its children. */
  class World {
    const llm: (nat, Question) -> Answer
    const toolRaises: nat -> bool
    const toolFails: nat -> bool
    const skill: (nat, string) -> Lookup
    const skillFile: nat -> Lookup
    const timeUp: nat -> bool
    const exportError: nat -> Option<string>
    const setupRaises: nat -> bool
    const childRaises: nat -> bool
    const fits: nat -> PromptWindow.Counter<HistoryItem>
    var now: nat
    var llmCalls: nat

    constructor (llm: (nat, Question) -> Answer, toolRaises: nat -> bool, toolFails: nat -> bool,
                 skill: (nat, string) -> Lookup, skillFile: nat -> Lookup, timeUp: nat -> bool,
                 exportError: nat -> Option<string>, setupRaises: nat -> bool, childRaises: nat -> bool,
                 fits: nat -> PromptWindow.Counter<HistoryItem>)
      ensures llmCalls == 0
    {
      this.llm, this.toolRaises, this.toolFails, this.skill := llm, toolRaises, toolFails, skill;
      this.skillFile, this.timeUp, this.exportError, this.setupRaises := skillFile, timeUp, exportError, setupRaises;
      this.childRaises, this.fits := childRaises, fits;
      now, llmCalls := 0, 0;
    }

    method Complete(question: Question) returns (a: Answer)
      modifies this
      ensures a == llm(old(now), question) && now == old(now) + 1 && llmCalls == old(llmCalls) + 1
    {
      a := llm(now, question);
      now, llmCalls := now + 1, llmCalls + 1;
    }

    /** Any other question to the world costs no call to the model. */
    method Tick() returns (t: nat)
      modifies `now
      ensures t == old(now) && now == t + 1
    {
      t := now;
      now := now + 1;
    }
  }

  class Agent {
    const world: World
    const config: Config
    const clarifyEnabled: bool
    const hasDeadline: bool
    const threshold: nat
    const maxChildren: nat
    const childCap: nat
    const max: nat
    const childBudget: nat

    // What the host has still to deliver, and what was sent for the current task.
    var inputs: seq<HostEvent>
    var sent: seq<Event>
    var history: seq<HistoryItem>
    var summary: string
    var summarizedCount: nat
    var spawned: nat

    // For the statements only: the decision calls made, the last summary call that returned, how much of the history
    // an earlier task had summarized, which plans were rejected, the ticks of the checks at the loop's boundary,
    // and the turns taken.
    ghost var calls: seq<DecisionCall>
    ghost var lastSummary: Option<SummaryCall>
    ghost var takenOver: nat
    ghost var rejected: nat
    ghost var checks: seq<nat>
    ghost var turns: nat

    // What the history recorded when it was resumed.
    ghost var resumed: seq<Event>

    constructor (world: World, config: Config, clarifyEnabled: bool, hasDeadline: bool, threshold: nat,
                 maxChildren: nat, childCap: nat, inputs: seq<HostEvent>)
      requires config.maxIterations > 0 && threshold > 0 && childCap > 0
      ensures Valid() && this.world == world && this.config == config
      ensures this.clarifyEnabled == clarifyEnabled && this.hasDeadline == hasDeadline
      ensures this.maxChildren == maxChildren && this.childCap == childCap && this.max == config.maxIterations
      ensures this.inputs == inputs && sent == [] && history == [] && spawned == 0 && rejected == 0 && Ledger([])
    {
      this.world, this.config, this.max := world, config, config.maxIterations;
      this.clarifyEnabled, this.hasDeadline, this.threshold := clarifyEnabled, hasDeadline, threshold;
      this.maxChildren, this.childCap, this.inputs := maxChildren, childCap, inputs;
      childBudget := Budget(childCap);
      sent, history, summary, summarizedCount, spawned := [], [], "", 0, 0;
      calls, lastSummary, takenOver, rejected, checks, turns := [], None, 0, 0, [], 0;
      resumed := [];
    }

    ghost predicate Valid()
      reads `history, `summarizedCount, `takenOver, `lastSummary
    {
      && max == config.maxIterations > 0 && threshold > 0 && childCap > 0 && childBudget == Budget(childCap)
      && summarizedCount <= |history|
      && match lastSummary
         case None => summarizedCount == takenOver
         case Some(call) => Returned(call) && call.events == history[..summarizedCount]
    }

    predicate Returned(call: SummaryCall) {
      world.llm(call.at, ForSummary(call.previous, call.events)).Reply?
    }

    function AnswerTo(call: DecisionCall): Answer {
      world.llm(call.at, ForDecision(call.plan, call.activated, call.window,
                                     if call.window.withSummary then call.summary else ""))
    }

    /** The model answered the call with this decision. */
    predicate Decides(call: DecisionCall, d: Decision) {
      AnswerTo(call).Reply? && AnswerTo(call).action == Some(d)
    }

    /** How much of a past is older than the window. */
    function Older(past: seq<HistoryItem>): nat {
      |past| - Min(threshold, |past|)
    }

    /** Every event of the past is in the window that was fitted, or older than it and then summarized by an earlier
        task or handed to a summary call that returned. */
    ghost predicate Sound(call: DecisionCall, takenOver: nat) {
      && PromptWindow.Fitted(call.past[Older(call.past)..], call.summary != "", world.fits(call.counted), call.window)
      && (Older(call.past) <= takenOver ||
          (call.summarized.Some? && Returned(call.summarized.value)
           && call.past[..Older(call.past)] <= call.summarized.value.events <= call.past))
    }

    ghost predicate AllSound(calls: seq<DecisionCall>, takenOver: nat)
      decreases |calls|
    {
      calls == [] || (Sound(calls[|calls| - 1], takenOver) && AllSound(calls[..|calls| - 1], takenOver))
    }

    /** The last check at the loop's boundary found the time used up. */
    predicate DeadlineHit(checks: seq<nat>) {
      hasDeadline && checks != [] && world.timeUp(checks[|checks| - 1])
    }

    predicate OnTime(checks: seq<nat>, turns: nat) {
      OnTimeBefore(checks, turns) && !DeadlineHit(checks)
    }

    /** No other check did, and every turn was taken after one that did not. */
    predicate OnTimeBefore(checks: seq<nat>, turns: nat) {
      && |checks| == turns + (if DeadlineHit(checks) then 1 else 0)
      && forall i | 0 <= i < turns && hasDeadline :: !world.timeUp(checks[i])
    }

    /** The history records what it was resumed with and, in order, every action sent in this task but those owed. */
    ghost predicate Ledger(owed: seq<Event>)
      reads `sent, `history, `resumed
    {
      Recorded(history) + owed == resumed + Actions(sent)
    }

    /** Calls beyond those that rejected plans and children account for. */
    ghost function Spent(): int
      reads this, world
    {
      world.llmCalls - Times(rejected, max) - Times(spawned, childBudget)
    }

    /** What everything up to the end of a task has in common: no `done`, and nothing sent or recorded is taken back. */
    twostate predicate Quiet()
      reads `sent, `history, `spawned, `takenOver, `resumed
    {
      && SendsNoDone() && SameTask()
      && old(history) <= history && old(spawned) <= spawned && takenOver == old(takenOver)
    }

    twostate predicate SameTask()
      reads `resumed
    {
      resumed == old(resumed)
    }

    twostate predicate SendsNoDone()
      reads `sent
    {
      old(sent) <= sent && Dones(sent) == Dones(old(sent))
    }

    /** Of this task, exactly one `done` was sent, as the last event; success means a non-blank `agent_done`, unspoilt. */
    ghost predicate EndsInDone()
      reads `sent, `calls
    {
      OneDoneLast(sent) && (sent[|sent| - 1].success ==> Earned(sent[|sent| - 1]))
    }

    ghost predicate Earned(done: Event)
      requires done.DoneEvent?
      reads `calls
    {
      && !done.exportError && calls != []
      && Decides(calls[|calls| - 1], AgentDone(Text(done.reply))) && !IsBlank(done.reply)
    }

    method Send(e: Event)
      modifies `sent
      ensures sent == old(sent) + [e]
      ensures Actions(sent) == Actions(old(sent)) + if e.Action? then [e] else []
      ensures Dones(sent) == Dones(old(sent)) + if e.DoneEvent? then 1 else 0
    {
      sent := sent + [e];
      assert sent[..|sent| - 1] == old(sent);
    }

    /** `_observe`. */
    method Observe(item: HistoryItem)
      requires Ledger(if item.Acted? then [item.event] else [])
      modifies `history
      ensures Ledger([]) && history == old(history) + [item]
    {
      history := history + [item];
      assert history[..|history| - 1] == old(history);
    }

    /** A message for the user. */
    method Say(role: Role)
      requires Valid() && Ledger([])
      modifies `sent
      ensures Valid() && Ledger([]) && Quiet() && sent == old(sent) + [Message(role)]
    {
      Send(Message(role));
    }

    /** An action event that is yet to be observed. */
    method Emit(tool: string, failed: bool, plan: Plan) returns (r: Exit<Outcome>)
      requires Valid() && Ledger([])
      modifies `sent
      ensures Valid() && Ledger(Owed(r)) && Quiet() && sent == old(sent) + [Action(tool, failed)]
      ensures r == Ok(Outcome(false, plan, Some(Acted(Action(tool, failed))), false))
    {
      OneMoreOwed(Recorded(history), resumed, Actions(sent), Action(tool, failed));
      Send(Action(tool, failed));
      r := Ok(Outcome(false, plan, Some(Acted(Action(tool, failed))), false));
    }

    /** Sends an action event and records it. */
    method SendAndRecord(e: Event)
      requires Valid() && Ledger([]) && e.Action?
      modifies `sent, `history
      ensures Valid() && Ledger([]) && Quiet()
      ensures sent == old(sent) + [e] && history == old(history) + [Acted(e)]
    {
      OneMoreOwed(Recorded(history), resumed, Actions(sent), e);
      Send(e);
      Observe(Acted(e));
    }

    /** `_wait_for_user_reply`. */
    method WaitForUserReply() returns (r: Exit<HostEvent>)
      modifies `inputs
      ensures var rest := FromFirstAnswer(old(inputs));
              if rest == [] then r == Blocked
              else inputs == rest[1..] && r == if rest[0].UserReply? then Ok(rest[0]) else AgentFailure
      ensures |inputs| <= |old(inputs)| && (r.Ok? ==> |inputs| < |old(inputs)|)
    {
      while inputs != []
        invariant |inputs| <= |old(inputs)| && FromFirstAnswer(inputs) == FromFirstAnswer(old(inputs))
        decreases |inputs|
      {
        var e := inputs[0];
        inputs := inputs[1..];
        match e {
          case StopRequest => return AgentFailure;
          case UserReply(_, _) => return Ok(e);
          case OtherEvent =>
        }
      }
      r := Blocked;
    }

    /** `_generate_plan` and what is sent about its outcome. */
    method Propose(feedback: Option<string>) returns (a: Answer)
      requires Valid() && Ledger([])
      modifies world, `sent, `history
      ensures Valid() && Ledger([]) && Quiet()
      ensures world.llmCalls == old(world.llmCalls) + 1 && world.now == old(world.now) + 1
      ensures a == world.llm(old(world.now), ForPlan(feedback))
      ensures sent == old(sent) + match a
                                  case Reply(_, _, _) => [Message(PlanRole)]
                                  case RuntimeError => [Action("agent_decision_error", true)]
                                  case OtherError => []
    {
      a := world.Complete(ForPlan(feedback));
      if a.RuntimeError? {
        SendAndRecord(Action("agent_decision_error", true));
      } else if a.Reply? {
        Say(PlanRole);
      }
    }

    /** Waiting for the user's verdict on a plan. */
    method Verdict(plan: Plan) returns (turn: PlanTurn)
      modifies `inputs, `rejected
      ensures |inputs| <= |old(inputs)|
      ensures rejected == old(rejected) + if turn.Rejected? then 1 else 0
      ensures var rest := FromFirstAnswer(old(inputs));
              turn == if rest == [] then Ended(Blocked) else if rest[0].StopRequest? then Ended(AgentFailure)
                      else if rest[0].approved then Planned(plan) else Rejected(rest[0].text)
      ensures turn.Rejected? ==> |inputs| < |old(inputs)|
    {
      var reply := WaitForUserReply();
      if !reply.Ok? {
        return Ended(if reply.Blocked? then Blocked else AgentFailure);
      }
      if reply.value.approved {
        return Planned(plan);
      }
      rejected := rejected + 1;
      turn := Rejected(reply.value.text);
    }

    /** One turn of the planning loop: a call to the model, and under review the user's verdict. */
    method PlanOnce(approval: Approval, feedback: Option<string>) returns (turn: PlanTurn)
      requires Valid() && Ledger([])
      modifies world, `sent, `history, `inputs, `rejected
      ensures Valid() && Ledger([]) && Quiet()
      ensures rejected == old(rejected) + if turn.Rejected? then 1 else 0
      ensures world.llmCalls == old(world.llmCalls) + 1 && world.now == old(world.now) + 1
      ensures |inputs| <= |old(inputs)| && (turn.Rejected? ==> |inputs| < |old(inputs)|)
      ensures approval == Auto ==> inputs == old(inputs) && !turn.Rejected? && turn != Ended(Blocked)
      ensures turn.Ended? ==> turn.exit in {AgentFailure, Crash, Blocked}
      ensures var a := world.llm(old(world.now), ForPlan(feedback));
              && (a.OtherError? <==> turn == Ended(Crash)) && (a.RuntimeError? <==> turn.Errored?)
              && (turn.Planned? ==> a.Reply? && turn.plan == a.plan)
              && (approval == Auto && a.Reply? ==> turn.Planned?)
    {
      var a := Propose(feedback);
      match a {
        case OtherError => turn := Ended(Crash);
        case RuntimeError => turn := Errored;
        case Reply(_, plan, _) =>
          turn := Planned(plan);
          if approval == Review {
            turn := Verdict(plan);
          }
      }
    }

    /** The last `n` answers before tick `now`, none before `start`, were errors of the model to this question. */
    predicate FailedInARow(n: nat, feedback: Option<string>, start: nat, now: nat) {
      n <= now - start && forall t: nat | now - n <= t < now :: world.llm(t, ForPlan(feedback)).RuntimeError?
    }

    /** `_planning_phase`: the error count restarts with every plan, so only rejected plans make it longer.  The last
        answer, to the question with feedback `asked`, decides: its plan is returned, an error that is not the
        model's passes through, and a model error ends the phase when it is the `max`-th in a row. */
    method PlanningPhase(approval: Approval) returns (r: Exit<Plan>, ghost asked: Option<string>)
      requires Valid() && Ledger([])
      modifies world, `sent, `history, `inputs, `rejected
      ensures Valid() && Ledger([]) && Quiet()
      ensures Spent() <= old(Spent()) + max
      ensures r.Ok? || r in {AgentFailure, Crash, Blocked}
      ensures |inputs| <= |old(inputs)|
      ensures approval == Auto ==> rejected == old(rejected) && inputs == old(inputs) && !r.Blocked? && asked == None
      ensures world.now > old(world.now)
      ensures var a := world.llm(world.now - 1, ForPlan(asked));
              && (r.Ok? ==> a.Reply? && r.value == a.plan)
              && (r.Crash? <==> a.OtherError?)
              && (a.Reply? && approval == Auto ==> r.Ok?)
              && (a.RuntimeError? ==> r == AgentFailure && FailedInARow(max, asked, old(world.now), world.now))
    {
      asked := None;
      var feedback: Option<string> := None;
      var errors := 0;
      while true
        invariant Valid() && Ledger([]) && Quiet()
        invariant 0 <= errors < max && |inputs| <= |old(inputs)|
        invariant Spent() <= old(Spent()) + errors
        invariant old(world.now) <= world.now && FailedInARow(errors, feedback, old(world.now), world.now)
        invariant approval == Auto ==> rejected == old(rejected) && inputs == old(inputs) && feedback == None
        decreases |inputs|, max - errors
      {
        asked := feedback;
        var turn := PlanOnce(approval, feedback);
        match turn {
          case Planned(plan) => return Ok(plan), asked;
          case Ended(exit) => return exit, asked;
          case Rejected(text) => errors, feedback := 0, Some(text);
          case Errored =>
            errors := errors + 1;
            if errors >= max {
              return AgentFailure, asked;
            }
        }
      }
    }

    /** The model's last answer, to some feedback or none, was this plan. */
    ghost predicate Proposed(plan: Plan)
      reads world
    {
      world.now > 0 && exists asked :: var a := world.llm(world.now - 1, ForPlan(asked)); a.Reply? && a.plan == plan
    }

    /** A planning phase, for the callers that do not look at why one fails. */
    method NewPlan(approval: Approval) returns (r: Exit<Plan>)
      requires Valid() && Ledger([])
      modifies world, `sent, `history, `inputs, `rejected
      ensures Valid() && Ledger([]) && Quiet()
      ensures Spent() <= old(Spent()) + max
      ensures if r.Ok? then Proposed(r.value) else r in {AgentFailure, Crash, Blocked}
      ensures |inputs| <= |old(inputs)|
      ensures approval == Auto ==> rejected == old(rejected) && inputs == old(inputs) && !r.Blocked?
    {
      ghost var asked;
      r, asked := PlanningPhase(approval);
    }

    /** At tick `t` the lookup of the `i`-th referenced skill, which is not blank, gave this answer. */
    ghost predicate LookedUp(plan: Plan, i: nat, t: nat, answer: Lookup) {
      i < |plan.referencedSkills| && !IsBlank(plan.referencedSkills[i]) && world.skill(t, plan.referencedSkills[i]) == answer
    }

    /** `get_doc` for every referenced skill; `Ok(None)` is an unknown one. */
    method ActivateAll(plan: Plan) returns (r: Exit<Option<set<string>>>)
      modifies world`now
      ensures r.Ok? || r.Crash?
      ensures r.Ok? && r.value.Some? ==> r.value.value == set n | n in plan.referencedSkills && !IsBlank(n)
      ensures r.Ok? && r.value.Some? ==>
                forall i: nat | i < |plan.referencedSkills| && !IsBlank(plan.referencedSkills[i]) ::
                  exists t :: LookedUp(plan, i, t, Found)
      ensures r == Ok(None) ==> exists i, t :: LookedUp(plan, i, t, Unknown)
      ensures r.Crash? ==> exists i, t :: LookedUp(plan, i, t, LookupRaises)
    {
      var activated: set<string> := {};
      for i := 0 to |plan.referencedSkills|
        invariant activated == set n | n in plan.referencedSkills[..i] && !IsBlank(n)
        invariant forall k: nat | k < i && !IsBlank(plan.referencedSkills[k]) :: exists t :: LookedUp(plan, k, t, Found)
      {
        var name := plan.referencedSkills[i];
        if !IsBlank(name) {
          var t := world.Tick();
          var answer := world.skill(t, name);
          assert LookedUp(plan, i, t, answer);
          match answer {
            case Found => activated := activated + {name};
            case Unknown => return Ok(None);
            case LookupRaises => return Crash;
          }
        }
      }
      assert plan.referencedSkills[..|plan.referencedSkills|] == plan.referencedSkills;
      r := Ok(Some(activated));
    }

    /** A plan with an unknown skill is reported and planned anew. */
    method ReplacePlan(approval: Approval) returns (r: Exit<Plan>)
      requires Valid() && Ledger([])
      modifies world, `sent, `history, `inputs, `rejected
      ensures Valid() && Ledger([]) && Quiet()
      ensures Spent() <= old(Spent()) + max
      ensures if r.Ok? then Proposed(r.value) else r in {AgentFailure, Crash, Blocked}
      ensures |inputs| <= |old(inputs)|
      ensures approval == Auto ==> rejected == old(rejected) && inputs == old(inputs) && !r.Blocked?
    {
      Say(StatusRole);
      r := NewPlan(approval);
    }

    /** `_activate_referenced_skills`: three plans with unknown skills are replaced, a fourth try is not made. */
    method ActivateReferencedSkills(approval: Approval, first: Plan) returns (r: Exit<(Plan, set<string>)>)
      requires Valid() && Ledger([])
      modifies world, `sent, `history, `inputs, `rejected
      ensures Valid() && Ledger([]) && Quiet()
      ensures Spent() <= old(Spent()) + 3 * max
      ensures r.Ok? || r in {AgentFailure, Crash, Blocked}
      ensures r.Ok? ==> r.value.1 == set n | n in r.value.0.referencedSkills && !IsBlank(n)
      ensures |inputs| <= |old(inputs)|
      ensures approval == Auto ==> rejected == old(rejected) && inputs == old(inputs) && !r.Blocked?
    {
      var plan := first;
      var attempts := 0;
      ghost var paid := 0;
      while attempts < MAX_ACTIVATION_ATTEMPTS
        invariant Valid() && Ledger([]) && Quiet()
        invariant 0 <= attempts <= MAX_ACTIVATION_ATTEMPTS && |inputs| <= |old(inputs)|
        invariant Spent() <= old(Spent()) + paid
        invariant paid == if attempts == 0 then 0 else if attempts == 1 then max else if attempts == 2 then 2 * max
                          else 3 * max
        invariant approval == Auto ==> rejected == old(rejected) && inputs == old(inputs)
      {
        attempts, paid := attempts + 1, paid + max;
        var activation := ActivateAll(plan);
        if activation.Crash? {
          return Crash;
        }
        if activation.value.Some? {
          return Ok((plan, activation.value.value));
        }
        var replacement := ReplacePlan(approval);
        if !replacement.Ok? {
          return Passed(replacement);
        }
        plan := replacement.value;
      }
      r := AgentFailure;
    }

    /** `_recent_history`: the window, after a summary call over everything older when that has grown; one that
        fails changes nothing, so the next build tries again. */
    method RecentHistory() returns (r: Exit<seq<HistoryItem>>)
      requires Valid()
      modifies world, `summary, `summarizedCount, `lastSummary
      ensures Valid()
      ensures old(summarizedCount) < Older(history) ==>
                var call := SummaryCall(old(world.now), old(summary), history[..Older(history)]);
                && world.llmCalls == old(world.llmCalls) + 1 && world.now == old(world.now) + 1
                && match world.llm(call.at, ForSummary(call.previous, call.events))
                   case RuntimeError => r == LlmFailure && summary == old(summary) && lastSummary == old(lastSummary)
                   case OtherError => r == Crash && summary == old(summary) && lastSummary == old(lastSummary)
                   case Reply(text, _, _) =>
                     r.Ok? && lastSummary == Some(call) && summary == if IsBlank(text) then old(summary) else text
      ensures Older(history) <= old(summarizedCount) ==>
                && r.Ok? && world.llmCalls == old(world.llmCalls) && world.now == old(world.now)
                && summary == old(summary) && lastSummary == old(lastSummary)
      ensures r.Ok? ==> r.value == history[Older(history)..] && Older(history) <= summarizedCount
    {
      if |history| <= threshold {
        return Ok(history);
      }
      var cutoff := |history| - threshold;
      if cutoff > summarizedCount {
        ghost var call := SummaryCall(world.now, summary, history[..cutoff]);
        var a := world.Complete(ForSummary(summary, history[..cutoff]));
        match a {
          case RuntimeError => return LlmFailure;
          case OtherError => return Crash;
          case Reply(text, _, _) =>
            if !IsBlank(text) {
              summary := text;
            }
        }
        summarizedCount := cutoff;
        lastSummary := Some(call);
      }
      r := Ok(history[cutoff..]);
    }

    /** `_execution_decision`: the summary call if one is due, then one decision call over the fitted window. */
    method ExecutionDecision(plan: Plan, activated: set<string>) returns (r: Exit<Decision>)
      requires Valid()
      modifies world, `summary, `summarizedCount, `lastSummary, `calls
      ensures Valid()
      ensures old(world.llmCalls) + |calls| - |old(calls)| <= world.llmCalls <= old(world.llmCalls) + 1 + |calls| - |old(calls)|
      ensures r.Ok? || r in {AgentFailure, LlmFailure, Crash}
      ensures (r.Ok? || r.AgentFailure?) ==> calls != old(calls)
      ensures calls == old(calls) ||
              (calls != [] && calls == old(calls) + [calls[|calls| - 1]] && AskedNow(calls[|calls| - 1], plan, activated, r)
               && old(world.now) <= calls[|calls| - 1].at < world.now)
    {
      var recent := RecentHistory();
      match recent {
        case LlmFailure => return LlmFailure;
        case Crash => return Crash;
        case Ok(events) =>
          var counted := world.Tick();
          var window := PromptWindow.Fit(events, summary != "", world.fits(counted));
          ghost var call := DecisionCall(world.now, counted, history, summary, window, plan, activated, lastSummary);
          var a := world.Complete(ForDecision(plan, activated, window, if window.withSummary then summary else ""));
          calls := calls + [call];
          match a {
            case RuntimeError => return LlmFailure;
            case OtherError => return Crash;
            case Reply(_, _, action) =>
              if action.None? {
                return AgentFailure;
              }
              return Ok(action.value);
          }
      }
    }

    /** The call was built soundly from the present history, and its answer is the outcome. */
    ghost predicate AskedNow(call: DecisionCall, plan: Plan, activated: set<string>, r: Exit<Decision>)
      reads `history, `summary, `takenOver
    {
      && call.past == history && call.summary == summary && call.plan == plan && call.activated == activated
      && Sound(call, takenOver)
      && match AnswerTo(call)
         case RuntimeError => r == LlmFailure
         case OtherError => r == Crash
         case Reply(_, _, None) => r == AgentFailure
         case Reply(_, _, Some(d)) => r == Ok(d)
    }

    /** `_choose_next_decision`: a failed call or an unusable answer costs the turn. */
    method ChooseNextDecision(plan: Plan, activated: set<string>) returns (r: Exit<Option<Decision>>)
      requires Valid() && Ledger([]) && AllSound(calls, takenOver)
      modifies world, `summary, `summarizedCount, `lastSummary, `calls, `sent, `history
      ensures Valid() && Ledger([]) && Quiet() && AllSound(calls, takenOver)
      ensures old(world.llmCalls) <= world.llmCalls <= old(world.llmCalls) + 2
      ensures r.Ok? || r.Crash?
      ensures r.Ok? && r.value.Some? ==> calls != [] && Decides(calls[|calls| - 1], r.value.value)
      ensures sent == old(sent) + if r == Ok(None) then [Action("agent_decision_error", true)] else []
    {
      var d := ExecutionDecision(plan, activated);
      assert calls != old(calls) ==> calls[..|calls| - 1] == old(calls);
      if d.Ok? {
        return Ok(Some(d.value));
      }
      if d.Crash? {
        return Crash;
      }
      SendAndRecord(Action("agent_decision_error", true));
      r := Ok(None);
    }

    /** `_build_done_event`: an export error turns success into failure. */
    method BuildDone(success: bool, reply: string) returns (done: Event)
      modifies world`now
      ensures done.DoneEvent? && done.success == (success && !done.exportError)
      ensures !done.exportError ==> done.reply == reply
    {
      var t := world.Tick();
      match world.exportError(t) {
        case None => done := DoneEvent(success, reply, false);
        case Some(error) => done := DoneEvent(false, reply + "\n\nOutput export error: " + error, true);
      }
    }

    /** The `done` of an `agent_done` with a non-blank reply. */
    predicate IsDoneOf(done: Event, d: Decision) {
      && d.AgentDone? && d.reply.Text? && !IsBlank(d.reply.text)
      && done.DoneEvent? && done.success == !done.exportError && (done.success ==> done.reply == d.reply.text)
    }

    /** Exactly that was sent. */
    twostate predicate SendsDoneOf(d: Decision)
      reads `sent
    {
      |sent| == |old(sent)| + 1 && IsDoneOf(sent[|old(sent)|], d) && sent == old(sent) + [sent[|old(sent)|]]
    }

    ghost predicate EndsInDoneOf(d: Decision)
      reads `sent
    {
      OneDoneLast(sent) && IsDoneOf(sent[|sent| - 1], d)
    }

    /** What an outcome says about the events sent since: a finished one sent the `done` of a non-blank reply. */
    twostate predicate Acts(d: Decision, new r: Exit<Outcome>)
      reads this
    {
      if r.Ok? && r.value.finished then
        && SendsDoneOf(d) && r.value.observation.None? && !r.value.replanned
        && history == old(history) && spawned == old(spawned) && takenOver == old(takenOver) && SameTask()
      else Quiet()
    }

    method FinishTask(d: Decision, plan: Plan) returns (r: Exit<Outcome>)
      requires Valid() && Ledger([]) && d.AgentDone?
      modifies `sent, world`now
      ensures Valid() && Ledger(Owed(r)) && Acts(d, r) && r.Ok? && !r.value.replanned
      ensures world.llmCalls == old(world.llmCalls)
      ensures r.value.finished <==> d.reply.Text? && !IsBlank(d.reply.text)
    {
      if !d.reply.Text? || IsBlank(d.reply.text) {
        r := Emit("agent_done", true, plan);
      } else {
        var done := BuildDone(true, d.reply.text);
        Send(done);
        r := Ok(Outcome(true, plan, None, false));
      }
    }

    method AskUser(d: Decision, plan: Plan) returns (r: Exit<Outcome>)
      requires Valid() && Ledger([]) && d.AgentClarify?
      modifies `sent, `inputs
      ensures Valid() && Ledger(Owed(r)) && Quiet() && |inputs| <= |old(inputs)|
      ensures !clarifyEnabled || d.question.NotText? ==>
                && inputs == old(inputs) && sent == old(sent) + [Action("agent_clarify", true)]
                && r == Ok(Outcome(false, plan, Some(Acted(Action("agent_clarify", true))), false))
      ensures clarifyEnabled && !d.question.NotText? ==>
                && sent == old(sent) + [Message(ClarificationRole)]
                && var rest := FromFirstAnswer(old(inputs));
                   r == if rest == [] then Blocked else if rest[0].StopRequest? then AgentFailure
                        else Ok(Outcome(false, plan, Some(Clarified(QuestionOf(d.question), rest[0].text)), false))
    {
      if !clarifyEnabled || d.question.NotText? {
        r := Emit("agent_clarify", true, plan);
        return;
      }
      Say(ClarificationRole);
      var reply := WaitForUserReply();
      r := if reply.Ok? then Ok(Outcome(false, plan, Some(Clarified(QuestionOf(d.question), reply.value.text)), false))
           else Passed(reply);
    }

    method Replan(d: Decision, approval: Approval, plan: Plan) returns (r: Exit<Outcome>)
      requires Valid() && Ledger([]) && d.AgentReplan?
      modifies world, `sent, `history, `inputs, `rejected
      ensures Valid() && Ledger(Owed(r)) && Quiet()
      ensures Spent() <= old(Spent()) + max && |inputs| <= |old(inputs)|
      ensures r.Ok? || r in {AgentFailure, Crash, Blocked}
      ensures r.Ok? ==> !r.value.finished && (r.value.replanned <==> !d.feedback.NotText?)
      ensures r.Ok? && r.value.replanned ==>
                && Proposed(r.value.plan)
                && r.value.observation == if d.feedback.Text? && d.feedback.text != "" then Some(Replanned(d.feedback.text))
                                          else None
      ensures r.Ok? && !r.value.replanned ==> Spent() <= old(Spent())
      ensures approval == Auto ==> rejected == old(rejected) && inputs == old(inputs) && !r.Blocked?
    {
      if d.feedback.NotText? {
        r := Emit("agent_replan", true, plan);
      } else {
        var p := NewPlan(approval);
        if p.Ok? {
          r := Ok(Outcome(false, p.value,
                          if d.feedback.Text? && d.feedback.text != "" then Some(Replanned(d.feedback.text)) else None,
                          true));
        } else {
          r := Passed(p);
        }
      }
    }

    method ReadFile(d: Decision, plan: Plan, activated: set<string>) returns (r: Exit<Outcome>)
      requires Valid() && Ledger([]) && d.ReadSkillFile?
      modifies `sent, world`now
      ensures Valid() && Ledger(Owed(r)) && Quiet() && world.llmCalls == old(world.llmCalls)
      ensures var refused := !Names(d.skill) || !Names(d.path) || d.skill.text !in activated;
              var lookup := world.skillFile(old(world.now));
              if !refused && lookup.LookupRaises? then r == Crash && sent == old(sent)
              else
                var e := Action("agent_read_skill_file", refused || lookup.Unknown?);
                sent == old(sent) + [e] && r == Ok(Outcome(false, plan, Some(Acted(e)), false))
    {
      if !Names(d.skill) || !Names(d.path) || d.skill.text !in activated {
        r := Emit("agent_read_skill_file", true, plan);
        return;
      }
      var t := world.Tick();
      var found := world.skillFile(t);
      if found.LookupRaises? {
        return Crash;
      }
      r := Emit("agent_read_skill_file", found.Unknown?, plan);
    }

    method UseTool(d: Decision, plan: Plan) returns (r: Exit<Outcome>)
      requires Valid() && Ledger([]) && d.CallTool?
      modifies `sent, world`now
      ensures Valid() && Ledger(Owed(r)) && Quiet() && world.llmCalls == old(world.llmCalls)
      ensures if world.toolRaises(old(world.now)) then r == Crash && sent == old(sent)
              else
                var e := Action(d.name, world.toolFails(old(world.now)));
                sent == old(sent) + [e] && r == Ok(Outcome(false, plan, Some(Acted(e)), false))
    {
      var t := world.Tick();
      if world.toolRaises(t) {
        return Crash;
      }
      r := Emit(d.name, world.toolFails(t), plan);
    }

    /** `_resume_context`: what is older than the window counts as summarized by the earlier task. */
    method ResumeContext(task: Task)
      requires Valid()
      modifies `history, `summary, `summarizedCount, `lastSummary, `takenOver
      ensures Valid() && history == task.history && lastSummary == None && takenOver == Older(history)
      ensures summary == if IsBlank(task.summary) then "" else task.summary
    {
      history, summary := task.history, if IsBlank(task.summary) then "" else task.summary;
      summarizedCount := Max(0, |history| - threshold);
      lastSummary, takenOver := None, summarizedCount;
    }

    /** The resets at the start of a task; `sent` and the ghost logs are per task. */
    method BeginTask(task: Task)
      requires Valid()
      modifies `history, `summary, `summarizedCount, `spawned, `calls, `lastSummary, `rejected, `takenOver, `checks, `turns,
        `sent, `resumed
      ensures Valid() && Ledger([]) && sent == [] && resumed == Recorded(task.history)
      ensures history == task.history && lastSummary == None && takenOver == Older(history)
      ensures spawned == 0 && rejected == 0 && calls == [] && checks == [] && turns == 0
    {
      ResumeContext(task);
      spawned, calls, rejected, checks, turns := 0, [], 0, [], 0;
      resumed, sent := Recorded(history), [];
      assert Actions(sent) == [] && resumed + [] == resumed;
    }

    method SendDone(success: bool, reply: string) returns (done: Event)
      requires Ledger([])
      modifies `sent, world`now
      ensures Ledger([])
      ensures sent == old(sent) + [done] && done.DoneEvent? && done.success == (success && !done.exportError)
      ensures !done.exportError ==> done.reply == reply
    {
      done := BuildDone(success, reply);
      Send(done);
    }

    /** Planning and skill activation before the loop. */
    method Prepare(task: Task) returns (r: Exit<(Plan, set<string>)>)
      requires Valid() && Ledger([])
      modifies world, `sent, `history, `inputs, `rejected
      ensures Valid() && Ledger([]) && Quiet()
      ensures Spent() <= old(Spent()) + 4 * max
      ensures r.Ok? || r in {AgentFailure, Crash, Blocked}
      ensures |inputs| <= |old(inputs)|
      ensures task.approval == Auto ==> rejected == old(rejected) && inputs == old(inputs) && !r.Blocked?
    {
      var plan := task.plan;
      if plan.None? {
        var first := NewPlan(task.approval);
        if !first.Ok? {
          return Passed(first);
        }
        plan := Some(first.value);
      }
      r := ActivateReferencedSkills(task.approval, plan.value);
    }

    /** One turn of the loop; `finished` once its `done` is out. */
    method Turn(approval: Approval, plan: Plan, activated: set<string>) returns (r: Exit<(bool, Plan, set<string>)>)
      requires Valid() && Ledger([]) && AllSound(calls, takenOver) && ChildrenWithin() && NoDone(sent)
      modifies world, `summary, `summarizedCount, `lastSummary, `calls, `sent, `history, `inputs, `rejected, `spawned, `turns
      ensures Valid() && Ledger([]) && AllSound(calls, takenOver) && ChildrenWithin()
      ensures turns == old(turns) + 1
      ensures if r.Ok? && r.value.0 then EndsInDone() else NoDone(sent)
      ensures Spent() <= old(Spent()) + 4 * max + 2
      ensures r.Ok? || r in {AgentFailure, Crash, Blocked}
      ensures approval == Auto ==> rejected == old(rejected)
      ensures approval == Auto && !clarifyEnabled ==> inputs == old(inputs) && !r.Blocked?
      decreases if MaySpawn(config) then 1 else 0, 3, 1
    {
      turns := turns + 1;
      var choice := ChooseNextDecision(plan, activated);
      if choice.Crash? {
        r := Crash;
      } else if choice.value.None? {
        r := Ok((false, plan, activated));
      } else {
        r := CarryOut(choice.value.value, approval, plan, activated);
      }
    }

    /** Acting on a decision and observing what came of it. */
    method CarryOut(d: Decision, approval: Approval, plan: Plan, activated: set<string>)
      returns (r: Exit<(bool, Plan, set<string>)>)
      requires Valid() && Ledger([]) && ChildrenWithin() && NoDone(sent)
      modifies world, `sent, `history, `inputs, `rejected, `spawned
      ensures Valid() && Ledger([]) && ChildrenWithin()
      ensures if r.Ok? && r.value.0 then EndsInDoneOf(d) else NoDone(sent)
      ensures Spent() <= old(Spent()) + 4 * max
      ensures r.Ok? || r in {AgentFailure, Crash, Blocked}
      ensures approval == Auto ==> rejected == old(rejected)
      ensures approval == Auto && !clarifyEnabled ==> inputs == old(inputs) && !r.Blocked?
      decreases if MaySpawn(config) then 1 else 0, 3, 0
    {
      var acted := ActOnDecision(d, approval, plan, activated);
      if !acted.Ok? {
        r := Passed(acted);
      } else {
        var concluded := Conclude(acted.value, approval, activated);
        r := if concluded.Ok? then Ok((acted.value.finished, concluded.value.0, concluded.value.1)) else Passed(concluded);
      }
    }

    ghost predicate ChildrenWithin()
      reads `spawned
    {
      spawned <= maxChildren && (MaySpawn(config) || spawned == 0)
    }

    /** A new plan gets its skills activated, then the outcome is observed. */
    method Conclude(outcome: Outcome, approval: Approval, activated: set<string>) returns (r: Exit<(Plan, set<string>)>)
      requires Valid() && Ledger(Owed(Ok(outcome))) && (outcome.replanned ==> Owed(Ok(outcome)) == [])
      modifies world, `sent, `history, `inputs, `rejected
      ensures Valid() && Ledger([]) && Quiet()
      ensures Spent() <= old(Spent()) + if outcome.replanned then 3 * max else 0
      ensures r.Ok? || (outcome.replanned && r in {AgentFailure, Crash, Blocked})
      ensures !outcome.replanned ==> sent == old(sent) && r == Ok((outcome.plan, activated)) && inputs == old(inputs)
      ensures !outcome.replanned && outcome.observation.Some? ==> history == old(history) + [outcome.observation.value]
      ensures r.Ok? && outcome.observation.Some? ==> history != [] && history[|history| - 1] == outcome.observation.value
      ensures r.Ok? && outcome.replanned ==> r.value.1 == set n | n in r.value.0.referencedSkills && !IsBlank(n)
      ensures approval == Auto ==> rejected == old(rejected) && inputs == old(inputs) && !r.Blocked?
    {
      r := Ok((outcome.plan, activated));
      if outcome.replanned {
        r := ActivateReferencedSkills(approval, outcome.plan);
        if !r.Ok? {
          return;
        }
      }
      if outcome.observation.Some? {
        Observe(outcome.observation.value);
      }
    }

    /** The end of a task that could not be planned. */
    method GiveUp()
      requires Valid() && Ledger([]) && NoDone(sent)
      modifies `sent, `history, world`now
      ensures Valid() && Ledger([]) && OneDoneLast(sent) && !sent[|sent| - 1].success
    {
      SendAndRecord(Action("agent_decision_error", true));
      var done := SendDone(false, "Unable to continue");
    }

    /** `_run_task`: `Ok(true)` is the silent return at the deadline. */
    method RunTask(task: Task) returns (r: Exit<bool>)
      requires Valid() && Ledger([])
      modifies this, world
      ensures Valid() && Ledger([]) && AllSound(calls, takenOver) && ChildrenWithin()
      ensures resumed == Recorded(task.history)
      ensures if r == Ok(false) then EndsInDone() else NoDone(sent)
      ensures OnTimeBefore(checks, turns) && (r == Ok(true) <==> DeadlineHit(checks))
      ensures r.Ok? || r in {AgentFailure, Crash, Blocked}
      ensures Spent() <= old(world.llmCalls) + Budget(max)
      ensures task.approval == Auto ==> rejected == 0
      ensures task.approval == Auto && !clarifyEnabled ==> inputs == old(inputs) && !r.Blocked?
      decreases if MaySpawn(config) then 1 else 0, 4, 3
    {
      var t := world.Tick();
      BeginTask(task);
      BudgetInTurns(max);
      if world.setupRaises(t) {
        return Crash;
      }
      r := PlanAndExecute(task);
    }

    /** Planning, then the loop; a task that cannot be planned ends at once. */
    method PlanAndExecute(task: Task) returns (r: Exit<bool>)
      requires Valid() && Ledger([]) && sent == [] && calls == [] && checks == [] && turns == 0 && spawned == 0
      modifies world, `summary, `summarizedCount, `lastSummary, `calls, `sent, `history, `inputs, `rejected, `spawned, `turns,
        `checks
      ensures Valid() && Ledger([]) && AllSound(calls, takenOver) && ChildrenWithin()
      ensures if r == Ok(false) then EndsInDone() else NoDone(sent)
      ensures OnTimeBefore(checks, turns) && (r == Ok(true) <==> DeadlineHit(checks))
      ensures r.Ok? || r in {AgentFailure, Crash, Blocked}
      ensures Spent() <= old(Spent()) + 4 * max + Times(max, 4 * max + 2)
      ensures task.approval == Auto ==> rejected == old(rejected)
      ensures task.approval == Auto && !clarifyEnabled ==> inputs == old(inputs) && !r.Blocked?
      decreases if MaySpawn(config) then 1 else 0, 4, 2
    {
      var prepared := Prepare(task);
      if prepared.AgentFailure? {
        GiveUp();
        r := Ok(false);
      } else if !prepared.Ok? {
        r := Passed(prepared);
      } else {
        r := Execute(task.approval, prepared.value.0, prepared.value.1);
      }
    }

    /** One iteration of the loop: the check at its boundary and, in time, a turn; `None` is the silent end. */
    method Iterate(approval: Approval, plan: Plan, activated: set<string>)
      returns (r: Exit<Option<(bool, Plan, set<string>)>>)
      requires Valid() && Ledger([]) && AllSound(calls, takenOver) && ChildrenWithin() && OnTime(checks, turns) && NoDone(sent)
      modifies world, `summary, `summarizedCount, `lastSummary, `calls, `sent, `history, `inputs, `rejected, `spawned, `turns,
        `checks
      ensures Valid() && Ledger([]) && AllSound(calls, takenOver) && ChildrenWithin()
      ensures OnTimeBefore(checks, turns) && (r == Ok(None) <==> DeadlineHit(checks))
      ensures SameTask() && if r.Ok? && r.value.Some? && r.value.value.0 then EndsInDone() else NoDone(sent)
      ensures Spent() <= old(Spent()) + 4 * max + 2
      ensures r.Ok? || r in {AgentFailure, Crash, Blocked}
      ensures approval == Auto ==> rejected == old(rejected)
      ensures approval == Auto && !clarifyEnabled ==> inputs == old(inputs) && !r.Blocked?
      decreases if MaySpawn(config) then 1 else 0, 4, 0
    {
      var up := CheckDeadline();
      if up {
        r := Ok(None);
      } else {
        var turn := Turn(approval, plan, activated);
        r := if turn.Ok? then Ok(Some(turn.value)) else Passed(turn);
      }
    }

    /** The inspect-choose-act-observe loop of `_run_task`. */
    method Execute(approval: Approval, plan0: Plan, activated0: set<string>) returns (r: Exit<bool>)
      requires Valid() && Ledger([]) && AllSound(calls, takenOver) && spawned == 0 && checks == [] && turns == 0 && NoDone(sent)
      modifies world, `summary, `summarizedCount, `lastSummary, `calls, `sent, `history, `inputs, `rejected, `spawned, `turns,
        `checks
      ensures Valid() && Ledger([]) && AllSound(calls, takenOver) && ChildrenWithin()
      ensures SameTask() && if r == Ok(false) then EndsInDone() else NoDone(sent)
      ensures OnTimeBefore(checks, turns) && (r == Ok(true) <==> DeadlineHit(checks))
      ensures r.Ok? || r in {AgentFailure, Crash, Blocked}
      ensures Spent() <= old(Spent()) + Times(max, 4 * max + 2)
      ensures approval == Auto ==> rejected == old(rejected)
      ensures approval == Auto && !clarifyEnabled ==> inputs == old(inputs) && !r.Blocked?
      decreases if MaySpawn(config) then 1 else 0, 4, 1
    {
      var plan, activated := plan0, activated0;
      var iteration := 0;
      ghost var paid := 0;
      TimesGrows(0, max, 4 * max + 2);
      while iteration < max
        invariant 0 <= iteration <= max && Valid() && Ledger([]) && AllSound(calls, takenOver) && ChildrenWithin()
        invariant NoDone(sent) && SameTask() && OnTime(checks, turns)
        invariant Spent() <= old(Spent()) + paid && PaidFor(iteration, paid)
        invariant approval == Auto ==> rejected == old(rejected)
        invariant approval == Auto && !clarifyEnabled ==> inputs == old(inputs)
      {
        PayForTurn(iteration, paid);
        paid := paid + 4 * max + 2;
        iteration := iteration + 1;
        var next := Iterate(approval, plan, activated);
        if !next.Ok? {
          return Passed(next);
        }
        if next.value == None {
          return Ok(true);
        }
        plan, activated := next.value.value.1, next.value.value.2;
        if next.value.value.0 {
          return Ok(false);
        }
      }
      EndAtLimit();
      r := Ok(false);
    }

    /** The calls that the first `n` turns may cost. */
    predicate PaidFor(n: nat, paid: int) {
      paid == Times(n, 4 * max + 2) && paid <= Times(max, 4 * max + 2)
    }

    lemma PayForTurn(n: nat, paid: int)
      requires n < max && PaidFor(n, paid)
      ensures PaidFor(n + 1, paid + 4 * max + 2)
    {
      TimesGrows(n + 1, max, 4 * max + 2);
    }

    /** The check at the loop's boundary. */
    method CheckDeadline() returns (up: bool)
      modifies world`now, `checks
      ensures checks == old(checks) + [old(world.now)] && up == DeadlineHit(checks)
    {
      var t := world.Tick();
      checks := checks + [t];
      up := hasDeadline && world.timeUp(t);
    }

    /** The end of a task that used up its turns. */
    method EndAtLimit()
      requires Valid() && Ledger([]) && NoDone(sent)
      modifies `sent, world`now
      ensures Valid() && Ledger([]) && EndsInDone()
      ensures |sent| == |old(sent)| + 2 && sent[|old(sent)|] == Message(ClarificationRole) && !sent[|old(sent)| + 1].success
    {
      Say(ClarificationRole);
      var done := SendDone(false, MAX_ITERATIONS_REPLY);
    }

    /** `_run_task_guarded`: every task that ends at all ends in one `done`, or silently at its deadline. */
    method RunTaskGuarded(task: Task) returns (r: Exit<bool>)
      requires Valid() && Ledger([])
      modifies this, world
      ensures Valid() && AllSound(calls, takenOver) && ChildrenWithin()
      ensures Ledger([]) && resumed == Recorded(task.history)
      ensures r.Ok? || r == Blocked
      ensures if r == Ok(false) then EndsInDone() else NoDone(sent)
      ensures r == Ok(true) <==> DeadlineHit(checks)
      ensures OnTimeBefore(checks, turns)
      ensures world.llmCalls <= old(world.llmCalls) + Budget(max) + Times(rejected, max) + Times(spawned, childBudget)
      ensures task.approval == Auto ==>
                world.llmCalls <= old(world.llmCalls) + (4 * max * max + 6 * max)
                                  + maxChildren * (4 * childCap * childCap + 6 * childCap)
      ensures task.approval == Auto ==> rejected == 0
      ensures task.approval == Auto && !clarifyEnabled ==> inputs == old(inputs) && r.Ok?
      decreases if MaySpawn(config) then 1 else 0, 5
    {
      r := RunTask(task);
      if task.approval == Auto {
        TaskBudget(world.llmCalls - old(world.llmCalls), max, spawned, maxChildren, childCap);
      }
      if r in {AgentFailure, Crash} {
        var done := SendDone(false, "Internal error");
        r := Ok(false);
      }
    }

    /** The child is run exactly when children are allowed, the request is in order and the quota is not used up. */
    predicate Grants(request: SpawnArgs, already: nat) {
      && MaySpawn(config) && request.wellFormed && request.allowedTools <= config.tools
      && childCap > 0 && ClampIterations(request.maxIterations, childCap).Some? && already < maxChildren
    }

    method MaybeSpawn(request: SpawnArgs) returns (status: Status)
      requires Valid()
      modifies world, `spawned
      ensures spawned == old(spawned) + if Grants(request, old(spawned)) then 1 else 0
      ensures !Grants(request, old(spawned)) ==> status in {Disabled, InvalidRequest}
      ensures Spent() <= old(Spent())
      decreases if MaySpawn(config) then 1 else 0, 0, 1
    {
      status := InvalidRequest;
      var m := ClampIterations(request.maxIterations, childCap);
      if !MaySpawn(config) {
        status := Disabled;
      } else if request.wellFormed && request.allowedTools <= config.tools && m.Some? && spawned < maxChildren {
        spawned := spawned + 1;
        var childStatus, child := RunChild(request, m.value);
        var t := world.Tick();
        status := if world.childRaises(t) then ChildFailed else childStatus;
      }
    }

    /** `_handle_spawn_subagent`: whatever happens to the child, the parent observes it as one action. */
    method HandleSpawn(d: Decision, plan: Plan) returns (r: Exit<Outcome>)
      requires Valid() && Ledger([]) && d.SpawnSubagent?
      modifies world, `spawned, `sent
      ensures Valid() && Ledger(Owed(r)) && Quiet()
      ensures spawned == old(spawned) + if Grants(d.request, old(spawned)) then 1 else 0
      ensures Spent() <= old(Spent())
      ensures exists failed :: sent == old(sent) + [Action("spawn_subagent", failed)]
                               && (!failed ==> spawned > old(spawned))
                               && r == Ok(Outcome(false, plan, Some(Acted(Action("spawn_subagent", failed))), false))
      decreases if MaySpawn(config) then 1 else 0, 1
    {
      var status := MaybeSpawn(d.request);
      r := Emit("spawn_subagent", status != Completed, plan);
    }

    /** `SubagentRunner.run`: the child is a new agent with the child's configuration and a deadline, and `Timeout` is
        reported exactly when its own deadline check ended it, which is when it sent no `done`. */
    method RunChild(request: SpawnArgs, m: nat) returns (status: Status, ghost child: Agent)
      requires Valid() && MaySpawn(config) && 1 <= m <= childCap
      modifies world
      ensures fresh(child) && child.world == world && child.config == ChildConfig(config, request, m) && child.hasDeadline
      ensures world.llmCalls <= old(world.llmCalls) + childBudget
      ensures child.OnTimeBefore(child.checks, child.turns) && child.AllSound(child.calls, child.takenOver)
      ensures status == Timeout <==> child.DeadlineHit(child.checks)
      ensures if child.DeadlineHit(child.checks) then NoDone(child.sent)
              else OneDoneLast(child.sent) && status == StatusOf(child.sent[|child.sent| - 1])
      decreases if MaySpawn(config) then 1 else 0, 0, 0
    {
      var agent := new Agent(world, ChildConfig(config, request, m), false, true, threshold, maxChildren, childCap, []);
      var end := agent.RunTaskGuarded(Task(Auto, [], None, ""));
      child := agent;
      assert end.Ok?;
      assert if end.value then NoDone(agent.sent) else OneDoneLast(agent.sent);
      status := StatusOfEvents(agent.sent);
      BudgetGrows(m, childCap);
    }

    /** Acting on a decision that needs neither the model nor a child. */
    method ActAlone(d: Decision, plan: Plan, activated: set<string>) returns (r: Exit<Outcome>)
      requires Valid() && Ledger([]) && NoDone(sent) && !d.SpawnSubagent? && !d.AgentReplan?
      modifies world`now, `sent, `inputs
      ensures Valid() && Ledger(Owed(r)) && Acts(d, r) && |inputs| <= |old(inputs)|
      ensures if r.Ok? && r.value.finished then EndsInDoneOf(d) else NoDone(sent)
      ensures if r.Ok? then !r.value.replanned else r in {AgentFailure, Crash, Blocked}
      ensures !clarifyEnabled ==> inputs == old(inputs) && !r.Blocked?
    {
      match d {
        case AgentDone(_) => r := FinishTask(d, plan);
        case AgentClarify(_) => r := AskUser(d, plan);
        case ReadSkillFile(_, _) => r := ReadFile(d, plan, activated);
        case CallTool(_) => r := UseTool(d, plan);
      }
    }

    method ActOnDecision(d: Decision, approval: Approval, plan: Plan, activated: set<string>) returns (r: Exit<Outcome>)
      requires Valid() && Ledger([]) && NoDone(sent)
      modifies world, `spawned, `sent, `history, `inputs, `rejected
      ensures Valid() && Ledger(Owed(r)) && Acts(d, r) && |inputs| <= |old(inputs)|
      ensures if r.Ok? && r.value.finished then EndsInDoneOf(d) else NoDone(sent)
      ensures r.Ok? && r.value.replanned ==> Spent() <= old(Spent()) + max && Owed(r) == []
      ensures r.Ok? && !r.value.replanned ==> Spent() <= old(Spent())
      ensures !r.Ok? ==> Spent() <= old(Spent()) + max && r in {AgentFailure, Crash, Blocked}
      ensures spawned == old(spawned) + if d.SpawnSubagent? && Grants(d.request, old(spawned)) then 1 else 0
      ensures approval == Auto ==> rejected == old(rejected)
      ensures approval == Auto && !clarifyEnabled ==> inputs == old(inputs) && !r.Blocked?
      decreases if MaySpawn(config) then 1 else 0, 2
    {
      if d.SpawnSubagent? {
        r := HandleSpawn(d, plan);
      } else if d.AgentReplan? {
        r := Replan(d, approval, plan);
      } else {
        r := ActAlone(d, plan, activated);
      }
    }
  }

  /** The status loop of `_build_envelope`: the last `done` among the drained events decides. */
  method StatusOfEvents(events: seq<Event>) returns (status: Status)
    ensures NoDone(events) ==> status == Timeout
    ensures OneDoneLast(events) ==> status == StatusOf(events[|events| - 1])
  {
    var done: Option<Event> := None;
    for i := 0 to |events|
      invariant done.None? <==> NoDone(events[..i])
      invariant done.Some? ==> done.value.DoneEvent? && done.value in events[..i]
      invariant i > 0 && events[i - 1].DoneEvent? ==> done == Some(events[i - 1])
    {
      if events[i].DoneEvent? {
        done := Some(events[i]);
      }
      assert events[..i + 1][..i] == events[..i];
    }
    assert events[..|events|] == events;
    match done {
      case None => status := Timeout;
      case Some(e) => status := StatusOf(e);
    }
  }

  lemma OneMoreOwed(recorded: seq<Event>, resumed: seq<Event>, actions: seq<Event>, e: Event)
    requires recorded + [] == resumed + actions
    ensures recorded + [e] == resumed + (actions + [e])
  {
    assert recorded + [] == recorded;
    assert resumed + (actions + [e]) == (resumed + actions) + [e];
  }

  lemma {:induction false} TimesGrows(n: nat, k: nat, m: nat)
    requires n <= k
    ensures Times(n, m) <= Times(k, m)
  {
    if 0 < n {
      TimesGrows(n - 1, k - 1, m);
    }
  }

  /** Four planning phases before the loop, and in every turn a summary, a decision and four planning phases. */
  lemma BudgetInTurns(m: nat)
    ensures 4 * m + Times(m, 4 * m + 2) == Budget(m)
  {
    TimesIsProduct(m, 4 * m + 2);
  }

  /** The whole of it under automatic approval: the agent's own budget and one child budget per allowed child. */
  lemma TaskBudget(calls: int, m: nat, spawned: nat, maxChildren: nat, childCap: nat)
    requires calls <= Budget(m) + Times(0, m) + Times(spawned, Budget(childCap)) && spawned <= maxChildren
    ensures calls <= (4 * m * m + 6 * m) + maxChildren * (4 * childCap * childCap + 6 * childCap)
  {
    TimesGrows(spawned, maxChildren, Budget(childCap));
    TimesIsProduct(maxChildren, Budget(childCap));
  }

  lemma BudgetGrows(m: nat, n: nat)
    requires m <= n
    ensures Budget(m) <= Budget(n)
  {
    assert m * m <= n * n by {
      assert m * m <= m * n <= n * n;
    }
  }
}