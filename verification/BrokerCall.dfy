/**
 Calls to host services: dispatched in the same process (`yolo`), or sent over a
 channel and answered by an event (`fire`, agent/broker_client.py with
 sandbox/host_services.py).

 A payload is a mapping or something else; events cross the channel unchanged.
 A handler is a function of the payload.
 */
module BrokerCall {
  import opened Prelude

  datatype Value = Mapping(entries: map<string, int>) | NonMapping(id: int)

  const EMPTY := Mapping(map[])

  /** A field of an event: text, or something else with the text Python prints for it. */
  datatype Field = Text(text: string) | Odd(printed: string)

  function Show(f: Field): string {
    match f
    case Text(text) => text
    case Odd(printed) => printed
  }

  datatype Event =
    | BrokerRequest(id: Field, service: Field, payload: Value)
    | BrokerResponse(id: Field, success: bool, answer: Option<Value>, error: Option<string>)
    | Other(kind: string, content: int)

  datatype HandlerResult = Returned(value: Value) | Threw(message: string)

  type Handler = Value -> HandlerResult
  type Handlers = map<string, Handler>

  datatype Dispatched = Success(id: string, payload: Value) | Failure(id: string, error: string)

  /** What the caller of `call` gets: a payload, or a `HostServiceError` with a text. */
  datatype Result = Payload(value: Value) | Raised(error: string)

  // ---------------------------------------------------------------- the host side

  /** The handler that answers for the service, if it is registered. */
  predicate Knows(handlers: Handlers, service: Field) {
    service.Text? && service.text in handlers
  }

  function Dispatch(handlers: Handlers, id: Field, service: Field, payload: Value): Dispatched {
    if service.Odd? || service.text !in handlers then Failure(Show(id), "unknown service: " + Show(service))
    else
      match handlers[service.text](if payload.Mapping? then payload else EMPTY)
      case Returned(value) => Success(Show(id), value)
      case Threw(message) => Failure(Show(id), message)
  }

  predicate Yields(handlers: Handlers, service: Field, payload: Value, result: HandlerResult)
    requires Knows(handlers, service)
  {
    handlers[service.text](if payload.Mapping? then payload else EMPTY) == result
  }

  /** The handler's own outcome under the request's id, or an error that names the service. */
  lemma DispatchedIsHandlers(handlers: Handlers, id: Field, service: Field, payload: Value)
    ensures var d := Dispatch(handlers, id, service, payload);
            && d.id == Show(id)
            && (!Knows(handlers, service) ==> d == Failure(Show(id), "unknown service: " + Show(service)))
            && (Knows(handlers, service) ==>
                  Yields(handlers, service, payload, if d.Success? then Returned(d.payload) else Threw(d.error)))
  {
  }

  /** `handle_incoming`: a successful payload that is no mapping is replaced by the empty one. */
  function HandleIncoming(handlers: Handlers, request: Event): Event
    requires request.BrokerRequest?
  {
    match Dispatch(handlers, request.id, request.service, request.payload)
    case Success(id, payload) => BrokerResponse(Text(id), true, Some(if payload.Mapping? then payload else EMPTY), None)
    case Failure(id, error) => BrokerResponse(Text(id), false, None, Some(error))
  }

  /** The registry, changed in place by `register`. */
  class HostServices {
    var handlers: Handlers

    constructor ()
      ensures handlers == map[]
    {
      handlers := map[];
    }

    method Register(service: string, handler: Handler)
      modifies this
      ensures handlers == old(handlers)[service := handler]
    {
      handlers := handlers[service := handler];
    }

    method Answer(request: Event) returns (response: Event)
      requires request.BrokerRequest?
      ensures response == HandleIncoming(handlers, request)
      ensures response.BrokerResponse? && response.id == Text(Show(request.id))
      ensures response.success ==> response.answer.Some? && response.answer.value.Mapping?
      ensures !response.success ==> response.error.Some?
    {
      response := HandleIncoming(handlers, request);
    }
  }

  // ---------------------------------------------------------------- the two ways to call

  function CallYolo(handlers: Handlers, id: string, service: string, payload: Value): Result {
    match Dispatch(handlers, Text(id), Text(service), payload)
    case Failure(_, error) => Raised(error)
    case Success(_, value) =>
      if value.Mapping? then Payload(value) else Raised("service response payload must be a mapping")
  }

  predicate Matches(event: Event, id: string) {
    event.BrokerResponse? && event.id == Text(id)
  }

  /** What a matching response means to the caller. */
  function Meaning(event: Event): Result
    requires event.BrokerResponse?
  {
    if !event.success then Raised(if event.error.Some? then event.error.value else "broker call failed")
    else if event.answer.Some? && event.answer.value.Mapping? then Payload(event.answer.value)
    else Raised("broker response payload must be a mapping")
  }

  /** What `receive_fn` gives next: an event, or nothing within the timeout. */
  datatype Incoming = Got(event: Event) | TimedOut

  datatype Progress = Answered(result: Result) | GaveUp(result: Result) | StillWaiting

  /**
   The waiting loop of `_call_fire`: the first matching response decides unless a
   timeout comes before it; everything else received on the way is discarded.
   */
  method AwaitResponse(id: string, service: string, incoming: seq<Incoming>) returns (progress: Progress, consumed: nat)
    ensures consumed <= |incoming|
    ensures forall i | 0 <= i < consumed - 1 :: incoming[i].Got? && !Matches(incoming[i].event, id)
    ensures match progress
            case Answered(result) =>
              && consumed > 0 && incoming[consumed - 1].Got?
              && Matches(incoming[consumed - 1].event, id) && result == Meaning(incoming[consumed - 1].event)
            case GaveUp(result) =>
              consumed > 0 && incoming[consumed - 1].TimedOut? && result == Raised(service + " response timeout")
            case StillWaiting =>
              consumed == |incoming| && forall i | 0 <= i < |incoming| :: incoming[i].Got? && !Matches(incoming[i].event, id)
  {
    consumed := 0;
    while consumed < |incoming|
      invariant 0 <= consumed <= |incoming|
      invariant forall i | 0 <= i < consumed :: incoming[i].Got? && !Matches(incoming[i].event, id)
    {
      var item := incoming[consumed];
      consumed := consumed + 1;
      if item.TimedOut? {
        return GaveUp(Raised(service + " response timeout")), consumed;
      }
      if !item.event.BrokerResponse? {
        continue;
      }
      if item.event.id != Text(id) {
        continue;
      }
      if item.event.success {
        if item.event.answer == None || !item.event.answer.value.Mapping? {
          return Answered(Raised("broker response payload must be a mapping")), consumed;
        }
        return Answered(Payload(item.event.answer.value)), consumed;
      }
      return Answered(Raised(if item.event.error.Some? then item.event.error.value else "broker call failed")), consumed;
    }
    progress := StillWaiting;
  }

  /** The handler of this call succeeds with something that is no mapping. */
  predicate ReturnsNonMapping(handlers: Handlers, service: string, payload: Value) {
    && service in handlers
    && var r := handlers[service](if payload.Mapping? then payload else EMPTY);
       r.Returned? && r.value.NonMapping?
  }

  /**
   One answered call means the same both ways, except when the handler returns
   something other than a mapping: then the in-process call raises and the
   remote one returns an empty mapping.
   */
  lemma FireMeansYolo(handlers: Handlers, id: string, service: string, payload: Value)
    ensures var fire := Meaning(HandleIncoming(handlers, BrokerRequest(Text(id), Text(service), payload)));
            var yolo := CallYolo(handlers, id, service, payload);
            && (fire == yolo <==> !ReturnsNonMapping(handlers, service, payload))
            && (ReturnsNonMapping(handlers, service, payload) ==>
                  fire == Payload(EMPTY) && yolo == Raised("service response payload must be a mapping"))
  {
  }

  /** The other case happens: with a handler that returns the same non-mapping for everything. */
  lemma NonMappingDiffers(id: string, service: string, payload: Value, returned: Value)
    requires returned.NonMapping?
    ensures var handlers := map[service := (_: Value) => Returned(returned)];
            Meaning(HandleIncoming(handlers, BrokerRequest(Text(id), Text(service), payload)))
              != CallYolo(handlers, id, service, payload)
  {
    FireMeansYolo(map[service := (_: Value) => Returned(returned)], id, service, payload);
  }

  // ---------------------------------------------------------------- whole runs

  datatype Call = Call(id: string, service: string, payload: Value)

  datatype Finished = Finished(call: Call, result: Result, answered: bool)

  /** The agent, the two directions of its channel, and what its calls came to. */
  datatype State = State(
    calls: map<string, Call>, waiting: Option<Call>, toHost: seq<Event>, toAgent: seq<Event>, finished: seq<Finished>)

  datatype Step =
    | Begin(call: Call)
    | HostAnswers
    | HostSends(event: Event)
    | AgentReceives
    | AgentTimesOut

  function RequestOf(c: Call): Event {
    BrokerRequest(Text(c.id), Text(c.service), c.payload)
  }

  /** Request ids are fresh, and apart from its answers the host sends no broker response. */
  predicate Enabled(s: State, step: Step) {
    match step
    case Begin(call) => s.waiting == None && call.id !in s.calls
    case HostAnswers => s.toHost != [] && s.toHost[0].BrokerRequest?
    case HostSends(event) => event.Other?
    case AgentReceives => s.toAgent != []
    case AgentTimesOut => s.waiting.Some?
  }

  function Apply(handlers: Handlers, s: State, step: Step): State
    requires Enabled(s, step)
  {
    match step
    case Begin(call) =>
      s.(calls := s.calls[call.id := call], waiting := Some(call), toHost := s.toHost + [RequestOf(call)])
    case HostAnswers =>
      s.(toHost := s.toHost[1..], toAgent := s.toAgent + [HandleIncoming(handlers, s.toHost[0])])
    case HostSends(event) => s.(toAgent := s.toAgent + [event])
    case AgentReceives =>
      var rest := s.(toAgent := s.toAgent[1..]);
      if s.waiting.Some? && Matches(s.toAgent[0], s.waiting.value.id) then
        rest.(waiting := None, finished := s.finished + [Finished(s.waiting.value, Meaning(s.toAgent[0]), true)])
      else rest
    case AgentTimesOut =>
      s.(waiting := None,
         finished := s.finished + [Finished(s.waiting.value, Raised(s.waiting.value.service + " response timeout"), false)])
  }

  ghost predicate Run(handlers: Handlers, s: State, steps: seq<Step>, t: State)
    decreases |steps|
  {
    if steps == [] then s == t
    else Enabled(s, steps[0]) && Run(handlers, Apply(handlers, s, steps[0]), steps[1..], t)
  }

  predicate Initial(s: State) {
    s.calls == map[] && s.waiting == None && s.toHost == [] && s.finished == [] && forall e | e in s.toAgent :: e.Other?
  }

  ghost predicate FinishedWell(handlers: Handlers, f: Finished) {
    f.result == if f.answered then Meaning(HandleIncoming(handlers, RequestOf(f.call)))
                else Raised(f.call.service + " response timeout")
  }

  /** The call the agent waits for is one it made, and every call is filed under its id. */
  ghost predicate Filed(s: State) {
    && (forall id | id in s.calls :: s.calls[id].id == id)
    && (s.waiting.Some? ==> s.waiting.value.id in s.calls && s.calls[s.waiting.value.id] == s.waiting.value)
  }

  ghost predicate AsksForCall(calls: map<string, Call>, e: Event) {
    e.BrokerRequest? && e.id.Text? && e.id.text in calls && e == RequestOf(calls[e.id.text])
  }

  ghost predicate AnswersCall(handlers: Handlers, calls: map<string, Call>, e: Event) {
    e.BrokerResponse? ==>
      e.id.Text? && e.id.text in calls && e == HandleIncoming(handlers, RequestOf(calls[e.id.text]))
  }

  /** Every call that ended was made, ended as it should, ended once, and is not waited for. */
  ghost predicate EndedOnce(handlers: Handlers, s: State) {
    && (forall i | 0 <= i < |s.finished| :: FinishedWell(handlers, s.finished[i]))
    && (forall i | 0 <= i < |s.finished| ::
          s.finished[i].call.id in s.calls && (s.waiting.Some? ==> s.finished[i].call.id != s.waiting.value.id))
    && (forall i, j | 0 <= i < j < |s.finished| :: s.finished[i].call.id != s.finished[j].call.id)
  }

  /** Every request under way, and every answer, belongs to a call that was made. */
  ghost predicate Inv(handlers: Handlers, s: State) {
    && Filed(s)
    && (forall i | 0 <= i < |s.toHost| :: AsksForCall(s.calls, s.toHost[i]))
    && (forall i | 0 <= i < |s.toAgent| :: AnswersCall(handlers, s.calls, s.toAgent[i]))
    && EndedOnce(handlers, s)
  }

  lemma StepKeepsEnded(handlers: Handlers, s: State, step: Step)
    requires Inv(handlers, s) && Enabled(s, step)
    ensures EndedOnce(handlers, Apply(handlers, s, step))
  {
    if step.AgentReceives? && s.waiting.Some? && Matches(s.toAgent[0], s.waiting.value.id) {
      assert AnswersCall(handlers, s.calls, s.toAgent[0]);
    }
  }

  lemma StepKeepsInv(handlers: Handlers, s: State, step: Step)
    requires Inv(handlers, s) && Enabled(s, step)
    ensures Inv(handlers, Apply(handlers, s, step))
  {
    var t := Apply(handlers, s, step);
    StepKeepsEnded(handlers, s, step);
    if step.HostAnswers? {
      assert AsksForCall(s.calls, s.toHost[0]);
      assert AnswersCall(handlers, s.calls, HandleIncoming(handlers, s.toHost[0]));
    }
    forall i | 0 <= i < |t.toHost| ensures AsksForCall(t.calls, t.toHost[i]) {
      assert t.toHost[i] in s.toHost || step.Begin?;
    }
    forall i | 0 <= i < |t.toAgent| ensures AnswersCall(handlers, t.calls, t.toAgent[i]) {
      assert t.toAgent[i] in s.toAgent || step.HostAnswers? || step.HostSends?;
    }
  }

  lemma {:induction false} RunKeepsInv(handlers: Handlers, s: State, steps: seq<Step>, t: State)
    requires Inv(handlers, s) && Run(handlers, s, steps, t)
    ensures Inv(handlers, t)
    decreases |steps|
  {
    if steps != [] {
      StepKeepsInv(handlers, s, steps[0]);
      RunKeepsInv(handlers, Apply(handlers, s, steps[0]), steps[1..], t);
    }
  }

  /** The request of the waiting call or its answer is on the way: neither is lost. */
  ghost predicate OnTheWay(handlers: Handlers, s: State) {
    s.waiting.Some? ==>
      || RequestOf(s.waiting.value) in s.toHost
      || HandleIncoming(handlers, RequestOf(s.waiting.value)) in s.toAgent
  }

  lemma StepKeepsOnTheWay(handlers: Handlers, s: State, step: Step)
    requires OnTheWay(handlers, s) && Enabled(s, step)
    ensures OnTheWay(handlers, Apply(handlers, s, step))
  {
    var t := Apply(handlers, s, step);
    if t.waiting.Some? {
      var request := RequestOf(t.waiting.value);
      var answer := HandleIncoming(handlers, request);
      match step
      case Begin(_) => assert t.toHost[|s.toHost|] == request;
      case HostAnswers =>
        if s.toHost[0] == request {
          assert t.toAgent[|s.toAgent|] == answer;
        } else {
          StaysIn(s.toHost, request);
        }
      case HostSends(_) =>
      case AgentReceives => StaysIn(s.toAgent, answer);
      case AgentTimesOut =>
    }
  }

  lemma StaysIn(events: seq<Event>, e: Event)
    requires events != []
    ensures e in events && events[0] != e ==> e in events[1..]
  {
    assert events == [events[0]] + events[1..];
  }

  lemma {:induction false} RunKeepsOnTheWay(handlers: Handlers, s: State, steps: seq<Step>, t: State)
    requires Initial(s) || OnTheWay(handlers, s)
    requires Run(handlers, s, steps, t)
    ensures OnTheWay(handlers, t)
    decreases |steps|
  {
    if steps != [] {
      StepKeepsOnTheWay(handlers, s, steps[0]);
      RunKeepsOnTheWay(handlers, Apply(handlers, s, steps[0]), steps[1..], t);
    }
  }

  /**
   Over any run, late answers to abandoned calls and other traffic included: a
   call ends once, and an answered one ends as the in-process call would unless
   its handler returned something that is no mapping.
   */
  lemma AnsweredCallsRefineYolo(handlers: Handlers, s: State, steps: seq<Step>, t: State, i: nat)
    requires Initial(s) && Run(handlers, s, steps, t) && i < |t.finished|
    ensures var f := t.finished[i];
            && (f.answered ==> (f.result == CallYolo(handlers, f.call.id, f.call.service, f.call.payload)
                                <==> !ReturnsNonMapping(handlers, f.call.service, f.call.payload)))
            && (!f.answered ==> f.result == Raised(f.call.service + " response timeout"))
    ensures forall j | 0 <= j < |t.finished| && j != i :: t.finished[j].call.id != t.finished[i].call.id
  {
    forall k | 0 <= k < |s.toAgent| ensures s.toAgent[k].Other? {
      assert s.toAgent[k] in s.toAgent;
    }
    RunKeepsInv(handlers, s, steps, t);
    var c := t.finished[i].call;
    FireMeansYolo(handlers, c.id, c.service, c.payload);
    assert FinishedWell(handlers, t.finished[i]);
  }
}
