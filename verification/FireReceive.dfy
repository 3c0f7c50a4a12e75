/**
 `FireSandbox.receive`: callers see the guest's events without the broker
 traffic, and every broker request is answered before a later event is returned.
 */
module FireReceive {
  import opened Prelude
  import opened BrokerCall

  /**
   What one turn of the loop meets: the deadline already passed, no event in
   time, an event (and whether a response sent now would go through), or a
   broken connection.
   */
  datatype Turn = Expired | Nothing | Got(event: Event, sends: bool) | Broken(error: string)

  datatype Delivery = Delivered(event: Event) | Late | Failed(error: string) | Pending

  /** The answer to one event from the guest, if it gets one: requests whose id is no text are ignored. */
  function AnswerTo(host: Option<Handlers>, event: Event): Option<Event> {
    if !event.BrokerRequest? || !event.id.Text? then None
    else if host == None then Some(BrokerResponse(event.id, false, None, Some("host services unavailable")))
    else Some(HandleIncoming(host.value, event))
  }

  /** All answers to a stretch of turns. */
  function Answers(host: Option<Handlers>, turns: seq<Turn>): seq<Event> {
    if turns == [] then []
    else
      var last := turns[|turns| - 1];
      var before := Answers(host, turns[..|turns| - 1]);
      if last.Got? && last.sends && AnswerTo(host, last.event).Some? then before + [AnswerTo(host, last.event).value]
      else before
  }

  predicate IsBroker(event: Event) {
    event.BrokerRequest? || event.BrokerResponse?
  }

  /** The guest's events in a stretch of turns, without broker traffic. */
  function Visible(turns: seq<Turn>): seq<Event> {
    if turns == [] then []
    else
      var last := turns[|turns| - 1];
      Visible(turns[..|turns| - 1]) + if last.Got? && !IsBroker(last.event) then [last.event] else []
  }

  /** A turn after which the loop goes on. */
  predicate GoesOn(host: Option<Handlers>, turn: Turn) {
    turn.Got? && IsBroker(turn.event) && (AnswerTo(host, turn.event) == None || turn.sends)
  }

  /** Event `k` was the one at `end`, nothing before it was skipped or repeated, and all requests before it were answered. */
  ghost predicate ReturnedAt(host: Option<Handlers>, turns: seq<Turn>, start: seq<Event>, returned: seq<Event>,
                             k: nat, end: nat, sentThen: seq<Event>)
    requires k < |returned|
  {
    && 0 < end <= |turns| && turns[end - 1].Got? && returned[k] == turns[end - 1].event
    && Visible(turns[..end]) == returned[..k + 1]
    && sentThen == start + Answers(host, turns[..end])
  }

  ghost predicate Traced(host: Option<Handlers>, turns: seq<Turn>, start: seq<Event>, returned: seq<Event>,
                         ends: seq<nat>, sentThen: seq<seq<Event>>, used: nat)
  {
    && |ends| == |sentThen| == |returned|
    && forall k | 0 <= k < |returned| ::
         ends[k] <= used && ReturnedAt(host, turns, start, returned, k, ends[k], sentThen[k])
  }

  ghost predicate KeptUp(host: Option<Handlers>, turns: seq<Turn>, start: seq<Event>, returned: seq<Event>,
                         ends: seq<nat>, sentThen: seq<seq<Event>>, used: nat, sent: seq<Event>)
    requires used <= |turns|
  {
    && returned == Visible(turns[..used])
    && sent == start + Answers(host, turns[..used])
    && Traced(host, turns, start, returned, ends, sentThen, used)
  }

  lemma TracedLater(host: Option<Handlers>, turns: seq<Turn>, start: seq<Event>, returned: seq<Event>,
                    ends: seq<nat>, sentThen: seq<seq<Event>>, used: nat, later: nat)
    requires Traced(host, turns, start, returned, ends, sentThen, used) && used <= later
    ensures Traced(host, turns, start, returned, ends, sentThen, later)
  {
  }

  lemma TracedOneMore(host: Option<Handlers>, turns: seq<Turn>, start: seq<Event>, returned: seq<Event>,
                      ends: seq<nat>, sentThen: seq<seq<Event>>, before: nat, used: nat)
    requires Traced(host, turns, start, returned, ends, sentThen, before)
    requires before < used <= |turns| && turns[used - 1].Got?
    requires Visible(turns[..used]) == returned + [turns[used - 1].event]
    ensures Traced(host, turns, start, returned + [turns[used - 1].event], ends + [used],
                   sentThen + [start + Answers(host, turns[..used])], used)
  {
    var longer := returned + [turns[used - 1].event];
    forall k | 0 <= k < |returned| ensures ReturnedAt(host, turns, start, longer, k, ends[k], sentThen[k]) {
      assert ReturnedAt(host, turns, start, returned, k, ends[k], sentThen[k]);
      assert longer[..k + 1] == returned[..k + 1];
    }
    assert longer[..|longer|] == longer;
  }

  lemma {:induction false} AnswersConcatenate(host: Option<Handlers>, a: seq<Turn>, b: seq<Turn>)
    ensures Answers(host, a + b) == Answers(host, a) + Answers(host, b)
    decreases |b|
  {
    if b == [] {
      assert a + b == a;
    } else {
      AnswersConcatenate(host, a, b[..|b| - 1]);
      assert (a + b)[..|a + b| - 1] == a + b[..|b| - 1];
    }
  }

  lemma {:induction false} VisibleConcatenates(a: seq<Turn>, b: seq<Turn>)
    ensures Visible(a + b) == Visible(a) + Visible(b)
    decreases |b|
  {
    if b == [] {
      assert a + b == a;
    } else {
      VisibleConcatenates(a, b[..|b| - 1]);
      assert (a + b)[..|a + b| - 1] == a + b[..|b| - 1];
    }
  }

  lemma Splits(host: Option<Handlers>, turns: seq<Turn>, i: nat, j: nat)
    requires i <= j <= |turns|
    ensures Answers(host, turns[..j]) == Answers(host, turns[..i]) + Answers(host, turns[i..j])
    ensures Visible(turns[..j]) == Visible(turns[..i]) + Visible(turns[i..j])
  {
    AnswersConcatenate(host, turns[..i], turns[i..j]);
    VisibleConcatenates(turns[..i], turns[i..j]);
    assert turns[..j] == turns[..i] + turns[i..j];
  }

  lemma AfterReceive(host: Option<Handlers>, turns: seq<Turn>, start: seq<Event>, returned: seq<Event>,
                     ends: seq<nat>, sentThen: seq<seq<Event>>, used: nat, before: seq<Event>,
                     n: nat, outcome: Delivery, sent: seq<Event>)
    requires used + n <= |turns|
    requires KeptUp(host, turns, start, returned, ends, sentThen, used, before)
    requires sent == before + Answers(host, turns[used..][..n])
    requires Visible(turns[used..][..n]) == if outcome.Delivered? then [outcome.event] else []
    requires outcome.Delivered? ==> n > 0 && turns[used..][n - 1].Got? && turns[used..][n - 1].event == outcome.event
    ensures if outcome.Delivered? then
              KeptUp(host, turns, start, returned + [outcome.event], ends + [used + n], sentThen + [sent], used + n, sent)
            else KeptUp(host, turns, start, returned, ends, sentThen, used + n, sent)
  {
    Splits(host, turns, used, used + n);
    assert turns[used..][..n] == turns[used..used + n];
    assert sent == start + Answers(host, turns[..used + n]) by {
      assert sent == start + (Answers(host, turns[..used]) + Answers(host, turns[used..][..n]));
    }
    if outcome.Delivered? {
      assert turns[used..][n - 1] == turns[used + n - 1];
      TracedOneMore(host, turns, start, returned, ends, sentThen, used, used + n);
    } else {
      TracedLater(host, turns, start, returned, ends, sentThen, used, used + n);
    }
  }

  /** A turn at which the connection turns out to be broken, or does not take an answer. */
  predicate Breaks(host: Option<Handlers>, turn: Turn) {
    turn.Broken? || (turn.Got? && IsBroker(turn.event) && !GoesOn(host, turn))
  }

  /** A call consumes turns up to the first after which the loop does not go on, and that one decides its outcome. */
  predicate EndsWith(host: Option<Handlers>, turns: seq<Turn>, used: nat, outcome: Delivery) {
    && used <= |turns|
    && (forall i | 0 <= i < used - 1 :: GoesOn(host, turns[i]))
    && (outcome.Pending? <==> used == |turns| && forall i | 0 <= i < used :: GoesOn(host, turns[i]))
    && (!outcome.Pending? ==>
          && used > 0 && !GoesOn(host, turns[used - 1])
          && match turns[used - 1]
             case Expired => outcome == Late
             case Nothing => outcome == Late
             case Broken(error) => outcome == Failed(error)
             case Got(event, _) => if IsBroker(event) then outcome.Failed? else outcome == Delivered(event))
  }

  predicate Unbroken(host: Option<Handlers>, turns: seq<Turn>) {
    forall i | 0 <= i < |turns| :: !Breaks(host, turns[i])
  }

  /** Receiving stops at the first turn that breaks, or with the last one. */
  predicate WentOn(host: Option<Handlers>, turns: seq<Turn>, used: nat) {
    && used <= |turns|
    && if used > 0 && Breaks(host, turns[used - 1]) then Unbroken(host, turns[..used - 1])
       else used == |turns| && Unbroken(host, turns)
  }

  lemma BreaksOnlyWhenFailed(host: Option<Handlers>, turns: seq<Turn>, used: nat, n: nat, outcome: Delivery)
    requires used <= |turns| && Unbroken(host, turns[..used])
    requires EndsWith(host, turns[used..], n, outcome)
    ensures if outcome.Failed? then WentOn(host, turns, used + n)
            else used + n <= |turns| && Unbroken(host, turns[..used + n])
    ensures outcome.Pending? || used + n == |turns| ==> WentOn(host, turns, used + n)
  {
    assert forall i | 0 <= i < used :: turns[i] == turns[..used][i];
    assert forall i | used <= i < used + n :: turns[i] == turns[used..][i - used];
  }

  class Sandbox {
    const host: Option<Handlers>
    var sent: seq<Event>

    constructor (services: Option<Handlers>)
      ensures host == services && sent == []
    {
      host, sent := services, [];
    }

    /** `_handle_broker_request_event`; `sends` tells whether the connection takes the response. */
    method HandleBrokerRequest(event: Event, sends: bool) returns (error: Option<string>)
      requires event.BrokerRequest?
      modifies this
      ensures match AnswerTo(host, event)
              case None => error == None && sent == old(sent)
              case Some(answer) =>
                if sends then error == None && sent == old(sent) + [answer] else error.Some? && sent == old(sent)
    {
      error := None;
      if event.id.Odd? {
        return;
      }
      if host == None {
        if !sends {
          return Some("Failed to send event over vsock");
        }
        sent := sent + [BrokerResponse(event.id, false, None, Some("host services unavailable"))];
        return;
      }
      var response := HandleIncoming(host.value, event);
      if !sends {
        return Some("Failed to send broker_response to guest");
      }
      sent := sent + [response];
    }

    method Receive(turns: seq<Turn>) returns (outcome: Delivery, used: nat)
      modifies this
      ensures EndsWith(host, turns, used, outcome)
      ensures sent == old(sent) + Answers(host, turns[..used])
      ensures Visible(turns[..used]) == if outcome.Delivered? then [outcome.event] else []
    {
      used := 0;
      while used < |turns|
        invariant 0 <= used <= |turns|
        invariant forall i | 0 <= i < used :: GoesOn(host, turns[i])
        invariant sent == old(sent) + Answers(host, turns[..used])
        invariant Visible(turns[..used]) == []
      {
        var turn := turns[used];
        assert turns[..used + 1][..used] == turns[..used];
        used := used + 1;
        match turn {
          case Expired => return Late, used;
          case Nothing => return Late, used;
          case Broken(error) => return Failed(error), used;
          case Got(event, sends) =>
            if event.BrokerRequest? {
              var error := HandleBrokerRequest(event, sends);
              if error.Some? {
                return Failed(error.value), used;
              }
              continue;
            }
            if event.BrokerResponse? {
              continue;
            }
            return Delivered(event), used;
        }
      }
      outcome := Pending;
    }

    /** Receiving again and again until the connection fails or `turns` is used up: event
        `k` is returned at `ends[k]`, when `sentThen[k]` had been sent. */
    method ReceiveAll(turns: seq<Turn>)
      returns (returned: seq<Event>, used: nat, ghost ends: seq<nat>, ghost sentThen: seq<seq<Event>>)
      modifies this
      ensures used <= |turns|
      ensures returned == Visible(turns[..used])
      ensures sent == old(sent) + Answers(host, turns[..used])
      ensures Traced(host, turns, old(sent), returned, ends, sentThen, used)
      ensures WentOn(host, turns, used)
    {
      returned, used, ends, sentThen := [], 0, [], [];
      while used < |turns|
        invariant 0 <= used <= |turns|
        invariant KeptUp(host, turns, old(sent), returned, ends, sentThen, used, sent)
        invariant Unbroken(host, turns[..used]) && (used == |turns| ==> WentOn(host, turns, used))
        decreases |turns| - used
      {
        ghost var before := sent;
        var outcome, n := Receive(turns[used..]);
        AfterReceive(host, turns, old(sent), returned, ends, sentThen, used, before, n, outcome, sent);
        BreaksOnlyWhenFailed(host, turns, used, n, outcome);
        used := used + n;
        if outcome.Delivered? {
          returned, ends, sentThen := returned + [outcome.event], ends + [used], sentThen + [sent];
        }
        if outcome.Failed? || outcome.Pending? {
          return;
        }
      }
    }
  }

  /** The text ids of the broker requests in a stretch of turns, in order. */
  function RequestIds(turns: seq<Turn>): seq<string> {
    if turns == [] then []
    else
      var last := turns[|turns| - 1];
      RequestIds(turns[..|turns| - 1])
      + if last.Got? && last.event.BrokerRequest? && last.event.id.Text? then [last.event.id.text] else []
  }

  /** The answers are one response per request, with the request's id, in the order of the requests. */
  lemma {:induction false} OneAnswerPerRequest(host: Option<Handlers>, turns: seq<Turn>)
    requires forall i | 0 <= i < |turns| && turns[i].Got? :: turns[i].sends
    ensures |Answers(host, turns)| == |RequestIds(turns)|
    ensures forall k | 0 <= k < |RequestIds(turns)| ::
              Answers(host, turns)[k].BrokerResponse? && Answers(host, turns)[k].id == Text(RequestIds(turns)[k])
    decreases |turns|
  {
    if turns != [] {
      OneAnswerPerRequest(host, turns[..|turns| - 1]);
    }
  }
}
