/**
 The thread of one worker, `_SessionWorker._run` in coordinator.py: what it
 hands to the coordinator, which replies it passes on, and how it ends.
 */
module SessionWorker {
  import opened Prelude

  /** An event of the guest; `number` tells events of a kind apart. */
  datatype Event = Done(number: nat) | Message(role: Role, number: nat) | Other(number: nat)

  /** What one turn of the loop meets: the stop flag, silence, an event (and whether handling it raises), or an error. */
  datatype Turn = StopSeen | Silence | Got(event: Event, raises: bool) | ReceiveFails

  /** What one turn of waiting for a reply meets: the stop flag, an empty queue, the poison of `stop`,
      or a reply (and whether the sandbox takes it). */
  datatype Wait = StopSet | Empty | Poison | Reply(id: nat, sends: bool)

  datatype Pass = Passed | NoneYet | NoReply | NotTaken

  datatype End = ReadDone | Stopped | GaveUpWaiting | Raised

  predicate Asks(event: Event, review: bool) {
    event.Message? && ExpectsReply(event.role, review)
  }

  /** The events in a stretch of turns. */
  function Events(turns: seq<Turn>): seq<Event> {
    if turns == [] then []
    else
      var last := turns[|turns| - 1];
      Events(turns[..|turns| - 1]) + if last.Got? then [last.event] else []
  }

  /** The replies in a stretch of waiting. */
  function Replies(waits: seq<Wait>): seq<nat> {
    if waits == [] then []
    else
      var last := waits[|waits| - 1];
      Replies(waits[..|waits| - 1]) + if last.Reply? then [last.id] else []
  }

  function Questions(events: seq<Event>, review: bool): nat {
    if events == [] then 0
    else Questions(events[..|events| - 1], review) + if Asks(events[|events| - 1], review) then 1 else 0
  }

  predicate NoDone(events: seq<Event>) {
    forall i | 0 <= i < |events| :: !events[i].Done?
  }

  lemma {:induction false} NoReplyInSilence(waits: seq<Wait>, lo: nat, hi: nat)
    requires lo <= hi <= |waits| && forall i | lo <= i < hi :: waits[i].Empty?
    ensures Replies(waits[..hi]) == Replies(waits[..lo])
    decreases hi
  {
    if hi > lo {
      NoReplyInSilence(waits, lo, hi - 1);
      assert waits[..hi][..hi - 1] == waits[..hi - 1];
    }
  }

  lemma RepliesAfterWait(waits: seq<Wait>, waited: nat, n: nat)
    requires waited + n <= |waits| && forall i | 0 <= i < n - 1 :: waits[waited..][i].Empty?
    ensures Replies(waits[..waited + n]) == Replies(waits[..waited])
            + if n > 0 && waits[waited + n - 1].Reply? then [waits[waited + n - 1].id] else []
  {
    if n > 0 {
      forall i | waited <= i < waited + n - 1 ensures waits[i].Empty? {
        assert waits[i] == waits[waited..][i - waited];
      }
      NoReplyInSilence(waits, waited, waited + n - 1);
      assert waits[..waited + n][..waited + n - 1] == waits[..waited + n - 1];
    }
  }

  /** A turn of waiting after which the waiting goes on, or ends with a reply that is passed on. */
  predicate Harmless(wait: Wait) {
    wait.Empty? || (wait.Reply? && wait.sends)
  }

  /** A turn after which the loop goes on. */
  predicate GoesOn(turn: Turn) {
    turn.Silence? || (turn.Got? && !turn.raises && !turn.event.Done?)
  }

  /** How a run that has met this turn last stands: `waiting` is whether it is still waiting for a reply. */
  predicate EndsAt(end: Option<End>, waiting: bool, turn: Turn, waits: seq<Wait>, waited: nat, review: bool)
    requires waited <= |waits|
  {
    match turn
    case StopSeen => end == Some(Stopped) && !waiting
    case Silence => end == None && !waiting
    case ReceiveFails => end == Some(Raised) && !waiting
    case Got(event, raises) =>
      if raises then end == Some(Raised) && !waiting
      else if event.Done? then end == Some(ReadDone) && !waiting
      else if !Asks(event, review) then end == None && !waiting
      else if waiting then end == None && waited == |waits|
      else
        && waited > 0
        && match waits[waited - 1]
           case Reply(_, sends) => end == if sends then None else Some(Raised)
           case StopSet => end == Some(GaveUpWaiting)
           case Poison => end == Some(GaveUpWaiting)
           case Empty => false
  }

  /** Between two turns: everything read was handed on, and every question in it has had its one reply. */
  predicate InStep(handled: seq<Event>, sent: seq<nat>, turns: seq<Turn>, waits: seq<Wait>, review: bool) {
    && handled == Events(turns) && sent == Replies(waits) && |sent| == Questions(handled, review)
    && (forall i | 0 <= i < |turns| :: GoesOn(turns[i]))
    && (forall i | 0 <= i < |waits| :: Harmless(waits[i]))
  }

  /** What one turn does. */
  predicate Attended(end: Option<End>, waiting: bool, turn: Turn, waits: seq<Wait>, waited: nat, waited': nat, review: bool,
                     handled: seq<Event>, handled': seq<Event>, sent: seq<nat>, sent': seq<nat>)
  {
    && waited <= waited' <= |waits| && EndsAt(end, waiting, turn, waits, waited', review)
    && (forall i | waited <= i < waited' - 1 :: waits[i].Empty?)
    && (waiting ==> forall i | waited <= i < waited' :: waits[i].Empty?)
    && handled' == (if turn.Got? then handled + [turn.event] else handled)
    && if GoesOn(turn) && turn.Got? && Asks(turn.event, review) then
         && |sent'| == |sent| + (if end == None && !waiting then 1 else 0)
         && (end == None && sent == Replies(waits[..waited]) ==> sent' == Replies(waits[..waited']))
       else sent' == sent && waited' == waited
  }

  /** How a run stands after `used` turns of reading and `waited` turns of waiting: ended by the last turn, as that
      says, still waiting for a reply, or between two turns at the end of the script. */
  predicate Stands(end: Option<End>, turns: seq<Turn>, used: nat, waits: seq<Wait>, waited: nat, review: bool,
                   handled: seq<Event>, sent: seq<nat>)
  {
    && used <= |turns| && waited <= |waits|
    && handled == Events(turns[..used])
    && (forall i | 0 <= i < used - 1 :: GoesOn(turns[i]))
    && (forall i | 0 <= i < waited - 1 :: Harmless(waits[i]))
    && (end.Some? ==> used > 0 && EndsAt(end, false, turns[used - 1], waits, waited, review))
    && (end in {None, Some(ReadDone), Some(Stopped)} ==> sent == Replies(waits[..waited]))
    && (end in {Some(ReadDone), Some(Stopped)} ==> |sent| == Questions(handled, review))
    && (end == Some(GaveUpWaiting) ==> |sent| + 1 == Questions(handled, review))
    && (end == Some(Raised) ==> Questions(handled, review) - 1 <= |sent| <= Questions(handled, review))
    && (end == None ==>
          || (used == |turns| && InStep(handled, sent, turns[..used], waits[..waited], review))
          || (used > 0 && EndsAt(end, true, turns[used - 1], waits, waited, review)
              && |sent| + 1 == Questions(handled, review)))
  }

  lemma QuestionsGrow(events: seq<Event>, event: Event, review: bool)
    ensures Questions(events + [event], review) == Questions(events, review) + if Asks(event, review) then 1 else 0
  {
    assert (events + [event])[..|events|] == events;
  }

  lemma HandledGrow(turns: seq<Turn>, used: nat, handled: seq<Event>, handled': seq<Event>, review: bool)
    requires used < |turns| && handled == Events(turns[..used])
    requires handled' == if turns[used].Got? then handled + [turns[used].event] else handled
    ensures handled' == Events(turns[..used + 1])
    ensures Questions(handled', review) == Questions(handled, review)
              + if turns[used].Got? && Asks(turns[used].event, review) then 1 else 0
  {
    assert turns[..used + 1][..used] == turns[..used];
    if turns[used].Got? {
      QuestionsGrow(handled, turns[used].event, review);
    }
  }

  lemma OneMoreTurn(end: Option<End>, waiting: bool, turns: seq<Turn>, used: nat, waits: seq<Wait>, waited: nat, waited': nat,
                    review: bool, handled: seq<Event>, handled': seq<Event>, sent: seq<nat>, sent': seq<nat>)
    requires used < |turns| && waited <= |waits|
    requires InStep(handled, sent, turns[..used], waits[..waited], review)
    requires Attended(end, waiting, turns[used], waits, waited, waited', review, handled, handled', sent, sent')
    ensures if end == None && !waiting then InStep(handled', sent', turns[..used + 1], waits[..waited'], review)
            else Stands(end, turns, used + 1, waits, waited', review, handled', sent')
  {
    HandledGrow(turns, used, handled, handled', review);
    assert forall i | 0 <= i < used :: turns[i] == turns[..used][i];
    assert forall i | 0 <= i < waited :: waits[i] == waits[..waited][i];
    if end == None && !waiting {
      assert forall i | 0 <= i < waited' - 1 :: Harmless(waits[i]);
    } else {
      assert end.Some? ==> !waiting;
    }
  }

  /** As long as the run goes on it has read no `done`. */
  lemma {:induction false} GoingOnReadsNoDone(turns: seq<Turn>)
    requires forall i | 0 <= i < |turns| :: GoesOn(turns[i])
    ensures NoDone(Events(turns))
    decreases |turns|
  {
    if turns != [] {
      GoingOnReadsNoDone(turns[..|turns| - 1]);
    }
  }

  class Worker {
    const review: bool
    var handled: seq<Event>   // calls of `on_event`
    var sent: seq<nat>        // replies passed to the sandbox
    var errors: nat           // calls of `on_error`
    var exits: nat            // calls of `on_exit`

    constructor (review: bool)
      ensures this.review == review && handled == [] && sent == [] && errors == 0 && exits == 0
    {
      this.review, handled, sent, errors, exits := review, [], [], 0, 0;
    }

    /** `_wait_for_reply`: the first item of the queue, unless the stop flag is seen first. */
    method WaitForReply(waits: seq<Wait>) returns (reply: Option<Wait>, used: nat)
      ensures used <= |waits|
      ensures forall i | 0 <= i < used - 1 :: waits[i].Empty?
      ensures match reply
              case None => used == |waits| && forall i | 0 <= i < used :: waits[i].Empty?
              case Some(w) => used > 0 && w == waits[used - 1] && !w.Empty?
    {
      used := 0;
      while used < |waits|
        invariant used <= |waits| && forall i | 0 <= i < used :: waits[i].Empty?
      {
        used := used + 1;
        if !waits[used - 1].Empty? {
          return Some(waits[used - 1]), used;
        }
      }
      reply := None;
    }

    /** Waiting for a reply and passing it to the sandbox. */
    method PassReply(waits: seq<Wait>, waited: nat) returns (pass: Pass, waited': nat)
      requires waited <= |waits|
      modifies `sent
      ensures waited <= waited' <= |waits|
      ensures forall i | waited <= i < waited' - 1 :: waits[i].Empty?
      ensures if pass == NoneYet then waited' == |waits| && forall i | waited <= i < waited' :: waits[i].Empty?
              else
                && waited' > waited
                && match pass
                   case Passed => waits[waited' - 1].Reply? && waits[waited' - 1].sends
                   case NoReply => waits[waited' - 1] in {StopSet, Poison}
                   case NotTaken => waits[waited' - 1].Reply? && !waits[waited' - 1].sends
      ensures sent == old(sent) + if pass == Passed then [waits[waited' - 1].id] else []
      ensures pass in {Passed, NoneYet} && old(sent) == Replies(waits[..waited]) ==> sent == Replies(waits[..waited'])
    {
      var reply, n := WaitForReply(waits[waited..]);
      RepliesAfterWait(waits, waited, n);
      waited' := waited + n;
      if reply == None {
        return NoneYet, waited';
      }
      assert reply.value == waits[waited' - 1];
      if !reply.value.Reply? {
        return NoReply, waited';
      }
      if !reply.value.sends {
        return NotTaken, waited';
      }
      sent := sent + [reply.value.id];
      pass := Passed;
    }

    /** What one turn of `_run` does. */
    method Attend(turn: Turn, waits: seq<Wait>, waited: nat) returns (end: Option<End>, waiting: bool, waited': nat)
      requires waited <= |waits|
      modifies this
      ensures Attended(end, waiting, turn, waits, waited, waited', review, old(handled), handled, old(sent), sent)
      ensures errors == old(errors) + (if end == Some(Raised) then 1 else 0)
      ensures exits == old(exits) + if end.Some? then 1 else 0
    {
      end, waiting, waited' := None, false, waited;
      match turn {
        case StopSeen => end := Some(Stopped);
        case Silence =>
        case ReceiveFails => end := Some(Raised);
        case Got(event, raises) =>
          handled := handled + [event];
          if raises {
            end := Some(Raised);
          } else if event.Done? {
            end := Some(ReadDone);
          } else if Asks(event, review) {
            var pass;
            pass, waited' := PassReply(waits, waited);
            match pass {
              case Passed =>
              case NoneYet => waiting := true;
              case NoReply => end := Some(GaveUpWaiting);
              case NotTaken => end := Some(Raised);
            }
          }
      }
      if end.Some? {
        errors, exits := errors + (if end == Some(Raised) then 1 else 0), exits + 1;
      }
    }

    /**
     `_run`: every event is handed on in order up to the end; every question but
     perhaps the last gets one reply before the next event is read; and the run
     ends once, with the first turn that ends it and as that turn says.
     `end` is `None` while it still goes on.
     */
    method Run(turns: seq<Turn>, waits: seq<Wait>) returns (end: Option<End>, used: nat, waited: nat)
      requires handled == [] && sent == [] && errors == 0 && exits == 0
      modifies this
      ensures Stands(end, turns, used, waits, waited, review, handled, sent)
      ensures exits == (if end.Some? then 1 else 0) && errors == if end == Some(Raised) then 1 else 0
    {
      end, used, waited := None, 0, 0;
      while used < |turns|
        invariant used <= |turns| && waited <= |waits|
        invariant end == None && errors == 0 && exits == 0
        invariant InStep(handled, sent, turns[..used], waits[..waited], review)
      {
        ghost var handledBefore, sentBefore, waitedBefore := handled, sent, waited;
        var waiting;
        end, waiting, waited := Attend(turns[used], waits, waited);
        OneMoreTurn(end, waiting, turns, used, waits, waitedBefore, waited, review, handledBefore, handled, sentBefore, sent);
        used := used + 1;
        if end.Some? || waiting {
          return;
        }
      }
    }
  }
}
