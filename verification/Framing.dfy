/**
 Line framing over a stream socket: `VsockTransport.receive` in
 agent/transport.py, and the same loop, fed by the connection handshake, in
 sandbox/fire.py.

 A chunk is the decoded text of what one `recv` returned; encoded events are
 ASCII, so any split of the bytes decodes piece by piece.
 */
module Framing {
  import opened Prelude

  /** What one turn of a receive loop meets; the empty chunk is the end of the stream. */
  datatype Recv = Chunk(text: string) | TimedOut | Expired | OsError

  datatype Received = Line(line: string) | Nothing | Failed | Pending

  predicate Quiet(r: Recv) {
    r.TimedOut? || r.Expired?
  }

  predicate Dead(r: Recv) {
    r == OsError || r == Chunk("")
  }

  function LineOf(received: Received): string {
    if received.Line? then received.line else ""
  }

  // ---------------------------------------------------------------- text and lines

  /** All text that a stretch of turns brings in. */
  function Text(script: seq<Recv>): string {
    if script == [] then ""
    else
      var last := script[|script| - 1];
      Text(script[..|script| - 1]) + if last.Chunk? then last.text else ""
  }

  lemma {:induction false} TextConcat(a: seq<Recv>, b: seq<Recv>)
    ensures Text(a + b) == Text(a) + Text(b)
    decreases |b|
  {
    if b == [] {
      assert a + b == a;
    } else {
      var n := |b| - 1;
      var last := if b[n].Chunk? then b[n].text else "";
      TextConcat(a, b[..n]);
      assert (a + b)[..|a + b| - 1] == a + b[..n];
      assert Text(a) + (Text(b[..n]) + last) == (Text(a) + Text(b[..n])) + last;
    }
  }

  lemma TextSplits(script: seq<Recv>, i: nat, j: nat)
    requires i <= j <= |script|
    ensures Text(script[..j]) == Text(script[..i]) + Text(script[i..j])
  {
    TextConcat(script[..i], script[i..j]);
    assert script[..j] == script[..i] + script[i..j];
  }

  lemma TextOneMore(script: seq<Recv>, used: nat, before: string)
    requires used < |script|
    ensures before + Text(script[..used + 1]) ==
            before + Text(script[..used]) + if script[used].Chunk? then script[used].text else ""
  {
    assert script[..used + 1][..used] == script[..used];
  }

  predicate NoNewline(s: string) {
    '\n' !in s
  }

  /** Where the first newline is, or the length if there is none. */
  function FirstNewline(s: string): (i: nat)
    ensures i <= |s| && NoNewline(s[..i]) && (i < |s| ==> s[i] == '\n')
  {
    if s == "" || s[0] == '\n' then 0
    else
      var i := 1 + FirstNewline(s[1..]);
      assert s[..i] == [s[0]] + s[1..][..i - 1];
      i
  }

  lemma NewlineIsFound(s: string)
    ensures NoNewline(s) <==> FirstNewline(s) == |s|
  {
    assert s[..|s|] == s;
  }

  lemma {:induction false} FirstNewlineUnique(s: string, i: nat)
    requires i <= |s| && NoNewline(s[..i]) && (i < |s| ==> s[i] == '\n')
    ensures FirstNewline(s) == i
    decreases |s|
  {
    if i > 0 {
      assert s[0] == s[..i][0];
      assert s[1..][..i - 1] == s[..i][1..];
      FirstNewlineUnique(s[1..], i - 1);
    }
  }

  method FindNewline(s: string) returns (i: nat)
    ensures i == FirstNewline(s)
  {
    i := 0;
    while i < |s| && s[i] != '\n'
      invariant i <= |s| && NoNewline(s[..i])
    {
      i := i + 1;
    }
    FirstNewlineUnique(s, i);
  }

  /** One line: a newline at the end and nowhere else. */
  predicate IsLine(s: string) {
    s != "" && s[|s| - 1] == '\n' && NoNewline(s[..|s| - 1])
  }

  predicate AreLines(lines: seq<string>) {
    forall i | 0 <= i < |lines| :: IsLine(lines[i])
  }

  lemma LineEndsAtFirstNewline(a: string, x: string)
    requires IsLine(a)
    ensures FirstNewline(a + x) == |a| - 1
  {
    assert (a + x)[..|a| - 1] == a[..|a| - 1] && (a + x)[|a| - 1] == a[|a| - 1];
    FirstNewlineUnique(a + x, |a| - 1);
  }

  /** Two strings that start with lines and agree start with the same line. */
  lemma FirstLineUnique(a: string, x: string, b: string, y: string)
    requires IsLine(a) && IsLine(b) && a + x == b + y
    ensures a == b && x == y
  {
    LineEndsAtFirstNewline(a, x);
    LineEndsAtFirstNewline(b, y);
    assert a == (a + x)[..|a|] && b == (b + y)[..|b|];
    assert x == (a + x)[|a|..] && y == (b + y)[|b|..];
  }

  lemma LinesHoldNewlines(lines: seq<string>)
    requires AreLines(lines) && lines != []
    ensures !NoNewline(Flat(lines))
  {
    assert Flat(lines)[|lines[0]| - 1] == '\n';
  }

  // ---------------------------------------------------------------- what one receive leaves

  /** Nothing more is read once a newline is there. */
  predicate StopsInTime(start: string, script: seq<Recv>, used: nat) {
    forall k | 0 <= k < used <= |script| :: NoNewline(start + Text(script[..k]))
  }

  lemma StopsOneLater(start: string, script: seq<Recv>, used: nat)
    requires used < |script|
    ensures StopsInTime(start, script, used) && NoNewline(start + Text(script[..used])) ==> StopsInTime(start, script, used + 1)
  {
    forall k | 0 <= k < used + 1
      ensures StopsInTime(start, script, used) && NoNewline(start + Text(script[..used])) ==>
                NoNewline(start + Text(script[..k]))
    {
      assert k < used || k == used;
    }
  }

  /** What was received and what is buffered are what was buffered at first and what came in since. */
  predicate Conserves(origin: string, lines: seq<string>, buffer: string, script: seq<Recv>, used: nat)
    requires used <= |script|
  {
    Flat(lines) + buffer == origin + Text(script[..used])
  }

  lemma Rearranged(f: string, start: string, l: string, buffer: string, origin: string, x: string, t: string)
    requires f + start == origin + x && l + buffer == start + t
    ensures f + l + buffer == origin + (x + t)
  {
    assert f + l + buffer == f + (l + buffer) == f + (start + t) == (f + start) + t == (origin + x) + t;
  }

  /** One `Receive` over the rest of the script conserves the text. */
  lemma AfterReceive(origin: string, lines: seq<string>, start: string, script: seq<Recv>, used: nat, n: nat,
                     received: Received, buffer: string)
    requires used + n <= |script|
    requires Conserves(origin, lines, start, script, used)
    requires LineOf(received) + buffer == start + Text(script[used..][..n])
    ensures Conserves(origin, if received.Line? then lines + [received.line] else lines, buffer, script, used + n)
    ensures n > 0 ==> script[used..][n - 1] == script[used + n - 1]
    ensures n == 0 ==> |LineOf(received)| + |buffer| == |start|
  {
    TextSplits(script, used, used + n);
    assert script[used..][..n] == script[used..used + n];
    FlatAppend(lines, LineOf(received));
    Rearranged(Flat(lines), start, LineOf(received), buffer, origin, Text(script[..used]), Text(script[used..used + n]));
    assert |LineOf(received) + buffer| == |LineOf(received)| + |buffer|;
  }

  // ---------------------------------------------------------------- the handshake

  /** After how many turns the first newline has come in; none if the stream ends or falls silent before it. */
  function HandshakeEnd(script: seq<Recv>, k: nat): (end: Option<nat>)
    requires k <= |script|
    ensures end.Some? ==> k < end.value <= |script|
    decreases |script| - k
  {
    if k == |script| || !script[k].Chunk? || script[k].text == "" then None
    else if NoNewline(Text(script[..k + 1])) then HandshakeEnd(script, k + 1)
    else Some(k + 1)
  }

  /** The first line of a new connection, the turns it took, and what came in behind it. */
  datatype Greeting = Greeting(line: string, used: nat, remainder: string)

  function GreetingOf(script: seq<Recv>): (greeting: Option<Greeting>)
    ensures greeting.Some? ==> greeting.value.used <= |script|
  {
    match HandshakeEnd(script, 0)
    case None => None
    case Some(used) =>
      var text := Text(script[..used]);
      var n := FirstNewline(text);
      if n == |text| then None else Some(Greeting(text[..n], used, text[n + 1..]))
  }

  lemma GreetingSplits(script: seq<Recv>)
    ensures match GreetingOf(script)
            case None => true
            case Some(g) => NoNewline(g.line) && Text(script[..g.used]) == g.line + "\n" + g.remainder
  {
    match HandshakeEnd(script, 0)
    case None =>
    case Some(used) =>
      var text := Text(script[..used]);
      var n := FirstNewline(text);
      if n < |text| {
        assert text == text[..n] + "\n" + text[n + 1..];
      }
  }

  /** One turn of the connecting loop: the socket is not there yet, or a connection whose handshake meets `script`. */
  datatype Attempt = NoSocket | Try(connects: bool, script: seq<Recv>)

  function GreetingIn(attempt: Attempt): Option<Greeting> {
    if attempt.Try? && attempt.connects then GreetingOf(attempt.script) else None
  }

  predicate Acknowledges(line: string) {
    "OK " <= line
  }

  predicate Acknowledged(attempt: Attempt) {
    GreetingIn(attempt).Some? && Acknowledges(GreetingIn(attempt).value.line)
  }

  /** The last of the first `tried` attempts is the first that is acknowledged. */
  predicate FirstAcknowledged(attempts: seq<Attempt>, tried: nat) {
    && 0 < tried <= |attempts| && Acknowledged(attempts[tried - 1])
    && forall i | 0 <= i < tried - 1 :: !Acknowledged(attempts[i])
  }

  /** What the given attempts leave in the buffer. */
  function Leftover(attempts: seq<Attempt>): string {
    if attempts == [] then ""
    else
      var last := GreetingIn(attempts[|attempts| - 1]);
      Leftover(attempts[..|attempts| - 1]) + if last.Some? then last.value.remainder else ""
  }

  lemma LeftoverOneMore(attempts: seq<Attempt>, tried: nat, before: string)
    requires tried < |attempts|
    ensures before + Leftover(attempts[..tried + 1]) ==
            before + Leftover(attempts[..tried])
              + if GreetingIn(attempts[tried]).Some? then GreetingIn(attempts[tried]).value.remainder else ""
  {
    assert attempts[..tried + 1][..tried] == attempts[..tried];
  }

  /** Nothing is left exactly when nothing came in behind the first line of any attempt. */
  lemma {:induction false} LeftoverEmptyIff(attempts: seq<Attempt>)
    ensures Leftover(attempts) == "" <==>
            forall i | 0 <= i < |attempts| && GreetingIn(attempts[i]).Some? :: GreetingIn(attempts[i]).value.remainder == ""
    decreases |attempts|
  {
    if attempts != [] {
      var n := |attempts| - 1;
      var last := GreetingIn(attempts[n]);
      LeftoverEmptyIff(attempts[..n]);
      assert |Leftover(attempts)| == |Leftover(attempts[..n])| + if last.Some? then |last.value.remainder| else 0;
    }
  }

  const REFUSED := Try(true, [Chunk("NO" + "\n" + "x")])
  const ACCEPTED := Try(true, [Chunk("OK 1" + "\n" + "")])

  /** A refused attempt can leave text behind for the accepted one. */
  lemma LeftoverHappens()
    ensures !Acknowledged(REFUSED) && Acknowledged(ACCEPTED) && Leftover([REFUSED]) == "x"
  {
    GreetingOfOneChunk("NO", "x");
    GreetingOfOneChunk("OK 1", "");
    LeftoverOfOne(REFUSED);
  }

  lemma LeftoverOfOne(attempt: Attempt)
    ensures Leftover([attempt]) == if GreetingIn(attempt).Some? then GreetingIn(attempt).value.remainder else ""
  {
    assert [attempt][..0] == [] && Leftover([]) == "";
  }

  lemma GreetingOfOneChunk(line: string, behind: string)
    requires NoNewline(line)
    ensures GreetingOf([Chunk(line + "\n" + behind)]) == Some(Greeting(line, 1, behind))
  {
    var text := line + "\n" + behind;
    var script := [Chunk(text)];
    assert script[..1] == script && script[..0] == [] && Text(script) == "" + text == text;
    assert text[|line|] == '\n' && text[..|line|] == line && text[|line| + 1..] == behind;
    FirstNewlineUnique(text, |line|);
  }

  // ---------------------------------------------------------------- what was sent is what is received

  /** At any moment what was received is the beginning of what was sent. */
  lemma {:induction false} ReceivedIsPrefix(lines: seq<string>, rest: string, sent: seq<string>)
    requires AreLines(lines) && AreLines(sent) && Flat(lines) + rest == Flat(sent)
    ensures |lines| <= |sent| && lines == sent[..|lines|] && rest == Flat(sent[|lines|..])
    decreases |lines|
  {
    if lines != [] {
      assert Flat(lines) + rest == lines[0] + (Flat(lines[1..]) + rest);
      assert sent != [];
      FirstLineUnique(lines[0], Flat(lines[1..]) + rest, sent[0], Flat(sent[1..]));
      ReceivedIsPrefix(lines[1..], rest, sent[1..]);
      assert lines == [lines[0]] + lines[1..];
      assert sent[1..][|lines[1..]|..] == sent[|lines|..];
      assert sent[..|lines|] == [sent[0]] + sent[1..][..|lines| - 1];
    }
  }

  /** And once all of it has come in, it is all of what was sent. */
  lemma ReceivedIsAll(lines: seq<string>, rest: string, sent: seq<string>)
    requires AreLines(lines) && AreLines(sent) && NoNewline(rest) && Flat(lines) + rest == Flat(sent)
    ensures lines == sent && rest == ""
  {
    ReceivedIsPrefix(lines, rest, sent);
    var tail := sent[|lines|..];
    if tail != [] {
      LinesHoldNewlines(tail);
    }
  }

  lemma ThroughBuffer(lines: seq<string>, rest: string, leftover: string, stream: string, sent: seq<string>)
    requires AreLines(lines) && AreLines(sent) && NoNewline(rest)
    requires stream == Flat(sent) && Flat(lines) + rest == leftover + stream
    ensures lines == sent && rest == "" <==> leftover == ""
  {
    if leftover == "" {
      ReceivedIsAll(lines, rest, sent);
    }
    assert |Flat(lines)| + |rest| == |leftover| + |stream|;
  }

  lemma Behind(head: string, x: string, y: string, stream: string)
    requires head + x + y == head + stream
    ensures x + y == stream
  {
    assert x + y == (head + x + y)[|head|..];
    assert stream == (head + stream)[|head|..];
  }

  /** Encoding of events: one ASCII text without a newline each, decoded again from its line. */
  datatype Codec<!E> = Codec(encode: E -> string, decode: string -> Option<E>)

  ghost predicate Faithful<E(!new)>(codec: Codec<E>) {
    forall e :: NoNewline(codec.encode(e)) && codec.decode(codec.encode(e) + "\n") == Some(e)
  }

  function Encoded<E>(codec: Codec<E>, events: seq<E>): seq<string> {
    seq(|events|, i requires 0 <= i < |events| => codec.encode(events[i]) + "\n")
  }

  lemma EncodedAreLines<E(!new)>(codec: Codec<E>, events: seq<E>)
    requires Faithful(codec)
    ensures AreLines(Encoded(codec, events))
  {
    forall i | 0 <= i < |events| ensures IsLine(Encoded(codec, events)[i]) {
      var e := events[i];
      assert (codec.encode(e) + "\n")[..|codec.encode(e)|] == codec.encode(e);
    }
  }

  predicate DecodesTo<E(==)>(codec: Codec<E>, lines: seq<string>, events: seq<E>) {
    |lines| == |events| && forall i | 0 <= i < |events| :: codec.decode(lines[i]) == Some(events[i])
  }

  lemma EncodingDecodes<E(!new)>(codec: Codec<E>, events: seq<E>)
    requires Faithful(codec)
    ensures DecodesTo(codec, Encoded(codec, events), events)
  {
    forall i | 0 <= i < |events| ensures codec.decode(Encoded(codec, events)[i]) == Some(events[i]) {
      assert codec.decode(codec.encode(events[i]) + "\n") == Some(events[i]);
    }
  }

  /**
   A whole session on one connection: after the acknowledgment the received
   events are the sent ones, in order, when no earlier attempt left text behind;
   and if one did, they are not.
   */
  lemma EventsComeThrough<E(!new)>(codec: Codec<E>, events: seq<E>, ack: string, remainder: string, leftover: string,
                                   incoming: string, lines: seq<string>, rest: string)
    requires Faithful(codec)
    // the stream of the connection, cut somewhere behind the acknowledgment
    requires ack + "\n" + remainder + incoming == ack + "\n" + Flat(Encoded(codec, events))
    // what the receive loop made of it
    requires AreLines(lines) && NoNewline(rest) && Flat(lines) + rest == leftover + remainder + incoming
    ensures lines == Encoded(codec, events) && rest == "" <==> leftover == ""
    ensures leftover == "" ==> DecodesTo(codec, lines, events)
  {
    EncodedAreLines(codec, events);
    Behind(ack + "\n", remainder, incoming, Flat(Encoded(codec, events)));
    ThroughBuffer(lines, rest, leftover, remainder + incoming, Encoded(codec, events));
    assert leftover + (remainder + incoming) == leftover + remainder + incoming;
    EncodingDecodes(codec, events);
  }

  /** All that the connection of an acknowledged attempt brings are the encoded events behind the first line. */
  ghost predicate Brings<E>(attempt: Attempt, codec: Codec<E>, events: seq<E>)
    requires Acknowledged(attempt)
  {
    Text(attempt.script) == GreetingIn(attempt).value.line + "\n" + Flat(Encoded(codec, events))
  }

  /** What the connection brings comes through exactly when nothing was left in the buffer before. */
  ghost predicate ComesThrough<E>(attempt: Attempt, codec: Codec<E>, events: seq<E>, leftover: string,
                                  lines: seq<string>, rest: string)
    requires Acknowledged(attempt)
  {
    Brings(attempt, codec, events) ==>
      && (lines == Encoded(codec, events) && rest == "" <==> leftover == "")
      && (leftover == "" ==> DecodesTo(codec, lines, events))
  }

  lemma SessionReceives<E(!new)>(codec: Codec<E>, events: seq<E>, attempt: Attempt, leftover: string,
                                 lines: seq<string>, rest: string)
    requires Faithful(codec) && Acknowledged(attempt)
    requires var g := GreetingIn(attempt).value;
             AreLines(lines) && NoNewline(rest) && Flat(lines) + rest == leftover + g.remainder + Text(attempt.script[g.used..])
    ensures ComesThrough(attempt, codec, events, leftover, lines, rest)
  {
    var g := GreetingIn(attempt).value;
    GreetingSplits(attempt.script);
    TextSplits(attempt.script, g.used, |attempt.script|);
    assert attempt.script[..|attempt.script|] == attempt.script && attempt.script[g.used..|attempt.script|] == attempt.script[g.used..];
    if Brings(attempt, codec, events) {
      EventsComeThrough(codec, events, g.line, g.remainder, leftover, Text(attempt.script[g.used..]), lines, rest);
    }
  }

  // ---------------------------------------------------------------- the program

  class LineChannel {
    var buffer: string
    var stopping: bool

    constructor ()
      ensures buffer == "" && !stopping
    {
      buffer, stopping := "", false;
    }

    method ExtractLine() returns (line: Option<string>)
      modifies this`buffer
      ensures match line
              case Some(l) => IsLine(l) && l + buffer == old(buffer)
              case None => NoNewline(buffer) && buffer == old(buffer)
    {
      var i := FindNewline(buffer);
      if i == |buffer| {
        assert buffer[..i] == buffer;
        return None;
      }
      line := Some(buffer[..i + 1]);
      assert buffer[..i + 1][..i] == buffer[..i];
      buffer := buffer[i + 1..];
    }

    /**
     Nothing is lost or made up: the line returned and what stays in the buffer
     are what was buffered and what came in; and a buffered line is returned
     before anything more is read.
     */
    method Receive(script: seq<Recv>) returns (received: Received, used: nat)
      modifies this`buffer
      ensures used <= |script|
      ensures StopsInTime(old(buffer), script, used)
      ensures LineOf(received) + buffer == old(buffer) + Text(script[..used])
      ensures if received.Line? then IsLine(received.line) else NoNewline(buffer)
      ensures received.Pending? ==> used == |script|
      ensures received.Nothing? ==> used > 0 && (Quiet(script[used - 1]) || (stopping && Dead(script[used - 1])))
      ensures received.Failed? ==> used > 0 && Dead(script[used - 1]) && !stopping
    {
      used := 0;
      var line := ExtractLine();
      if line.Some? {
        return Line(line.value), used;
      }
      while used < |script|
        invariant 0 <= used <= |script|
        invariant buffer == old(buffer) + Text(script[..used]) && NoNewline(buffer)
        invariant StopsInTime(old(buffer), script, used)
      {
        var next := script[used];
        TextOneMore(script, used, old(buffer));
        StopsOneLater(old(buffer), script, used);
        used := used + 1;
        match next {
          case Expired => return Nothing, used;
          case TimedOut => return Nothing, used;
          case OsError => return (if stopping then Nothing else Failed), used;
          case Chunk(text) =>
            if text == "" {
              return (if stopping then Nothing else Failed), used;
            }
            buffer := buffer + text;
            line := ExtractLine();
            if line.Some? {
              return Line(line.value), used;
            }
        }
      }
      received := Pending;
    }

    /** Receiving again and again, whatever the timeouts, until the connection fails or the script is used up. */
    method ReceiveAll(script: seq<Recv>) returns (lines: seq<string>, used: nat, failed: bool)
      modifies this`buffer
      ensures used <= |script| && AreLines(lines) && NoNewline(buffer)
      ensures Flat(lines) + buffer == old(buffer) + Text(script[..used])
      ensures if failed then used > 0 && Dead(script[used - 1]) else used == |script|
    {
      lines, used, failed := [], 0, false;
      var more := true;
      while more
        invariant used <= |script| && AreLines(lines)
        invariant Conserves(old(buffer), lines, buffer, script, used)
        invariant !more ==> NoNewline(buffer)
        invariant failed ==> !more && used > 0 && Dead(script[used - 1])
        invariant !more && !failed ==> used == |script|
        decreases |script| - used, |buffer|, more
      {
        ghost var start := buffer;
        var received, n := Receive(script[used..]);
        AfterReceive(old(buffer), lines, start, script, used, n, received, buffer);
        used := used + n;
        match received {
          case Line(l) => lines := lines + [l];
          case Pending => more := false;
          case Nothing =>
          case Failed => more, failed := false, true;
        }
      }
    }

    /** `_recv_line_bytes`: the first line, and what follows it goes to the buffer; none exactly when the stream
        ends or falls silent first. */
    method RecvLine(script: seq<Recv>) returns (line: Option<string>, used: nat)
      modifies this`buffer
      ensures match GreetingOf(script)
              case None => line == None && buffer == old(buffer)
              case Some(g) => line == Some(g.line) && used == g.used && buffer == old(buffer) + g.remainder
    {
      line, used := None, 0;
      var data := "";
      while used < |script|
        invariant 0 <= used <= |script|
        invariant data == Text(script[..used]) && buffer == old(buffer)
        invariant HandshakeEnd(script, 0) == HandshakeEnd(script, used)
      {
        var next := script[used];
        assert script[..used + 1][..used] == script[..used];
        used := used + 1;
        if !next.Chunk? || next.text == "" {
          return;
        }
        data := data + next.text;
        var i := FindNewline(data);
        NewlineIsFound(data);
        if i < |data| {
          buffer := buffer + data[i + 1..];
          line := Some(data[..i]);
          return;
        }
      }
    }

    /**
     `_connect_vsock_with_retry`: the first attempt that is acknowledged wins,
     and without one there is no connection; what came behind a refused
     acknowledgment stays in the buffer.
     */
    method Connect(attempts: seq<Attempt>) returns (connected: bool, tried: nat, used: nat)
      modifies this`buffer
      ensures tried <= |attempts|
      ensures connected <==> exists i :: 0 <= i < |attempts| && Acknowledged(attempts[i])
      ensures !connected ==> buffer == old(buffer) + Leftover(attempts)
      ensures connected ==>
                && FirstAcknowledged(attempts, tried)
                && var g := GreetingIn(attempts[tried - 1]).value;
                   used == g.used && buffer == old(buffer) + Leftover(attempts[..tried - 1]) + g.remainder
    {
      connected, tried, used := false, 0, 0;
      while tried < |attempts|
        invariant 0 <= tried <= |attempts| && !connected
        invariant forall i | 0 <= i < tried :: !Acknowledged(attempts[i])
        invariant buffer == old(buffer) + Leftover(attempts[..tried])
      {
        var attempt := attempts[tried];
        LeftoverOneMore(attempts, tried, old(buffer));
        tried := tried + 1;
        if attempt.Try? && attempt.connects {
          var line, n := RecvLine(attempt.script);
          if line.Some? && Acknowledges(line.value) {
            assert Acknowledged(attempts[tried - 1]);
            return true, tried, n;
          }
        }
        assert !Acknowledged(attempts[tried - 1]);
      }
      assert attempts[..tried] == attempts;
    }

    /**
     Connecting and then receiving: if the connection that wins brings the
     encoded events and does not fail, what is received is these events if and
     only if no earlier attempt left text behind.
     */
    method Session<E(!new)>(attempts: seq<Attempt>, ghost codec: Codec<E>, ghost events: seq<E>)
      returns (connected: bool, tried: nat, lines: seq<string>, failed: bool)
      requires buffer == "" && Faithful(codec)
      modifies this`buffer
      ensures tried <= |attempts| && AreLines(lines)
      ensures connected <==> exists i :: 0 <= i < |attempts| && Acknowledged(attempts[i])
      ensures connected ==> FirstAcknowledged(attempts, tried)
      ensures connected && !failed ==>
                ComesThrough(attempts[tried - 1], codec, events, Leftover(attempts[..tried - 1]), lines, buffer)
    {
      var used;
      lines, failed := [], false;
      connected, tried, used := Connect(attempts);
      if connected {
        ghost var attempt, leftover := attempts[tried - 1], Leftover(attempts[..tried - 1]);
        var read;
        lines, read, failed := ReceiveAll(attempts[tried - 1].script[used..]);
        if !failed {
          assert attempt.script[used..][..read] == attempt.script[used..];
          SessionReceives(codec, events, attempt, leftover, lines, buffer);
        }
      }
    }
  }
}
