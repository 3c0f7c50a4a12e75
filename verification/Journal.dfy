/**
 The event journal of adapters/session_persistence.py: a file that keeps a
 bounded tail of the lines written to it.
 */
module Journal {
  import opened Framing
  import opened Prelude

  /** The longest tail of whole lines that is shorter than `budget`. */
  ghost predicate IsLongestTail(tail: seq<string>, lines: seq<string>, budget: nat) {
    exists k: nat ::
      && k <= |lines| && tail == lines[k..] && |Flat(tail)| < budget
      && forall j: nat | j < k :: |Flat(lines[j..])| >= budget
  }

  /** `kept` is what an append with `budget` bytes left beside its line keeps of `lines`. */
  ghost predicate Keeps(kept: seq<string>, lines: seq<string>, budget: nat) {
    if |Flat(lines)| <= budget then kept == lines
    else if budget > 0 then IsLongestTail(kept, lines, budget)
    // a slice from minus zero is the whole file, of which only the first line goes
    else kept == lines[1..]
  }

  /** What stays of the file when `budget` bytes are left beside the new line; `lines` are the file's lines. */
  method Keep(file: string, budget: nat, ghost lines: seq<string>) returns (existing: string, ghost k: nat)
    requires AreLines(lines) && file == Flat(lines)
    ensures k <= |lines| && existing == Flat(lines[k..]) && Keeps(lines[k..], lines, budget)
    ensures |existing| <= budget <==> budget > 0 || |lines| <= 1
  {
    existing, k := file, 0;
    if |existing| <= budget {
      assert |lines| > 1 ==> |Flat(lines)| >= |lines[0]| > 0;
      return;
    }
    var cut := if budget == 0 then 0 else |existing| - budget;
    existing := existing[cut..];
    k := CutAtLine(lines, cut);
    var newline := FindNewline(existing);
    if newline == |existing| {
      FirstNewlineExists(existing);
      return "", k;
    }
    NewlineFound(existing, newline);
    existing := existing[newline + 1..];
    assert |lines| > 1 ==> |Flat(lines[1..])| >= |lines[1]| > 0;
  }

  lemma FirstNewlineExists(s: string)
    ensures NoNewline(s) ==> FirstNewline(s) == |s|
  {
    if s != "" && NoNewline(s) {
      assert s[0] in s;
      FirstNewlineExists(s[1..]);
    }
  }

  /** One event offered to the journal: its encoded line, and whether the file system lets it be written. */
  datatype Offer = Offer(line: string, works: bool)

  predicate Accepted(offer: Offer, enabled: bool, maxBytes: int) {
    enabled && 0 < |offer.line| <= maxBytes && offer.works
  }

  class EventJournal {
    var file: string
    ghost var written: seq<string>
    ghost var dropped: nat

    /** The file holds the lines written, whole and in order, except for some of the first. */
    ghost predicate Valid()
      reads this
    {
      AreLines(written) && dropped <= |written| && file == Flat(written[dropped..])
    }

    ghost function Lines(): seq<string>
      reads this
      requires Valid()
    {
      written[dropped..]
    }

    constructor ()
      ensures Valid() && file == "" && written == []
    {
      file, written, dropped := "", [], 0;
    }

    method Append(offer: Offer, enabled: bool, maxBytes: int) returns (ghost kept: seq<string>)
      requires Valid() && IsLine(offer.line)
      modifies this
      ensures Valid() && dropped >= old(dropped)
      ensures !Accepted(offer, enabled, maxBytes) ==> file == old(file) && written == old(written) && dropped == old(dropped)
      ensures Accepted(offer, enabled, maxBytes) ==>
                && written == old(written) + [offer.line]
                && Lines() == kept + [offer.line]
                && Keeps(kept, old(Lines()), maxBytes - |offer.line|)
                && (|file| <= maxBytes <==> |offer.line| < maxBytes || |old(Lines())| <= 1)
    {
      kept := [];
      var line := offer.line;
      if !enabled || maxBytes <= 0 || |line| > maxBytes || !offer.works {
        return;
      }
      ghost var lines := Lines();
      var rest, k := Keep(file, maxBytes - |line|, lines);
      kept := lines[k..];
      AppendedToTail(written, dropped, k, line);
      ghost var after := (written + [line])[dropped + k..];
      file := rest + line;
      assert file == Flat(after);
      written, dropped := written + [line], dropped + k;
      assert written[dropped..] == after && AreLines(written);
    }

    /** A whole run: whatever fails or is too long, the file is a bounded tail of what was written. */
    method AppendAll(offers: seq<Offer>, enabled: bool, maxBytes: int)
      requires Valid() && written == []
      requires forall i | 0 <= i < |offers| :: IsLine(offers[i].line)
      modifies this
      ensures Valid()
      ensures written == Writable(offers, enabled, maxBytes)
      ensures written != [] ==> dropped < |written|
      ensures (forall i | 0 <= i < |offers| :: |offers[i].line| != maxBytes) && maxBytes >= 0 ==> |file| <= maxBytes
    {
      var i := 0;
      while i < |offers|
        invariant 0 <= i <= |offers| && Valid()
        invariant written == Writable(offers[..i], enabled, maxBytes)
        invariant written != [] ==> dropped < |written|
        invariant (forall k | 0 <= k < i :: |offers[k].line| != maxBytes) && maxBytes >= 0 ==> |file| <= maxBytes
      {
        assert offers[..i + 1][..i] == offers[..i];
        ghost var _ := Append(offers[i], enabled, maxBytes);
        i := i + 1;
      }
      assert offers[..i] == offers;
    }
  }

  /** A line of exactly the limit, written to a file of two lines that fit, leaves the second of them with it. */
  method FullLineExceedsLimit(first: string, second: string, line: string) returns (size: nat)
    requires IsLine(first) && IsLine(second) && IsLine(line)
    requires |first| + |second| <= |line|
    ensures size == |second| + |line| > |line|
  {
    var journal := new EventJournal();
    var limit := |line|;
    ghost var kept := journal.Append(Offer(first, true), true, limit);
    assert journal.Lines() == [first] && journal.written == [first] by { FlatAppend([], first); }
    kept := journal.Append(Offer(second, true), true, limit);
    FlatAppend([], first);
    assert kept == [first] && journal.Lines() == [first, second];
    FlatAppend([first], second);
    kept := journal.Append(Offer(line, true), true, limit);
    assert kept == [second] && journal.Lines() == [second] + [line];
    FlatAppend([second], line);
    FlatAppend([], second);
    size := |journal.file|;
  }

  /** The lines of the offers that are accepted. */
  function Writable(offers: seq<Offer>, enabled: bool, maxBytes: int): seq<string> {
    if offers == [] then []
    else
      var last := offers[|offers| - 1];
      Writable(offers[..|offers| - 1], enabled, maxBytes) + if Accepted(last, enabled, maxBytes) then [last.line] else []
  }

  lemma NewlineFound(s: string, i: nat)
    requires i < |s| && s[i] == '\n' && NoNewline(s[..i])
    ensures FirstNewline(s) == i
  {
    assert IsLine(s[..i + 1]) by {
      assert s[..i + 1][..i] == s[..i];
    }
    LineEndsAtFirstNewline(s[..i + 1], s[i + 1..]);
    assert s[..i + 1] + s[i + 1..] == s;
  }

  lemma CutInLine(line: string, others: string, cut: nat)
    requires IsLine(line) && cut < |line|
    ensures var rest := (line + others)[cut..];
            FirstNewline(rest) < |rest| && rest[FirstNewline(rest) + 1..] == others
  {
    var rest, part := (line + others)[cut..], line[cut..];
    assert rest == part + others;
    assert IsLine(part) by {
      assert part[..|part| - 1] == line[..|line| - 1][cut..];
    }
    LineEndsAtFirstNewline(part, others);
    assert rest[|part|..] == others;
  }

  /**
   Cutting a file of lines anywhere and going on behind the next newline leaves
   whole lines: as many as are shorter than what was left by the cut.
   */
  lemma {:induction false} CutAtLine(lines: seq<string>, cut: nat) returns (k: nat)
    requires AreLines(lines) && cut < |Flat(lines)|
    ensures 0 < k <= |lines|
    ensures var rest := Flat(lines)[cut..];
            FirstNewline(rest) < |rest| && rest[FirstNewline(rest) + 1..] == Flat(lines[k..])
    ensures |Flat(lines[k..])| < |Flat(lines)| - cut
    ensures forall j: nat | j < k :: |Flat(lines[j..])| >= |Flat(lines)| - cut
    ensures cut == 0 ==> k == 1
    decreases |lines|
  {
    var first, others := lines[0], Flat(lines[1..]);
    var rest := Flat(lines)[cut..];
    if cut < |first| {
      k := 1;
      CutInLine(first, others, cut);
    } else {
      var m := CutAtLine(lines[1..], cut - |first|);
      k := m + 1;
      assert rest == others[cut - |first|..];
      assert lines[1..][m..] == lines[k..];
      forall j: nat | j < k ensures |Flat(lines[j..])| >= |Flat(lines)| - cut {
        if j > 0 {
          assert lines[1..][j - 1..] == lines[j..];
        }
      }
    }
  }

  lemma AppendedToTail(written: seq<string>, dropped: nat, k: nat, line: string)
    requires dropped + k <= |written| && AreLines(written) && IsLine(line)
    ensures var after := (written + [line])[dropped + k..];
            && AreLines(written + [line])
            && Flat(after) == Flat(written[dropped..][k..]) + line
            && after == written[dropped..][k..] + [line]
  {
    FlatAppend(written[dropped..][k..], line);
    assert (written + [line])[dropped + k..] == written[dropped..][k..] + [line];
  }

  /** What is kept is determined. */
  lemma LongestTailUnique(a: seq<string>, b: seq<string>, lines: seq<string>, budget: nat)
    requires IsLongestTail(a, lines, budget) && IsLongestTail(b, lines, budget)
    ensures a == b
  {
    var i: nat :| i <= |lines| && a == lines[i..] && |Flat(a)| < budget
                  && forall j: nat | j < i :: |Flat(lines[j..])| >= budget;
    var k: nat :| k <= |lines| && b == lines[k..] && |Flat(b)| < budget
                  && forall j: nat | j < k :: |Flat(lines[j..])| >= budget;
    assert i <= k && k <= i;
  }
}
