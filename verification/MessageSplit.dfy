/**
 Splitting long messages for Telegram (adapters/telegram.py): plain text at the
 last newline that fits, Markdown at the last one outside a code fence.
 */
module MessageSplit {
  import opened Prelude

  datatype Mode = Plain | Markdown

  /** `str.count("```")`: occurrences from the left that do not overlap. */
  function Fences(s: string): nat {
    if |s| < 3 then 0
    else if s[..3] == "```" then 1 + Fences(s[3..])
    else Fences(s[1..])
  }

  predicate Outside(s: string) {
    Fences(s) % 2 == 0
  }

  /** A newline at `n` behind at least one character and within the limit. */
  predicate NewlineAt(text: string, n: int, limit: nat) {
    0 < n < limit && n < |text| && text[n] == '\n'
  }

  predicate LastNewline(text: string, n: int, limit: nat) {
    NewlineAt(text, n, limit) && forall k | n < k < limit :: !NewlineAt(text, k, limit)
  }

  predicate LastOutside(text: string, n: int, limit: nat) {
    && NewlineAt(text, n, limit) && Outside(text[..n])
    && forall k | n < k < limit :: !(NewlineAt(text, k, limit) && Outside(text[..k]))
  }

  /** The cut of a text that is too long: the last newline of the kind wanted, else the last newline, else the limit. */
  ghost predicate GoodCut(mode: Mode, text: string, n: nat, limit: nat) {
    if mode.Markdown? && exists k :: LastOutside(text, k, limit) then LastOutside(text, n, limit)
    else if exists k :: LastNewline(text, k, limit) then LastNewline(text, n, limit)
    else n == limit
  }

  /** What remains behind a cut: one newline there is dropped. */
  function Behind(text: string, n: nat): string
    requires n <= |text|
  {
    if n < |text| && text[n] == '\n' then text[n + 1..] else text[n..]
  }

  /** The chunks come from cutting the text again and again until the rest fits. */
  ghost predicate WellCut(mode: Mode, chunks: seq<string>, text: string, limit: nat)
    requires limit > 0
    decreases |text|
  {
    if |text| <= limit then chunks == if text == "" then [] else [text]
    else
      && chunks != []
      && 0 < |chunks[0]| <= limit
      && chunks[0] == text[..|chunks[0]|]
      && GoodCut(mode, text, |chunks[0]|, limit)
      && WellCut(mode, chunks[1..], Behind(text, |chunks[0]|), limit)
  }

  // ---------------------------------------------------------------- the program

  /** `text.rfind("\n", 0, end)`. */
  method RFindNewline(text: string, end: int) returns (pos: int)
    ensures pos == -1 || (0 <= pos < end && pos < |text| && text[pos] == '\n')
    ensures forall k | pos < k < end && 0 <= k < |text| :: text[k] != '\n'
  {
    pos := if end < |text| then end - 1 else |text| - 1;
    if pos < -1 {
      pos := -1;
    }
    while pos >= 0 && text[pos] != '\n'
      invariant -1 <= pos < |text| && pos < (if end < 0 then 0 else end)
      invariant forall k | pos < k < end && 0 <= k < |text| :: text[k] != '\n'
    {
      pos := pos - 1;
    }
  }

  method FindMarkdownSplit(text: string, limit: nat) returns (n: nat)
    requires 0 < limit < |text|
    ensures 0 < n <= limit && GoodCut(Markdown, text, n, limit)
  {
    var pos := RFindNewline(text, limit);
    while pos > 0
      invariant -1 <= pos < limit && (pos > 0 ==> NewlineAt(text, pos, limit))
      invariant forall k | pos < k < limit :: !(NewlineAt(text, k, limit) && Outside(text[..k]))
      decreases pos
    {
      if Fences(text[..pos]) % 2 == 0 {
        assert LastOutside(text, pos, limit);
        return pos;
      }
      pos := RFindNewline(text, pos);
    }
    n := PlainSplit(text, limit);
  }

  /** The cut of `_chunk_text`, and the fallback of the Markdown one. */
  method PlainSplit(text: string, limit: nat) returns (n: nat)
    requires 0 < limit < |text|
    ensures 0 < n <= limit && GoodCut(Plain, text, n, limit)
  {
    var pos := RFindNewline(text, limit);
    if pos > 0 {
      assert LastNewline(text, pos, limit);
      return pos;
    }
    n := limit;
  }

  /** Cutting what remains completes the cutting of the text. */
  ghost predicate Begins(mode: Mode, chunks: seq<string>, remaining: string, text: string, limit: nat)
    requires limit > 0
  {
    forall rest :: WellCut(mode, rest, remaining, limit) ==> WellCut(mode, chunks + rest, text, limit)
  }

  lemma NothingBegins(mode: Mode, text: string, limit: nat)
    requires limit > 0
    ensures Begins(mode, [], text, text, limit)
  {
    forall rest | WellCut(mode, rest, text, limit) ensures WellCut(mode, [] + rest, text, limit) {
      assert [] + rest == rest;
    }
  }

  lemma OneMoreCut(mode: Mode, chunks: seq<string>, chunk: string, remaining: string, text: string, limit: nat)
    requires 0 < |chunk| <= limit < |remaining| && chunk == remaining[..|chunk|] && GoodCut(mode, remaining, |chunk|, limit)
    requires Begins(mode, chunks, remaining, text, limit)
    ensures Begins(mode, chunks + [chunk], Behind(remaining, |chunk|), text, limit)
  {
    forall rest | WellCut(mode, rest, Behind(remaining, |chunk|), limit)
      ensures WellCut(mode, chunks + [chunk] + rest, text, limit)
    {
      assert ([chunk] + rest)[1..] == rest;
      assert WellCut(mode, [chunk] + rest, remaining, limit);
      assert chunks + ([chunk] + rest) == chunks + [chunk] + rest;
    }
  }

  lemma Finishes(mode: Mode, chunks: seq<string>, remaining: string, text: string, limit: nat)
    requires 0 < limit && |remaining| <= limit && Begins(mode, chunks, remaining, text, limit)
    ensures WellCut(mode, if remaining == "" then chunks else chunks + [remaining], text, limit)
  {
    assert chunks + [] == chunks;
    assert WellCut(mode, if remaining == "" then [] else [remaining], remaining, limit);
  }

  /** Both chunking methods; a limit that is not positive is their `ValueError`. */
  method Chunk(mode: Mode, text: string, limit: int) returns (result: Option<seq<string>>)
    ensures limit <= 0 <==> result == None
    ensures limit > 0 && text == "" ==> result == Some([""])
    ensures limit > 0 && text != "" ==> WellCut(mode, result.value, text, limit)
  {
    if limit <= 0 {
      return None;
    }
    if text == "" {
      return Some([""]);
    }
    if |text| <= limit {
      return Some([text]);
    }
    var chunks: seq<string> := [];
    var remaining := text;
    NothingBegins(mode, text, limit);
    while |remaining| > limit
      invariant Begins(mode, chunks, remaining, text, limit)
      decreases |remaining|
    {
      var n;
      if mode.Plain? {
        n := PlainSplit(remaining, limit);
      } else {
        n := FindMarkdownSplit(remaining, limit);
      }
      OneMoreCut(mode, chunks, remaining[..n], remaining, text, limit);
      ghost var behind := Behind(remaining, n);
      chunks := chunks + [remaining[..n]];
      remaining := remaining[n..];
      if remaining[0] == '\n' {
        remaining := remaining[1..];
      }
      assert remaining == behind;
    }
    Finishes(mode, chunks, remaining, text, limit);
    if remaining != "" {
      chunks := chunks + [remaining];
    }
    result := Some(chunks);
  }

  // ---------------------------------------------------------------- what the chunks are

  lemma {:induction false} ChunkSizes(mode: Mode, chunks: seq<string>, text: string, limit: nat)
    requires limit > 0 && WellCut(mode, chunks, text, limit)
    ensures text != "" ==> chunks != []
    ensures forall i | 0 <= i < |chunks| :: 1 <= |chunks[i]| <= limit
    decreases |text|
  {
    if |text| > limit {
      ChunkSizes(mode, chunks[1..], Behind(text, |chunks[0]|), limit);
    }
  }

  /** The chunks, each followed by a newline where `newline` says so. */
  function Joined(chunks: seq<string>, newline: seq<bool>): string
    requires |newline| == |chunks|
  {
    if chunks == [] then "" else Piece(chunks[0], newline[0]) + Joined(chunks[1..], newline[1..])
  }

  function Piece(chunk: string, newline: bool): string {
    if newline then chunk + "\n" else chunk
  }

  lemma CutPiece(text: string, n: nat)
    requires n < |text|
    ensures Piece(text[..n], text[n] == '\n') + Behind(text, n) == text
  {
  }

  lemma JoinedStep(chunk: string, newline: bool, chunks: seq<string>, newlines: seq<bool>)
    requires |chunks| == |newlines|
    ensures Joined([chunk] + chunks, [newline] + newlines) == Piece(chunk, newline) + Joined(chunks, newlines)
  {
    assert ([chunk] + chunks)[1..] == chunks && ([newline] + newlines)[1..] == newlines;
  }

  /** Nothing but newlines is lost, and at most one behind each chunk. */
  lemma {:induction false} ChunksRejoin(mode: Mode, chunks: seq<string>, text: string, limit: nat) returns (newline: seq<bool>)
    requires limit > 0 && WellCut(mode, chunks, text, limit)
    ensures |newline| == |chunks| && Joined(chunks, newline) == text
    decreases |text|
  {
    if text == "" {
      newline := [];
    } else if |text| <= limit {
      newline := [false];
      JoinedStep(text, false, [], []);
    } else {
      var n := |chunks[0]|;
      var rest := ChunksRejoin(mode, chunks[1..], Behind(text, n), limit);
      newline := [text[n] == '\n'] + rest;
      JoinedStep(chunks[0], text[n] == '\n', chunks[1..], rest);
      assert [chunks[0]] + chunks[1..] == chunks;
      CutPiece(text, n);
    }
  }

  lemma {:induction false} CutsDetermined(mode: Mode, a: seq<string>, b: seq<string>, text: string, limit: nat)
    requires limit > 0 && WellCut(mode, a, text, limit) && WellCut(mode, b, text, limit)
    ensures a == b
    decreases |text|
  {
    if |text| > limit {
      assert |a[0]| == |b[0]|;
      CutsDetermined(mode, a[1..], b[1..], Behind(text, |a[0]|), limit);
      assert a == [a[0]] + a[1..] && b == [b[0]] + b[1..];
    }
  }

  // ---------------------------------------------------------------- fences

  /** No fence runs across a newline. */
  lemma {:induction false} FencesAddUp(a: string, b: string)
    ensures Fences(a + "\n" + b) == Fences(a) + Fences(b)
    decreases |a|
  {
    var s := a + "\n" + b;
    if a == "" {
      assert s[1..] == b;
      assert |s| >= 3 ==> s[..3][0] == '\n';
    } else if |a| >= 3 && a[..3] == "```" {
      FencesAddUp(a[3..], b);
      assert s[..3] == a[..3] && s[3..] == a[3..] + "\n" + b;
    } else {
      FencesAddUp(a[1..], b);
      assert s[1..] == a[1..] + "\n" + b;
      if |a| < 3 {
        assert |s| >= 3 ==> s[..3][|a|] == '\n';
      } else {
        assert s[..3] == a[..3];
      }
    }
  }

  lemma CutAtNewline(text: string, n: nat)
    requires n < |text| && text[n] == '\n'
    ensures Fences(text) == Fences(text[..n]) + Fences(Behind(text, n))
  {
    assert text == text[..n] + "\n" + text[n + 1..];
    FencesAddUp(text[..n], text[n + 1..]);
  }

  /** Every cut of the text was one outside a fence. */
  ghost predicate NoFallback(chunks: seq<string>, text: string, limit: nat)
    requires limit > 0 && WellCut(Markdown, chunks, text, limit)
    decreases |text|
  {
    |text| <= limit ||
    (LastOutside(text, |chunks[0]|, limit) && NoFallback(chunks[1..], Behind(text, |chunks[0]|), limit))
  }

  /** Behind a newline outside a fence the rest of a text with all fences closed has all fences closed. */
  lemma OutsideBehind(text: string, n: nat)
    requires n < |text| && text[n] == '\n' && Outside(text) && Outside(text[..n])
    ensures Outside(Behind(text, n))
  {
    CutAtNewline(text, n);
  }

  /** The first cut of such a text, and what is left to cut. */
  lemma FirstCut(chunks: seq<string>, text: string, limit: nat)
    requires 0 < limit < |text| && WellCut(Markdown, chunks, text, limit) && NoFallback(chunks, text, limit)
    requires Outside(text)
    ensures chunks != [] && Outside(chunks[0])
    ensures var n := |chunks[0]|;
            && 0 < n < |text| && text[n] == '\n' && Outside(Behind(text, n))
            && WellCut(Markdown, chunks[1..], Behind(text, n), limit) && NoFallback(chunks[1..], Behind(text, n), limit)
  {
    OutsideBehind(text, |chunks[0]|);
  }

  ghost predicate AllOutside(chunks: seq<string>) {
    forall i | 0 <= i < |chunks| :: Outside(chunks[i])
  }

  lemma AllOutsideWithFirst(chunks: seq<string>)
    requires chunks != [] && Outside(chunks[0]) && AllOutside(chunks[1..])
    ensures AllOutside(chunks)
  {
    forall i | 1 <= i < |chunks| ensures Outside(chunks[i]) {
      assert chunks[i] == chunks[1..][i - 1];
    }
  }

  /** Without a fallback cut, chunks of a text with all fences closed have all fences closed. */
  lemma {:induction false} FencesStayClosed(chunks: seq<string>, text: string, limit: nat)
    requires limit > 0 && WellCut(Markdown, chunks, text, limit) && NoFallback(chunks, text, limit)
    requires Outside(text)
    ensures AllOutside(chunks)
    decreases |text|
  {
    if |text| > limit {
      FirstCut(chunks, text, limit);
      FencesStayClosed(chunks[1..], Behind(text, |chunks[0]|), limit);
      AllOutsideWithFirst(chunks);
    }
  }

  /** A fallback cut at a newline leaves a chunk with a fence open. */
  lemma FallbackOpensFence(text: string, n: nat, limit: nat)
    requires 0 < n < limit < |text| && GoodCut(Markdown, text, n, limit)
    ensures LastOutside(text, n, limit) <==> Outside(text[..n])
  {
    assert LastNewline(text, n, limit) && Outside(text[..n]) ==> LastOutside(text, n, limit);
  }
}
