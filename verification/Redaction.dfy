/**
 Redaction in sandbox/broker.py: tokens are replaced one after the other by a
 marker, in every string and key of a nested response.
 */
module Redaction {
  const WORD := "REDACTED"
  const MARKER := "[" + WORD + "]"

  // ---------------------------------------------------------------- strings

  predicate OccursAt(s: string, u: string, p: nat) {
    p + |u| <= |s| && s[p..p + |u|] == u
  }

  ghost predicate Occurs(s: string, u: string) {
    exists p: nat :: OccursAt(s, u, p)
  }

  /** Python's `str.replace`: leftmost occurrences first, none overlapping. */
  function Replace(s: string, t: string): string
    requires t != ""
  {
    if |s| < |t| then s
    else if s[..|t|] == t then MARKER + Replace(s[|t|..], t)
    else [s[0]] + Replace(s[1..], t)
  }

  predicate NonEmpty(tokens: seq<string>) {
    forall i | 0 <= i < |tokens| :: tokens[i] != ""
  }

  function RedactedBy(s: string, tokens: seq<string>): string
    requires NonEmpty(tokens)
    decreases |tokens|
  {
    if tokens == [] then s else RedactedBy(Replace(s, tokens[0]), tokens[1..])
  }

  /** `_redact_string`. */
  method RedactString(value: string, tokens: seq<string>) returns (redacted: string)
    requires NonEmpty(tokens)
    ensures redacted == RedactedBy(value, tokens)
  {
    redacted := value;
    for i := 0 to |tokens|
      invariant RedactedBy(redacted, tokens[i..]) == RedactedBy(value, tokens)
    {
      redacted := Replace(redacted, tokens[i]);
    }
  }

  // ---------------------------------------------------------------- tokens that cannot reappear

  /** The two strings agree as far as both go. */
  predicate Compatible(a: string, b: string) {
    forall k | 0 <= k < |a| && k < |b| :: a[k] == b[k]
  }

  /** No marker can begin inside an occurrence of `u`. */
  predicate MarkerNeverBegins(u: string) {
    forall i | 0 <= i < |u| :: !Compatible(u[i..], MARKER)
  }

  /** No occurrence of `u` can begin inside a marker. */
  predicate NeverBeginsInMarker(u: string) {
    forall j | 0 <= j < |MARKER| :: !Compatible(MARKER[j..], u)
  }

  predicate Separable(u: string) {
    u != "" && MarkerNeverBegins(u) && NeverBeginsInMarker(u)
  }

  predicate AllSeparable(tokens: seq<string>) {
    forall i | 0 <= i < |tokens| :: Separable(tokens[i])
  }

  lemma MarkerNotInFront(x: string, u: string)
    requires u != "" && MarkerNeverBegins(u)
    ensures !OccursAt(MARKER + x, u, 0)
  {
    assert !Compatible(u[0..], MARKER);
    var k :| 0 <= k < |u| && k < |MARKER| && u[0..][k] != MARKER[k];
    assert |u| <= |MARKER + x| ==> (MARKER + x)[0..|u|][k] == MARKER[k];
  }

  /** An occurrence at the front of a replaced string was there before. */
  lemma {:induction false} FrontSurvives(s: string, t: string, u: string)
    requires t != "" && u != "" && MarkerNeverBegins(u)
    ensures OccursAt(Replace(s, t), u, 0) ==> OccursAt(s, u, 0)
    decreases |s|
  {
    var r := Replace(s, t);
    if |s| < |t| {
    } else if s[..|t|] == t {
      MarkerNotInFront(Replace(s[|t|..], t), u);
    } else {
      assert r[1..] == Replace(s[1..], t);
      if |u| > 1 {
        assert MarkerNeverBegins(u[1..]) by {
          forall i | 0 <= i < |u[1..]| ensures !Compatible(u[1..][i..], MARKER) {
            assert u[1..][i..] == u[i + 1..];
          }
        }
        FrontSurvives(s[1..], t, u[1..]);
      }
      FrontIsHeadAndTail(r, u);
      FrontIsHeadAndTail(s, u);
    }
  }

  lemma FrontIsHeadAndTail(s: string, u: string)
    requires s != "" && u != ""
    ensures OccursAt(s, u, 0) <==> s[0] == u[0] && OccursAt(s[1..], u[1..], 0)
  {
    if |u| <= |s| {
      assert s[1..][0..|u| - 1] == s[0..|u|][1..];
      assert s[0..|u|] == [s[0]] + s[1..][0..|u| - 1];
    }
  }

  lemma OverlapIsCompatible(x: string, u: string, p: nat)
    requires p < |MARKER| && OccursAt(MARKER + x, u, p)
    ensures Compatible(MARKER[p..], u)
  {
    var r := MARKER + x;
    forall k | 0 <= k < |MARKER| - p && k < |u| ensures MARKER[p..][k] == u[k] {
      assert r[p..p + |u|][k] == r[p + k] == MARKER[p + k];
    }
  }

  lemma NotInMarker(x: string, u: string, p: nat)
    requires Separable(u) && OccursAt(MARKER + x, u, p)
    ensures p >= |MARKER| && OccursAt(x, u, p - |MARKER|)
  {
    if p < |MARKER| {
      OverlapIsCompatible(x, u, p);
    } else {
      assert x[p - |MARKER|..p - |MARKER| + |u|] == (MARKER + x)[p..p + |u|];
    }
  }

  lemma OccursInTail(s: string, u: string, n: nat)
    requires n <= |s| && Occurs(s[n..], u)
    ensures Occurs(s, u)
  {
    var p: nat :| OccursAt(s[n..], u, p);
    assert s[n + p..n + p + |u|] == s[n..][p..p + |u|];
    assert OccursAt(s, u, n + p);
  }

  /** The pieces with a separator between them. */
  function JoinWith(pieces: seq<string>, separator: string): string
    requires pieces != []
  {
    if |pieces| == 1 then pieces[0] else pieces[0] + (separator + JoinWith(pieces[1..], separator))
  }

  /** The first occurrence of `t` in `s` is at `p`. */
  ghost predicate FirstAt(s: string, t: string, p: nat) {
    OccursAt(s, t, p) && forall q: nat | q < p :: !OccursAt(s, t, q)
  }

  /** The pieces come from cutting at the first occurrence again and again. */
  ghost predicate CutAtFirst(pieces: seq<string>, s: string, t: string)
    decreases |pieces|
  {
    && pieces != []
    && if |pieces| == 1 then pieces[0] == s && !Occurs(s, t)
       else
         && FirstAt(s, t, |pieces[0]|) && pieces[0] == s[..|pieces[0]|]
         && CutAtFirst(pieces[1..], s[|pieces[0]| + |t|..], t)
  }

  /** `str.replace` is cutting out the occurrences from the left and putting the marker in their place: nothing else changes. */
  lemma {:induction false} ReplaceIsRejoin(s: string, t: string) returns (pieces: seq<string>)
    requires t != ""
    ensures CutAtFirst(pieces, s, t)
    ensures JoinWith(pieces, t) == s && JoinWith(pieces, MARKER) == Replace(s, t)
    decreases |s|
  {
    if |s| < |t| {
      pieces := [s];
    } else if s[..|t|] == t {
      var rest := ReplaceIsRejoin(s[|t|..], t);
      pieces := [""] + rest;
      EmptyPiece(rest, t);
      EmptyPiece(rest, MARKER);
      assert pieces[1..] == rest && s[|""| + |t|..] == s[|t|..];
      assert OccursAt(s, t, 0);
      assert t + s[|t|..] == s;
    } else {
      var rest := ReplaceIsRejoin(s[1..], t);
      pieces := [[s[0]] + rest[0]] + rest[1..];
      LongerPiece(s[0], rest, t);
      LongerPiece(s[0], rest, MARKER);
      OneCharacterMore(s, t, rest, pieces);
      assert [s[0]] + s[1..] == s;
    }
  }

  lemma EmptyPiece(rest: seq<string>, separator: string)
    requires rest != []
    ensures JoinWith([""] + rest, separator) == separator + JoinWith(rest, separator)
  {
    assert ([""] + rest)[1..] == rest;
    assert "" + (separator + JoinWith(rest, separator)) == separator + JoinWith(rest, separator);
  }

  lemma LongerPiece(c: char, rest: seq<string>, separator: string)
    requires rest != []
    ensures JoinWith([[c] + rest[0]] + rest[1..], separator) == [c] + JoinWith(rest, separator)
  {
    var pieces := [[c] + rest[0]] + rest[1..];
    assert pieces[1..] == rest[1..];
    if |rest| > 1 {
      var tail := separator + JoinWith(rest[1..], separator);
      assert ([c] + rest[0]) + tail == [c] + (rest[0] + tail);
    }
  }

  lemma OneCharacterMore(s: string, t: string, rest: seq<string>, pieces: seq<string>)
    requires t != "" && |t| <= |s| && s[..|t|] != t
    requires CutAtFirst(rest, s[1..], t) && pieces == [[s[0]] + rest[0]] + rest[1..]
    ensures CutAtFirst(pieces, s, t)
  {
    forall q: nat ensures OccursAt(s, t, q) <==> q > 0 && OccursAt(s[1..], t, q - 1) {
      OccursOneLater(s, t, q);
    }
    assert pieces[1..] == rest[1..];
    if |rest| > 1 {
      assert s[|pieces[0]| + |t|..] == s[1..][|rest[0]| + |t|..];
      assert OccursAt(s, t, |pieces[0]|);
      assert pieces[0] == s[..|pieces[0]|];
    }
  }

  lemma OccursOneLater(s: string, t: string, q: nat)
    requires t != "" && |t| <= |s| && s[..|t|] != t
    ensures OccursAt(s, t, q) <==> q > 0 && OccursAt(s[1..], t, q - 1)
  {
    if q > 0 && q + |t| <= |s| {
      assert s[1..][q - 1..q - 1 + |t|] == s[q..q + |t|];
    }
  }

  /** Replacing one token brings in no separable one. */
  lemma {:induction false} ReplaceBringsNothing(s: string, t: string, u: string)
    requires t != "" && Separable(u) && Occurs(Replace(s, t), u)
    ensures Occurs(s, u)
    decreases |s|
  {
    var r := Replace(s, t);
    var p: nat :| OccursAt(r, u, p);
    if |s| < |t| {
    } else if s[..|t|] == t {
      NotInMarker(Replace(s[|t|..], t), u, p);
      assert Occurs(Replace(s[|t|..], t), u);
      ReplaceBringsNothing(s[|t|..], t, u);
      OccursInTail(s, u, |t|);
    } else if p == 0 {
      FrontSurvives(s, t, u);
    } else {
      assert r[1..][p - 1..p - 1 + |u|] == r[p..p + |u|];
      assert OccursAt(Replace(s[1..], t), u, p - 1);
      ReplaceBringsNothing(s[1..], t, u);
      OccursInTail(s, u, 1);
    }
  }

  /** Replacing a separable token leaves none of it. */
  lemma {:induction false} ReplaceRemoves(s: string, t: string)
    requires Separable(t)
    ensures !Occurs(Replace(s, t), t)
    decreases |s|
  {
    var r := Replace(s, t);
    forall p: nat ensures !OccursAt(r, t, p) {
      if OccursAt(r, t, p) {
        if |s| < |t| {
        } else if s[..|t|] == t {
          NotInMarker(Replace(s[|t|..], t), t, p);
          assert Occurs(Replace(s[|t|..], t), t);
          ReplaceRemoves(s[|t|..], t);
        } else if p == 0 {
          FrontSurvives(s, t, t);
        } else {
          assert r[1..][p - 1..p - 1 + |t|] == r[p..p + |t|];
          assert OccursAt(Replace(s[1..], t), t, p - 1);
          ReplaceRemoves(s[1..], t);
        }
      }
    }
  }

  lemma {:induction false} ReplaceNothing(s: string, t: string)
    requires t != "" && !Occurs(s, t)
    ensures Replace(s, t) == s
    decreases |s|
  {
    if |s| >= |t| {
      assert OccursAt(s, t, 0) <==> s[..|t|] == t;
      if Occurs(s[1..], t) {
        OccursInTail(s, t, 1);
      }
      ReplaceNothing(s[1..], t);
    }
  }

  ghost predicate Clean(s: string, tokens: seq<string>) {
    forall i | 0 <= i < |tokens| :: !Occurs(s, tokens[i])
  }

  /** Replacing the tokens in sequence leaves no token, and brings in none that was absent. */
  lemma {:induction false} RedactionLeavesNoToken(s: string, tokens: seq<string>)
    requires AllSeparable(tokens)
    ensures Clean(RedactedBy(s, tokens), tokens)
    ensures forall u | Separable(u) && !Occurs(s, u) :: !Occurs(RedactedBy(s, tokens), u)
    decreases |tokens|
  {
    if tokens != [] {
      var next := Replace(s, tokens[0]);
      ReplaceRemoves(s, tokens[0]);
      forall u | Separable(u) && Occurs(next, u) ensures Occurs(s, u) {
        ReplaceBringsNothing(s, tokens[0], u);
      }
      RedactionLeavesNoToken(next, tokens[1..]);
      assert forall i | 1 <= i < |tokens| :: tokens[i] == tokens[1..][i - 1];
    }
  }

  lemma {:induction false} RedactingCleanChangesNothing(s: string, tokens: seq<string>)
    requires NonEmpty(tokens) && Clean(s, tokens)
    ensures RedactedBy(s, tokens) == s
  {
    if tokens != [] {
      ReplaceNothing(s, tokens[0]);
      assert forall i | 0 <= i < |tokens| - 1 :: tokens[1..][i] == tokens[i + 1];
      RedactingCleanChangesNothing(s, tokens[1..]);
    }
  }

  // ---------------------------------------------------------------- which tokens are separable

  predicate BracketFree(t: string) {
    '[' !in t && ']' !in t
  }

  /** What begins inside the marker and agrees with it either lies within its word or reaches a bracket. */
  lemma AgreesWithMarker(t: string, j: nat)
    requires t != "" && j < |MARKER| && Compatible(MARKER[j..], t)
    ensures t[0] == MARKER[j]
    ensures j + |t| >= |MARKER| ==> t[|MARKER| - 1 - j] == ']'
    ensures j > 0 && j + |t| < |MARKER| ==> OccursAt(WORD, t, j - 1)
  {
    AgreesWithWrapped(WORD, t, j);
  }

  lemma AgreesWithWrapped(word: string, t: string, j: nat)
    requires var marker := "[" + word + "]"; t != "" && j < |marker| && Compatible(marker[j..], t)
    ensures var marker := "[" + word + "]";
            && t[0] == marker[j]
            && (j + |t| >= |marker| ==> t[|marker| - 1 - j] == ']')
            && (j > 0 && j + |t| < |marker| ==> OccursAt(word, t, j - 1))
  {
    var marker := "[" + word + "]";
    assert forall k | 0 <= k < |t| && j + k < |marker| :: marker[j..][k] == marker[j + k] == t[k];
    if j > 0 && j + |t| < |marker| {
      forall k | 0 <= k < |t| ensures word[j - 1..j - 1 + |t|][k] == t[k] {
        assert word[j - 1 + k] == marker[j + k];
      }
    }
  }

  /** For a token without brackets the test is whether it is part of the marker's word. */
  lemma BracketFreeSeparable(t: string)
    requires t != "" && BracketFree(t)
    ensures Separable(t) <==> !Occurs(WORD, t)
  {
    if !Occurs(WORD, t) {
      forall i | 0 <= i < |t| ensures !Compatible(t[i..], MARKER) {
        assert t[i..][0] != MARKER[0];
      }
      forall j | 0 <= j < |MARKER| ensures !Compatible(MARKER[j..], t) {
        if Compatible(MARKER[j..], t) {
          AgreesWithMarker(t, j);
        }
      }
    } else {
      var p: nat :| OccursAt(WORD, t, p);
      forall k | 0 <= k < |t| ensures MARKER[p + 1..][k] == t[k] {
        assert WORD[p..p + |t|][k] == t[k];
      }
      assert Compatible(MARKER[p + 1..], t);
    }
  }

  /** As the tokens are collected: distinct, longest first. */
  predicate LongestFirst(tokens: seq<string>) {
    forall i, j | 0 <= i < j < |tokens| :: |tokens[i]| >= |tokens[j]| && tokens[i] != tokens[j]
  }

  lemma {:induction false} OnlyThatToken(tokens: seq<string>, m: nat)
    requires NonEmpty(tokens) && LongestFirst(tokens) && m < |tokens|
    ensures RedactedBy(tokens[m], tokens) == RedactedBy(MARKER, tokens[m + 1..])
    decreases m
  {
    var t := tokens[m];
    if m == 0 {
      assert t[|t|..] == "";
      assert Replace(t, t) == MARKER + Replace("", t) == MARKER;
    } else {
      assert t[0..|t|] == t;
      assert forall p: nat :: !OccursAt(t, tokens[0], p);
      ReplaceNothing(t, tokens[0]);
      assert tokens[1..][m - 1] == t && tokens[1..][m..] == tokens[m + 1..];
      OnlyThatToken(tokens[1..], m - 1);
    }
  }

  /** A token that is part of the marker's word defeats redaction: the last such one is its own witness. */
  lemma MarkerWordTokenSurvives(tokens: seq<string>, m: nat)
    requires NonEmpty(tokens) && LongestFirst(tokens) && m < |tokens| && Occurs(WORD, tokens[m])
    requires forall i | m < i < |tokens| :: BracketFree(tokens[i]) && !Occurs(WORD, tokens[i])
    ensures Occurs(RedactedBy(tokens[m], tokens), tokens[m])
  {
    OnlyThatToken(tokens, m);
    var rest := tokens[m + 1..];
    forall i | 0 <= i < |rest| ensures rest[i] != "" && !Occurs(MARKER, rest[i]) {
      assert rest[i] == tokens[m + 1 + i];
      NotInBareMarker(rest[i]);
    }
    RedactingCleanChangesNothing(MARKER, rest);
    WordInMarker(tokens[m]);
  }

  lemma NotInBareMarker(t: string)
    requires t != "" && BracketFree(t) && !Occurs(WORD, t)
    ensures !Occurs(MARKER, t)
  {
    BracketFreeSeparable(t);
    assert MARKER + "" == MARKER;
    forall p: nat | OccursAt(MARKER, t, p) ensures false {
      NotInMarker("", t, p);
    }
  }

  lemma WordInMarker(t: string)
    requires Occurs(WORD, t)
    ensures Occurs(MARKER, t)
  {
    var p: nat :| OccursAt(WORD, t, p);
    assert MARKER[p + 1..p + 1 + |t|] == WORD[p..p + |t|];
    assert OccursAt(MARKER, t, p + 1);
  }

  /** Whatever the string, no token is left in it. */
  ghost predicate Complete(tokens: seq<string>)
    requires NonEmpty(tokens)
  {
    forall s :: Clean(RedactedBy(s, tokens), tokens)
  }

  ghost predicate NoneInMarkerWord(tokens: seq<string>) {
    forall i | 0 <= i < |tokens| :: !Occurs(WORD, tokens[i])
  }

  lemma MarkerWordTokenDefeats(tokens: seq<string>, m: nat)
    requires NonEmpty(tokens) && m < |tokens| && Occurs(RedactedBy(tokens[m], tokens), tokens[m])
    ensures !Complete(tokens)
  {
    assert !Clean(RedactedBy(tokens[m], tokens), tokens);
  }

  /** Exactly when redaction is complete, for tokens without brackets as the program collects them: when
      none of them is part of the word inside the marker. */
  lemma CompleteIffNoTokenInMarkerWord(tokens: seq<string>)
    requires NonEmpty(tokens) && LongestFirst(tokens) && forall i | 0 <= i < |tokens| :: BracketFree(tokens[i])
    ensures Complete(tokens) <==> NoneInMarkerWord(tokens)
  {
    if NoneInMarkerWord(tokens) {
      CompleteWithoutMarkerWordTokens(tokens);
    } else {
      var m := LastInMarkerWord(tokens, |tokens|);
      MarkerWordTokenSurvives(tokens, m);
      MarkerWordTokenDefeats(tokens, m);
    }
  }

  lemma CompleteWithoutMarkerWordTokens(tokens: seq<string>)
    requires NonEmpty(tokens) && forall i | 0 <= i < |tokens| :: BracketFree(tokens[i]) && !Occurs(WORD, tokens[i])
    ensures AllSeparable(tokens) && Complete(tokens)
  {
    forall i | 0 <= i < |tokens| ensures Separable(tokens[i]) {
      BracketFreeSeparable(tokens[i]);
    }
    forall s ensures Clean(RedactedBy(s, tokens), tokens) {
      RedactionLeavesNoToken(s, tokens);
    }
  }

  lemma {:induction false} LastInMarkerWord(tokens: seq<string>, n: nat) returns (m: nat)
    requires n <= |tokens| && exists i :: 0 <= i < n && Occurs(WORD, tokens[i])
    ensures m < n && Occurs(WORD, tokens[m])
    ensures forall i | m < i < n :: !Occurs(WORD, tokens[i])
  {
    if Occurs(WORD, tokens[n - 1]) {
      m := n - 1;
    } else {
      m := LastInMarkerWord(tokens, n - 1);
    }
  }
}
