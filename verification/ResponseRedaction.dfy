/**
 `_redact_value` and the response envelope of `RequestBroker.handle`: redaction
 of a nested response, key by key and string by string.
 */
module ResponseRedaction {
  import opened Prelude
  import opened Redaction

  datatype Entry = Entry(key: Key, value: Value)

  datatype Key = TextKey(text: string) | OtherKey(id: int)

  /** A response: what JSON can hold, and tuples.  A dictionary lists its entries in insertion order. */
  datatype Value =
    | Text(text: string)
    | Bool(flag: bool)
    | Other(id: int)
    | List(items: seq<Value>)
    | Tuple(items: seq<Value>)
    | Dict(entries: seq<Entry>)

  function RedactedKey(k: Key, tokens: seq<string>): Key
    requires NonEmpty(tokens)
  {
    match k
    case TextKey(s) => TextKey(RedactedBy(s, tokens))
    case OtherKey(_) => k
  }

  /** `redacted[key] = value` on an insertion-ordered dictionary. */
  function Put(entries: seq<Entry>, key: Key, value: Value): seq<Entry> {
    if entries == [] then [Entry(key, value)]
    else if entries[0].key == key then [Entry(key, value)] + entries[1..]
    else [entries[0]] + Put(entries[1..], key, value)
  }

  /** The dictionary that inserting the entries one by one leaves. */
  function Inserted(entries: seq<Entry>): seq<Entry> {
    if entries == [] then []
    else
      var n := |entries| - 1;
      Put(Inserted(entries[..n]), entries[n].key, entries[n].value)
  }

  function Redacted(v: Value, tokens: seq<string>): Value
    requires NonEmpty(tokens)
  {
    if tokens == [] then v
    else
      match v
      case Text(s) => Text(RedactedBy(s, tokens))
      case Bool(_) => v
      case Other(_) => v
      case List(items) => List(seq(|items|, i requires 0 <= i < |items| => Redacted(items[i], tokens)))
      case Tuple(items) => Tuple(seq(|items|, i requires 0 <= i < |items| => Redacted(items[i], tokens)))
      case Dict(entries) =>
        Dict(Inserted(seq(|entries|, i requires 0 <= i < |entries| =>
          Entry(RedactedKey(entries[i].key, tokens), Redacted(entries[i].value, tokens)))))
  }

  /** No key and no string anywhere in the value contains a token, and no dictionary has a key twice. */
  ghost predicate CleanValue(v: Value, tokens: seq<string>)
  {
    match v
    case Text(s) => Clean(s, tokens)
    case Bool(_) => true
    case Other(_) => true
    case List(items) => forall i | 0 <= i < |items| :: CleanValue(items[i], tokens)
    case Tuple(items) => forall i | 0 <= i < |items| :: CleanValue(items[i], tokens)
    case Dict(entries) => forall i | 0 <= i < |entries| :: CleanKey(entries[i].key, tokens) && CleanValue(entries[i].value, tokens)
  }

  ghost predicate CleanKey(k: Key, tokens: seq<string>) {
    k.TextKey? ==> Clean(k.text, tokens)
  }

  /** Python dictionaries have no key twice, at any depth. */
  ghost predicate WellFormed(v: Value)
  {
    match v
    case Text(_) => true
    case Bool(_) => true
    case Other(_) => true
    case List(items) => forall i | 0 <= i < |items| :: WellFormed(items[i])
    case Tuple(items) => forall i | 0 <= i < |items| :: WellFormed(items[i])
    case Dict(entries) => DistinctKeys(entries) && forall i | 0 <= i < |entries| :: WellFormed(entries[i].value)
  }

  ghost predicate DistinctKeys(entries: seq<Entry>) {
    forall i, j | 0 <= i < j < |entries| :: entries[i].key != entries[j].key
  }

  ghost predicate CleanEntries(entries: seq<Entry>, tokens: seq<string>) {
    forall i | 0 <= i < |entries| ::
      CleanKey(entries[i].key, tokens) && CleanValue(entries[i].value, tokens) && WellFormed(entries[i].value)
  }

  lemma {:induction false} PutKeepsClean(entries: seq<Entry>, key: Key, value: Value, tokens: seq<string>)
    requires CleanEntries(entries, tokens) && DistinctKeys(entries)
    requires CleanKey(key, tokens) && CleanValue(value, tokens) && WellFormed(value)
    ensures var r := Put(entries, key, value);
            && CleanEntries(r, tokens) && DistinctKeys(r)
            && (forall k | 0 <= k < |r| :: r[k].key == key || exists i :: 0 <= i < |entries| && entries[i].key == r[k].key)
    decreases |entries|
  {
    if entries != [] && entries[0].key != key {
      PutKeepsClean(entries[1..], key, value, tokens);
      var rest := Put(entries[1..], key, value);
      forall k | 0 <= k < |rest|
        ensures rest[k].key != entries[0].key
        ensures rest[k].key == key || exists i :: 0 <= i < |entries| && entries[i].key == rest[k].key
      {
        if rest[k].key != key {
          var i :| 0 <= i < |entries[1..]| && entries[1..][i].key == rest[k].key;
          assert entries[i + 1].key == rest[k].key;
        }
      }
    }
  }

  lemma {:induction false} InsertedClean(entries: seq<Entry>, tokens: seq<string>)
    requires CleanEntries(entries, tokens)
    ensures CleanEntries(Inserted(entries), tokens) && DistinctKeys(Inserted(entries))
    decreases |entries|
  {
    if entries != [] {
      var n := |entries| - 1;
      InsertedClean(entries[..n], tokens);
      PutKeepsClean(Inserted(entries[..n]), entries[n].key, entries[n].value, tokens);
    }
  }

  /** Redaction completeness: with separable tokens nothing in the response contains one. */
  lemma {:induction false} RedactedIsClean(v: Value, tokens: seq<string>)
    requires AllSeparable(tokens) && WellFormed(v)
    ensures CleanValue(Redacted(v, tokens), tokens) && WellFormed(Redacted(v, tokens))
    decreases v
  {
    if tokens == [] {
      EverythingCleanOfNothing(v);
    } else {
      match v
      case Text(s) => RedactionLeavesNoToken(s, tokens);
      case Bool(_) =>
      case Other(_) =>
      case List(items) => forall i | 0 <= i < |items| { RedactedIsClean(items[i], tokens); }
      case Tuple(items) => forall i | 0 <= i < |items| { RedactedIsClean(items[i], tokens); }
      case Dict(entries) =>
        var mapped := seq(|entries|, i requires 0 <= i < |entries| =>
          Entry(RedactedKey(entries[i].key, tokens), Redacted(entries[i].value, tokens)));
        forall i | 0 <= i < |entries|
          ensures CleanValue(mapped[i].value, tokens) && WellFormed(mapped[i].value) && CleanKey(mapped[i].key, tokens)
        {
          RedactedIsClean(entries[i].value, tokens);
          if entries[i].key.TextKey? {
            RedactionLeavesNoToken(entries[i].key.text, tokens);
          }
        }
        InsertedClean(mapped, tokens);
        assert Redacted(v, tokens) == Dict(Inserted(mapped));
    }
  }

  lemma {:induction false} EverythingCleanOfNothing(v: Value)
    ensures CleanValue(v, [])
    decreases v
  {
    match v
    case Text(_) =>
    case Bool(_) =>
    case Other(_) =>
    case List(items) =>
      forall i | 0 <= i < |items| ensures CleanValue(items[i], []) { EverythingCleanOfNothing(items[i]); }
    case Tuple(items) =>
      forall i | 0 <= i < |items| ensures CleanValue(items[i], []) { EverythingCleanOfNothing(items[i]); }
    case Dict(entries) =>
      forall i | 0 <= i < |entries| ensures CleanValue(entries[i].value, []) { EverythingCleanOfNothing(entries[i].value); }
  }

  lemma {:induction false} PutNew(entries: seq<Entry>, key: Key, value: Value)
    requires forall i | 0 <= i < |entries| :: entries[i].key != key
    ensures Put(entries, key, value) == entries + [Entry(key, value)]
    decreases |entries|
  {
    if entries != [] {
      PutNew(entries[1..], key, value);
    }
  }

  lemma {:induction false} InsertingDistinctKeys(entries: seq<Entry>)
    requires DistinctKeys(entries)
    ensures Inserted(entries) == entries
    decreases |entries|
  {
    if entries != [] {
      var n := |entries| - 1;
      InsertingDistinctKeys(entries[..n]);
      PutNew(entries[..n], entries[n].key, entries[n].value);
      assert entries[..n] + [entries[n]] == entries;
    }
  }

  /** A clean response is left alone, so redacting twice changes nothing more. */
  lemma {:induction false} CleanIsUnchanged(v: Value, tokens: seq<string>)
    requires NonEmpty(tokens) && CleanValue(v, tokens) && WellFormed(v)
    ensures Redacted(v, tokens) == v
    decreases v
  {
    if tokens != [] {
      match v
      case Text(s) => RedactingCleanChangesNothing(s, tokens);
      case Bool(_) =>
      case Other(_) =>
      case List(items) => forall i | 0 <= i < |items| { CleanIsUnchanged(items[i], tokens); }
      case Tuple(items) => forall i | 0 <= i < |items| { CleanIsUnchanged(items[i], tokens); }
      case Dict(entries) =>
        forall i | 0 <= i < |entries|
          ensures Entry(RedactedKey(entries[i].key, tokens), Redacted(entries[i].value, tokens)) == entries[i]
        {
          CleanIsUnchanged(entries[i].value, tokens);
          if entries[i].key.TextKey? {
            RedactingCleanChangesNothing(entries[i].key.text, tokens);
          }
        }
        var mapped := seq(|entries|, i requires 0 <= i < |entries| =>
          Entry(RedactedKey(entries[i].key, tokens), Redacted(entries[i].value, tokens)));
        assert mapped == entries;
        InsertingDistinctKeys(entries);
    }
  }

  lemma RedactingTwice(v: Value, tokens: seq<string>)
    requires AllSeparable(tokens) && WellFormed(v)
    ensures Redacted(Redacted(v, tokens), tokens) == Redacted(v, tokens)
  {
    RedactedIsClean(v, tokens);
    CleanIsUnchanged(Redacted(v, tokens), tokens);
  }

  // ---------------------------------------------------------------- nothing else changes

  /** Entry `i` is the last of its key, and is `e`: what a dictionary filled in this order holds. */
  ghost predicate LastOfKey(entries: seq<Entry>, i: nat, e: Entry) {
    i < |entries| && entries[i] == e && forall j | i < j < |entries| :: entries[j].key != e.key
  }

  ghost predicate HoldsLast(given: seq<Entry>, e: Entry) {
    exists i: nat :: LastOfKey(given, i, e)
  }

  /** What filling a dictionary with the given entries leaves: of every key the last entry. */
  ghost predicate Fills(held: seq<Entry>, given: seq<Entry>) {
    DistinctKeys(held) && forall e :: e in held <==> HoldsLast(given, e)
  }

  /** Putting a key replaces the entry of that key and no other. */
  lemma {:induction false} PutReplaces(entries: seq<Entry>, key: Key, value: Value)
    requires DistinctKeys(entries)
    ensures forall e :: e in Put(entries, key, value) <==> e == Entry(key, value) || (e.key != key && e in entries)
    decreases |entries|
  {
    if entries != [] {
      var first, rest := entries[0], entries[1..];
      assert entries == [first] + rest;
      if first.key == key {
        assert forall e | e in rest :: e.key != key;
      } else {
        PutReplaces(rest, key, value);
      }
    }
  }

  lemma {:induction false} PutKeepsDistinct(entries: seq<Entry>, key: Key, value: Value)
    requires DistinctKeys(entries)
    ensures DistinctKeys(Put(entries, key, value))
    decreases |entries|
  {
    if entries != [] && entries[0].key != key {
      var rest := entries[1..];
      PutKeepsDistinct(rest, key, value);
      PutReplaces(rest, key, value);
      var after := Put(rest, key, value);
      forall k | 0 <= k < |after| ensures after[k].key != entries[0].key {
        assert after[k] in after;
      }
    }
  }

  lemma LastGrows(given: seq<Entry>, last: Entry, e: Entry)
    ensures HoldsLast(given + [last], e) <==> e == last || (e.key != last.key && HoldsLast(given, e))
  {
    var all := given + [last];
    if e == last {
      assert LastOfKey(all, |given|, e);
    } else if e.key != last.key && HoldsLast(given, e) {
      var i: nat :| LastOfKey(given, i, e);
      assert LastOfKey(all, i, e);
    } else if i: nat :| LastOfKey(all, i, e) {
      assert all[|given|] == last && forall j | 0 <= j < |given| :: all[j] == given[j];
      assert i < |given| && LastOfKey(given, i, e);
    }
  }

  /** Filling a dictionary keeps exactly the last entry of every key. */
  lemma {:induction false} InsertedKeepsLast(entries: seq<Entry>)
    ensures Fills(Inserted(entries), entries)
    decreases |entries|
  {
    if entries != [] {
      var n := |entries| - 1;
      var before, last := entries[..n], entries[n];
      assert entries == before + [last];
      InsertedKeepsLast(before);
      PutReplaces(Inserted(before), last.key, last.value);
      PutKeepsDistinct(Inserted(before), last.key, last.value);
      forall e ensures e in Inserted(entries) <==> HoldsLast(entries, e) {
        LastGrows(before, last, e);
      }
    }
  }

  /** `w` is `v` with every string and key redacted and nothing else changed: lists keep their places, and of
      keys that redaction makes equal the last one counts. */
  ghost predicate RedactionOf(w: Value, v: Value, tokens: seq<string>)
    requires NonEmpty(tokens)
    decreases v
  {
    match v
    case Text(s) => w == Text(RedactedBy(s, tokens))
    case Bool(_) => w == v
    case Other(_) => w == v
    case List(items) =>
      w.List? && |w.items| == |items| && forall i | 0 <= i < |items| :: RedactionOf(w.items[i], items[i], tokens)
    case Tuple(items) =>
      w.Tuple? && |w.items| == |items| && forall i | 0 <= i < |items| :: RedactionOf(w.items[i], items[i], tokens)
    case Dict(entries) =>
      && w.Dict?
      && exists mapped: seq<Entry> ::
           && Fills(w.entries, mapped) && |mapped| == |entries|
           && forall i | 0 <= i < |entries| ::
                mapped[i].key == RedactedKey(entries[i].key, tokens) && RedactionOf(mapped[i].value, entries[i].value, tokens)
  }

  /** The entries of a dictionary, redacted one by one. */
  function Mapped(entries: seq<Entry>, tokens: seq<string>): seq<Entry>
    requires NonEmpty(tokens)
  {
    seq(|entries|, i requires 0 <= i < |entries| =>
      Entry(RedactedKey(entries[i].key, tokens), Redacted(entries[i].value, tokens)))
  }

  lemma RedactedDict(entries: seq<Entry>, tokens: seq<string>)
    requires NonEmpty(tokens) && DistinctKeys(entries)
    ensures Redacted(Dict(entries), tokens) == Dict(Inserted(Mapped(entries, tokens)))
  {
    if tokens == [] {
      assert Mapped(entries, tokens) == entries;
      InsertingDistinctKeys(entries);
    } else {
      assert Mapped(entries, tokens) == seq(|entries|, i requires 0 <= i < |entries| =>
        Entry(RedactedKey(entries[i].key, tokens), Redacted(entries[i].value, tokens)));
    }
  }

  /** Redaction changes strings and keys and nothing else. */
  lemma {:induction false} RedactedIsRedactionOf(v: Value, tokens: seq<string>)
    requires NonEmpty(tokens) && WellFormed(v)
    ensures RedactionOf(Redacted(v, tokens), v, tokens)
    decreases v
  {
    match v
    case Text(s) =>
    case Bool(_) =>
    case Other(_) =>
    case List(items) => forall i | 0 <= i < |items| { RedactedIsRedactionOf(items[i], tokens); }
    case Tuple(items) => forall i | 0 <= i < |items| { RedactedIsRedactionOf(items[i], tokens); }
    case Dict(entries) =>
      var mapped := Mapped(entries, tokens);
      forall i | 0 <= i < |entries| ensures RedactionOf(mapped[i].value, entries[i].value, tokens) {
        RedactedIsRedactionOf(entries[i].value, tokens);
      }
      InsertedKeepsLast(mapped);
      RedactedDict(entries, tokens);
      assert Fills(Redacted(v, tokens).entries, mapped);
  }

  /** On responses, as on strings: for tokens without brackets, longest first, redaction is complete if and only
      if none is part of the marker's word. */
  lemma ResponsesCompleteIff(tokens: seq<string>)
    requires NonEmpty(tokens) && LongestFirst(tokens) && forall i | 0 <= i < |tokens| :: BracketFree(tokens[i])
    ensures (forall v | WellFormed(v) :: CleanValue(Redacted(v, tokens), tokens)) <==> NoneInMarkerWord(tokens)
  {
    CompleteIffNoTokenInMarkerWord(tokens);
    if NoneInMarkerWord(tokens) {
      CompleteWithoutMarkerWordTokens(tokens);
      forall v | WellFormed(v) ensures CleanValue(Redacted(v, tokens), tokens) {
        RedactedIsClean(v, tokens);
      }
    } else {
      var s :| !Clean(RedactedBy(s, tokens), tokens);
      assert WellFormed(Text(s)) && !CleanValue(Redacted(Text(s), tokens), tokens);
    }
  }

  // ---------------------------------------------------------------- the envelope

  function Lookup(entries: seq<Entry>, key: Key): Option<Value> {
    if entries == [] then None
    else if entries[0].key == key then Some(entries[0].value)
    else Lookup(entries[1..], key)
  }

  predicate HasEnvelope(v: Value) {
    v.Dict? && match Lookup(v.entries, TextKey("success")) case Some(Bool(_)) => true case _ => false
  }

  const INVALID := "invalid broker response"
  const MISSING_ENVELOPE := "invalid broker response: missing success envelope"

  function InternalError(detail: string): Value {
    Dict([Entry(TextKey("success"), Bool(false)), Entry(TextKey("error"), Text("internal_error")),
          Entry(TextKey("detail"), Text(detail))])
  }

  /** The end of `handle`: a redacted result without its envelope is replaced by a fixed error, which is not redacted. */
  function Respond(result: Value, tokens: seq<string>): Value
    requires NonEmpty(tokens)
  {
    var redacted := Redacted(result, tokens);
    if !redacted.Dict? then InternalError(INVALID)
    else if HasEnvelope(redacted) then redacted
    else InternalError(MISSING_ENVELOPE)
  }

  const SUCCESS := TextKey("success")

  /** Entry `i` is the last one whose key is redacted to the envelope's. */
  predicate LastSuccess(entries: seq<Entry>, i: nat, tokens: seq<string>)
    requires NonEmpty(tokens)
  {
    && i < |entries| && RedactedKey(entries[i].key, tokens) == SUCCESS
    && forall j | i < j < |entries| :: RedactedKey(entries[j].key, tokens) != SUCCESS
  }

  /** The result is a dictionary whose last entry that is redacted onto the envelope's key holds a Boolean. */
  ghost predicate KeepsEnvelope(result: Value, tokens: seq<string>)
    requires NonEmpty(tokens)
  {
    result.Dict? && exists i: nat :: LastSuccess(result.entries, i, tokens) && result.entries[i].value.Bool?
  }

  lemma {:induction false} LookupHeld(entries: seq<Entry>, key: Key)
    ensures match Lookup(entries, key)
            case Some(value) => Entry(key, value) in entries
            case None => forall e | e in entries :: e.key != key
    decreases |entries|
  {
    if entries != [] {
      LookupHeld(entries[1..], key);
      assert entries == [entries[0]] + entries[1..];
    }
  }

  /** Every key in a sequence of entries has a last entry. */
  lemma {:induction false} HasLast(entries: seq<Entry>, i: nat)
    requires i < |entries|
    ensures exists k: nat, e :: LastOfKey(entries, k, e) && e.key == entries[i].key
    decreases |entries| - i
  {
    if j: nat :| i < j < |entries| && entries[j].key == entries[i].key {
      HasLast(entries, j);
    } else {
      assert LastOfKey(entries, i, entries[i]);
    }
  }

  lemma LookupInserted(mapped: seq<Entry>, key: Key)
    ensures match Lookup(Inserted(mapped), key)
            case Some(value) => HoldsLast(mapped, Entry(key, value))
            case None => forall i | 0 <= i < |mapped| :: mapped[i].key != key
  {
    var held := Inserted(mapped);
    InsertedKeepsLast(mapped);
    LookupHeld(held, key);
    match Lookup(held, key)
    case Some(value) =>
      assert Entry(key, value) in held;
    case None =>
      forall i | 0 <= i < |mapped| ensures mapped[i].key != key {
        HasLast(mapped, i);
        var k: nat, e :| LastOfKey(mapped, k, e) && e.key == mapped[i].key;
        assert e in held;
      }
  }

  lemma RedactedBool(v: Value, tokens: seq<string>)
    requires NonEmpty(tokens)
    ensures Redacted(v, tokens).Bool? <==> v.Bool?
    ensures Redacted(v, tokens).Dict? <==> v.Dict?
  {
  }

  lemma LastSuccessMapped(entries: seq<Entry>, i: nat, tokens: seq<string>, value: Value)
    requires NonEmpty(tokens)
    ensures LastOfKey(Mapped(entries, tokens), i, Entry(SUCCESS, value)) <==>
              LastSuccess(entries, i, tokens) && value == Redacted(entries[i].value, tokens)
  {
    var mapped := Mapped(entries, tokens);
    assert forall j | 0 <= j < |entries| :: mapped[j].key == RedactedKey(entries[j].key, tokens);
  }

  /** The envelope survives redaction exactly when the result keeps it. */
  lemma EnvelopeSurvivesIff(result: Value, tokens: seq<string>)
    requires NonEmpty(tokens) && WellFormed(result)
    ensures HasEnvelope(Redacted(result, tokens)) <==> KeepsEnvelope(result, tokens)
  {
    RedactedBool(result, tokens);
    if result.Dict? {
      var entries, mapped := result.entries, Mapped(result.entries, tokens);
      RedactedDict(entries, tokens);
      LookupInserted(mapped, SUCCESS);
      match Lookup(Inserted(mapped), SUCCESS)
      case Some(value) =>
        var i: nat :| LastOfKey(mapped, i, Entry(SUCCESS, value));
        LastSuccessMapped(entries, i, tokens, value);
        RedactedBool(entries[i].value, tokens);
        forall k: nat | LastSuccess(entries, k, tokens) ensures k == i {}
      case None =>
        forall i: nat ensures !LastSuccess(entries, i, tokens) {
          assert i < |entries| ==> mapped[i].key == RedactedKey(entries[i].key, tokens);
        }
    }
  }

  /** Exactly when the response is free of tokens: the result keeps its envelope, or the fixed error has none either. */
  lemma ResponseCleanIff(result: Value, tokens: seq<string>)
    requires AllSeparable(tokens) && WellFormed(result)
    ensures CleanValue(Respond(result, tokens), tokens) <==>
              (KeepsEnvelope(result, tokens)
               || CleanValue(InternalError(if result.Dict? then MISSING_ENVELOPE else INVALID), tokens))
  {
    RedactedIsClean(result, tokens);
    EnvelopeSurvivesIff(result, tokens);
    RedactedBool(result, tokens);
  }

  lemma SuccessIsSeparable()
    ensures Separable("success")
  {
    assert BracketFree("success");
    BracketFreeSeparable("success");
    forall p: nat ensures !OccursAt(WORD, "success", p) {
      assert p < |WORD| ==> WORD[p] != 's';
    }
  }

  /** A token that is the envelope's key: the response to a success is the fixed error, which contains the token. */
  lemma EnvelopeTokenSurvives()
    ensures var tokens := ["success"]; var result := Dict([Entry(SUCCESS, Bool(true))]);
            AllSeparable(tokens) && WellFormed(result) && !CleanValue(Respond(result, tokens), tokens)
  {
    var tokens := ["success"];
    var result := Dict([Entry(SUCCESS, Bool(true))]);
    SuccessIsSeparable();
    RedactionLeavesNoToken("success", tokens);
    assert !Clean("success", tokens) by {
      assert OccursAt("success", tokens[0], 0);
    }
    assert RedactedKey(SUCCESS, tokens) != SUCCESS;
    EnvelopeSurvivesIff(result, tokens);
    assert InternalError(MISSING_ENVELOPE).entries[0].key == SUCCESS;
    assert !CleanValue(InternalError(MISSING_ENVELOPE), tokens);
    RedactedBool(result, tokens);
  }
}
