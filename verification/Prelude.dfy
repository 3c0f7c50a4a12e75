/** Small shared vocabulary: optional values, the roles of messages, and facts about sequences and sets. */
module Prelude {

  datatype Option<+T> = None | Some(value: T)

  /** What a message from the agent is for. */
  datatype Role = PlanRole | ClarificationRole | StatusRole

  /** The roles on which a reply of the user is expected. */
  predicate ExpectsReply(role: Role, review: bool) {
    role == ClarificationRole || (role == PlanRole && review)
  }

  function Min(a: int, b: int): int {
    if a <= b then a else b
  }

  function Flat<T>(parts: seq<seq<T>>): seq<T> {
    if parts == [] then [] else parts[0] + Flat(parts[1..])
  }

  lemma {:induction false} FlatConcat<T>(a: seq<seq<T>>, b: seq<seq<T>>)
    ensures Flat(a + b) == Flat(a) + Flat(b)
    decreases |a|
  {
    if a == [] {
      assert a + b == b;
    } else {
      FlatConcat(a[1..], b);
      assert (a + b)[1..] == a[1..] + b;
      assert a[0] + (Flat(a[1..]) + Flat(b)) == (a[0] + Flat(a[1..])) + Flat(b);
    }
  }

  lemma FlatAppend<T>(parts: seq<seq<T>>, part: seq<T>)
    ensures Flat(parts + [part]) == Flat(parts) + part
  {
    FlatConcat(parts, [part]);
    assert [part][1..] == [] && Flat([part]) == part + [];
  }

  lemma FlatPrefix<T>(a: seq<seq<T>>, b: seq<seq<T>>)
    ensures Flat(a) <= Flat(a + b)
  {
    FlatConcat(a, b);
    var first, second := Flat(a), Flat(b);
    assert first <= first + second;
  }

  /** One part more. */
  lemma FlatNext<T>(parts: seq<seq<T>>, i: nat)
    requires i < |parts|
    ensures Flat(parts[..i + 1]) == Flat(parts[..i]) + parts[i]
    ensures Flat(parts[..i + 1]) <= Flat(parts)
  {
    var before, read, rest := parts[..i], parts[..i + 1], parts[i + 1..];
    assert Flat(read) == Flat(before) + parts[i] by {
      FlatAppend(before, parts[i]);
      assert read == before + [parts[i]];
    }
    assert Flat(read) <= Flat(parts) by {
      FlatPrefix(read, rest);
      assert parts == read + rest;
    }
  }

  lemma SubsetSize<T>(a: set<T>, b: set<T>)
    requires a <= b
    ensures |a| <= |b|
  {
    assert b == a + (b - a);
  }
}
