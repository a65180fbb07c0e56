/** The array operators of the document store that the rest of the model uses, and the
    facts about them that the proofs need. Arrays are sequences; an operator on one
    array of one document is atomic. */
module Mongo {

  datatype Option<+T> = None | Some(value: T)

  /** No value occurs twice. */
  ghost predicate NoDup<T>(s: seq<T>) {
    forall i, j :: 0 <= i < j < |s| ==> s[i] != s[j]
  }

  /** `$pullAll`: removes every copy of every listed value and keeps the order of the rest. */
  function PullAll<T(==,!new)>(s: seq<T>, xs: seq<T>): (r: seq<T>)
    ensures forall y :: y in r <==> y in s && y !in xs
    ensures |r| <= |s|
  {
    if s == [] then []
    else
      var rest := PullAll(s[..|s| - 1], xs);
      if s[|s| - 1] in xs then rest else rest + [s[|s| - 1]]
  }

  /** `$pull` of one value: every copy goes. */
  function Pull<T(==,!new)>(s: seq<T>, x: T): (r: seq<T>)
    ensures forall y :: y in r <==> y in s && y != x
  {
    PullAll(s, [x])
  }

  /** `$addToSet`: appends a value that is not there yet. */
  function AddToSet<T(==,!new)>(s: seq<T>, x: T): (r: seq<T>)
    ensures forall y :: y in r <==> y in s || y == x
    ensures r != []
  {
    if x in s then s else s + [x]
  }

  /** `$addToSet` with `$each`. */
  function AddEach<T(==,!new)>(s: seq<T>, xs: seq<T>): (r: seq<T>)
    ensures forall y :: y in r <==> y in s || y in xs
    ensures s != [] || xs != [] ==> r != []
  {
    if xs == [] then s
    else AddToSet(AddEach(s, xs[..|xs| - 1]), xs[|xs| - 1])
  }

  /** What stays keeps its order and its copies. */
  lemma {:induction false} PullAllConcat<T(!new)>(a: seq<T>, b: seq<T>, xs: seq<T>)
    ensures PullAll(a + b, xs) == PullAll(a, xs) + PullAll(b, xs)
    decreases |b|
  {
    if b == [] {
      assert a + b == a;
    } else {
      assert (a + b)[..|a + b| - 1] == a + b[..|b| - 1];
      PullAllConcat(a, b[..|b| - 1], xs);
    }
  }

  lemma PullAllOne<T(!new)>(x: T, xs: seq<T>)
    ensures PullAll([x], xs) == if x in xs then [] else [x]
  {
    assert [x][..0] == [];
  }

  lemma PullAllEmpty<T(!new)>(s: seq<T>, xs: seq<T>)
    ensures PullAll(s, xs) == [] <==> forall y :: y in s ==> y in xs
  {
  }

  /** None of the operators introduces a duplicate. */
  lemma {:induction false} PullAllNoDup<T(!new)>(s: seq<T>, xs: seq<T>)
    requires NoDup(s)
    ensures NoDup(PullAll(s, xs))
    decreases |s|
  {
    if s != [] {
      PullAllNoDup(s[..|s| - 1], xs);
    }
  }

  lemma {:induction false} AddEachNoDup<T(!new)>(s: seq<T>, xs: seq<T>)
    requires NoDup(s)
    ensures NoDup(AddEach(s, xs))
    decreases |xs|
  {
    if xs != [] {
      AddEachNoDup(s, xs[..|xs| - 1]);
    }
  }
}
