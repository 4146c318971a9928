/** Small shared vocabulary: optional values, results, and folds whose steps commute. */
module Prelude {

  datatype Option<+T> = None | Some(value: T)

  datatype Result<+T, +E> = Ok(value: T) | Err(error: E)
}

/** Applying a list of operations one after the other, and when the order does not matter. */
module Folds {

  function Fold<S, O>(f: (S, O) -> S, s: S, ops: seq<O>): S
  {
    if ops == [] then s else Fold(f, f(s, ops[0]), ops[1..])
  }

  /** Any two of the listed operations may be swapped, from any state. */
  ghost predicate Commute<S(!new), O(!new)>(f: (S, O) -> S, ops: seq<O>)
  {
    forall s: S, x: O, y: O :: x in ops && y in ops ==> f(f(s, x), y) == f(f(s, y), x)
  }

  lemma {:induction false} FoldAppend<S, O>(f: (S, O) -> S, s: S, a: seq<O>, b: seq<O>)
    ensures Fold(f, s, a + b) == Fold(f, Fold(f, s, a), b)
    decreases |a|
  {
    if a == [] {
      assert a + b == b;
    } else {
      assert (a + b)[0] == a[0] && (a + b)[1..] == a[1..] + b;
      FoldAppend(f, f(s, a[0]), a[1..], b);
    }
  }

  /** An operation standing at position k may be done first. */
  lemma {:induction false} FoldMoveToFront<S(!new), O(!new)>(f: (S, O) -> S, s: S, ops: seq<O>, k: nat)
    requires Commute(f, ops)
    requires k < |ops|
    ensures Fold(f, s, ops) == Fold(f, f(s, ops[k]), ops[..k] + ops[k + 1..])
    decreases k
  {
    if k == 0 {
      assert ops[..0] + ops[1..] == ops[1..];
    } else {
      var rest := ops[1..];
      var without := rest[..k - 1] + rest[k..];
      FoldMoveToFront(f, f(s, ops[0]), rest, k - 1);
      assert rest[k - 1] == ops[k];
      assert ops[0] in ops && ops[k] in ops;
      assert f(f(s, ops[0]), ops[k]) == f(f(s, ops[k]), ops[0]);
      var moved := ops[..k] + ops[k + 1..];
      assert moved[0] == ops[0] && moved[1..] == without;
    }
  }

  /** Two orderings of the same commuting operations end in the same state. */
  lemma {:induction false} FoldPermutation<S(!new), O(!new)>(f: (S, O) -> S, s: S, a: seq<O>, b: seq<O>)
    requires multiset(a) == multiset(b)
    requires Commute(f, a)
    ensures Fold(f, s, a) == Fold(f, s, b)
    decreases |a|
  {
    SameElements(a, b);
    if a == [] {
      assert |multiset(b)| == 0;
      assert b == [];
    } else {
      assert a[0] in multiset(b);
      var k :| 0 <= k < |b| && b[k] == a[0];
      FoldMoveToFront(f, s, b, k);
      var rest := b[..k] + b[k + 1..];
      assert b == b[..k] + [b[k]] + b[k + 1..];
      assert a == [a[0]] + a[1..];
      assert multiset(a[1..]) == multiset(a) - multiset{a[0]};
      assert multiset(rest) == multiset(b) - multiset{a[0]};
      FoldPermutation(f, f(s, a[0]), a[1..], rest);
    }
  }

  lemma SameElements<O>(a: seq<O>, b: seq<O>)
    requires multiset(a) == multiset(b)
    ensures forall x :: x in a <==> x in b
  {
    forall x
      ensures x in a <==> x in b
    {
      assert x in a <==> x in multiset(a);
      assert x in b <==> x in multiset(b);
    }
  }
}
