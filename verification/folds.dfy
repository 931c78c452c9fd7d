/** Every hash in the library consumes its key one byte at a time, front to back,
    threading an accumulator state through a per-byte step. This module gives that
    shape once, as a left fold, with the fact the hash proofs lean on. */
module Folds {

  /** The state reached from `s` after feeding every byte of `key`, in order, to `step`. */
  function Fold<S>(step: (S, bv8) -> S, s: S, key: seq<bv8>): S
    decreases |key|
  {
    if key == [] then s else Fold(step, step(s, key[0]), key[1..])
  }

  /** Feeding one more byte is one more step on the state reached so far:
      this is what lets a loop keep "the state of the prefix read so far" as its invariant. */
  lemma {:induction false} FoldAppend<S>(step: (S, bv8) -> S, s: S, key: seq<bv8>, c: bv8)
    ensures Fold(step, s, key + [c]) == step(Fold(step, s, key), c)
    decreases |key|
  {
    if key == [] {
      assert [c][1..] == [];
    } else {
      assert (key + [c])[0] == key[0];
      assert (key + [c])[1..] == key[1..] + [c];
      FoldAppend(step, step(s, key[0]), key[1..], c);
    }
  }

  /** Feeding `a + b` is feeding `a`, then feeding `b` from where `a` left off. */
  lemma {:induction false} FoldConcat<S>(step: (S, bv8) -> S, s: S, a: seq<bv8>, b: seq<bv8>)
    ensures Fold(step, s, a + b) == Fold(step, Fold(step, s, a), b)
    decreases |a|
  {
    if a == [] {
      assert a + b == b;
    } else {
      assert (a + b)[0] == a[0];
      assert (a + b)[1..] == a[1..] + b;
      FoldConcat(step, step(s, a[0]), a[1..], b);
    }
  }

  /** A one-byte key is a single step from the starting state. */
  lemma FoldSingle<S>(step: (S, bv8) -> S, s: S, c: bv8)
    ensures Fold(step, s, [c]) == step(s, c)
  {
    assert [c][1..] == [];
  }
}
