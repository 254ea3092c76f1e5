/** The failing-sequence shrinker of the model's property tests (model/src/check.rs).

    `replay(..).is_err()` is an arbitrary predicate on sequences of ops, so everything here holds
    for every kernel, every mutation and every sequence.
  */
module Shrink {

  /** `index` picks the elements of `sub` out of `ops`, in order. */
  ghost predicate Picks<Op>(index: seq<nat>, ops: seq<Op>, sub: seq<Op>) {
    && |index| == |sub|
    && (forall i :: 0 <= i < |index| ==> index[i] < |ops| && sub[i] == ops[index[i]])
    && (forall i, j :: 0 <= i < j < |index| ==> index[i] < index[j])
  }

  ghost predicate Subsequence<Op>(sub: seq<Op>, ops: seq<Op>) {
    exists index: seq<nat> :: Picks(index, ops, sub)
  }

  /** `ops` without its elements from `lo` up to `hi` (`Vec::drain`). */
  function Without<Op>(ops: seq<Op>, lo: nat, hi: nat): seq<Op>
    requires lo <= hi <= |ops|
  {
    ops[..lo] + ops[hi..]
  }

  function DropOne<Op>(ops: seq<Op>, i: nat): seq<Op>
    requires i < |ops|
  {
    Without(ops, i, i + 1)
  }

  /** No single op can be dropped and leave the sequence failing. */
  ghost predicate OneMinimal<Op>(fails: seq<Op> -> bool, ops: seq<Op>) {
    forall i :: 0 <= i < |ops| ==> !fails(DropOne(ops, i))
  }

  lemma {:induction false} PicksWithout<Op>(index: seq<nat>, ops: seq<Op>, sub: seq<Op>, lo: nat, hi: nat)
    requires Picks(index, ops, sub) && lo <= hi <= |sub|
    ensures Picks(Without(index, lo, hi), ops, Without(sub, lo, hi))
  {
    assert |Without(index, lo, hi)| == |Without(sub, lo, hi)|;
  }

  /** Shrink a failing sequence by dropping chunks of it, halving the chunk whenever a whole pass
      drops nothing.
    */
  method Shrink<Op>(fails: seq<Op> -> bool, ops: seq<Op>) returns (shrunk: seq<Op>)
    ensures Subsequence(shrunk, ops)
    ensures shrunk == ops || fails(shrunk)
    ensures OneMinimal(fails, shrunk)
  {
    shrunk := ops;
    var chunk := if (|ops| + 1) / 2 >= 1 then (|ops| + 1) / 2 else 1;
    ghost var index: seq<nat> := seq(|ops|, i requires 0 <= i => i);
    while true
      invariant chunk >= 1
      invariant Picks(index, ops, shrunk)
      invariant shrunk == ops || fails(shrunk)
      decreases |shrunk|, chunk
    {
      var i := 0;
      var changed := false;
      ghost var entered := shrunk;
      while i < |shrunk|
        invariant 0 <= i
        invariant Picks(index, ops, shrunk)
        invariant shrunk == ops || fails(shrunk)
        invariant if changed then |shrunk| < |entered| else shrunk == entered
        invariant !changed && chunk == 1 ==>
                    forall k :: 0 <= k < i && k < |shrunk| ==> !fails(DropOne(shrunk, k))
        decreases |shrunk| - i
      {
        var end := if i + chunk < |shrunk| then i + chunk else |shrunk|;
        var candidate := Without(shrunk, i, end);
        if fails(candidate) {
          PicksWithout(index, ops, shrunk, i, end);
          index := Without(index, i, end);
          shrunk := candidate;
          changed := true;
        } else {
          i := i + chunk;
        }
      }
      if chunk == 1 && !changed {
        return;
      }
      if !changed {
        chunk := if chunk / 2 >= 1 then chunk / 2 else 1;
      }
    }
  }

  /** Every subsequence of `ops` still failing makes `ops` fail: the more ops, the more failures. */
  ghost predicate Monotone<Op(!new)>(fails: seq<Op> -> bool) {
    forall sub: seq<Op>, ops: seq<Op> :: Subsequence(sub, ops) && fails(sub) ==> fails(ops)
  }

  /** A shorter subsequence misses some element: the first index it skips. */
  lemma {:induction false} SkipsOne<Op>(index: seq<nat>, ops: seq<Op>, sub: seq<Op>) returns (skip: nat)
    requires Picks(index, ops, sub) && |sub| < |ops|
    ensures skip < |ops| && forall i :: 0 <= i < |index| ==> index[i] != skip
    ensures forall i :: 0 <= i < skip ==> i < |index| && index[i] == i
  {
    skip := 0;
    while skip < |index| && index[skip] == skip
      invariant 0 <= skip <= |index|
      invariant forall i :: 0 <= i < skip ==> index[i] == i
    {
      skip := skip + 1;
    }
    forall i | 0 <= i < |index|
      ensures index[i] != skip
    {
      if i > skip { assert index[skip] < index[i]; AtLeast(index, ops, sub, skip); }
      else if i == skip { AtLeast(index, ops, sub, skip); }
    }
  }

  lemma {:induction false} AtLeast<Op>(index: seq<nat>, ops: seq<Op>, sub: seq<Op>, i: nat)
    requires Picks(index, ops, sub) && i < |index|
    ensures index[i] >= i
  {
    if i > 0 { AtLeast(index, ops, sub, i - 1); assert index[i - 1] < index[i]; }
  }

  /** For a monotone failure one-minimal is minimal: nothing shorter that is left of the result
      fails, so the shrinker returns only the ops that matter.
    */
  lemma {:induction false} MinimalWhenMonotone<Op(!new)>(fails: seq<Op> -> bool, ops: seq<Op>, sub: seq<Op>)
    requires Monotone(fails) && OneMinimal(fails, ops)
    requires Subsequence(sub, ops) && |sub| < |ops|
    ensures !fails(sub)
  {
    var index: seq<nat> :| Picks(index, ops, sub);
    var skip := SkipsOne(index, ops, sub);
    var rest := DropOne(ops, skip);
    var shifted: seq<nat> :=
      seq(|index|, i requires 0 <= i < |index| => if index[i] <= skip then index[i] else index[i] - 1);
    forall i | 0 <= i < |shifted|
      ensures shifted[i] < |rest| && sub[i] == rest[shifted[i]]
    {
      assert index[i] != skip;
    }
    assert Picks(shifted, rest, sub);
    assert Subsequence(sub, rest);
    assert !fails(rest);
  }
}
