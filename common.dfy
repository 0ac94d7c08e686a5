/** Small value types and sequence helpers shared by every part of the model. */
module Common {

  datatype Option<+T> = None | Some(value: T)

  datatype Result<+T, +E> = Success(value: T) | Failure(error: E)

  /** JavaScript truthiness of an optional string: absent (undefined/null) and "" are falsy. */
  predicate Truthy(s: Option<string>) {
    s.Some? && s.value != ""
  }

  /** `a` is an order-preserving subsequence of `b`. */
  predicate IsSubsequence<T(==)>(a: seq<T>, b: seq<T>)
    decreases |b|
  {
    if a == [] then true
    else if b == [] then false
    else (a[0] == b[0] && IsSubsequence(a[1..], b[1..])) || IsSubsequence(a, b[1..])
  }

  /** A subsequence is never longer than the sequence it is taken from. */
  lemma {:induction false} SubsequenceNotLonger<T>(a: seq<T>, b: seq<T>)
    requires IsSubsequence(a, b)
    ensures |a| <= |b|
    decreases |b|
  {
    if a != [] {
      if a[0] == b[0] && IsSubsequence(a[1..], b[1..]) {
        SubsequenceNotLonger(a[1..], b[1..]);
      } else {
        SubsequenceNotLonger(a, b[1..]);
      }
    }
  }

  /** Every element of a subsequence occurs in the sequence it is taken from. */
  lemma {:induction false} SubsequenceElements<T>(a: seq<T>, b: seq<T>, x: T)
    requires IsSubsequence(a, b) && x in a
    ensures x in b
    decreases |b|
  {
    if a[0] == b[0] && IsSubsequence(a[1..], b[1..]) {
      if x != a[0] {
        SubsequenceElements(a[1..], b[1..], x);
      }
    } else {
      SubsequenceElements(a, b[1..], x);
    }
  }

  /** `Array.prototype.filter`: the elements satisfying `p`, each as often
      as it occurs in `xs`, in their original order. */
  function Filter<T(==,!new)>(xs: seq<T>, p: T -> bool): (r: seq<T>)
    ensures |r| <= |xs|
    ensures forall i :: 0 <= i < |r| ==> p(r[i])
    ensures forall i :: 0 <= i < |r| ==> r[i] in xs
    ensures forall i :: 0 <= i < |xs| && p(xs[i]) ==> xs[i] in r
    ensures forall x {:trigger multiset(r)[x]} :: multiset(r)[x] == (if p(x) then multiset(xs)[x] else 0)
    ensures IsSubsequence(r, xs)
  {
    if xs == [] then []
    else
      var rest := Filter(xs[1..], p);
      FilterCountStep(xs, rest, p);
      FilterMembersStep(xs, rest, p);
      if p(xs[0]) then
        assert ([xs[0]] + rest)[1..] == rest;
        [xs[0]] + rest
      else
        rest
  }

  /** One step of `Filter`'s count: keeping or dropping the head of `xs`
      extends the count of the tail to the whole of `xs`. */
  lemma FilterCountStep<T(!new)>(xs: seq<T>, rest: seq<T>, p: T -> bool)
    requires xs != []
    requires forall x :: multiset(rest)[x] == (if p(x) then multiset(xs[1..])[x] else 0)
    ensures forall x :: multiset(if p(xs[0]) then [xs[0]] + rest else rest)[x] == (if p(x) then multiset(xs)[x] else 0)
  {
    assert xs == [xs[0]] + xs[1..];
    assert multiset(xs) == multiset{xs[0]} + multiset(xs[1..]);
    assert multiset([xs[0]] + rest) == multiset{xs[0]} + multiset(rest);
  }

  /** One step of `Filter`'s membership: keeping or dropping the head of `xs`
      extends what holds of the tail to the whole of `xs`. */
  lemma FilterMembersStep<T>(xs: seq<T>, rest: seq<T>, p: T -> bool)
    requires xs != []
    requires forall i :: 0 <= i < |rest| ==> rest[i] in xs[1..]
    requires forall i :: 0 <= i < |xs[1..]| && p(xs[1..][i]) ==> xs[1..][i] in rest
    ensures var r := if p(xs[0]) then [xs[0]] + rest else rest;
      && (forall i :: 0 <= i < |r| ==> r[i] in xs)
      && (forall i :: 0 <= i < |xs| && p(xs[i]) ==> xs[i] in r)
  {
    assert forall i :: 1 <= i < |xs| ==> xs[i] == xs[1..][i - 1];
  }

  /** Filtering distributes over concatenation. */
  lemma {:induction false} FilterAppend<T(!new)>(xs: seq<T>, ys: seq<T>, p: T -> bool)
    ensures Filter(xs + ys, p) == Filter(xs, p) + Filter(ys, p)
  {
    if xs == [] {
      assert xs + ys == ys;
    } else {
      assert (xs + ys)[1..] == xs[1..] + ys;
      FilterAppend(xs[1..], ys, p);
    }
  }

  /** Filtering keeps a list unchanged when every element passes. */
  lemma {:induction false} FilterKeepsAll<T(!new)>(xs: seq<T>, p: T -> bool)
    requires forall i :: 0 <= i < |xs| ==> p(xs[i])
    ensures Filter(xs, p) == xs
  {
    if xs != [] {
      FilterKeepsAll(xs[1..], p);
      assert [xs[0]] + xs[1..] == xs;
    }
  }

  function Min(a: int, b: int): int {
    if a < b then a else b
  }
}
