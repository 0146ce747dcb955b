/**
 * Sequence operations behind the panels' list state: JavaScript's
 * `array.filter`, and the add-or-remove toggle used for selections and
 * expanded menus.
 */
module Seqs {

  /** `sub` is `xs` with some elements dropped and the rest kept in order. */
  predicate IsSubsequence<T(==)>(sub: seq<T>, xs: seq<T>) {
    if sub == [] then true
    else if xs == [] then false
    else if sub[0] == xs[0] then IsSubsequence(sub[1..], xs[1..])
    else IsSubsequence(sub, xs[1..])
  }

  /** No value occurs twice. */
  predicate NoDuplicates<T(==)>(xs: seq<T>) {
    forall i, j :: 0 <= i < j < |xs| ==> xs[i] != xs[j]
  }

  /** `xs.filter(keep)`: exactly the elements `keep` accepts, in their original order. */
  function Filter<T(==)>(xs: seq<T>, keep: T -> bool): (r: seq<T>)
    ensures forall x :: x in r ==> x in xs && keep(x)
    ensures forall x :: x in xs && keep(x) ==> x in r
    ensures IsSubsequence(r, xs)
    ensures |r| <= |xs|
  {
    if xs == [] then []
    else if keep(xs[0]) then [xs[0]] + Filter(xs[1..], keep)
    else Filter(xs[1..], keep)
  }

  /** A filter that accepts every element returns the whole sequence. */
  lemma {:induction false} FilterKeepsAll<T>(xs: seq<T>, keep: T -> bool)
    requires forall x :: x in xs ==> keep(x)
    ensures Filter(xs, keep) == xs
  {
    if xs != [] {
      FilterKeepsAll(xs[1..], keep);
    }
  }

  /** A filter that accepts no element returns nothing. */
  lemma FilterKeepsNone<T>(xs: seq<T>, keep: T -> bool)
    requires forall i :: 0 <= i < |xs| ==> !keep(xs[i])
    ensures Filter(xs, keep) == []
  {
  }

  /** Filtering distributes over concatenation. */
  lemma {:induction false} FilterAppend<T>(xs: seq<T>, ys: seq<T>, keep: T -> bool)
    ensures Filter(xs + ys, keep) == Filter(xs, keep) + Filter(ys, keep)
  {
    if xs == [] {
      assert xs + ys == ys;
    } else {
      assert (xs + ys)[1..] == xs[1..] + ys;
      FilterAppend(xs[1..], ys, keep);
    }
  }

  /** A subsequence of a duplicate-free sequence is duplicate-free. */
  lemma {:induction false} SubsequenceNoDuplicates<T>(sub: seq<T>, xs: seq<T>)
    requires IsSubsequence(sub, xs) && NoDuplicates(xs)
    ensures NoDuplicates(sub)
  {
    if sub != [] && xs != [] {
      assert NoDuplicates(xs[1..]);
      if sub[0] == xs[0] {
        SubsequenceNoDuplicates(sub[1..], xs[1..]);
        SubsequenceElements(sub[1..], xs[1..]);
        assert sub == [sub[0]] + sub[1..];
        assert xs[0] !in xs[1..];
      } else {
        SubsequenceNoDuplicates(sub, xs[1..]);
      }
    }
  }

  /** Every element of a subsequence is an element of the sequence. */
  lemma {:induction false} SubsequenceElements<T>(sub: seq<T>, xs: seq<T>)
    requires IsSubsequence(sub, xs)
    ensures forall x :: x in sub ==> x in xs
  {
    if sub != [] && xs != [] {
      if sub[0] == xs[0] {
        SubsequenceElements(sub[1..], xs[1..]);
        assert sub == [sub[0]] + sub[1..];
      } else {
        SubsequenceElements(sub, xs[1..]);
      }
    }
  }

  /** `xs.filter(y => y !== x)`: every occurrence of `x` removed. */
  function RemoveAll<T(==)>(xs: seq<T>, x: T): (r: seq<T>)
    ensures x !in r
    ensures forall y :: y in r ==> y in xs
    ensures forall y :: y in xs && y != x ==> y in r
    ensures IsSubsequence(r, xs)
  {
    Filter(xs, y => y != x)
  }

  /**
   * `xs.includes(x) ? xs.filter(y => y !== x) : [...xs, x]`: an absent value
   * is appended at the end, a present one removed, the rest keep their order.
   */
  function Toggle<T(==)>(xs: seq<T>, x: T): (r: seq<T>)
    ensures x in r <==> x !in xs
    ensures forall y :: y in r && y != x ==> y in xs
    ensures forall y :: y in xs && y != x ==> y in r
    ensures x !in xs ==> |r| == |xs| + 1 && r[..|xs|] == xs && r[|xs|] == x
    ensures x in xs ==> IsSubsequence(r, xs)
  {
    if x in xs then RemoveAll(xs, x) else xs + [x]
  }

  /** Toggling keeps a duplicate-free list duplicate-free. */
  lemma ToggleNoDuplicates<T>(xs: seq<T>, x: T)
    requires NoDuplicates(xs)
    ensures NoDuplicates(Toggle(xs, x))
  {
    if x in xs {
      SubsequenceNoDuplicates(Toggle(xs, x), xs);
    }
  }

  /** Toggling an absent value twice gives the original list back. */
  lemma ToggleTwiceAbsent<T>(xs: seq<T>, x: T)
    requires x !in xs
    ensures Toggle(Toggle(xs, x), x) == xs
  {
    var keep := (y: T) => y != x;
    FilterAppend(xs, [x], keep);
    FilterKeepsAll(xs, keep);
    assert Filter([x], keep) == [];
  }

  /** In a duplicate-free list, toggling a present value removes exactly that one entry. */
  lemma {:induction false} ToggleRemovesOne<T>(xs: seq<T>, x: T, i: nat)
    requires NoDuplicates(xs) && i < |xs| && xs[i] == x
    ensures Toggle(xs, x) == xs[..i] + xs[i + 1..]
  {
    var keep := (y: T) => y != x;
    assert xs == xs[..i] + ([xs[i]] + xs[i + 1..]);
    FilterAppend(xs[..i], [xs[i]] + xs[i + 1..], keep);
    FilterAppend([xs[i]], xs[i + 1..], keep);
    assert Filter([xs[i]], keep) == [];
    FilterKeepsAll(xs[..i], keep);
    FilterKeepsAll(xs[i + 1..], keep);
  }

  /**
   * The filter is the only order-preserving selection with its elements:
   * over a duplicate-free sequence, any subsequence holding exactly the
   * accepted elements is the filter's result.
   */
  lemma {:induction false} FilterUnique<T>(xs: seq<T>, keep: T -> bool, r: seq<T>)
    requires NoDuplicates(xs) && IsSubsequence(r, xs)
    requires forall x :: x in r ==> keep(x)
    requires forall x :: x in xs && keep(x) ==> x in r
    ensures r == Filter(xs, keep)
  {
    if xs == [] {
    } else {
      assert NoDuplicates(xs[1..]);
      assert xs[0] !in xs[1..];
      SubsequenceElements(r, xs);
      if r != [] && r[0] == xs[0] {
        SubsequenceNoDuplicates(r, xs);
        assert r == [r[0]] + r[1..];
        forall x | x in xs[1..] && keep(x)
          ensures x in r[1..]
        {
          assert x in xs && x != r[0];
        }
        FilterUnique(xs[1..], keep, r[1..]);
      } else {
        if r != [] {
          SubsequenceElements(r, xs[1..]);
        }
        assert xs[0] !in r;
        forall x | x in xs[1..] && keep(x)
          ensures x in r
        {
          assert x in xs;
        }
        FilterUnique(xs[1..], keep, r);
      }
    }
  }
}
