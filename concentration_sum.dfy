/**
 * The filtered sum every concentration-risk resolver is built from: the
 * signed total of `convert(x)` over the items `x` for which `keep(x)` holds.
 * Long and short positions net against each other; nothing is taken in
 * absolute value.
 */
module ConcentrationSum {

  /** Plain signed sum of `convert` over every item of `s`. */
  function Sum<T>(convert: T -> real, s: seq<T>): real
    decreases |s|
  {
    if |s| == 0 then 0.0 else convert(s[0]) + Sum(convert, s[1..])
  }

  /** The items of `all` that satisfy `keep`, in their original order. */
  function Filter<T>(keep: T -> bool, all: seq<T>): (kept: seq<T>)
    ensures |kept| <= |all|
    ensures forall x :: x in kept ==> x in all && keep(x)
    ensures forall x :: x in all && keep(x) ==> x in kept
    decreases |all|
  {
    if |all| == 0 then []
    else (if keep(all[0]) then [all[0]] else []) + Filter(keep, all[1..])
  }

  /** The plain sum over a concatenation is the sum of the two sums. */
  lemma {:induction false} SumAppend<T>(convert: T -> real, a: seq<T>, b: seq<T>)
    ensures Sum(convert, a + b) == Sum(convert, a) + Sum(convert, b)
    decreases |a|
  {
    if |a| == 0 {
      assert a + b == b;
    } else {
      assert (a + b)[1..] == a[1..] + b;
      SumAppend(convert, a[1..], b);
    }
  }

  /** Signed sum of `convert` over the items of `all` that satisfy `keep`, walking the list once. */
  function CalcSum<T>(keep: T -> bool, convert: T -> real, all: seq<T>): real
    decreases |all|
  {
    if |all| == 0 then 0.0
    else (if keep(all[0]) then convert(all[0]) else 0.0) + CalcSum(keep, convert, all[1..])
  }

  /** The filtered sum is the plain sum over exactly the kept items, in their original order. */
  lemma {:induction false} CalcSumIsSumOfKept<T>(keep: T -> bool, convert: T -> real, all: seq<T>)
    ensures CalcSum(keep, convert, all) == Sum(convert, Filter(keep, all))
    decreases |all|
  {
    if |all| > 0 {
      var head := if keep(all[0]) then [all[0]] else [];
      CalcSumIsSumOfKept(keep, convert, all[1..]);
      SumAppend(convert, head, Filter(keep, all[1..]));
      if keep(all[0]) {
        assert head[1..] == [];
      }
    }
  }

  /** Each item occurs in the filtered list as often as in the list when it is kept, and never otherwise. */
  lemma {:induction false} FilterCounts<T>(keep: T -> bool, all: seq<T>, x: T)
    ensures multiset(Filter(keep, all))[x] == if keep(x) then multiset(all)[x] else 0
    decreases |all|
  {
    if |all| > 0 {
      FilterCounts(keep, all[1..], x);
      var head := if keep(all[0]) then [all[0]] else [];
      assert all == [all[0]] + all[1..];
      assert multiset(all) == multiset{all[0]} + multiset(all[1..]);
      assert multiset(Filter(keep, all)) == multiset(head) + multiset(Filter(keep, all[1..]));
    }
  }

  /** The sum over a concatenation is the sum of the two sums. */
  lemma {:induction false} CalcSumAppend<T>(keep: T -> bool, convert: T -> real, a: seq<T>, b: seq<T>)
    ensures CalcSum(keep, convert, a + b) == CalcSum(keep, convert, a) + CalcSum(keep, convert, b)
    decreases |a|
  {
    if |a| == 0 {
      assert a + b == b;
    } else {
      assert (a + b)[1..] == a[1..] + b;
      CalcSumAppend(keep, convert, a[1..], b);
    }
  }

  /**
   * Items that fail the filter are irrelevant: two lists whose kept items
   * are the same, in the same order, have the same sum, however many other
   * items surround them.
   */
  lemma SameKeptSameSum<T>(keep: T -> bool, convert: T -> real, a: seq<T>, b: seq<T>)
    requires Filter(keep, a) == Filter(keep, b)
    ensures CalcSum(keep, convert, a) == CalcSum(keep, convert, b)
  {
    CalcSumIsSumOfKept(keep, convert, a);
    CalcSumIsSumOfKept(keep, convert, b);
  }

  /** Adding an item that fails the filter, anywhere in the list, leaves the sum unchanged. */
  lemma {:induction false} CalcSumSkipsUnkept<T>(keep: T -> bool, convert: T -> real, a: seq<T>, x: T, b: seq<T>)
    requires !keep(x)
    ensures CalcSum(keep, convert, a + [x] + b) == CalcSum(keep, convert, a + b)
  {
    CalcSumAppend(keep, convert, a + [x], b);
    CalcSumAppend(keep, convert, a, [x]);
    CalcSumAppend(keep, convert, a, b);
    assert CalcSum(keep, convert, [x]) == 0.0 + CalcSum(keep, convert, [x][1..]);
  }

  /** Removing one occurrence of `x` from `p + [x] + q` leaves the multiset of the rest. */
  lemma RemoveOne<T>(a: seq<T>, p: seq<T>, x: T, q: seq<T>)
    requires |a| > 0 && a[0] == x && multiset(a) == multiset(p + [x] + q)
    ensures multiset(a[1..]) == multiset(p + q)
  {
    assert a == [x] + a[1..];
    assert multiset(a) == multiset{x} + multiset(a[1..]);
    assert multiset(p + [x] + q) == multiset(p) + multiset{x} + multiset(q);
    assert multiset(p + q) == multiset(p) + multiset(q);
    assert multiset(a[1..]) == multiset(a) - multiset{x};
    assert multiset(p + q) == multiset(p + [x] + q) - multiset{x};
  }

  /** An item of a multiset-equal list occurs somewhere in the other list. */
  lemma Locate<T>(a: seq<T>, b: seq<T>) returns (i: nat)
    requires |a| > 0 && multiset(a) == multiset(b)
    ensures i < |b| && b[i] == a[0]
    ensures b == b[..i] + [a[0]] + b[i + 1..]
  {
    assert a[0] in multiset(b);
    i :| 0 <= i < |b| && b[i] == a[0];
    assert b == b[..i] + [a[0]] + b[i + 1..];
  }

  /** Moving one item to the front does not change the plain sum. */
  lemma MoveToFront<T>(convert: T -> real, p: seq<T>, x: T, q: seq<T>)
    ensures Sum(convert, p + [x] + q) == Sum(convert, [x] + (p + q))
  {
    SumAppend(convert, p + [x], q);
    SumAppend(convert, p, [x]);
    SumAppend(convert, p, q);
    SumAppend(convert, [x], p + q);
  }

  /** The plain sum does not depend on the order of the list. */
  lemma {:induction false} SumPermutation<T>(convert: T -> real, a: seq<T>, b: seq<T>)
    requires multiset(a) == multiset(b)
    ensures Sum(convert, a) == Sum(convert, b)
    decreases |a|
  {
    if |a| == 0 {
      assert |b| == |multiset(b)| == 0;
    } else {
      var x := a[0];
      var i := Locate(a, b);
      RemoveOne(a, b[..i], x, b[i + 1..]);
      SumPermutation(convert, a[1..], b[..i] + b[i + 1..]);
      MoveToFront(convert, b[..i], x, b[i + 1..]);
      assert a == [x] + a[1..];
      SumAppend(convert, [x], a[1..]);
    }
  }

  /** Filtering distributes over concatenation. */
  lemma {:induction false} FilterAppend<T>(keep: T -> bool, a: seq<T>, b: seq<T>)
    ensures Filter(keep, a + b) == Filter(keep, a) + Filter(keep, b)
    decreases |a|
  {
    if |a| == 0 {
      assert a + b == b;
    } else {
      assert (a + b)[1..] == a[1..] + b;
      FilterAppend(keep, a[1..], b);
    }
  }

  /** Filtering lists with the same contents gives lists with the same contents. */
  lemma {:induction false} FilterPermutation<T>(keep: T -> bool, a: seq<T>, b: seq<T>)
    requires multiset(a) == multiset(b)
    ensures multiset(Filter(keep, a)) == multiset(Filter(keep, b))
    decreases |a|
  {
    if |a| == 0 {
      assert |b| == |multiset(b)| == 0;
    } else {
      var x := a[0];
      var i := Locate(a, b);
      var p, q := b[..i], b[i + 1..];
      RemoveOne(a, p, x, q);
      FilterPermutation(keep, a[1..], p + q);
      assert a == [x] + a[1..];
      FilterAppend(keep, [x], a[1..]);
      FilterAppend(keep, p + [x], q);
      FilterAppend(keep, p, [x]);
      FilterAppend(keep, p, q);
      assert multiset(Filter(keep, b))
          == multiset(Filter(keep, p)) + multiset(Filter(keep, [x])) + multiset(Filter(keep, q));
    }
  }

  /** The filtered sum does not depend on the order of the list: any permutation gives the same total. */
  lemma CalcSumPermutation<T>(keep: T -> bool, convert: T -> real, a: seq<T>, b: seq<T>)
    requires multiset(a) == multiset(b)
    ensures CalcSum(keep, convert, a) == CalcSum(keep, convert, b)
  {
    CalcSumIsSumOfKept(keep, convert, a);
    CalcSumIsSumOfKept(keep, convert, b);
    FilterPermutation(keep, a, b);
    SumPermutation(convert, Filter(keep, a), Filter(keep, b));
  }
}
