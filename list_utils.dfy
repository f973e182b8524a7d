/** The `ListUtils` class of src/myapp/app.py: three static functions over a
    list of numbers. Sequences are values, so no operation can change its input.
    `filter_even_numbers` works on integers; `find_max` and `calculate_average`
    take exact reals, which cover the `int | float` elements without rounding. */
module ListUtils {
  import opened Outcome

  /** The message of the `ValueError` raised on an empty list. */
  const EmptyListMessage: string := "List cannot be empty"

  /** Python's `num % 2 == 0`; for a divisor of 2, Python's floored remainder and
      Dafny's Euclidean remainder agree on negative numbers too. */
  predicate IsEven(x: int) {
    x % 2 == 0
  }

  /** `sub` can be obtained from `xs` by deleting elements, keeping the order. */
  ghost predicate IsSubsequence(sub: seq<int>, xs: seq<int>)
    decreases |xs|
  {
    if sub == [] then true
    else if xs == [] then false
    else (sub[0] == xs[0] && IsSubsequence(sub[1..], xs[1..])) || IsSubsequence(sub, xs[1..])
  }

  ghost predicate AllEven(xs: seq<int>) {
    forall i :: 0 <= i < |xs| ==> IsEven(xs[i])
  }

  /** The list comprehension `[num for num in numbers if num % 2 == 0]`; its
      result holds only even numbers. */
  function FilterEven(xs: seq<int>): (r: seq<int>)
    ensures AllEven(r)
  {
    if xs == [] then []
    else if IsEven(xs[0]) then [xs[0]] + FilterEven(xs[1..])
    else FilterEven(xs[1..])
  }

  /** The filter keeps the order of the elements it keeps. */
  lemma {:induction false} FilterEvenSubsequence(xs: seq<int>)
    ensures IsSubsequence(FilterEven(xs), xs)
  {
    if xs != [] {
      var rest := FilterEven(xs[1..]);
      FilterEvenSubsequence(xs[1..]);
      if IsEven(xs[0]) {
        assert ([xs[0]] + rest)[1..] == rest;
      }
    }
  }

  /** Each even value occurs in the result as often as in the input, and no odd
      value occurs. */
  lemma {:induction false} FilterEvenCounts(xs: seq<int>)
    ensures forall v :: multiset(FilterEven(xs))[v] == if IsEven(v) then multiset(xs)[v] else 0
  {
    if xs != [] {
      FilterEvenCounts(xs[1..]);
      assert xs == [xs[0]] + xs[1..];
      assert multiset(xs) == multiset([xs[0]]) + multiset(xs[1..]);
    }
  }

  /** A subsequence is never longer than the sequence. */
  lemma {:induction false} SubsequenceLength(sub: seq<int>, xs: seq<int>)
    requires IsSubsequence(sub, xs)
    ensures |sub| <= |xs|
    decreases |xs|
  {
    if sub != [] {
      if sub[0] == xs[0] && IsSubsequence(sub[1..], xs[1..]) {
        SubsequenceLength(sub[1..], xs[1..]);
      } else {
        SubsequenceLength(sub, xs[1..]);
      }
    }
  }

  /** A subsequence as long as the sequence is the sequence itself. */
  lemma {:induction false} SubsequenceOfSameLength(sub: seq<int>, xs: seq<int>)
    requires IsSubsequence(sub, xs)
    requires |sub| == |xs|
    ensures sub == xs
    decreases |xs|
  {
    if sub != [] {
      if sub[0] == xs[0] && IsSubsequence(sub[1..], xs[1..]) {
        SubsequenceOfSameLength(sub[1..], xs[1..]);
        assert sub == [sub[0]] + sub[1..];
        assert xs == [xs[0]] + xs[1..];
      } else {
        SubsequenceLength(sub, xs[1..]);
      }
    }
  }

  /** Every even element of the input is kept. */
  lemma {:induction false} FilterEvenKeepsEvens(xs: seq<int>)
    ensures forall i :: 0 <= i < |xs| && IsEven(xs[i]) ==> xs[i] in FilterEven(xs)
  {
    FilterEvenCounts(xs);
    forall i | 0 <= i < |xs| && IsEven(xs[i])
      ensures xs[i] in FilterEven(xs)
    {
      assert xs[i] in multiset(xs);
    }
  }

  /** An all-even subsequence of `xs` is a subsequence of the even elements of `xs`. */
  lemma {:induction false} EvenSubsequenceOfFilter(sub: seq<int>, xs: seq<int>)
    requires IsSubsequence(sub, xs)
    requires AllEven(sub)
    ensures IsSubsequence(sub, FilterEven(xs))
    decreases |xs|
  {
    if sub != [] {
      var rest := FilterEven(xs[1..]);
      if sub[0] == xs[0] && IsSubsequence(sub[1..], xs[1..]) {
        assert IsEven(sub[0]);
        EvenSubsequenceOfFilter(sub[1..], xs[1..]);
        assert FilterEven(xs) == [xs[0]] + rest;
        assert ([xs[0]] + rest)[1..] == rest;
      } else {
        EvenSubsequenceOfFilter(sub, xs[1..]);
        if IsEven(xs[0]) {
          assert FilterEven(xs) == [xs[0]] + rest;
          assert ([xs[0]] + rest)[1..] == rest;
        }
      }
    }
  }

  /** The contract of `FilterEven` determines its result: an order-preserving,
      all-even subsequence that keeps every even element as often as it occurs
      is exactly `FilterEven(xs)`. */
  lemma FilterEvenCharacterized(xs: seq<int>, r: seq<int>)
    ensures r == FilterEven(xs) <==>
      IsSubsequence(r, xs) && AllEven(r) &&
      forall v :: multiset(r)[v] == if IsEven(v) then multiset(xs)[v] else 0
  {
    if IsSubsequence(r, xs) && AllEven(r) &&
       forall v :: multiset(r)[v] == if IsEven(v) then multiset(xs)[v] else 0
    {
      var f := FilterEven(xs);
      FilterEvenCounts(xs);
      assert multiset(r) == multiset(f);
      assert |r| == |multiset(r)| == |multiset(f)| == |f|;
      EvenSubsequenceOfFilter(r, xs);
      SubsequenceOfSameLength(r, f);
    }
    FilterEvenSubsequence(xs);
    FilterEvenCounts(xs);
  }

  /** A list of even numbers passes the filter unchanged. */
  lemma {:induction false} FilterEvenOfAllEven(xs: seq<int>)
    requires AllEven(xs)
    ensures FilterEven(xs) == xs
  {
    if xs != [] {
      FilterEvenOfAllEven(xs[1..]);
      assert xs == [xs[0]] + xs[1..];
    }
  }

  /** Filtering twice is filtering once. */
  lemma {:induction false} FilterEvenIdempotent(xs: seq<int>)
    ensures FilterEven(FilterEven(xs)) == FilterEven(xs)
  {
    FilterEvenOfAllEven(FilterEven(xs));
  }

  /** A list with no even number filters to the empty list. */
  lemma {:induction false} FilterEvenOfAllOdd(xs: seq<int>)
    requires forall i :: 0 <= i < |xs| ==> !IsEven(xs[i])
    ensures FilterEven(xs) == []
  {
    if xs != [] {
      FilterEvenOfAllOdd(xs[1..]);
    }
  }

  /** Filtering keeps the order of the parts of a concatenation. */
  lemma {:induction false} FilterEvenAppend(a: seq<int>, b: seq<int>)
    ensures FilterEven(a + b) == FilterEven(a) + FilterEven(b)
  {
    if a == [] {
      assert a + b == b;
    } else {
      var ab := a + b;
      assert ab[0] == a[0] && ab[1..] == a[1..] + b;
      FilterEvenAppend(a[1..], b);
      var head := if IsEven(a[0]) then [a[0]] else [];
      assert FilterEven(ab) == head + FilterEven(a[1..] + b);
      assert FilterEven(a) == head + FilterEven(a[1..]);
    }
  }

  /** The lists of the unit tests of `filter_even_numbers`. */
  lemma FilterEvenExamples()
    ensures FilterEven([]) == []
    ensures FilterEven([1, 3, 5]) == []
    ensures FilterEven([2, 4, 6]) == [2, 4, 6]
  {
  }

  lemma FilterEvenOneToTen()
    ensures FilterEven([1, 2, 3, 4, 5, 6, 7, 8, 9, 10]) == [2, 4, 6, 8, 10]
  {
  }

  /** Python's `max` over a non-empty list: it scans from the left and replaces
      the running maximum by each element strictly greater than it. */
  function MaxOf(xs: seq<real>): (m: real)
    requires |xs| > 0
    ensures m in xs
    ensures forall i :: 0 <= i < |xs| ==> xs[i] <= m
  {
    if |xs| == 1 then xs[0]
    else
      var m := MaxOf(xs[..|xs| - 1]);
      assert m in xs[..|xs| - 1];
      if xs[|xs| - 1] > m then xs[|xs| - 1] else m
  }

  /** `find_max`: the largest element, or `ValueError` exactly on an empty list. */
  function FindMax(xs: seq<real>): (r: Result<real>)
    ensures r.Failure? <==> |xs| == 0
    ensures r.Failure? ==> r.error == ValueError(EmptyListMessage)
    ensures r.Success? ==> r.value in xs && forall i :: 0 <= i < |xs| ==> xs[i] <= r.value
  {
    if |xs| == 0 then Failure(ValueError(EmptyListMessage)) else Success(MaxOf(xs))
  }

  /** Python's `sum`: the elements added from the left, starting at zero. */
  function Sum(xs: seq<real>): real {
    if xs == [] then 0.0 else Sum(xs[..|xs| - 1]) + xs[|xs| - 1]
  }

  /** `calculate_average`: `sum / len`, or `ValueError` exactly on an empty list.
      The average is the number that, counted once per element, adds up to the sum. */
  function CalculateAverage(xs: seq<real>): (r: Result<real>)
    ensures r.Failure? <==> |xs| == 0
    ensures r.Failure? ==> r.error == ValueError(EmptyListMessage)
    ensures r.Success? ==> r.value * (|xs| as real) == Sum(xs)
  {
    if |xs| == 0 then Failure(ValueError(EmptyListMessage)) else Success(Sum(xs) / (|xs| as real))
  }

  /** Elements at most `hi` add up to at most `|xs| * hi`. */
  lemma {:induction false} SumAtMost(xs: seq<real>, hi: real)
    requires forall i :: 0 <= i < |xs| ==> xs[i] <= hi
    ensures Sum(xs) <= (|xs| as real) * hi
  {
    if xs != [] {
      SumAtMost(xs[..|xs| - 1], hi);
    }
  }

  /** Elements at least `lo` add up to at least `|xs| * lo`. */
  lemma {:induction false} SumAtLeast(xs: seq<real>, lo: real)
    requires forall i :: 0 <= i < |xs| ==> lo <= xs[i]
    ensures (|xs| as real) * lo <= Sum(xs)
  {
    if xs != [] {
      SumAtLeast(xs[..|xs| - 1], lo);
    }
  }

  /** The average lies between any lower and any upper bound of the elements. */
  lemma AverageBounded(xs: seq<real>, lo: real, hi: real)
    requires |xs| > 0
    requires forall i :: 0 <= i < |xs| ==> lo <= xs[i] <= hi
    ensures lo <= CalculateAverage(xs).value <= hi
  {
    SumAtMost(xs, hi);
    SumAtLeast(xs, lo);
    AverageScales(xs, lo, hi);
  }

  /** Comparing the average with a bound is comparing the sum with that bound
      counted once per element. */
  lemma AverageScales(xs: seq<real>, lo: real, hi: real)
    requires |xs| > 0
    ensures (|xs| as real) * lo <= Sum(xs) ==> lo <= CalculateAverage(xs).value
    ensures Sum(xs) <= (|xs| as real) * hi ==> CalculateAverage(xs).value <= hi
  {
  }

  /** The average never exceeds the maximum. */
  lemma AverageAtMostMax(xs: seq<real>)
    requires |xs| > 0
    ensures CalculateAverage(xs).value <= FindMax(xs).value
  {
    var m := FindMax(xs).value;
    SumAtMost(xs, m);
    AverageScales(xs, m, m);
  }

  /** The values the unit tests of `find_max` and `calculate_average` check. */
  lemma ListExamples()
    ensures FindMax([1.0, 5.0, 3.0, 9.0, 2.0]) == Success(9.0)
    ensures FindMax([1.0]) == Success(1.0)
    ensures FindMax([-5.0, -1.0, -10.0]) == Success(-1.0)
    ensures FindMax([1.5, 2.7, 1.2]) == Success(2.7)
    ensures FindMax([]) == Failure(ValueError("List cannot be empty"))
    ensures CalculateAverage([2.0, 4.0, 6.0]) == Success(4.0)
    ensures CalculateAverage([1.0]) == Success(1.0)
    ensures CalculateAverage([1.0, 2.0, 3.0, 4.0, 5.0]) == Success(3.0)
    ensures CalculateAverage([1.5, 2.5]) == Success(2.0)
    ensures CalculateAverage([]) == Failure(ValueError("List cannot be empty"))
  {
    assert [2.0, 4.0, 6.0][..2] == [2.0, 4.0];
    assert [2.0, 4.0][..1] == [2.0];
    assert Sum([2.0, 4.0, 6.0]) == 12.0;
    var five := [1.0, 2.0, 3.0, 4.0, 5.0];
    assert five[..4] == [1.0, 2.0, 3.0, 4.0];
    assert five[..4][..3] == [1.0, 2.0, 3.0];
    assert five[..4][..3][..2] == [1.0, 2.0];
    assert five[..4][..3][..2][..1] == [1.0];
    assert Sum([1.0]) == 1.0;
    assert Sum([1.0, 2.0]) == 3.0;
    assert Sum([1.0, 2.0, 3.0]) == 6.0;
    assert Sum([1.0, 2.0, 3.0, 4.0]) == 10.0;
    assert Sum(five) == 15.0;
  }
}
