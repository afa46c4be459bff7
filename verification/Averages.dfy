// Averages as the service derives them: a truncated quotient of a sum and a count.
module Averages {
  import opened Events
  import opened Sums

  // Zero when nothing was counted.
  function Average(sum: int, count: int): int {
    if count > 0 then TruncDiv(sum, count) else 0
  }

  // The quotient rounded toward zero, without division.
  predicate RoundedTowardZero(q: int, a: int, b: int) {
    && (a >= 0 ==> 0 <= a - q * b < b)
    && (a <= 0 ==> -b < a - q * b <= 0)
  }

  lemma TruncDivRounds(a: int, b: int)
    requires b > 0
    ensures RoundedTowardZero(TruncDiv(a, b), a, b)
  {
    if a < 0 {
      var q := (-a) / b;
      assert -a == q * b + (-a) % b;
      assert (-q) * b == -(q * b);
    }
  }

  lemma ProductGrows(q: int, p: int, b: int)
    requires b > 0 && q < p
    ensures (q + 1) * b <= p * b
  {
  }

  // What a bound on the quotient says about the sum.
  predicate AtMost(a: int, b: int, hi: int) {
    if hi < 0 then a <= hi * b else a < (hi + 1) * b
  }

  lemma AtMostMeans(a: int, b: int, hi: int)
    requires b > 0
    ensures TruncDiv(a, b) <= hi <==> AtMost(a, b, hi)
  {
    var q := TruncDiv(a, b);
    TruncDivRounds(a, b);
    assert (q + 1) * b == q * b + b && (hi + 1) * b == hi * b + b;
    if q < hi { ProductGrows(q, hi, b); }
    if hi < q { ProductGrows(hi, q, b); }
    if hi + 1 < q { ProductGrows(hi + 1, q, b); }
    if hi < 0 && q >= 0 { assert hi * b < 0; }
  }

  lemma Distributes(k: int, a: int, b: int)
    ensures k * (a + b) == k * a + k * b
  {
  }

  lemma AtMostAdds(a: int, b: int, a': int, b': int, hi: int)
    requires b >= 0 && b' >= 0 && (b == 0 ==> a == 0) && (b' == 0 ==> a' == 0)
    requires (b > 0 ==> AtMost(a, b, hi)) && (b' > 0 ==> AtMost(a', b', hi))
    ensures b + b' > 0 ==> AtMost(a + a', b + b', hi)
  {
    Distributes(hi, b, b');
    Distributes(hi + 1, b, b');
  }

  // Weights never negative, and nothing is summed where nothing is counted.
  ghost predicate Weighted<T(!new)>(s: seq<T>, sum: T -> int, count: T -> int) {
    forall x :: x in s ==> count(x) >= 0 && (count(x) == 0 ==> sum(x) == 0)
  }

  lemma {:induction false} TotalsAtMost<T(!new)>(s: seq<T>, sum: T -> int, count: T -> int, hi: int)
    requires Weighted(s, sum, count)
    requires forall x :: x in s && count(x) > 0 ==> Average(sum(x), count(x)) <= hi
    ensures Sum(s, count) >= 0 && (Sum(s, count) == 0 ==> Sum(s, sum) == 0)
    ensures Sum(s, count) > 0 ==> AtMost(Sum(s, sum), Sum(s, count), hi)
  {
    if s != [] {
      var n := |s| - 1;
      var x := s[n];
      assert x in s;
      TotalsAtMost(s[..n], sum, count, hi);
      if count(x) > 0 { AtMostMeans(sum(x), count(x), hi); }
      AtMostAdds(Sum(s[..n], sum), Sum(s[..n], count), sum(x), count(x), hi);
    }
  }

  lemma {:induction false} SumNegated<T(!new)>(s: seq<T>, f: T -> int, g: T -> int)
    requires forall x :: g(x) == -f(x)
    ensures Sum(s, g) == -Sum(s, f)
  {
    if s != [] { SumNegated(s[..|s| - 1], f, g); }
  }

  lemma NegatedQuotient(a: int, b: int)
    requires b > 0
    ensures TruncDiv(-a, b) == -TruncDiv(a, b)
  {
  }

  lemma AverageAtMost<T(!new)>(s: seq<T>, sum: T -> int, count: T -> int, hi: int)
    requires Weighted(s, sum, count) && Sum(s, count) > 0
    requires forall x :: x in s && count(x) > 0 ==> Average(sum(x), count(x)) <= hi
    ensures Average(Sum(s, sum), Sum(s, count)) <= hi
  {
    TotalsAtMost(s, sum, count, hi);
    AtMostMeans(Sum(s, sum), Sum(s, count), hi);
  }

  lemma AverageAtLeast<T(!new)>(s: seq<T>, sum: T -> int, count: T -> int, lo: int)
    requires Weighted(s, sum, count) && Sum(s, count) > 0
    requires forall x :: x in s && count(x) > 0 ==> lo <= Average(sum(x), count(x))
    ensures lo <= Average(Sum(s, sum), Sum(s, count))
  {
    var minus := (x: T) => -sum(x);
    forall x | x in s && count(x) > 0 ensures Average(minus(x), count(x)) <= -lo {
      NegatedQuotient(sum(x), count(x));
    }
    AverageAtMost(s, minus, count, -lo);
    SumNegated(s, sum, minus);
    NegatedQuotient(Sum(s, sum), Sum(s, count));
  }

  // The average of the whole lies between the least and the greatest average of
  // the parts, rounding included.
  lemma AverageBetween<T(!new)>(s: seq<T>, sum: T -> int, count: T -> int, lo: int, hi: int)
    requires Weighted(s, sum, count) && Sum(s, count) > 0
    requires forall x :: x in s && count(x) > 0 ==> lo <= Average(sum(x), count(x)) <= hi
    ensures lo <= Average(Sum(s, sum), Sum(s, count)) <= hi
  {
    AverageAtMost(s, sum, count, hi);
    AverageAtLeast(s, sum, count, lo);
  }

  function Rebuilt<T>(sum: T -> int, count: T -> int): T -> int {
    (x: T) => Average(sum(x), count(x)) * count(x)
  }

  function Slack<T>(count: T -> int): T -> int {
    (x: T) => if count(x) > 0 then count(x) - 1 else 0
  }

  // Rebuilding a total from the averages loses less than one unit per counted item,
  // and never gains.
  lemma {:induction false} RoundingLoss<T(!new)>(s: seq<T>, sum: T -> int, count: T -> int)
    requires Weighted(s, sum, count) && forall x :: x in s ==> sum(x) >= 0
    ensures 0 <= Sum(s, sum) - Sum(s, Rebuilt(sum, count)) <= Sum(s, Slack(count))
  {
    if s != [] {
      var n := |s| - 1;
      var x := s[n];
      assert x in s;
      RoundingLoss(s[..n], sum, count);
      if count(x) > 0 { TruncDivRounds(sum(x), count(x)); }
    }
  }
}
