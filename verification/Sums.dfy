// Finite sums over sequences and over the rows of a map, with the few laws the
// accounting proofs need.
module Sums {
  import opened Folds

  // ---------- Sums over sequences ----------

  function Sum<T>(s: seq<T>, f: T -> int): int
  {
    if s == [] then 0 else Sum(s[..|s| - 1], f) + f(s[|s| - 1])
  }

  lemma SumAppend<T>(s: seq<T>, x: T, f: T -> int)
    ensures Sum(s + [x], f) == Sum(s, f) + f(x)
  {
    assert (s + [x])[..|s|] == s;
  }

  lemma {:induction false} SumConcat<T>(a: seq<T>, b: seq<T>, f: T -> int)
    ensures Sum(a + b, f) == Sum(a, f) + Sum(b, f)
    decreases |b|
  {
    if b == [] {
      assert a + b == a;
    } else {
      var n := |b| - 1;
      SumConcat(a, b[..n], f);
      assert (a + b)[..|a| + n] == a + b[..n];
    }
  }

  lemma SumUpdate<T>(s: seq<T>, i: nat, x: T, f: T -> int)
    requires i < |s|
    ensures Sum(s[i := x], f) == Sum(s, f) - f(s[i]) + f(x)
  {
    var head, tail := s[..i], s[i + 1..];
    assert s == head + [s[i]] + tail;
    assert s[i := x] == head + [x] + tail;
    SumConcat(head + [s[i]], tail, f);
    SumConcat(head + [x], tail, f);
    SumAppend(head, s[i], f);
    SumAppend(head, x, f);
  }

  lemma {:induction false} SumPermutation<T>(a: seq<T>, b: seq<T>, f: T -> int)
    requires multiset(a) == multiset(b)
    ensures Sum(a, f) == Sum(b, f)
    decreases |a|
  {
    assert |multiset(a)| == |a| && |multiset(b)| == |b|;
    if a != [] {
      var n := |a| - 1;
      var x := a[n];
      assert a == a[..n] + [x];
      assert x in multiset(b);
      var k :| 0 <= k < |b| && b[k] == x;
      var rest := b[..k] + b[k + 1..];
      assert b == b[..k] + [x] + b[k + 1..];
      assert multiset(rest) == multiset(b) - multiset{x};
      assert multiset(a[..n]) == multiset(a) - multiset{x};
      SumPermutation(a[..n], rest, f);
      SumConcat(b[..k], b[k + 1..], f);
      SumConcat(b[..k] + [x], b[k + 1..], f);
      SumAppend(b[..k], x, f);
    }
  }

  // If every step adds its element's weight to a measure, a fold adds their sum.
  lemma {:induction false} FoldAdds<S(!new), A(!new)>(s: S, items: seq<A>, step: (S, A) -> S, measure: S -> int,
                                                      weight: A -> int)
    requires forall x, a {:trigger step(x, a)} :: a in items ==> measure(step(x, a)) == measure(x) + weight(a)
    ensures measure(Fold(s, items, step)) == measure(s) + Sum(items, weight)
  {
    if items != [] {
      var n := |items| - 1;
      assert items[n] in items;
      FoldAdds(s, items[..n], step, measure, weight);
    }
  }

  // Position by position comparison of two sums.
  lemma {:induction false} SumCompare<A, B>(a: seq<A>, f: A -> int, b: seq<B>, g: B -> int)
    requires |a| == |b|
    requires forall i :: 0 <= i < |a| ==> f(a[i]) <= g(b[i])
    ensures Sum(a, f) <= Sum(b, g)
  {
    if a != [] {
      var n := |a| - 1;
      var a', b' := a[..n], b[..n];
      assert forall i :: 0 <= i < n ==> a'[i] == a[i] && b'[i] == b[i];
      SumCompare(a', f, b', g);
    }
  }

  lemma SumStrict<A, B>(a: seq<A>, f: A -> int, b: seq<B>, g: B -> int, i: nat)
    requires i < |a| == |b|
    requires forall k :: 0 <= k < |a| ==> f(a[k]) <= g(b[k])
    requires f(a[i]) < g(b[i])
    ensures Sum(a, f) < Sum(b, g)
  {
    assert a == a[..i] + [a[i]] + a[i + 1..] && b == b[..i] + [b[i]] + b[i + 1..];
    SumCompare(a[..i], f, b[..i], g);
    SumCompare(a[i + 1..], f, b[i + 1..], g);
    SumAppend(a[..i], a[i], f);
    SumAppend(b[..i], b[i], g);
    SumConcat(a[..i] + [a[i]], a[i + 1..], f);
    SumConcat(b[..i] + [b[i]], b[i + 1..], g);
  }

  lemma SumEqual<A, B>(a: seq<A>, f: A -> int, b: seq<B>, g: B -> int)
    requires |a| == |b|
    requires forall i :: 0 <= i < |a| ==> f(a[i]) == g(b[i])
    ensures Sum(a, f) == Sum(b, g)
  {
    SumCompare(a, f, b, g);
    SumCompare(b, g, a, f);
  }

  // ---------- Lists gathered from a sequence ----------

  function Gather<T, U>(s: seq<T>, f: T -> seq<U>): seq<U> {
    if s == [] then [] else Gather(s[..|s| - 1], f) + f(s[|s| - 1])
  }

  lemma {:induction false} GatherMembers<T, U>(s: seq<T>, f: T -> seq<U>, y: U)
    ensures y in Gather(s, f) <==> exists i :: 0 <= i < |s| && y in f(s[i])
  {
    if s != [] {
      var n := |s| - 1;
      GatherMembers(s[..n], f, y);
      assert forall i :: 0 <= i < n ==> s[..n][i] == s[i];
    }
  }

  lemma {:induction false} GatherSum<T, U>(s: seq<T>, f: T -> seq<U>, g: U -> int, total: T -> int)
    requires forall x :: Sum(f(x), g) == total(x)
    ensures Sum(Gather(s, f), g) == Sum(s, total)
  {
    if s != [] {
      var n := |s| - 1;
      GatherSum(s[..n], f, g, total);
      SumConcat(Gather(s[..n], f), f(s[n]), g);
    }
  }

  lemma GatherAppend<T, U>(s: seq<T>, x: T, f: T -> seq<U>)
    ensures Gather(s + [x], f) == Gather(s, f) + f(x)
  {
    assert (s + [x])[..|s|] == s;
  }

  lemma {:induction false} GatherConcat<T, U>(a: seq<T>, b: seq<T>, f: T -> seq<U>)
    ensures Gather(a + b, f) == Gather(a, f) + Gather(b, f)
    decreases |b|
  {
    if b == [] {
      assert a + b == a;
    } else {
      var n := |b| - 1;
      GatherConcat(a, b[..n], f);
      assert (a + b)[..|a| + n] == a + b[..n];
    }
  }

  lemma GatherUpdate<T, U>(s: seq<T>, i: nat, x: T, f: T -> seq<U>)
    requires i < |s|
    ensures multiset(Gather(s[i := x], f)) + multiset(f(s[i])) == multiset(Gather(s, f)) + multiset(f(x))
  {
    var head, tail := s[..i], s[i + 1..];
    assert s == head + [s[i]] + tail;
    assert s[i := x] == head + [x] + tail;
    GatherAround(head, s[i], tail, f);
    GatherAround(head, x, tail, f);
  }

  lemma {:induction false} GatherNothing<T, U>(s: seq<T>, f: T -> seq<U>)
    requires forall x :: x in s ==> f(x) == []
    ensures Gather(s, f) == []
  {
    if s != [] {
      assert s[|s| - 1] in s;
      GatherNothing(s[..|s| - 1], f);
    }
  }

  lemma GatherAround<T, U>(head: seq<T>, x: T, tail: seq<T>, f: T -> seq<U>)
    ensures multiset(Gather(head + [x] + tail, f)) == multiset(Gather(head + tail, f)) + multiset(f(x))
  {
    GatherConcat(head, tail, f);
    GatherConcat(head + [x], tail, f);
    GatherAppend(head, x, f);
  }

  lemma AroundOne<T>(head: seq<T>, x: T, tail: seq<T>)
    ensures multiset(head + [x] + tail) == multiset(head + tail) + multiset{x}
  {
  }

  lemma SameRest<T>(a: multiset<T>, b: multiset<T>, x: T)
    requires a + multiset{x} == b + multiset{x}
    ensures a == b
  {
    assert a == a + multiset{x} - multiset{x} && b == b + multiset{x} - multiset{x};
  }

  // ---------- Sequences without duplicates ----------

  ghost predicate Distinct<T(!new)>(s: seq<T>) {
    forall i, j :: 0 <= i < j < |s| ==> s[i] != s[j]
  }

  // In a duplicate-free sequence a weight carried by one element alone is counted
  // once when that element is present and not at all otherwise.
  lemma {:induction false} SumOfOne<T(!new)>(s: seq<T>, f: T -> int, x: T)
    requires Distinct(s)
    requires forall y :: y in s && y != x ==> f(y) == 0
    ensures Sum(s, f) == if x in s then f(x) else 0
  {
    if s != [] {
      var n := |s| - 1;
      var front, last := s[..n], s[n];
      assert s == front + [last];
      DistinctFront(front, last);
      SumOfOne(front, f, x);
      assert x in s <==> x in front || x == last;
    }
  }

  lemma DistinctFront<T(!new)>(front: seq<T>, last: T)
    requires Distinct(front + [last])
    ensures Distinct(front) && last !in front
    ensures forall y :: y in front ==> y in front + [last]
  {
    var s := front + [last];
    forall i, j | 0 <= i < j < |front| ensures front[i] != front[j] { assert s[i] != s[j]; }
    forall k | 0 <= k < |front| ensures front[k] != last { assert s[k] != s[|front|]; }
  }

  lemma {:induction false} DistinctMultiplicity<T(!new)>(a: seq<T>, x: T)
    requires Distinct(a)
    ensures multiset(a)[x] == if x in a then 1 else 0
  {
    if a != [] {
      var n := |a| - 1;
      assert a == a[..n] + [a[n]];
      DistinctMultiplicity(a[..n], x);
      if x in a[..n] { assert a[n] != x; }
    }
  }

  lemma DistinctMultiset<T(!new)>(a: seq<T>, b: seq<T>)
    requires Distinct(a) && Distinct(b)
    requires forall x :: x in a <==> x in b
    ensures multiset(a) == multiset(b)
  {
    forall x ensures multiset(a)[x] == multiset(b)[x] {
      DistinctMultiplicity(a, x);
      DistinctMultiplicity(b, x);
    }
  }

  // ---------- Counting and injections ----------

  function Indicator<T>(p: T -> bool): T -> int {
    (x: T) => if p(x) then 1 else 0
  }

  function Count<T>(s: seq<T>, p: T -> bool): int {
    Sum(s, Indicator(p))
  }

  ghost function KeysOf<T(!new), K(!new)>(s: seq<T>, p: T -> bool, key: T -> K): set<K> {
    set x | x in s && p(x) :: key(x)
  }

  ghost predicate DistinctKeys<T(!new), K(!new)>(s: seq<T>, p: T -> bool, key: T -> K) {
    forall i, j :: 0 <= i < j < |s| && p(s[i]) && p(s[j]) ==> key(s[i]) != key(s[j])
  }

  lemma KeysOfAppend<T(!new), K(!new)>(s: seq<T>, x: T, p: T -> bool, key: T -> K)
    ensures KeysOf(s + [x], p, key) == KeysOf(s, p, key) + if p(x) then {key(x)} else {}
  {
  }

  lemma {:induction false} KeysAtMostCount<T(!new), K(!new)>(s: seq<T>, p: T -> bool, key: T -> K)
    ensures |KeysOf(s, p, key)| <= Count(s, p)
    ensures DistinctKeys(s, p, key) ==> |KeysOf(s, p, key)| == Count(s, p)
  {
    if s == [] {
      assert KeysOf(s, p, key) == {};
    } else {
      var n := |s| - 1;
      var s', x := s[..n], s[n];
      assert s == s' + [x];
      KeysAtMostCount(s', p, key);
      KeysOfAppend(s', x, p, key);
      assert DistinctKeys(s, p, key) ==> DistinctKeys(s', p, key);
      if DistinctKeys(s, p, key) && p(x) {
        assert key(x) !in KeysOf(s', p, key);
      }
    }
  }

  // If the elements selected by p have pairwise different keys, and each shares its
  // key with an element selected by q, then p selects no more elements than q.
  lemma CountInjects<T(!new), K(!new)>(s: seq<T>, p: T -> bool, q: T -> bool, key: T -> K)
    requires DistinctKeys(s, p, key)
    requires forall x :: x in s && p(x) ==> exists y :: y in s && q(y) && key(y) == key(x)
    ensures Count(s, p) <= Count(s, q)
  {
    KeysAtMostCount(s, p, key);
    KeysAtMostCount(s, q, key);
    var few, many := KeysOf(s, p, key), KeysOf(s, q, key);
    assert few <= many;
    SubsetSize(few, many);
  }

  // Selected by p, with no element selected by q under the same key.
  ghost function Unmatched<T(!new), K(!new)>(s: seq<T>, p: T -> bool, q: T -> bool, key: T -> K): T -> bool {
    (x: T) => p(x) && key(x) !in KeysOf(s, q, key)
  }

  // With distinct keys on both sides, the two counts differ as their unmatched
  // elements do.
  lemma CountDifference<T(!new), K(!new)>(s: seq<T>, p: T -> bool, q: T -> bool, key: T -> K)
    requires DistinctKeys(s, p, key) && DistinctKeys(s, q, key)
    ensures Count(s, p) - Count(s, q) == Count(s, Unmatched(s, p, q, key)) - Count(s, Unmatched(s, q, p, key))
  {
    UnmatchedCount(s, p, q, key);
    UnmatchedCount(s, q, p, key);
    KeysAtMostCount(s, p, key);
    KeysAtMostCount(s, q, key);
    SizeDifference(KeysOf(s, p, key), KeysOf(s, q, key));
  }

  lemma SizeDifference<K>(a: set<K>, b: set<K>)
    ensures |a| - |b| == |a - b| - |b - a|
  {
    assert a == (a - b) + (a * b) && b == (b - a) + (a * b);
  }

  lemma UnmatchedCount<T(!new), K(!new)>(s: seq<T>, p: T -> bool, q: T -> bool, key: T -> K)
    requires DistinctKeys(s, p, key)
    ensures Count(s, Unmatched(s, p, q, key)) == |KeysOf(s, p, key) - KeysOf(s, q, key)|
  {
    var u := Unmatched(s, p, q, key);
    assert KeysOf(s, u, key) == KeysOf(s, p, key) - KeysOf(s, q, key);
    KeysAtMostCount(s, u, key);
  }

  lemma SubsetSize<T>(a: set<T>, b: set<T>)
    requires a <= b
    ensures |a| <= |b|
  {
    assert b == a + (b - a);
  }

  // ---------- Sums over the rows of a map ----------

  ghost function Pick<K, V>(rows: map<K, V>): (k: K)
    requires rows != map[]
    ensures k in rows
  {
    var k :| k in rows; k
  }

  ghost function Total<K, V>(rows: map<K, V>, f: (K, V) -> int): int
    decreases |rows|
  {
    if rows == map[] then 0
    else
      var k := Pick(rows);
      f(k, rows[k]) + Total(rows - {k}, f)
  }

  lemma {:induction false} TotalRemove<K, V>(rows: map<K, V>, k: K, f: (K, V) -> int)
    requires k in rows
    ensures Total(rows, f) == f(k, rows[k]) + Total(rows - {k}, f)
    decreases |rows|
  {
    var x := Pick(rows);
    if x != k {
      TotalRemove(rows - {x}, k, f);
      TotalRemove(rows - {k}, x, f);
      assert rows - {x} - {k} == rows - {k} - {x};
    }
  }

  lemma TotalUpdate<K, V>(rows: map<K, V>, k: K, v: V, f: (K, V) -> int)
    ensures Total(rows[k := v], f) == Total(rows, f) + f(k, v) - (if k in rows then f(k, rows[k]) else 0)
  {
    var rows' := rows[k := v];
    TotalRemove(rows', k, f);
    if k in rows {
      TotalRemove(rows, k, f);
      assert rows' - {k} == rows - {k};
    } else {
      assert rows' - {k} == rows;
    }
  }

  lemma {:induction false} TotalEqual<K, V>(rows: map<K, V>, f: (K, V) -> int, g: (K, V) -> int)
    requires forall k :: k in rows ==> f(k, rows[k]) == g(k, rows[k])
    ensures Total(rows, f) == Total(rows, g)
    decreases |rows|
  {
    if rows != map[] { TotalEqual(rows - {Pick(rows)}, f, g); }
  }

  // A sum whose weights split into two parts is the sum of the parts.
  lemma {:induction false} TotalSplit<K, V>(rows: map<K, V>, f: (K, V) -> int, g: (K, V) -> int, h: (K, V) -> int)
    requires forall k :: k in rows ==> f(k, rows[k]) == g(k, rows[k]) + h(k, rows[k])
    ensures Total(rows, f) == Total(rows, g) + Total(rows, h)
    decreases |rows|
  {
    if rows != map[] {
      var k := Pick(rows);
      TotalSplit(rows - {k}, f, g, h);
    }
  }
}
