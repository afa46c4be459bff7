// Read-only queries over a collection's rows: matching rows in key order, totals by
// currency, and a count of distinct restaurants.
module Queries {
  import opened Events
  import opened Sums
  import opened Aggregates

  // ---------- Orders on keys ----------

  ghost predicate TotalOrder<K(!new)>(less: (K, K) -> bool) {
    && (forall a :: !less(a, a))
    && (forall a, b, c :: less(a, b) && less(b, c) ==> less(a, c))
    && (forall a, b :: less(a, b) || less(b, a) || a == b)
  }

  // Code unit by code unit, as the store compares strings.
  predicate StringLess(a: string, b: string) {
    b != [] && (a == [] || a[0] < b[0] || (a[0] == b[0] && StringLess(a[1..], b[1..])))
  }

  lemma {:induction false} StringLessIrreflexive(a: string)
    ensures !StringLess(a, a)
  {
    if a != [] { StringLessIrreflexive(a[1..]); }
  }

  lemma {:induction false} StringLessTransitive(a: string, b: string, c: string)
    requires StringLess(a, b) && StringLess(b, c)
    ensures StringLess(a, c)
  {
    if a != [] && a[0] == b[0] && b[0] == c[0] { StringLessTransitive(a[1..], b[1..], c[1..]); }
  }

  lemma {:induction false} StringLessTotal(a: string, b: string)
    ensures StringLess(a, b) || StringLess(b, a) || a == b
  {
    if a != [] && b != [] && a[0] == b[0] {
      StringLessTotal(a[1..], b[1..]);
      assert a == [a[0]] + a[1..] && b == [b[0]] + b[1..];
    }
  }

  predicate DayLess(a: DayKey, b: DayKey) {
    a.day < b.day || (a.day == b.day && a.id < b.id)
  }

  predicate ProductLess(a: ProductKey, b: ProductKey) {
    || a.day < b.day
    || (a.day == b.day && (a.branch < b.branch || (a.branch == b.branch && a.product < b.product)))
  }

  predicate PlatformLess(a: PlatformKey, b: PlatformKey) {
    a.day < b.day || (a.day == b.day && StringLess(a.currency, b.currency))
  }

  lemma StringsAreOrdered()
    ensures TotalOrder(StringLess)
  {
    forall a ensures !StringLess(a, a) { StringLessIrreflexive(a); }
    forall a, b, c | StringLess(a, b) && StringLess(b, c) ensures StringLess(a, c) { StringLessTransitive(a, b, c); }
    forall a, b ensures StringLess(a, b) || StringLess(b, a) || a == b { StringLessTotal(a, b); }
  }

  lemma PlatformKeysAreOrdered()
    ensures TotalOrder(PlatformLess)
  {
    StringsAreOrdered();
  }

  // ---------- Matching rows in key order ----------

  datatype Found<K, V> = Found(key: K, row: V)

  // The answer to a query: every row whose key is picked, and no other, in strictly
  // increasing key order.
  ghost predicate Answers<K(!new), V(!new)>(out: seq<Found<K, V>>, rows: map<K, V>, pick: K -> bool,
                                            less: (K, K) -> bool) {
    && (forall i, j :: 0 <= i < j < |out| ==> less(out[i].key, out[j].key))
    && (forall f :: f in out <==> f.key in rows && pick(f.key) && rows[f.key] == f.row)
  }

  lemma {:induction false} LeastKey<K(!new)>(keys: set<K>, less: (K, K) -> bool) returns (k: K)
    requires TotalOrder(less) && keys != {}
    ensures k in keys && forall x :: x in keys ==> !less(x, k)
    decreases |keys|
  {
    var y :| y in keys;
    if keys == {y} {
      k := y;
    } else {
      assert keys - {y} != {} by { assert keys == keys - {y} + {y}; }
      var z := LeastKey(keys - {y}, less);
      k := if less(y, z) then y else z;
      forall x | x in keys ensures !less(x, k) {
        if x != y { assert x in keys - {y}; }
      }
    }
  }

  method Find<K(!new, ==), V(!new)>(rows: map<K, V>, pick: K -> bool, less: (K, K) -> bool)
    returns (out: seq<Found<K, V>>)
    requires TotalOrder(less)
    ensures Answers(out, rows, pick, less)
  {
    out := [];
    var todo := set k | k in rows && pick(k);
    while todo != {}
      invariant todo <= rows.Keys && forall k :: k in todo ==> pick(k)
      invariant forall i, j :: 0 <= i < j < |out| ==> less(out[i].key, out[j].key)
      invariant forall i, k :: 0 <= i < |out| && k in todo ==> less(out[i].key, k)
      invariant forall f :: f in out <==> f.key in rows && pick(f.key) && f.key !in todo && rows[f.key] == f.row
      decreases |todo|
    {
      ghost var least := LeastKey(todo, less);
      var k :| k in todo && forall x :: x in todo ==> !less(x, k);
      out := out + [Found(k, rows[k])];
      todo := todo - {k};
    }
  }

  lemma BothEmpty<K(!new), V(!new)>(a: seq<Found<K, V>>, b: seq<Found<K, V>>, rows: map<K, V>, pick: K -> bool,
                                    less: (K, K) -> bool)
    requires Answers(a, rows, pick, less) && Answers(b, rows, pick, less)
    ensures b != [] ==> a != []
  {
    if b != [] { assert b[0] in b && b[0] in a; }
  }

  // There is one answer only.
  lemma {:induction false} AnswerIsUnique<K(!new), V(!new)>(a: seq<Found<K, V>>, b: seq<Found<K, V>>, rows: map<K, V>,
                                                            pick: K -> bool, less: (K, K) -> bool)
    requires TotalOrder(less) && Answers(a, rows, pick, less) && Answers(b, rows, pick, less)
    ensures a == b
    decreases |a|
  {
    BothEmpty(a, b, rows, pick, less);
    BothEmpty(b, a, rows, pick, less);
    if a != [] && b != [] {
      var m, n := |a| - 1, |b| - 1;
      LastIsGreatest(a, rows, pick, less);
      LastIsGreatest(b, rows, pick, less);
      assert a[m] in b && b[n] in a;
      assert a[m].key == b[n].key;
      WithoutLast(a, rows, pick, less);
      WithoutLast(b, rows, pick, less);
      AnswerIsUnique(a[..m], b[..n], rows - {a[m].key}, pick, less);
      assert a == a[..m] + [a[m]] && b == b[..n] + [b[n]];
    }
  }

  lemma LastIsGreatest<K(!new), V(!new)>(a: seq<Found<K, V>>, rows: map<K, V>, pick: K -> bool, less: (K, K) -> bool)
    requires a != [] && Answers(a, rows, pick, less)
    ensures forall f :: f in a ==> f == a[|a| - 1] || less(f.key, a[|a| - 1].key)
  {
    forall f | f in a ensures f == a[|a| - 1] || less(f.key, a[|a| - 1].key) {
      var i :| 0 <= i < |a| && a[i] == f;
    }
  }

  lemma WithoutLast<K(!new), V(!new)>(a: seq<Found<K, V>>, rows: map<K, V>, pick: K -> bool, less: (K, K) -> bool)
    requires TotalOrder(less) && a != [] && Answers(a, rows, pick, less)
    ensures a[|a| - 1] in a && Answers(a[..|a| - 1], rows - {a[|a| - 1].key}, pick, less)
  {
    var m := |a| - 1;
    forall f ensures f in a[..m] <==> f.key in rows - {a[m].key} && pick(f.key) && rows[f.key] == f.row {
      if f in a[..m] {
        var i :| 0 <= i < m && a[i] == f;
        assert a[i] in a && less(a[i].key, a[m].key);
      } else if f in a {
        var i :| 0 <= i < |a| && a[i] == f;
      }
    }
  }

  lemma Answered<K(!new), V(!new)>(out: seq<Found<K, V>>, rows: map<K, V>, pick: K -> bool, less: (K, K) -> bool, k: K)
    requires Answers(out, rows, pick, less) && k in rows
    ensures pick(k) ==> exists i :: 0 <= i < |out| && out[i].key == k
  {
    if pick(k) {
      assert Found(k, rows[k]) in out;
      var i :| 0 <= i < |out| && out[i] == Found(k, rows[k]);
      assert out[i].key == k;
    }
  }

  // A sum over the answer is a sum over the picked rows.
  lemma {:induction false} AnswerTotal<K(!new), V(!new)>(out: seq<Found<K, V>>, rows: map<K, V>, pick: K -> bool,
                                                         less: (K, K) -> bool,
                                                         f: Found<K, V> -> int, w: (K, V) -> int)
    requires TotalOrder(less) && Answers(out, rows, pick, less)
    requires forall k, v {:trigger w(k, v)} :: w(k, v) == if pick(k) then f(Found(k, v)) else 0
    ensures Sum(out, f) == Total(rows, w)
    decreases |out|
  {
    if out == [] {
      forall k | k in rows ensures w(k, rows[k]) == 0 {
        Answered(out, rows, pick, less, k);
      }
      TotalOfZeros(rows, w);
    } else {
      var m := |out| - 1;
      WithoutLast(out, rows, pick, less);
      AnswerTotal(out[..m], rows - {out[m].key}, pick, less, f, w);
      TotalRemove(rows, out[m].key, w);
    }
  }

  lemma {:induction false} TotalOfZeros<K, V>(rows: map<K, V>, w: (K, V) -> int)
    requires forall k :: k in rows ==> w(k, rows[k]) == 0
    ensures Total(rows, w) == 0
    decreases |rows|
  {
    if rows != map[] {
      var k := Pick(rows);
      TotalOfZeros(rows - {k}, w);
    }
  }

  // ---------- The selections of the report queries ----------

  predicate InRange(day: Day, from: Day, to: Day) {
    from <= day <= to
  }

  function DaysOf(id: int, from: Day, to: Day): DayKey -> bool {
    (k: DayKey) => k.id == id && InRange(k.day, from, to)
  }

  function ProductDaysOf(branch: int, product: int, from: Day, to: Day): ProductKey -> bool {
    (k: ProductKey) => k.branch == branch && k.product == product && InRange(k.day, from, to)
  }

  function DatesWithin(from: Day, to: Day): PlatformKey -> bool {
    (k: PlatformKey) => InRange(k.day, from, to)
  }

  function DatesOfCurrency(currency: string, from: Day, to: Day): PlatformKey -> bool {
    (k: PlatformKey) => k.currency == currency && InRange(k.day, from, to)
  }

  // The restaurants with a row in range that has an order.
  function ActiveIds(rows: map<DayKey, DayRow>, from: Day, to: Day): set<int> {
    set k | k in rows && InRange(k.day, from, to) && rows[k].tally.orders > 0 :: k.id
  }

  // ---------- The same answers, written out ----------

  // The rows of one restaurant or branch from one day to another, both included, day
  // after day.
  ghost predicate DaysInRange(found: seq<Found<DayKey, DayRow>>, rows: map<DayKey, DayRow>, id: int, from: Day,
                              to: Day) {
    && (forall f :: f in found <==>
          f.key in rows && rows[f.key] == f.row && f.key.id == id && from <= f.key.day <= to)
    && forall i, j :: 0 <= i < j < |found| ==> found[i].key.day < found[j].key.day
  }

  ghost predicate ProductDaysInRange(found: seq<Found<ProductKey, ProductRow>>, rows: map<ProductKey, ProductRow>,
                                     branch: int, product: int, from: Day, to: Day) {
    && (forall f :: f in found <==>
          f.key in rows && rows[f.key] == f.row && f.key.branch == branch && f.key.product == product
          && from <= f.key.day <= to)
    && forall i, j :: 0 <= i < j < |found| ==> found[i].key.day < found[j].key.day
  }

  // Every currency's rows, the dates ascending and in each date the currencies.
  ghost predicate DatesInRange(found: seq<Found<PlatformKey, PlatformRow>>, rows: map<PlatformKey, PlatformRow>,
                               from: Day, to: Day) {
    && (forall f :: f in found <==> f.key in rows && rows[f.key] == f.row && from <= f.key.day <= to)
    && forall i, j :: 0 <= i < j < |found| ==>
         || found[i].key.day < found[j].key.day
         || (found[i].key.day == found[j].key.day && StringLess(found[i].key.currency, found[j].key.currency))
  }

  lemma DaysAnswered(found: seq<Found<DayKey, DayRow>>, rows: map<DayKey, DayRow>, id: int, from: Day, to: Day)
    requires Answers(found, rows, DaysOf(id, from, to), DayLess)
    ensures DaysInRange(found, rows, id, from, to)
  {
    forall i, j | 0 <= i < j < |found| ensures found[i].key.day < found[j].key.day {
      assert found[i] in found && found[j] in found;
    }
  }

  lemma ProductDaysAnswered(found: seq<Found<ProductKey, ProductRow>>, rows: map<ProductKey, ProductRow>, branch: int,
                            product: int, from: Day, to: Day)
    requires Answers(found, rows, ProductDaysOf(branch, product, from, to), ProductLess)
    ensures ProductDaysInRange(found, rows, branch, product, from, to)
  {
    forall i, j | 0 <= i < j < |found| ensures found[i].key.day < found[j].key.day {
      assert found[i] in found && found[j] in found;
    }
  }

  lemma DatesAnswered(found: seq<Found<PlatformKey, PlatformRow>>, rows: map<PlatformKey, PlatformRow>, from: Day,
                      to: Day)
    requires Answers(found, rows, DatesWithin(from, to), PlatformLess)
    ensures DatesInRange(found, rows, from, to)
  {
  }

  // ---------- Totals by currency ----------

  function AddTally(a: Tally, b: Tally): Tally {
    Tally(a.orders + b.orders, a.revenue + b.revenue, a.deliveryMsSum + b.deliveryMsSum,
          a.deliveryMsCount + b.deliveryMsCount, a.failed + b.failed)
  }

  function AddRows(a: PlatformRow, b: PlatformRow): PlatformRow {
    PlatformRow(AddTally(a.tally, b.tally), a.payments + b.payments, a.paymentsAmount + b.paymentsAmount)
  }

  lemma RowsAdd(a: PlatformRow, b: PlatformRow, c: Counter)
    ensures OfPlatform(AddRows(a, b), c) == OfPlatform(a, c) + OfPlatform(b, c)
  {
  }

  function CurrencyPart(currency: string, c: Counter): Found<PlatformKey, PlatformRow> -> int {
    (f: Found<PlatformKey, PlatformRow>) => if f.key.currency == currency then OfPlatform(f.row, c) else 0
  }

  ghost predicate HasCurrency(rows: map<PlatformKey, PlatformRow>, currency: string, from: Day, to: Day) {
    exists k :: k in rows && DatesOfCurrency(currency, from, to)(k)
  }

  ghost function CurrencyTotal(rows: map<PlatformKey, PlatformRow>, currency: string, from: Day, to: Day,
                               c: Counter): int {
    Total(rows, PlatformWeight(DatesOfCurrency(currency, from, to), c))
  }

  // One line per currency that has a row in range, in strictly increasing currency
  // order, with every counter totalled over the rows.
  ghost predicate Summarises(out: seq<Found<string, PlatformRow>>, rows: map<PlatformKey, PlatformRow>, from: Day,
                             to: Day) {
    && (forall i, j :: 0 <= i < j < |out| ==> StringLess(out[i].key, out[j].key))
    && (forall currency :: (exists i :: 0 <= i < |out| && out[i].key == currency) <==>
        HasCurrency(rows, currency, from, to))
    && (forall i, c :: 0 <= i < |out| ==> OfPlatform(out[i].row, c) == CurrencyTotal(rows, out[i].key, from, to, c))
  }

  // The groups after the first rows of the answer to the range query.
  ghost predicate Grouped(groups: map<string, PlatformRow>, found: seq<Found<PlatformKey, PlatformRow>>) {
    && (forall currency :: currency in groups <==> exists i :: 0 <= i < |found| && found[i].key.currency == currency)
    && (forall currency, c :: currency in groups ==>
        OfPlatform(groups[currency], c) == Sum(found, CurrencyPart(currency, c)))
  }

  lemma {:induction false} NoPart(found: seq<Found<PlatformKey, PlatformRow>>, currency: string, c: Counter)
    requires forall i :: 0 <= i < |found| ==> found[i].key.currency != currency
    ensures Sum(found, CurrencyPart(currency, c)) == 0
  {
    if found != [] { NoPart(found[..|found| - 1], currency, c); }
  }

  lemma GroupOneMore(groups: map<string, PlatformRow>, found: seq<Found<PlatformKey, PlatformRow>>,
                     f: Found<PlatformKey, PlatformRow>)
    requires Grouped(groups, found)
    ensures Grouped(groups[f.key.currency := AddRows(RowAt(groups, f.key.currency, NEW_PLATFORM_ROW), f.row)],
            found + [f])
  {
    var cur, more := f.key.currency, found + [f];
    var groups' := groups[cur := AddRows(RowAt(groups, cur, NEW_PLATFORM_ROW), f.row)];
    forall currency ensures currency in groups' <==> exists i :: 0 <= i < |more| && more[i].key.currency == currency {
      if currency == cur {
        assert more[|found|].key.currency == cur;
      } else if currency in groups {
        var i :| 0 <= i < |found| && found[i].key.currency == currency;
        assert more[i].key.currency == currency;
      } else {
        assert forall i :: 0 <= i < |found| ==> more[i] == found[i];
      }
    }
    forall currency, c | currency in groups'
      ensures OfPlatform(groups'[currency], c) == Sum(more, CurrencyPart(currency, c))
    {
      SumAppend(found, f, CurrencyPart(currency, c));
      RowsAdd(RowAt(groups, cur, NEW_PLATFORM_ROW), f.row, c);
      if cur !in groups { NoPart(found, cur, c); }
    }
  }

  lemma GroupedCurrencies(groups: map<string, PlatformRow>, found: seq<Found<PlatformKey, PlatformRow>>,
                          rows: map<PlatformKey, PlatformRow>,
                          from: Day, to: Day, currency: string)
    requires Answers(found, rows, DatesWithin(from, to), PlatformLess) && Grouped(groups, found)
    ensures currency in groups <==> HasCurrency(rows, currency, from, to)
  {
    if currency in groups {
      var i :| 0 <= i < |found| && found[i].key.currency == currency;
      assert found[i] in found;
      assert found[i].key in rows && DatesOfCurrency(currency, from, to)(found[i].key);
    }
    if HasCurrency(rows, currency, from, to) {
      var k :| k in rows && DatesOfCurrency(currency, from, to)(k);
      Answered(found, rows, DatesWithin(from, to), PlatformLess, k);
    }
  }

  lemma GroupedTotals(groups: map<string, PlatformRow>, found: seq<Found<PlatformKey, PlatformRow>>,
                      rows: map<PlatformKey, PlatformRow>,
                      from: Day, to: Day, currency: string, c: Counter)
    requires Answers(found, rows, DatesWithin(from, to), PlatformLess) && Grouped(groups, found) && currency in groups
    ensures OfPlatform(groups[currency], c) == CurrencyTotal(rows, currency, from, to, c)
  {
    PlatformKeysAreOrdered();
    AnswerTotal(found, rows, DatesWithin(from, to), PlatformLess, CurrencyPart(currency, c),
                PlatformWeight(DatesOfCurrency(currency, from, to), c));
  }

  method Summarise(rows: map<PlatformKey, PlatformRow>, from: Day, to: Day)
    returns (out: seq<Found<string, PlatformRow>>)
    ensures Summarises(out, rows, from, to)
  {
    PlatformKeysAreOrdered();
    var found := Find(rows, DatesWithin(from, to), PlatformLess);
    var groups: map<string, PlatformRow> := map[];
    for i := 0 to |found|
      invariant Grouped(groups, found[..i])
    {
      assert found[..i + 1] == found[..i] + [found[i]];
      GroupOneMore(groups, found[..i], found[i]);
      var cur := found[i].key.currency;
      groups := groups[cur := AddRows(if cur in groups then groups[cur] else NEW_PLATFORM_ROW, found[i].row)];
    }
    assert found[..|found|] == found;
    forall currency ensures currency in groups <==> HasCurrency(rows, currency, from, to) {
      GroupedCurrencies(groups, found, rows, from, to, currency);
    }
    forall currency, c | currency in groups
      ensures OfPlatform(groups[currency], c) == CurrencyTotal(rows, currency, from, to, c)
    {
      GroupedTotals(groups, found, rows, from, to, currency, c);
    }
    StringsAreOrdered();
    out := Find(groups, _ => true, StringLess);
    SortedGroups(out, groups);
  }

  lemma SortedGroups(out: seq<Found<string, PlatformRow>>, groups: map<string, PlatformRow>)
    requires Answers(out, groups, _ => true, StringLess)
    ensures forall currency :: (exists i :: 0 <= i < |out| && out[i].key == currency) <==> currency in groups
    ensures forall i :: 0 <= i < |out| ==> out[i].key in groups && out[i].row == groups[out[i].key]
  {
    forall i | 0 <= i < |out| ensures out[i].key in groups && out[i].row == groups[out[i].key] { assert out[i] in out; }
    forall currency | currency in groups ensures exists i :: 0 <= i < |out| && out[i].key == currency {
      Answered(out, groups, _ => true, StringLess, currency);
    }
  }

  // ---------- Laws of the summary ----------

  ghost function LineOf(out: seq<Found<string, PlatformRow>>, currency: string): PlatformRow {
    if i :| 0 <= i < |out| && out[i].key == currency then out[i].row else NEW_PLATFORM_ROW
  }

  // The summary is the fold, currency by currency, of what the range query finds.
  lemma SummaryFoldsRange(out: seq<Found<string, PlatformRow>>, found: seq<Found<PlatformKey, PlatformRow>>,
                          rows: map<PlatformKey, PlatformRow>, from: Day, to: Day, i: nat, c: Counter)
    requires Summarises(out, rows, from, to) && Answers(found, rows, DatesWithin(from, to), PlatformLess) && i < |out|
    ensures OfPlatform(out[i].row, c) == Sum(found, CurrencyPart(out[i].key, c))
  {
    PlatformKeysAreOrdered();
    AnswerTotal(found, rows, DatesWithin(from, to), PlatformLess, CurrencyPart(out[i].key, c),
                PlatformWeight(DatesOfCurrency(out[i].key, from, to), c));
  }

  lemma LineIsTotal(out: seq<Found<string, PlatformRow>>, rows: map<PlatformKey, PlatformRow>, from: Day, to: Day,
                    currency: string, c: Counter)
    requires Summarises(out, rows, from, to)
    ensures OfPlatform(LineOf(out, currency), c) == CurrencyTotal(rows, currency, from, to, c)
  {
    if !HasCurrency(rows, currency, from, to) {
      TotalOfZeros(rows, PlatformWeight(DatesOfCurrency(currency, from, to), c));
    }
  }

  predicate HasLine(out: seq<Found<string, PlatformRow>>, currency: string) {
    exists i :: 0 <= i < |out| && out[i].key == currency
  }

  // Splitting the range: the whole has a line for exactly the currencies of two
  // adjacent parts, and its lines are the sums of theirs, a missing line counting as
  // zero.
  lemma SummarySplits(whole: seq<Found<string, PlatformRow>>, first: seq<Found<string, PlatformRow>>,
                      second: seq<Found<string, PlatformRow>>,
                      rows: map<PlatformKey, PlatformRow>, from: Day, mid: Day, to: Day, currency: string, c: Counter)
    requires from <= mid + 1 && mid <= to
    requires Summarises(whole, rows, from, to) && Summarises(first, rows, from, mid)
             && Summarises(second, rows, mid + 1, to)
    ensures OfPlatform(LineOf(whole, currency), c) == OfPlatform(LineOf(first, currency), c)
            + OfPlatform(LineOf(second, currency), c)
    ensures HasLine(whole, currency) <==> HasLine(first, currency) || HasLine(second, currency)
  {
    CurrenciesSplit(rows, from, mid, to, currency);
    LineIsTotal(whole, rows, from, to, currency, c);
    LineIsTotal(first, rows, from, mid, currency, c);
    LineIsTotal(second, rows, mid + 1, to, currency, c);
    TotalSplit(rows, PlatformWeight(DatesOfCurrency(currency, from, to), c),
               PlatformWeight(DatesOfCurrency(currency, from, mid), c),
               PlatformWeight(DatesOfCurrency(currency, mid + 1, to), c));
  }

  lemma CurrenciesSplit(rows: map<PlatformKey, PlatformRow>, from: Day, mid: Day, to: Day, currency: string)
    requires from <= mid + 1 && mid <= to
    ensures HasCurrency(rows, currency, from, to) <==>
            HasCurrency(rows, currency, from, mid) || HasCurrency(rows, currency, mid + 1, to)
  {
    if k :| k in rows && DatesOfCurrency(currency, from, to)(k) {
      assert DatesOfCurrency(currency, from, mid)(k) || DatesOfCurrency(currency, mid + 1, to)(k);
    }
    if k :| k in rows && DatesOfCurrency(currency, from, mid)(k) { assert DatesOfCurrency(currency, from, to)(k); }
    if k :| k in rows && DatesOfCurrency(currency, mid + 1, to)(k) { assert DatesOfCurrency(currency, from, to)(k); }
  }

  // ---------- The summary, written out ----------

  // The amounts of one currency from one day to another, both included.
  function AmountsIn(currency: string, from: Day, to: Day, amount: PlatformRow -> int): (PlatformKey,
                     PlatformRow) -> int {
    (k: PlatformKey, row: PlatformRow) => if k.currency == currency && from <= k.day <= to then amount(row) else 0
  }

  ghost predicate LineInRange(line: Found<string, PlatformRow>, rows: map<PlatformKey, PlatformRow>, from: Day,
                              to: Day) {
    var c, t := line.key, line.row.tally;
    && t.orders == Total(rows, AmountsIn(c, from, to, (row: PlatformRow) => row.tally.orders))
    && t.revenue == Total(rows, AmountsIn(c, from, to, (row: PlatformRow) => row.tally.revenue))
    && t.deliveryMsSum == Total(rows, AmountsIn(c, from, to, (row: PlatformRow) => row.tally.deliveryMsSum))
    && t.deliveryMsCount == Total(rows, AmountsIn(c, from, to, (row: PlatformRow) => row.tally.deliveryMsCount))
    && t.failed == Total(rows, AmountsIn(c, from, to, (row: PlatformRow) => row.tally.failed))
    && line.row.payments == Total(rows, AmountsIn(c, from, to, (row: PlatformRow) => row.payments))
    && line.row.paymentsAmount == Total(rows, AmountsIn(c, from, to, (row: PlatformRow) => row.paymentsAmount))
  }

  // A line for exactly the currencies with a row in range, in ascending order.
  ghost predicate SummaryInRange(out: seq<Found<string, PlatformRow>>, rows: map<PlatformKey, PlatformRow>, from: Day,
                                 to: Day) {
    && (forall i, j :: 0 <= i < j < |out| ==> StringLess(out[i].key, out[j].key))
    && (forall c :: HasLine(out, c) <==> exists k :: k in rows && k.currency == c && from <= k.day <= to)
    && (forall i :: 0 <= i < |out| ==> LineInRange(out[i], rows, from, to))
  }

  lemma AmountTotal(rows: map<PlatformKey, PlatformRow>, currency: string, from: Day, to: Day, c: Counter,
                    amount: PlatformRow -> int)
    requires forall row :: amount(row) == OfPlatform(row, c)
    ensures CurrencyTotal(rows, currency, from, to, c) == Total(rows, AmountsIn(currency, from, to, amount))
  {
    TotalEqual(rows, PlatformWeight(DatesOfCurrency(currency, from, to), c), AmountsIn(currency, from, to, amount));
  }

  lemma LineAnswered(out: seq<Found<string, PlatformRow>>, rows: map<PlatformKey, PlatformRow>, from: Day, to: Day,
                     i: nat)
    requires Summarises(out, rows, from, to) && i < |out|
    ensures LineInRange(out[i], rows, from, to)
  {
    var c := out[i].key;
    assert OfPlatform(out[i].row, Orders) == CurrencyTotal(rows, c, from, to, Orders);
    assert OfPlatform(out[i].row, Revenue) == CurrencyTotal(rows, c, from, to, Revenue);
    assert OfPlatform(out[i].row, DeliveryMsSum) == CurrencyTotal(rows, c, from, to, DeliveryMsSum);
    assert OfPlatform(out[i].row, DeliveryMsCount) == CurrencyTotal(rows, c, from, to, DeliveryMsCount);
    assert OfPlatform(out[i].row, Failed) == CurrencyTotal(rows, c, from, to, Failed);
    assert OfPlatform(out[i].row, Payments) == CurrencyTotal(rows, c, from, to, Payments);
    assert OfPlatform(out[i].row, PaymentsAmount) == CurrencyTotal(rows, c, from, to, PaymentsAmount);
    AmountTotal(rows, c, from, to, Orders, (row: PlatformRow) => row.tally.orders);
    AmountTotal(rows, c, from, to, Revenue, (row: PlatformRow) => row.tally.revenue);
    AmountTotal(rows, c, from, to, DeliveryMsSum, (row: PlatformRow) => row.tally.deliveryMsSum);
    AmountTotal(rows, c, from, to, DeliveryMsCount, (row: PlatformRow) => row.tally.deliveryMsCount);
    AmountTotal(rows, c, from, to, Failed, (row: PlatformRow) => row.tally.failed);
    AmountTotal(rows, c, from, to, Payments, (row: PlatformRow) => row.payments);
    AmountTotal(rows, c, from, to, PaymentsAmount, (row: PlatformRow) => row.paymentsAmount);
  }

  lemma SummaryAnswered(out: seq<Found<string, PlatformRow>>, rows: map<PlatformKey, PlatformRow>, from: Day, to: Day)
    requires Summarises(out, rows, from, to)
    ensures SummaryInRange(out, rows, from, to)
  {
    forall i | 0 <= i < |out| ensures LineInRange(out[i], rows, from, to) { LineAnswered(out, rows, from, to, i); }
    forall c ensures HasLine(out, c) <==> exists k :: k in rows && k.currency == c && from <= k.day <= to {
      if k :| k in rows && k.currency == c && from <= k.day <= to { assert DatesOfCurrency(c, from, to)(k); }
      if HasCurrency(rows, c, from, to) {
        var k :| k in rows && DatesOfCurrency(c, from, to)(k);
      }
    }
  }
}
