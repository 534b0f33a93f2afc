/**
 * The collection reports: payments grouped by class, by fee component or by month,
 * with the amounts of each group summed. Each report folds the payment rows into one
 * accumulator object (key to running total) and then lists that object's entries.
 */
module Analytics {
  import opened Text
  import opened Seqs

  /** One payment reduced to the key it is grouped by and its amount. */
  datatype Keyed = Keyed(key: string, amount: int)

  /** One row of `Object.entries` on the accumulator: a key and its total. */
  datatype Entry = Entry(key: string, total: int)

  /** The accumulator object: its keys in the order they were created, and their values. */
  datatype Tally = Tally(keys: seq<string>, totals: map<string, int>)

  // ---------------------------------------------------------------------------
  // What a report should contain

  /** The amounts of all rows, summed. */
  function SumAll(rows: seq<Keyed>): int {
    if rows == [] then 0 else SumAll(rows[..|rows| - 1]) + rows[|rows| - 1].amount
  }

  /** The amounts of the rows whose key is `k`, summed. */
  function SumFor(rows: seq<Keyed>, k: string): int {
    if rows == [] then 0
    else SumFor(rows[..|rows| - 1], k) + (if rows[|rows| - 1].key == k then rows[|rows| - 1].amount else 0)
  }

  /** Some row carries key `k`. */
  predicate HasKey(rows: seq<Keyed>, k: string) {
    exists i :: 0 <= i < |rows| && rows[i].key == k
  }

  /** The position of the first row carrying key `k`. */
  function FirstIndex(rows: seq<Keyed>, k: string): (n: nat)
    requires HasKey(rows, k)
    ensures n < |rows| && rows[n].key == k
    ensures forall j :: 0 <= j < n ==> rows[j].key != k
  {
    if rows[0].key == k then 0
    else
      assert HasKey(rows[1..], k) by {
        var i :| 0 <= i < |rows| && rows[i].key == k;
        assert rows[1..][i - 1] == rows[i];
      }
      1 + FirstIndex(rows[1..], k)
  }

  /** A row list that ends in `last` has the keys of its prefix and the key of `last`. */
  lemma HasKeySnoc(rows: seq<Keyed>)
    requires rows != []
    ensures forall x :: HasKey(rows, x) <==> HasKey(rows[..|rows| - 1], x) || rows[|rows| - 1].key == x
  {
    var init := rows[..|rows| - 1];
    forall x | HasKey(init, x) ensures HasKey(rows, x) {
      var i :| 0 <= i < |init| && init[i].key == x;
      assert rows[i] == init[i];
    }
    forall x | HasKey(rows, x) && rows[|rows| - 1].key != x ensures HasKey(init, x) {
      var i :| 0 <= i < |rows| && rows[i].key == x;
      assert init[i] == rows[i];
    }
  }

  /** A key no row carries sums to zero. */
  lemma {:induction false} SumForAbsentKey(rows: seq<Keyed>, k: string)
    requires !HasKey(rows, k)
    ensures SumFor(rows, k) == 0
  {
    if rows != [] {
      HasKeySnoc(rows);
      SumForAbsentKey(rows[..|rows| - 1], k);
    }
  }

  /** The keys in the order in which they first occur, each once. */
  function FirstAppearance(rows: seq<Keyed>): (r: seq<string>)
    ensures Distinct(r)
    ensures forall k :: k in r <==> HasKey(rows, k)
  {
    if rows == [] then []
    else
      var p := FirstAppearance(rows[..|rows| - 1]);
      var k := rows[|rows| - 1].key;
      HasKeySnoc(rows);
      if k in p then p else p + [k]
  }

  /** Appending a row does not move the first occurrence of a key already present. */
  lemma FirstIndexSnoc(rows: seq<Keyed>, x: string)
    requires rows != [] && HasKey(rows, x)
    ensures HasKey(rows[..|rows| - 1], x) ==> FirstIndex(rows, x) == FirstIndex(rows[..|rows| - 1], x)
    ensures !HasKey(rows[..|rows| - 1], x) ==> FirstIndex(rows, x) == |rows| - 1
  {
    var init := rows[..|rows| - 1];
    assert forall j :: 0 <= j < |init| ==> rows[j] == init[j];
    if HasKey(init, x) {
      var m := FirstIndex(init, x);
      assert rows[m].key == x;
    }
  }

  /** `FirstAppearance` lists keys by increasing position of their first occurrence. */
  lemma {:induction false} FirstAppearanceOrder(rows: seq<Keyed>)
    ensures forall i, j :: 0 <= i < j < |FirstAppearance(rows)| ==>
      FirstIndex(rows, FirstAppearance(rows)[i]) < FirstIndex(rows, FirstAppearance(rows)[j])
  {
    if rows != [] {
      var init := rows[..|rows| - 1];
      var p := FirstAppearance(init);
      var r := FirstAppearance(rows);
      FirstAppearanceOrder(init);
      forall x | x in p ensures FirstIndex(rows, x) == FirstIndex(init, x) {
        FirstIndexSnoc(rows, x);
      }
      forall i, j | 0 <= i < j < |r| ensures FirstIndex(rows, r[i]) < FirstIndex(rows, r[j]) {
        assert r[i] in p;
        if j < |p| {
          assert r[j] == p[j] && r[i] == p[i];
        } else {
          assert r[j] == rows[|rows| - 1].key && r[j] !in p;
          FirstIndexSnoc(rows, r[j]);
        }
      }
    }
  }

  // ---------------------------------------------------------------------------
  // The order of `Object.entries` (ECMA-262, section 10.1.11.1, OrdinaryOwnPropertyKeys):
  // keys that are array indices come first in ascending numeric order, then every
  // other string key in the order it was created.

  /** An array index: the canonical decimal form of an integer from 0 to 2^32 - 2. */
  predicate IsArrayIndex(k: string) {
    IsDigits(k) && (k[0] != '0' || |k| == 1) && DigitsValue(k) < 0xFFFF_FFFF
  }

  predicate IsOrdinaryKey(k: string) {
    !IsArrayIndex(k)
  }

  /** The numeric value of an array-index key (0 for any other key). */
  function IndexValue(k: string): nat {
    if IsArrayIndex(k) then DigitsValue(k) else 0
  }

  predicate SortedByIndex(s: seq<string>) {
    forall i, j :: 0 <= i < j < |s| ==> IndexValue(s[i]) <= IndexValue(s[j])
  }

  /** Inserts `k` into a list sorted by index value, before the first larger-or-equal one. */
  function InsertByIndex(k: string, s: seq<string>): (r: seq<string>)
    ensures |r| == |s| + 1
    ensures forall x :: x in r <==> x == k || x in s
  {
    if s == [] then [k]
    else if IndexValue(k) <= IndexValue(s[0]) then [k] + s
    else
      assert s == [s[0]] + s[1..];
      [s[0]] + InsertByIndex(k, s[1..])
  }

  /** Inserting into a sorted list keeps it sorted. */
  lemma {:induction false} InsertKeepsSorted(k: string, s: seq<string>)
    requires SortedByIndex(s)
    ensures SortedByIndex(InsertByIndex(k, s))
  {
    if s != [] {
      HeadIsLeast(s);
      if IndexValue(k) <= IndexValue(s[0]) {
        assert s == [s[0]] + s[1..];
        ConsSorted(k, s);
      } else {
        var rest := InsertByIndex(k, s[1..]);
        assert SortedByIndex(s[1..]) by {
          forall i, j | 0 <= i < j < |s[1..]| ensures IndexValue(s[1..][i]) <= IndexValue(s[1..][j]) {
            assert s[1..][i] == s[i + 1] && s[1..][j] == s[j + 1];
          }
        }
        InsertKeepsSorted(k, s[1..]);
        ConsSorted(s[0], rest);
      }
    }
  }

  /** The first key of a sorted list has an index value no larger than any later key. */
  lemma HeadIsLeast(s: seq<string>)
    requires SortedByIndex(s) && s != []
    ensures forall x :: x in s[1..] ==> IndexValue(s[0]) <= IndexValue(x)
  {
    forall x | x in s[1..] ensures IndexValue(s[0]) <= IndexValue(x) {
      var m :| 0 <= m < |s[1..]| && s[1..][m] == x;
      assert s[m + 1] == x;
    }
  }

  /** A key no larger than every key of a sorted list can go in front of it. */
  lemma ConsSorted(h: string, t: seq<string>)
    requires SortedByIndex(t)
    requires forall x :: x in t ==> IndexValue(h) <= IndexValue(x)
    ensures SortedByIndex([h] + t)
  {
    var r := [h] + t;
    forall i, j | 0 <= i < j < |r| ensures IndexValue(r[i]) <= IndexValue(r[j]) {
      assert r[j] == t[j - 1] && r[j] in t;
      if i > 0 {
        assert r[i] == t[i - 1];
      }
    }
  }

  /** Inserting a new key into a list without repetitions gives one without repetitions. */
  lemma {:induction false} InsertKeepsDistinct(k: string, s: seq<string>)
    ensures Distinct(s) && k !in s ==> Distinct(InsertByIndex(k, s))
  {
    if Distinct(s) && k !in s && s != [] && IndexValue(k) > IndexValue(s[0]) {
      var rest := InsertByIndex(k, s[1..]);
      assert s == [s[0]] + s[1..];
      InsertKeepsDistinct(k, s[1..]);
      assert s[0] !in rest;
      var r := [s[0]] + rest;
      forall i, j | 0 <= i < j < |r| ensures r[i] != r[j] {
        assert r[j] == rest[j - 1] && r[j] in rest;
        if i > 0 {
          assert r[i] == rest[i - 1];
        }
      }
    }
  }

  /** Sorts keys by ascending index value. */
  function SortByIndex(s: seq<string>): (r: seq<string>)
    ensures |r| == |s|
    ensures forall x :: x in r <==> x in s
    ensures SortedByIndex(r)
    ensures Distinct(s) ==> Distinct(r)
  {
    if s == [] then []
    else
      var rest := SortByIndex(s[1..]);
      assert s == [s[0]] + s[1..];
      InsertKeepsSorted(s[0], rest);
      assert Distinct(s) ==> s[0] !in s[1..];
      InsertKeepsDistinct(s[0], rest);
      InsertByIndex(s[0], rest)
  }

  /** Two sequences without repetitions and without a common element concatenate to one without repetitions. */
  lemma DisjointConcatDistinct(a: seq<string>, b: seq<string>)
    requires Distinct(a) && Distinct(b)
    requires forall x :: x in a ==> x !in b
    ensures Distinct(a + b)
  {
    var r := a + b;
    forall i, j | 0 <= i < j < |r| ensures r[i] != r[j] {
      if i < |a| && j >= |a| {
        assert r[i] == a[i] && r[j] == b[j - |a|];
        assert a[i] in a && b[j - |a|] in b;
      } else if j < |a| {
        assert r[i] == a[i] && r[j] == a[j];
      } else {
        assert r[i] == b[i - |a|] && r[j] == b[j - |a|];
      }
    }
  }

  /** The index keys and the other keys of a list without repetitions, put together, have none either. */
  lemma OwnKeysPartsDistinct(creation: seq<string>)
    ensures Distinct(creation) ==>
      Distinct(SortByIndex(Filter(creation, IsArrayIndex)) + Filter(creation, IsOrdinaryKey))
  {
    if Distinct(creation) {
      SubsequenceOfDistinct(Filter(creation, IsArrayIndex), creation);
      SubsequenceOfDistinct(Filter(creation, IsOrdinaryKey), creation);
      DisjointConcatDistinct(SortByIndex(Filter(creation, IsArrayIndex)), Filter(creation, IsOrdinaryKey));
    }
  }

  /** The index keys come first, sorted, and the other keys follow in creation order. */
  lemma OwnKeysShape(creation: seq<string>)
    ensures var indices := SortByIndex(Filter(creation, IsArrayIndex));
      var r := indices + Filter(creation, IsOrdinaryKey);
      && |indices| == |Filter(creation, IsArrayIndex)|
      && r[..|indices|] == indices && r[|indices|..] == Filter(creation, IsOrdinaryKey)
      && (forall i :: 0 <= i < |indices| ==> IsArrayIndex(r[i]))
      && (forall k :: k in r <==> k in creation)
  {
    var indices := SortByIndex(Filter(creation, IsArrayIndex));
    var r := indices + Filter(creation, IsOrdinaryKey);
    assert r[..|indices|] == indices && r[|indices|..] == Filter(creation, IsOrdinaryKey);
    forall i | 0 <= i < |indices| ensures IsArrayIndex(r[i]) {
      assert r[i] == indices[i] && indices[i] in indices;
    }
  }

  /**
   * The order in which `Object.entries` lists an object's keys, given the order in which
   * they were created: the array-index keys sorted by value, then the other keys in
   * creation order. No key is lost or added, and none is repeated.
   */
  function OwnKeys(creation: seq<string>): (r: seq<string>)
    ensures forall k :: k in r <==> k in creation
    ensures Distinct(creation) ==> Distinct(r)
    ensures var m := |Filter(creation, IsArrayIndex)|;
      && m <= |r|
      && (forall i :: 0 <= i < m ==> IsArrayIndex(r[i]))
      && SortedByIndex(r[..m])
      && r[m..] == Filter(creation, IsOrdinaryKey)
  {
    var r := SortByIndex(Filter(creation, IsArrayIndex)) + Filter(creation, IsOrdinaryKey);
    OwnKeysPartsDistinct(creation);
    OwnKeysShape(creation);
    r
  }

  /** With no array-index keys, `Object.entries` keeps the creation order. */
  lemma OwnKeysOfOrdinaryKeys(creation: seq<string>)
    requires forall i :: 0 <= i < |creation| ==> !IsArrayIndex(creation[i])
    ensures OwnKeys(creation) == creation
  {
    var indices := Filter(creation, IsArrayIndex);
    if indices != [] {
      assert indices[0] in indices;
    }
    FilterKeepsAll(creation, IsOrdinaryKey);
  }

  // ---------------------------------------------------------------------------
  // The report: one entry per key, in `Object.entries` order, with the key's sum

  /** One entry per key of `order`, each with the sum of the rows carrying that key. */
  function EntriesFor(order: seq<string>, rows: seq<Keyed>): seq<Entry> {
    seq(|order|, i requires 0 <= i < |order| => Entry(order[i], SumFor(rows, order[i])))
  }

  /** What a grouping of `rows` must return. */
  function Grouped(rows: seq<Keyed>): seq<Entry> {
    EntriesFor(OwnKeys(FirstAppearance(rows)), rows)
  }

  function KeysOf(es: seq<Entry>): seq<string> {
    seq(|es|, i requires 0 <= i < |es| => es[i].key)
  }

  function SumTotals(es: seq<Entry>): int {
    if es == [] then 0 else es[0].total + SumTotals(es[1..])
  }

  lemma EntriesForTail(order: seq<string>, rows: seq<Keyed>)
    requires order != []
    ensures EntriesFor(order, rows)[1..] == EntriesFor(order[1..], rows)
  {
  }

  /** With no rows every total is zero. */
  lemma {:induction false} NoRowsNoTotal(order: seq<string>)
    ensures SumTotals(EntriesFor(order, [])) == 0
  {
    if order != [] {
      EntriesForTail(order, []);
      NoRowsNoTotal(order[1..]);
    }
  }

  /** One more row adds its amount to the grand total exactly when its key is listed. */
  lemma {:induction false} AddRowToTotals(order: seq<string>, rows: seq<Keyed>, row: Keyed)
    requires Distinct(order)
    ensures SumTotals(EntriesFor(order, rows + [row])) ==
            SumTotals(EntriesFor(order, rows)) + (if row.key in order then row.amount else 0)
  {
    if order != [] {
      EntriesForTail(order, rows);
      EntriesForTail(order, rows + [row]);
      AddRowToTotals(order[1..], rows, row);
      assert (rows + [row])[..|rows|] == rows;
      assert order == [order[0]] + order[1..];
      assert order[0] !in order[1..];
    }
  }

  /**
   * Summing the per-key totals over distinct keys that cover every row gives the sum of
   * all amounts.
   */
  lemma {:induction false} TotalsConserveAmounts(order: seq<string>, rows: seq<Keyed>)
    requires Distinct(order)
    requires forall i :: 0 <= i < |rows| ==> rows[i].key in order
    ensures SumTotals(EntriesFor(order, rows)) == SumAll(rows)
  {
    if rows == [] {
      NoRowsNoTotal(order);
    } else {
      var init := rows[..|rows| - 1];
      var last := rows[|rows| - 1];
      assert rows == init + [last];
      assert forall i :: 0 <= i < |init| ==> init[i] == rows[i];
      TotalsConserveAmounts(order, init);
      AddRowToTotals(order, init, last);
    }
  }

  /**
   * Conservation: the report's totals add up to the sum of all payment amounts.
   */
  lemma GroupedConservesAmounts(rows: seq<Keyed>)
    ensures SumTotals(Grouped(rows)) == SumAll(rows)
  {
    var order := OwnKeys(FirstAppearance(rows));
    forall i | 0 <= i < |rows| ensures rows[i].key in order {
      assert HasKey(rows, rows[i].key);
    }
    TotalsConserveAmounts(order, rows);
  }

  /**
   * The report lists each key that some payment carries, and no other, exactly once,
   * with the sum of the amounts of the payments carrying it; no payments, no rows.
   */
  lemma GroupedKeys(rows: seq<Keyed>)
    ensures KeysOf(Grouped(rows)) == OwnKeys(FirstAppearance(rows))
    ensures Distinct(KeysOf(Grouped(rows)))
    ensures forall k :: k in KeysOf(Grouped(rows)) <==> HasKey(rows, k)
    ensures forall i :: 0 <= i < |Grouped(rows)| ==> Grouped(rows)[i].total == SumFor(rows, Grouped(rows)[i].key)
    ensures rows == [] <==> Grouped(rows) == []
  {
    var creation := FirstAppearance(rows);
    var order := OwnKeys(creation);
    EntriesForShape(order, rows);
    assert Grouped(rows) == EntriesFor(order, rows);
    assert Distinct(order) && forall k :: k in order <==> HasKey(rows, k);
    GroupedNonEmpty(rows);
  }

  /** The entries for a list of keys: one per key, in order, each with its key's sum. */
  lemma EntriesForShape(order: seq<string>, rows: seq<Keyed>)
    ensures |EntriesFor(order, rows)| == |order|
    ensures KeysOf(EntriesFor(order, rows)) == order
    ensures forall i :: 0 <= i < |order| ==> EntriesFor(order, rows)[i].total == SumFor(rows, order[i])
  {
  }

  /** Some payment gives some row. */
  lemma GroupedNonEmpty(rows: seq<Keyed>)
    ensures rows != [] ==> Grouped(rows) != []
  {
    if rows != [] {
      assert HasKey(rows, rows[0].key);
      assert rows[0].key in FirstAppearance(rows);
      assert |OwnKeys(FirstAppearance(rows))| > 0;
    }
  }

  /**
   * When no key is an array index (no class, component or month is written as a bare
   * number), the rows keep the order in which each key first occurs among the payments.
   */
  lemma GroupedFollowsFirstAppearance(rows: seq<Keyed>)
    requires forall i :: 0 <= i < |rows| ==> !IsArrayIndex(rows[i].key)
    ensures KeysOf(Grouped(rows)) == FirstAppearance(rows)
    ensures forall i, j :: 0 <= i < j < |Grouped(rows)| ==>
      HasKey(rows, Grouped(rows)[i].key) && HasKey(rows, Grouped(rows)[j].key) &&
      FirstIndex(rows, Grouped(rows)[i].key) < FirstIndex(rows, Grouped(rows)[j].key)
  {
    var fa := FirstAppearance(rows);
    forall i | 0 <= i < |fa| ensures !IsArrayIndex(fa[i]) {
      assert fa[i] in fa;
      var n :| 0 <= n < |rows| && rows[n].key == fa[i];
    }
    OwnKeysOfOrdinaryKeys(fa);
    GroupedKeys(rows);
    FirstAppearanceOrder(rows);
    forall i | 0 <= i < |Grouped(rows)| ensures Grouped(rows)[i].key == fa[i] {
    }
  }

  // ---------------------------------------------------------------------------
  // The fold and the entries

  /** The fold has seen `seen`: its keys are their first appearances and its totals their sums. */
  ghost predicate Accumulated(seen: seq<Keyed>, keys: seq<string>, totals: map<string, int>) {
    && keys == FirstAppearance(seen)
    && (forall k :: k in totals <==> k in keys)
    && (forall k :: k in totals ==> totals[k] == SumFor(seen, k))
  }

  /** One more row: the new key, if it is new, is appended to the first appearances. */
  lemma FirstAppearanceSnoc(seen: seq<Keyed>, row: Keyed)
    ensures FirstAppearance(seen + [row]) ==
            if row.key in FirstAppearance(seen) then FirstAppearance(seen) else FirstAppearance(seen) + [row.key]
  {
    assert (seen + [row])[..|seen|] == seen;
  }

  /** One more row adds its amount to the sum of its own key and to no other. */
  lemma SumForSnoc(seen: seq<Keyed>, row: Keyed)
    ensures forall k :: SumFor(seen + [row], k) == SumFor(seen, k) + (if row.key == k then row.amount else 0)
  {
    assert (seen + [row])[..|seen|] == seen;
  }

  /** Adding one more row's amount to its key, starting from 0 when the key is absent or 0. */
  lemma AccumulateStep(seen: seq<Keyed>, row: Keyed, keys: seq<string>, totals: map<string, int>,
                       keys': seq<string>, totals': map<string, int>)
    requires Accumulated(seen, keys, totals)
    requires keys' == if row.key in totals then keys else keys + [row.key]
    requires var base := if row.key !in totals || totals[row.key] == 0 then totals[row.key := 0] else totals;
      totals' == base[row.key := base[row.key] + row.amount]
    ensures Accumulated(seen + [row], keys', totals')
  {
    FirstAppearanceSnoc(seen, row);
    SumForSnoc(seen, row);
    var before := if row.key in totals then totals[row.key] else 0;
    if row.key !in totals {
      assert !HasKey(seen, row.key);
      SumForAbsentKey(seen, row.key);
    }
    assert totals'[row.key] == before + row.amount == SumFor(seen + [row], row.key);
    forall k | k != row.key
      ensures (k in totals' <==> k in keys') && (k in totals' ==> totals'[k] == SumFor(seen + [row], k))
    {
      assert (k in totals' <==> k in totals) && (k in keys' <==> k in keys);
    }
  }

  /** Once the fold has seen every row, its totals are keyed by exactly the rows' keys. */
  lemma AccumulatedAll(rows: seq<Keyed>, keys: seq<string>, totals: map<string, int>)
    requires Accumulated(rows, keys, totals)
    ensures forall k :: k in totals <==> HasKey(rows, k)
  {
  }

  /**
   * The callback of every report's `reduce`: reset the row's key to 0 when it is absent
   * or 0 (creating it the first time the key is seen), then add the row's amount.
   */
  method AddToTally(ghost seen: seq<Keyed>, keys: seq<string>, totals: map<string, int>, row: Keyed)
    returns (keys': seq<string>, totals': map<string, int>)
    requires Accumulated(seen, keys, totals)
    ensures Accumulated(seen + [row], keys', totals')
  {
    keys', totals' := keys, totals;
    if row.key !in totals' || totals'[row.key] == 0 {
      if row.key !in totals' {
        keys' := keys' + [row.key];
      }
      totals' := totals'[row.key := 0];
    }
    totals' := totals'[row.key := totals'[row.key] + row.amount];
    AccumulateStep(seen, row, keys, totals, keys', totals');
  }

  /** The `reduce` of every report, from the empty accumulator `{}`. */
  method Accumulate(rows: seq<Keyed>) returns (t: Tally)
    ensures t.keys == FirstAppearance(rows)
    ensures forall k :: k in t.totals <==> HasKey(rows, k)
    ensures forall k :: k in t.totals ==> t.totals[k] == SumFor(rows, k)
  {
    var keys: seq<string> := [];
    var totals: map<string, int> := map[];
    var i := 0;
    while i < |rows|
      invariant 0 <= i <= |rows|
      invariant Accumulated(rows[..i], keys, totals)
    {
      assert rows[..i + 1] == rows[..i] + [rows[i]];
      keys, totals := AddToTally(rows[..i], keys, totals, rows[i]);
      i := i + 1;
    }
    assert rows[..|rows|] == rows;
    AccumulatedAll(rows, keys, totals);
    t := Tally(keys, totals);
  }

  /** `Object.entries` on the accumulator. */
  function Entries(t: Tally): seq<Entry>
    requires forall k :: k in t.keys ==> k in t.totals
  {
    var order := OwnKeys(t.keys);
    seq(|order|, i requires 0 <= i < |order| => Entry(order[i], t.totals[order[i]]))
  }

  /** Folding the rows and listing the entries gives exactly the report `Grouped` describes. */
  method GroupSum(rows: seq<Keyed>) returns (es: seq<Entry>)
    ensures es == Grouped(rows)
  {
    var t := Accumulate(rows);
    es := Entries(t);
  }

  // ---------------------------------------------------------------------------
  // The three reports

  /** A payment with its student's class (the `amount, students(class)` selection). */
  datatype ClassPayment = ClassPayment(amount: int, studentClass: string)

  /** A payment with its fee component's name (the `amount, fee_components(name)` selection). */
  datatype ComponentPayment = ComponentPayment(amount: int, componentName: string)

  /** A payment with its date (the `amount, payment_date` selection). */
  datatype DatedPayment = DatedPayment(amount: int, paymentDate: string)

  datatype ClassCollection = ClassCollection(className: string, collection: int)
  datatype ComponentCollection = ComponentCollection(name: string, value: int, amount: int)
  datatype MonthlyCollection = MonthlyCollection(month: string, collection: int, target: int)

  /** The monthly collection target every month row carries. */
  const MonthlyTarget := 500000

  function ByClass(data: seq<ClassPayment>): seq<Keyed> {
    seq(|data|, i requires 0 <= i < |data| => Keyed(data[i].studentClass, data[i].amount))
  }

  function ByComponent(data: seq<ComponentPayment>): seq<Keyed> {
    seq(|data|, i requires 0 <= i < |data| => Keyed(data[i].componentName, data[i].amount))
  }

  /** `monthOf` stands for the locale-dependent short month name of a payment date. */
  function ByMonth(data: seq<DatedPayment>, monthOf: string -> string): seq<Keyed> {
    seq(|data|, i requires 0 <= i < |data| => Keyed(monthOf(data[i].paymentDate), data[i].amount))
  }

  /** Class-wise collection: one row per class, with the class's summed amounts. */
  method GetClasswiseCollection(data: seq<ClassPayment>) returns (result: seq<ClassCollection>)
    ensures |result| == |Grouped(ByClass(data))|
    ensures forall i :: 0 <= i < |result| ==>
      result[i].className == Grouped(ByClass(data))[i].key &&
      result[i].collection == SumFor(ByClass(data), result[i].className)
  {
    var es := GroupSum(ByClass(data));
    result := seq(|es|, i requires 0 <= i < |es| => ClassCollection(es[i].key, es[i].total));
  }

  /** Component-wise collection: one row per component name; `value` and `amount` agree. */
  method GetFeeComponentCollection(data: seq<ComponentPayment>) returns (result: seq<ComponentCollection>)
    ensures |result| == |Grouped(ByComponent(data))|
    ensures forall i :: 0 <= i < |result| ==>
      result[i].name == Grouped(ByComponent(data))[i].key &&
      result[i].amount == SumFor(ByComponent(data), result[i].name) &&
      result[i].value == result[i].amount
  {
    var es := GroupSum(ByComponent(data));
    result := seq(|es|, i requires 0 <= i < |es| => ComponentCollection(es[i].key, es[i].total, es[i].total));
  }

  /** Monthly trend: one row per month key, with the month's summed amounts and the target. */
  method GetMonthlyTrend(data: seq<DatedPayment>, monthOf: string -> string) returns (result: seq<MonthlyCollection>)
    ensures |result| == |Grouped(ByMonth(data, monthOf))|
    ensures forall i :: 0 <= i < |result| ==>
      result[i].month == Grouped(ByMonth(data, monthOf))[i].key &&
      result[i].collection == SumFor(ByMonth(data, monthOf), result[i].month) &&
      result[i].target == MonthlyTarget
  {
    var es := GroupSum(ByMonth(data, monthOf));
    result := seq(|es|, i requires 0 <= i < |es| => MonthlyCollection(es[i].key, es[i].total, MonthlyTarget));
  }
}
