/**
 * The `transactions` table and `TransactionRepository`'s queries over it. Every paged
 * finder filters the table, sorts by transaction date with the newest first, and cuts
 * out page `pageIndex` of `pageSize` rows; every counter counts the same filter. The
 * sums add up amounts with `COALESCE(SUM(...), 0)` semantics, and the two grouped sums
 * build a hash map from the rows of a `GROUP BY` query.
 */
module TransactionRepository {
  import opened Wrappers
  import opened Calendar
  import Collections

  type Id = nat

  datatype Transaction = Transaction(
    id: Id,
    userEmail: string,
    budgetItemId: Id,
    expenseTypeId: Id,
    amount: real,
    description: Option<string>,
    transactionDate: LocalDate)

  /** The four filters the finders and counters use, besides the owner. */
  datatype Query =
    | AllOfUser
    | InDateRange(startDate: LocalDate, endDate: LocalDate)
    | OfExpenseType(expenseTypeId: Id)
    | InDateRangeOfExpenseType(rangeStart: LocalDate, rangeEnd: LocalDate, typeId: Id)

  /** The `WHERE` clause: owner, inclusive date bounds, expense type. */
  predicate Matches(t: Transaction, userEmail: string, q: Query)
  {
    t.userEmail == userEmail
    && match q
       case AllOfUser => true
       case InDateRange(s, e) => NotAfter(s, t.transactionDate) && NotAfter(t.transactionDate, e)
       case OfExpenseType(x) => t.expenseTypeId == x
       case InDateRangeOfExpenseType(s, e, x) =>
         NotAfter(s, t.transactionDate) && NotAfter(t.transactionDate, e) && t.expenseTypeId == x
  }

  /** The rows matching a query, in table order. */
  function Filter(rows: seq<Transaction>, userEmail: string, q: Query): (r: seq<Transaction>)
    ensures |r| <= |rows|
    ensures forall i :: 0 <= i < |r| ==> r[i] in rows && Matches(r[i], userEmail, q)
    ensures forall t :: t in rows && Matches(t, userEmail, q) ==> t in r
    ensures multiset(r) <= multiset(rows)
  {
    if rows == [] then []
    else
      var init, last := rows[..|rows| - 1], rows[|rows| - 1];
      assert rows == init + [last];
      var prefix := Filter(init, userEmail, q);
      if Matches(last, userEmail, q) then prefix + [last] else prefix
  }

  lemma {:induction false} FilterAppend(a: seq<Transaction>, b: seq<Transaction>, userEmail: string, q: Query)
    ensures Filter(a + b, userEmail, q) == Filter(a, userEmail, q) + Filter(b, userEmail, q)
  {
    if b == [] {
      assert a + b == a;
    } else {
      var init := b[..|b| - 1];
      assert (a + b)[..|a + b| - 1] == a + init;
      FilterAppend(a, init, userEmail, q);
    }
  }

  // ---------------------------------------------------------------------------
  // Sorting by transaction date, newest first

  predicate SortedNewestFirst(s: seq<Transaction>)
  {
    forall i, j :: 0 <= i < j < |s| ==> NotAfter(s[j].transactionDate, s[i].transactionDate)
  }

  /** Places `t` before the first row that is not newer than it. */
  function Insert(t: Transaction, s: seq<Transaction>): (r: seq<Transaction>)
    ensures |r| == |s| + 1
  {
    if s == [] then [t]
    else if NotAfter(s[0].transactionDate, t.transactionDate) then [t] + s
    else [s[0]] + Insert(t, s[1..])
  }

  lemma NotAfterTransitive(a: Date, b: Date, c: Date)
    requires NotAfter(a, b) && NotAfter(b, c)
    ensures NotAfter(a, c)
  {
  }

  /** Everything in a sorted sequence is no newer than its head. */
  lemma HeadIsNewest(s: seq<Transaction>, x: Transaction)
    requires SortedNewestFirst(s) && x in s
    ensures NotAfter(x.transactionDate, s[0].transactionDate)
  {
    var i :| 0 <= i < |s| && s[i] == x;
    if i > 0 {
      assert NotAfter(s[i].transactionDate, s[0].transactionDate);
    }
  }

  /** Prepending a row no older than the head keeps the order. */
  lemma PrependNewest(x: Transaction, s: seq<Transaction>)
    requires SortedNewestFirst(s)
    requires forall y :: y in s ==> NotAfter(y.transactionDate, x.transactionDate)
    ensures SortedNewestFirst([x] + s)
  {
    var r := [x] + s;
    forall i, j | 0 <= i < j < |r|
      ensures NotAfter(r[j].transactionDate, r[i].transactionDate)
    {
      if i == 0 {
        assert r[j] in s;
      } else {
        assert r[i] == s[i - 1] && r[j] == s[j - 1];
      }
    }
  }

  lemma {:induction false} InsertKeepsOrder(t: Transaction, s: seq<Transaction>)
    requires SortedNewestFirst(s)
    ensures SortedNewestFirst(Insert(t, s))
    ensures multiset(Insert(t, s)) == multiset(s) + multiset{t}
  {
    if s == [] {
    } else if NotAfter(s[0].transactionDate, t.transactionDate) {
      forall y | y in s
        ensures NotAfter(y.transactionDate, t.transactionDate)
      {
        HeadIsNewest(s, y);
        NotAfterTransitive(y.transactionDate, s[0].transactionDate, t.transactionDate);
      }
      PrependNewest(t, s);
    } else {
      var tail := s[1..];
      assert s == [s[0]] + tail;
      assert SortedNewestFirst(tail);
      InsertKeepsOrder(t, tail);
      var rest := Insert(t, tail);
      forall x | x in rest
        ensures NotAfter(x.transactionDate, s[0].transactionDate)
      {
        assert x in multiset(rest);
        if x != t {
          assert x in s;
          HeadIsNewest(s, x);
        } else {
          NotAfterTotal(s[0].transactionDate, t.transactionDate);
        }
      }
      PrependNewest(s[0], rest);
    }
  }

  /** `Sort.by("transactionDate").descending()`; rows with equal dates come in an order the database does not fix. */
  function SortNewestFirst(s: seq<Transaction>): (r: seq<Transaction>)
    ensures SortedNewestFirst(r)
    ensures multiset(r) == multiset(s)
    ensures |r| == |s|
  {
    if s == [] then []
    else
      var rest := SortNewestFirst(s[1..]);
      InsertKeepsOrder(s[0], rest);
      assert s == [s[0]] + s[1..];
      Insert(s[0], rest)
  }

  // ---------------------------------------------------------------------------
  // Pages

  /** `(int) Math.ceil((double) n / d)` for a positive divisor. */
  function CeilDiv(n: nat, d: nat): (r: nat)
    requires d > 0
    ensures r * d >= n
    ensures r > 0 ==> (r - 1) * d < n
  {
    (n + d - 1) / d
  }

  /** `Page.of(pageIndex, pageSize)`: rows `pageIndex * pageSize` up to, not including, `(pageIndex + 1) * pageSize`. */
  function PageOf(s: seq<Transaction>, pageIndex: nat, pageSize: nat): (r: seq<Transaction>)
    requires pageSize > 0
    ensures |r| <= pageSize
  {
    var lo := if pageIndex * pageSize < |s| then pageIndex * pageSize else |s|;
    var hi := if lo + pageSize < |s| then lo + pageSize else |s|;
    s[lo..hi]
  }

  /** The first `k` pages laid end to end. */
  function FirstPages(s: seq<Transaction>, k: nat, pageSize: nat): seq<Transaction>
    requires pageSize > 0
  {
    if k == 0 then [] else FirstPages(s, k - 1, pageSize) + PageOf(s, k - 1, pageSize)
  }

  lemma {:induction false} FirstPagesArePrefix(s: seq<Transaction>, k: nat, pageSize: nat)
    requires pageSize > 0
    ensures FirstPages(s, k, pageSize) == s[..if k * pageSize < |s| then k * pageSize else |s|]
  {
    if k > 0 {
      FirstPagesArePrefix(s, k - 1, pageSize);
      var lo := if (k - 1) * pageSize < |s| then (k - 1) * pageSize else |s|;
      assert (k - 1) * pageSize + pageSize == k * pageSize;
      assert s[..lo] + s[lo..if k * pageSize < |s| then k * pageSize else |s|]
          == s[..if k * pageSize < |s| then k * pageSize else |s|];
    }
  }

  /** Reading every page up to `totalPages` returns every row exactly once, in order. */
  lemma AllPagesCoverRows(s: seq<Transaction>, pageSize: nat)
    requires pageSize > 0
    ensures FirstPages(s, CeilDiv(|s|, pageSize), pageSize) == s
  {
    FirstPagesArePrefix(s, CeilDiv(|s|, pageSize), pageSize);
  }

  /** A page holds rows exactly when its index is below `totalPages`. */
  lemma PageNonEmptyIff(s: seq<Transaction>, pageIndex: nat, pageSize: nat)
    requires pageSize > 0
    ensures PageOf(s, pageIndex, pageSize) != [] <==> pageIndex < CeilDiv(|s|, pageSize)
  {
    var n, k := |s|, CeilDiv(|s|, pageSize);
    if pageIndex < k {
      assert pageIndex <= k - 1;
      assert pageIndex * pageSize <= (k - 1) * pageSize by {
        MultiplyMonotone(pageIndex, k - 1, pageSize);
      }
    } else {
      MultiplyMonotone(k, pageIndex, pageSize);
    }
  }

  lemma MultiplyMonotone(a: nat, b: nat, c: nat)
    requires a <= b
    ensures a * c <= b * c
  {
  }

  // ---------------------------------------------------------------------------
  // The finders and counters

  /**
   * `findByUserEmailPaginated`, `findByUserEmailAndDateRange`, `findByUserEmailAndExpenseType`
   * and `findByUserEmailDateRangeAndExpenseType`: one page of the matching rows, newest first.
   */
  function Find(rows: seq<Transaction>, userEmail: string, q: Query, pageIndex: nat, pageSize: nat): (r: seq<Transaction>)
    requires pageSize > 0
    ensures |r| <= pageSize
    ensures SortedNewestFirst(r)
    ensures forall i :: 0 <= i < |r| ==> r[i] in rows && Matches(r[i], userEmail, q)
  {
    var matching := Filter(rows, userEmail, q);
    var sorted := SortNewestFirst(matching);
    PageOfSorted(sorted, pageIndex, pageSize);
    SortedRowsMatch(sorted, matching, rows, userEmail, q);
    PageOf(sorted, pageIndex, pageSize)
  }

  lemma PageOfSorted(s: seq<Transaction>, pageIndex: nat, pageSize: nat)
    requires pageSize > 0 && SortedNewestFirst(s)
    ensures SortedNewestFirst(PageOf(s, pageIndex, pageSize))
    ensures forall x :: x in PageOf(s, pageIndex, pageSize) ==> x in s
  {
    var lo := if pageIndex * pageSize < |s| then pageIndex * pageSize else |s|;
    var hi := if lo + pageSize < |s| then lo + pageSize else |s|;
    var page := s[lo..hi];
    assert PageOf(s, pageIndex, pageSize) == page;
    assert forall i :: 0 <= i < |page| ==> page[i] == s[lo + i];
  }

  lemma SortedRowsMatch(sorted: seq<Transaction>, matching: seq<Transaction>, rows: seq<Transaction>, userEmail: string, q: Query)
    requires multiset(sorted) == multiset(matching)
    requires forall i :: 0 <= i < |matching| ==> matching[i] in rows && Matches(matching[i], userEmail, q)
    ensures forall x :: x in sorted ==> x in rows && Matches(x, userEmail, q)
  {
    forall x | x in sorted
      ensures x in rows && Matches(x, userEmail, q)
    {
      assert x in multiset(sorted);
      assert x in matching;
    }
  }

  /** The four `countBy...` methods: the number of rows the matching finder pages through. */
  function Count(rows: seq<Transaction>, userEmail: string, q: Query): (n: nat)
    ensures n <= |rows|
  {
    |Filter(rows, userEmail, q)|
  }

  /** Paging a query to the end with `CeilDiv(Count, pageSize)` pages yields every matching row once. */
  lemma FindCoversCount(rows: seq<Transaction>, userEmail: string, q: Query, pageSize: nat)
    requires pageSize > 0
    ensures var sorted := SortNewestFirst(Filter(rows, userEmail, q));
      FirstPages(sorted, CeilDiv(Count(rows, userEmail, q), pageSize), pageSize) == sorted
      && multiset(sorted) == multiset(Filter(rows, userEmail, q))
  {
    AllPagesCoverRows(SortNewestFirst(Filter(rows, userEmail, q)), pageSize);
  }

  /** `findByUUID`: the row with that id, or `null`. */
  function FindById(rows: seq<Transaction>, id: Id): (r: Option<nat>)
    ensures r.Some? ==>
      (r.value < |rows| && rows[r.value].id == id && forall j :: 0 <= j < r.value ==> rows[j].id != id)
    ensures r.None? ==> forall j :: 0 <= j < |rows| ==> rows[j].id != id
  {
    if rows == [] then None
    else if rows[0].id == id then Some(0)
    else
      var rest := FindById(rows[1..], id);
      if rest.Some? then Some(rest.value + 1) else None
  }

  /** `count("budgetItemId", id)`: the number of rows, of any user, that point at the budget item. */
  function CountByBudgetItemId(rows: seq<Transaction>, budgetItemId: Id): (n: nat)
    ensures n <= |rows|
  {
    if rows == [] then 0
    else CountByBudgetItemId(rows[..|rows| - 1], budgetItemId) + (if rows[|rows| - 1].budgetItemId == budgetItemId then 1 else 0)
  }

  /** The count is positive exactly when some row points at the budget item. */
  lemma {:induction false} CountPositiveIff(rows: seq<Transaction>, budgetItemId: Id)
    ensures CountByBudgetItemId(rows, budgetItemId) > 0 <==> exists i :: 0 <= i < |rows| && rows[i].budgetItemId == budgetItemId
  {
    if rows != [] {
      var init := rows[..|rows| - 1];
      CountPositiveIff(init, budgetItemId);
      if exists i :: 0 <= i < |init| && init[i].budgetItemId == budgetItemId {
        var i :| 0 <= i < |init| && init[i].budgetItemId == budgetItemId;
        assert rows[i] == init[i];
      }
      if exists i :: 0 <= i < |rows| && rows[i].budgetItemId == budgetItemId {
        var i :| 0 <= i < |rows| && rows[i].budgetItemId == budgetItemId;
        if i < |init| {
          assert init[i] == rows[i];
        }
      }
    }
  }

  /** `existsByBudgetItemId`: `count("budgetItemId", id) > 0`, so whether any row points at the budget item. */
  function ExistsByBudgetItemId(rows: seq<Transaction>, budgetItemId: Id): (b: bool)
    ensures b <==> exists i :: 0 <= i < |rows| && rows[i].budgetItemId == budgetItemId
  {
    CountPositiveIff(rows, budgetItemId);
    CountByBudgetItemId(rows, budgetItemId) > 0
  }

  // ---------------------------------------------------------------------------
  // Sums

  function Amounts(rows: seq<Transaction>): (a: seq<real>)
    ensures |a| == |rows| && forall i :: 0 <= i < |rows| ==> a[i] == rows[i].amount
  {
    seq(|rows|, i requires 0 <= i < |rows| => rows[i].amount)
  }

  /** `COALESCE(SUM(t.amount), 0)`. */
  function Total(rows: seq<Transaction>): real
  {
    Collections.Sum(Amounts(rows))
  }

  lemma TotalAppend(a: seq<Transaction>, b: seq<Transaction>)
    ensures Total(a + b) == Total(a) + Total(b)
  {
    assert Amounts(a + b) == Amounts(a) + Amounts(b);
    Collections.SumAppend(Amounts(a), Amounts(b));
  }

  /** The query for the days of one month. */
  function MonthQuery(year: int, month: int): Query
    requires IsMonth(month)
  {
    InDateRange(FirstOfMonth(year, month), LastOfMonth(year, month))
  }

  /** The month window selects exactly the user's rows dated in that year and month. */
  lemma MonthQueryMatches(t: Transaction, userEmail: string, year: int, month: int)
    requires IsMonth(month)
    ensures Matches(t, userEmail, MonthQuery(year, month)) <==>
      t.userEmail == userEmail && t.transactionDate.year == year && t.transactionDate.month == month
  {
    InMonthWindow(t.transactionDate, year, month);
  }

  /** Whether a row is the user's, dated in the given year and month, and of the given type if one is given. */
  predicate SpentIn(t: Transaction, userEmail: string, year: int, month: int, typeId: Option<Id>)
  {
    t.userEmail == userEmail && t.transactionDate.year == year && t.transactionDate.month == month
    && (typeId.None? || t.expenseTypeId == typeId.value)
  }

  /** What a user spent in one calendar month, optionally on one expense type, added up row by row. */
  function SpentInMonth(rows: seq<Transaction>, userEmail: string, year: int, month: int, typeId: Option<Id>): real
  {
    if rows == [] then 0.0
    else
      var last := rows[|rows| - 1];
      SpentInMonth(rows[..|rows| - 1], userEmail, year, month, typeId)
      + (if SpentIn(last, userEmail, year, month, typeId) then last.amount else 0.0)
  }

  /** The query the month sums run: the month's date window, with the type if one is given. */
  function MonthWindow(year: int, month: int, typeId: Option<Id>): Query
    requires IsMonth(month)
  {
    match typeId
    case None => MonthQuery(year, month)
    case Some(x) => InDateRangeOfExpenseType(FirstOfMonth(year, month), LastOfMonth(year, month), x)
  }

  lemma WindowMatches(t: Transaction, userEmail: string, year: int, month: int, typeId: Option<Id>)
    requires IsMonth(month)
    ensures Matches(t, userEmail, MonthWindow(year, month, typeId)) <==> SpentIn(t, userEmail, year, month, typeId)
  {
    InMonthWindow(t.transactionDate, year, month);
  }

  lemma TotalSnoc(rows: seq<Transaction>, t: Transaction)
    ensures Total(rows + [t]) == Total(rows) + t.amount
  {
    TotalAppend(rows, [t]);
    assert Amounts([t]) == [t.amount];
    assert Collections.Sum([t.amount]) == Collections.Sum([]) + t.amount;
  }

  /** Summing the rows the month window selects adds up exactly what was spent in that month. */
  lemma {:induction false} MonthTotalIsSpent(rows: seq<Transaction>, userEmail: string, year: int, month: int, typeId: Option<Id>)
    requires IsMonth(month)
    ensures Total(Filter(rows, userEmail, MonthWindow(year, month, typeId))) == SpentInMonth(rows, userEmail, year, month, typeId)
  {
    if rows != [] {
      var init, last := rows[..|rows| - 1], rows[|rows| - 1];
      var q := MonthWindow(year, month, typeId);
      MonthTotalIsSpent(init, userEmail, year, month, typeId);
      WindowMatches(last, userEmail, year, month, typeId);
      TotalSnoc(Filter(init, userEmail, q), last);
    }
  }

  /** `sumByUserEmailAndMonth`: the user's spending in that month, 0 when there is none. */
  function SumByUserEmailAndMonth(rows: seq<Transaction>, userEmail: string, year: int, month: int): (r: real)
    requires IsMonth(month)
    ensures r == SpentInMonth(rows, userEmail, year, month, None)
  {
    MonthTotalIsSpent(rows, userEmail, year, month, None);
    Total(Filter(rows, userEmail, MonthQuery(year, month)))
  }

  /** `sumByUserEmailExpenseTypeAndMonth`: the user's spending on that type in that month, 0 when there is none. */
  function SumByUserEmailExpenseTypeAndMonth(rows: seq<Transaction>, userEmail: string, expenseTypeId: Id, year: int, month: int): (r: real)
    requires IsMonth(month)
    ensures r == SpentInMonth(rows, userEmail, year, month, Some(expenseTypeId))
  {
    MonthTotalIsSpent(rows, userEmail, year, month, Some(expenseTypeId));
    Total(Filter(rows, userEmail, InDateRangeOfExpenseType(FirstOfMonth(year, month), LastOfMonth(year, month), expenseTypeId)))
  }

  /** A month's type-restricted sum is its unrestricted sum when every row of that month has that type. */
  lemma TypeSumOfSingleTypeMonth(rows: seq<Transaction>, userEmail: string, expenseTypeId: Id, year: int, month: int)
    requires IsMonth(month)
    requires forall t :: t in rows && Matches(t, userEmail, MonthQuery(year, month)) ==> t.expenseTypeId == expenseTypeId
    ensures SumByUserEmailExpenseTypeAndMonth(rows, userEmail, expenseTypeId, year, month)
      == SumByUserEmailAndMonth(rows, userEmail, year, month)
  {
    var s, e := FirstOfMonth(year, month), LastOfMonth(year, month);
    SameFilter(rows, userEmail, InDateRangeOfExpenseType(s, e, expenseTypeId), InDateRange(s, e));
  }

  lemma {:induction false} SameFilter(rows: seq<Transaction>, userEmail: string, q1: Query, q2: Query)
    requires forall t :: t in rows ==> (Matches(t, userEmail, q1) <==> Matches(t, userEmail, q2))
    ensures Filter(rows, userEmail, q1) == Filter(rows, userEmail, q2)
  {
    if rows != [] {
      var init := rows[..|rows| - 1];
      assert forall t :: t in init ==> t in rows;
      SameFilter(init, userEmail, q1, q2);
    }
  }

  // ---------------------------------------------------------------------------
  // Grouped sums

  /** The distinct group keys of the rows. */
  function KeySet(rows: seq<Transaction>, key: Transaction -> int): set<int>
  {
    set i | 0 <= i < |rows| :: key(rows[i])
  }

  /** `SUM(t.amount)` over the rows of one group. */
  function SumWhere(rows: seq<Transaction>, key: Transaction -> int, k: int): real
  {
    if rows == [] then 0.0
    else SumWhere(rows[..|rows| - 1], key, k) + (if key(rows[|rows| - 1]) == k then rows[|rows| - 1].amount else 0.0)
  }

  /** What a `GROUP BY key` sum means: one entry per key that occurs, holding that group's sum. */
  ghost function GroupMap(rows: seq<Transaction>, key: Transaction -> int): map<int, real>
  {
    map k | k in KeySet(rows, key) :: SumWhere(rows, key, k)
  }

  /** The result rows of `SELECT key, SUM(t.amount) ... GROUP BY key ORDER BY key`. */
  function GroupedRows(rows: seq<Transaction>, key: Transaction -> int): (r: seq<(int, real)>)
    ensures forall i, j :: 0 <= i < j < |r| ==> r[i].0 < r[j].0
    ensures forall k :: k in KeySet(rows, key) <==> exists i :: 0 <= i < |r| && r[i].0 == k
    ensures forall i :: 0 <= i < |r| ==> r[i].1 == SumWhere(rows, key, r[i].0)
  {
    var keys := Collections.Ascending(KeySet(rows, key));
    var r := seq(|keys|, i requires 0 <= i < |keys| => (keys[i], SumWhere(rows, key, keys[i])));
    GroupedRowsKeys(KeySet(rows, key), keys, r);
    r
  }

  lemma GroupedRowsKeys(ks: set<int>, keys: seq<int>, r: seq<(int, real)>)
    requires forall x :: x in ks <==> x in keys
    requires |r| == |keys| && forall i :: 0 <= i < |r| ==> r[i].0 == keys[i]
    ensures forall k :: k in ks <==> exists i :: 0 <= i < |r| && r[i].0 == k
  {
    forall k | k in ks
      ensures exists i :: 0 <= i < |r| && r[i].0 == k
    {
      var i := IndexIn(keys, k);
      assert r[i].0 == k;
    }
  }

  function IndexIn(s: seq<int>, x: int): (i: nat)
    requires x in s
    ensures i < |s| && s[i] == x
  {
    if s[0] == x then 0 else 1 + IndexIn(s[1..], x)
  }

  /** `HashMap.put` applied to each pair in turn: a later pair overwrites an earlier one with the same key. */
  function PutAll(pairs: seq<(int, real)>): map<int, real>
  {
    if pairs == [] then map[]
    else PutAll(pairs[..|pairs| - 1])[pairs[|pairs| - 1].0 := pairs[|pairs| - 1].1]
  }

  /** The loop that copies the query's result rows into a `HashMap`. */
  method CollectIntoMap(results: seq<(int, real)>) returns (m: map<int, real>)
    ensures m == PutAll(results)
  {
    m := map[];
    var i := 0;
    while i < |results|
      invariant 0 <= i <= |results|
      invariant m == PutAll(results[..i])
    {
      assert results[..i + 1][..i] == results[..i];
      m := m[results[i].0 := results[i].1];
      i := i + 1;
    }
    assert results[..i] == results;
  }

  /** With distinct keys, the map holds each pair's value under its key, and nothing else. */
  lemma {:induction false} PutAllDistinct(pairs: seq<(int, real)>)
    requires forall i, j :: 0 <= i < j < |pairs| ==> pairs[i].0 != pairs[j].0
    ensures forall k :: k in PutAll(pairs) <==> exists i :: 0 <= i < |pairs| && pairs[i].0 == k
    ensures forall i :: 0 <= i < |pairs| ==> PutAll(pairs)[pairs[i].0] == pairs[i].1
  {
    if pairs != [] {
      var init, last := pairs[..|pairs| - 1], pairs[|pairs| - 1];
      assert forall i :: 0 <= i < |init| ==> init[i] == pairs[i];
      PutAllDistinct(init);
      var m := PutAll(init);
      assert PutAll(pairs) == m[last.0 := last.1];
      forall k | k in PutAll(pairs)
        ensures exists i :: 0 <= i < |pairs| && pairs[i].0 == k
      {
        if k != last.0 {
          assert k in m;
          var i :| 0 <= i < |init| && init[i].0 == k;
          assert pairs[i].0 == k;
        }
      }
    }
  }

  /** `m` holds one entry per key that occurs in the rows, with that group's sum. */
  predicate IsGroupMap(m: map<int, real>, rows: seq<Transaction>, key: Transaction -> int)
  {
    m.Keys == KeySet(rows, key) && forall k :: k in m ==> m[k] == SumWhere(rows, key, k)
  }

  /** Reading the grouped result rows into a map gives exactly the grouped sums. */
  lemma CollectedGroups(rows: seq<Transaction>, key: Transaction -> int)
    ensures IsGroupMap(PutAll(GroupedRows(rows, key)), rows, key)
  {
    var r := GroupedRows(rows, key);
    var collected := PutAll(r);
    CollectAscending(r, KeySet(rows, key));
    forall k | k in collected
      ensures collected[k] == SumWhere(rows, key, k)
    {
      var i :| 0 <= i < |r| && r[i].0 == k;
      assert collected[r[i].0] == r[i].1;
    }
  }

  /** Pairs with ascending keys fill a map with exactly their keys, each with its pair's value. */
  lemma CollectAscending(r: seq<(int, real)>, ks: set<int>)
    requires forall i, j :: 0 <= i < j < |r| ==> r[i].0 < r[j].0
    requires forall k :: k in ks <==> exists i :: 0 <= i < |r| && r[i].0 == k
    ensures PutAll(r).Keys == ks
    ensures forall i :: 0 <= i < |r| ==> PutAll(r)[r[i].0] == r[i].1
  {
    PutAllDistinct(r);
    var m := PutAll(r);
    assert forall k :: k in m.Keys <==> k in ks;
  }

  /** The keys of a group map occur in the rows; a key that does not occur has sum zero. */
  lemma {:induction false} SumWhereAbsent(rows: seq<Transaction>, key: Transaction -> int, k: int)
    requires k !in KeySet(rows, key)
    ensures SumWhere(rows, key, k) == 0.0
  {
    if rows != [] {
      var init := rows[..|rows| - 1];
      assert KeySet(init, key) <= KeySet(rows, key) by {
        forall x | x in KeySet(init, key) ensures x in KeySet(rows, key) {
          var i :| 0 <= i < |init| && key(init[i]) == x;
          assert key(rows[i]) == x;
        }
      }
      assert key(rows[|rows| - 1]) in KeySet(rows, key);
      SumWhereAbsent(init, key, k);
    }
  }

  // ---------------------------------------------------------------------------
  // Adding up the values of a map (Java's `values().stream().reduce(ZERO, add)`)

  /** The sum of a map's values, smallest key first (addition does not depend on the order). */
  function SumValues(m: map<int, real>): real
    decreases |m|
  {
    if m.Keys == {} then 0.0
    else
      var k := Collections.MinOf(m.Keys);
      m[k] + SumValues(m - {k})
  }

  /** Any key may be taken out first. */
  lemma {:induction false} SumValuesRemove(m: map<int, real>, x: int)
    requires x in m
    ensures SumValues(m) == m[x] + SumValues(m - {x})
    decreases |m|
  {
    var k := Collections.MinOf(m.Keys);
    if k != x {
      var rest := m - {k};
      SumValuesRemove(rest, x);
      assert m - {x} - {k} == rest - {x};
      var without := (m - {x}).Keys;
      assert k in without;
      var k2 := Collections.MinOf(without);
      assert k2 in m.Keys;
      assert k <= k2 && k2 <= k;
    }
  }

  /** Maps with the same keys and the same value under each key have the same value sum. */
  lemma {:induction false} SumValuesPointwise(a: map<int, real>, b: map<int, real>)
    requires a.Keys == b.Keys && forall k :: k in a ==> a[k] == b[k]
    ensures SumValues(a) == SumValues(b)
    decreases |a|
  {
    if a.Keys != {} {
      var k := Collections.MinOf(a.Keys);
      assert (a - {k}).Keys == a.Keys - {k} && (b - {k}).Keys == b.Keys - {k};
      SumValuesPointwise(a - {k}, b - {k});
    }
  }

  lemma {:induction false} GroupMapStep(rows: seq<Transaction>, key: Transaction -> int)
    requires rows != []
    ensures var init, last := rows[..|rows| - 1], rows[|rows| - 1];
      SumValues(GroupMap(rows, key)) == SumValues(GroupMap(init, key)) + last.amount
  {
    var init, last := rows[..|rows| - 1], rows[|rows| - 1];
    var x := key(last);
    var before, after := GroupMap(init, key), GroupMap(rows, key);
    assert KeySet(rows, key) == KeySet(init, key) + {x} by {
      forall y | y in KeySet(rows, key) ensures y in KeySet(init, key) + {x} {
        var i :| 0 <= i < |rows| && key(rows[i]) == y;
        if i < |init| {
          assert key(init[i]) == y;
        }
      }
      forall y | y in KeySet(init, key) ensures y in KeySet(rows, key) {
        var i :| 0 <= i < |init| && key(init[i]) == y;
        assert key(rows[i]) == y;
      }
    }
    assert after - {x} == before - {x};
    SumValuesRemove(after, x);
    if x in before {
      SumValuesRemove(before, x);
    } else {
      SumWhereAbsent(init, key, x);
      assert before - {x} == before;
    }
  }

  /** Adding up all group sums gives the total of all rows. */
  lemma {:induction false} GroupMapTotal(rows: seq<Transaction>, key: Transaction -> int)
    ensures SumValues(GroupMap(rows, key)) == Total(rows)
  {
    if rows == [] {
      assert GroupMap(rows, key) == map[];
    } else {
      var init := rows[..|rows| - 1];
      GroupMapTotal(init, key);
      GroupMapStep(rows, key);
      assert rows == init + [rows[|rows| - 1]];
      TotalAppend(init, [rows[|rows| - 1]]);
      assert Amounts([rows[|rows| - 1]]) == [rows[|rows| - 1].amount];
      Collections.SumSingleton(rows[|rows| - 1].amount);
    }
  }

  /** Whatever map holds the group sums, its values add up to the total of all rows. */
  lemma GroupSumsAddUp(m: map<int, real>, rows: seq<Transaction>, key: Transaction -> int)
    requires IsGroupMap(m, rows, key)
    ensures SumValues(m) == Total(rows)
  {
    var g := GroupMap(rows, key);
    assert forall k :: k in g.Keys <==> k in KeySet(rows, key);
    SumValuesPointwise(m, g);
    GroupMapTotal(rows, key);
  }

  function ExpenseTypeKey(t: Transaction): int
  {
    t.expenseTypeId
  }

  function MonthKey(t: Transaction): int
  {
    t.transactionDate.month
  }

  /** `sumByExpenseTypeForMonth`: expense type to the sum of the user's rows of that month and type. */
  method SumByExpenseTypeForMonth(rows: seq<Transaction>, userEmail: string, year: int, month: int)
    returns (m: map<int, real>)
    requires IsMonth(month)
    ensures IsGroupMap(m, Filter(rows, userEmail, MonthQuery(year, month)), ExpenseTypeKey)
  {
    var monthRows := Filter(rows, userEmail, MonthQuery(year, month));
    m := CollectIntoMap(GroupedRows(monthRows, ExpenseTypeKey));
    CollectedGroups(monthRows, ExpenseTypeKey);
  }

  /** The query for January 1 to December 31 of a year. */
  function YearQuery(year: int): Query
  {
    InDateRange(Date(year, 1, 1), Date(year, 12, 31))
  }

  /** `sumByMonthForYear`: month number to the sum of the user's rows of that month of the year. */
  method SumByMonthForYear(rows: seq<Transaction>, userEmail: string, year: int) returns (m: map<int, real>)
    ensures IsGroupMap(m, Filter(rows, userEmail, YearQuery(year)), MonthKey)
  {
    var yearRows := Filter(rows, userEmail, YearQuery(year));
    m := CollectIntoMap(GroupedRows(yearRows, MonthKey));
    CollectedGroups(yearRows, MonthKey);
  }

  /** The month map's keys are months, and its values add up to the year's total. */
  lemma MonthTotalsAddUp(m: map<int, real>, rows: seq<Transaction>, userEmail: string, year: int)
    requires IsGroupMap(m, Filter(rows, userEmail, YearQuery(year)), MonthKey)
    ensures forall k :: k in m ==> IsMonth(k)
    ensures SumValues(m) == Total(Filter(rows, userEmail, YearQuery(year)))
  {
    var yearRows := Filter(rows, userEmail, YearQuery(year));
    forall k | k in m
      ensures IsMonth(k)
    {
      var i :| 0 <= i < |yearRows| && MonthKey(yearRows[i]) == k;
    }
    GroupSumsAddUp(m, yearRows, MonthKey);
  }

  /** The table: rows plus the source of fresh ids. */
  class TransactionTable {
    var rows: seq<Transaction>
    var nextId: nat

    /** Ids are primary keys: distinct, and below the next id handed out. */
    ghost predicate Valid()
      reads this
    {
      (forall i :: 0 <= i < |rows| ==> rows[i].id < nextId)
      && forall i, j :: 0 <= i < j < |rows| ==> rows[i].id != rows[j].id
    }

    constructor ()
      ensures Valid() && rows == []
    {
      rows := [];
      nextId := 0;
    }
  }
}
