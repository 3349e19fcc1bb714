/**
 * `BudgetDetailModal`: one budget in detail. It shows the recurring, one-time and grand totals,
 * each item's share of the grand total, and the one-time items grouped by month.
 */
module BudgetDetailModal {
  import opened Wrappers
  import opened BudgetApi
  import Collections

  /** `grandTotal`: the recurring total plus the one-time total, which is every item's amount. */
  function GrandTotal(items: seq<ViewItem>): (r: real)
    ensures r == AmountTotal(items)
  {
    TotalsPartition(items);
    AmountTotal(RecurringItems(items)) + AmountTotal(OneTimeItems(items))
  }

  /** `calculatePercentage`: 0 when the grand total is 0, else the amount's share of it in percent. */
  function CalculatePercentage(amount: real, grandTotal: real): (r: real)
    ensures grandTotal == 0.0 ==> r == 0.0
    ensures grandTotal != 0.0 ==> r * grandTotal == amount * 100.0
  {
    if grandTotal == 0.0 then 0.0 else (amount / grandTotal) * 100.0
  }

  /** The percentages shown for a list of items. */
  function PercentageTotal(items: seq<ViewItem>, grandTotal: real): real
  {
    if items == [] then 0.0
    else PercentageTotal(items[..|items| - 1], grandTotal) + CalculatePercentage(items[|items| - 1].amount, grandTotal)
  }

  lemma {:induction false} PercentageTotalScales(items: seq<ViewItem>, grandTotal: real)
    requires grandTotal != 0.0
    ensures PercentageTotal(items, grandTotal) * grandTotal == AmountTotal(items) * 100.0
  {
    if items != [] {
      var init := items[..|items| - 1];
      PercentageTotalScales(init, grandTotal);
      var p := CalculatePercentage(items[|items| - 1].amount, grandTotal);
      assert PercentageTotal(items, grandTotal) * grandTotal
        == PercentageTotal(init, grandTotal) * grandTotal + p * grandTotal;
    }
  }

  /** With a non-zero grand total (`GrandTotal` is `AmountTotal`) the shares of all items add up to 100%. */
  lemma PercentagesAddUpTo100(items: seq<ViewItem>)
    requires AmountTotal(items) != 0.0
    ensures PercentageTotal(items, AmountTotal(items)) == 100.0
  {
    var g := AmountTotal(items);
    PercentageTotalScales(items, g);
    CancelTotal(PercentageTotal(items, g), AmountTotal(items), g);
  }

  lemma CancelTotal(p: real, a: real, g: real)
    requires g == a && g != 0.0 && p * g == a * 100.0
    ensures p == 100.0
  {
    assert (p - 100.0) * g == 0.0;
  }

  /** The one-time items for `month`, in list order. */
  function ItemsOfMonth(items: seq<ViewItem>, month: Option<int>): (r: seq<ViewItem>)
    ensures forall x :: x in r <==> x in items && x.isOneTime && x.applicableMonth == month
  {
    if items == [] then []
    else
      var last := items[|items| - 1];
      assert items == items[..|items| - 1] + [last];
      ItemsOfMonth(items[..|items| - 1], month) + (if last.isOneTime && last.applicableMonth == month then [last] else [])
  }

  /** The months some one-time item is for. */
  function MonthsOf(items: seq<ViewItem>): set<Option<int>>
  {
    set x | x in items && x.isOneTime :: x.applicableMonth
  }

  /** `groups` holds, for each month some one-time item of `prefix` is for, that month's items in order. */
  ghost predicate GroupsOf(prefix: seq<ViewItem>, groups: map<Option<int>, seq<ViewItem>>)
  {
    groups.Keys == MonthsOf(prefix)
    && forall m :: m in groups ==> groups[m] == ItemsOfMonth(prefix, m)
  }

  /** The groups after pushing each item of `items` in turn, as `oneTimeByMonth`'s `reduce` does. */
  function Grouped(items: seq<ViewItem>): map<Option<int>, seq<ViewItem>>
  {
    if items == [] then map[]
    else
      var groups := Grouped(items[..|items| - 1]);
      var item := items[|items| - 1];
      var month := item.applicableMonth;
      if item.isOneTime then groups[month := (if month in groups then groups[month] else []) + [item]]
      else groups
  }

  /** The pushes group every one-time item under its month, in list order. */
  lemma {:induction false} GroupedIsGroups(items: seq<ViewItem>)
    ensures GroupsOf(items, Grouped(items))
  {
    if items == [] {
      assert MonthsOf([]) == {};
    } else {
      var prefix, item := items[..|items| - 1], items[|items| - 1];
      GroupedIsGroups(prefix);
      var before := Grouped(prefix);
      assert items == prefix + [item];
      Push(prefix, item, before, if item.applicableMonth in before then before[item.applicableMonth] else [],
           Grouped(items));
    }
  }

  /**
   * `oneTimeByMonth`: push each one-time item, in list order, onto the group of its month,
   * starting a group on its first item; the `filter` to one-time items and the `reduce` are
   * one walk here. A missing month groups under `null`.
   */
  method OneTimeByMonth(items: seq<ViewItem>) returns (groups: map<Option<int>, seq<ViewItem>>)
    ensures groups == Grouped(items)
    ensures groups.Keys == MonthsOf(items)
    ensures forall m :: m in groups ==> groups[m] == ItemsOfMonth(items, m)
  {
    groups := map[];
    var i := 0;
    while i < |items|
      invariant 0 <= i <= |items|
      invariant groups == Grouped(items[..i])
    {
      var item := items[i];
      var month := item.applicableMonth;
      var group := if month in groups then groups[month] else [];
      if item.isOneTime {
        groups := groups[month := group + [item]];
      }
      assert items[..i + 1][..i] == items[..i];
      i := i + 1;
    }
    assert items[..i] == items;
    GroupedIsGroups(items);
  }

  lemma Push(prefix: seq<ViewItem>, item: ViewItem,
             before: map<Option<int>, seq<ViewItem>>, group: seq<ViewItem>,
             after: map<Option<int>, seq<ViewItem>>)
    requires GroupsOf(prefix, before)
    requires group == if item.applicableMonth in before then before[item.applicableMonth] else []
    requires !item.isOneTime ==> after == before
    requires item.isOneTime ==> after == before[item.applicableMonth := group + [item]]
    ensures GroupsOf(prefix + [item], after)
  {
    var longer := prefix + [item];
    var month := item.applicableMonth;
    MonthsOfSnoc(prefix, item);
    assert after.Keys == MonthsOf(longer);
    forall m | m in after
      ensures after[m] == ItemsOfMonth(longer, m)
    {
      ItemsOfMonthSnoc(prefix, item, m);
      if item.isOneTime && m == month {
        if month !in before {
          NoItemsOfUnlistedMonth(prefix, month);
        }
        assert after[m] == group + [item];
      } else {
        assert m in before && after[m] == before[m];
      }
    }
  }

  lemma ItemsOfMonthSnoc(prefix: seq<ViewItem>, item: ViewItem, m: Option<int>)
    ensures ItemsOfMonth(prefix + [item], m)
      == ItemsOfMonth(prefix, m) + (if item.isOneTime && item.applicableMonth == m then [item] else [])
  {
    var longer := prefix + [item];
    assert longer[..|longer| - 1] == prefix;
  }

  lemma MonthsOfSnoc(prefix: seq<ViewItem>, item: ViewItem)
    ensures MonthsOf(prefix + [item]) == MonthsOf(prefix) + (if item.isOneTime then {item.applicableMonth} else {})
  {
    var longer := prefix + [item];
    forall x | x in longer
      ensures x in prefix || x == item
    {
    }
    assert forall m :: m in MonthsOf(longer) <==> m in MonthsOf(prefix) || (item.isOneTime && m == item.applicableMonth);
  }

  lemma NoItemsOfUnlistedMonth(prefix: seq<ViewItem>, month: Option<int>)
    requires month !in MonthsOf(prefix)
    ensures ItemsOfMonth(prefix, month) == []
  {
  }

  /** Each one-time item is in the group of its own month and in no other. */
  lemma EachItemInItsGroup(items: seq<ViewItem>, x: ViewItem, m: Option<int>)
    requires x in items && x.isOneTime
    ensures x in ItemsOfMonth(items, x.applicableMonth)
    ensures m != x.applicableMonth ==> x !in ItemsOfMonth(items, m)
  {
  }

  /** The groups are shown in ascending month order. */
  function MonthGroupOrder(groups: map<Option<int>, seq<ViewItem>>): (r: seq<int>)
    ensures forall i, j :: 0 <= i < j < |r| ==> r[i] < r[j]
    ensures forall m :: m in r <==> Some(m) in groups
  {
    Collections.Ascending(set k | k in groups && k.Some? :: k.value)
  }

  /** `onEdit` shows the edit button; it is enabled only for this or a later year. */
  function EditEnabled(year: int, currentYear: int, hasOnEdit: bool): (r: bool)
    ensures r <==> hasOnEdit && year >= currentYear
  {
    hasOnEdit && !IsPastYear(year, currentYear)
  }
}
