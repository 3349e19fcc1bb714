/**
 * `ExpenseDistributionChart`: the donut of spending per expense type. Each slice's share of
 * the total, where it starts (the running sum of the shares before it) and its colour.
 */
module ExpenseDistributionChart {
  import opened Wrappers

  /** `ExpenseTypeData`; the input colour is replaced by the chart's own. */
  datatype ExpenseTypeData = ExpenseTypeData(name: string, amount: real, color: string, icon: Option<string>)

  /** A slice of the donut: the item's fields with its share, start and colour. */
  datatype Slice = Slice(name: string, amount: real, icon: Option<string>,
                         percentage: real, startPercentage: real, color: string)

  const ChartColors := ["#0ea5e9", "#8b5cf6", "#ec4899", "#f59e0b", "#10b981", "#6366f1", "#f97316", "#14b8a6"]

  /** `total`: the sum of the amounts. */
  function Total(data: seq<ExpenseTypeData>): real
  {
    if data == [] then 0.0 else Total(data[..|data| - 1]) + data[|data| - 1].amount
  }

  /** An item's share of the total in percent; 0 without a positive total. */
  function Percentage(amount: real, total: real): (r: real)
    ensures total <= 0.0 ==> r == 0.0
    ensures total > 0.0 ==> r * total == amount * 100.0
    ensures total > 0.0 && amount >= 0.0 ==> r >= 0.0
  {
    if total > 0.0 then
      var r := (amount / total) * 100.0;
      NonNegativeShare(r, amount, total);
      r
    else 0.0
  }

  lemma NonNegativeShare(r: real, amount: real, total: real)
    requires total > 0.0 && r * total == amount * 100.0
    ensures amount >= 0.0 ==> r >= 0.0
  {
    if r < 0.0 {
      assert r * total < 0.0;
    }
  }

  /** The sum of the shares of `prefix`: where the slice after it starts. */
  function PercentSum(prefix: seq<ExpenseTypeData>, total: real): real
  {
    if prefix == [] then 0.0
    else PercentSum(prefix[..|prefix| - 1], total) + Percentage(prefix[|prefix| - 1].amount, total)
  }

  /** Slice `i` of the chart for `data`. */
  function SliceAt(data: seq<ExpenseTypeData>, i: int): Slice
    requires 0 <= i < |data|
  {
    var total := Total(data);
    Slice(data[i].name, data[i].amount, data[i].icon,
          Percentage(data[i].amount, total), PercentSum(data[..i], total), ChartColors[i % |ChartColors|])
  }

  /** `chartData`: one walk over the items, carrying the running sum of the shares. */
  method ChartData(data: seq<ExpenseTypeData>) returns (chart: seq<Slice>)
    ensures |chart| == |data|
    ensures forall i :: 0 <= i < |data| ==> chart[i] == SliceAt(data, i)
  {
    var total := Total(data);
    var cumulativePercentage := 0.0;
    chart := [];
    var index := 0;
    while index < |data|
      invariant 0 <= index <= |data|
      invariant |chart| == index
      invariant cumulativePercentage == PercentSum(data[..index], total)
      invariant forall i :: 0 <= i < index ==> chart[i] == SliceAt(data, i)
    {
      var item := data[index];
      var percentage := Percentage(item.amount, total);
      var startPercentage := cumulativePercentage;
      cumulativePercentage := cumulativePercentage + percentage;
      chart := chart + [Slice(item.name, item.amount, item.icon, percentage, startPercentage,
                              ChartColors[index % |ChartColors|])];
      assert data[..index + 1][..index] == data[..index];
      index := index + 1;
    }
  }

  /** The first slice starts at 0 and each next one where the one before ends. */
  lemma StartsChain(data: seq<ExpenseTypeData>, i: int)
    requires 0 <= i < |data|
    ensures i == 0 ==> SliceAt(data, i).startPercentage == 0.0
    ensures i + 1 < |data| ==>
      SliceAt(data, i + 1).startPercentage == SliceAt(data, i).startPercentage + SliceAt(data, i).percentage
  {
    if i + 1 < |data| {
      assert data[..i + 1][..i] == data[..i];
    }
  }

  /** The colours cycle through the eight chart colours. */
  lemma ColoursCycle(data: seq<ExpenseTypeData>, i: int)
    requires 0 <= i && i + 8 < |data|
    ensures SliceAt(data, i + 8).color == SliceAt(data, i).color
  {
    assert (i + 8) % |ChartColors| == i % |ChartColors|;
  }

  lemma {:induction false} PercentSumScales(prefix: seq<ExpenseTypeData>, total: real)
    requires total > 0.0
    ensures PercentSum(prefix, total) * total == Total(prefix) * 100.0
  {
    if prefix != [] {
      PercentSumScales(prefix[..|prefix| - 1], total);
    }
  }

  /** With a positive total the shares add up to 100. */
  lemma SharesAddUpTo100(data: seq<ExpenseTypeData>)
    requires Total(data) > 0.0
    ensures PercentSum(data, Total(data)) == 100.0
  {
    var t := Total(data);
    PercentSumScales(data, t);
    Cancel(PercentSum(data, t), Total(data), t);
  }

  lemma Cancel(p: real, a: real, t: real)
    requires t == a && t > 0.0 && p * t == a * 100.0
    ensures p == 100.0
  {
    assert (p - 100.0) * t == 0.0;
  }

  /** So the last slice ends where the first one starts. */
  lemma LastSliceEndsAt100(data: seq<ExpenseTypeData>)
    requires Total(data) > 0.0
    ensures |data| > 0
    ensures SliceAt(data, |data| - 1).startPercentage + SliceAt(data, |data| - 1).percentage == 100.0
  {
    SharesAddUpTo100(data);
    var n := |data| - 1;
    assert data[..n + 1] == data;
  }

  /** `data.length === 0 || total === 0`: the chart is replaced by a message. */
  predicate IsEmptyState(data: seq<ExpenseTypeData>)
  {
    |data| == 0 || Total(data) == 0.0
  }

  lemma {:induction false} TotalNonNegative(data: seq<ExpenseTypeData>)
    requires forall k :: 0 <= k < |data| ==> data[k].amount >= 0.0
    ensures Total(data) >= 0.0
  {
    if data != [] {
      var init := data[..|data| - 1];
      assert forall k :: 0 <= k < |init| ==> init[k] == data[k];
      TotalNonNegative(init);
    }
  }

  /** With no negative amounts, the donut is drawn exactly when the total is positive. */
  lemma ChartShownIffPositiveTotal(data: seq<ExpenseTypeData>)
    requires forall k :: 0 <= k < |data| ==> data[k].amount >= 0.0
    ensures !IsEmptyState(data) <==> Total(data) > 0.0
  {
    TotalNonNegative(data);
  }

  /** `largeArcFlag` of a segment: the long way round for more than half the donut. */
  function LargeArcFlag(percentage: real): (f: int)
    ensures f == 1 <==> percentage > 50.0
    ensures f == 0 || f == 1
  {
    if percentage > 50.0 then 1 else 0
  }

  /** With no negative amounts, two different slices' shares add up to no more than the whole. */
  lemma {:induction false} TwoSharesAtMostSum(data: seq<ExpenseTypeData>, total: real, i: int, j: int)
    requires total > 0.0
    requires forall k :: 0 <= k < |data| ==> data[k].amount >= 0.0
    requires 0 <= i < j < |data|
    ensures Percentage(data[i].amount, total) + Percentage(data[j].amount, total) <= PercentSum(data, total)
  {
    var init := data[..|data| - 1];
    assert forall k :: 0 <= k < |init| ==> init[k] == data[k];
    if j == |data| - 1 {
      OneShareAtMostSum(init, total, i);
    } else {
      TwoSharesAtMostSum(init, total, i, j);
    }
  }

  lemma {:induction false} OneShareAtMostSum(data: seq<ExpenseTypeData>, total: real, i: int)
    requires total > 0.0
    requires forall k :: 0 <= k < |data| ==> data[k].amount >= 0.0
    requires 0 <= i < |data|
    ensures Percentage(data[i].amount, total) <= PercentSum(data, total)
  {
    var init := data[..|data| - 1];
    assert forall k :: 0 <= k < |init| ==> init[k] == data[k];
    PercentSumNonNegative(init, total);
    if i < |data| - 1 {
      OneShareAtMostSum(init, total, i);
    }
  }

  lemma {:induction false} PercentSumNonNegative(data: seq<ExpenseTypeData>, total: real)
    requires total > 0.0
    requires forall k :: 0 <= k < |data| ==> data[k].amount >= 0.0
    ensures PercentSum(data, total) >= 0.0
  {
    if data != [] {
      var init := data[..|data| - 1];
      assert forall k :: 0 <= k < |init| ==> init[k] == data[k];
      PercentSumNonNegative(init, total);
    }
  }

  /** With no negative amounts, at most one segment takes the long way round. */
  lemma AtMostOneLargeArc(data: seq<ExpenseTypeData>, i: int, j: int)
    requires Total(data) > 0.0
    requires forall k :: 0 <= k < |data| ==> data[k].amount >= 0.0
    requires 0 <= i < j < |data|
    ensures LargeArcFlag(SliceAt(data, i).percentage) + LargeArcFlag(SliceAt(data, j).percentage) <= 1
  {
    TwoSharesAtMostSum(data, Total(data), i, j);
    SharesAddUpTo100(data);
  }
}
