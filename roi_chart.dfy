/** The ROI projection of components/RoiChart.tsx:11-33 (`calculateRoiData`).
    Money is exact: the 40% margin is 2/5, the 5% uplift 21/20, and
    `Math.round(x)` is `Floor(x + 1/2)`. */
module RoiChart {
  import opened Types
  import opened Dates

  const Margin: real := 2.0 / 5.0
  const Uplift: real := 21.0 / 20.0
  /** `slice(-15)`: the number of points kept. */
  const MaxPoints: nat := 15

  /** `Math.round`: the nearest integer, halves rounded up. */
  function Round(x: real): (r: int)
    ensures x - 1.0 / 2.0 < r as real <= x + 1.0 / 2.0
  {
    (x + 1.0 / 2.0).Floor
  }

  /** Profit of the sales so far at the fixed margin. */
  function CumulativeProfit(sorted: seq<Transaction>): real
  {
    Margin * TotalSales(sorted)
  }

  /** The compounding projection: `p = (p + margin * sale) * uplift` per sale. */
  function ProjectedProfit(sorted: seq<Transaction>): real
  {
    if sorted == [] then 0.0
    else (ProjectedProfit(sorted[..|sorted| - 1]) + Margin * sorted[|sorted| - 1].totalSale) * Uplift
  }

  /** The point drawn for the `k`-th sale of the sorted list. */
  function PointAt(sorted: seq<Transaction>, k: nat): RoiDataPoint
    requires k < |sorted|
  {
    RoiDataPoint(sorted[k].date, Round(CumulativeProfit(sorted[..k + 1])), Round(ProjectedProfit(sorted[..k + 1])))
  }

  /** One point per sorted sale, before truncation. */
  function Series(sorted: seq<Transaction>): seq<RoiDataPoint>
  {
    if sorted == [] then [] else Series(sorted[..|sorted| - 1]) + [PointAt(sorted, |sorted| - 1)]
  }

  /** `s.slice(-n)`: the last `n` elements, or all of them when there are fewer. */
  function Last<T>(s: seq<T>, n: nat): seq<T>
  {
    if |s| <= n then s else s[|s| - n..]
  }

  /** What the chart is given for a list of sales. */
  function RoiData(sales: seq<Transaction>): seq<RoiDataPoint>
  {
    if |sales| < 2 then [] else Last(Series(SortByDate(sales)), MaxPoints)
  }

  function Min(a: int, b: int): int
  {
    if a <= b then a else b
  }

  /** Index, in the full series of `n` points, of the first point kept. */
  function FirstKept(n: nat): nat
  {
    if n <= MaxPoints then 0 else n - MaxPoints
  }

  /** `calculateRoiData`: sort a copy by date, walk it with the two running
      profits, keep the last 15 points. */
  method CalculateRoiData(salesData: seq<Transaction>) returns (points: seq<RoiDataPoint>)
    ensures points == RoiData(salesData)
  {
    if |salesData| < 2 {
      return [];
    }
    var sorted := SortByDate(salesData);
    var cumulativeProfit, projectedProfit := 0.0, 0.0;
    var all: seq<RoiDataPoint> := [];
    for i := 0 to |sorted|
      invariant cumulativeProfit == CumulativeProfit(sorted[..i])
      invariant projectedProfit == ProjectedProfit(sorted[..i])
      invariant all == Series(sorted[..i])
    {
      var sale := sorted[i];
      assert sorted[..i + 1] == sorted[..i] + [sale];
      assert sorted[..i + 1][..i] == sorted[..i];
      TotalsSnoc(sorted[..i], sale);
      var saleProfit := sale.totalSale * Margin;
      cumulativeProfit := cumulativeProfit + saleProfit;
      projectedProfit := (projectedProfit + saleProfit) * Uplift;
      assert PointAt(sorted[..i + 1], i) == PointAt(sorted, i) by {
        assert sorted[..i + 1][..i + 1] == sorted[..i + 1];
      }
      assert Series(sorted[..i + 1]) == Series(sorted[..i]) + [PointAt(sorted, i)];
      all := all + [RoiDataPoint(sale.date, Round(cumulativeProfit), Round(projectedProfit))];
    }
    assert sorted[..|sorted|] == sorted;
    points := Last(all, MaxPoints);
  }

  /** The full series has one point per sorted sale, the `k`-th for the `k`-th sale. */
  lemma {:induction false} SeriesAt(sorted: seq<Transaction>)
    ensures |Series(sorted)| == |sorted|
    ensures forall k :: 0 <= k < |sorted| ==> Series(sorted)[k] == PointAt(sorted, k)
  {
    if sorted != [] {
      var init := sorted[..|sorted| - 1];
      SeriesAt(init);
      forall k | 0 <= k < |init| ensures PointAt(init, k) == PointAt(sorted, k) {
        assert init[..k + 1] == sorted[..k + 1];
      }
    }
  }

  /** Fewer than two sales give nothing; otherwise one point per sale, at most 15. */
  lemma RoiDataLength(sales: seq<Transaction>)
    ensures |sales| < 2 ==> RoiData(sales) == []
    ensures |sales| >= 2 ==> |RoiData(sales)| == Min(|sales|, MaxPoints)
  {
    SortByDateCorrect(sales);
    SeriesAt(SortByDate(sales));
  }

  /** The points kept are the last ones of the full series over the sorted sales. */
  lemma RoiDataIsSuffix(sales: seq<Transaction>, k: nat)
    requires |sales| >= 2 && k < |RoiData(sales)|
    ensures |SortByDate(sales)| == |sales|
    ensures FirstKept(|sales|) + k < |sales|
    ensures RoiData(sales)[k] == PointAt(SortByDate(sales), FirstKept(|sales|) + k)
  {
    SortByDateCorrect(sales);
    SeriesAt(SortByDate(sales));
  }

  lemma PointFields(sorted: seq<Transaction>, m: nat)
    requires m < |sorted|
    ensures PointAt(sorted, m).date == sorted[m].date
    ensures PointAt(sorted, m).currentProfit == Round(CumulativeProfit(sorted[..m + 1]))
    ensures PointAt(sorted, m).projectedProfit == Round(ProjectedProfit(sorted[..m + 1]))
  {
  }

  /** Each kept point reports the rounded margin on every sale up to and
      including its own, counted from the first sale, not the first kept one. */
  lemma RoiCurrentProfit(sales: seq<Transaction>, k: nat)
    requires |sales| >= 2 && k < |RoiData(sales)|
    ensures |SortByDate(sales)| == |sales| && FirstKept(|sales|) + k < |sales|
    ensures RoiData(sales)[k].date == SortByDate(sales)[FirstKept(|sales|) + k].date
    ensures RoiData(sales)[k].currentProfit
      == Round(CumulativeProfit(SortByDate(sales)[..FirstKept(|sales|) + k + 1]))
    ensures RoiData(sales)[k].projectedProfit
      == Round(ProjectedProfit(SortByDate(sales)[..FirstKept(|sales|) + k + 1]))
  {
    RoiDataIsSuffix(sales, k);
    PointFields(SortByDate(sales), FirstKept(|sales|) + k);
  }

  /** The last kept point is the point of the last sorted sale, whose actual
      profit is the margin on all the sorted sales. */
  lemma LastPointOfSeries(sorted: seq<Transaction>)
    requires sorted != []
    ensures |Last(Series(sorted), MaxPoints)| > 0
    ensures Last(Series(sorted), MaxPoints)[|Last(Series(sorted), MaxPoints)| - 1].currentProfit
      == Round(CumulativeProfit(sorted))
  {
    SeriesAt(sorted);
    var out := Last(Series(sorted), MaxPoints);
    assert out[|out| - 1] == PointAt(sorted, |sorted| - 1);
    assert sorted[..|sorted|] == sorted;
  }

  /** The last point reflects all the sales, not only the last 15. */
  lemma RoiLastPointCoversAll(sales: seq<Transaction>)
    requires |sales| >= 2
    ensures |RoiData(sales)| > 0
    ensures RoiData(sales)[|RoiData(sales)| - 1].currentProfit == Round(CumulativeProfit(sales))
  {
    var sorted := SortByDate(sales);
    LastPointOfSeries(sorted);
    var out := RoiData(sales);
    assert out == Last(Series(sorted), MaxPoints);
    assert out[|out| - 1].currentProfit == Round(CumulativeProfit(sorted));
    SortByDateCorrect(sales);
  }

  /** The dates of the points never go back in time. */
  lemma RoiDatesOrdered(sales: seq<Transaction>)
    ensures forall i, j :: 0 <= i < j < |RoiData(sales)| ==> NotAfter(RoiData(sales)[i].date, RoiData(sales)[j].date)
  {
    if |sales| >= 2 {
      SortByDateCorrect(sales);
      SortedPairwise(SortByDate(sales));
      forall i, j | 0 <= i < j < |RoiData(sales)|
        ensures NotAfter(RoiData(sales)[i].date, RoiData(sales)[j].date)
      {
        RoiDataIsSuffix(sales, i);
        RoiDataIsSuffix(sales, j);
      }
    }
  }

  predicate NoRefunds(sales: seq<Transaction>)
  {
    forall k :: 0 <= k < |sales| ==> sales[k].totalSale >= 0.0
  }

  /** With no negative sale, the projection is never below the actual profit,
      and the actual profit never goes down. */
  lemma {:induction false} ProjectionDominates(sorted: seq<Transaction>)
    requires NoRefunds(sorted)
    ensures 0.0 <= CumulativeProfit(sorted) <= ProjectedProfit(sorted)
  {
    if sorted != [] {
      var init := sorted[..|sorted| - 1];
      var last := sorted[|sorted| - 1];
      assert sorted == init + [last];
      ProjectionDominates(init);
      TotalsSnoc(init, last);
    }
  }

  lemma RoundMonotone(x: real, y: real)
    requires x <= y
    ensures Round(x) <= Round(y)
  {
  }

  /** Along the full series over sorted sales with no refund, the actual
      profit never goes down and the projection is never below it. */
  lemma SeriesMonotone(sorted: seq<Transaction>, a: nat, b: nat)
    requires NoRefunds(sorted) && a <= b < |sorted|
    ensures PointAt(sorted, a).currentProfit <= PointAt(sorted, b).currentProfit
    ensures PointAt(sorted, b).currentProfit <= PointAt(sorted, b).projectedProfit
  {
    PrefixSalesGrow(sorted, a + 1, b + 1);
    RoundMonotone(CumulativeProfit(sorted[..a + 1]), CumulativeProfit(sorted[..b + 1]));
    var p := sorted[..b + 1];
    assert NoRefunds(p) by {
      assert forall k :: 0 <= k < |p| ==> p[k] == sorted[k];
    }
    ProjectionDominates(p);
    RoundMonotone(CumulativeProfit(p), ProjectedProfit(p));
  }

  lemma SortKeepsNoRefunds(sales: seq<Transaction>)
    requires NoRefunds(sales)
    ensures NoRefunds(SortByDate(sales))
  {
    SortByDateCorrect(sales);
    var sorted := SortByDate(sales);
    forall k | 0 <= k < |sorted| ensures sorted[k].totalSale >= 0.0 {
      assert sorted[k] in multiset(sales);
    }
  }

  /** With no negative sale, the actual profit is non-decreasing along the
      points and every projected point is at least the actual one. */
  lemma RoiMonotone(sales: seq<Transaction>)
    requires NoRefunds(sales)
    ensures forall i, j :: 0 <= i < j < |RoiData(sales)| ==>
      RoiData(sales)[i].currentProfit <= RoiData(sales)[j].currentProfit
    ensures forall k :: 0 <= k < |RoiData(sales)| ==>
      RoiData(sales)[k].currentProfit <= RoiData(sales)[k].projectedProfit
  {
    if |sales| >= 2 {
      var sorted := SortByDate(sales);
      SortKeepsNoRefunds(sales);
      var out := RoiData(sales);
      var offset := FirstKept(|sales|);
      forall i, j | 0 <= i <= j < |out|
        ensures out[i].currentProfit <= out[j].currentProfit <= out[j].projectedProfit
      {
        RoiDataIsSuffix(sales, i);
        RoiDataIsSuffix(sales, j);
        SeriesMonotone(sorted, offset + i, offset + j);
      }
    }
  }

  /** With no negative sale, a longer prefix has no smaller total. */
  lemma {:induction false} PrefixSalesGrow(sorted: seq<Transaction>, a: nat, b: nat)
    requires NoRefunds(sorted) && a <= b <= |sorted|
    ensures TotalSales(sorted[..a]) <= TotalSales(sorted[..b])
    decreases b - a
  {
    if a < b {
      PrefixSalesGrow(sorted, a, b - 1);
      assert sorted[..b] == sorted[..b - 1] + [sorted[b - 1]];
      TotalsSnoc(sorted[..b - 1], sorted[b - 1]);
    }
  }

  /** Two sales of 100, the first dated no later than the second: actual
      profit [40, 80], projected [42, 86] (86.1 rounded). */
  lemma TwoSalesOfOneHundred(a: Transaction, b: Transaction)
    requires a.totalSale == 100.0 && b.totalSale == 100.0
    requires NotAfter(a.date, b.date)
    ensures RoiData([a, b]) == [RoiDataPoint(a.date, 40, 42), RoiDataPoint(b.date, 80, 86)]
  {
    var s := [a, b];
    assert s[1..] == [b] && [b][1..] == [];
    assert SortByDate([b]) == [b];
    assert SortByDate(s) == s;
    assert s[..1] == [a] && s[..2] == s && s[..1][..0] == [];
    SeriesAt(s);
    assert Series(s) == [PointAt(s, 0), PointAt(s, 1)];
    assert TotalSales([a]) == 100.0;
    assert TotalSales(s) == 200.0;
    assert ProjectedProfit([a]) == 42.0;
    assert ProjectedProfit(s) == (42.0 + 40.0) * Uplift;
    assert PointAt(s, 0) == RoiDataPoint(a.date, 40, 42);
    assert PointAt(s, 1) == RoiDataPoint(b.date, 80, 86);
  }

  /** The dated instance: 2023-01-01 and 2023-01-02. */
  lemma TwoDaysOfOneHundred()
    ensures RoiData([Transaction("Mug", 1, 100.0, None, "2023-01-01"), Transaction("Mug", 1, 100.0, None, "2023-01-02")])
      == [RoiDataPoint("2023-01-01", 40, 42), RoiDataPoint("2023-01-02", 80, 86)]
  {
    var a := Transaction("Mug", 1, 100.0, None, "2023-01-01");
    var b := Transaction("Mug", 1, 100.0, None, "2023-01-02");
    assert Before(a.date, b.date);
    BeforeAsymmetric(a.date, b.date);
    TwoSalesOfOneHundred(a, b);
  }
}
