/** The per-item aggregation the sales chart draws
    (components/SalesChart.tsx:11-24): one row per item name, matched by
    exact string equality, in the order the names first appear, with the
    amounts and quantities of that item summed. */
module SalesChart {
  import opened Types

  datatype ItemTotal = ItemTotal(item: string, totalSales: real, quantitySold: int)

  function Names(rows: seq<ItemTotal>): (r: seq<string>)
  {
    seq(|rows|, k requires 0 <= k < |rows| => rows[k].item)
  }

  /** Some sale in `sales` is of item `name` (exact match, case counts). */
  predicate Sold(sales: seq<Transaction>, name: string)
  {
    exists k :: 0 <= k < |sales| && sales[k].item == name
  }

  /** The distinct item names of `sales`, each at the place it first appears. */
  function FirstSeen(sales: seq<Transaction>): seq<string>
  {
    if sales == [] then []
    else
      var names := FirstSeen(sales[..|sales| - 1]);
      var x := sales[|sales| - 1].item;
      if x in names then names else names + [x]
  }

  /** Index of the first sale of `name`, or `|sales|` when there is none. */
  function FirstIndex(sales: seq<Transaction>, name: string): nat
  {
    if sales == [] then 0
    else if sales[0].item == name then 0
    else 1 + FirstIndex(sales[1..], name)
  }

  /** The sum of `totalSale` over the sales of item `name`. */
  function SalesOf(sales: seq<Transaction>, name: string): real
  {
    if sales == [] then 0.0
    else (if sales[0].item == name then sales[0].totalSale else 0.0) + SalesOf(sales[1..], name)
  }

  /** The sum of `quantity` over the sales of item `name`. */
  function QuantityOf(sales: seq<Transaction>, name: string): int
  {
    if sales == [] then 0
    else (if sales[0].item == name then sales[0].quantity else 0) + QuantityOf(sales[1..], name)
  }

  function GrandTotal(rows: seq<ItemTotal>): real
  {
    if rows == [] then 0.0 else rows[0].totalSales + GrandTotal(rows[1..])
  }

  function GrandQuantity(rows: seq<ItemTotal>): int
  {
    if rows == [] then 0 else rows[0].quantitySold + GrandQuantity(rows[1..])
  }

  lemma {:induction false} ByItemSnoc(sales: seq<Transaction>, t: Transaction, name: string)
    ensures SalesOf(sales + [t], name) == SalesOf(sales, name) + (if t.item == name then t.totalSale else 0.0)
    ensures QuantityOf(sales + [t], name) == QuantityOf(sales, name) + (if t.item == name then t.quantity else 0)
  {
    if sales != [] {
      assert (sales + [t])[1..] == sales[1..] + [t];
      ByItemSnoc(sales[1..], t, name);
    }
  }

  lemma {:induction false} ByItemUnsold(sales: seq<Transaction>, name: string)
    requires !Sold(sales, name)
    ensures SalesOf(sales, name) == 0.0 && QuantityOf(sales, name) == 0
  {
    if sales != [] {
      ByItemUnsold(sales[1..], name);
    }
  }

  lemma {:induction false} FirstIndexSnoc(sales: seq<Transaction>, t: Transaction, name: string)
    ensures Sold(sales, name) ==> FirstIndex(sales + [t], name) == FirstIndex(sales, name) < |sales|
    ensures !Sold(sales, name) && t.item == name ==> FirstIndex(sales + [t], name) == |sales|
    ensures !Sold(sales, name) ==> FirstIndex(sales, name) == |sales|
  {
    if sales != [] {
      assert (sales + [t])[1..] == sales[1..] + [t];
      FirstIndexSnoc(sales[1..], t, name);
      if sales[0].item != name {
        if Sold(sales, name) {
          var k :| 0 <= k < |sales| && sales[k].item == name;
          assert sales[1..][k - 1].item == name;
        }
        if Sold(sales[1..], name) {
          var k :| 0 <= k < |sales[1..]| && sales[1..][k].item == name;
          assert sales[k + 1].item == name;
        }
      }
    }
  }

  /** The names listed are exactly the names sold. */
  lemma {:induction false} FirstSeenMembers(sales: seq<Transaction>, name: string)
    ensures name in FirstSeen(sales) <==> Sold(sales, name)
  {
    if sales != [] {
      var init := sales[..|sales| - 1];
      FirstSeenMembers(init, name);
      if Sold(init, name) {
        var k :| 0 <= k < |init| && init[k].item == name;
        assert sales[k].item == name;
      }
    }
  }

  /** Each name is listed once, and never more names than sales. */
  lemma {:induction false} FirstSeenDistinct(sales: seq<Transaction>)
    ensures forall i, j :: 0 <= i < j < |FirstSeen(sales)| ==> FirstSeen(sales)[i] != FirstSeen(sales)[j]
    ensures |FirstSeen(sales)| <= |sales|
  {
    if sales != [] {
      FirstSeenDistinct(sales[..|sales| - 1]);
    }
  }

  /** A name listed earlier first appears earlier in the sales. */
  lemma {:induction false} FirstSeenOrder(sales: seq<Transaction>)
    ensures forall i, j :: 0 <= i < j < |FirstSeen(sales)| ==>
      FirstIndex(sales, FirstSeen(sales)[i]) < FirstIndex(sales, FirstSeen(sales)[j])
  {
    if sales != [] {
      var init := sales[..|sales| - 1];
      var t := sales[|sales| - 1];
      assert sales == init + [t];
      FirstSeenOrder(init);
      var names := FirstSeen(init);
      var f := FirstSeen(sales);
      forall i, j | 0 <= i < j < |f| ensures FirstIndex(sales, f[i]) < FirstIndex(sales, f[j]) {
        FirstSeenMembers(init, f[i]);
        FirstIndexSnoc(init, t, f[i]);
        if j < |names| {
          FirstSeenMembers(init, f[j]);
          FirstIndexSnoc(init, t, f[j]);
        } else {
          FirstSeenMembers(init, t.item);
          FirstIndexSnoc(init, t, t.item);
        }
      }
    }
  }

  lemma {:induction false} GrandSnoc(rows: seq<ItemTotal>, row: ItemTotal)
    ensures GrandTotal(rows + [row]) == GrandTotal(rows) + row.totalSales
    ensures GrandQuantity(rows + [row]) == GrandQuantity(rows) + row.quantitySold
  {
    if rows != [] {
      assert (rows + [row])[1..] == rows[1..] + [row];
      GrandSnoc(rows[1..], row);
    }
  }

  lemma {:induction false} GrandUpdate(rows: seq<ItemTotal>, j: nat, row: ItemTotal)
    requires j < |rows|
    ensures GrandTotal(rows[j := row]) == GrandTotal(rows) - rows[j].totalSales + row.totalSales
    ensures GrandQuantity(rows[j := row]) == GrandQuantity(rows) - rows[j].quantitySold + row.quantitySold
  {
    if j > 0 {
      assert rows[j := row][1..] == rows[1..][j - 1 := row];
      GrandUpdate(rows[1..], j - 1, row);
    }
  }

  /** The first row whose name is exactly `name`, if any (SalesChart.tsx:12). */
  method FindItem(rows: seq<ItemTotal>, name: string) returns (r: Option<nat>)
    ensures r.None? <==> forall k :: 0 <= k < |rows| ==> rows[k].item != name
    ensures r.Some? ==> r.value < |rows| && rows[r.value].item == name
    ensures r.Some? ==> forall k :: 0 <= k < r.value ==> rows[k].item != name
  {
    var k := 0;
    while k < |rows|
      invariant k <= |rows|
      invariant forall m :: 0 <= m < k ==> rows[m].item != name
    {
      if rows[k].item == name {
        return Some(k);
      }
      k := k + 1;
    }
    return None;
  }

  /** The `reduce` of SalesChart.tsx:11-24. Rows are the distinct item names
      in first-seen order, each carrying the sums over the sales of exactly
      that name; nothing is lost, so the grand totals equal the input's. */
  method Aggregate(sales: seq<Transaction>) returns (acc: seq<ItemTotal>)
    ensures |acc| == |FirstSeen(sales)|
    ensures forall k :: 0 <= k < |acc| ==> acc[k].item == FirstSeen(sales)[k]
    ensures forall k :: 0 <= k < |acc| ==>
      acc[k].totalSales == SalesOf(sales, acc[k].item) && acc[k].quantitySold == QuantityOf(sales, acc[k].item)
    ensures GrandTotal(acc) == TotalSales(sales) && GrandQuantity(acc) == TotalQuantity(sales)
    ensures forall i, j :: 0 <= i < j < |acc| ==> acc[i].item != acc[j].item
    ensures |acc| <= |sales|
  {
    acc := [];
    for i := 0 to |sales|
      invariant Names(acc) == FirstSeen(sales[..i])
      invariant forall k :: 0 <= k < |acc| ==>
        acc[k].totalSales == SalesOf(sales[..i], acc[k].item) && acc[k].quantitySold == QuantityOf(sales[..i], acc[k].item)
      invariant GrandTotal(acc) == TotalSales(sales[..i]) && GrandQuantity(acc) == TotalQuantity(sales[..i])
    {
      var curr := sales[i];
      assert sales[..i + 1] == sales[..i] + [curr];
      assert sales[..i + 1][..i] == sales[..i];
      TotalsSnoc(sales[..i], curr);
      var existing := FindItem(acc, curr.item);
      match existing {
        case Some(j) =>
          var row := acc[j].(totalSales := acc[j].totalSales + curr.totalSale,
                             quantitySold := acc[j].quantitySold + curr.quantity);
          GrandUpdate(acc, j, row);
          assert Names(acc)[j] == curr.item;
          var updated := acc[j := row];
          forall k | 0 <= k < |updated| ensures
            updated[k].totalSales == SalesOf(sales[..i + 1], updated[k].item)
            && updated[k].quantitySold == QuantityOf(sales[..i + 1], updated[k].item)
          {
            ByItemSnoc(sales[..i], curr, acc[k].item);
            if k != j {
              assert acc[k].item != acc[j].item by {
                assert Names(acc)[k] == acc[k].item && Names(acc)[j] == acc[j].item;
                FirstSeenDistinct(sales[..i]);
              }
            }
          }
          assert Names(updated) == Names(acc);
          acc := updated;
        case None =>
          var row := ItemTotal(curr.item, curr.totalSale, curr.quantity);
          GrandSnoc(acc, row);
          assert curr.item !in Names(acc);
          FirstSeenMembers(sales[..i], curr.item);
          ByItemUnsold(sales[..i], curr.item);
          var extended := acc + [row];
          forall k | 0 <= k < |extended| ensures
            extended[k].totalSales == SalesOf(sales[..i + 1], extended[k].item)
            && extended[k].quantitySold == QuantityOf(sales[..i + 1], extended[k].item)
          {
            ByItemSnoc(sales[..i], curr, extended[k].item);
            if k < |acc| {
              assert Names(acc)[k] == acc[k].item;
            }
          }
          assert Names(extended) == Names(acc) + [curr.item];
          acc := extended;
      }
    }
    assert sales[..|sales|] == sales;
    FirstSeenDistinct(sales);
    assert forall k :: 0 <= k < |acc| ==> Names(acc)[k] == acc[k].item;
    assert |Names(acc)| == |acc|;
  }

  /** Matching is case-sensitive: a seeded "T-Shirt" and a logged "T-shirt"
      are two rows, unlike in the price list. */
  lemma CaseSensitiveRows(a: Transaction, b: Transaction)
    requires a.item == "T-Shirt" && b.item == "T-shirt"
    ensures FirstSeen([a, b]) == ["T-Shirt", "T-shirt"]
  {
    assert [a, b][..1] == [a];
    assert [a][..0] == [];
    assert FirstSeen([a]) == ["T-Shirt"];
    assert "T-shirt" != "T-Shirt";
  }
}
