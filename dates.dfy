/** The order the ROI projection sorts sales by (components/RoiChart.tsx:19).
    The comparator subtracts the parsed calendar times of two `YYYY-MM-DD`
    strings; for strings of that shape, earlier in time is exactly earlier
    in lexicographic order, so the date strings are compared directly. */
module Dates {
  import opened Types

  /** `a` is strictly earlier than `b`: lexicographic order on the date strings. */
  predicate Before(a: string, b: string)
  {
    if a == [] then b != []
    else if b == [] then false
    else a[0] < b[0] || (a[0] == b[0] && Before(a[1..], b[1..]))
  }

  /** The comparator `a - b` is not positive: `a` may stay ahead of `b`. */
  predicate NotAfter(a: string, b: string)
  {
    !Before(b, a)
  }

  lemma {:induction false} BeforeIrreflexive(a: string)
    ensures !Before(a, a)
  {
    if a != [] {
      BeforeIrreflexive(a[1..]);
    }
  }

  lemma {:induction false} BeforeTransitive(a: string, b: string, c: string)
    requires Before(a, b) && Before(b, c)
    ensures Before(a, c)
  {
    if a != [] && a[0] == b[0] && b[0] == c[0] {
      BeforeTransitive(a[1..], b[1..], c[1..]);
    }
  }

  /** Any two distinct dates are ordered one way or the other. */
  lemma {:induction false} BeforeTotal(a: string, b: string)
    ensures a == b || Before(a, b) || Before(b, a)
  {
    if a != [] && b != [] && a[0] == b[0] {
      BeforeTotal(a[1..], b[1..]);
      if a[1..] == b[1..] {
        assert a == [a[0]] + a[1..] && b == [b[0]] + b[1..];
      }
    }
  }

  lemma BeforeAsymmetric(a: string, b: string)
    requires Before(a, b)
    ensures !Before(b, a)
  {
    if Before(b, a) {
      BeforeTransitive(a, b, a);
      BeforeIrreflexive(a);
    }
  }

  /** `NotAfter` is a total preorder: total and transitive. */
  lemma NotAfterTotalPreorder(a: string, b: string, c: string)
    ensures NotAfter(a, b) || NotAfter(b, a)
    ensures NotAfter(a, b) && NotAfter(b, c) ==> NotAfter(a, c)
    ensures NotAfter(a, b) && NotAfter(b, a) ==> a == b
  {
    BeforeTotal(a, b);
    if Before(a, b) {
      BeforeAsymmetric(a, b);
    }
    if NotAfter(a, b) && NotAfter(b, c) && Before(c, a) {
      BeforeTotal(a, b);
      if Before(a, b) {
        BeforeTransitive(c, a, b);
      }
    }
  }

  /** Adjacent sales are in date order. */
  predicate Sorted(s: seq<Transaction>)
  {
    forall i :: 0 < i < |s| ==> NotAfter(s[i - 1].date, s[i].date)
  }

  /** Every earlier sale is dated no later than every later one. */
  lemma {:induction false} SortedPairwise(s: seq<Transaction>)
    requires Sorted(s)
    ensures forall i, j :: 0 <= i < j < |s| ==> NotAfter(s[i].date, s[j].date)
  {
    if |s| > 1 {
      SortedPairwise(s[1..]);
      forall j | 1 < j < |s| ensures NotAfter(s[0].date, s[j].date) {
        assert NotAfter(s[1].date, s[j].date);
        NotAfterTotalPreorder(s[0].date, s[1].date, s[j].date);
      }
    }
  }

  /** Places `x` before the first sale it is not later than, so that `x` stays
      ahead of every sale of the same date. */
  function Insert(x: Transaction, s: seq<Transaction>): seq<Transaction>
  {
    if s == [] then [x]
    else if NotAfter(x.date, s[0].date) then [x] + s
    else [s[0]] + Insert(x, s[1..])
  }

  /** The stable sort by date of a copy of the sales: a sale that comes
      first in the input comes first among the sales of its date. */
  function SortByDate(s: seq<Transaction>): seq<Transaction>
  {
    if s == [] then [] else Insert(s[0], SortByDate(s[1..]))
  }

  lemma {:induction false} InsertSorted(x: Transaction, s: seq<Transaction>)
    requires Sorted(s)
    ensures Sorted(Insert(x, s))
    ensures Insert(x, s) != [] && (Insert(x, s)[0] == x || (s != [] && Insert(x, s)[0] == s[0]))
  {
    if s != [] && !NotAfter(x.date, s[0].date) {
      InsertSorted(x, s[1..]);
      BeforeAsymmetric(s[0].date, x.date);
    } else if s != [] {
      assert Insert(x, s) == [x] + s;
    }
  }

  lemma {:induction false} InsertPermutes(x: Transaction, s: seq<Transaction>)
    ensures multiset(Insert(x, s)) == multiset(s) + multiset{x}
    ensures |Insert(x, s)| == |s| + 1
    ensures TotalSales(Insert(x, s)) == x.totalSale + TotalSales(s)
  {
    if s != [] && !NotAfter(x.date, s[0].date) {
      InsertPermutes(x, s[1..]);
      assert s == [s[0]] + s[1..];
    }
  }

  /** The sort returns the same sales, in date order. */
  lemma {:induction false} SortByDateCorrect(s: seq<Transaction>)
    ensures Sorted(SortByDate(s))
    ensures multiset(SortByDate(s)) == multiset(s)
    ensures |SortByDate(s)| == |s|
    ensures TotalSales(SortByDate(s)) == TotalSales(s)
  {
    if s != [] {
      SortByDateCorrect(s[1..]);
      InsertSorted(s[0], SortByDate(s[1..]));
      InsertPermutes(s[0], SortByDate(s[1..]));
      assert s == [s[0]] + s[1..];
    }
  }

  /** The sales of date `d`, in their order. */
  function OnDate(s: seq<Transaction>, d: string): seq<Transaction>
  {
    if s == [] then []
    else if s[0].date == d then [s[0]] + OnDate(s[1..], d)
    else OnDate(s[1..], d)
  }

  lemma {:induction false} InsertOnDate(x: Transaction, s: seq<Transaction>, d: string)
    ensures OnDate(Insert(x, s), d) == if x.date == d then [x] + OnDate(s, d) else OnDate(s, d)
  {
    if s == [] {
    } else if NotAfter(x.date, s[0].date) {
      assert Insert(x, s) == [x] + s;
      assert ([x] + s)[1..] == s;
    } else {
      InsertOnDate(x, s[1..], d);
      if x.date == d {
        BeforeIrreflexive(x.date);
      }
      assert ([s[0]] + Insert(x, s[1..]))[1..] == Insert(x, s[1..]);
    }
  }

  /** Stability: the sales that share a date keep their relative input order. */
  lemma {:induction false} SortByDateStable(s: seq<Transaction>, d: string)
    ensures OnDate(SortByDate(s), d) == OnDate(s, d)
  {
    if s != [] {
      SortByDateStable(s[1..], d);
      InsertOnDate(s[0], SortByDate(s[1..]), d);
    }
  }
}
