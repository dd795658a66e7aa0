/** The application state controller of App.tsx: the canonical sales list,
    price list and history, and one recommendation cycle
    (`handleGetPricingAdvice`) applied to them. */
module App {
  import opened Types
  import opened Text

  const MissingInputMessage: string := "Please provide a transaction description."
  const FailureMessage: string := "Sorry, I couldn't get a pricing recommendation. Please try again."

  /** What the recommendation client hands back: a parsed response, or a
      failure of any kind (network, service, JSON parse), all alike. */
  datatype ClientOutcome = Success(response: AiResponse) | Failure

  /** What the controller asks the recommendation client. */
  datatype Request = Request(transcript: string, salesHistory: seq<Transaction>)

  /** The sales the application starts with (App.tsx:12-19). */
  function SeededSales(): seq<Transaction>
  {
    [ Transaction("T-Shirt", 10, 250.0, None, "2023-10-01"),
      Transaction("Mug", 20, 200.0, None, "2023-10-02"),
      Transaction("T-Shirt", 15, 375.0, None, "2023-10-03"),
      Transaction("Cap", 12, 180.0, None, "2023-10-04"),
      Transaction("Mug", 25, 250.0, None, "2023-10-05"),
      Transaction("T-Shirt", 8, 200.0, None, "2023-10-06") ]
  }

  /** The price list the application starts with (App.tsx:21-25). */
  function SeededPriceList(): seq<PriceListItem>
  {
    [ PriceListItem("T-Shirt", 25.0),
      PriceListItem("Mug", 10.0),
      PriceListItem("Cap", 15.0) ]
  }

  /** No two entries of the price list name the same item, ignoring case. */
  predicate NoCaseDuplicates(list: seq<PriceListItem>)
  {
    forall i, j :: 0 <= i < j < |list| ==> !SameItem(list[i].item, list[j].item)
  }

  /** Some entry of the list names the item, ignoring case (App.tsx:60). */
  predicate AnyMatches(prev: seq<PriceListItem>, name: string)
  {
    prev != [] && (SameItem(prev[0].item, name) || AnyMatches(prev[1..], name))
  }

  /** The list with every entry that names the item, ignoring case, given the
      new price under its own name, and every other entry kept (App.tsx:62-66). */
  function UpdateMatching(prev: seq<PriceListItem>, name: string, price: real): seq<PriceListItem>
  {
    if prev == [] then []
    else [if SameItem(prev[0].item, name) then prev[0].(price := price) else prev[0]]
         + UpdateMatching(prev[1..], name, price)
  }

  /** The price-list update of a successful cycle (App.tsx:59-70). */
  function MergePrice(prev: seq<PriceListItem>, name: string, price: real): seq<PriceListItem>
  {
    if AnyMatches(prev, name) then UpdateMatching(prev, name, price)
    else prev + [PriceListItem(name, price)]
  }

  /** The sale logged from a response: the parsed fields, the item name
      capitalised, the date that of the day of the cycle (App.tsx:52-56). */
  function NewTransaction(response: AiResponse, today: string): Transaction
  {
    var t := response.transaction;
    Transaction(Capitalize(t.item), t.quantity, t.totalSale, Some(t.pricePerItem), today)
  }

  /** The logged sale is the parsed one under a capitalised name that still
      matches it ignoring case, dated the day of the cycle. */
  lemma NewTransactionFields(response: AiResponse, today: string)
    ensures SameItem(NewTransaction(response, today).item, response.transaction.item)
    ensures |NewTransaction(response, today).item| == |response.transaction.item|
    ensures NewTransaction(response, today).quantity == response.transaction.quantity
    ensures NewTransaction(response, today).totalSale == response.transaction.totalSale
    ensures NewTransaction(response, today).pricePerItem == Some(response.transaction.pricePerItem)
    ensures NewTransaction(response, today).date == today
  {
    CapitalizeSameItem(response.transaction.item);
  }

  /** The seeded sales: six sales worth 1455 in all, 90 items sold. */
  lemma SeededSalesTotals()
    ensures |SeededSales()| == 6
    ensures TotalSales(SeededSales()) == 1455.0
    ensures TotalQuantity(SeededSales()) == 90
  {
  }

  /** `some` holds exactly when some entry matches the name case-insensitively. */
  lemma {:induction false} AnyMatchesExists(prev: seq<PriceListItem>, name: string)
    ensures AnyMatches(prev, name) <==> exists i :: 0 <= i < |prev| && SameItem(prev[i].item, name)
  {
    if prev != [] {
      AnyMatchesExists(prev[1..], name);
      if AnyMatches(prev[1..], name) {
        var i :| 0 <= i < |prev[1..]| && SameItem(prev[1..][i].item, name);
        assert SameItem(prev[i + 1].item, name);
      }
      if exists i :: 0 <= i < |prev| && SameItem(prev[i].item, name) {
        var i :| 0 <= i < |prev| && SameItem(prev[i].item, name);
        if i > 0 {
          assert SameItem(prev[1..][i - 1].item, name);
        }
      }
    }
  }

  /** `map` keeps the length, re-prices exactly the matching entries and
      leaves every other entry as it was. */
  lemma {:induction false} UpdateMatchingPointwise(prev: seq<PriceListItem>, name: string, price: real)
    ensures |UpdateMatching(prev, name, price)| == |prev|
    ensures forall i :: 0 <= i < |prev| ==>
      UpdateMatching(prev, name, price)[i] ==
        if SameItem(prev[i].item, name) then PriceListItem(prev[i].item, price) else prev[i]
  {
    if prev != [] {
      UpdateMatchingPointwise(prev[1..], name, price);
      var r := UpdateMatching(prev, name, price);
      forall i | 0 < i < |prev|
        ensures r[i] == if SameItem(prev[i].item, name) then PriceListItem(prev[i].item, price) else prev[i]
      {
        assert r[i] == UpdateMatching(prev[1..], name, price)[i - 1];
      }
    }
  }

  /** Merge into a list that already holds the item (any case): no entry is
      added, every matching entry takes the recommended price and keeps its
      name, every other entry is unchanged. */
  lemma MergeExisting(prev: seq<PriceListItem>, name: string, price: real)
    requires exists i :: 0 <= i < |prev| && SameItem(prev[i].item, name)
    ensures |MergePrice(prev, name, price)| == |prev|
    ensures forall i :: 0 <= i < |prev| && SameItem(prev[i].item, name) ==>
      MergePrice(prev, name, price)[i] == PriceListItem(prev[i].item, price)
    ensures forall i :: 0 <= i < |prev| && !SameItem(prev[i].item, name) ==>
      MergePrice(prev, name, price)[i] == prev[i]
  {
    AnyMatchesExists(prev, name);
    UpdateMatchingPointwise(prev, name, price);
  }

  /** Merge of an item the list does not hold (in any case): exactly one entry
      is appended at the end and the others are unchanged. */
  lemma MergeNew(prev: seq<PriceListItem>, name: string, price: real)
    requires forall i :: 0 <= i < |prev| ==> !SameItem(prev[i].item, name)
    ensures MergePrice(prev, name, price) == prev + [PriceListItem(name, price)]
  {
    AnyMatchesExists(prev, name);
  }

  /** After a merge the list always holds the item at the recommended price. */
  lemma MergeRecordsPrice(prev: seq<PriceListItem>, name: string, price: real)
    ensures exists i :: (0 <= i < |MergePrice(prev, name, price)|
      && SameItem(MergePrice(prev, name, price)[i].item, name)
      && MergePrice(prev, name, price)[i].price == price)
  {
    AnyMatchesExists(prev, name);
    var r := MergePrice(prev, name, price);
    if AnyMatches(prev, name) {
      UpdateMatchingPointwise(prev, name, price);
      var i :| 0 <= i < |prev| && SameItem(prev[i].item, name);
      assert r[i].price == price;
    } else {
      assert r[|prev|] == PriceListItem(name, price);
    }
  }

  /** A merge never introduces two entries for one item. */
  lemma MergeKeepsNamesUnique(prev: seq<PriceListItem>, name: string, price: real)
    requires NoCaseDuplicates(prev)
    ensures NoCaseDuplicates(MergePrice(prev, name, price))
  {
    AnyMatchesExists(prev, name);
    var r := MergePrice(prev, name, price);
    if AnyMatches(prev, name) {
      UpdateMatchingPointwise(prev, name, price);
      assert forall i :: 0 <= i < |prev| ==> r[i].item == prev[i].item;
    } else {
      forall i, j | 0 <= i < j < |r| ensures !SameItem(r[i].item, r[j].item) {
        if j == |prev| {
          assert r[j].item == name;
        }
      }
    }
  }

  lemma SeededPriceListUnique()
    ensures NoCaseDuplicates(SeededPriceList())
  {
    var l := SeededPriceList();
    assert Lower(l[0].item)[0] == 't';
    assert Lower(l[1].item)[0] == 'm';
    assert Lower(l[2].item)[0] == 'c';
  }

  /** In a list without case duplicates, a merge that finds the item re-prices
      that single entry and touches nothing else. */
  lemma MergeRepricesTheMatch(prev: seq<PriceListItem>, name: string, price: real, k: int)
    requires NoCaseDuplicates(prev)
    requires 0 <= k < |prev| && SameItem(prev[k].item, name)
    ensures MergePrice(prev, name, price) == prev[k := PriceListItem(prev[k].item, price)]
  {
    MergeExisting(prev, name, price);
    forall i | 0 <= i < |prev| && i != k ensures !SameItem(prev[i].item, name) {
      if i < k {
        assert !SameItem(prev[i].item, prev[k].item);
      } else {
        assert !SameItem(prev[k].item, prev[i].item);
      }
    }
  }

  /** The seeded list re-priced by a response that parsed "t-shirt" at 22:
      the existing "T-Shirt" entry takes the new price, nothing is added. */
  lemma SeededTShirtMerge()
    ensures MergePrice(SeededPriceList(), Capitalize("t-shirt"), 22.0)
      == [PriceListItem("T-Shirt", 22.0), PriceListItem("Mug", 10.0), PriceListItem("Cap", 15.0)]
  {
    var l := SeededPriceList();
    var name := Capitalize("t-shirt");
    assert Lower(name) == "t-shirt";
    assert Lower(l[0].item) == "t-shirt";
    SeededPriceListUnique();
    MergeRepricesTheMatch(l, name, 22.0, 0);
  }

  /** The controller: the state App.tsx keeps with `useState` and updates in
      `handleGetPricingAdvice`. */
  class PricingController {
    var history: seq<HistoryItem>
    var salesData: seq<Transaction>
    var priceList: seq<PriceListItem>
    var isLoading: bool
    var error: Option<string>

    constructor ()
      ensures history == [] && salesData == SeededSales() && priceList == SeededPriceList()
      ensures !isLoading && error == None
      ensures NoCaseDuplicates(priceList)
    {
      history := [];
      salesData := SeededSales();
      priceList := SeededPriceList();
      isLoading := false;
      error := None;
      SeededPriceListUnique();
    }

    /** The part of a cycle before the call (App.tsx:36-41): reject the empty
        transcript, or raise the busy flag, clear the error and hand back the
        request for the client, carrying the current sales. */
    method Begin(transcript: string) returns (request: Option<Request>)
      modifies this
      ensures history == old(history) && salesData == old(salesData) && priceList == old(priceList)
      ensures transcript == [] ==> request == None && error == Some(MissingInputMessage) && isLoading == old(isLoading)
      ensures transcript != [] ==> request == Some(Request(transcript, salesData)) && isLoading && error == None
    {
      if transcript == [] {
        error := Some(MissingInputMessage);
        return None;
      }
      isLoading := true;
      error := None;
      request := Some(Request(transcript, salesData));
    }

    /** The part of a cycle after the call (App.tsx:45-79): on success prepend
        the history entry, append the sale and merge the price; on failure
        set the generic error and change no list; clear the busy flag either
        way. */
    method Settle(request: Request, outcome: ClientOutcome, today: string, now: int)
      returns (result: Option<AiResponse>)
      modifies this
      ensures !isLoading
      ensures outcome.Failure? ==>
        && result == None && error == Some(FailureMessage)
        && history == old(history) && salesData == old(salesData) && priceList == old(priceList)
      ensures outcome.Success? ==>
        var response := outcome.response;
        var sale := NewTransaction(response, today);
        && result == Some(response) && error == old(error)
        && history == [HistoryItem(now, request.transcript, response)] + old(history)
        && salesData == old(salesData) + [sale]
        && priceList == MergePrice(old(priceList), sale.item, response.recommendation.recommendedPrice)
      ensures NoCaseDuplicates(old(priceList)) ==> NoCaseDuplicates(priceList)
    {
      match outcome {
        case Failure =>
          error := Some(FailureMessage);
          result := None;
        case Success(response) =>
          history := [HistoryItem(now, request.transcript, response)] + history;
          var sale := NewTransaction(response, today);
          salesData := salesData + [sale];
          if NoCaseDuplicates(priceList) {
            MergeKeepsNamesUnique(priceList, sale.item, response.recommendation.recommendedPrice);
          }
          priceList := MergePrice(priceList, sale.item, response.recommendation.recommendedPrice);
          result := Some(response);
      }
      isLoading := false;
    }

    /** One whole cycle, `handleGetPricingAdvice(transcript)`, where `outcome`
        is what the client returns if it is asked; `asked` records whether it
        is, and with what. */
    method Submit(transcript: string, outcome: ClientOutcome, today: string, now: int)
      returns (result: Option<AiResponse>, ghost asked: Option<Request>)
      modifies this
      ensures transcript == [] ==>
        && asked == None && result == None && error == Some(MissingInputMessage)
        && history == old(history) && salesData == old(salesData) && priceList == old(priceList)
        && isLoading == old(isLoading)
      ensures transcript != [] ==> asked == Some(Request(transcript, old(salesData))) && !isLoading
      ensures transcript != [] && outcome.Failure? ==>
        && result == None && error == Some(FailureMessage)
        && history == old(history) && salesData == old(salesData) && priceList == old(priceList)
      ensures transcript != [] && outcome.Success? ==>
        var response := outcome.response;
        var sale := NewTransaction(response, today);
        && result == Some(response) && error == None
        && history == [HistoryItem(now, transcript, response)] + old(history)
        && salesData == old(salesData) + [sale]
        && priceList == MergePrice(old(priceList), sale.item, response.recommendation.recommendedPrice)
      ensures NoCaseDuplicates(old(priceList)) ==> NoCaseDuplicates(priceList)
    {
      var request := Begin(transcript);
      asked := request;
      result := None;
      if request.Some? {
        result := Settle(request.value, outcome, today, now);
      }
    }
  }

  /** Two successful cycles in a row: the later one is at the head of the
      history, the earlier one right behind it, and the sales grew by two. */
  method TwoCycles(c: PricingController, first: AiResponse, second: AiResponse, today: string)
    modifies c
    ensures |c.history| == |old(c.history)| + 2
    ensures c.history[0] == HistoryItem(2, "second", second)
    ensures c.history[1] == HistoryItem(1, "first", first)
    ensures c.history[2..] == old(c.history)
    ensures c.salesData == old(c.salesData) + [NewTransaction(first, today), NewTransaction(second, today)]
  {
    var r1, a1 := c.Submit("first", Success(first), today, 1);
    var r2, a2 := c.Submit("second", Success(second), today, 2);
  }
}
