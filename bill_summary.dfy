/** parse_hospital_bill (Combov1.py:309-331): the items and concession
    details of a bill, with the total billed amount and a per-category
    summary whose keys keep the order in which categories first occur. */
module BillSummary {
  import opened Text
  import opened BillParser
  import opened Concession

  /** sum(item["billed_amount"] for item in items) */
  function TotalAmount(items: seq<BillItem>): real {
    if items == [] then 0.0 else TotalAmount(items[..|items| - 1]) + items[|items| - 1].billedAmount
  }

  /** The billed amount of the items of one category: the reference the
      summary loop is checked against. */
  function CategoryTotal(items: seq<BillItem>, category: string): real {
    if items == [] then 0.0
    else
      var last := items[|items| - 1];
      CategoryTotal(items[..|items| - 1], category) + (if last.category == category then last.billedAmount else 0.0)
  }

  /** The keys of the categories dictionary after the first n items, in
      insertion order. */
  function OrderAfter(items: seq<BillItem>, n: nat): seq<string>
    requires n <= |items|
  {
    if n == 0 then []
    else
      var order := OrderAfter(items, n - 1);
      if items[n - 1].category in order then order else order + [items[n - 1].category]
  }

  /** The categories dictionary after the first n items: a new category
      starts at 0, then the item's amount is added. */
  function TotalsAfter(items: seq<BillItem>, n: nat): map<string, real>
    requires n <= |items|
  {
    if n == 0 then map[]
    else
      var totals := TotalsAfter(items, n - 1);
      var c := items[n - 1].category;
      totals[c := (if c in totals then totals[c] else 0.0) + items[n - 1].billedAmount]
  }

  /** The summary of a bill. */
  datatype Summary = Summary(totalAmount: real, categoryOrder: seq<string>, categories: map<string, real>)

  /** The category loop of the source. */
  method SummarizeBill(items: seq<BillItem>) returns (summary: Summary)
    ensures summary == Summary(TotalAmount(items), OrderAfter(items, |items|), TotalsAfter(items, |items|))
  {
    var order: seq<string> := [];
    var categories: map<string, real> := map[];
    for i := 0 to |items|
      invariant order == OrderAfter(items, i) && categories == TotalsAfter(items, i)
      invariant forall c :: c in categories <==> c in order
    {
      var category := items[i].category;
      if category !in categories {
        order := order + [category];
        categories := categories[category := 0.0];
      }
      categories := categories[category := categories[category] + items[i].billedAmount];
    }
    summary := Summary(TotalAmount(items), order, categories);
  }

  /** The dictionary's keys are its insertion order, each category of the
      items once and nothing else, and each holds the billed amount of its
      category's items. */
  lemma {:induction false} TotalsFacts(items: seq<BillItem>, n: nat)
    requires n <= |items|
    ensures forall c :: c in TotalsAfter(items, n) <==> c in OrderAfter(items, n)
    ensures forall c :: c in OrderAfter(items, n) <==> exists i :: 0 <= i < n && items[i].category == c
    ensures forall i, j :: 0 <= i < j < |OrderAfter(items, n)| ==> OrderAfter(items, n)[i] != OrderAfter(items, n)[j]
    ensures forall c :: c in TotalsAfter(items, n) ==> TotalsAfter(items, n)[c] == CategoryTotal(items[..n], c)
    ensures forall c :: c !in TotalsAfter(items, n) ==> CategoryTotal(items[..n], c) == 0.0
  {
    KeysAreOrder(items, n);
    OrderMembers(items, n);
    TotalsValues(items, n);
  }

  /** The insertion order lists exactly the categories of the items. */
  lemma {:induction false} OrderMembers(items: seq<BillItem>, n: nat)
    requires n <= |items|
    ensures forall c :: c in OrderAfter(items, n) <==> exists i :: 0 <= i < n && items[i].category == c
  {
    if n > 0 {
      OrderMembers(items, n - 1);
      forall d | d in OrderAfter(items, n)
        ensures exists i :: 0 <= i < n && items[i].category == d
      {
        if d !in OrderAfter(items, n - 1) {
          assert items[n - 1].category == d;
        }
      }
      forall d | exists i :: 0 <= i < n && items[i].category == d
        ensures d in OrderAfter(items, n)
      {
        var i :| 0 <= i < n && items[i].category == d;
        if i < n - 1 {
          assert d in OrderAfter(items, n - 1);
        }
      }
    }
  }

  /** Each key holds the amount of its category's items; a category with
      no key has no items. */
  lemma {:induction false} TotalsValues(items: seq<BillItem>, n: nat)
    requires n <= |items|
    ensures forall c :: c in TotalsAfter(items, n) ==> TotalsAfter(items, n)[c] == CategoryTotal(items[..n], c)
    ensures forall c :: c !in TotalsAfter(items, n) ==> CategoryTotal(items[..n], c) == 0.0
  {
    if n > 0 {
      TotalsValues(items, n - 1);
      assert items[..n][..n - 1] == items[..n - 1];
    }
  }

  /** The sum of a dictionary's values over the given keys. */
  function SumOver(keys: seq<string>, m: map<string, real>): real {
    if keys == [] then 0.0
    else
      var k := keys[|keys| - 1];
      SumOver(keys[..|keys| - 1], m) + (if k in m then m[k] else 0.0)
  }

  /** Changing a key outside the list does not change the sum. */
  lemma {:induction false} SumOverFrame(keys: seq<string>, m: map<string, real>, c: string, v: real)
    requires c !in keys
    ensures SumOver(keys, m[c := v]) == SumOver(keys, m)
  {
    if keys != [] {
      SumOverFrame(keys[..|keys| - 1], m, c, v);
    }
  }

  /** Adding d to a key listed once adds d to the sum. */
  lemma {:induction false} SumOverAdd(keys: seq<string>, m: map<string, real>, c: string, d: real)
    requires c in m && c in keys
    requires forall i, j :: 0 <= i < j < |keys| ==> keys[i] != keys[j]
    ensures SumOver(keys, m[c := m[c] + d]) == SumOver(keys, m) + d
  {
    var init := keys[..|keys| - 1];
    if keys[|keys| - 1] == c {
      assert c !in init by {
        forall i | 0 <= i < |init| ensures init[i] != c {
          assert init[i] == keys[i];
        }
      }
      SumOverFrame(init, m, c, m[c] + d);
    } else {
      assert c in init by {
        var i :| 0 <= i < |keys| && keys[i] == c;
        assert init[i] == c;
      }
      SumOverAdd(init, m, c, d);
    }
  }

  /** The category totals add up to the bill's total amount. */
  lemma {:induction false} CategoriesSumToTotal(items: seq<BillItem>, n: nat)
    requires n <= |items|
    ensures SumOver(OrderAfter(items, n), TotalsAfter(items, n)) == TotalAmount(items[..n])
  {
    if n > 0 {
      CategoriesSumToTotal(items, n - 1);
      SumStep(items, n);
      assert items[..n][..n - 1] == items[..n - 1];
    }
  }

  /** One more item adds its amount to the sum of the category totals. */
  lemma SumStep(items: seq<BillItem>, n: nat)
    requires 0 < n <= |items|
    ensures SumOver(OrderAfter(items, n), TotalsAfter(items, n))
            == SumOver(OrderAfter(items, n - 1), TotalsAfter(items, n - 1)) + items[n - 1].billedAmount
  {
    var order := OrderAfter(items, n - 1);
    var totals := TotalsAfter(items, n - 1);
    KeysAreOrder(items, n - 1);
    var c := items[n - 1].category;
    var a := items[n - 1].billedAmount;
    if c in order {
      SumOverAdd(order, totals, c, a);
    } else {
      SumOverFrame(order, totals, c, 0.0 + a);
      assert (order + [c])[..|order|] == order;
    }
  }

  /** The dictionary's keys are its insertion order, without repeats. */
  lemma {:induction false} KeysAreOrder(items: seq<BillItem>, n: nat)
    requires n <= |items|
    ensures forall c :: c in TotalsAfter(items, n) <==> c in OrderAfter(items, n)
    ensures forall i, j :: 0 <= i < j < |OrderAfter(items, n)| ==> OrderAfter(items, n)[i] != OrderAfter(items, n)[j]
  {
    if n > 0 {
      KeysAreOrder(items, n - 1);
    }
  }

  /** A total of non-negative amounts is non-negative. */
  lemma {:induction false} TotalNonNegative(items: seq<BillItem>)
    requires forall it :: it in items ==> it.billedAmount >= 0.0
    ensures TotalAmount(items) >= 0.0
  {
    if items != [] {
      assert items[|items| - 1] in items;
      var init := items[..|items| - 1];
      forall it | it in init ensures it.billedAmount >= 0.0 {
        var i :| 0 <= i < |init| && init[i] == it;
        assert items[i] == it;
      }
      TotalNonNegative(init);
    }
  }

  /** The lines of each page: page.get_text().split('\n'). */
  function PageLines(pages: seq<string>): (lines: seq<seq<string>>)
    ensures |lines| == |pages|
    ensures forall i :: 0 <= i < |pages| ==> lines[i] == Split(pages[i], '\n')
  {
    seq(|pages|, i requires 0 <= i < |pages| => Split(pages[i], '\n'))
  }

  /** The result of parse_hospital_bill. */
  datatype ParsedBill = ParsedBill(billItems: seq<BillItem>, totalItems: nat,
                                   concessionDetails: ConcessionDetails, summary: Summary)

  /** parse_hospital_bill over the text of each page. */
  method ParseHospitalBill(pages: seq<string>, search: FieldSearch, findAdvances: AdvanceSearch)
    returns (bill: ParsedBill)
    ensures bill.billItems == BillItemsOf(PageLines(pages))
    ensures bill.totalItems == |bill.billItems|
    ensures bill.concessionDetails.fields == FieldsAfter(pages, search, |pages|)
    ensures bill.concessionDetails.advanceDetails == AdvancesAfter(pages, findAdvances, |pages|)
    ensures bill.summary == Summary(TotalAmount(bill.billItems), OrderAfter(bill.billItems, |bill.billItems|),
                                    TotalsAfter(bill.billItems, |bill.billItems|))
  {
    var items := ExtractBillItems(PageLines(pages));
    var details := ExtractConcessionDetails(pages, search, findAdvances);
    var summary := SummarizeBill(items);
    bill := ParsedBill(items, |items|, details, summary);
  }

  /** For a parsed bill: the total is non-negative, every category total
      is non-negative and is the amount of that category's items, every
      key is a category code from the table or UNCATEGORIZED, and the
      category totals add up to the total. */
  lemma ParsedSummary(pages: seq<string>)
    ensures var items := BillItemsOf(PageLines(pages));
      && TotalAmount(items) >= 0.0
      && SumOver(OrderAfter(items, |items|), TotalsAfter(items, |items|)) == TotalAmount(items)
    ensures var items := BillItemsOf(PageLines(pages));
      forall c :: c in TotalsAfter(items, |items|) ==>
        && TotalsAfter(items, |items|)[c] == CategoryTotal(items, c)
        && TotalsAfter(items, |items|)[c] >= 0.0
        && (c == Uncategorized || exists h :: h in CategoryTable && h.category == c)
  {
    var items := BillItemsOf(PageLines(pages));
    BillItemsOk(PageLines(pages));
    TotalNonNegative(items);
    CategoriesSumToTotal(items, |items|);
    TotalsFacts(items, |items|);
    assert items[..|items|] == items;
    forall c | c in TotalsAfter(items, |items|)
      ensures TotalsAfter(items, |items|)[c] >= 0.0
      ensures c == Uncategorized || exists h :: h in CategoryTable && h.category == c
    {
      var i :| 0 <= i < |items| && items[i].category == c;
      assert items[i] in items;
      if c != Uncategorized {
        assert Header(items[i].billedEntity, c) in CategoryTable;
      }
      CategoryTotalNonNegative(items, c);
    }
  }

  lemma {:induction false} CategoryTotalNonNegative(items: seq<BillItem>, c: string)
    requires forall it :: it in items ==> it.billedAmount >= 0.0
    ensures CategoryTotal(items, c) >= 0.0
  {
    if items != [] {
      assert items[|items| - 1] in items;
      var init := items[..|items| - 1];
      forall it | it in init ensures it.billedAmount >= 0.0 {
        var i :| 0 <= i < |init| && init[i] == it;
        assert items[i] == it;
      }
      CategoryTotalNonNegative(init, c);
    }
  }
}
