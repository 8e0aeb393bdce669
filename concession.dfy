/** The concession and payment details of a bill (Combov1.py:261-307). Each
    page's text is searched with one pattern per field and one pattern for
    advance-payment rows; the regular expressions themselves are not part
    of this model, so both searches are parameters: `search(f, text)` is
    the amount literal the field's pattern captures on a page, if any, and
    `findAdvances(text)` is the list of (date, reference, amount) triples
    findall returns on a page, in order. */
module Concession {
  import opened Maybe
  import opened Amounts

  datatype Field =
    | TotalBillAmount
    | LessConcession
    | NetAmount
    | AdvanceAdjusted
    | AccountToInsurance
    | AsPerMouConcession
    | AsPerPackageConcession

  /** The order in which the source tries the field patterns on a page. */
  const FieldOrder: seq<Field> := [TotalBillAmount, LessConcession, NetAmount, AdvanceAdjusted,
                                   AccountToInsurance, AsPerMouConcession, AsPerPackageConcession]

  /** What findall returns for one advance-payment row. */
  datatype AdvanceMatch = AdvanceMatch(date: string, reference: string, amount: AmountLiteral)

  /** One entry of advance_details. */
  datatype Advance = Advance(date: string, reference: string, amount: real)

  /** The concession dictionary: the fields found, and advance_details,
      which is always present. */
  datatype ConcessionDetails = ConcessionDetails(fields: map<Field, real>, advanceDetails: seq<Advance>)

  type FieldSearch = (Field, string) -> Option<AmountLiteral>
  type AdvanceSearch = string -> seq<AdvanceMatch>

  lemma EveryFieldIsTried(f: Field)
    ensures f in FieldOrder
  {
    match f
    case TotalBillAmount => assert FieldOrder[0] == f;
    case LessConcession => assert FieldOrder[1] == f;
    case NetAmount => assert FieldOrder[2] == f;
    case AdvanceAdjusted => assert FieldOrder[3] == f;
    case AccountToInsurance => assert FieldOrder[4] == f;
    case AsPerMouConcession => assert FieldOrder[5] == f;
    case AsPerPackageConcession => assert FieldOrder[6] == f;
  }

  // ---------------------------------------------------------------------
  // Fields: every page whose pattern matches overwrites the field
  // ---------------------------------------------------------------------

  /** The dictionary after trying the first k fields of `order` on one
      page: a field whose pattern matches is (over)written. */
  function ApplyFields(m: map<Field, real>, text: string, search: FieldSearch, order: seq<Field>, k: nat): map<Field, real>
    requires k <= |order|
  {
    if k == 0 then m
    else
      var prev := ApplyFields(m, text, search, order, k - 1);
      match search(order[k - 1], text)
      case Some(lit) => prev[order[k - 1] := AmountValue(lit)]
      case None => prev
  }

  /** After trying a page, a field whose pattern matched holds that page's
      amount; any other field is as it was. */
  lemma {:induction false} ApplyFieldsFacts(m: map<Field, real>, text: string, search: FieldSearch,
                                            order: seq<Field>, k: nat, f: Field)
    requires k <= |order|
    ensures f in order[..k] && search(f, text).Some? ==>
      f in ApplyFields(m, text, search, order, k)
      && ApplyFields(m, text, search, order, k)[f] == AmountValue(search(f, text).value)
    ensures !(f in order[..k] && search(f, text).Some?) ==>
      (f in ApplyFields(m, text, search, order, k) <==> f in m)
      && (f in m ==> ApplyFields(m, text, search, order, k)[f] == m[f])
  {
    if k > 0 {
      ApplyFieldsFacts(m, text, search, order, k - 1, f);
      assert order[..k] == order[..k - 1] + [order[k - 1]];
    }
  }

  /** The fields after the first n pages. */
  function FieldsAfter(pages: seq<string>, search: FieldSearch, n: nat): map<Field, real>
    requires n <= |pages|
  {
    if n == 0 then map[]
    else ApplyFields(FieldsAfter(pages, search, n - 1), pages[n - 1], search, FieldOrder, |FieldOrder|)
  }

  /** One page's effect on one field. */
  lemma PageFieldStep(pages: seq<string>, search: FieldSearch, n: nat, f: Field)
    requires 0 < n <= |pages|
    ensures search(f, pages[n - 1]).Some? ==>
      f in FieldsAfter(pages, search, n)
      && FieldsAfter(pages, search, n)[f] == AmountValue(search(f, pages[n - 1]).value)
    ensures search(f, pages[n - 1]).None? ==>
      (f in FieldsAfter(pages, search, n) <==> f in FieldsAfter(pages, search, n - 1))
      && (f in FieldsAfter(pages, search, n - 1) ==>
            FieldsAfter(pages, search, n)[f] == FieldsAfter(pages, search, n - 1)[f])
  {
    EveryFieldIsTried(f);
    assert FieldOrder[..|FieldOrder|] == FieldOrder;
    ApplyFieldsFacts(FieldsAfter(pages, search, n - 1), pages[n - 1], search, FieldOrder, |FieldOrder|, f);
  }

  /** A field is present exactly when its pattern matched on some page. */
  lemma {:induction false} FieldPresentIffMatched(pages: seq<string>, search: FieldSearch, n: nat, f: Field)
    requires n <= |pages|
    ensures f in FieldsAfter(pages, search, n) <==> exists k :: 0 <= k < n && search(f, pages[k]).Some?
  {
    if n > 0 {
      FieldPresentIffMatched(pages, search, n - 1, f);
      PageFieldStep(pages, search, n, f);
      if search(f, pages[n - 1]).None? {
        if exists k :: 0 <= k < n && search(f, pages[k]).Some? {
          var k :| 0 <= k < n && search(f, pages[k]).Some?;
          assert k < n - 1;
        }
      }
    }
  }

  /** The last page on which a field's pattern matches decides its value. */
  lemma {:induction false} LastMatchingPageWins(pages: seq<string>, search: FieldSearch, n: nat, f: Field, k: nat)
    requires k < n <= |pages| && search(f, pages[k]).Some?
    requires forall j :: k < j < n ==> search(f, pages[j]).None?
    ensures f in FieldsAfter(pages, search, n)
    ensures FieldsAfter(pages, search, n)[f] == AmountValue(search(f, pages[k]).value)
  {
    PageFieldStep(pages, search, n, f);
    if k < n - 1 {
      LastMatchingPageWins(pages, search, n - 1, f, k);
    }
  }

  // ---------------------------------------------------------------------
  // Advance payments: appended in page order, duplicates kept
  // ---------------------------------------------------------------------

  function ToAdvance(m: AdvanceMatch): Advance {
    Advance(m.date, m.reference, AmountValue(m.amount))
  }

  /** The advance_details entries for a list of matches. */
  function ToAdvances(ms: seq<AdvanceMatch>): (r: seq<Advance>)
    ensures |r| == |ms|
    ensures forall i :: 0 <= i < |ms| ==> r[i] == ToAdvance(ms[i])
  {
    if ms == [] then [] else ToAdvances(ms[..|ms| - 1]) + [ToAdvance(ms[|ms| - 1])]
  }

  /** advance_details after the first n pages. */
  function AdvancesAfter(pages: seq<string>, findAdvances: AdvanceSearch, n: nat): seq<Advance>
    requires n <= |pages|
  {
    if n == 0 then [] else AdvancesAfter(pages, findAdvances, n - 1) + ToAdvances(findAdvances(pages[n - 1]))
  }

  /** Later pages only add entries at the end. */
  lemma {:induction false} AdvancesGrow(pages: seq<string>, findAdvances: AdvanceSearch, m: nat, n: nat)
    requires m <= n <= |pages|
    ensures |AdvancesAfter(pages, findAdvances, m)| <= |AdvancesAfter(pages, findAdvances, n)|
    ensures AdvancesAfter(pages, findAdvances, n)[..|AdvancesAfter(pages, findAdvances, m)|]
            == AdvancesAfter(pages, findAdvances, m)
  {
    if m < n {
      AdvancesGrow(pages, findAdvances, m, n - 1);
      var a := AdvancesAfter(pages, findAdvances, n - 1);
      var b := ToAdvances(findAdvances(pages[n - 1]));
      assert (a + b)[..|a|] == a;
      assert (a + b)[..|AdvancesAfter(pages, findAdvances, m)|] == a[..|AdvancesAfter(pages, findAdvances, m)|];
    }
  }

  /** Every match on page k appears in advance_details, in order and with
      duplicates kept, right after the entries of the pages before it. */
  lemma PageBlock(pages: seq<string>, findAdvances: AdvanceSearch, k: nat, n: nat, i: nat)
    requires k < n <= |pages| && i < |findAdvances(pages[k])|
    ensures |AdvancesAfter(pages, findAdvances, k)| + i < |AdvancesAfter(pages, findAdvances, n)|
    ensures AdvancesAfter(pages, findAdvances, n)[|AdvancesAfter(pages, findAdvances, k)| + i]
            == ToAdvance(findAdvances(pages[k])[i])
  {
    AdvancesGrow(pages, findAdvances, k + 1, n);
    var all := AdvancesAfter(pages, findAdvances, n);
    var before := AdvancesAfter(pages, findAdvances, k);
    var block := ToAdvances(findAdvances(pages[k]));
    var upTo := before + block;
    assert upTo == AdvancesAfter(pages, findAdvances, k + 1);
    assert upTo[|before| + i] == block[i];
    assert all[..|upTo|][|before| + i] == all[|before| + i];
  }

  // ---------------------------------------------------------------------
  // The page loop
  // ---------------------------------------------------------------------

  /** Try every field pattern on one page, in the source's order. */
  method TryFields(fields: map<Field, real>, text: string, search: FieldSearch)
    returns (fields': map<Field, real>)
    ensures fields' == ApplyFields(fields, text, search, FieldOrder, |FieldOrder|)
    ensures forall f :: search(f, text).Some? ==> f in fields' && fields'[f] == AmountValue(search(f, text).value)
    ensures forall f :: search(f, text).None? ==>
              (f in fields' <==> f in fields) && (f in fields ==> fields'[f] == fields[f])
  {
    fields' := fields;
    for k := 0 to |FieldOrder|
      invariant fields' == ApplyFields(fields, text, search, FieldOrder, k)
    {
      var key := FieldOrder[k];
      var m := search(key, text);
      if m.Some? {
        fields' := fields'[key := AmountValue(m.value)];
      }
    }
    assert FieldOrder[..|FieldOrder|] == FieldOrder;
    forall f | search(f, text).Some?
      ensures f in fields' && fields'[f] == AmountValue(search(f, text).value)
    {
      EveryFieldIsTried(f);
      ApplyFieldsFacts(fields, text, search, FieldOrder, |FieldOrder|, f);
    }
    forall f | search(f, text).None?
      ensures (f in fields' <==> f in fields) && (f in fields ==> fields'[f] == fields[f])
    {
      ApplyFieldsFacts(fields, text, search, FieldOrder, |FieldOrder|, f);
    }
  }

  /** Append one page's advance rows, one entry per match. */
  method AppendAdvances(advanceDetails: seq<Advance>, matches: seq<AdvanceMatch>)
    returns (advanceDetails': seq<Advance>)
    ensures advanceDetails' == advanceDetails + ToAdvances(matches)
  {
    advanceDetails' := advanceDetails;
    for j := 0 to |matches|
      invariant advanceDetails' == advanceDetails + ToAdvances(matches[..j])
    {
      assert matches[..j + 1][..j] == matches[..j];
      advanceDetails' := advanceDetails' + [ToAdvance(matches[j])];
    }
    assert matches[..|matches|] == matches;
  }

  /** The page loop of the source: try every field pattern, then append the
      page's advance rows. */
  method ExtractConcessionDetails(pages: seq<string>, search: FieldSearch, findAdvances: AdvanceSearch)
    returns (details: ConcessionDetails)
    ensures details.fields == FieldsAfter(pages, search, |pages|)
    ensures details.advanceDetails == AdvancesAfter(pages, findAdvances, |pages|)
  {
    var fields: map<Field, real> := map[];
    var advanceDetails: seq<Advance> := [];
    for p := 0 to |pages|
      invariant fields == FieldsAfter(pages, search, p)
      invariant advanceDetails == AdvancesAfter(pages, findAdvances, p)
    {
      var text := pages[p];
      fields := TryFields(fields, text, search);
      advanceDetails := AppendAdvances(advanceDetails, findAdvances(text));
    }
    details := ConcessionDetails(fields, advanceDetails);
  }
}
