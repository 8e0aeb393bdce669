/** The static rate card (Combov1.py:741-787): one lookup per scheme, keyed
    by service code, filled by a fold over the card's rows. Lookups are
    Python dictionaries, so they are modelled as insertion-ordered lists of
    (code, entry) pairs with distinct codes: writing an existing code
    replaces its entry in place, a new code goes to the end. */
module RateSheet {
  import opened Maybe
  import opened Text

  // ---------------------------------------------------------------------
  // An insertion-ordered dictionary from service code to rate entry
  // ---------------------------------------------------------------------

  datatype RateEntry = RateEntry(serviceName: string, rate: real)

  datatype Item = Item(code: string, entry: RateEntry)

  type Table = seq<Item>

  predicate DistinctCodes(t: Table) {
    forall i, j :: 0 <= i < j < |t| ==> t[i].code != t[j].code
  }

  predicate HasCode(t: Table, code: string) {
    exists i :: 0 <= i < |t| && t[i].code == code
  }

  /** Position of the first item with this code, from index k on. */
  function FindFrom(t: Table, code: string, k: nat): (r: Option<nat>)
    requires k <= |t|
    ensures r.Some? ==> k <= r.value < |t| && t[r.value].code == code
    ensures r.Some? ==> forall j :: k <= j < r.value ==> t[j].code != code
    ensures r.None? ==> forall j :: k <= j < |t| ==> t[j].code != code
    decreases |t| - k
  {
    if k == |t| then None
    else if t[k].code == code then Some(k)
    else FindFrom(t, code, k + 1)
  }

  function Find(t: Table, code: string): Option<nat> {
    FindFrom(t, code, 0)
  }

  /** lookup.get(code) */
  function Get(t: Table, code: string): Option<RateEntry> {
    match Find(t, code)
    case Some(i) => Some(t[i].entry)
    case None => None
  }

  /** lookup[code] = entry */
  function Put(t: Table, code: string, entry: RateEntry): Table {
    match Find(t, code)
    case Some(i) => t[i := Item(code, entry)]
    case None => t + [Item(code, entry)]
  }

  /** Writing a code keeps every position's code; a code not yet present
      is added at the end. */
  lemma PutShape(t: Table, code: string, entry: RateEntry)
    ensures HasCode(t, code) ==> |Put(t, code, entry)| == |t|
    ensures !HasCode(t, code) ==> |Put(t, code, entry)| == |t| + 1 && Put(t, code, entry)[|t|].code == code
    ensures forall i :: 0 <= i < |t| ==> Put(t, code, entry)[i].code == t[i].code
  {
    if HasCode(t, code) {
      var i :| 0 <= i < |t| && t[i].code == code;
      assert Find(t, code).Some?;
    }
  }

  /** After writing a code, the codes present are the old ones and it. */
  lemma PutHasCode(t: Table, code: string, entry: RateEntry, other: string)
    ensures HasCode(Put(t, code, entry), other) <==> HasCode(t, other) || other == code
  {
    PutShape(t, code, entry);
    var r := Put(t, code, entry);
    if HasCode(r, other) && other != code {
      var i :| 0 <= i < |r| && r[i].code == other;
      assert t[i].code == other;
    }
    if HasCode(t, other) {
      var i :| 0 <= i < |t| && t[i].code == other;
      assert r[i].code == other;
    }
    if other == code && HasCode(t, code) {
      var i :| 0 <= i < |t| && t[i].code == code;
      assert r[i].code == code;
    }
    if other == code && !HasCode(t, code) {
      assert r[|t|].code == code;
    }
  }

  /** Writing a code keeps the codes distinct. */
  lemma PutDistinct(t: Table, code: string, entry: RateEntry)
    requires DistinctCodes(t)
    ensures DistinctCodes(Put(t, code, entry))
  {
    PutShape(t, code, entry);
  }

  /** Reading a code just written gives the new entry. */
  lemma GetPutSame(t: Table, code: string, entry: RateEntry)
    ensures Get(Put(t, code, entry), code) == Some(entry)
  {
    var r := Put(t, code, entry);
    var f := Find(t, code);
    if f.Some? {
      assert r[f.value].code == code;
      assert forall j :: 0 <= j < f.value ==> r[j].code == t[j].code;
    } else {
      assert r[|t|].code == code;
    }
  }

  /** Writing a code leaves every other code's entry alone. */
  lemma GetPutOther(t: Table, code: string, entry: RateEntry, other: string)
    requires other != code
    ensures Get(Put(t, code, entry), other) == Get(t, other)
  {
    PutShape(t, code, entry);
    var r := Put(t, code, entry);
    var f := Find(t, other);
    var g := Find(r, other);
    if f.Some? {
      assert r[f.value].code == other;
    }
    if g.Some? {
      assert g.value < |t| && t[g.value].code == other;
    }
  }

  // ---------------------------------------------------------------------
  // Rows of the rate card
  // ---------------------------------------------------------------------

  /** A service-name cell: the column is absent (row.get gives ''), the
      cell is empty (str of NaN is 'nan'), or it holds text. */
  datatype NameCell = NoColumn | EmptyName | Name(text: string)

  /** A rate cell: empty (the rate defaults to 0.0), a number, or something
      float() rejects. */
  datatype RateCell = EmptyRate | Number(value: real) | Unreadable

  /** One row of the card. A code cell is None when it is empty or the
      column is absent, and otherwise the text str() gives for it. */
  datatype Row = Row(serviceCode: Option<string>, serviceName: NameCell, rate: RateCell,
                     cghsCode: Option<string>, cghsName: NameCell, cghsRate: RateCell)

  /** The two lookups a row feeds. */
  datatype Scheme = Standard | Cghs

  function CodeCell(r: Row, s: Scheme): Option<string> {
    if s == Standard then r.serviceCode else r.cghsCode
  }

  function NameCellOf(r: Row, s: Scheme): NameCell {
    if s == Standard then r.serviceName else r.cghsName
  }

  function RateCellOf(r: Row, s: Scheme): RateCell {
    if s == Standard then r.rate else r.cghsRate
  }

  function NameText(c: NameCell): string {
    match c
    case NoColumn => ""
    case EmptyName => "nan"
    case Name(text) => Strip(text)
  }

  /** The stripped code, when the row enters the lookup: a present code is
      accepted exactly when its stripped text is not empty, 'nan' or 'None',
      and the key is that stripped text, with no blank at either end. */
  function Key(code: Option<string>): (k: Option<string>)
    ensures k.Some? <==> code.Some? && Strip(code.value) != "" && Strip(code.value) != "nan" && Strip(code.value) != "None"
    ensures k.Some? ==> k.value == Strip(code.value) && !IsSpace(k.value[0]) && !IsSpace(k.value[|k.value| - 1])
  {
    match code
    case None => None
    case Some(text) =>
      var key := Strip(text);
      StripIdempotent(text);
      if key == "" || key == "nan" || key == "None" then None else Some(key)
  }

  function EntryOf(r: Row, s: Scheme): RateEntry {
    var rate := match RateCellOf(r, s)
      case Number(v) => v
      case EmptyRate => 0.0
      case Unreadable => 0.0;
    RateEntry(NameText(NameCellOf(r, s)), rate)
  }

  /** Reading the row's rate for this lookup raises: the code is accepted
      and its rate cell is not a number. */
  predicate Raises(r: Row, s: Scheme) {
    Key(CodeCell(r, s)).Some? && RateCellOf(r, s).Unreadable?
  }

  /** Some of the first n rows raises. */
  predicate AnyRaises(rows: seq<Row>, n: nat)
    requires n <= |rows|
  {
    n > 0 && (AnyRaises(rows, n - 1) || Raises(rows[n - 1], Standard) || Raises(rows[n - 1], Cghs))
  }

  lemma {:induction false} AnyRaisesGrows(rows: seq<Row>, m: nat, n: nat)
    requires m <= n <= |rows| && AnyRaises(rows, m)
    ensures AnyRaises(rows, n)
  {
    if m < n {
      AnyRaisesGrows(rows, m, n - 1);
    }
  }

  /** The load fails exactly when some row raises. */
  lemma {:induction false} AnyRaisesIff(rows: seq<Row>, n: nat)
    requires n <= |rows|
    ensures AnyRaises(rows, n) <==> exists k :: 0 <= k < n && (Raises(rows[k], Standard) || Raises(rows[k], Cghs))
  {
    if n > 0 {
      AnyRaisesIff(rows, n - 1);
    }
  }

  /** What a row offers to one lookup: its accepted code with the entry
      built from the same columns, or nothing. */
  function Offer(r: Row, s: Scheme): (o: Option<Item>)
    ensures o.Some? <==> Key(CodeCell(r, s)).Some?
  {
    match Key(CodeCell(r, s))
    case Some(code) => Some(Item(code, EntryOf(r, s)))
    case None => None
  }

  function Offers(rows: seq<Row>, s: Scheme): (os: seq<Option<Item>>)
    ensures |os| == |rows| && forall k :: 0 <= k < |rows| ==> os[k] == Offer(rows[k], s)
  {
    seq(|rows|, k requires 0 <= k < |rows| => Offer(rows[k], s))
  }

  /** A lookup after taking one offer. */
  function Step(t: Table, o: Option<Item>): Table {
    match o
    case Some(it) => Put(t, it.code, it.entry)
    case None => t
  }

  /** A lookup after the first n offers, the last offer of a code winning. */
  function FoldOffers(os: seq<Option<Item>>, n: nat): Table
    requires n <= |os|
  {
    if n == 0 then [] else Step(FoldOffers(os, n - 1), os[n - 1])
  }

  /** The codes the first n offers carry. */
  function OfferedCodes(os: seq<Option<Item>>, n: nat): set<string>
    requires n <= |os|
  {
    if n == 0 then {}
    else OfferedCodes(os, n - 1) + match os[n - 1] case Some(it) => {it.code} case None => {}
  }

  /** A lookup never holds a code twice. */
  lemma {:induction false} FoldDistinct(os: seq<Option<Item>>, n: nat)
    requires n <= |os|
    ensures DistinctCodes(FoldOffers(os, n))
  {
    if n > 0 {
      FoldDistinct(os, n - 1);
      if os[n - 1].Some? {
        PutDistinct(FoldOffers(os, n - 1), os[n - 1].value.code, os[n - 1].value.entry);
      }
    }
  }

  /** A lookup holds exactly the offered codes. */
  lemma {:induction false} FoldHasCode(os: seq<Option<Item>>, n: nat, code: string)
    requires n <= |os|
    ensures HasCode(FoldOffers(os, n), code) <==> code in OfferedCodes(os, n)
  {
    if n > 0 {
      FoldHasCode(os, n - 1, code);
      if os[n - 1].Some? {
        PutHasCode(FoldOffers(os, n - 1), os[n - 1].value.code, os[n - 1].value.entry, code);
      }
    }
  }

  /** Writing a code grows a lookup exactly when the code is new. */
  lemma PutSize(t: Table, codes: set<string>, code: string, entry: RateEntry)
    requires |t| == |codes| && (HasCode(t, code) <==> code in codes)
    ensures |Put(t, code, entry)| == |codes + {code}|
  {
    PutShape(t, code, entry);
    if code in codes {
      assert codes + {code} == codes;
    }
  }

  /** So the size of a lookup is the number of distinct offered codes. */
  lemma {:induction false} FoldSize(os: seq<Option<Item>>, n: nat)
    requires n <= |os|
    ensures |FoldOffers(os, n)| == |OfferedCodes(os, n)|
  {
    if n > 0 {
      FoldSize(os, n - 1);
      if os[n - 1].Some? {
        var it := os[n - 1].value;
        FoldHasCode(os, n - 1, it.code);
        PutSize(FoldOffers(os, n - 1), OfferedCodes(os, n - 1), it.code, it.entry);
        assert FoldOffers(os, n) == Put(FoldOffers(os, n - 1), it.code, it.entry);
        assert OfferedCodes(os, n) == OfferedCodes(os, n - 1) + {it.code};
      }
    }
  }

  /** The last offer of a code decides its entry. */
  lemma {:induction false} LastOfferWins(os: seq<Option<Item>>, n: nat, k: nat)
    requires k < n <= |os| && os[k].Some?
    requires forall j :: k < j < n && os[j].Some? ==> os[j].value.code != os[k].value.code
    ensures Get(FoldOffers(os, n), os[k].value.code) == Some(os[k].value.entry)
  {
    var t := FoldOffers(os, n - 1);
    var it := os[k].value;
    if k == n - 1 {
      GetPutSame(t, it.code, it.entry);
    } else {
      LastOfferWins(os, n - 1, k);
      if os[n - 1].Some? {
        GetPutOther(t, os[n - 1].value.code, os[n - 1].value.entry, it.code);
      }
    }
  }

  /** One lookup after all rows. */
  function Column(rows: seq<Row>, s: Scheme): Table {
    FoldOffers(Offers(rows, s), |rows|)
  }

  /** The distinct accepted codes of one lookup's column. */
  function AcceptedCodes(rows: seq<Row>, s: Scheme): set<string> {
    OfferedCodes(Offers(rows, s), |rows|)
  }

  /** The last row with an accepted code decides that code's entry: its
      stripped name and its rate, 0.0 when the cell is empty. */
  lemma LastRowWins(rows: seq<Row>, s: Scheme, k: nat, code: string)
    requires k < |rows| && Key(CodeCell(rows[k], s)) == Some(code)
    requires forall j :: k < j < |rows| ==> Key(CodeCell(rows[j], s)) != Some(code)
    ensures Get(Column(rows, s), code) == Some(EntryOf(rows[k], s))
  {
    var os := Offers(rows, s);
    forall j | k < j < |rows| && os[j].Some?
      ensures os[j].value.code != os[k].value.code
    {
      assert Key(CodeCell(rows[j], s)) == Some(os[j].value.code);
    }
    LastOfferWins(os, |rows|, k);
  }

  // ---------------------------------------------------------------------
  // Loading the card
  // ---------------------------------------------------------------------

  datatype RateSheet = RateSheet(standard: Table, cghs: Table)

  const EmptySheet := RateSheet([], [])

  /** The sheet the card yields. `source` is None when the card file is
      missing or cannot be read as a table; a row whose rate cannot be
      read as a number makes the whole load fail, and a failed load gives
      two empty lookups. */
  function LoadedSheet(source: Option<seq<Row>>): RateSheet {
    match source
    case None => EmptySheet
    case Some(rows) =>
      if AnyRaises(rows, |rows|) then EmptySheet
      else RateSheet(Column(rows, Standard), Column(rows, Cghs))
  }

  /** Offer one row's code to one lookup; None when its rate cannot be read. */
  method OfferRow(t: Table, row: Row, s: Scheme) returns (r: Option<Table>)
    ensures r.None? <==> Raises(row, s)
    ensures r.Some? ==> r.value == Step(t, Offer(row, s))
  {
    var key := Key(CodeCell(row, s));
    if key.None? {
      return Some(t);
    }
    if RateCellOf(row, s).Unreadable? {
      return None;
    }
    r := Some(Put(t, key.value, EntryOf(row, s)));
  }

  /** The loader's work on one row: offer it to the standard lookup,
      then to the CGHS lookup; None when reading a rate raises. */
  method LoadRow(sheet: RateSheet, row: Row) returns (next: Option<RateSheet>)
    ensures next.None? <==> Raises(row, Standard) || Raises(row, Cghs)
    ensures next.Some? ==>
      next.value == RateSheet(Step(sheet.standard, Offer(row, Standard)), Step(sheet.cghs, Offer(row, Cghs)))
  {
    var s := OfferRow(sheet.standard, row, Standard);
    if s.None? {
      return None;
    }
    var c := OfferRow(sheet.cghs, row, Cghs);
    if c.None? {
      return None;
    }
    next := Some(RateSheet(s.value, c.value));
  }

  /** The row loop of the loader. */
  method LoadStaticRateSheet(source: Option<seq<Row>>) returns (sheet: RateSheet)
    ensures sheet == LoadedSheet(source)
  {
    if source.None? {
      return EmptySheet;
    }
    var rows := source.value;
    sheet := EmptySheet;
    for i := 0 to |rows|
      invariant sheet == RateSheet(FoldOffers(Offers(rows, Standard), i), FoldOffers(Offers(rows, Cghs), i))
      invariant !AnyRaises(rows, i)
    {
      var next := LoadRow(sheet, rows[i]);
      if next.None? {
        AnyRaisesGrows(rows, i + 1, |rows|);
        return EmptySheet;
      }
      sheet := next.value;
    }
  }

  /** A failed load leaves both lookups empty; otherwise each lookup holds
      exactly the distinct accepted codes of its columns. */
  lemma LoadedSheetCodes(source: Option<seq<Row>>, s: Scheme)
    ensures source.None? ==> LoadedSheet(source) == EmptySheet
    ensures source.Some? && AnyRaises(source.value, |source.value|) ==> LoadedSheet(source) == EmptySheet
    ensures source.Some? && !AnyRaises(source.value, |source.value|) ==>
      var t := if s == Standard then LoadedSheet(source).standard else LoadedSheet(source).cghs;
      && DistinctCodes(t) && |t| == |AcceptedCodes(source.value, s)|
      && forall code :: HasCode(t, code) <==> code in AcceptedCodes(source.value, s)
  {
    if source.Some? {
      var os := Offers(source.value, s);
      FoldDistinct(os, |os|);
      FoldSize(os, |os|);
      forall code ensures HasCode(FoldOffers(os, |os|), code) <==> code in OfferedCodes(os, |os|) {
        FoldHasCode(os, |os|, code);
      }
    }
  }

  // ---------------------------------------------------------------------
  // get_rate_sheet_summary
  // ---------------------------------------------------------------------

  datatype SheetSummary = SheetSummary(standardServices: nat, cghsServices: nat, totalServices: nat)

  function RateSheetSummary(sheet: RateSheet): (r: SheetSummary)
    ensures r.totalServices == r.standardServices + r.cghsServices
  {
    SheetSummary(|sheet.standard|, |sheet.cghs|, |sheet.standard| + |sheet.cghs|)
  }

  /** The summary of a loaded card counts distinct accepted codes per
      lookup, and nothing when the load failed. */
  lemma SummaryCountsDistinctCodes(source: Option<seq<Row>>)
    ensures source.Some? && !AnyRaises(source.value, |source.value|) ==>
      && RateSheetSummary(LoadedSheet(source)).standardServices
           == |AcceptedCodes(source.value, Standard)|
      && RateSheetSummary(LoadedSheet(source)).cghsServices
           == |AcceptedCodes(source.value, Cghs)|
    ensures (source.None? || AnyRaises(source.value, |source.value|)) ==>
      RateSheetSummary(LoadedSheet(source)).totalServices == 0
  {
    if source.Some? {
      FoldSize(Offers(source.value, Standard), |source.value|);
      FoldSize(Offers(source.value, Cghs), |source.value|);
    }
  }
}
