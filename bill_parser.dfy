/** The line-oriented bill parser (extract_bill_items_from_pdf,
    Combov1.py:127-259) over pages already rendered to lines. Each line is
    stripped and then, independently and in this order: checked against the
    category table, checked for a leading DD-MM-YYYY date (which assembles an
    item from it and up to four following lines), and checked for the end of
    the itemised section. Items wait in a per-category buffer that is flushed
    into the output on a header, at the section end and at the page end. */
module BillParser {
  import opened Maybe
  import opened Text
  import opened Amounts

  /** A category header: the label as printed (billed_entity) and its code
      (category). */
  datatype Header = Header(entity: string, category: string)

  /** The label table, in the order the source tries it. */
  const CategoryTable: seq<Header> := [
    Header("BED CHARGES-WARD", "BED_CHARGES"),
    Header("DIET CHARGES", "DIET_CHARGES"),
    Header("DRUG CHARGES", "DRUG_CHARGES"),
    Header("NURSING SERVICE-WARD", "NURSING_SERVICE"),
    Header("PROFESSIONAL CHARGES", "PROFESSIONAL_CHARGES"),
    Header("TREATMENT", "TREATMENT"),
    Header("X RAY CHARGES", "XRAY_CHARGES"),
    Header("BED CHARGES-ICU", "ICU_CHARGES"),
    Header("DRESSING CHARGES", "DRESSING_CHARGES"),
    Header("HISTOPATHOLOGY", "HISTOPATHOLOGY"),
    Header("NURSING SERVICE-ICU", "NURSING_SERVICE_ICU"),
    Header("OPERATION THEATRE", "OPERATION_THEATRE"),
    Header("OT CONSUMABLES", "OT_CONSUMABLES"),
    Header("CLINICAL PATHOLOGY", "CLINICAL_PATHOLOGY"),
    Header("MICROBIOLOGY", "MICROBIOLOGY"),
    Header("ULTRASOUND", "ULTRASOUND")
  ]

  const Uncategorized: string := "UNCATEGORIZED"

  datatype BillItem = BillItem(
    chargeDate: string,
    billedText: string,
    billedEntity: string,
    billedAmount: real,
    billPage: nat,
    category: string)

  /** The parser's state part way through a page: the items emitted so far,
      the header in force (carried on to the next page), and whether the
      section-end line has been passed, after which the page's remaining
      lines are skipped. */
  datatype PageScan = PageScan(items: seq<BillItem>, after: Option<Header>, ended: bool)

  /** The parser's state part way through a document. */
  datatype DocScan = DocScan(items: seq<BillItem>, after: Option<Header>)

  // ---------------------------------------------------------------------
  // Line classification
  // ---------------------------------------------------------------------

  /** line.startswith(key) or f") {key}" in line */
  predicate MentionsHeader(line: string, key: string) {
    StartsWith(line, key) || Contains(line, ") " + key)
  }

  /** Index of the first entry of table, from index k on, that the line
      mentions. */
  function FindHeaderFrom(line: string, table: seq<Header>, k: nat): (r: Option<nat>)
    requires k <= |table|
    ensures r.Some? ==> k <= r.value < |table|
    decreases |table| - k
  {
    if k == |table| then None
    else if MentionsHeader(line, table[k].entity) then Some(k)
    else FindHeaderFrom(line, table, k + 1)
  }

  /** The search from k finds the first entry from k on that the line
      mentions, and finds nothing only when it mentions none of them. */
  lemma {:induction false} FindHeaderFromIsFirst(line: string, table: seq<Header>, k: nat)
    requires k <= |table|
    ensures FindHeaderFrom(line, table, k).Some? ==>
      && MentionsHeader(line, table[FindHeaderFrom(line, table, k).value].entity)
      && forall j :: k <= j < FindHeaderFrom(line, table, k).value ==> !MentionsHeader(line, table[j].entity)
    ensures FindHeaderFrom(line, table, k).None? ==>
      forall j :: k <= j < |table| ==> !MentionsHeader(line, table[j].entity)
    decreases |table| - k
  {
    if k < |table| && !MentionsHeader(line, table[k].entity) {
      FindHeaderFromIsFirst(line, table, k + 1);
    }
  }

  /** The header a line announces: the first table key, in table order, that
      the line starts with or contains after ") ". */
  function FindHeader(line: string): Option<Header> {
    match FindHeaderFrom(line, CategoryTable, 0)
    case Some(k) => Some(CategoryTable[k])
    case None => None
  }

  /** A line announces a header exactly when it mentions some table key, and
      then it announces the first key it mentions. */
  lemma FindHeaderIsFirst(line: string)
    ensures FindHeader(line).None? <==>
      forall j :: 0 <= j < |CategoryTable| ==> !MentionsHeader(line, CategoryTable[j].entity)
    ensures FindHeader(line).Some? ==> exists k ::
      && 0 <= k < |CategoryTable| && FindHeader(line) == Some(CategoryTable[k])
      && MentionsHeader(line, CategoryTable[k].entity)
      && forall j :: 0 <= j < k ==> !MentionsHeader(line, CategoryTable[j].entity)
  {
    FindHeaderFromIsFirst(line, CategoryTable, 0);
  }

  /** re.match(r'\d{2}-\d{2}-\d{4}', line) */
  predicate StartsWithDate(line: string) {
    && |line| >= 10
    && IsDigit(line[0]) && IsDigit(line[1]) && line[2] == '-'
    && IsDigit(line[3]) && IsDigit(line[4]) && line[5] == '-'
    && IsDigit(line[6]) && IsDigit(line[7]) && IsDigit(line[8]) && IsDigit(line[9])
  }

  function DigitChar(d: nat): char
    requires d < 10
  {
    ('0' as int + d) as char
  }

  /** f"{k})" */
  function NumberMarker(k: nat): string
    requires 1 <= k < 20
  {
    if k < 10 then [DigitChar(k), ')'] else ['1', DigitChar(k - 10), ')']
  }

  /** any(line.startswith(f"{k})") for k in range(k, 20)) */
  predicate StartsWithMarkerFrom(line: string, k: nat)
    requires 1 <= k
    decreases 20 - k
  {
    k < 20 && (StartsWith(line, NumberMarker(k)) || StartsWithMarkerFrom(line, k + 1))
  }

  /** The line ends the itemised section (Combov1.py:244). */
  predicate IsSectionEnd(line: string) {
    StartsWith(line, "Concession Details") || StartsWith(line, "Total Bill Amount")
  }

  /** A following line at which the look-ahead join stops (Combov1.py:191-197). */
  predicate StopsJoin(line: string) {
    || StartsWithDate(line)
    || StartsWith(line, "Run Date")
    || StartsWith(line, "***")
    || StartsWithMarkerFrom(line, 1)
    || IsSectionEnd(line)
  }

  /** A following line the join takes in (Combov1.py:198). */
  predicate KeptInJoin(line: string) {
    line != [] && !StartsWith(line, "Patient Name")
  }

  // ---------------------------------------------------------------------
  // Item assembly
  // ---------------------------------------------------------------------

  /** Indices of the lines from j up to (not including) limit that the
      look-ahead joins to an item line. */
  function JoinIndices(lines: seq<string>, j: nat, limit: nat): (idx: seq<nat>)
    ensures forall q :: 0 <= q < |idx| ==> j <= idx[q] < limit && idx[q] < |lines|
    ensures j <= limit ==> |idx| <= limit - j
    decreases limit - j
  {
    if j >= limit || j >= |lines| then []
    else if StopsJoin(Strip(lines[j])) then []
    else if KeptInJoin(Strip(lines[j])) then [j] + JoinIndices(lines, j + 1, limit)
    else JoinIndices(lines, j + 1, limit)
  }

  /** No line from j through m stops the join. */
  predicate NoStopThrough(lines: seq<string>, j: nat, m: nat)
    requires m < |lines|
  {
    forall t :: j <= t <= m ==> !StopsJoin(Strip(lines[t]))
  }

  /** Line m is joined exactly when no line from j through m stops the join
      and line m is neither blank nor a patient-name line. */
  lemma {:induction false} JoinIndicesIff(lines: seq<string>, j: nat, limit: nat, m: nat)
    requires j <= m < limit && m < |lines|
    ensures m in JoinIndices(lines, j, limit) <==> NoStopThrough(lines, j, m) && KeptInJoin(Strip(lines[m]))
    decreases limit - j
  {
    if StopsJoin(Strip(lines[j])) {
      assert !NoStopThrough(lines, j, m);
    } else if j < m {
      JoinIndicesIff(lines, j + 1, limit, m);
      assert NoStopThrough(lines, j, m) <==> NoStopThrough(lines, j + 1, m);
    }
  }

  /** The stripped lines the look-ahead joins from line j on, up to (not
      including) limit. */
  function JoinFrom(lines: seq<string>, j: nat, limit: nat): (parts: seq<string>)
    ensures j <= limit ==> |parts| <= limit - j
    decreases limit - j
  {
    if j >= limit || j >= |lines| then []
    else if StopsJoin(Strip(lines[j])) then []
    else if KeptInJoin(Strip(lines[j])) then [Strip(lines[j])] + JoinFrom(lines, j + 1, limit)
    else JoinFrom(lines, j + 1, limit)
  }

  /** The joined lines are, in order, the stripped lines at the indices
      JoinIndices picks out. */
  lemma {:induction false} JoinFromIndices(lines: seq<string>, j: nat, limit: nat)
    ensures var idx := JoinIndices(lines, j, limit);
      && |JoinFrom(lines, j, limit)| == |idx|
      && forall q :: 0 <= q < |idx| ==> JoinFrom(lines, j, limit)[q] == Strip(lines[idx[q]])
    decreases limit - j
  {
    if j < limit && j < |lines| && !StopsJoin(Strip(lines[j])) {
      JoinFromIndices(lines, j + 1, limit);
      var rest, later := JoinFrom(lines, j + 1, limit), JoinIndices(lines, j + 1, limit);
      if KeptInJoin(Strip(lines[j])) {
        assert JoinFrom(lines, j, limit) == [Strip(lines[j])] + rest;
        assert JoinIndices(lines, j, limit) == [j] + later;
        forall q | 0 < q <= |later|
          ensures ([Strip(lines[j])] + rest)[q] == Strip(lines[([j] + later)[q]])
        {
          assert ([j] + later)[q] == later[q - 1];
        }
      } else {
        assert JoinFrom(lines, j, limit) == rest;
        assert JoinIndices(lines, j, limit) == later;
      }
    }
  }

  /** One step of the join at line j. */
  lemma JoinFromAt(lines: seq<string>, j: nat, limit: nat)
    requires j < limit && j < |lines|
    ensures StopsJoin(Strip(lines[j])) ==> JoinFrom(lines, j, limit) == []
    ensures !StopsJoin(Strip(lines[j])) && KeptInJoin(Strip(lines[j])) ==>
              JoinFrom(lines, j, limit) == [Strip(lines[j])] + JoinFrom(lines, j + 1, limit)
    ensures !StopsJoin(Strip(lines[j])) && !KeptInJoin(Strip(lines[j])) ==>
              JoinFrom(lines, j, limit) == JoinFrom(lines, j + 1, limit)
  {
  }

  /** item_parts: the stripped item line followed by the lines the
      look-ahead joins from the next four (Combov1.py:187-200). */
  function JoinedParts(lines: seq<string>, i: nat): seq<string>
    requires i < |lines|
  {
    [Strip(lines[i])] + JoinFrom(lines, i + 1, i + 5)
  }

  /** The joined parts start with the item line itself and take in at most
      four more lines. */
  lemma JoinedPartsShape(lines: seq<string>, i: nat)
    requires i < |lines|
    ensures var parts := JoinedParts(lines, i);
      1 <= |parts| <= 5 && parts[0] == Strip(lines[i])
  {
  }

  /** complete_text */
  function JoinedText(lines: seq<string>, i: nat): string
    requires i < |lines|
  {
    Join(JoinedParts(lines, i), " ")
  }

  /** date_part.split()[0] if ' ' in date_part else date_part */
  function ChargeDate(line: string): string {
    if Contains(line, " ") then FirstWord(line) else line
  }

  /** The charge date of an item line still begins with its date. */
  lemma ChargeDateKeepsDate(line: string)
    requires StartsWithDate(line)
    ensures StartsWithDate(ChargeDate(line))
  {
    assert !IsSpace(line[0]);
    assert TrimStart(line) == line;
    var w := TakeWord(line);
    assert forall k :: 0 <= k < 10 ==> !IsSpace(line[k]);
    assert |w| >= 10;
    assert w[..10] == line[..10];
  }

  /** billed_text: the joined text, or, when it holds two or more amounts,
      what precedes the last occurrence of the second amount, stripped
      (Combov1.py:223-227). */
  function BilledText(text: string): string {
    var ms := FindAmounts(text);
    if |ms| > 1 then Strip(RSplitHead(text, Literal(text, ms[1]))) else text
  }

  /** Cutting a text that starts with a non-blank at the last occurrence of
      sep and stripping leaves a prefix of the text that ends in a non-blank,
      followed in the text by blanks only and then that last occurrence. */
  lemma StrippedHeadIsPrefix(text: string, sep: string)
    requires text != [] && !IsSpace(text[0]) && Contains(text, sep)
    ensures var b := Strip(RSplitHead(text, sep));
      && StartsWith(text, b)
      && (b == [] || !IsSpace(b[|b| - 1]))
      && (exists k: nat :: |b| <= k && OccursAt(text, sep, k)
            && (forall j: nat :: k < j ==> !OccursAt(text, sep, j))
            && (forall t :: |b| <= t < k ==> IsSpace(text[t])))
  {
    var head := RSplitHead(text, sep);
    RSplitHeadFacts(text, sep);
    if head != [] {
      assert head[0] == text[0];
    }
    StripKeepsPrefix(head);
    StripIdempotent(head);
    var b := Strip(head);
    assert b == text[..|b|];
    var k := |head|;
    assert forall t :: |b| <= t < k ==> IsSpace(text[t]) by {
      forall t | |b| <= t < k ensures IsSpace(text[t]) {
        assert text[t] == head[t];
      }
    }
  }

  /** The billed text is always a prefix of the joined text; with one amount
      it is the whole text, and with two or more it ends in a non-blank and
      the cut falls before the last occurrence of the second amount, only
      blanks lying in between: so it is exactly the text before that
      occurrence with the trailing blanks removed. */
  lemma BilledTextIsPrefix(text: string)
    requires text != [] && !IsSpace(text[0])
    ensures StartsWith(text, BilledText(text))
    ensures |FindAmounts(text)| <= 1 ==> BilledText(text) == text
    ensures |FindAmounts(text)| > 1 ==>
      var lit := Literal(text, FindAmounts(text)[1]);
      var b := BilledText(text);
      && (b == [] || !IsSpace(b[|b| - 1]))
      && exists k: nat :: |b| <= k && OccursAt(text, lit, k)
           && (forall j: nat :: k < j ==> !OccursAt(text, lit, j))
           && (forall t :: |b| <= t < k ==> IsSpace(text[t]))
  {
    var ms := FindAmounts(text);
    if |ms| > 1 {
      var lit := Literal(text, ms[1]);
      assert OccursAt(text, lit, ms[1].start);
      StrippedHeadIsPrefix(text, lit);
    }
  }

  function EntityOf(cur: Option<Header>): string {
    match cur
    case Some(h) => h.entity
    case None => Uncategorized
  }

  function CategoryOf(cur: Option<Header>): string {
    match cur
    case Some(h) => h.category
    case None => Uncategorized
  }

  /** The item assembled from a stripped item line and its joined text, if
      the text holds an amount (Combov1.py:203-238). Both branches at
      Combov1.py:211-217 take the first amount. */
  function ItemFromText(line: string, text: string, page: nat, cur: Option<Header>): Option<BillItem> {
    var ms := FindAmounts(text);
    if ms == [] then None
    else
      Some(BillItem(
        chargeDate := ChargeDate(line),
        billedText := BilledText(text),
        billedEntity := EntityOf(cur),
        billedAmount := AmountValue(Literal(text, ms[0])),
        billPage := page,
        category := CategoryOf(cur)))
  }

  /** An item is assembled exactly when the text holds an amount. Its
      amount is the first amount in the text, its date still begins with the
      item line's date, its billed text is a prefix of the joined text, and it
      carries the page and the header in force. */
  lemma ItemFromTextFacts(line: string, text: string, page: nat, cur: Option<Header>)
    requires StartsWithDate(line) && StartsWith(text, line)
    ensures var r := ItemFromText(line, text, page, cur);
      && (r.Some? <==> FindAmounts(text) != [])
      && (r.Some? ==> r.value.billedAmount == AmountValue(Literal(text, FindAmounts(text)[0])))
      && (r.Some? ==> r.value.billedAmount >= 0.0)
      && (r.Some? ==> StartsWithDate(r.value.chargeDate))
      && (r.Some? ==> StartsWith(text, r.value.billedText))
      && (r.Some? ==> r.value.billPage == page)
      && (r.Some? ==> r.value.billedEntity == EntityOf(cur) && r.value.category == CategoryOf(cur))
  {
    if FindAmounts(text) != [] {
      ChargeDateKeepsDate(line);
      BilledTextIsPrefix(text);
    }
  }

  /** The item, if any, that line i of a page yields under header cur. */
  function ItemAt(lines: seq<string>, i: nat, page: nat, cur: Option<Header>): Option<BillItem>
    requires i < |lines|
  {
    var line := Strip(lines[i]);
    if StartsWithDate(line) then ItemFromText(line, JoinedText(lines, i), page, cur) else None
  }

  function AsSeq(o: Option<BillItem>): seq<BillItem> {
    match o
    case Some(it) => [it]
    case None => []
  }

  // ---------------------------------------------------------------------
  // The scan, without the per-category buffer
  // ---------------------------------------------------------------------

  /** The item with the header in force stamped on it. */
  function Stamp(o: Option<BillItem>, cur: Option<Header>): Option<BillItem> {
    match o
    case Some(it) => Some(it.(billedEntity := EntityOf(cur), category := CategoryOf(cur)))
    case None => None
  }

  /** Stamping replaces whatever header the item was assembled under. */
  lemma StampReplacesHeader(line: string, text: string, page: nat, cur: Option<Header>, other: Option<Header>)
    ensures Stamp(ItemFromText(line, text, page, other), cur) == ItemFromText(line, text, page, cur)
  {
  }

  /** What one line contributes, apart from the header it is stamped with:
      the header it announces, the item it starts (assembled unstamped) and
      whether it ends the itemised section. */
  datatype LineInfo = LineInfo(header: Option<Header>, item: Option<BillItem>, sectionEnd: bool)

  function ClassifyLine(lines: seq<string>, i: nat, page: nat): LineInfo
    requires i < |lines|
  {
    var line := Strip(lines[i]);
    LineInfo(FindHeader(line), ItemAt(lines, i, page, None), IsSectionEnd(line))
  }

  /** Every line of a page, classified. */
  function ClassifyPage(lines: seq<string>, page: nat): (infos: seq<LineInfo>)
    ensures |infos| == |lines|
    ensures forall i :: 0 <= i < |lines| ==> infos[i] == ClassifyLine(lines, i, page)
  {
    ClassifyUpTo(lines, |lines|, page)
  }

  /** The first n lines of a page, classified. */
  function ClassifyUpTo(lines: seq<string>, n: nat, page: nat): (infos: seq<LineInfo>)
    requires n <= |lines|
    ensures |infos| == n
    ensures forall i :: 0 <= i < n ==> infos[i] == ClassifyLine(lines, i, page)
  {
    if n == 0 then [] else ClassifyUpTo(lines, n - 1, page) + [ClassifyLine(lines, n - 1, page)]
  }

  /** A line looked at in the state prev: the header is updated first, the
      item (if any) is stamped with the updated header, and a section-end
      line ends the page. */
  function LineStep(info: LineInfo, prev: PageScan): PageScan {
    var cur := if info.header.Some? then info.header else prev.after;
    PageScan(prev.items + AsSeq(Stamp(info.item, cur)), cur, info.sectionEnd)
  }

  /** The state after the first n lines of a page, starting under header
      start. */
  function ScanLines(infos: seq<LineInfo>, n: nat, start: Option<Header>): PageScan
    requires n <= |infos|
  {
    if n == 0 then PageScan([], start, false)
    else
      var prev := ScanLines(infos, n - 1, start);
      if prev.ended then prev else LineStep(infos[n - 1], prev)
  }

  /** The whole of one page. */
  function ScanPage(lines: seq<string>, page: nat, start: Option<Header>): PageScan {
    var infos := ClassifyPage(lines, page);
    ScanLines(infos, |infos|, start)
  }

  /** The state after the first n pages; the header carries over pages and
      page k (from 1) stamps its items with k. */
  function ScanPages(pages: seq<seq<string>>, n: nat): DocScan
    requires n <= |pages|
  {
    if n == 0 then DocScan([], None)
    else
      var prev := ScanPages(pages, n - 1);
      var scan := ScanPage(pages[n - 1], n, prev.after);
      DocScan(prev.items + scan.items, scan.after)
  }

  /** Every item the parser returns for a document. */
  function BillItemsOf(pages: seq<seq<string>>): seq<BillItem> {
    ScanPages(pages, |pages|).items
  }

  /** Looking at one more line is one more step of the scan. */
  lemma ScanOfAppend(seen: seq<LineInfo>, info: LineInfo, start: Option<Header>)
    requires !ScanLines(seen, |seen|, start).ended
    ensures ScanLines(seen + [info], |seen| + 1, start) == LineStep(info, ScanLines(seen, |seen|, start))
  {
    ScanOfPrefixEq(seen, seen + [info], |seen|, start);
  }

  /** Two classifications that agree on their first n lines scan alike up
      to there. */
  lemma {:induction false} ScanOfPrefixEq(a: seq<LineInfo>, b: seq<LineInfo>, n: nat, start: Option<Header>)
    requires n <= |a| && n <= |b| && a[..n] == b[..n]
    ensures ScanLines(a, n, start) == ScanLines(b, n, start)
  {
    if n > 0 {
      assert a[..n - 1] == a[..n][..n - 1] && b[..n - 1] == b[..n][..n - 1];
      ScanOfPrefixEq(a, b, n - 1, start);
      assert a[n - 1] == a[..n][n - 1];
      assert b[n - 1] == b[..n][n - 1];
    }
  }

  /** Once the section end has been passed, the remaining lines of the page
      change nothing. */
  lemma {:induction false} EndedIsFinal(infos: seq<LineInfo>, m: nat, n: nat, start: Option<Header>)
    requires m <= n <= |infos|
    requires ScanLines(infos, m, start).ended
    ensures ScanLines(infos, n, start) == ScanLines(infos, m, start)
    decreases n - m
  {
    if m < n {
      EndedIsFinal(infos, m, n - 1, start);
    }
  }

  /** The header of the most recent header line among the first n lines,
      or start when there is none. */
  function LastHeader(infos: seq<LineInfo>, n: nat, start: Option<Header>): Option<Header>
    requires n <= |infos|
  {
    if n == 0 then start
    else if infos[n - 1].header.Some? then infos[n - 1].header
    else LastHeader(infos, n - 1, start)
  }

  /** The items of the first n lines, each stamped with the header of the
      most recent header line up to and including its own line. */
  function StampedUpTo(infos: seq<LineInfo>, n: nat, start: Option<Header>): seq<BillItem>
    requires n <= |infos|
  {
    if n == 0 then []
    else StampedUpTo(infos, n - 1, start) + AsSeq(Stamp(infos[n - 1].item, LastHeader(infos, n, start)))
  }

  /** Before the section end, the scan has emitted the items of every line
      looked at, each stamped with the most recent header, and the most
      recent header is in force. */
  lemma {:induction false} ScanBeforeEnd(infos: seq<LineInfo>, n: nat, start: Option<Header>)
    requires n <= |infos|
    requires forall k :: 0 <= k < n ==> !infos[k].sectionEnd
    ensures ScanLines(infos, n, start) == PageScan(StampedUpTo(infos, n, start), LastHeader(infos, n, start), false)
  {
    if n > 0 {
      ScanBeforeEnd(infos, n - 1, start);
    }
  }

  /** Once line m ends the section, the page yields the items of lines 0..m,
      each stamped with the most recent header, and nothing from the lines
      after it. */
  lemma ScanAtEnd(infos: seq<LineInfo>, m: nat, n: nat, start: Option<Header>)
    requires m < n <= |infos|
    requires infos[m].sectionEnd && forall k :: 0 <= k < m ==> !infos[k].sectionEnd
    ensures ScanLines(infos, n, start) == PageScan(StampedUpTo(infos, m + 1, start), LastHeader(infos, m + 1, start), true)
  {
    ScanBeforeEnd(infos, m, start);
    EndedIsFinal(infos, m + 1, n, start);
  }

  // ---------------------------------------------------------------------
  // What every emitted item looks like
  // ---------------------------------------------------------------------

  /** No header, or one from the table. */
  predicate HeaderOk(cur: Option<Header>) {
    cur.None? || cur.value in CategoryTable
  }

  /** An item as the parser emits it: a non-negative amount, a charge date
      that begins DD-MM-YYYY, and an entity and category that are a label
      and its code from the table, or both UNCATEGORIZED. */
  predicate ItemOk(it: BillItem) {
    && it.billedAmount >= 0.0
    && StartsWithDate(it.chargeDate)
    && (Header(it.billedEntity, it.category) in CategoryTable
        || (it.billedEntity == Uncategorized && it.category == Uncategorized))
  }

  /** A classified line of page `page`: a header from the table, and an
      unstamped item with the page number, a non-negative amount and a
      dated charge date. */
  predicate InfoOk(info: LineInfo, page: nat) {
    && HeaderOk(info.header)
    && (info.item.Some? ==>
          && info.item.value.billPage == page
          && info.item.value.billedAmount >= 0.0
          && StartsWithDate(info.item.value.chargeDate))
  }

  lemma ClassifyLineOk(lines: seq<string>, i: nat, page: nat)
    requires i < |lines|
    ensures InfoOk(ClassifyLine(lines, i, page), page)
  {
    var line := Strip(lines[i]);
    var m := FindHeaderFrom(line, CategoryTable, 0);
    if m.Some? {
      assert FindHeader(line).value == CategoryTable[m.value];
    }
    if StartsWithDate(line) {
      var parts := JoinedParts(lines, i);
      JoinedPartsShape(lines, i);
      JoinStartsWithFirst(parts, " ");
      ItemFromTextFacts(line, JoinedText(lines, i), page, None);
    }
  }

  /** Every item a scan of well-classified lines emits is well formed and
      carries the page number, and the header in force stays one from the
      table. */
  lemma {:induction false} ScanLinesOk(infos: seq<LineInfo>, n: nat, page: nat, start: Option<Header>)
    requires n <= |infos| && HeaderOk(start)
    requires forall k :: 0 <= k < |infos| ==> InfoOk(infos[k], page)
    ensures HeaderOk(ScanLines(infos, n, start).after)
    ensures forall it :: it in ScanLines(infos, n, start).items ==> ItemOk(it) && it.billPage == page
  {
    if n > 0 {
      ScanLinesOk(infos, n - 1, page, start);
      var prev := ScanLines(infos, n - 1, start);
      if !prev.ended {
        var info := infos[n - 1];
        assert InfoOk(info, page);
        var cur := if info.header.Some? then info.header else prev.after;
        var next := LineStep(info, prev);
        assert next.items == prev.items + AsSeq(Stamp(info.item, cur));
        forall it | it in next.items ensures ItemOk(it) && it.billPage == page {
          if it !in prev.items {
            assert it == info.item.value.(billedEntity := EntityOf(cur), category := CategoryOf(cur));
          }
        }
      }
    }
  }

  /** Every item of a page is well formed and carries that page's number. */
  lemma ScanPageOk(lines: seq<string>, page: nat, start: Option<Header>)
    requires HeaderOk(start)
    ensures HeaderOk(ScanPage(lines, page, start).after)
    ensures forall it :: it in ScanPage(lines, page, start).items ==> ItemOk(it) && it.billPage == page
  {
    var infos := ClassifyPage(lines, page);
    forall k | 0 <= k < |infos| ensures InfoOk(infos[k], page) {
      ClassifyLineOk(lines, k, page);
    }
    ScanLinesOk(infos, |infos|, page, start);
  }

  /** After n pages every item is well formed and its page number lies in
      1..n. */
  lemma {:induction false} ScanPagesOk(pages: seq<seq<string>>, n: nat)
    requires n <= |pages|
    ensures HeaderOk(ScanPages(pages, n).after)
    ensures forall it :: it in ScanPages(pages, n).items ==> ItemOk(it) && 1 <= it.billPage <= n
  {
    if n > 0 {
      ScanPagesOk(pages, n - 1);
      var prev := ScanPages(pages, n - 1);
      ScanPageOk(pages[n - 1], n, prev.after);
    }
  }

  /** Every item a scan emits carries the page number its line had. */
  lemma {:induction false} ScanLinesPage(infos: seq<LineInfo>, n: nat, page: nat, start: Option<Header>)
    requires n <= |infos|
    requires forall k :: 0 <= k < |infos| && infos[k].item.Some? ==> infos[k].item.value.billPage == page
    ensures forall it :: it in ScanLines(infos, n, start).items ==> it.billPage == page
  {
    if n > 0 {
      ScanLinesPage(infos, n - 1, page, start);
      var prev := ScanLines(infos, n - 1, start);
      if !prev.ended {
        var info := infos[n - 1];
        var cur := if info.header.Some? then info.header else prev.after;
        assert ScanLines(infos, n, start).items == prev.items + AsSeq(Stamp(info.item, cur));
      }
    }
  }

  /** Every item of a page carries that page's number. */
  lemma ScanPagePage(lines: seq<string>, page: nat, start: Option<Header>)
    ensures forall it :: it in ScanPage(lines, page, start).items ==> it.billPage == page
  {
    var infos := ClassifyPage(lines, page);
    forall k | 0 <= k < |infos| && infos[k].item.Some? ensures infos[k].item.value.billPage == page {
      ClassifyLineOk(lines, k, page);
    }
    ScanLinesPage(infos, |infos|, page, start);
  }

  /** After n pages every item's page number lies in 1..n. */
  lemma {:induction false} ScanPagesPage(pages: seq<seq<string>>, n: nat)
    requires n <= |pages|
    ensures forall it :: it in ScanPages(pages, n).items ==> 1 <= it.billPage <= n
  {
    if n > 0 {
      ScanPagesPage(pages, n - 1);
      ScanPagePage(pages[n - 1], n, ScanPages(pages, n - 1).after);
    }
  }

  /** Items on pages up to n - 1 in page order, followed by items on page n,
      are in page order. */
  lemma AppendPageOrdered(prev: seq<BillItem>, scan: seq<BillItem>, n: nat)
    requires forall a, b :: 0 <= a < b < |prev| ==> prev[a].billPage <= prev[b].billPage
    requires forall it :: it in prev ==> it.billPage <= n
    requires forall it :: it in scan ==> it.billPage == n
    ensures forall a, b :: 0 <= a < b < |prev + scan| ==> (prev + scan)[a].billPage <= (prev + scan)[b].billPage
  {
    var items := prev + scan;
    forall a, b | 0 <= a < b < |items| ensures items[a].billPage <= items[b].billPage {
      if b < |prev| {
        assert items[a] == prev[a] && items[b] == prev[b];
      } else if a < |prev| {
        assert items[a] in prev;
        assert items[b] in scan;
      } else {
        assert items[a] in scan;
        assert items[b] in scan;
      }
    }
  }

  /** The items come in page order. */
  lemma {:induction false} ScanPagesOrdered(pages: seq<seq<string>>, n: nat)
    requires n <= |pages|
    ensures forall a, b :: 0 <= a < b < |ScanPages(pages, n).items| ==>
      ScanPages(pages, n).items[a].billPage <= ScanPages(pages, n).items[b].billPage
  {
    if n > 0 {
      ScanPagesOrdered(pages, n - 1);
      ScanPagesPage(pages, n - 1);
      var prev := ScanPages(pages, n - 1);
      var scan := ScanPage(pages[n - 1], n, prev.after);
      ScanPagePage(pages[n - 1], n, prev.after);
      AppendPageOrdered(prev.items, scan.items, n);
    }
  }

  /** The items of a whole document: each well formed, on a page of the
      document, in page order. */
  lemma BillItemsOk(pages: seq<seq<string>>)
    ensures forall it :: it in BillItemsOf(pages) ==> ItemOk(it) && 1 <= it.billPage <= |pages|
    ensures forall a, b :: 0 <= a < b < |BillItemsOf(pages)| ==>
      BillItemsOf(pages)[a].billPage <= BillItemsOf(pages)[b].billPage
  {
    ScanPagesOk(pages, |pages|);
    ScanPagesOrdered(pages, |pages|);
  }

  // ---------------------------------------------------------------------
  // The parser as the source runs it
  // ---------------------------------------------------------------------

  /** The category-table loop of Combov1.py:168-177. */
  method MatchHeader(line: string) returns (found: Option<Header>)
    ensures found == FindHeader(line)
  {
    found := None;
    var k := 0;
    while k < |CategoryTable|
      invariant k <= |CategoryTable|
      invariant FindHeaderFrom(line, CategoryTable, 0) == FindHeaderFrom(line, CategoryTable, k)
    {
      if MentionsHeader(line, CategoryTable[k].entity) {
        found := Some(CategoryTable[k]);
        return;
      }
      k := k + 1;
    }
  }

  /** The look-ahead loop of Combov1.py:187-200. */
  method LookAhead(lines: seq<string>, i: nat) returns (parts: seq<string>)
    requires i < |lines|
    ensures parts == JoinedParts(lines, i)
  {
    parts := [Strip(lines[i])];
    var j := i + 1;
    while j < |lines| && j < i + 5
      invariant i + 1 <= j <= i + 5
      invariant parts + JoinFrom(lines, j, i + 5) == JoinedParts(lines, i)
    {
      var next := Strip(lines[j]);
      JoinFromAt(lines, j, i + 5);
      if StopsJoin(next) {
        return;
      }
      if KeptInJoin(next) {
        assert (parts + [next]) + JoinFrom(lines, j + 1, i + 5) == parts + ([next] + JoinFrom(lines, j + 1, i + 5));
        parts := parts + [next];
      }
      j := j + 1;
    }
    assert JoinFrom(lines, j, i + 5) == [];
  }

  /** seen holds the classifications of the first |seen| lines. */
  predicate ClassifiedPrefix(lines: seq<string>, page: nat, seen: seq<LineInfo>) {
    && |seen| <= |lines|
    && forall k {:trigger ClassifyLine(lines, k, page)} :: 0 <= k < |seen| ==> seen[k] == ClassifyLine(lines, k, page)
  }

  /** What the body of the line loop of Combov1.py:160-250 reads off line i:
      the header it announces (Combov1.py:168-177), the item it starts,
      stamped with the header then in force (Combov1.py:180-238), and whether
      it ends the itemised section (Combov1.py:244). The outputs are fixed by
      ClassifyLine(lines, i, page), which the ghost info names. */
  method ReadLine(lines: seq<string>, i: nat, page: nat, current: Option<Header>, ghost seen: seq<LineInfo>)
    returns (found: Option<Header>, item: Option<BillItem>, isEnd: bool, ghost info: LineInfo)
    requires i < |lines| && |seen| == i && ClassifiedPrefix(lines, page, seen)
    ensures ClassifiedPrefix(lines, page, seen + [info])
    ensures found == info.header && isEnd == info.sectionEnd
    ensures item == Stamp(info.item, if found.Some? then found else current)
  {
    info := ClassifyLine(lines, i, page);
    var line := Strip(lines[i]);
    found := MatchHeader(line);
    var cur := if found.Some? then found else current;
    item := None;
    if StartsWithDate(line) {
      var parts := LookAhead(lines, i);
      item := ItemFromText(line, Join(parts, " "), page, cur);
      StampReplacesHeader(line, Join(parts, " "), page, cur, None);
    }
    isEnd := IsSectionEnd(line);
  }

  /** Moves the buffered items of the current category to the output
      (Combov1.py:173-175, 245-247, 253-255). */
  method Flush(billItems: seq<BillItem>, categoryItems: seq<BillItem>)
    returns (billItems': seq<BillItem>, categoryItems': seq<BillItem>)
    ensures billItems' == billItems + categoryItems && categoryItems' == []
  {
    billItems', categoryItems' := billItems, categoryItems;
    if categoryItems' != [] {
      billItems' := billItems' + categoryItems';
      categoryItems' := [];
    }
  }

  /** The scan only depends on the lines it has looked at. */
  lemma ScanOfPrefix(lines: seq<string>, page: nat, seen: seq<LineInfo>, start: Option<Header>)
    requires ClassifiedPrefix(lines, page, seen)
    ensures ScanLines(ClassifyPage(lines, page), |seen|, start) == ScanLines(seen, |seen|, start)
  {
    var infos := ClassifyPage(lines, page);
    forall k | 0 <= k < |seen| ensures infos[k] == seen[k] {
      assert seen[k] == ClassifyLine(lines, k, page);
    }
    assert infos[..|seen|] == seen[..|seen|];
    ScanOfPrefixEq(infos, seen, |seen|, start);
  }

  /** A scan that has looked at every line, or has passed the section end,
      is the scan of the whole page. */
  lemma PageScanOfSeen(lines: seq<string>, page: nat, seen: seq<LineInfo>, start: Option<Header>)
    requires ClassifiedPrefix(lines, page, seen)
    requires |seen| == |lines| || ScanLines(seen, |seen|, start).ended
    ensures ScanPage(lines, page, start) == ScanLines(seen, |seen|, start)
  {
    ScanOfPrefix(lines, page, seen, start);
    if |seen| < |lines| {
      EndedIsFinal(ClassifyPage(lines, page), |seen|, |lines|, start);
    }
  }

  /** One pass of the page loop keeps the loop's account: what the output
      and the buffer hold together is what the scan of the lines read so far
      has emitted. */
  lemma ScanStep(seen: seq<LineInfo>, info: LineInfo, start: Option<Header>, st: PageScan,
                 billItems: seq<BillItem>, emitted: seq<BillItem>, emitted': seq<BillItem>, item: Option<BillItem>)
    requires st == ScanLines(seen, |seen|, start) && !st.ended
    requires emitted == billItems + st.items
    requires item == Stamp(info.item, if info.header.Some? then info.header else st.after)
    requires emitted' == emitted + AsSeq(item)
    ensures LineStep(info, st) == ScanLines(seen + [info], |seen + [info]|, start)
    ensures emitted' == billItems + LineStep(info, st).items
  {
    ScanOfAppend(seen, info, start);
  }

  /** One line's effect on the buffers: a header flushes the category
      buffer (Combov1.py:171-174), and an item joins it (Combov1.py:238).
      Together the output and the buffer only grow by the line's item. */
  method Buffer(billItems: seq<BillItem>, categoryItems: seq<BillItem>, flush: bool, item: Option<BillItem>)
    returns (billItems': seq<BillItem>, categoryItems': seq<BillItem>)
    ensures billItems' + categoryItems' == billItems + categoryItems + AsSeq(item)
    ensures billItems' == if flush then billItems + categoryItems else billItems
  {
    billItems', categoryItems' := billItems, categoryItems;
    if flush {
      billItems', categoryItems' := Flush(billItems', categoryItems');
    }
    if item.Some? {
      categoryItems' := categoryItems' + [item.value];
    }
  }

  /** The page loop of Combov1.py:158-256 for one page: items wait in a
      per-category buffer that is flushed into the output when a header is
      found, at the section end and at the end of the page. The buffer
      neither loses nor reorders items. */
  method ScanPageLines(lines: seq<string>, page: nat, current: Option<Header>, billItems: seq<BillItem>)
    returns (billItems': seq<BillItem>, current': Option<Header>)
    ensures billItems' == billItems + ScanPage(lines, page, current).items
    ensures current' == ScanPage(lines, page, current).after
  {
    ghost var seen: seq<LineInfo> := [];
    ghost var st := PageScan([], current, false);
    billItems', current' := billItems, current;
    var categoryItems: seq<BillItem> := [];
    var i := 0;
    while i < |lines|
      invariant i <= |lines| && |seen| == i
      invariant ClassifiedPrefix(lines, page, seen)
      invariant st == ScanLines(seen, |seen|, current) && !st.ended
      invariant billItems' + categoryItems == billItems + st.items
      invariant current' == st.after
    {
      var found, item, isEnd, info := ReadLine(lines, i, page, current', seen);
      ghost var emitted := billItems' + categoryItems;
      billItems', categoryItems := Buffer(billItems', categoryItems, found.Some?, item);
      if found.Some? {
        current' := found;
      }
      ScanStep(seen, info, current, st, billItems, emitted, billItems' + categoryItems, item);
      seen := seen + [info];
      st := LineStep(info, st);
      if isEnd {
        break;
      }
      i := i + 1;
    }
    billItems', categoryItems := Flush(billItems', categoryItems);
    PageScanOfSeen(lines, page, seen, current);
  }

  /** extract_bill_items_from_pdf (Combov1.py:127-259). */
  method ExtractBillItems(pages: seq<seq<string>>) returns (billItems: seq<BillItem>)
    ensures billItems == BillItemsOf(pages)
  {
    billItems := [];
    var current: Option<Header> := None;
    for p := 0 to |pages|
      invariant DocScan(billItems, current) == ScanPages(pages, p)
    {
      billItems, current := ScanPageLines(pages[p], p + 1, current, billItems);
    }
  }
}
