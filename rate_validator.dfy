/** The rate validator (Combov1.py:789-901): which scheme a payer company
    falls under, and the decision tree that checks one bill line against
    the lookup of that scheme. Money is exact; the source's float tolerance
    of 0.01 becomes an exact comparison. */
module RateValidator {
  import opened Maybe
  import opened Text
  import opened RateSheet

  // ---------------------------------------------------------------------
  // determine_rate_scheme
  // ---------------------------------------------------------------------

  const StandardScheme: string := "STANDARD"
  const CghsScheme: string := "CGHS"

  /** Payer names that put a bill under the CGHS rates, in the order the
      source tries them. */
  const CghsKeywords: seq<string> := ["SOUTHERN RAILWAY", "RAILWAY", "ECHS", "CGHS", "CENTRAL GOVERNMENT",
                                      "DEFENCE", "GOVERNMENT", "RAILWAYS", "EX-SERVICEMEN", "EXSERVICEMEN"]

  /** Some keyword from position k on occurs in the text. */
  predicate MentionsKeywordFrom(text: string, keywords: seq<string>, k: nat)
    requires k <= |keywords|
    decreases |keywords| - k
  {
    k < |keywords| && (Contains(text, keywords[k]) || MentionsKeywordFrom(text, keywords, k + 1))
  }

  lemma {:induction false} MentionsKeywordFromIff(text: string, keywords: seq<string>, k: nat)
    requires k <= |keywords|
    ensures MentionsKeywordFrom(text, keywords, k) <==>
      exists j :: k <= j < |keywords| && Contains(text, keywords[j])
    decreases |keywords| - k
  {
    if k < |keywords| {
      MentionsKeywordFromIff(text, keywords, k + 1);
    }
  }

  /** The scheme for a payer company: CGHS when the upper-cased name
      contains a keyword, STANDARD otherwise (and for an empty name). */
  function DetermineRateScheme(company: string): (r: string)
    ensures r == StandardScheme || r == CghsScheme
  {
    if company == "" then StandardScheme
    else if MentionsKeywordFrom(Upper(company), CghsKeywords, 0) then CghsScheme
    else StandardScheme
  }

  /** The scheme is CGHS exactly when some keyword occurs in the upper-cased
      name, and STANDARD otherwise. */
  lemma SchemeIff(company: string)
    ensures DetermineRateScheme(company) == CghsScheme || DetermineRateScheme(company) == StandardScheme
    ensures DetermineRateScheme(company) == CghsScheme <==>
      exists j :: 0 <= j < |CghsKeywords| && Contains(Upper(company), CghsKeywords[j])
  {
    MentionsKeywordFromIff(Upper(company), CghsKeywords, 0);
    if company == "" {
      forall j | 0 <= j < |CghsKeywords|
        ensures !Contains(Upper(company), CghsKeywords[j])
      {
        assert |CghsKeywords[j]| > 0;
      }
    }
  }

  /** Three keywords only repeat others: SOUTHERN RAILWAY and RAILWAYS hold
      RAILWAY, and CENTRAL GOVERNMENT holds GOVERNMENT. */
  const ReducedKeywords: seq<string> := ["RAILWAY", "ECHS", "CGHS", "DEFENCE", "GOVERNMENT",
                                         "EX-SERVICEMEN", "EXSERVICEMEN"]

  lemma ContainsParts(a: string, b: string)
    ensures Contains(a + b, a) && Contains(a + b, b)
  {
    assert (a + b)[0..|a|] == a;
    assert (a + b)[|a|..|a| + |b|] == b;
    assert OccursAt(a + b, a, 0) && OccursAt(a + b, b, |a|);
  }

  /** A name holding a long keyword holds the short one it contains. */
  lemma RedundantKeywords(u: string)
    ensures Contains(u, "SOUTHERN RAILWAY") ==> Contains(u, "RAILWAY")
    ensures Contains(u, "RAILWAYS") ==> Contains(u, "RAILWAY")
    ensures Contains(u, "CENTRAL GOVERNMENT") ==> Contains(u, "GOVERNMENT")
  {
    ContainsParts("SOUTHERN ", "RAILWAY");
    assert "SOUTHERN " + "RAILWAY" == "SOUTHERN RAILWAY";
    ContainsParts("RAILWAY", "S");
    assert "RAILWAY" + "S" == "RAILWAYS";
    ContainsParts("CENTRAL ", "GOVERNMENT");
    assert "CENTRAL " + "GOVERNMENT" == "CENTRAL GOVERNMENT";
    if Contains(u, "SOUTHERN RAILWAY") {
      ContainsTransitive(u, "SOUTHERN RAILWAY", "RAILWAY");
    }
    if Contains(u, "RAILWAYS") {
      ContainsTransitive(u, "RAILWAYS", "RAILWAY");
    }
    if Contains(u, "CENTRAL GOVERNMENT") {
      ContainsTransitive(u, "CENTRAL GOVERNMENT", "GOVERNMENT");
    }
  }

  /** Every keyword of the full list either is in the short list or holds
      one of its keywords. */
  lemma FullListImpliesReduced(u: string, j: nat)
    requires j < |CghsKeywords| && Contains(u, CghsKeywords[j])
    ensures exists i :: 0 <= i < |ReducedKeywords| && Contains(u, ReducedKeywords[i])
  {
    RedundantKeywords(u);
    var i := [0, 0, 1, 2, 4, 3, 4, 0, 5, 6][j];
    assert Contains(u, ReducedKeywords[i]);
  }

  /** The scheme choice with the shorter keyword list decides alike. */
  lemma ReducedKeywordsAgree(company: string)
    ensures DetermineRateScheme(company) == CghsScheme <==>
      exists j :: 0 <= j < |ReducedKeywords| && Contains(Upper(company), ReducedKeywords[j])
  {
    SchemeIff(company);
    var u := Upper(company);
    if exists j :: 0 <= j < |CghsKeywords| && Contains(u, CghsKeywords[j]) {
      var j :| 0 <= j < |CghsKeywords| && Contains(u, CghsKeywords[j]);
      FullListImpliesReduced(u, j);
    }
    if exists j :: 0 <= j < |ReducedKeywords| && Contains(u, ReducedKeywords[j]) {
      var j :| 0 <= j < |ReducedKeywords| && Contains(u, ReducedKeywords[j]);
      var i := [1, 2, 3, 5, 6, 8, 9][j];
      assert CghsKeywords[i] == ReducedKeywords[j];
    }
  }

  // ---------------------------------------------------------------------
  // validate_rate
  // ---------------------------------------------------------------------

  datatype Status = Pending | ServiceCodeNotFound | ServiceNotInRateSheet | RateCompliant | RateNonCompliant

  /** The status as the result dictionary spells it. */
  function StatusName(s: Status): string {
    match s
    case Pending => "PENDING"
    case ServiceCodeNotFound => "SERVICE_CODE_NOT_FOUND"
    case ServiceNotInRateSheet => "SERVICE_NOT_IN_RATE_SHEET"
    case RateCompliant => "RATE_COMPLIANT"
    case RateNonCompliant => "RATE_NON_COMPLIANT"
  }

  datatype MatchedStatus = Matched | NotMatched

  /** The remarks field, by the message it formats and the values it shows. */
  datatype Remark =
    | NoRemark
    | CodeMissing
    | BilledMismatch(baseAmount: real, quantity: int, calculated: real, billedAmount: real)
    | NotInSheet(code: string, scheme: string)
    | RateMatches(quantity: int)
    | Overcharge(excess: real, quantity: int, unitPrice: Option<UnitPrices>)
    | Undercharge(shortfall: real, quantity: int, unitPrice: Option<UnitPrices>)

  /** The ' | Unit price mismatch' suffix: billed unit price and approved rate. */
  datatype UnitPrices = UnitPrices(baseAmount: real, approvedRate: real)

  /** The result dictionary. expectedTotal is None while the key is absent. */
  datatype Validation = Validation(
    serviceCode: string, baseAmount: real, quantity: int, billedAmount: real, rateScheme: string,
    validationStatus: Status, matchedStatus: MatchedStatus, approvedRate: Option<real>,
    serviceName: Option<string>, matchFound: bool, remarks: Remark, rateDifference: real,
    unitPriceMismatch: bool, expectedTotal: Option<real>)

  function Abs(x: real): real {
    if x < 0.0 then -x else x
  }

  /** self.rate_sheet.get(scheme, {}) */
  function SchemeLookup(sheet: RateSheet, scheme: string): Table {
    if scheme == StandardScheme then sheet.standard
    else if scheme == CghsScheme then sheet.cghs
    else []
  }

  /** First position from k on whose code upper-cases to the same text. */
  function FindUpperFrom(t: Table, code: string, k: nat): (r: Option<nat>)
    requires k <= |t|
    ensures r.Some? ==> k <= r.value < |t| && Upper(t[r.value].code) == Upper(code)
    ensures r.Some? ==> forall j :: k <= j < r.value ==> Upper(t[j].code) != Upper(code)
    ensures r.None? ==> forall j :: k <= j < |t| ==> Upper(t[j].code) != Upper(code)
    decreases |t| - k
  {
    if k == |t| then None
    else if Upper(t[k].code) == Upper(code) then Some(k)
    else FindUpperFrom(t, code, k + 1)
  }

  /** How a code is found: the exact key, or else the first key that is
      equal once both are upper-cased. */
  datatype Resolution = Exact(entry: RateEntry) | CaseInsensitive(key: string, entry: RateEntry) | Missing

  function Resolve(t: Table, code: string): Resolution {
    match Get(t, code)
    case Some(e) => Exact(e)
    case None =>
      match FindUpperFrom(t, code, 0)
      case Some(k) => CaseInsensitive(t[k].code, t[k].entry)
      case None => Missing
  }

  /** The result dictionary before any decision. */
  function Initial(serviceCode: string, baseAmount: real, quantity: int, billedAmount: real, rateScheme: string): Validation {
    Validation(serviceCode, baseAmount, quantity, billedAmount, rateScheme, Pending, NotMatched,
               None, None, false, NoRemark, 0.0, false, None)
  }

  /** The check of base amount times quantity against the billed amount,
      which only writes a remark. */
  function CheckBilled(v: Validation): Validation {
    var calculated := v.baseAmount * v.quantity as real;
    if Abs(calculated - v.billedAmount) > 0.01
    then v.(remarks := BilledMismatch(v.baseAmount, v.quantity, calculated, v.billedAmount))
    else v
  }

  /** The source's decision tree, update by update. */
  function ValidateRate(sheet: RateSheet, serviceCode: string, baseAmount: real, quantity: int,
                        billedAmount: real, rateScheme: string): Validation
  {
    var initial := Initial(serviceCode, baseAmount, quantity, billedAmount, rateScheme);
    if serviceCode == "" || serviceCode == "NOT_FOUND" then
      initial.(validationStatus := ServiceCodeNotFound, matchedStatus := NotMatched, remarks := CodeMissing)
    else
      var checked := CheckBilled(initial);
      var resolution := Resolve(SchemeLookup(sheet, rateScheme), serviceCode);
      if resolution.Missing? then
        checked.(validationStatus := ServiceNotInRateSheet, matchedStatus := NotMatched,
                 remarks := NotInSheet(serviceCode, rateScheme))
      else
        PriceFound(checked, resolution)
  }

  /** The part of the decision tree after the code was found: record the
      rate, then compare the billed amount with rate times quantity. */
  function PriceFound(checked: Validation, resolution: Resolution): Validation
    requires !resolution.Missing?
  {
    var rate := resolution.entry.rate;
    var expected := rate * checked.quantity as real;
    var unitPriceMismatch := if Abs(checked.baseAmount - rate) > 0.01 then true else checked.unitPriceMismatch;
    var compliant := Abs(checked.billedAmount - expected) < 0.01;
    var unitPrice := if unitPriceMismatch then Some(UnitPrices(checked.baseAmount, rate)) else None;
    var remark :=
      if compliant then RateMatches(checked.quantity)
      else if checked.billedAmount > expected then Overcharge(checked.billedAmount - expected, checked.quantity, unitPrice)
      else Undercharge(expected - checked.billedAmount, checked.quantity, unitPrice);
    checked.(serviceCode := if resolution.CaseInsensitive? then resolution.key else checked.serviceCode,
             approvedRate := Some(rate), expectedTotal := Some(expected),
             serviceName := Some(resolution.entry.serviceName), matchFound := true,
             rateDifference := checked.billedAmount - expected, unitPriceMismatch := unitPriceMismatch,
             validationStatus := if compliant then RateCompliant else RateNonCompliant,
             matchedStatus := if compliant then Matched else NotMatched,
             remarks := remark)
  }

  /** A found code: the expected total is rate times quantity, the
      difference is billed minus that, the unit price is flagged exactly
      when it is more than 0.01 from the rate, and the line complies
      exactly when the billed amount is within 0.01 of the expected total. */
  lemma PriceFoundFacts(checked: Validation, resolution: Resolution)
    requires !resolution.Missing? && !checked.matchFound && !checked.unitPriceMismatch
    ensures var v := PriceFound(checked, resolution);
      var rate := resolution.entry.rate;
      && v.matchFound
      && v.approvedRate == Some(rate)
      && v.expectedTotal.Some? && v.expectedTotal.value == rate * checked.quantity as real
      && v.rateDifference == checked.billedAmount - rate * checked.quantity as real
      && v.serviceName == Some(resolution.entry.serviceName)
      && (v.unitPriceMismatch <==> Abs(checked.baseAmount - rate) > 0.01)
      && (v.validationStatus == RateCompliant <==> Abs(checked.billedAmount - rate * checked.quantity as real) < 0.01)
      && (v.validationStatus == RateCompliant || v.validationStatus == RateNonCompliant)
      && (v.matchedStatus == Matched <==> v.validationStatus == RateCompliant)
      && !v.remarks.BilledMismatch?
  {
  }

  /** The code is known to the scheme's lookup, exactly or up to case. */
  predicate Known(sheet: RateSheet, code: string, scheme: string) {
    !Resolve(SchemeLookup(sheet, scheme), code).Missing?
  }

  /** The status decision: a missing code, a code the scheme does not know
      (an unknown scheme knows none), and otherwise compliance exactly when
      the billed amount is within 0.01 of rate times quantity. The result is
      never left PENDING, it is MATCHED exactly when it is compliant, and
      the "billed amount mismatch" remark never survives. */
  lemma StatusDecision(sheet: RateSheet, code: string, base: real, quantity: int, billed: real, scheme: string)
    ensures var v := ValidateRate(sheet, code, base, quantity, billed, scheme);
      && (v.validationStatus == ServiceCodeNotFound <==> code == "" || code == "NOT_FOUND")
      && (v.validationStatus == ServiceNotInRateSheet <==>
            code != "" && code != "NOT_FOUND" && !Known(sheet, code, scheme))
      && (v.validationStatus == RateCompliant <==>
            && code != "" && code != "NOT_FOUND" && Known(sheet, code, scheme)
            && Abs(billed - Resolve(SchemeLookup(sheet, scheme), code).entry.rate * quantity as real) < 0.01)
      && v.validationStatus != Pending
      && (v.matchedStatus == Matched <==> v.validationStatus == RateCompliant)
      && !v.remarks.BilledMismatch?
  {
    if code == "" || code == "NOT_FOUND" {
      NoCodeBranch(sheet, code, base, quantity, billed, scheme);
    } else if !Known(sheet, code, scheme) {
      UnknownCodeBranch(sheet, code, base, quantity, billed, scheme);
    } else {
      KnownCodeBranch(sheet, code, base, quantity, billed, scheme);
      PriceFoundFacts(CheckBilled(Initial(code, base, quantity, billed, scheme)),
                      Resolve(SchemeLookup(sheet, scheme), code));
    }
  }

  lemma NoCodeBranch(sheet: RateSheet, code: string, base: real, quantity: int, billed: real, scheme: string)
    requires code == "" || code == "NOT_FOUND"
    ensures ValidateRate(sheet, code, base, quantity, billed, scheme)
            == Initial(code, base, quantity, billed, scheme).(validationStatus := ServiceCodeNotFound, remarks := CodeMissing)
  {
  }

  lemma UnknownCodeBranch(sheet: RateSheet, code: string, base: real, quantity: int, billed: real, scheme: string)
    requires code != "" && code != "NOT_FOUND" && !Known(sheet, code, scheme)
    ensures ValidateRate(sheet, code, base, quantity, billed, scheme)
            == CheckBilled(Initial(code, base, quantity, billed, scheme)).(
                 validationStatus := ServiceNotInRateSheet, matchedStatus := NotMatched,
                 remarks := NotInSheet(code, scheme))
  {
  }

  lemma KnownCodeBranch(sheet: RateSheet, code: string, base: real, quantity: int, billed: real, scheme: string)
    requires code != "" && code != "NOT_FOUND" && Known(sheet, code, scheme)
    ensures ValidateRate(sheet, code, base, quantity, billed, scheme)
            == PriceFound(CheckBilled(Initial(code, base, quantity, billed, scheme)),
                          Resolve(SchemeLookup(sheet, scheme), code))
  {
  }

  /** A scheme other than STANDARD and CGHS knows no code. */
  lemma UnknownSchemeFindsNothing(sheet: RateSheet, code: string, base: real, quantity: int, billed: real, scheme: string)
    requires scheme != StandardScheme && scheme != CghsScheme && code != "" && code != "NOT_FOUND"
    ensures ValidateRate(sheet, code, base, quantity, billed, scheme).validationStatus == ServiceNotInRateSheet
  {
  }

  /** When the code is known, the expected total is rate times quantity,
      the difference is billed minus that, and the unit price is flagged
      exactly when it is more than 0.01 from the rate, compliant or not.
      When it is not, none of these fields is filled in. */
  lemma FoundFields(sheet: RateSheet, code: string, base: real, quantity: int, billed: real, scheme: string)
    ensures var v := ValidateRate(sheet, code, base, quantity, billed, scheme);
      var res := Resolve(SchemeLookup(sheet, scheme), code);
      && (v.matchFound <==> code != "" && code != "NOT_FOUND" && Known(sheet, code, scheme))
      && (v.matchFound ==>
            && v.approvedRate == Some(res.entry.rate)
            && v.expectedTotal.Some? && v.expectedTotal.value == res.entry.rate * quantity as real
            && v.rateDifference == billed - res.entry.rate * quantity as real
            && v.serviceName == Some(res.entry.serviceName)
            && (v.unitPriceMismatch <==> Abs(base - res.entry.rate) > 0.01))
      && (!v.matchFound ==>
            && v.approvedRate.None? && v.expectedTotal.None? && v.serviceName.None?
            && v.rateDifference == 0.0 && !v.unitPriceMismatch)
  {
    if code == "" || code == "NOT_FOUND" {
      NoCodeBranch(sheet, code, base, quantity, billed, scheme);
    } else if !Known(sheet, code, scheme) {
      UnknownCodeBranch(sheet, code, base, quantity, billed, scheme);
    } else {
      KnownCodeBranch(sheet, code, base, quantity, billed, scheme);
      PriceFoundFacts(CheckBilled(Initial(code, base, quantity, billed, scheme)),
                      Resolve(SchemeLookup(sheet, scheme), code));
    }
  }

  /** A code found only up to case is rewritten to the first key of the
      lookup, in table order, that matches it; an exact hit, or a miss,
      keeps the code as given. */
  lemma CaseInsensitiveRewrite(sheet: RateSheet, code: string, base: real, quantity: int, billed: real,
                               scheme: string, k: nat)
    requires code != "" && code != "NOT_FOUND"
    requires Get(SchemeLookup(sheet, scheme), code).None?
    requires k < |SchemeLookup(sheet, scheme)| && Upper(SchemeLookup(sheet, scheme)[k].code) == Upper(code)
    requires forall j :: 0 <= j < k ==> Upper(SchemeLookup(sheet, scheme)[j].code) != Upper(code)
    ensures ValidateRate(sheet, code, base, quantity, billed, scheme).serviceCode == SchemeLookup(sheet, scheme)[k].code
    ensures ValidateRate(sheet, code, base, quantity, billed, scheme).approvedRate
            == Some(SchemeLookup(sheet, scheme)[k].entry.rate)
  {
    var r := FindUpperFrom(SchemeLookup(sheet, scheme), code, 0);
    assert r == Some(k);
  }

  /** The code keeps its spelling unless it was found only up to case. */
  lemma CodeKeptUnlessRewritten(sheet: RateSheet, code: string, base: real, quantity: int, billed: real, scheme: string)
    requires !Resolve(SchemeLookup(sheet, scheme), code).CaseInsensitive? || code == "" || code == "NOT_FOUND"
    ensures ValidateRate(sheet, code, base, quantity, billed, scheme).serviceCode == code
  {
  }

  /** The 0.01 boundary: a total off by exactly 0.01 is not compliant, while
      a unit price off by exactly 0.01 is not flagged. The witness (rate
      0.0, unit price and total 0.01) computes the same differences in
      double precision, so the boundary is the program's as well. */
  lemma ToleranceBoundary()
    ensures var sheet := RateSheet([Item("S1", RateEntry("Consultation", 0.0))], []);
      var v := ValidateRate(sheet, "S1", 0.01, 1, 0.01, StandardScheme);
      v.validationStatus == RateNonCompliant && !v.unitPriceMismatch
  {
    var t := [Item("S1", RateEntry("Consultation", 0.0))];
    assert Get(t, "S1") == Some(RateEntry("Consultation", 0.0));
  }

  /** The quantity is used as given: a line with quantity zero and nothing
      billed complies with any known code. */
  lemma ZeroQuantityComplies(sheet: RateSheet, code: string, base: real, scheme: string)
    requires code != "" && code != "NOT_FOUND" && Known(sheet, code, scheme)
    ensures ValidateRate(sheet, code, base, 0, 0.0, scheme).validationStatus == RateCompliant
  {
  }
}
