/** The rate-validation audit (Combov1.py:915-993): every extracted line item
    is validated against the scheme of the payer company, and its status is
    mapped to an audit outcome for the leakage analysis. */
module RateAudit {
  import opened Maybe
  import opened RateSheet
  import opened RateValidator

  /** A line item as extracted from the bill; None where the item lacks
      the key. */
  datatype LineItem = LineItem(
    serviceCode: Option<string>, serviceDescription: Option<string>, baseAmount: Option<real>,
    quantity: Option<int>, billedAmount: Option<real>, chargeDate: Option<string>,
    category: Option<string>, billedEntity: Option<string>)

  /** dict.get(key, default) */
  function GetOr<T>(o: Option<T>, default: T): T {
    match o
    case Some(v) => v
    case None => default
  }

  datatype Outcome = Match | AmountMismatch | UnsupportedBilling

  /** The outcome as the audit table spells it. */
  function OutcomeName(o: Outcome): string {
    match o
    case Match => "MATCH"
    case AmountMismatch => "AMOUNT_MISMATCH"
    case UnsupportedBilling => "UNSUPPORTED_BILLING"
  }

  /** The status-to-outcome chain; any status it does not name, known or
      not, counts as unsupported billing. */
  function AuditOutcome(status: string): Outcome {
    if status == "RATE_COMPLIANT" then Match
    else if status == "RATE_NON_COMPLIANT" then AmountMismatch
    else if status == "SERVICE_NOT_IN_RATE_SHEET" then UnsupportedBilling
    else if status == "SERVICE_CODE_NOT_FOUND" then UnsupportedBilling
    else UnsupportedBilling
  }

  /** The mapping is total: MATCH for a compliant rate, AMOUNT_MISMATCH for
      a non-compliant one, UNSUPPORTED_BILLING for everything else. */
  lemma AuditOutcomeIff(status: string)
    ensures AuditOutcome(status) == Match <==> status == "RATE_COMPLIANT"
    ensures AuditOutcome(status) == AmountMismatch <==> status == "RATE_NON_COMPLIANT"
    ensures AuditOutcome(status) == UnsupportedBilling <==>
      status != "RATE_COMPLIANT" && status != "RATE_NON_COMPLIANT"
  {
  }

  /** One row of the audit table. */
  datatype AuditRow = AuditRow(
    chargeDate: string, serviceCode: string, serviceDescription: string, quantity: int,
    baseAmount: real, billedAmount: real, approvedRate: Option<real>, expectedTotal: real,
    rateDifference: real, matchedStatus: MatchedStatus, remarks: Remark, validationStatus: Status,
    category: string, billedEntity: string, company: string, rateScheme: string,
    serviceName: Option<string>, matchFound: bool, unitPriceMismatch: bool, auditOutcome: Outcome)

  /** The audit row of one item: the item's fields with their defaults, the
      validation's fields, and the outcome of its status. */
  function AuditRowOf(sheet: RateSheet, item: LineItem, company: string, scheme: string): AuditRow {
    var code := GetOr(item.serviceCode, "");
    var quantity := GetOr(item.quantity, 1);
    var base := GetOr(item.baseAmount, 0.0);
    var billed := GetOr(item.billedAmount, 0.0);
    var v := ValidateRate(sheet, code, base, quantity, billed, scheme);
    AuditRow(GetOr(item.chargeDate, ""), code, GetOr(item.serviceDescription, ""), quantity,
             base, billed, v.approvedRate, GetOr(v.expectedTotal, 0.0),
             v.rateDifference, v.matchedStatus, v.remarks, v.validationStatus,
             GetOr(item.category, ""), GetOr(item.billedEntity, ""), company, scheme,
             v.serviceName, v.matchFound, v.unitPriceMismatch,
             AuditOutcome(StatusName(v.validationStatus)))
  }

  /** The item loop of the audit: one row per item, in order. */
  method PerformRateValidationAudit(sheet: RateSheet, items: seq<LineItem>, headerCompany: Option<string>)
    returns (rows: seq<AuditRow>)
    ensures |rows| == |items|
    ensures forall i :: 0 <= i < |items| ==>
      rows[i] == AuditRowOf(sheet, items[i], GetOr(headerCompany, ""), DetermineRateScheme(GetOr(headerCompany, "")))
  {
    var company := GetOr(headerCompany, "");
    var scheme := DetermineRateScheme(company);
    rows := [];
    for i := 0 to |items|
      invariant |rows| == i
      invariant forall j :: 0 <= j < i ==> rows[j] == AuditRowOf(sheet, items[j], company, scheme)
    {
      rows := rows + [AuditRowOf(sheet, items[i], company, scheme)];
    }
  }

  /** A row's outcome agrees with its validation: MATCH exactly when the
      row is MATCHED, AMOUNT_MISMATCH exactly when the rate is known but
      the amount is off, and UNSUPPORTED_BILLING when the code is missing
      or the scheme does not know it. */
  lemma RowOutcome(sheet: RateSheet, item: LineItem, company: string, scheme: string)
    ensures var row := AuditRowOf(sheet, item, company, scheme);
      && (row.auditOutcome == Match <==> row.matchedStatus == Matched)
      && (row.auditOutcome == Match <==> row.validationStatus == RateCompliant)
      && (row.auditOutcome == AmountMismatch <==> row.validationStatus == RateNonCompliant)
      && (row.auditOutcome == UnsupportedBilling <==>
            row.validationStatus == ServiceCodeNotFound || row.validationStatus == ServiceNotInRateSheet)
  {
    var code := GetOr(item.serviceCode, "");
    StatusDecision(sheet, code, GetOr(item.baseAmount, 0.0), GetOr(item.quantity, 1),
                   GetOr(item.billedAmount, 0.0), scheme);
    var v := ValidateRate(sheet, code, GetOr(item.baseAmount, 0.0), GetOr(item.quantity, 1),
                          GetOr(item.billedAmount, 0.0), scheme);
    AuditOutcomeIff(StatusName(v.validationStatus));
  }

  /** The row shows the code as billed, even when the validator matched it
      to a differently cased key, and an expected total of 0 when no rate
      was found. */
  lemma RowKeepsBilledCode(sheet: RateSheet, item: LineItem, company: string, scheme: string)
    ensures AuditRowOf(sheet, item, company, scheme).serviceCode == GetOr(item.serviceCode, "")
    ensures !AuditRowOf(sheet, item, company, scheme).matchFound ==>
      AuditRowOf(sheet, item, company, scheme).expectedTotal == 0.0
  {
    var code := GetOr(item.serviceCode, "");
    FoundFields(sheet, code, GetOr(item.baseAmount, 0.0), GetOr(item.quantity, 1),
                GetOr(item.billedAmount, 0.0), scheme);
  }
}
