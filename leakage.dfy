/** The money-leakage analysis of an audit table (Combov1.py:1107-1238):
    billed totals per audit outcome and per category, and the priority
    issues and recommendations drawn from them. The table's column-wise
    pandas operations (filters, sums, unique) are modelled by the functions
    they compute; the loops of the source are methods. */
module Leakage {
  import opened Maybe
  import opened Text

  const UnsupportedBilling := "UNSUPPORTED_BILLING"
  const AmountMismatch := "AMOUNT_MISMATCH"
  const PotentialMissingCharge := "POTENTIAL_MISSING_CHARGE"

  /** The outcomes the leakage loop visits, in its order. */
  const Outcomes: seq<string> := [UnsupportedBilling, AmountMismatch, PotentialMissingCharge]

  /** The keys leakage_by_type is created with. */
  const UnsupportedKey := "unsupported_billing"
  const MismatchKey := "amount_mismatch"
  const MissingChargesKey := "potential_missing_charges"

  /** The key the outcome loop writes for POTENTIAL_MISSING_CHARGE. */
  const MissingChargeKey := "potential_missing_charge"

  /** The columns of one audit row the analysis reads. */
  datatype AuditEntry = AuditEntry(category: string, auditOutcome: string, billedAmount: real)

  /** An audit table; the flags say whether its billed_amount, audit_outcome
      and category columns exist. A table built from the analysis service's audit
      list may lack any of them. */
  datatype AuditTable = AuditTable(rows: seq<AuditEntry>, hasBilled: bool, hasOutcome: bool, hasCategory: bool)

  // ---------------------------------------------------------------------
  // Column sums
  // ---------------------------------------------------------------------

  /** audit_df['billed_amount'].sum() */
  function TotalBilled(rows: seq<AuditEntry>): real {
    if rows == [] then 0.0 else TotalBilled(rows[..|rows| - 1]) + rows[|rows| - 1].billedAmount
  }

  /** The billed amount of the rows with the given outcome. */
  function OutcomeTotal(rows: seq<AuditEntry>, outcome: string): real {
    if rows == [] then 0.0
    else
      var last := rows[|rows| - 1];
      OutcomeTotal(rows[..|rows| - 1], outcome) + (if last.auditOutcome == outcome then last.billedAmount else 0.0)
  }

  /** The outcomes counted as leakage in a category. */
  predicate IsLeak(outcome: string) {
    outcome == UnsupportedBilling || outcome == AmountMismatch
  }

  /** The billed amount of a category's rows whose outcome is a leak. */
  function CategoryLeak(rows: seq<AuditEntry>, category: string): real {
    if rows == [] then 0.0
    else
      var last := rows[|rows| - 1];
      CategoryLeak(rows[..|rows| - 1], category)
      + (if last.category == category && IsLeak(last.auditOutcome) then last.billedAmount else 0.0)
  }

  /** A table whose rows all carry an outcome outside the three the
      analysis visits has no leakage of any kind. */
  lemma {:induction false} NoKnownOutcomeNoLeak(rows: seq<AuditEntry>, category: string)
    requires forall i :: 0 <= i < |rows| ==> rows[i].auditOutcome !in Outcomes
    ensures CategoryLeak(rows, category) == 0.0
    ensures forall o :: o in Outcomes ==> OutcomeTotal(rows, o) == 0.0
  {
    if rows != [] {
      NoKnownOutcomeNoLeak(rows[..|rows| - 1], category);
      assert rows[|rows| - 1].auditOutcome !in Outcomes;
    }
  }

  // ---------------------------------------------------------------------
  // Leakage by type: the outcome loop
  // ---------------------------------------------------------------------

  /** leakage_by_type as created. */
  const InitialByType: map<string, real> := map[UnsupportedKey := 0.0, MismatchKey := 0.0, MissingChargesKey := 0.0]

  /** leakage_by_type after the loop's first k outcomes: each writes its
      total under the outcome's lower-cased name. */
  function ByTypeAfter(rows: seq<AuditEntry>, k: nat): map<string, real>
    requires k <= |Outcomes|
  {
    if k == 0 then InitialByType
    else ByTypeAfter(rows, k - 1)[Lower(Outcomes[k - 1]) := OutcomeTotal(rows, Outcomes[k - 1])]
  }

  /** total_leakage_amount after the loop's first k outcomes: every outcome
      but POTENTIAL_MISSING_CHARGE adds its total. */
  function LeakageAfter(rows: seq<AuditEntry>, k: nat): real
    requires k <= |Outcomes|
  {
    if k == 0 then 0.0
    else LeakageAfter(rows, k - 1)
         + (if Outcomes[k - 1] != PotentialMissingCharge then OutcomeTotal(rows, Outcomes[k - 1]) else 0.0)
  }

  function ByType(rows: seq<AuditEntry>, hasOutcome: bool): map<string, real> {
    if hasOutcome then ByTypeAfter(rows, |Outcomes|) else InitialByType
  }

  function TotalLeakage(rows: seq<AuditEntry>, hasOutcome: bool): real {
    if hasOutcome then LeakageAfter(rows, |Outcomes|) else 0.0
  }

  /** The loop over the three outcomes; it does nothing when the table has
      no audit_outcome column. */
  method LeakageByType(rows: seq<AuditEntry>, hasOutcome: bool) returns (byType: map<string, real>, total: real)
    ensures byType == ByType(rows, hasOutcome)
    ensures total == TotalLeakage(rows, hasOutcome)
  {
    byType := InitialByType;
    total := 0.0;
    for k := 0 to |Outcomes|
      invariant byType == (if hasOutcome then ByTypeAfter(rows, k) else InitialByType)
      invariant total == (if hasOutcome then LeakageAfter(rows, k) else 0.0)
    {
      var outcome := Outcomes[k];
      if hasOutcome {
        var amount := OutcomeTotal(rows, outcome);
        byType := byType[Lower(outcome) := amount];
        if outcome != PotentialMissingCharge {
          total := total + amount;
        }
      }
    }
  }

  /** The lower-cased outcome names; the third differs from the key the
      dictionary was created with. */
  lemma OutcomeKeys()
    ensures Lower(UnsupportedBilling) == UnsupportedKey
    ensures Lower(AmountMismatch) == MismatchKey
    ensures Lower(PotentialMissingCharge) == MissingChargeKey
    ensures MissingChargeKey != MissingChargesKey
  {
    LowerUnsupported();
    LowerMismatch();
    LowerMissingCharge();
    assert |MissingChargeKey| != |MissingChargesKey|;
  }

  lemma LowerUnsupported()
    ensures Lower(UnsupportedBilling) == UnsupportedKey
  {
  }

  lemma LowerMismatch()
    ensures Lower(AmountMismatch) == MismatchKey
  {
  }

  lemma LowerMissingCharge()
    ensures Lower(PotentialMissingCharge) == MissingChargeKey
  {
  }

  /** With an audit_outcome column, the by-type table holds the unsupported
      and mismatch totals under their keys, the missing-charge total under
      a fourth key, and leaves the created missing-charges key at 0; the
      total leakage is the unsupported plus the mismatch total. */
  lemma ByTypeValues(rows: seq<AuditEntry>)
    ensures UnsupportedKey in ByType(rows, true) && MismatchKey in ByType(rows, true)
    ensures MissingChargesKey in ByType(rows, true) && MissingChargeKey in ByType(rows, true)
    ensures ByType(rows, true)[UnsupportedKey] == OutcomeTotal(rows, UnsupportedBilling)
    ensures ByType(rows, true)[MismatchKey] == OutcomeTotal(rows, AmountMismatch)
    ensures ByType(rows, true)[MissingChargeKey] == OutcomeTotal(rows, PotentialMissingCharge)
    ensures ByType(rows, true)[MissingChargesKey] == 0.0
    ensures TotalLeakage(rows, true) == OutcomeTotal(rows, UnsupportedBilling) + OutcomeTotal(rows, AmountMismatch)
  {
    OutcomeKeys();
    var u, m, p := OutcomeTotal(rows, UnsupportedBilling), OutcomeTotal(rows, AmountMismatch),
                   OutcomeTotal(rows, PotentialMissingCharge);
    assert ByTypeAfter(rows, 1) == InitialByType[UnsupportedKey := u];
    assert ByTypeAfter(rows, 2) == InitialByType[UnsupportedKey := u][MismatchKey := m];
    assert ByType(rows, true) == InitialByType[UnsupportedKey := u][MismatchKey := m][MissingChargeKey := p];
    assert Outcomes[0] != PotentialMissingCharge && Outcomes[1] != PotentialMissingCharge;
    assert LeakageAfter(rows, 1) == u;
    assert LeakageAfter(rows, 2) == u + m;
    assert Outcomes[2] == PotentialMissingCharge;
    assert UnsupportedKey != MismatchKey;
    assert |UnsupportedKey| != |MissingChargeKey| && |MismatchKey| != |MissingChargeKey|;
    assert |UnsupportedKey| != |MissingChargesKey| && |MismatchKey| != |MissingChargesKey|;
    assert Outcomes[0] != PotentialMissingCharge && Outcomes[1] != PotentialMissingCharge;
  }

  /** Without an audit_outcome column every type stays at 0. */
  lemma ByTypeWithoutOutcomes(rows: seq<AuditEntry>)
    ensures UnsupportedKey in ByType(rows, false) && ByType(rows, false)[UnsupportedKey] == 0.0
    ensures MismatchKey in ByType(rows, false) && ByType(rows, false)[MismatchKey] == 0.0
    ensures MissingChargesKey in ByType(rows, false) && ByType(rows, false)[MissingChargesKey] == 0.0
    ensures TotalLeakage(rows, false) == 0.0
  {
  }

  // ---------------------------------------------------------------------
  // Leakage by category
  // ---------------------------------------------------------------------

  /** audit_df['category'].unique() over the first n rows: each category
      once, in the order of its first row. */
  function UniqueFrom(rows: seq<AuditEntry>, n: nat): seq<string>
    requires n <= |rows|
  {
    if n == 0 then []
    else
      var u := UniqueFrom(rows, n - 1);
      if rows[n - 1].category in u then u else u + [rows[n - 1].category]
  }

  function Categories(rows: seq<AuditEntry>): seq<string> {
    UniqueFrom(rows, |rows|)
  }

  /** unique() lists every category of the rows, and only those, once. */
  lemma {:induction false} UniqueFacts(rows: seq<AuditEntry>, n: nat)
    requires n <= |rows|
    ensures forall i, j :: 0 <= i < j < |UniqueFrom(rows, n)| ==> UniqueFrom(rows, n)[i] != UniqueFrom(rows, n)[j]
    ensures forall c :: c in UniqueFrom(rows, n) <==> exists i :: 0 <= i < n && rows[i].category == c
  {
    if n > 0 {
      UniqueFacts(rows, n - 1);
      forall c | c in UniqueFrom(rows, n)
        ensures exists i :: 0 <= i < n && rows[i].category == c
      {
        if c !in UniqueFrom(rows, n - 1) {
          assert rows[n - 1].category == c;
        }
      }
      forall c | exists i :: 0 <= i < n && rows[i].category == c
        ensures c in UniqueFrom(rows, n)
      {
        var i :| 0 <= i < n && rows[i].category == c;
        if i < n - 1 {
          assert c in UniqueFrom(rows, n - 1);
        }
      }
    }
  }

  /** One entry of leakage_by_category. */
  datatype CategoryLeakage = CategoryLeakage(category: string, amount: real)

  /** leakage_by_category after the first k of the given categories: those
      with a positive leak, in order. */
  function ByCategoryAfter(rows: seq<AuditEntry>, cats: seq<string>, k: nat): seq<CategoryLeakage>
    requires k <= |cats|
  {
    if k == 0 then []
    else
      var leak := CategoryLeak(rows, cats[k - 1]);
      ByCategoryAfter(rows, cats, k - 1) + (if leak > 0.0 then [CategoryLeakage(cats[k - 1], leak)] else [])
  }

  /** Every entry is a listed category with its positive leak; every listed
      category with a positive leak has an entry; distinct categories give
      distinct entries. */
  lemma {:induction false} ByCategoryFacts(rows: seq<AuditEntry>, cats: seq<string>, k: nat)
    requires k <= |cats|
    ensures forall e :: e in ByCategoryAfter(rows, cats, k) ==>
      e.category in cats[..k] && e.amount > 0.0 && e.amount == CategoryLeak(rows, e.category)
    ensures forall c :: c in cats[..k] && CategoryLeak(rows, c) > 0.0 ==>
      CategoryLeakage(c, CategoryLeak(rows, c)) in ByCategoryAfter(rows, cats, k)
    ensures (forall i, j :: 0 <= i < j < |cats| ==> cats[i] != cats[j]) ==>
      forall i, j :: 0 <= i < j < |ByCategoryAfter(rows, cats, k)| ==>
        ByCategoryAfter(rows, cats, k)[i].category != ByCategoryAfter(rows, cats, k)[j].category
  {
    if k > 0 {
      ByCategoryFacts(rows, cats, k - 1);
      assert cats[..k] == cats[..k - 1] + [cats[k - 1]];
      if forall i, j :: 0 <= i < j < |cats| ==> cats[i] != cats[j] {
        assert cats[k - 1] !in cats[..k - 1];
      }
    }
  }

  /** leakage_by_category, or None for the KeyError raised when the table
      has categories and rows but no audit_outcome column (Combov1.py:1139)
      or no billed_amount column (Combov1.py:1140). */
  function ByCategory(table: AuditTable): Option<seq<CategoryLeakage>> {
    if !table.hasCategory then Some([])
    else if (!table.hasOutcome || !table.hasBilled) && table.rows != [] then None
    else Some(ByCategoryAfter(table.rows, Categories(table.rows), |Categories(table.rows)|))
  }

  /** The loop over the table's categories. */
  method LeakageByCategory(table: AuditTable) returns (r: Option<seq<CategoryLeakage>>)
    ensures r == ByCategory(table)
  {
    if !table.hasCategory {
      return Some([]);
    }
    var cats := Categories(table.rows);
    assert table.rows != [] ==> cats != [] by {
      if table.rows != [] {
        UniqueFacts(table.rows, |table.rows|);
        assert table.rows[0].category in cats;
      }
    }
    var byCategory: seq<CategoryLeakage> := [];
    for k := 0 to |cats|
      invariant byCategory == ByCategoryAfter(table.rows, cats, k)
      invariant !table.hasOutcome || !table.hasBilled ==> k == 0
    {
      if !table.hasOutcome || !table.hasBilled {
        return None;
      }
      var category := cats[k];
      var leak := CategoryLeak(table.rows, category);
      if leak > 0.0 {
        byCategory := byCategory + [CategoryLeakage(category, leak)];
      }
    }
    return Some(byCategory);
  }

  /** With both columns, leakage_by_category names each category of the
      table whose leak is positive, once, with that leak, and nothing else. */
  lemma ByCategoryIff(rows: seq<AuditEntry>, c: string, amount: real)
    ensures var entries := ByCategoryAfter(rows, Categories(rows), |Categories(rows)|);
      CategoryLeakage(c, amount) in entries <==>
        (exists i :: 0 <= i < |rows| && rows[i].category == c) && amount == CategoryLeak(rows, c) && amount > 0.0
  {
    var cats := Categories(rows);
    UniqueFacts(rows, |rows|);
    ByCategoryFacts(rows, cats, |cats|);
    assert cats[..|cats|] == cats;
  }

  // ---------------------------------------------------------------------
  // Priority issues and recommendations
  // ---------------------------------------------------------------------

  datatype Risk = HighRisk | MediumRisk | RevenueOpportunity

  /** A priority issue (Combov1.py:1163-1169, 1179-1185, 1195-1201):
      `amount` is the figure its description formats, and its type, title,
      impact and action are fixed by its kind. */
  datatype PriorityIssue = PriorityIssue(kind: Risk, amount: real)
  {
    function Type(): string {
      match kind
      case HighRisk => "HIGH_RISK"
      case MediumRisk => "MEDIUM_RISK"
      case RevenueOpportunity => "REVENUE_OPPORTUNITY"
    }

    function Title(): string {
      match kind
      case HighRisk => "Unsupported Billing Identified"
      case MediumRisk => "Billing Amount Discrepancies"
      case RevenueOpportunity => "Potential Revenue Recovery"
    }

    function Impact(): string {
      match kind
      case HighRisk => "High financial and compliance risk"
      case MediumRisk => "Potential revenue leakage"
      case RevenueOpportunity => "Revenue leakage opportunity"
    }

    function Action(): string {
      match kind
      case HighRisk => "Immediate documentation review required"
      case MediumRisk => "Verify billing rates and calculations"
      case RevenueOpportunity => "Implement charge capture process"
    }
  }

  datatype Recommendation = Recommendation(priority: string, action: string, category: string, timeline: string)

  /** The issue raised for each by-type amount when it is positive. */
  function IssueIfPositive(kind: Risk, amount: real): seq<PriorityIssue> {
    if amount > 0.0 then [PriorityIssue(kind, amount)] else []
  }

  /** The issues for the three by-type amounts, in the order unsupported,
      mismatch, missing. */
  function IssuesFor(unsupported: real, mismatch: real, missing: real): seq<PriorityIssue> {
    IssueIfPositive(HighRisk, unsupported) + IssueIfPositive(MediumRisk, mismatch)
    + IssueIfPositive(RevenueOpportunity, missing)
  }

  /** The recommendation that goes with each raised issue. */
  function TypeRecommendations(unsupported: real, mismatch: real, missing: real): seq<Recommendation> {
    (if unsupported > 0.0 then [Recommendation("HIGH", "Review and validate all unsupported charges",
                                               "Compliance", "Immediate")] else [])
    + (if mismatch > 0.0 then [Recommendation("MEDIUM", "Standardize billing rates across departments",
                                              "Revenue Integrity", "1 week")] else [])
    + (if missing > 0.0 then [Recommendation("HIGH", "Establish real-time charge capture system",
                                             "Revenue Cycle", "2 weeks")] else [])
  }

  /** The action recommended for a category with significant leakage. */
  function ReviewAction(category: string): string {
    "Review " + Title(ReplaceChar(category, '_', ' ')) + " billing processes"
  }

  /** The threshold above which a category's leakage is significant. */
  const SignificantLeak: real := 10000.0

  /** The recommendation for a category with significant leakage. */
  function ReviewRecommendation(category: string): Recommendation {
    Recommendation("MEDIUM", ReviewAction(category), "Process Improvement", "2 weeks")
  }

  /** The category recommendations for the first k entries. */
  function CategoryRecommendations(byCategory: seq<CategoryLeakage>, k: nat): seq<Recommendation>
    requires k <= |byCategory|
  {
    if k == 0 then []
    else
      var e := byCategory[k - 1];
      CategoryRecommendations(byCategory, k - 1)
      + (if e.amount > SignificantLeak then [ReviewRecommendation(e.category)] else [])
  }

  /** The two recommendations every analysis ends with. */
  const Baseline: seq<Recommendation> := [
    Recommendation("LOW", "Implement automated billing validation checks", "Technology", "1 month"),
    Recommendation("MEDIUM", "Train staff on proper documentation requirements", "Training", "3 weeks")
  ]

  /** generate_recommendations: the by-type amounts are read under the keys
      the dictionary was created with. Both outputs are fixed by the inputs:
      the issues by IssuesFor, the recommendations by the three parts. */
  method GenerateRecommendations(byType: map<string, real>, byCategory: seq<CategoryLeakage>)
    returns (recommendations: seq<Recommendation>, issues: seq<PriorityIssue>)
    requires UnsupportedKey in byType && MismatchKey in byType && MissingChargesKey in byType
    ensures issues == IssuesFor(byType[UnsupportedKey], byType[MismatchKey], byType[MissingChargesKey])
    ensures recommendations ==
      TypeRecommendations(byType[UnsupportedKey], byType[MismatchKey], byType[MissingChargesKey])
      + CategoryRecommendations(byCategory, |byCategory|) + Baseline
    ensures |recommendations| >= 2 && recommendations[|recommendations| - 2..] == Baseline
  {
    var unsupported := byType[UnsupportedKey];
    var mismatch := byType[MismatchKey];
    var missing := byType[MissingChargesKey];
    issues := IssuesFor(unsupported, mismatch, missing);
    recommendations := AppendCategoryRecommendations(TypeRecommendations(unsupported, mismatch, missing), byCategory);
    recommendations := recommendations + Baseline;
  }

  /** The loop over leakage_by_category: one review per category whose
      leak exceeds the threshold. */
  method AppendCategoryRecommendations(recommendations: seq<Recommendation>, byCategory: seq<CategoryLeakage>)
    returns (recommendations': seq<Recommendation>)
    ensures recommendations' == recommendations + CategoryRecommendations(byCategory, |byCategory|)
  {
    recommendations' := recommendations;
    for k := 0 to |byCategory|
      invariant recommendations' == recommendations + CategoryRecommendations(byCategory, k)
    {
      var e := byCategory[k];
      if e.amount > SignificantLeak {
        recommendations' := recommendations' + [ReviewRecommendation(e.category)];
      }
    }
  }

  /** Whether an issue of the given kind was raised. */
  predicate Raised(issues: seq<PriorityIssue>, kind: Risk) {
    exists i :: 0 <= i < |issues| && issues[i].kind == kind
  }

  /** The by-type amount an issue of the given kind reports. */
  function AmountOf(kind: Risk, unsupported: real, mismatch: real, missing: real): real {
    match kind
    case HighRisk => unsupported
    case MediumRisk => mismatch
    case RevenueOpportunity => missing
  }

  /** The position of a kind in the source's order of checks. */
  function Rank(kind: Risk): nat {
    match kind
    case HighRisk => 0
    case MediumRisk => 1
    case RevenueOpportunity => 2
  }

  /** Each kind of issue is raised exactly when its amount is positive. */
  lemma IssuesIff(unsupported: real, mismatch: real, missing: real)
    ensures Raised(IssuesFor(unsupported, mismatch, missing), HighRisk) <==> unsupported > 0.0
    ensures Raised(IssuesFor(unsupported, mismatch, missing), MediumRisk) <==> mismatch > 0.0
    ensures Raised(IssuesFor(unsupported, mismatch, missing), RevenueOpportunity) <==> missing > 0.0
  {
    var a, b, c := IssueIfPositive(HighRisk, unsupported), IssueIfPositive(MediumRisk, mismatch),
                   IssueIfPositive(RevenueOpportunity, missing);
    IssuesElements(unsupported, mismatch, missing);
    var s := IssuesFor(unsupported, mismatch, missing);
    if unsupported > 0.0 {
      assert s[0].kind == HighRisk;
    }
    if mismatch > 0.0 {
      assert s[|a|].kind == MediumRisk;
    }
    if missing > 0.0 {
      assert s[|a| + |b|].kind == RevenueOpportunity;
    }
  }

  /** Every issue carries the amount of its kind, and the issues come in
      the order of the checks, so no kind is raised twice. */
  lemma IssuesOrdered(unsupported: real, mismatch: real, missing: real)
    ensures forall i :: 0 <= i < |IssuesFor(unsupported, mismatch, missing)| ==>
      IssuesFor(unsupported, mismatch, missing)[i].amount
        == AmountOf(IssuesFor(unsupported, mismatch, missing)[i].kind, unsupported, mismatch, missing)
    ensures forall i, j :: 0 <= i < j < |IssuesFor(unsupported, mismatch, missing)| ==>
      Rank(IssuesFor(unsupported, mismatch, missing)[i].kind) < Rank(IssuesFor(unsupported, mismatch, missing)[j].kind)
  {
    IssuesElements(unsupported, mismatch, missing);
  }

  /** Where each part of the issue list sits. */
  lemma IssuesElements(unsupported: real, mismatch: real, missing: real)
    ensures var a, b, c := IssueIfPositive(HighRisk, unsupported), IssueIfPositive(MediumRisk, mismatch),
                           IssueIfPositive(RevenueOpportunity, missing);
      && |IssuesFor(unsupported, mismatch, missing)| == |a| + |b| + |c|
      && (forall i :: 0 <= i < |a| ==> IssuesFor(unsupported, mismatch, missing)[i] == PriorityIssue(HighRisk, unsupported))
      && (forall i :: |a| <= i < |a| + |b| ==> IssuesFor(unsupported, mismatch, missing)[i] == PriorityIssue(MediumRisk, mismatch))
      && (forall i :: |a| + |b| <= i < |a| + |b| + |c| ==>
            IssuesFor(unsupported, mismatch, missing)[i] == PriorityIssue(RevenueOpportunity, missing))
  {
  }

  /** The positions among the first k entries whose leak exceeds the threshold. */
  function Significant(byCategory: seq<CategoryLeakage>, k: nat): set<nat>
    requires k <= |byCategory|
  {
    set i: nat | i < k && byCategory[i].amount > SignificantLeak
  }

  /** Entry k - 1 joins the significant positions exactly when its leak
      exceeds the threshold. */
  lemma SignificantStep(byCategory: seq<CategoryLeakage>, k: nat)
    requires 0 < k <= |byCategory|
    ensures k - 1 !in Significant(byCategory, k - 1)
    ensures Significant(byCategory, k) ==
      Significant(byCategory, k - 1) + (if byCategory[k - 1].amount > SignificantLeak then {k - 1} else {})
  {
  }

  /** The number of entries among the first k whose leak exceeds the threshold. */
  function SignificantCount(byCategory: seq<CategoryLeakage>, k: nat): nat
    requires k <= |byCategory|
  {
    if k == 0 then 0
    else SignificantCount(byCategory, k - 1) + (if byCategory[k - 1].amount > SignificantLeak then 1 else 0)
  }

  /** The count is the number of significant positions. */
  lemma {:induction false} SignificantCountSize(byCategory: seq<CategoryLeakage>, k: nat)
    requires k <= |byCategory|
    ensures SignificantCount(byCategory, k) == |Significant(byCategory, k)|
  {
    if k > 0 {
      SignificantCountSize(byCategory, k - 1);
      SignificantStep(byCategory, k);
    }
  }

  /** No more significant entries than entries. */
  lemma {:induction false} SignificantCountAtMost(byCategory: seq<CategoryLeakage>, k: nat)
    requires k <= |byCategory|
    ensures SignificantCount(byCategory, k) <= k
  {
    if k > 0 {
      SignificantCountAtMost(byCategory, k - 1);
    }
  }

  /** There is one review per significant entry. */
  lemma {:induction false} ReviewCount(byCategory: seq<CategoryLeakage>, k: nat)
    requires k <= |byCategory|
    ensures |CategoryRecommendations(byCategory, k)| == SignificantCount(byCategory, k)
  {
    if k > 0 {
      ReviewCount(byCategory, k - 1);
    }
  }

  /** A significant entry i's review sits after those of the significant
      entries before it. */
  lemma {:induction false} ReviewAt(byCategory: seq<CategoryLeakage>, k: nat, i: nat)
    requires i < k <= |byCategory| && byCategory[i].amount > SignificantLeak
    ensures SignificantCount(byCategory, i) < |CategoryRecommendations(byCategory, k)|
    ensures CategoryRecommendations(byCategory, k)[SignificantCount(byCategory, i)] == ReviewRecommendation(byCategory[i].category)
  {
    var before := CategoryRecommendations(byCategory, k - 1);
    assert CategoryRecommendations(byCategory, k) == before + [ReviewRecommendation(byCategory[k - 1].category)]
      || CategoryRecommendations(byCategory, k) == before;
    if i < k - 1 {
      ReviewAt(byCategory, k - 1, i);
    } else {
      ReviewCount(byCategory, i);
    }
  }

  /** One recommendation per category whose leak exceeds the threshold, in
      the order of the entries, naming that category's review: entry i's
      review sits after those of the significant entries before it. */
  lemma {:induction false} CategoryRecommendationsFacts(byCategory: seq<CategoryLeakage>, k: nat)
    requires k <= |byCategory|
    ensures |CategoryRecommendations(byCategory, k)| == SignificantCount(byCategory, k) <= k
    ensures forall i :: 0 <= i < k && byCategory[i].amount > SignificantLeak ==>
      && SignificantCount(byCategory, i) < |CategoryRecommendations(byCategory, k)|
      && CategoryRecommendations(byCategory, k)[SignificantCount(byCategory, i)] == ReviewRecommendation(byCategory[i].category)
    ensures forall r :: r in CategoryRecommendations(byCategory, k) ==>
      exists i :: 0 <= i < k && byCategory[i].amount > SignificantLeak
                 && r == ReviewRecommendation(byCategory[i].category)
    ensures forall i :: 0 <= i < k && byCategory[i].amount > SignificantLeak ==>
      ReviewRecommendation(byCategory[i].category) in CategoryRecommendations(byCategory, k)
  {
    ReviewCount(byCategory, k);
    forall i | 0 <= i < k && byCategory[i].amount > SignificantLeak
      ensures SignificantCount(byCategory, i) < |CategoryRecommendations(byCategory, k)|
      ensures CategoryRecommendations(byCategory, k)[SignificantCount(byCategory, i)] == ReviewRecommendation(byCategory[i].category)
    {
      ReviewAt(byCategory, k, i);
    }
    SignificantCountAtMost(byCategory, k);
    ReviewMembers(byCategory, k);
  }

  /** Every review names a significant entry among the first k. */
  lemma {:induction false} ReviewMembers(byCategory: seq<CategoryLeakage>, k: nat)
    requires k <= |byCategory|
    ensures forall r :: r in CategoryRecommendations(byCategory, k) ==>
      exists i :: 0 <= i < k && byCategory[i].amount > SignificantLeak
                 && r == ReviewRecommendation(byCategory[i].category)
  {
    if k > 0 {
      ReviewMembers(byCategory, k - 1);
      var e := byCategory[k - 1];
      assert CategoryRecommendations(byCategory, k) ==
        CategoryRecommendations(byCategory, k - 1) + (if e.amount > SignificantLeak then [ReviewRecommendation(e.category)] else []);
    }
  }

  // ---------------------------------------------------------------------
  // The analysis
  // ---------------------------------------------------------------------

  datatype LeakageAnalysis = LeakageAnalysis(
    totalBilledAmount: real, totalLeakageAmount: real, leakageByCategory: seq<CategoryLeakage>,
    leakageByType: map<string, real>, recommendations: seq<Recommendation>, priorityIssues: seq<PriorityIssue>)

  /** calculate_money_leakage; None for the KeyError of a table without a
      billed_amount column (Combov1.py:1111) and for that of a table with
      categories but no audit_outcome column (Combov1.py:1139). */
  method CalculateMoneyLeakage(table: AuditTable) returns (r: Option<LeakageAnalysis>)
    ensures r.None? <==> !table.hasBilled || (table.hasCategory && !table.hasOutcome && table.rows != [])
    ensures r.Some? ==>
      var byType := ByType(table.rows, table.hasOutcome);
      && ByCategory(table).Some?
      && r.value.totalBilledAmount == TotalBilled(table.rows)
      && r.value.totalLeakageAmount == TotalLeakage(table.rows, table.hasOutcome)
      && r.value.leakageByCategory == ByCategory(table).value
      && r.value.leakageByType == byType
      && UnsupportedKey in byType && MismatchKey in byType && MissingChargesKey in byType
      && r.value.priorityIssues == IssuesFor(byType[UnsupportedKey], byType[MismatchKey], byType[MissingChargesKey])
      && r.value.recommendations ==
           TypeRecommendations(byType[UnsupportedKey], byType[MismatchKey], byType[MissingChargesKey])
           + CategoryRecommendations(ByCategory(table).value, |ByCategory(table).value|) + Baseline
  {
    if !table.hasBilled {
      return None;
    }
    var byType, total := LeakageByType(table.rows, table.hasOutcome);
    var byCategory := LeakageByCategory(table);
    if byCategory.None? {
      return None;
    }
    if table.hasOutcome {
      ByTypeValues(table.rows);
    }
    var recommendations, issues := GenerateRecommendations(byType, byCategory.value);
    r := Some(LeakageAnalysis(TotalBilled(table.rows), total, byCategory.value, byType, recommendations, issues));
  }

  // ---------------------------------------------------------------------
  // The missing-charges key
  // ---------------------------------------------------------------------

  /** As written: with an audit_outcome column the recommendations read the
      missing-charges key the loop never writes, so no revenue-opportunity
      issue is raised, whatever the missing-charge total. */
  lemma MissingChargesNeverReported(rows: seq<AuditEntry>)
    ensures var byType := ByType(rows, true);
      MissingChargesKey in byType && UnsupportedKey in byType && MismatchKey in byType
      && !Raised(IssuesFor(byType[UnsupportedKey], byType[MismatchKey], byType[MissingChargesKey]), RevenueOpportunity)
  {
    ByTypeValues(rows);
    var byType := ByType(rows, true);
    IssuesIff(byType[UnsupportedKey], byType[MismatchKey], byType[MissingChargesKey]);
  }

  /** One row with a missing charge of 500: its total is positive, yet no
      revenue-opportunity issue is raised. */
  lemma MissingChargeExample()
    ensures var rows := [AuditEntry("PHARMACY", PotentialMissingCharge, 500.0)];
      var byType := ByType(rows, true);
      && OutcomeTotal(rows, PotentialMissingCharge) == 500.0
      && MissingChargesKey in byType && UnsupportedKey in byType && MismatchKey in byType
      && !Raised(IssuesFor(byType[UnsupportedKey], byType[MismatchKey], byType[MissingChargesKey]), RevenueOpportunity)
  {
    var rows := [AuditEntry("PHARMACY", PotentialMissingCharge, 500.0)];
    assert rows[..0] == [];
    MissingChargesNeverReported(rows);
  }

  /** The intended reading: the missing-charge amount under the key the
      outcome loop writes, falling back to the created key. */
  function IntendedMissingAmount(byType: map<string, real>): real
    requires MissingChargesKey in byType
  {
    if Lower(PotentialMissingCharge) in byType then byType[Lower(PotentialMissingCharge)] else byType[MissingChargesKey]
  }

  /** Read that way, a revenue-opportunity issue is raised exactly when the
      table's missing-charge total is positive. */
  lemma IntendedReportsMissingCharges(rows: seq<AuditEntry>)
    ensures var byType := ByType(rows, true);
      MissingChargesKey in byType && UnsupportedKey in byType && MismatchKey in byType
      && (Raised(IssuesFor(byType[UnsupportedKey], byType[MismatchKey], IntendedMissingAmount(byType)), RevenueOpportunity)
          <==> OutcomeTotal(rows, PotentialMissingCharge) > 0.0)
  {
    ByTypeValues(rows);
    OutcomeKeys();
    var byType := ByType(rows, true);
    IssuesIff(byType[UnsupportedKey], byType[MismatchKey], IntendedMissingAmount(byType));
  }
}
