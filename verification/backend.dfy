/** The pure parts of the Flask backend: reading a metric out of an insights
    row's action lists, shaping each insights row (ROAS guarded against zero
    spend), and converting budgets from minor currency units. */
module Backend {
  import opened Optional
  import Arith

  /** One entry of an insights row's `actions` or `action_values` list. */
  datatype ActionItem = ActionItem(actionType: Option<string>, value: Option<real>)

  predicate HasType(item: ActionItem, actionType: string) {
    item.actionType == Some(actionType)
  }

  /** The `value` of the first item of `xs` with the requested type, 0 when
      that item has no value or when no item has the type. */
  function FirstMetric(xs: seq<ActionItem>, actionType: string): (r: real)
    ensures r == 0.0 || exists i :: 0 <= i < |xs| && HasType(xs[i], actionType) && xs[i].value == Some(r)
    decreases |xs|
  {
    if xs == [] then 0.0
    else if HasType(xs[0], actionType) then xs[0].value.GetOr(0.0)
    else FirstMetric(xs[1..], actionType)
  }

  /** `extract_metric(items, action_type)`: 0 for a missing or empty list,
      otherwise the scan of `FirstMetric`. */
  function ExtractMetric(items: Option<seq<ActionItem>>, actionType: string): (r: real)
    ensures items.None? || items.value == [] ==> r == 0.0
  {
    match items
    case None => 0.0
    case Some(xs) => if xs == [] then 0.0 else FirstMetric(xs, actionType)
  }

  /** The first item of the requested type decides the result: its value, or
      0 when it has none. */
  lemma {:induction false} ExtractMetricFirstMatch(xs: seq<ActionItem>, actionType: string, i: int)
    requires 0 <= i < |xs| && HasType(xs[i], actionType)
    requires forall j :: 0 <= j < i ==> !HasType(xs[j], actionType)
    ensures ExtractMetric(Some(xs), actionType) == xs[i].value.GetOr(0.0)
    decreases i
  {
    if i > 0 {
      assert !HasType(xs[0], actionType);
      ExtractMetricFirstMatch(xs[1..], actionType, i - 1);
    }
  }

  /** With no item of the requested type the result is 0. */
  lemma {:induction false} ExtractMetricNoMatch(xs: seq<ActionItem>, actionType: string)
    requires forall i :: 0 <= i < |xs| ==> !HasType(xs[i], actionType)
    ensures ExtractMetric(Some(xs), actionType) == 0.0
    decreases |xs|
  {
    if xs != [] {
      assert !HasType(xs[0], actionType);
      ExtractMetricNoMatch(xs[1..], actionType);
    }
  }

  /** Items after the first match never affect the result. */
  lemma {:induction false} ExtractMetricIgnoresLater(xs: seq<ActionItem>, ys: seq<ActionItem>, actionType: string)
    requires exists i :: 0 <= i < |xs| && HasType(xs[i], actionType)
    ensures ExtractMetric(Some(xs + ys), actionType) == ExtractMetric(Some(xs), actionType)
    decreases |xs|
  {
    if !HasType(xs[0], actionType) {
      assert (xs + ys)[1..] == xs[1..] + ys;
      var i :| 0 <= i < |xs| && HasType(xs[i], actionType);
      assert 0 <= i - 1 < |xs[1..]| && HasType(xs[1..][i - 1], actionType);
      ExtractMetricIgnoresLater(xs[1..], ys, actionType);
    } else {
      assert (xs + ys)[0] == xs[0];
    }
  }

  /** The insights fields the backend requests, as the Graph API returns them. */
  datatype InsightsApiRow = InsightsApiRow(
    adsetId: Option<string>,
    spend: Option<real>,
    actions: Option<seq<ActionItem>>,
    actionValues: Option<seq<ActionItem>>)

  /** One element of the `/adsets/insights` response. */
  datatype InsightRecord = InsightRecord(
    adsetId: Option<string>,
    spend: real,
    purchases: int,
    revenue: real,
    roas: real)

  const PurchaseType := "purchase"

  /** The body of the loop in `fetch_adset_insights` (rounding aside). */
  function ShapeInsight(row: InsightsApiRow): (r: InsightRecord)
    ensures r.adsetId == row.adsetId
    ensures r.spend == row.spend.GetOr(0.0)
    ensures r.revenue == ExtractMetric(row.actionValues, PurchaseType)
    ensures r.purchases == Arith.TruncToInt(ExtractMetric(row.actions, PurchaseType))
    ensures r.spend > 0.0 ==> r.roas * r.spend == r.revenue
    ensures r.spend <= 0.0 ==> r.roas == 0.0
  {
    var spend := row.spend.GetOr(0.0);
    var purchases := ExtractMetric(row.actions, PurchaseType);
    var revenue := ExtractMetric(row.actionValues, PurchaseType);
    var roas := Arith.GuardedRatio(revenue, spend);
    InsightRecord(row.adsetId, spend, Arith.TruncToInt(purchases), revenue, roas)
  }

  /** `fetch_adset_insights` after the API call: one record per row, in order. */
  method ShapeInsights(rows: seq<InsightsApiRow>) returns (results: seq<InsightRecord>)
    ensures |results| == |rows|
    ensures forall i :: 0 <= i < |rows| ==> results[i] == ShapeInsight(rows[i])
  {
    results := [];
    var k := 0;
    while k < |rows|
      invariant 0 <= k <= |rows|
      invariant |results| == k
      invariant forall i :: 0 <= i < k ==> results[i] == ShapeInsight(rows[i])
    {
      results := results + [ShapeInsight(rows[k])];
      k := k + 1;
    }
  }

  /** `int(a.get(field, 0)) / 100`: minor currency units to major units. */
  function MinorToMajor(minor: Option<int>): (r: real)
    ensures r * 100.0 == minor.GetOr(0) as real
  {
    minor.GetOr(0) as real / 100.0
  }

  /** Back from major to minor units. */
  function MajorToMinor(major: real): int {
    (major * 100.0).Floor
  }

  /** In exact arithmetic the conversion loses nothing: the minor units can
      be recovered from the converted budget. */
  lemma BudgetRoundTrip(minor: int)
    ensures MajorToMinor(MinorToMajor(Some(minor))) == minor
  {
    assert MinorToMajor(Some(minor)) * 100.0 == minor as real;
  }

  /** The ad-set fields the backend requests. */
  datatype AdSetApi = AdSetApi(
    id: string,
    name: string,
    status: string,
    campaignId: string,
    dailyBudget: Option<int>,
    lifetimeBudget: Option<int>,
    budgetRemaining: Option<int>)

  /** One element of the `/adsets` response. */
  datatype AdSetRecord = AdSetRecord(
    id: string,
    name: string,
    status: string,
    campaignId: string,
    dailyBudget: real,
    lifetimeBudget: real,
    budgetRemaining: real)

  /** The comprehension in `fetch_adsets`, for one ad set. */
  function ShapeAdSet(a: AdSetApi): (r: AdSetRecord)
    ensures r.id == a.id && r.name == a.name && r.status == a.status && r.campaignId == a.campaignId
    ensures r.dailyBudget * 100.0 == a.dailyBudget.GetOr(0) as real
    ensures r.lifetimeBudget * 100.0 == a.lifetimeBudget.GetOr(0) as real
    ensures r.budgetRemaining * 100.0 == a.budgetRemaining.GetOr(0) as real
  {
    AdSetRecord(a.id, a.name, a.status, a.campaignId,
                MinorToMajor(a.dailyBudget), MinorToMajor(a.lifetimeBudget), MinorToMajor(a.budgetRemaining))
  }
}
