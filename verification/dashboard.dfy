/** The data-shaping step of the Ads Manager preview: from the campaigns, ad
    sets and insights fetched from the backend, a search query and a
    break-even ROAS, it derives the filtered campaign and ad-set rows, the
    portfolio totals, the three best ad sets by ROAS and the suggested
    turn-offs. Everything here is recomputed from scratch on every change. */
module Dashboard {
  import opened Optional
  import opened Seqs
  import Text
  import Arith
  import opened EntityStatus

  // ---- Records as the frontend receives them --------------------------------

  datatype CampaignJson = CampaignJson(id: string, name: Option<string>, status: string)

  datatype AdSetJson = AdSetJson(
    id: string,
    name: Option<string>,
    campaignId: Option<string>,
    status: string,
    dailyBudget: Option<real>)

  /** An insights record; any metric may be missing. */
  datatype InsightJson = InsightJson(
    adsetId: string,
    spend: Option<real>,
    purchases: Option<int>,
    revenue: Option<real>,
    roas: Option<real>)

  // ---- Derived rows ----------------------------------------------------------

  /** `Scale` and `TooEarly` have a display style but no rule produces them. */
  datatype Recommendation = Keep | TurnOff | Scale | TooEarly

  /** The label shown (and searched) for a recommendation; each label names
      exactly one recommendation. */
  function RecLabel(r: Recommendation): (name: string)
    ensures name == "Turn off" <==> r == TurnOff
    ensures name == "Keep" <==> r == Keep
  {
    match r
    case Keep => "Keep"
    case TurnOff => "Turn off"
    case Scale => "Scale"
    case TooEarly => "Too early"
  }

  datatype CampaignRow = CampaignRow(
    id: string,
    name: Option<string>,
    status: Status,
    spend: real,
    purchases: int,
    revenue: real,
    roas: real,
    cpp: real)

  /** An ad set joined with its insight; `cpp` is null when there are no
      purchases. */
  datatype AdSetRow = AdSetRow(
    id: string,
    name: Option<string>,
    campaign: Option<string>,
    status: Status,
    budget: real,
    spend: real,
    purchases: int,
    revenue: real,
    roas: real,
    cpp: Option<real>,
    rec: Recommendation)

  datatype Totals = Totals(spend: real, purchases: int, revenue: real, roas: real, cpp: real)

  /** What the page shows: the filtered rows, totals, best and worst ad sets. */
  datatype View = View(
    campaigns: seq<CampaignRow>,
    adsets: seq<AdSetRow>,
    totals: Totals,
    top: seq<AdSetRow>,
    off: seq<AdSetRow>)

  // ---- Insights index ---------------------------------------------------------

  /** `Object.fromEntries(insights.map(i => [i.adset_id, i]))`: entries are
      added front to back, so a later record for the same id replaces an
      earlier one. */
  function IndexInsights(insights: seq<InsightJson>): (index: map<string, InsightJson>)
    ensures index.Keys == set i | 0 <= i < |insights| :: insights[i].adsetId
    decreases |insights|
  {
    if insights == [] then map[]
    else
      var last := insights[|insights| - 1];
      var init := insights[..|insights| - 1];
      var index := IndexInsights(init);
      assert forall i :: 0 <= i < |init| ==> init[i] == insights[i];
      index[last.adsetId := last]
  }

  /** Last write wins: the index holds, for each id, the last record with
      that id. */
  lemma {:induction false} IndexLastWins(insights: seq<InsightJson>, i: int)
    requires 0 <= i < |insights|
    requires forall j :: i < j < |insights| ==> insights[j].adsetId != insights[i].adsetId
    ensures insights[i].adsetId in IndexInsights(insights)
    ensures IndexInsights(insights)[insights[i].adsetId] == insights[i]
    decreases |insights|
  {
    var n := |insights| - 1;
    if i < n {
      var init := insights[..n];
      assert init[i] == insights[i];
      assert forall j :: i < j < |init| ==> init[j] == insights[j];
      IndexLastWins(init, i);
    }
  }

  // ---- Search filter ------------------------------------------------------------

  /** `query.trim().toLowerCase()`. */
  function NormalizeQuery(query: string): (q: string)
    ensures q == [] <==> Text.AllSpace(query)
  {
    Text.Lower(Text.Trim(query))
  }

  /** `String(x[f] ?? "")`: a missing field is searched as the empty string. */
  function FieldText(field: Option<string>): (t: string)
    ensures field.Some? ==> t == field.value
    ensures field.None? ==> t == ""
  {
    field.GetOr("")
  }

  /** Some field, lowercased, has `q` as a contiguous piece. */
  ghost predicate HasOccurrence(fields: seq<string>, q: string) {
    exists k, p :: 0 <= k < |fields| && Text.OccursAt(Text.Lower(fields[k]), q, p)
  }

  /** `fields.some(f => String(x[f] ?? "").toLowerCase().includes(q))`: the
      scan succeeds exactly when some lowercased field has `q` as a piece. */
  function Matches(fields: seq<string>, q: string): (b: bool)
    ensures b <==> HasOccurrence(fields, q)
  {
    AnyContainsIffOccurs(fields, q);
    exists k :: 0 <= k < |fields| && Text.Contains(Text.Lower(fields[k]), q)
  }

  lemma AnyContainsIffOccurs(fields: seq<string>, q: string)
    ensures (exists k :: 0 <= k < |fields| && Text.Contains(Text.Lower(fields[k]), q)) <==> HasOccurrence(fields, q)
  {
    forall k | 0 <= k < |fields|
      ensures Text.Contains(Text.Lower(fields[k]), q) <==> exists p :: Text.OccursAt(Text.Lower(fields[k]), q, p)
    {
      Text.ContainsIffOccurs(Text.Lower(fields[k]), q);
    }
  }

  /** `filterByName(arr, fields)`: the whole list for a blank query, otherwise
      the rows with a field containing the query, in their original order. */
  function FilterByName<T(==,!new)>(rows: seq<T>, query: string, fields: T -> seq<string>): (r: seq<T>)
    ensures Text.AllSpace(query) ==> r == rows
    ensures Subseq(r, rows)
    ensures forall i :: 0 <= i < |r| && !Text.AllSpace(query) ==> Matches(fields(r[i]), NormalizeQuery(query))
    ensures forall i :: 0 <= i < |rows| && Matches(fields(rows[i]), NormalizeQuery(query)) ==> rows[i] in r
    ensures !Text.AllSpace(query) ==>
              forall x :: multiset(r)[x] == if Matches(fields(x), NormalizeQuery(query)) then multiset(rows)[x] else 0
  {
    var q := NormalizeQuery(query);
    if q == [] then
      SubseqRefl(rows);
      rows
    else
      var keep := x => Matches(fields(x), q);
      SelectIsSubseq(rows, keep);
      forall x
        ensures multiset(Select(rows, keep))[x] == if Matches(fields(x), q) then multiset(rows)[x] else 0
      {
        SelectCount(rows, keep, x);
      }
      Select(rows, keep)
  }

  lemma {:induction false} SubseqRefl<T>(xs: seq<T>)
    ensures Subseq(xs, xs)
    decreases |xs|
  {
    if xs != [] {
      SubseqRefl(xs[1..]);
    }
  }

  /** The searchable fields of a campaign row: name and status. */
  function CampaignFields(c: CampaignRow): seq<string> {
    [FieldText(c.name), Label(c.status)]
  }

  /** The searchable fields of an ad-set row: name, campaign, status and
      recommendation. */
  function AdSetFields(a: AdSetRow): seq<string> {
    [FieldText(a.name), FieldText(a.campaign), Label(a.status), RecLabel(a.rec)]
  }

  /** A campaign matches a query exactly when its name or its status label
      does. */
  lemma CampaignSearch(c: CampaignRow, q: string)
    ensures Matches(CampaignFields(c), q) <==>
              Text.Contains(Text.Lower(FieldText(c.name)), q) || Text.Contains(Text.Lower(Label(c.status)), q)
  {
    var fs := CampaignFields(c);
    assert fs[0] == FieldText(c.name) && fs[1] == Label(c.status);
  }

  /** An ad set matches a query exactly when its name, its campaign id, its
      status label or its recommendation label does. */
  lemma AdSetSearch(a: AdSetRow, q: string)
    ensures Matches(AdSetFields(a), q) <==>
              Text.Contains(Text.Lower(FieldText(a.name)), q) || Text.Contains(Text.Lower(FieldText(a.campaign)), q)
              || Text.Contains(Text.Lower(Label(a.status)), q) || Text.Contains(Text.Lower(RecLabel(a.rec)), q)
  {
    var fs := AdSetFields(a);
    assert fs[0] == FieldText(a.name) && fs[1] == FieldText(a.campaign);
    assert fs[2] == Label(a.status) && fs[3] == RecLabel(a.rec);
  }

  // ---- Row mapping -------------------------------------------------------------------

  /** A campaign row: its own status mapping, and zero metrics (cpp is 0,
      not null), since insights are only fetched per ad set. */
  function MapCampaign(c: CampaignJson): (r: CampaignRow)
    ensures r.id == c.id && r.name == c.name && r.status == FromBackend(c.status)
    ensures r.spend == 0.0 && r.purchases == 0 && r.revenue == 0.0 && r.roas == 0.0 && r.cpp == 0.0
  {
    CampaignRow(c.id, c.name, FromBackend(c.status), 0.0, 0, 0.0, 0.0, 0.0)
  }

  /** `spend > 0 && roas < breakEvenROAS ? "Turn off" : "Keep"`. */
  function Recommend(spend: real, roas: real, breakEven: real): (r: Recommendation)
    ensures r == TurnOff <==> spend > 0.0 && roas < breakEven
    ensures r == Keep <==> !(spend > 0.0 && roas < breakEven)
  {
    if spend > 0.0 && roas < breakEven then TurnOff else Keep
  }

  /** The rule only ever says Keep or Turn off. */
  lemma RecommendNeverScaleOrTooEarly(spend: real, roas: real, breakEven: real)
    ensures Recommend(spend, roas, breakEven) != Scale
    ensures Recommend(spend, roas, breakEven) != TooEarly
  {
  }

  /** Raising the break-even ROAS never withdraws a Turn off. */
  lemma RecommendMonotone(spend: real, roas: real, low: real, high: real)
    requires low <= high
    requires Recommend(spend, roas, low) == TurnOff
    ensures Recommend(spend, roas, high) == TurnOff
  {
  }

  /** An ad set joined with the insight indexed under its id; a missing
      insight or metric counts as 0. */
  function Enrich(a: AdSetJson, index: map<string, InsightJson>, breakEven: real): (r: AdSetRow)
    ensures r.id == a.id && r.name == a.name && r.campaign == a.campaignId
    ensures r.status == FromBackend(a.status) && r.budget == a.dailyBudget.GetOr(0.0)
    ensures a.id !in index ==> r.spend == 0.0 && r.purchases == 0 && r.revenue == 0.0 && r.roas == 0.0
    ensures a.id in index ==>
              && r.spend == index[a.id].spend.GetOr(0.0)
              && r.purchases == index[a.id].purchases.GetOr(0)
              && r.revenue == index[a.id].revenue.GetOr(0.0)
              && r.roas == index[a.id].roas.GetOr(0.0)
    ensures r.cpp.None? <==> r.purchases <= 0
    ensures r.cpp.Some? ==> r.cpp.value * r.purchases as real == r.spend
    ensures r.rec == TurnOff <==> r.spend > 0.0 && r.roas < breakEven
    ensures r.rec == Keep || r.rec == TurnOff
  {
    var insight := if a.id in index then Some(index[a.id]) else None;
    var spend := if insight.Some? then insight.value.spend.GetOr(0.0) else 0.0;
    var purchases := if insight.Some? then insight.value.purchases.GetOr(0) else 0;
    var revenue := if insight.Some? then insight.value.revenue.GetOr(0.0) else 0.0;
    var roas := if insight.Some? then insight.value.roas.GetOr(0.0) else 0.0;
    var cpp := if purchases > 0 then Some(spend / purchases as real) else None;
    AdSetRow(a.id, a.name, a.campaignId, FromBackend(a.status), a.dailyBudget.GetOr(0.0),
             spend, purchases, revenue, roas, cpp, Recommend(spend, roas, breakEven))
  }

  function MapCampaigns(campaigns: seq<CampaignJson>): (rows: seq<CampaignRow>)
    ensures |rows| == |campaigns|
    ensures forall i :: 0 <= i < |campaigns| ==> rows[i] == MapCampaign(campaigns[i])
  {
    seq(|campaigns|, i requires 0 <= i < |campaigns| => MapCampaign(campaigns[i]))
  }

  function MapAdSets(adsets: seq<AdSetJson>, index: map<string, InsightJson>, breakEven: real): (rows: seq<AdSetRow>)
    ensures |rows| == |adsets|
    ensures forall i :: 0 <= i < |adsets| ==> rows[i] == Enrich(adsets[i], index, breakEven)
  {
    seq(|adsets|, i requires 0 <= i < |adsets| => Enrich(adsets[i], index, breakEven))
  }

  // ---- Totals ---------------------------------------------------------------------------

  function SpendOf(r: AdSetRow): real { r.spend }
  function RevenueOf(r: AdSetRow): real { r.revenue }
  function PurchasesOf(r: AdSetRow): int { r.purchases }

  /** Sums over the given rows, with ROAS and cost per purchase as guarded
      ratios of the sums (0 instead of a division by zero). */
  function ComputeTotals(rows: seq<AdSetRow>): (t: Totals)
    ensures t.spend > 0.0 ==> t.roas * t.spend == t.revenue
    ensures t.spend <= 0.0 ==> t.roas == 0.0
    ensures t.purchases > 0 ==> t.cpp * t.purchases as real == t.spend
    ensures t.purchases <= 0 ==> t.cpp == 0.0
  {
    var spend := SumBy(rows, SpendOf);
    var purchases := SumIntBy(rows, PurchasesOf);
    var revenue := SumBy(rows, RevenueOf);
    Totals(spend, purchases, revenue,
           Arith.GuardedRatio(revenue, spend), Arith.GuardedRatio(spend, purchases as real))
  }

  /** The sums are additive: the totals of two groups of rows add up to the
      totals of both together. */
  lemma TotalsAppend(a: seq<AdSetRow>, b: seq<AdSetRow>)
    ensures ComputeTotals(a + b).spend == ComputeTotals(a).spend + ComputeTotals(b).spend
    ensures ComputeTotals(a + b).purchases == ComputeTotals(a).purchases + ComputeTotals(b).purchases
    ensures ComputeTotals(a + b).revenue == ComputeTotals(a).revenue + ComputeTotals(b).revenue
  {
    SumByAppend(a, b, SpendOf);
    SumIntByAppend(a, b, PurchasesOf);
    SumByAppend(a, b, RevenueOf);
  }

  /** The totals of a single row are that row's spend, purchases and revenue;
      with `TotalsAppend`, the totals are the sums over the rows. */
  lemma TotalsSingle(r: AdSetRow)
    ensures ComputeTotals([r]).spend == r.spend
    ensures ComputeTotals([r]).purchases == r.purchases
    ensures ComputeTotals([r]).revenue == r.revenue
  {
    assert [r][..0] == [];
    assert SumBy([r], SpendOf) == SumBy([], SpendOf) + SpendOf(r);
    assert SumIntBy([r], PurchasesOf) == SumIntBy([], PurchasesOf) + PurchasesOf(r);
    assert SumBy([r], RevenueOf) == SumBy([], RevenueOf) + RevenueOf(r);
  }

  /** With the non-negative spend and revenue the backend reports, the
      totals and their ROAS are non-negative. */
  lemma TotalsNonNegative(rows: seq<AdSetRow>)
    requires forall i :: 0 <= i < |rows| ==> rows[i].spend >= 0.0 && rows[i].revenue >= 0.0
    ensures ComputeTotals(rows).spend >= 0.0
    ensures ComputeTotals(rows).revenue >= 0.0
    ensures ComputeTotals(rows).roas >= 0.0
  {
    SumByNonNegative(rows, SpendOf);
    SumByNonNegative(rows, RevenueOf);
  }

  // ---- Rankings -------------------------------------------------------------------------

  function RoasOf(r: AdSetRow): real { r.roas }
  function NegRoasOf(r: AdSetRow): real { -r.roas }

  /** `[...rows].sort((a, b) => b.roas - a.roas).slice(0, 3)`: the three
      rows with the highest ROAS, best first, ties in their original order. */
  function Top(rows: seq<AdSetRow>): (t: seq<AdSetRow>)
    ensures |t| == Min(3, |rows|)
  {
    SortBy(rows, NegRoasOf)[..Min(3, |rows|)]
  }

  /** `Top` is ranked best first, is drawn from the rows, and no row left out
      has a higher ROAS than any row chosen. */
  lemma TopRanked(rows: seq<AdSetRow>)
    ensures forall i, j :: 0 <= i < j < |Top(rows)| ==> Top(rows)[i].roas >= Top(rows)[j].roas
    ensures multiset(Top(rows)) <= multiset(rows)
    ensures forall x, k :: x in multiset(rows) - multiset(Top(rows)) && 0 <= k < |Top(rows)| ==>
              x.roas <= Top(rows)[k].roas
  {
    var sorted := SortBy(rows, NegRoasOf);
    var n := Min(3, |rows|);
    SortedPrefix(sorted, n);
    assert multiset(rows) - multiset(sorted[..n]) == multiset(sorted[n..]);
  }

  /** In a list sorted by descending ROAS, a prefix is sorted the same way and
      beats everything after it. */
  lemma SortedPrefix(sorted: seq<AdSetRow>, n: nat)
    requires SortedBy(sorted, NegRoasOf) && n <= |sorted|
    ensures forall i, j :: 0 <= i < j < n ==> sorted[..n][i].roas >= sorted[..n][j].roas
    ensures multiset(sorted) == multiset(sorted[..n]) + multiset(sorted[n..])
    ensures forall x, k :: x in multiset(sorted[n..]) && 0 <= k < n ==> x.roas <= sorted[..n][k].roas
  {
    var t, rest := sorted[..n], sorted[n..];
    assert sorted == t + rest;
    forall x: AdSetRow, k | x in multiset(rest) && 0 <= k < n
      ensures x.roas <= t[k].roas
    {
      var m :| 0 <= m < |rest| && rest[m] == x;
      assert sorted[n + m] == x;
      assert NegRoasOf(sorted[k]) <= NegRoasOf(sorted[n + m]);
    }
    forall i, j | 0 <= i < j < n
      ensures t[i].roas >= t[j].roas
    {
      assert NegRoasOf(sorted[i]) <= NegRoasOf(sorted[j]);
    }
  }

  /** Ties keep their original order: for every ROAS value, the chosen rows
      with that value are the first ones with that value in `rows`. */
  lemma TopStable(rows: seq<AdSetRow>, v: real)
    ensures IsPrefix(WithKey(Top(rows), NegRoasOf, v), WithKey(rows, NegRoasOf, v))
  {
    var sorted := SortBy(rows, NegRoasOf);
    SortByStable(rows, NegRoasOf, v);
    var n := Min(3, |rows|);
    assert sorted == sorted[..n] + sorted[n..];
    WithKeyAppend(sorted[..n], sorted[n..], NegRoasOf, v);
  }

  predicate IsActive(r: AdSetRow) {
    r.status == Active
  }

  /** Spend of at least 50 with ROAS below break-even. */
  predicate Underperforms(r: AdSetRow, breakEven: real) {
    r.spend >= 50.0 && r.roas < breakEven
  }

  predicate IsFlagged(r: AdSetRow, breakEven: real) {
    IsActive(r) && Underperforms(r, breakEven)
  }

  /** `rows.filter(active).filter(spend >= 50 && roas < breakEven)
      .sort((a, b) => a.roas - b.roas)`: the suggested turn-offs, worst
      first. */
  function Off(rows: seq<AdSetRow>, breakEven: real): (o: seq<AdSetRow>)
    ensures forall i, j :: 0 <= i < j < |o| ==> o[i].roas <= o[j].roas
    ensures forall x :: multiset(o)[x] == if IsFlagged(x, breakEven) then multiset(rows)[x] else 0
    ensures forall v :: WithKey(o, RoasOf, v) == WithKey(Select(rows, r => IsFlagged(r, breakEven)), RoasOf, v)
  {
    var underperforms := r => Underperforms(r, breakEven);
    var active := Select(rows, IsActive);
    var flagged := Select(active, underperforms);
    var o := SortBy(flagged, RoasOf);
    forall x
      ensures multiset(o)[x] == if IsFlagged(x, breakEven) then multiset(rows)[x] else 0
    {
      SelectCount(rows, IsActive, x);
      SelectCount(active, underperforms, x);
    }
    SelectSelect(rows, IsActive, underperforms, r => IsFlagged(r, breakEven));
    forall v
      ensures WithKey(o, RoasOf, v) == WithKey(flagged, RoasOf, v)
    {
      SortByStable(flagged, RoasOf, v);
    }
    o
  }

  /** A row is among the suggested turn-offs exactly when it is an active,
      underperforming row of the input. */
  lemma OffMembers(rows: seq<AdSetRow>, breakEven: real, x: AdSetRow)
    ensures x in Off(rows, breakEven) <==> x in rows && IsFlagged(x, breakEven)
  {
    assert x in Off(rows, breakEven) <==> multiset(Off(rows, breakEven))[x] > 0;
  }

  // ---- The whole step ---------------------------------------------------------------------

  /** The `data` memo of the preview component. */
  function Aggregate(campaigns: seq<CampaignJson>, adsets: seq<AdSetJson>, insights: seq<InsightJson>,
                     query: string, breakEven: real): (d: View)
    ensures Subseq(d.campaigns, MapCampaigns(campaigns))
    ensures Subseq(d.adsets, MapAdSets(adsets, IndexInsights(insights), breakEven))
    ensures |d.top| == Min(3, |d.adsets|)
    ensures Text.AllSpace(query) ==>
              d.campaigns == MapCampaigns(campaigns) && d.adsets == MapAdSets(adsets, IndexInsights(insights), breakEven)
  {
    var index := IndexInsights(insights);
    var adsetsFiltered := FilterByName(MapAdSets(adsets, index, breakEven), query, AdSetFields);
    View(FilterByName(MapCampaigns(campaigns), query, CampaignFields),
              adsetsFiltered,
              ComputeTotals(adsetsFiltered),
              Top(adsetsFiltered),
              Off(adsetsFiltered, breakEven))
  }

  /** Every suggested turn-off is one of the listed ad sets and carries the
      Turn off recommendation; the converse fails for paused rows and rows
      with less than 50 spent. */
  lemma AggregateOffAreTurnOff(campaigns: seq<CampaignJson>, adsets: seq<AdSetJson>, insights: seq<InsightJson>,
                               query: string, breakEven: real)
    ensures var d := Aggregate(campaigns, adsets, insights, query, breakEven);
            forall r :: r in d.off ==> r in d.adsets && r.rec == TurnOff
  {
    var d := Aggregate(campaigns, adsets, insights, query, breakEven);
    var mapped := MapAdSets(adsets, IndexInsights(insights), breakEven);
    forall r | r in d.off
      ensures r in d.adsets && r.rec == TurnOff
    {
      OffMembers(d.adsets, breakEven, r);
      SubseqMember(d.adsets, mapped, r);
    }
  }

  /** For a non-blank query, a row is kept exactly when one of its fields,
      lowercased, has the normalized query as a contiguous piece. */
  lemma FilterKeepsExactlyMatches<T(!new)>(rows: seq<T>, query: string, fields: T -> seq<string>, x: T)
    requires !Text.AllSpace(query) && x in rows
    ensures x in FilterByName(rows, query, fields) <==> HasOccurrence(fields(x), NormalizeQuery(query))
  {
    var r := FilterByName(rows, query, fields);
    if x in r {
      var j :| 0 <= j < |r| && r[j] == x;
    }
  }

  /** Rows with no spend, purchases, revenue or ROAS have zero totals and
      are never suggested for turning off. */
  lemma ZeroRows(rows: seq<AdSetRow>, breakEven: real)
    requires forall i :: 0 <= i < |rows| ==> rows[i].spend == 0.0 && rows[i].purchases == 0 && rows[i].revenue == 0.0
    ensures ComputeTotals(rows) == Totals(0.0, 0, 0.0, 0.0, 0.0)
    ensures Off(rows, breakEven) == []
  {
    SumByZero(rows, SpendOf);
    SumByZero(rows, RevenueOf);
    SumIntByZero(rows, PurchasesOf);
  }

  /** An ad-set row as shown before any insight has arrived. */
  predicate IsBlankRow(r: AdSetRow) {
    r.spend == 0.0 && r.purchases == 0 && r.revenue == 0.0 && r.roas == 0.0 && r.cpp == None && r.rec == Keep
  }

  /** With no insights at all (none fetched yet, or the fetch failed), every
      ad set shows zero metrics, no cost per purchase and Keep, nothing is
      suggested for turning off, and the totals are zero. */
  lemma AggregateWithoutInsights(campaigns: seq<CampaignJson>, adsets: seq<AdSetJson>, query: string, breakEven: real)
    ensures forall r :: r in Aggregate(campaigns, adsets, [], query, breakEven).adsets ==> IsBlankRow(r)
    ensures Aggregate(campaigns, adsets, [], query, breakEven).off == []
    ensures Aggregate(campaigns, adsets, [], query, breakEven).totals == Totals(0.0, 0, 0.0, 0.0, 0.0)
  {
    var d := Aggregate(campaigns, adsets, [], query, breakEven);
    AggregateParts(campaigns, adsets, [], query, breakEven);
    assert IndexInsights([]) == map[];
    MappedBlank(adsets, breakEven);
    SubseqOfBlank(d.adsets, MapAdSets(adsets, map[], breakEven));
    ZeroRows(d.adsets, breakEven);
  }

  lemma MappedBlank(adsets: seq<AdSetJson>, breakEven: real)
    ensures forall i :: 0 <= i < |adsets| ==> IsBlankRow(MapAdSets(adsets, map[], breakEven)[i])
  {
  }

  lemma SubseqOfBlank(a: seq<AdSetRow>, b: seq<AdSetRow>)
    requires Subseq(a, b) && forall i :: 0 <= i < |b| ==> IsBlankRow(b[i])
    ensures forall r :: r in a ==> IsBlankRow(r)
  {
    forall r | r in a
      ensures IsBlankRow(r)
    {
      SubseqMember(a, b, r);
    }
  }

  lemma AggregateParts(campaigns: seq<CampaignJson>, adsets: seq<AdSetJson>, insights: seq<InsightJson>,
                       query: string, breakEven: real)
    ensures var d := Aggregate(campaigns, adsets, insights, query, breakEven);
            && d.campaigns == FilterByName(MapCampaigns(campaigns), query, CampaignFields)
            && d.adsets == FilterByName(MapAdSets(adsets, IndexInsights(insights), breakEven), query, AdSetFields)
            && Subseq(d.adsets, MapAdSets(adsets, IndexInsights(insights), breakEven))
            && d.totals == ComputeTotals(d.adsets)
            && d.top == Top(d.adsets)
            && d.off == Off(d.adsets, breakEven)
  {
  }

  lemma {:induction false} SubseqMember<T>(a: seq<T>, b: seq<T>, x: T)
    requires Subseq(a, b) && x in a
    ensures x in b
    decreases |b|
  {
    if a[0] == b[0] {
      if x != a[0] {
        SubseqMember(a[1..], b[1..], x);
      }
    } else {
      SubseqMember(a, b[1..], x);
    }
  }

  /** The break-even input: `parseFloat(value) || 1.34`, so an unparsable
      entry and 0 both fall back to 1.34. */
  function BreakEvenFromInput(parsed: Option<real>): (r: real)
    ensures r != 0.0
    ensures parsed.Some? && parsed.value != 0.0 ==> r == parsed.value
    ensures parsed.None? || parsed.value == 0.0 ==> r == 1.34
  {
    if parsed.Some? && parsed.value != 0.0 then parsed.value else 1.34
  }
}
