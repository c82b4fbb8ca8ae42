/** Worked examples of the dashboard's behaviour on concrete data. */
module Scenarios {
  import opened Optional
  import opened EntityStatus
  import opened Dashboard
  import Text

  const BreakEven: real := 1.34

  function AdSet(id: string, name: string, campaign: string): AdSetJson {
    AdSetJson(id, Some(name), Some(campaign), "ACTIVE", Some(20.0))
  }

  /** Searching is case-insensitive: "summer" finds "Summer Sale". */
  lemma SearchIgnoresCase()
    ensures var c := MapCampaign(CampaignJson("1", Some("Summer Sale"), "ACTIVE"));
            FilterByName([c], "summer", CampaignFields) == [c]
  {
    var c := MapCampaign(CampaignJson("1", Some("Summer Sale"), "ACTIVE"));
    NormalizeSummer();
    SummerSaleContainsSummer();
    assert CampaignFields(c)[0] == "Summer Sale";
    assert Matches(CampaignFields(c), "summer");
    var r := FilterByName([c], "summer", CampaignFields);
    assert c in r;
    SubseqOfSingleton(r, c);
  }

  lemma SubseqOfSingleton<T>(r: seq<T>, c: T)
    requires Seqs.Subseq(r, [c]) && c in r
    ensures r == [c]
  {
    assert r[0] == c;
    assert Seqs.Subseq(r[1..], []);
  }

  lemma NormalizeSummer()
    ensures NormalizeQuery("summer") == "summer"
  {
    var query := "summer";
    assert Text.TrimBounds(query) == (0, 6) by {
      assert !Text.IsJsSpace(query[0]) && !Text.IsJsSpace(query[5]);
    }
    assert Text.Trim(query) == query;
    LowerUnchanged(query);
  }

  lemma SummerSaleContainsSummer()
    ensures Text.Contains(Text.Lower("Summer Sale"), "summer")
  {
    assert Text.Lower("Summer Sale")[..6] == "summer";
  }

  lemma LowerUnchanged(s: string)
    requires forall i :: 0 <= i < |s| ==> !('A' <= s[i] <= 'Z')
    ensures Text.Lower(s) == s
  {
  }

  /** An ad set without an insight: zero metrics, no cost per purchase, Keep. */
  lemma MissingInsightIsZero()
    ensures var r := Enrich(AdSet("10", "AS1", "1"), map[], BreakEven);
            r.spend == 0.0 && r.purchases == 0 && r.revenue == 0.0 && r.roas == 0.0
            && r.cpp == None && r.rec == Keep
  {
  }

  /** Spend without purchases below break-even: no cost per purchase, Turn off. */
  lemma SpendWithoutPurchases()
    ensures var i := InsightJson("10", Some(100.0), Some(0), Some(0.0), Some(0.5));
            var r := Enrich(AdSet("10", "AS1", "1"), map["10" := i], BreakEven);
            r.cpp == None && r.rec == TurnOff
  {
  }

  /** No spend means Keep, whatever the ROAS. */
  lemma NoSpendKeeps()
    ensures var i := InsightJson("10", Some(0.0), Some(0), None, Some(0.0));
            Enrich(AdSet("10", "AS1", "1"), map["10" := i], BreakEven).rec == Keep
  {
  }

  /** Totals of two ad sets: 150 spent, 2 purchases, 150 revenue, ROAS 1 and
      75 per purchase. */
  lemma TwoRowTotals()
    ensures var a := AdSetRow("1", None, None, Active, 0.0, 100.0, 2, 150.0, 1.5, Some(50.0), Keep);
            var b := AdSetRow("2", None, None, Active, 0.0, 50.0, 0, 0.0, 0.0, None, TurnOff);
            ComputeTotals([a, b]) == Totals(150.0, 2, 150.0, 1.0, 75.0)
  {
    var a := AdSetRow("1", None, None, Active, 0.0, 100.0, 2, 150.0, 1.5, Some(50.0), Keep);
    var b := AdSetRow("2", None, None, Active, 0.0, 50.0, 0, 0.0, 0.0, None, TurnOff);
    assert [a, b][..1] == [a];
    assert [a][..0] == [];
    assert Seqs.SumBy([a], SpendOf) == 100.0;
    assert Seqs.SumBy([a, b], SpendOf) == 150.0;
    assert Seqs.SumBy([a], RevenueOf) == 150.0;
    assert Seqs.SumBy([a, b], RevenueOf) == 150.0;
    assert Seqs.SumIntBy([a], PurchasesOf) == 2;
    assert Seqs.SumIntBy([a, b], PurchasesOf) == 2;
  }

  const Campaigns := [CampaignJson("1", Some("C1"), "ACTIVE")]
  const AdSets := [AdSet("10", "AS1", "1")]
  const Insights := [InsightJson("10", Some(60.0), Some(1), Some(50.0), Some(0.83))]
  const AS1Row := AdSetRow("10", Some("AS1"), Some("1"), Active, 20.0, 60.0, 1, 50.0, 0.83, Some(60.0), TurnOff)

  /** One active campaign with one active ad set that spent 60 for 50 of
      revenue at ROAS 0.83: the ad set is recommended for turning off, is the
      one suggested turn-off, and the portfolio ROAS is 50/60. */
  lemma EndToEnd()
    ensures var d := Aggregate(Campaigns, AdSets, Insights, "", BreakEven);
            && d.adsets == [AS1Row] && d.off == [AS1Row]
            && d.totals.roas == 50.0 / 60.0
  {
    var d := Aggregate(Campaigns, AdSets, Insights, "", BreakEven);
    EndToEndRow();
    assert MapAdSets(AdSets, IndexInsights(Insights), BreakEven) == [AS1Row];
    assert d.adsets == [AS1Row];
    TotalsSingle(AS1Row);
    OneFlagged(AS1Row, BreakEven);
  }

  lemma EndToEndRow()
    ensures Enrich(AdSets[0], IndexInsights(Insights), BreakEven) == AS1Row
  {
    assert Insights[..0] == [];
    assert IndexInsights(Insights) == map["10" := Insights[0]];
  }

  /** A single flagged row is its own list of suggested turn-offs. */
  lemma OneFlagged(r: AdSetRow, breakEven: real)
    requires IsFlagged(r, breakEven)
    ensures Off([r], breakEven) == [r]
  {
    var o := Off([r], breakEven);
    assert multiset(o)[r] == 1;
    forall x | x != r
      ensures multiset(o)[x] == 0
    {
    }
    assert multiset(o) == multiset{r};
    assert |o| == 1;
    assert o[0] in multiset(o);
  }
}
