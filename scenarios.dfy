/**
 * The sample bills of generate_bills.py run through both detectors, the boundary cases
 * of the three rules, and the inputs on which the two copies of the engine disagree.
 */
module Scenarios {
  import opened Wrappers
  import opened PyNumbers
  import opened Records
  import opened Findings
  import opened Rules
  import opened Extraction
  import Backend
  import App
  import opened Summary

  /** The fields a sample bill prints, stored as extraction stores them (usages as `int`, money as `float`). */
  function Coerced(total: real, usage: int, customer: real, t1Rate: real, t1Usage: int, t1Cost: real,
                   t2Rate: real, t2Usage: int, t2Cost: real, dist: real, taxes: real): Record
  {
    map[
      "total_amount" := Num(total), "usage_kwh" := Int(usage), "customer_charge" := Num(customer),
      "tier1_rate" := Num(t1Rate), "tier1_usage" := Int(t1Usage), "tier1_cost" := Num(t1Cost),
      "tier2_rate" := Num(t2Rate), "tier2_usage" := Int(t2Usage), "tier2_cost" := Num(t2Cost),
      "dist_charge" := Num(dist), "taxes" := Num(taxes)]
  }

  lemma CoercedFields(total: real, usage: int, customer: real, t1Rate: real, t1Usage: int, t1Cost: real,
                      t2Rate: real, t2Usage: int, t2Cost: real, dist: real, taxes: real)
    ensures var c := Coerced(total, usage, customer, t1Rate, t1Usage, t1Cost, t2Rate, t2Usage, t2Cost, dist, taxes);
      && Get(c, "total_amount") == Num(total) && Get(c, "usage_kwh") == Int(usage)
      && Get(c, "tier1_rate") == Num(t1Rate) && Get(c, "tier1_usage") == Int(t1Usage)
      && Get(c, "tier1_cost") == Num(t1Cost)
      && ChargeTotal(c) == customer + t1Cost + t2Cost + dist + taxes
  {
  }

  /** The high-usage bill (945 kWh, charges adding up to the billed 178.92). */
  function SpikeBill(): Record
  {
    WithComponents(Coerced(178.92, 945, 10.0, 0.13, 500, 65.0, 0.17, 445, 75.65, 12.0, 16.27))
  }

  /** Line items 178.92 match the total; only the spike fires, priced at 66.75, so severity is high. */
  lemma SpikeBillFindings()
    ensures ToReal(SpikeBill()["components_sum"]) == 178.92
    ensures Backend.Anomalies(SpikeBill()) == [Finding(UsageSpike, High, 66.75)]
    ensures App.Anomalies(SpikeBill()) == [Finding(UsageSpike, High, 66.75)]
    ensures MaxSeverity(Backend.Anomalies(SpikeBill())) == High
  {
    var c := Coerced(178.92, 945, 10.0, 0.13, 500, 65.0, 0.17, 445, 75.65, 12.0, 16.27);
    CoercedFields(178.92, 945, 10.0, 0.13, 500, 65.0, 0.17, 445, 75.65, 12.0, 16.27);
    Round2OfCents(178.92);
    var d := SpikeBill();
    assert ToReal(Get(d, "components_sum")) == 178.92;
    assert Get(d, "usage_kwh") == Int(945);
    assert Get(d, "tier1_rate") == Num(0.13) && Get(d, "tier1_usage") == Int(500) && Get(d, "tier1_cost") == Num(65.0);
    assert Get(d, "total_amount") == Num(178.92);
    assert SpikeRule(d) == Some(Finding(UsageSpike, High, 66.75));
    assert Backend.RateRule(d) == None;
    assert App.RateRule(d) == None;
    assert CalcRule(d) == None;
  }

  /** The normal bill (580 kWh, charges adding up to the billed 106.26). */
  function NormalBill(): Record
  {
    WithComponents(Coerced(106.26, 580, 10.0, 0.13, 500, 65.0, 0.17, 80, 13.60, 8.0, 9.66))
  }

  /** Nothing fires on the normal bill, in either copy, and the severity stays low. */
  lemma NormalBillFindings()
    ensures ToReal(NormalBill()["components_sum"]) == 106.26
    ensures Backend.Anomalies(NormalBill()) == []
    ensures App.Anomalies(NormalBill()) == []
    ensures MaxSeverity(Backend.Anomalies(NormalBill())) == Low
  {
    CoercedFields(106.26, 580, 10.0, 0.13, 500, 65.0, 0.17, 80, 13.60, 8.0, 9.66);
    Round2OfCents(106.26);
    var d := NormalBill();
    assert ToReal(Get(d, "components_sum")) == 106.26;
    assert Get(d, "usage_kwh") == Int(580);
    assert Get(d, "tier1_rate") == Num(0.13) && Get(d, "tier1_usage") == Int(500) && Get(d, "tier1_cost") == Num(65.0);
    assert Get(d, "total_amount") == Num(106.26);
    assert SpikeRule(d) == None;
    assert Backend.RateRule(d) == None;
    assert App.RateRule(d) == None;
    assert CalcRule(d) == None;
  }

  /** The bill whose total (121.84) overstates its line items (114.84). */
  function MathErrorBill(): Record
  {
    WithComponents(Coerced(121.84, 620, 10.0, 0.13, 500, 65.0, 0.17, 120, 20.40, 9.0, 10.44))
  }

  /** Only the calculation check fires, with the 7.00 overcharge, so severity is critical. */
  lemma MathErrorBillFindings()
    ensures ToReal(MathErrorBill()["components_sum"]) == 114.84
    ensures Backend.Anomalies(MathErrorBill()) == [Finding(CalculationError, Critical, 7.0)]
    ensures App.Anomalies(MathErrorBill()) == [Finding(CalculationError, Critical, 7.0)]
    ensures MaxSeverity(Backend.Anomalies(MathErrorBill())) == Critical
  {
    CoercedFields(121.84, 620, 10.0, 0.13, 500, 65.0, 0.17, 120, 20.40, 9.0, 10.44);
    Round2OfCents(114.84);
    var d := MathErrorBill();
    assert ToReal(Get(d, "components_sum")) == 114.84;
    assert Get(d, "usage_kwh") == Int(620);
    assert Get(d, "tier1_rate") == Num(0.13) && Get(d, "tier1_usage") == Int(500) && Get(d, "tier1_cost") == Num(65.0);
    assert Get(d, "total_amount") == Num(121.84);
    assert SpikeRule(d) == None;
    assert Backend.RateRule(d) == None;
    assert App.RateRule(d) == None;
    assert CalcRule(d) == Some(Finding(CalculationError, Critical, 7.0));
  }

  /** The bill that prices its first 500 kWh at 0.15 (75.00) instead of 0.13. */
  function WrongRateBill(): Record
  {
    WithComponents(Coerced(151.80, 750, 10.0, 0.15, 500, 75.0, 0.17, 250, 42.50, 10.50, 13.80))
  }

  /**
   * Both copies flag the rate, the printed one and the derived one alike, with the 10.00
   * overcharge; the line items match the total, so nothing else fires.
   */
  lemma WrongRateBillFindings()
    ensures ToReal(WrongRateBill()["components_sum"]) == 151.80
    ensures Backend.Anomalies(WrongRateBill()) == [Finding(RateError, Critical, 10.0)]
    ensures App.Anomalies(WrongRateBill()) == [Finding(RateError, Critical, 10.0)]
    ensures MaxSeverity(App.Anomalies(WrongRateBill())) == Critical
  {
    CoercedFields(151.80, 750, 10.0, 0.15, 500, 75.0, 0.17, 250, 42.50, 10.50, 13.80);
    Round2OfCents(151.80);
    var d := WrongRateBill();
    assert ToReal(Get(d, "components_sum")) == 151.80;
    assert Get(d, "usage_kwh") == Int(750);
    assert Get(d, "tier1_rate") == Num(0.15) && Get(d, "tier1_usage") == Int(500) && Get(d, "tier1_cost") == Num(75.0);
    assert Get(d, "total_amount") == Num(151.80);
    assert SpikeRule(d) == None;
    assert Backend.RateRule(d) == Some(Finding(RateError, Critical, 10.0));
    assert App.RateRule(d) == Some(Finding(RateError, Critical, 10.0));
    assert CalcRule(d) == None;
  }

  // ---------------------------------------------------------------- boundaries

  /** Usage must exceed 800 kWh: 800 does not fire, 801 is priced at (801 - 500) * 0.15. */
  lemma SpikeBoundary()
    ensures SpikeRule(map["usage_kwh" := Int(800)]) == None
    ensures SpikeRule(map["usage_kwh" := Int(801)]) == Some(Finding(UsageSpike, High, 45.15))
    ensures SpikeRule(map[]) == None
  {
  }

  /**
   * The printed rate must be off 0.13 by more than 0.01 (in exact arithmetic 0.14 is on
   * the tolerance and does not fire, 0.141 does); an undercharged rate gives a negative impact.
   */
  lemma BackendRateBoundary()
    ensures Backend.RateRule(map["tier1_rate" := Num(0.14), "tier1_usage" := Int(500)]) == None
    ensures Backend.RateRule(map["tier1_rate" := Num(0.12), "tier1_usage" := Int(500)]) == None
    ensures Backend.RateRule(map["tier1_rate" := Num(0.141), "tier1_usage" := Int(500)]) == Some(Finding(RateError, Critical, 5.5))
    ensures Backend.RateRule(map["tier1_rate" := Num(0.10), "tier1_usage" := Int(500)]) == Some(Finding(RateError, Critical, -15.0))
    ensures Backend.RateRule(map["tier1_rate" := Num(0.20)]) == Some(Finding(RateError, Critical, 0.0))
    ensures Backend.RateRule(map["tier1_rate" := Num(0.0), "tier1_usage" := Int(500)]) == None
  {
  }

  /** Line items and total must differ by more than 1.00: 1.50 fires, 0.99 and exactly 1.00 do not. */
  lemma CalcBoundary()
    ensures CalcRule(map["components_sum" := Num(100.0), "total_amount" := Num(101.50)]) == Some(Finding(CalculationError, Critical, 1.5))
    ensures CalcRule(map["components_sum" := Num(100.0), "total_amount" := Num(98.50)]) == Some(Finding(CalculationError, Critical, 1.5))
    ensures CalcRule(map["components_sum" := Num(100.0), "total_amount" := Num(100.99)]) == None
    ensures CalcRule(map["components_sum" := Num(100.0), "total_amount" := Num(101.0)]) == None
    ensures CalcRule(map["components_sum" := Num(0.0), "total_amount" := Num(101.50)]) == None
  {
  }

  // ---------------------------------------------------------------- the two copies disagree

  /**
   * When the printed tier-1 rate is exactly the tier-1 cost over a positive tier-1 usage,
   * the printed-rate check and the derived-rate check agree, finding for finding.
   */
  lemma RateRulesAgree(d: Record)
    requires ToReal(Get(d, "tier1_usage")) > 0.0
    requires ToReal(Get(d, "tier1_rate")) == ToReal(Get(d, "tier1_cost")) / ToReal(Get(d, "tier1_usage"))
    ensures Backend.RateRule(d) == App.RateRule(d)
  {
    var u, c := ToReal(Get(d, "tier1_usage")), ToReal(Get(d, "tier1_cost"));
    App.ScaleByUsage(c, u);
    if c > 0.0 {
      assert c / u > 0.0;
      assert Backend.Tier1Rate(d) == c / u;
      if Abs(c / u - ReferenceRate) > RateTolerance {
        var r := Backend.Tier1Rate(d);
        assert r > 0.0 && Abs(r - ReferenceRate) > RateTolerance;
        var b, a := Backend.RateRule(d), App.RateRule(d);
        assert b.Some? && a.Some?;
        assert b.value.impact == (r - ReferenceRate) * u;
        assert b.value.impact == a.value.impact;
      }
    } else if c < 0.0 {
      assert c / u < 0.0;
    }
  }

  /**
   * A bill that prints the correct rate but charges 75.00 for 500 kWh: the printed-rate
   * check is satisfied, the derived-rate check flags the 10.00 overcharge.
   */
  lemma PrintedRateHidesOvercharge()
    ensures var d := map["tier1_rate" := Num(0.13), "tier1_usage" := Int(500), "tier1_cost" := Num(75.0)];
      Backend.RateRule(d) == None && App.RateRule(d) == Some(Finding(RateError, Critical, 10.0))
  {
    var d := map["tier1_rate" := Num(0.13), "tier1_usage" := Int(500), "tier1_cost" := Num(75.0)];
    assert Get(d, "tier1_rate") == Num(0.13);
    assert Get(d, "tier1_usage") == Int(500) && Get(d, "tier1_cost") == Num(75.0);
  }

  /**
   * A printed usage of 0 with tiers 500 + 445: the API server re-derives 945 kWh and
   * flags a spike, the Streamlit app keeps the explicit 0 and does not.
   */
  lemma ExplicitZeroUsage()
    ensures var b := Backend.UsageFallback(map["usage_kwh" := Int(0), "tier1_usage" := Int(500), "tier2_usage" := Int(445)]);
      UsageOf(b) == 945.0 && SpikeRule(b).Some?
    ensures var a := App.UsagePrecedence(map["usage_kwh_explicit" := Int(0), "tier1_usage" := Int(500), "tier2_usage" := Int(445)]);
      UsageOf(a) == 0.0 && SpikeRule(a).None?
  {
    var m := map["usage_kwh" := Int(0), "tier1_usage" := Int(500), "tier2_usage" := Int(445)];
    assert Get(m, "tier1_usage") == Int(500) && Get(m, "tier2_usage") == Int(445);
    var n := map["usage_kwh_explicit" := Int(0), "tier1_usage" := Int(500), "tier2_usage" := Int(445)];
    assert "usage_kwh_explicit" in n;
  }

  /**
   * A readable bill on which no pattern matches is not rejected: the record holds only a
   * zero `components_sum`, no rule fires in either copy, and the summary is the no-issues text.
   */
  lemma UnmatchedBillIsClean(narrative: Option<string>)
    ensures Backend.ExtractedRecord(map[]).Keys == {"components_sum"}
    ensures ToReal(Backend.ExtractedRecord(map[])["components_sum"]) == 0.0
    ensures Backend.Anomalies(Backend.ExtractedRecord(map[])) == []
    ensures App.ExtractedRecord(map[]).Keys == {"components_sum"}
    ensures App.Anomalies(App.ExtractedRecord(map[])) == []
    ensures MaxSeverity([]) == Low && AiSummary([], narrative) == NoIssuesText
  {
    BackendUnmatchedBill();
    AppUnmatchedBill();
  }

  lemma BackendUnmatchedBill()
    ensures Backend.ExtractedRecord(map[]).Keys == {"components_sum"}
    ensures ToReal(Backend.ExtractedRecord(map[])["components_sum"]) == 0.0
    ensures Backend.Anomalies(Backend.ExtractedRecord(map[])) == []
  {
    assert CoerceAll(Backend.Catalog, map[]) == map[];
    assert Backend.UsageFallback(map[]) == map[];
    ZeroComponents();
    var b := Backend.ExtractedRecord(map[]);
    assert b.Keys == {"components_sum"};
    assert SpikeRule(b).None? && Backend.RateRule(b).None? && CalcRule(b).None?;
  }

  lemma AppUnmatchedBill()
    ensures App.ExtractedRecord(map[]).Keys == {"components_sum"}
    ensures App.Anomalies(App.ExtractedRecord(map[])) == []
  {
    assert CoerceAll(App.Catalog, map[]) == map[];
    assert App.UsagePrecedence(map[]) == map[];
    ZeroComponents();
    var a := App.ExtractedRecord(map[]);
    assert a.Keys == {"components_sum"};
    assert SpikeRule(a).None? && App.RateRule(a).None? && CalcRule(a).None?;
  }

  lemma ZeroComponents()
    ensures ToReal(WithComponents(map[])["components_sum"]) == 0.0
  {
    Round2OfWhole(0);
  }
}
