/**
 * The audit engine of the API server, backend/main.py: `AnomalyDetector.detect`
 * with the extracted tier-1 rate, the post-match half of `extract_data_from_pdf`
 * with its usage fallback, and the `/api/analyze` pipeline that joins them.
 */
module Backend {
  import opened Wrappers
  import opened PyNumbers
  import opened Records
  import opened Findings
  import opened Rules
  import opened Extraction
  import opened Summary

  /** The keys of the pattern catalog, in the order the loop visits them. */
  const Catalog: seq<string> := [
    "account_number", "bill_date", "total_amount", "usage_kwh", "customer_charge",
    "tier1_rate", "tier1_usage", "tier1_cost", "tier2_rate", "tier2_usage", "tier2_cost",
    "dist_charge", "taxes"]

  // ---------------------------------------------------------------- detection

  /** `data.get('tier1_rate', 0)`. */
  function Tier1Rate(d: Record): real
  {
    ToReal(Get(d, "tier1_rate"))
  }

  /**
   * Rate Error: a positive extracted tier-1 rate more than 0.01 away from 0.13; its
   * impact, signed and unclamped, is the rate error times the tier-1 usage (0 when unset).
   */
  function RateRule(d: Record): (r: Option<Finding>)
    ensures r.Some? <==> Tier1Rate(d) > 0.0 && Abs(Tier1Rate(d) - ReferenceRate) > RateTolerance
    ensures r.Some? ==> r.value.kind == RateError && r.value.severity == Critical
    ensures r.Some? && Tier1Rate(d) < ReferenceRate && ToReal(Get(d, "tier1_usage")) > 0.0 ==> r.value.impact < 0.0
  {
    var t1Rate := Tier1Rate(d);
    if t1Rate > 0.0 && Abs(t1Rate - ReferenceRate) > RateTolerance then
      Some(Finding(RateError, Critical, Overcharge(t1Rate, ToReal(Get(d, "tier1_usage")))))
    else None
  }

  /** The findings `detect` returns: one per rule that fired, in rule order. */
  function Anomalies(d: Record): (fs: seq<Finding>)
    ensures InRuleOrder(fs) && SeverityAscending(fs) && |fs| <= 3
    ensures LastSeverity(fs) == MaxSeverity(fs)
  {
    AssembleShape(SpikeRule(d), RateRule(d), CalcRule(d));
    Assemble(SpikeRule(d), RateRule(d), CalcRule(d))
  }

  /**
   * `AnomalyDetector.detect`: appends a finding per rule that fires and overwrites
   * `severity` as it goes; the overwritten severity is the maximum over the findings.
   */
  method Detect(data: Record) returns (anomalies: seq<Finding>, severity: Severity)
    ensures anomalies == Anomalies(data)
    ensures severity == MaxSeverity(anomalies)
  {
    ghost var spike, rate, calcErr := SpikeRule(data), RateRule(data), CalcRule(data);
    anomalies := [];
    severity := Low;

    var usage := ToReal(Get(data, "usage_kwh"));
    if usage > SpikeThresholdKwh {
      anomalies := anomalies + [Finding(UsageSpike, High, (usage - BaselineKwh) * ExcessRate)];
      severity := High;
    }
    assert anomalies == AsSeq(spike) && severity == LastSeverity(anomalies);

    var t1Rate := ToReal(Get(data, "tier1_rate"));
    if t1Rate > 0.0 {
      if Abs(t1Rate - ReferenceRate) > RateTolerance {
        var t1Usage := ToReal(Get(data, "tier1_usage"));
        assert rate == Some(Finding(RateError, Critical, Overcharge(t1Rate, t1Usage)));
        anomalies := anomalies + [Finding(RateError, Critical, Overcharge(t1Rate, t1Usage))];
        severity := Critical;
      }
    }
    assert anomalies == AsSeq(spike) + AsSeq(rate) && severity == LastSeverity(anomalies) by {
      if rate.None? {
        assert AsSeq(spike) + AsSeq(rate) == AsSeq(spike);
      }
    }

    var components := ToReal(Get(data, "components_sum"));
    var total := ToReal(Get(data, "total_amount"));
    if components > 0.0 && total > 0.0 {
      var diff := Abs(total - components);
      if diff > CalcTolerance {
        anomalies := anomalies + [Finding(CalculationError, Critical, diff)];
        severity := Critical;
      }
    }
    assert anomalies == Assemble(spike, rate, calcErr) && severity == LastSeverity(anomalies) by {
      if calcErr.None? {
        assert AsSeq(spike) + AsSeq(rate) + AsSeq(calcErr) == AsSeq(spike) + AsSeq(rate);
      }
    }
  }

  /** Each rule fires under its own condition and contributes its own finding. */
  lemma AnomaliesByRule(d: Record)
    ensures Has(Anomalies(d), UsageSpike) <==> UsageOf(d) > 800.0
    ensures Has(Anomalies(d), RateError) <==> Tier1Rate(d) > 0.0 && Abs(Tier1Rate(d) - 0.13) > 0.01
    ensures Has(Anomalies(d), CalculationError) <==>
      var c, t := ToReal(Get(d, "components_sum")), ToReal(Get(d, "total_amount"));
      c > 0.0 && t > 0.0 && Abs(t - c) > 1.0
    ensures forall f :: f in Anomalies(d) && f.kind == UsageSpike ==>
      f == Finding(UsageSpike, High, (UsageOf(d) - 500.0) * 0.15)
    ensures forall f :: f in Anomalies(d) && f.kind == RateError ==>
      f == Finding(RateError, Critical, Overcharge(Tier1Rate(d), ToReal(Get(d, "tier1_usage"))))
    ensures forall f :: f in Anomalies(d) && f.kind == CalculationError ==>
      f == Finding(CalculationError, Critical, Abs(ToReal(Get(d, "total_amount")) - ToReal(Get(d, "components_sum"))))
  {
    KindsByRule(d);
    FindingsByRule(d);
  }

  lemma KindsByRule(d: Record)
    ensures Has(Anomalies(d), UsageSpike) <==> UsageOf(d) > 800.0
    ensures Has(Anomalies(d), RateError) <==> Tier1Rate(d) > 0.0 && Abs(Tier1Rate(d) - 0.13) > 0.01
    ensures Has(Anomalies(d), CalculationError) <==>
      var c, t := ToReal(Get(d, "components_sum")), ToReal(Get(d, "total_amount"));
      c > 0.0 && t > 0.0 && Abs(t - c) > 1.0
  {
    var spike, rate, calcErr := SpikeRule(d), RateRule(d), CalcRule(d);
    assert Anomalies(d) == Assemble(spike, rate, calcErr);
    AssembleHas(spike, rate, calcErr);
  }

  lemma FindingsByRule(d: Record)
    ensures forall f :: f in Anomalies(d) && f.kind == UsageSpike ==>
      f == Finding(UsageSpike, High, (UsageOf(d) - 500.0) * 0.15)
    ensures forall f :: f in Anomalies(d) && f.kind == RateError ==>
      f == Finding(RateError, Critical, Overcharge(Tier1Rate(d), ToReal(Get(d, "tier1_usage"))))
    ensures forall f :: f in Anomalies(d) && f.kind == CalculationError ==>
      f == Finding(CalculationError, Critical, Abs(ToReal(Get(d, "total_amount")) - ToReal(Get(d, "components_sum"))))
  {
    var spike, rate, calcErr := SpikeRule(d), RateRule(d), CalcRule(d);
    var fs := Anomalies(d);
    assert fs == Assemble(spike, rate, calcErr);
    AssembleMembers(spike, rate, calcErr);
    forall f | f in fs
      ensures f.kind == UsageSpike ==> spike == Some(f)
      ensures f.kind == RateError ==> rate == Some(f)
      ensures f.kind == CalculationError ==> calcErr == Some(f)
    {
      assert spike == Some(f) || rate == Some(f) || calcErr == Some(f);
    }
  }

  // ---------------------------------------------------------------- extraction

  /** Exactly the three usage fields of the catalog are read with `int()`; the rest with `float()`. */
  lemma CatalogUsageKeys()
    ensures forall i :: 0 <= i < |Catalog| ==> (IsUsageKey(Catalog[i]) <==> i == 3 || i == 6 || i == 9)
  {
    forall i | 0 <= i < |Catalog|
      ensures IsUsageKey(Catalog[i]) <==> i == 3 || i == 6 || i == 9
    {
      if i < 7 { UsageKeysBelow(i); } else { UsageKeysFrom(i); }
    }
  }

  lemma UsageKeysBelow(i: nat)
    requires i < 7
    ensures IsUsageKey(Catalog[i]) <==> i == 3 || i == 6 || i == 9
  {
    UsageFieldNames();
    OtherFieldNames();
  }

  lemma UsageKeysFrom(i: nat)
    requires 7 <= i < |Catalog|
    ensures IsUsageKey(Catalog[i]) <==> i == 3 || i == 6 || i == 9
  {
    UsageFieldNames();
    OtherFieldNames();
  }

  /**
   * The usage fallback: when `usage_kwh` is unset or 0 and tier-1 usage is positive,
   * `usage_kwh` becomes tier-1 plus tier-2 usage; otherwise the record is untouched.
   */
  function UsageFallback(d: Record): Record
  {
    if ("usage_kwh" !in d || ToReal(d["usage_kwh"]) == 0.0) && ToReal(Get(d, "tier1_usage")) > 0.0 then
      d["usage_kwh" := Plus(Get(d, "tier1_usage"), Get(d, "tier2_usage"))]
    else d
  }

  /** The dict `extract_data_from_pdf` returns when the text could be read. */
  function ExtractedRecord(matches: Matches): Record
  {
    WithComponents(UsageFallback(CoerceAll(Catalog, matches)))
  }

  /**
   * `extract_data_from_pdf` after the text has been acquired: `None` exactly when
   * acquisition failed, and never an empty dict otherwise, so `if not data` rejects
   * only a failed extraction.
   */
  method ExtractData(acquired: Option<Scan>) returns (r: Option<Record>)
    ensures r.None? <==> acquired.None?
    ensures r.Some? ==> r.value == ExtractedRecord(acquired.value.matches)
    ensures Falsy(r) <==> acquired.None?
  {
    if acquired.None? {
      return None;
    }
    var data := CoerceFields(Catalog, acquired.value.matches);

    if "usage_kwh" !in data || ToReal(data["usage_kwh"]) == 0.0 {
      var t1 := Get(data, "tier1_usage");
      var t2 := Get(data, "tier2_usage");
      if ToReal(t1) > 0.0 {
        data := data["usage_kwh" := Plus(t1, t2)];
      }
    }

    var compSum := SumCharges(data);
    data := data["components_sum" := Round2Value(compSum)];
    assert "components_sum" in data;
    return Some(data);
  }

  /**
   * `usage_kwh` after extraction: re-derived from the tiers when it was unset or 0 and
   * tier-1 usage is positive, otherwise exactly as extracted; so it is set exactly when it
   * was extracted or tier-1 usage is positive.
   */
  lemma UsageAfterExtraction(matches: Matches)
    ensures var c, r := CoerceAll(Catalog, matches), ExtractedRecord(matches);
      var t1, t2 := ToReal(Get(c, "tier1_usage")), ToReal(Get(c, "tier2_usage"));
      && (("usage_kwh" !in c || ToReal(c["usage_kwh"]) == 0.0) && t1 > 0.0 ==>
            "usage_kwh" in r && ToReal(r["usage_kwh"]) == t1 + t2)
      && (!(("usage_kwh" !in c || ToReal(c["usage_kwh"]) == 0.0) && t1 > 0.0) ==>
            ("usage_kwh" in r <==> "usage_kwh" in c) && ("usage_kwh" in c ==> r["usage_kwh"] == c["usage_kwh"]))
      && ("usage_kwh" in r <==> "usage_kwh" in c || t1 > 0.0)
  {
  }

  /**
   * `components_sum` is always attached, as the rounded sum of the five charges with an
   * unset charge counted as 0; every other extracted field except `usage_kwh` is kept as coerced.
   */
  lemma ComponentsSumAttached(matches: Matches)
    ensures var c, r := CoerceAll(Catalog, matches), ExtractedRecord(matches);
      && "components_sum" in r
      && ToReal(r["components_sum"]) == Round2(ChargeTotal(c))
      && r != map[]
      && (forall k :: k in c && k != "usage_kwh" && k != "components_sum" ==> k in r && r[k] == c[k])
  {
    var c := CoerceAll(Catalog, matches);
    FallbackKeepsCharges(c);
  }

  lemma FallbackKeepsCharges(c: Record)
    ensures ChargeTotal(UsageFallback(c)) == ChargeTotal(c)
    ensures forall k :: k in c && k != "usage_kwh" ==> k in UsageFallback(c) && UsageFallback(c)[k] == c[k]
  {
    var u := UsageFallback(c);
    if u != c {
      ChargeTotalIgnoresOtherKeys(c, "usage_kwh", u["usage_kwh"]);
    }
  }

  /**
   * An account number or a bill date, captured in the shape its pattern allows, never
   * survives `float()`, so neither field is ever in the record.
   */
  lemma TextFieldsNeverRecorded(matches: Matches)
    requires "account_number" in matches ==> CapturedAs(matches["account_number"], AccountNumberShape)
    requires "bill_date" in matches ==> CapturedAs(matches["bill_date"], BillDateShape)
    ensures "account_number" !in ExtractedRecord(matches)
    ensures "bill_date" !in ExtractedRecord(matches)
  {
    if "account_number" in matches {
      NonNumericCaptureDropped("account_number", matches["account_number"], 4);
    }
    if "bill_date" in matches {
      NonNumericCaptureDropped("bill_date", matches["bill_date"], 1);
    }
  }

  // ---------------------------------------------------------------- the analyze route

  /** What `/api/analyze` answers: status 400, or the analysis of the bill. */
  datatype Response =
    | BadRequest
    | Analysis(data: Record, anomalies: seq<Finding>, severity: Severity, summary: string)

  /**
   * `/api/analyze` after the upload is read: extraction, detection and the summary,
   * with status 400 exactly when the text could not be acquired.
   */
  method AnalyzeBill(acquired: Option<Scan>, narrative: Option<string>) returns (resp: Response)
    ensures resp.BadRequest? <==> acquired.None?
    ensures resp.Analysis? ==>
      && resp.data == ExtractedRecord(acquired.value.matches)
      && resp.anomalies == Anomalies(resp.data)
      && resp.severity == MaxSeverity(resp.anomalies)
      && resp.summary == AiSummary(resp.anomalies, narrative)
  {
    var data := ExtractData(acquired);
    if Falsy(data) {
      return BadRequest;
    }
    var anomalies, severity := Detect(data.value);
    var summary := AiSummary(anomalies, narrative);
    return Analysis(data.value, anomalies, severity, summary);
  }
}
