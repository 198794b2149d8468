/**
 * The audit engine of the Streamlit page, app.py: `AnomalyDetector.detect` with the
 * tier-1 rate derived from cost and usage, and the post-match half of
 * `extract_data_from_pdf` with its explicit-usage precedence.
 */
module App {
  import opened Wrappers
  import opened PyNumbers
  import opened Records
  import opened Findings
  import opened Rules
  import opened Extraction

  /** The keys of this page's pattern catalog, in the order the loop visits them. */
  const Catalog: seq<string> := [
    "account_number", "bill_date", "total_amount", "usage_kwh_explicit", "customer_charge",
    "tier1_cost", "tier2_cost", "dist_charge", "taxes", "tier1_usage", "tier2_usage"]

  // ---------------------------------------------------------------- detection

  function Tier1Usage(d: Record): real
  {
    ToReal(Get(d, "tier1_usage"))
  }

  function Tier1Cost(d: Record): real
  {
    ToReal(Get(d, "tier1_cost"))
  }

  /** Dividing by a positive usage and comparing is comparing without the division. */
  lemma ScaleByUsage(cost: real, usage: real)
    requires usage > 0.0
    ensures Overcharge(cost / usage, usage) == cost - ReferenceRate * usage
    ensures Abs(cost / usage - ReferenceRate) > RateTolerance <==> Abs(cost - ReferenceRate * usage) > RateTolerance * usage
  {
    var x := cost / usage - ReferenceRate;
    var y := cost - ReferenceRate * usage;
    DivisionCancels(cost, usage);
    assert x * usage == (cost / usage) * usage - ReferenceRate * usage;
    assert Overcharge(cost / usage, usage) == y;
    ScaledTolerance(x, y, usage);
  }

  lemma ScaledTolerance(x: real, y: real, u: real)
    requires u > 0.0 && y == x * u
    ensures Abs(x) > RateTolerance <==> Abs(y) > RateTolerance * u
  {
    AbsScales(x, u);
    ScalePreservesOrder(Abs(x), RateTolerance, u);
  }

  lemma DivisionCancels(a: real, u: real)
    requires u > 0.0
    ensures (a / u) * u == a
  {
  }

  lemma AbsScales(x: real, u: real)
    requires u > 0.0
    ensures Abs(x * u) == Abs(x) * u
  {
    if x < 0.0 {
      assert x * u < 0.0;
      assert -(x * u) == (-x) * u;
    } else {
      assert x * u >= 0.0;
    }
  }

  lemma ScalePreservesOrder(a: real, b: real, u: real)
    requires u > 0.0
    ensures a > b <==> a * u > b * u
  {
    assert a * u - b * u == (a - b) * u;
    if a > b {
      assert (a - b) * u > 0.0;
    } else {
      assert (a - b) * u <= 0.0;
    }
  }

  /**
   * Rate Error with the derived rate `tier1_cost / tier1_usage`, evaluated only when both
   * are positive (so the divisor is never zero); it fires when the cost is off the
   * reference price of the usage by more than 0.01 per kWh, and its signed impact is
   * exactly the cost minus that reference price.
   */
  function RateRule(d: Record): (r: Option<Finding>)
    ensures r.Some? <==> (Tier1Usage(d) > 0.0 && Tier1Cost(d) > 0.0
      && Abs(Tier1Cost(d) - ReferenceRate * Tier1Usage(d)) > RateTolerance * Tier1Usage(d))
    ensures r.Some? ==> r.value.kind == RateError && r.value.severity == Critical
    ensures r.Some? ==> r.value.impact == Tier1Cost(d) - ReferenceRate * Tier1Usage(d)
  {
    var t1Usage, t1Cost := Tier1Usage(d), Tier1Cost(d);
    if t1Usage > 0.0 && t1Cost > 0.0 then
      var rate := t1Cost / t1Usage;
      ScaleByUsage(t1Cost, t1Usage);
      if Abs(rate - ReferenceRate) > RateTolerance then
        Some(Finding(RateError, Critical, Overcharge(rate, t1Usage)))
      else None
    else None
  }

  /** The findings `detect` returns: one per rule that fired, in rule order. */
  function Anomalies(d: Record): (fs: seq<Finding>)
    ensures InRuleOrder(fs) && SeverityAscending(fs) && |fs| <= 3
    ensures LastSeverity(fs) == MaxSeverity(fs)
  {
    AssembleShape(SpikeRule(d), RateRule(d), CalcRule(d));
    Assemble(SpikeRule(d), RateRule(d), CalcRule(d))
  }

  /**
   * `AnomalyDetector.detect`: appends a finding per rule that fires and overwrites
   * `severity` as it goes; the overwritten severity is the maximum over the findings.
   */
  method Detect(data: Record) returns (anomalies: seq<Finding>, severity: Severity)
    ensures anomalies == Anomalies(data)
    ensures severity == MaxSeverity(anomalies)
  {
    ghost var spike, rate, calcErr := SpikeRule(data), RateRule(data), CalcRule(data);
    anomalies := [];
    severity := Low;

    var usage := ToReal(Get(data, "usage_kwh"));
    if usage > SpikeThresholdKwh {
      anomalies := anomalies + [Finding(UsageSpike, High, (usage - BaselineKwh) * ExcessRate)];
      severity := High;
    }
    assert anomalies == AsSeq(spike) && severity == LastSeverity(anomalies);

    var t1Usage := ToReal(Get(data, "tier1_usage"));
    var t1Cost := ToReal(Get(data, "tier1_cost"));
    if t1Usage > 0.0 && t1Cost > 0.0 {
      var t1Rate := t1Cost / t1Usage;
      if Abs(t1Rate - ReferenceRate) > RateTolerance {
        assert rate == Some(Finding(RateError, Critical, Overcharge(t1Rate, t1Usage)));
        anomalies := anomalies + [Finding(RateError, Critical, Overcharge(t1Rate, t1Usage))];
        severity := Critical;
      }
    }
    assert anomalies == AsSeq(spike) + AsSeq(rate) && severity == LastSeverity(anomalies) by {
      if rate.None? {
        assert AsSeq(spike) + AsSeq(rate) == AsSeq(spike);
      }
    }

    var components := ToReal(Get(data, "components_sum"));
    var total := ToReal(Get(data, "total_amount"));
    if components > 0.0 && total > 0.0 {
      var diff := Abs(total - components);
      if diff > CalcTolerance {
        anomalies := anomalies + [Finding(CalculationError, Critical, diff)];
        severity := Critical;
      }
    }
    assert anomalies == Assemble(spike, rate, calcErr) && severity == LastSeverity(anomalies) by {
      if calcErr.None? {
        assert AsSeq(spike) + AsSeq(rate) + AsSeq(calcErr) == AsSeq(spike) + AsSeq(rate);
      }
    }
  }

  /** Each rule fires under its own condition and contributes its own finding. */
  lemma AnomaliesByRule(d: Record)
    ensures Has(Anomalies(d), UsageSpike) <==> UsageOf(d) > 800.0
    ensures Has(Anomalies(d), RateError) <==>
      Tier1Usage(d) > 0.0 && Tier1Cost(d) > 0.0 && Abs(Tier1Cost(d) / Tier1Usage(d) - 0.13) > 0.01
    ensures Has(Anomalies(d), CalculationError) <==>
      var c, t := ToReal(Get(d, "components_sum")), ToReal(Get(d, "total_amount"));
      c > 0.0 && t > 0.0 && Abs(t - c) > 1.0
    ensures forall f :: f in Anomalies(d) && f.kind == UsageSpike ==>
      f == Finding(UsageSpike, High, (UsageOf(d) - 500.0) * 0.15)
    ensures forall f :: f in Anomalies(d) && f.kind == RateError ==>
      f == Finding(RateError, Critical, Tier1Cost(d) - 0.13 * Tier1Usage(d))
    ensures forall f :: f in Anomalies(d) && f.kind == CalculationError ==>
      f == Finding(CalculationError, Critical, Abs(ToReal(Get(d, "total_amount")) - ToReal(Get(d, "components_sum"))))
  {
    var spike, rate, calcErr := SpikeRule(d), RateRule(d), CalcRule(d);
    assert Anomalies(d) == Assemble(spike, rate, calcErr);
    AssembleHas(spike, rate, calcErr);
    AssembleMembers(spike, rate, calcErr);
    RateRuleDivides(d);
  }

  /** The rate rule's condition, stated with the division the source performs. */
  lemma RateRuleDivides(d: Record)
    ensures RateRule(d).Some? <==> Tier1Usage(d) > 0.0 && Tier1Cost(d) > 0.0 && Abs(Tier1Cost(d) / Tier1Usage(d) - 0.13) > 0.01
  {
    if Tier1Usage(d) > 0.0 {
      ScaleByUsage(Tier1Cost(d), Tier1Usage(d));
    }
  }

  // ---------------------------------------------------------------- extraction

  /**
   * Exactly the three usage fields of the catalog, the explicit usage among them, are
   * read with `int()`; the rest with `float()`.
   */
  lemma CatalogUsageKeys()
    ensures forall i :: 0 <= i < |Catalog| ==> (IsUsageKey(Catalog[i]) <==> i == 3 || i == 9 || i == 10)
  {
    forall i | 0 <= i < |Catalog|
      ensures IsUsageKey(Catalog[i]) <==> i == 3 || i == 9 || i == 10
    {
      if i < 7 { UsageKeysBelow(i); } else { UsageKeysFrom(i); }
    }
  }

  lemma UsageKeysBelow(i: nat)
    requires i < 7
    ensures IsUsageKey(Catalog[i]) <==> i == 3 || i == 9 || i == 10
  {
    UsageFieldNames();
    OtherFieldNames();
  }

  lemma UsageKeysFrom(i: nat)
    requires 7 <= i < |Catalog|
    ensures IsUsageKey(Catalog[i]) <==> i == 3 || i == 9 || i == 10
  {
    UsageFieldNames();
    OtherFieldNames();
  }

  /** A comma-grouped total, which only this catalog's pattern admits, reads as its value. */
  lemma GroupedTotalRead()
    ensures FieldValue("total_amount", [Some("1,234.56")]) == Some(Num(1234.56))
  {
    GroupedTotalText();
    GroupedTotalDigits();
    TextFieldNames();
    assert Coerce("total_amount", "1234.56") == Some(Num(1234.56));
    assert FirstGroup([Some("1,234.56")]) == Some("1,234.56");
  }

  lemma GroupedTotalText()
    ensures StripCommas("1,234.56") == "1234.56"
  {
    DropSeparator("1", "234.56");
    assert "1" + [','] + "234.56" == "1,234.56";
    assert "1" + "234.56" == "1234.56";
  }

  /** A thousands separator between two comma-free parts is simply dropped. */
  lemma DropSeparator(w: string, rest: string)
    requires ',' !in w && ',' !in rest
    ensures StripCommas(w + [','] + rest) == w + rest
  {
    var sep: string := [','];
    assert StripCommas(sep) == [] by {
      assert sep[1..] == [];
    }
    StripCommasAppend(w, sep);
    assert StripCommas(w + sep) == w;
    StripCommasAppend(w + sep, rest);
  }

  lemma GroupedTotalDigits()
    ensures ParseFloat("1234.56") == Some(1234.56)
  {
    DecimalOfParts("1234", "56");
    assert "1234" + ['.'] + "56" == "1234.56";
    DigitsOfGroupedTotal();
    assert Pow10(2) == 100;
    assert DecimalValue("1234", "56") == 1234.0 + 56.0 / 100.0;
  }

  lemma DigitsOfGroupedTotal()
    ensures DigitsValue("1234") == 1234 && DigitsValue("56") == 56
  {
    assert "1234"[..3] == "123" && "123"[..2] == "12" && "12"[..1] == "1" && "1"[..0] == [];
    assert "56"[..1] == "5" && "5"[..0] == [];
    assert DigitsValue("1") == 1;
    assert DigitsValue("12") == 12;
    assert DigitsValue("123") == 123;
    assert DigitsValue("5") == 5;
  }

  /**
   * Usage precedence: an extracted `usage_kwh_explicit` always becomes `usage_kwh`, even
   * when it is 0; otherwise a positive tier-1 usage gives tier-1 plus tier-2 usage.
   */
  function UsagePrecedence(d: Record): Record
  {
    if "usage_kwh_explicit" in d then d["usage_kwh" := d["usage_kwh_explicit"]]
    else if ToReal(Get(d, "tier1_usage")) > 0.0 then
      d["usage_kwh" := Plus(Get(d, "tier1_usage"), Get(d, "tier2_usage"))]
    else d
  }

  /** The dict `extract_data_from_pdf` returns, beside the text, when the text could be read. */
  function ExtractedRecord(matches: Matches): Record
  {
    WithComponents(UsagePrecedence(CoerceAll(Catalog, matches)))
  }

  /**
   * `extract_data_from_pdf` after the text has been acquired: `(None, None)` exactly when
   * acquisition failed, otherwise the record together with the text it came from.
   */
  method ExtractData(acquired: Option<Scan>) returns (r: Option<(Record, string)>)
    ensures r.None? <==> acquired.None?
    ensures r.Some? ==> r.value.0 == ExtractedRecord(acquired.value.matches) && r.value.1 == acquired.value.text
    ensures r.Some? ==> "components_sum" in r.value.0
  {
    if acquired.None? {
      return None;
    }
    var data := CoerceFields(Catalog, acquired.value.matches);

    if "usage_kwh_explicit" in data {
      data := data["usage_kwh" := data["usage_kwh_explicit"]];
    } else {
      var t1 := Get(data, "tier1_usage");
      var t2 := Get(data, "tier2_usage");
      if ToReal(t1) > 0.0 {
        data := data["usage_kwh" := Plus(t1, t2)];
      }
    }

    var compSum := SumCharges(data);
    data := data["components_sum" := Round2Value(compSum)];
    return Some((data, acquired.value.text));
  }

  lemma UsageKwhNotInCatalog()
    ensures "usage_kwh" !in Catalog && "components_sum" !in Catalog
  {
  }

  /**
   * `usage_kwh` after extraction: the explicit figure whenever one was extracted (even 0),
   * else tier-1 plus tier-2 usage when tier-1 usage is positive, else unset; the explicit
   * figure stays in the record under its own key.
   */
  lemma UsageAfterExtraction(matches: Matches)
    ensures var c, r := CoerceAll(Catalog, matches), ExtractedRecord(matches);
      var t1, t2 := ToReal(Get(c, "tier1_usage")), ToReal(Get(c, "tier2_usage"));
      && ("usage_kwh_explicit" in c ==> "usage_kwh" in r && r["usage_kwh"] == c["usage_kwh_explicit"])
      && ("usage_kwh_explicit" !in c && t1 > 0.0 ==> "usage_kwh" in r && ToReal(r["usage_kwh"]) == t1 + t2)
      && ("usage_kwh_explicit" !in c && t1 <= 0.0 ==> "usage_kwh" !in r)
      && ("usage_kwh_explicit" in r <==> "usage_kwh_explicit" in c)
      && ("usage_kwh_explicit" in c ==> r["usage_kwh_explicit"] == c["usage_kwh_explicit"])
  {
    UsageKwhNotInCatalog();
  }

  /**
   * `components_sum` is always attached, as the rounded sum of the five charges with an
   * unset charge counted as 0, and the other extracted fields are kept as coerced.
   */
  lemma ComponentsSumAttached(matches: Matches)
    ensures var c, r := CoerceAll(Catalog, matches), ExtractedRecord(matches);
      && "components_sum" in r
      && ToReal(r["components_sum"]) == Round2(ChargeTotal(c))
      && r != map[]
      && (forall k :: k in c ==> k in r && r[k] == c[k])
  {
    var c := CoerceAll(Catalog, matches);
    var u := UsagePrecedence(c);
    UsageKwhNotInCatalog();
    if u != c {
      ChargeTotalIgnoresOtherKeys(c, "usage_kwh", u["usage_kwh"]);
    }
  }

  /** As on the API server, an account number or bill date never survives `float()`. */
  lemma TextFieldsNeverRecorded(matches: Matches)
    requires "account_number" in matches ==> CapturedAs(matches["account_number"], AccountNumberShape)
    requires "bill_date" in matches ==> CapturedAs(matches["bill_date"], BillDateShape)
    ensures "account_number" !in ExtractedRecord(matches)
    ensures "bill_date" !in ExtractedRecord(matches)
  {
    if "account_number" in matches {
      NonNumericCaptureDropped("account_number", matches["account_number"], 4);
    }
    if "bill_date" in matches {
      NonNumericCaptureDropped("bill_date", matches["bill_date"], 1);
    }
  }
}
