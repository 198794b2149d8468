/**
 * The parts of the anomaly detector that both copies of `AnomalyDetector.detect`
 * share: the usage-spike rule, the calculation rule, and how the three rule
 * outcomes are laid out in the returned list.
 */
module Rules {
  import opened Wrappers
  import opened PyNumbers
  import opened Records
  import opened Findings

  /** Expected monthly consumption in kWh. */
  const BaselineKwh: real := 500.0
  /** Consumption above which a bill is a usage spike. */
  const SpikeThresholdKwh: real := 800.0
  /** Dollars per kWh used to price consumption above the baseline. */
  const ExcessRate: real := 0.15
  /** Contractual tier-1 rate in dollars per kWh, and the tolerance around it. */
  const ReferenceRate: real := 0.13
  const RateTolerance: real := 0.01
  /** Largest gap between billed total and line items that is still accepted. */
  const CalcTolerance: real := 1.0

  /** The signed amount by which billing `usage` kWh at `rate` exceeds billing it at 0.13. */
  function Overcharge(rate: real, usage: real): real
  {
    (rate - ReferenceRate) * usage
  }

  /** `data.get('usage_kwh', 0)`. */
  function UsageOf(d: Record): real
  {
    ToReal(Get(d, "usage_kwh"))
  }

  /** Usage Spike: consumption above 800 kWh, the excess over 500 kWh priced at 0.15. */
  function SpikeRule(d: Record): (r: Option<Finding>)
    ensures r.Some? <==> UsageOf(d) > SpikeThresholdKwh
    ensures r.Some? ==> r.value.kind == UsageSpike && r.value.severity == High
    ensures r.Some? ==> r.value.impact > (SpikeThresholdKwh - BaselineKwh) * ExcessRate
  {
    var usage := UsageOf(d);
    if usage > SpikeThresholdKwh then
      Some(Finding(UsageSpike, High, (usage - BaselineKwh) * ExcessRate))
    else None
  }

  /** Calculation Error: billed total and line-item sum both positive and more than 1.00 apart. */
  function CalcRule(d: Record): (r: Option<Finding>)
    ensures r.Some? ==> r.value.kind == CalculationError && r.value.severity == Critical
    ensures r.Some? ==> r.value.impact > CalcTolerance
    ensures r.Some? ==> ToReal(Get(d, "components_sum")) > 0.0 && ToReal(Get(d, "total_amount")) > 0.0
  {
    var components := ToReal(Get(d, "components_sum"));
    var total := ToReal(Get(d, "total_amount"));
    if components > 0.0 && total > 0.0 && Abs(total - components) > CalcTolerance then
      Some(Finding(CalculationError, Critical, Abs(total - components)))
    else None
  }

  /** What a rule that fired appends to `anomalies`: nothing, or its one finding. */
  function AsSeq(r: Option<Finding>): seq<Finding>
  {
    if r.Some? then [r.value] else []
  }

  /** The `anomalies` list: the outcome of each rule, in evaluation order. */
  function Assemble(spike: Option<Finding>, rate: Option<Finding>, calcErr: Option<Finding>): seq<Finding>
  {
    AsSeq(spike) + AsSeq(rate) + AsSeq(calcErr)
  }

  /** The outcome each rule can have: its own kind, at its own severity. */
  predicate WellKinded(spike: Option<Finding>, rate: Option<Finding>, calcErr: Option<Finding>)
  {
    && (spike.Some? ==> spike.value.kind == UsageSpike && spike.value.severity == High)
    && (rate.Some? ==> rate.value.kind == RateError && rate.value.severity == Critical)
    && (calcErr.Some? ==> calcErr.value.kind == CalculationError && calcErr.value.severity == Critical)
  }

  /** Two lists in rule order, the first entirely before the second, stay in rule order when joined. */
  lemma ConcatInRuleOrder(a: seq<Finding>, b: seq<Finding>)
    requires InRuleOrder(a) && InRuleOrder(b)
    requires forall x, y :: x in a && y in b ==> RuleIndex(x.kind) < RuleIndex(y.kind)
    ensures InRuleOrder(a + b)
  {
    var ab := a + b;
    forall i, j | 0 <= i < j < |ab|
      ensures RuleIndex(ab[i].kind) < RuleIndex(ab[j].kind)
    {
      if j < |a| {
        assert ab[i] == a[i] && ab[j] == a[j];
      } else if i >= |a| {
        assert ab[i] == b[i - |a|] && ab[j] == b[j - |a|];
      } else {
        assert ab[i] == a[i] && ab[j] == b[j - |a|];
        assert a[i] in a && b[j - |a|] in b;
      }
    }
  }

  lemma AssembleMembers(spike: Option<Finding>, rate: Option<Finding>, calcErr: Option<Finding>)
    ensures forall f :: f in Assemble(spike, rate, calcErr) <==> spike == Some(f) || rate == Some(f) || calcErr == Some(f)
  {
  }

  lemma AssembleInRuleOrder(spike: Option<Finding>, rate: Option<Finding>, calcErr: Option<Finding>)
    requires WellKinded(spike, rate, calcErr)
    ensures InRuleOrder(Assemble(spike, rate, calcErr))
  {
    var s, r, c := AsSeq(spike), AsSeq(rate), AsSeq(calcErr);
    ConcatInRuleOrder(s, r);
    ConcatInRuleOrder(s + r, c);
  }

  lemma AssembleAscending(spike: Option<Finding>, rate: Option<Finding>, calcErr: Option<Finding>)
    requires WellKinded(spike, rate, calcErr)
    ensures SeverityAscending(Assemble(spike, rate, calcErr))
  {
    var fs := Assemble(spike, rate, calcErr);
    AssembleMembers(spike, rate, calcErr);
    AssembleInRuleOrder(spike, rate, calcErr);
    forall i, j | 0 <= i < j < |fs|
      ensures Rank(fs[i].severity) <= Rank(fs[j].severity)
    {
      assert fs[i] in fs && fs[j] in fs;
      assert RuleIndex(fs[i].kind) < RuleIndex(fs[j].kind);
    }
  }

  /**
   * The list holds exactly the findings of the rules that fired, at most one per rule,
   * in rule order, with ascending severities, so the overwrite gives the maximum.
   */
  lemma AssembleShape(spike: Option<Finding>, rate: Option<Finding>, calcErr: Option<Finding>)
    requires WellKinded(spike, rate, calcErr)
    ensures var fs := Assemble(spike, rate, calcErr);
      && (forall f :: f in fs <==> spike == Some(f) || rate == Some(f) || calcErr == Some(f))
      && InRuleOrder(fs)
      && SeverityAscending(fs)
      && |fs| <= 3
      && LastSeverity(fs) == MaxSeverity(fs)
  {
    var fs := Assemble(spike, rate, calcErr);
    AssembleMembers(spike, rate, calcErr);
    AssembleInRuleOrder(spike, rate, calcErr);
    AssembleAscending(spike, rate, calcErr);
    InRuleOrderAtMostThree(fs);
    OverwriteIsMax(fs);
  }

  /** A rule's kind is present in the list exactly when that rule fired. */
  lemma AssembleHas(spike: Option<Finding>, rate: Option<Finding>, calcErr: Option<Finding>)
    requires WellKinded(spike, rate, calcErr)
    ensures Has(Assemble(spike, rate, calcErr), UsageSpike) <==> spike.Some?
    ensures Has(Assemble(spike, rate, calcErr), RateError) <==> rate.Some?
    ensures Has(Assemble(spike, rate, calcErr), CalculationError) <==> calcErr.Some?
  {
    var fs := Assemble(spike, rate, calcErr);
    assert forall f :: f in fs <==> spike == Some(f) || rate == Some(f) || calcErr == Some(f);
    if spike.Some? { assert spike.value in fs; }
    if rate.Some? { assert rate.value in fs; }
    if calcErr.Some? { assert calcErr.value in fs; }
  }
}
