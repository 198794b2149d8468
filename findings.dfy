/**
 * Findings of the anomaly detector and the overall severity of a bill.
 * The detector keeps only `type`, `severity` and the numeric impact of a finding;
 * its human-readable `detail` sentence is not modelled.
 */
module Findings {

  /** Severity with the total order low < high < critical. */
  datatype Severity = Low | High | Critical

  function Rank(s: Severity): nat
  {
    match s
    case Low => 0
    case High => 1
    case Critical => 2
  }

  function MaxOf(a: Severity, b: Severity): (m: Severity)
    ensures Rank(m) >= Rank(a) && Rank(m) >= Rank(b)
    ensures m == a || m == b
  {
    if Rank(a) >= Rank(b) then a else b
  }

  /** The three rules of the detector, numbered in the order they are evaluated. */
  datatype Kind = UsageSpike | RateError | CalculationError

  function RuleIndex(k: Kind): nat
  {
    match k
    case UsageSpike => 0
    case RateError => 1
    case CalculationError => 2
  }

  /** One finding: its type, its severity and its financial impact in dollars. */
  datatype Finding = Finding(kind: Kind, severity: Severity, impact: real)

  predicate Has(fs: seq<Finding>, k: Kind)
  {
    exists f :: f in fs && f.kind == k
  }

  /**
   * The overall severity as a max-reduction over the findings: an upper bound of
   * every finding's severity that is reached by one of them, and low when there is none.
   */
  function MaxSeverity(fs: seq<Finding>): (m: Severity)
    ensures forall f :: f in fs ==> Rank(f.severity) <= Rank(m)
    ensures fs == [] ==> m == Low
    ensures fs != [] ==> exists f :: f in fs && f.severity == m
    decreases |fs|
  {
    if fs == [] then Low
    else
      var init, last := fs[..|fs| - 1], fs[|fs| - 1];
      assert fs == init + [last];
      MaxOf(MaxSeverity(init), last.severity)
  }

  /**
   * The overall severity as the source computes it: a variable that each firing
   * rule overwrites, so it ends as the severity of the last finding (low if none).
   */
  function LastSeverity(fs: seq<Finding>): Severity
  {
    if fs == [] then Low else fs[|fs| - 1].severity
  }

  /** Severities never decrease along the list. */
  predicate SeverityAscending(fs: seq<Finding>)
  {
    forall i, j :: 0 <= i < j < |fs| ==> Rank(fs[i].severity) <= Rank(fs[j].severity)
  }

  /** Findings appear in rule order, each rule at most once. */
  predicate InRuleOrder(fs: seq<Finding>)
  {
    forall i, j :: 0 <= i < j < |fs| ==> RuleIndex(fs[i].kind) < RuleIndex(fs[j].kind)
  }

  lemma RankInjective(a: Severity, b: Severity)
    requires Rank(a) == Rank(b)
    ensures a == b
  {
  }

  /** Overwriting a variable in evaluation order gives the maximum when severities ascend. */
  lemma OverwriteIsMax(fs: seq<Finding>)
    requires SeverityAscending(fs)
    ensures LastSeverity(fs) == MaxSeverity(fs)
  {
    if fs != [] {
      var m := MaxSeverity(fs);
      var last := fs[|fs| - 1];
      var w :| w in fs && w.severity == m;
      var k :| 0 <= k < |fs| && fs[k] == w;
      assert Rank(m) <= Rank(last.severity);
      assert last in fs;
      RankInjective(m, last.severity);
    }
  }

  /** Evaluated out of severity order, the overwrite loses the maximum. */
  lemma OverwriteOutOfOrderIsNotMax()
    ensures var fs := [Finding(RateError, Critical, 0.0), Finding(UsageSpike, High, 0.0)];
      LastSeverity(fs) == High && MaxSeverity(fs) == Critical
  {
    var fs := [Finding(RateError, Critical, 0.0), Finding(UsageSpike, High, 0.0)];
    assert fs[0] in fs;
  }

  /** The maximum does not depend on the order of the findings. */
  lemma MaxSeverityOrderIndependent(fs: seq<Finding>, gs: seq<Finding>)
    requires multiset(fs) == multiset(gs)
    ensures MaxSeverity(fs) == MaxSeverity(gs)
  {
    var a, b := MaxSeverity(fs), MaxSeverity(gs);
    if fs == [] {
      assert |gs| == |multiset(gs)| == 0;
    } else {
      assert gs != [] by { assert |gs| == |multiset(gs)| == |multiset(fs)| == |fs|; }
      var wa :| wa in fs && wa.severity == a;
      var wb :| wb in gs && wb.severity == b;
      assert wa in multiset(gs);
      assert wb in multiset(fs);
      RankInjective(a, b);
    }
  }

  /** Findings in rule order are at most three, since there are three rules. */
  lemma {:induction false} InRuleOrderAtMostThree(fs: seq<Finding>)
    requires InRuleOrder(fs)
    ensures |fs| <= 3
    ensures forall i :: 0 <= i < |fs| ==> RuleIndex(fs[i].kind) >= i
    decreases |fs|
  {
    if fs != [] {
      var init := fs[..|fs| - 1];
      InRuleOrderAtMostThree(init);
      if |fs| >= 2 {
        assert RuleIndex(fs[|fs| - 2].kind) < RuleIndex(fs[|fs| - 1].kind);
      }
    }
  }
}
