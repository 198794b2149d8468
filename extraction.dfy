/**
 * The post-match half of `extract_data_from_pdf`, shared by both copies: the
 * field-coercion loop over the pattern catalog and the `components_sum`
 * accumulator. The PDF text extractor and the regular-expression engine are
 * outside the model; what they deliver is the input `Matches`.
 */
module Extraction {
  import opened Wrappers
  import opened PyNumbers
  import opened Records

  /** The groups of one `re.search` match; a group that took no part in the match is `None`. */
  type Groups = seq<Option<string>>

  /** For each catalog key whose pattern matched the text, the groups of that match. */
  type Matches = map<string, Groups>

  /** What the PDF text extractor produced, and how the catalog's patterns matched it. */
  datatype Scan = Scan(text: string, matches: Matches)

  /** `next((g for g in groups if g is not None), None)`. */
  function FirstGroup(groups: Groups): (r: Option<string>)
    ensures r.None? <==> forall i :: 0 <= i < |groups| ==> groups[i].None?
    ensures r.Some? ==> exists i :: 0 <= i < |groups| && groups[i] == r && forall j :: 0 <= j < i ==> groups[j].None?
  {
    if groups == [] then None
    else if groups[0].Some? then groups[0]
    else
      var r := FirstGroup(groups[1..]);
      assert forall i :: 1 <= i < |groups| ==> groups[i] == groups[1..][i - 1];
      r
  }

  /** `part` occurs in `s` at position `k`, compared from its `j`-th character on. */
  predicate MatchesFrom(s: string, part: string, k: nat, j: nat)
    decreases |part| - j
  {
    j >= |part| || (k + j < |s| && s[k + j] == part[j] && MatchesFrom(s, part, k, j + 1))
  }

  /** `part` occurs in `s` at position `k` or later. */
  predicate OccursFrom(s: string, part: string, k: nat)
    decreases |s| - k
  {
    k + |part| <= |s| && (MatchesFrom(s, part, k, 0) || OccursFrom(s, part, k + 1))
  }

  /** `part in s` for strings. */
  predicate Contains(s: string, part: string)
  {
    OccursFrom(s, part, 0)
  }

  /** `"usage" in key`: the keys whose values are read with `int`. */
  predicate IsUsageKey(key: string)
  {
    Contains(key, "usage")
  }

  /** The field names of the two catalogs that contain `usage`. */
  lemma UsageFieldNames()
    ensures IsUsageKey("usage_kwh") && IsUsageKey("usage_kwh_explicit") && IsUsageKey("tier1_usage") && IsUsageKey("tier2_usage")
  {
  }

  /** The field names of the two catalogs that do not contain `usage`. */
  lemma OtherFieldNames()
    ensures !IsUsageKey("account_number") && !IsUsageKey("bill_date") && !IsUsageKey("total_amount")
    ensures !IsUsageKey("tier1_rate") && !IsUsageKey("tier1_cost") && !IsUsageKey("tier2_rate") && !IsUsageKey("tier2_cost")
    ensures !IsUsageKey("customer_charge") && !IsUsageKey("dist_charge") && !IsUsageKey("taxes")
  {
    TextFieldNames();
    TierFieldNames();
    ChargeFieldNames();
  }

  lemma TextFieldNames()
    ensures !IsUsageKey("account_number") && !IsUsageKey("bill_date") && !IsUsageKey("total_amount")
  {
    assert !OccursFrom("account_number", "usage", 5);
  }

  lemma ChargeFieldNames()
    ensures !IsUsageKey("customer_charge") && !IsUsageKey("dist_charge") && !IsUsageKey("taxes")
  {
    assert !OccursFrom("customer_charge", "usage", 2);
  }

  lemma TierFieldNames()
    ensures !IsUsageKey("tier1_rate") && !IsUsageKey("tier1_cost") && !IsUsageKey("tier2_rate") && !IsUsageKey("tier2_cost")
  {
  }

  /** The `try: int(val) / float(val) except: pass` step; `None` leaves the field unset. */
  function Coerce(key: string, text: string): (r: Option<Value>)
    ensures r.Some? ==> (r.value.Int? <==> IsUsageKey(key))
  {
    if IsUsageKey(key) then
      match ParseInt(text)
      case None => None
      case Some(i) => Some(Int(i))
    else
      match ParseFloat(text)
      case None => None
      case Some(x) => Some(Num(x))
  }

  /** What one matched field contributes: its first group, commas removed, coerced; `None` when it is skipped. */
  function FieldValue(key: string, groups: Groups): Option<Value>
  {
    match FirstGroup(groups)
    case None => None
    case Some(val) => if val == "" then None else Coerce(key, StripCommas(val))
  }

  /**
   * The `data` dict after the loop over the catalog: a key is present exactly when
   * its pattern matched and its value coerced, and then holds that value.
   */
  function CoerceAll(catalog: seq<string>, matches: Matches): (d: Record)
    ensures forall k :: k in d <==> k in catalog && k in matches && FieldValue(k, matches[k]).Some?
    ensures forall k :: k in d ==> d[k] == FieldValue(k, matches[k]).value
    decreases |catalog|
  {
    if catalog == [] then map[]
    else
      var init, key := catalog[..|catalog| - 1], catalog[|catalog| - 1];
      assert catalog == init + [key];
      var d := CoerceAll(init, matches);
      if key in matches && FieldValue(key, matches[key]).Some? then
        d[key := FieldValue(key, matches[key]).value]
      else d
  }

  /** The `for key, pattern in patterns.items()` loop. */
  method CoerceFields(catalog: seq<string>, matches: Matches) returns (data: Record)
    ensures data == CoerceAll(catalog, matches)
  {
    data := map[];
    for i := 0 to |catalog|
      invariant data == CoerceAll(catalog[..i], matches)
    {
      var key := catalog[i];
      assert catalog[..i + 1][..i] == catalog[..i];
      if key in matches {
        var val := FirstGroup(matches[key]);
        if val.Some? && val.value != "" {
          var coerced := Coerce(key, StripCommas(val.value));
          if coerced.Some? {
            data := data[key := coerced.value];
          }
        }
      }
    }
    assert catalog[..|catalog|] == catalog;
  }

  /**
   * A captured text with a character that no numeral has at that position (a sign is
   * allowed only first), ahead of any comma, is never stored.
   */
  lemma NonNumericCaptureDropped(key: string, groups: Groups, i: nat)
    requires FirstGroup(groups).Some?
    requires var val := FirstGroup(groups).value;
      && i < |val| && ',' !in val[..i + 1] && !IsDigit(val[i]) && val[i] != '.'
      && (i == 0 ==> val[i] != '+' && val[i] != '-')
    ensures FieldValue(key, groups) == None
  {
    var val := FirstGroup(groups).value;
    assert val == val[..i + 1] + val[i + 1..];
    StripCommasAppend(val[..i + 1], val[i + 1..]);
    var t := StripCommas(val);
    assert t[i] == val[i];
    if IsUsageKey(key) {
      assert ParseInt(t) == None;
    } else {
      assert ParseFloat(t) == None;
    }
  }

  /** The match has exactly one group, and it captured a text of the given shape. */
  predicate CapturedAs(groups: Groups, shape: string -> bool)
  {
    |groups| == 1 && groups[0].Some? && shape(groups[0].value)
  }

  /** `\d{4}-\d{4}-\d{4}` */
  predicate AccountNumberShape(s: string)
  {
    |s| == 14 && forall i :: 0 <= i < 14 ==> if i == 4 || i == 9 then s[i] == '-' else IsDigit(s[i])
  }

  predicate IsLetter(c: char)
  {
    'A' <= c <= 'Z' || 'a' <= c <= 'z'
  }

  /** `[A-Za-z]{3} \d{2}, \d{4}` */
  predicate BillDateShape(s: string)
  {
    && |s| == 12
    && IsLetter(s[0]) && IsLetter(s[1]) && IsLetter(s[2]) && s[3] == ' '
    && IsDigit(s[4]) && IsDigit(s[5]) && s[6] == ',' && s[7] == ' '
    && IsDigit(s[8]) && IsDigit(s[9]) && IsDigit(s[10]) && IsDigit(s[11])
  }

  // ---------------------------------------------------------------- components_sum

  /** The charge fields `comp_sum` adds up, in the order the source adds them. */
  const ChargeKeys: seq<string> := ["customer_charge", "tier1_cost", "tier2_cost", "dist_charge", "taxes"]

  /** `comp_sum` after adding `data.get(k, 0)` for each of `keys`, starting from the integer 0. */
  function SumOver(d: Record, keys: seq<string>): Value
    decreases |keys|
  {
    if keys == [] then Int(0)
    else Plus(SumOver(d, keys[..|keys| - 1]), Get(d, keys[|keys| - 1]))
  }

  /** The five charges added up, an unset one counting as 0. */
  function ChargeTotal(d: Record): real
  {
    ToReal(Get(d, "customer_charge")) + ToReal(Get(d, "tier1_cost")) + ToReal(Get(d, "tier2_cost"))
      + ToReal(Get(d, "dist_charge")) + ToReal(Get(d, "taxes"))
  }

  lemma SumOverSnoc(d: Record, keys: seq<string>, k: string)
    ensures ToReal(SumOver(d, keys + [k])) == ToReal(SumOver(d, keys)) + ToReal(Get(d, k))
  {
    assert (keys + [k])[..|keys|] == keys;
  }

  lemma SumOverChargeKeys(d: Record)
    ensures ToReal(SumOver(d, ChargeKeys)) == ChargeTotal(d)
  {
    var k1, k2, k3, k4, k5 := "customer_charge", "tier1_cost", "tier2_cost", "dist_charge", "taxes";
    assert ChargeKeys == [k1] + [k2] + [k3] + [k4] + [k5];
    assert [k1] == [] + [k1];
    SumOverSnoc(d, [], k1);
    SumOverSnoc(d, [k1], k2);
    SumOverSnoc(d, [k1] + [k2], k3);
    SumOverSnoc(d, [k1] + [k2] + [k3], k4);
    SumOverSnoc(d, [k1] + [k2] + [k3] + [k4], k5);
  }

  /** Setting a field that is not a charge leaves the charge total alone. */
  lemma ChargeTotalIgnoresOtherKeys(d: Record, key: string, v: Value)
    requires key !in ChargeKeys
    ensures ChargeTotal(d[key := v]) == ChargeTotal(d)
  {
    forall k | k in ChargeKeys
      ensures Get(d[key := v], k) == Get(d, k)
    {
    }
  }

  /** The `comp_sum` accumulator loop. */
  method SumCharges(d: Record) returns (compSum: Value)
    ensures compSum == SumOver(d, ChargeKeys)
    ensures ToReal(compSum) == ChargeTotal(d)
  {
    compSum := Int(0);
    for i := 0 to |ChargeKeys|
      invariant compSum == SumOver(d, ChargeKeys[..i])
    {
      assert ChargeKeys[..i + 1][..i] == ChargeKeys[..i];
      compSum := Plus(compSum, Get(d, ChargeKeys[i]));
    }
    assert ChargeKeys[..|ChargeKeys|] == ChargeKeys;
    SumOverChargeKeys(d);
  }

  /**
   * `data['components_sum'] = round(comp_sum, 2)`: always attached, the rounded
   * sum of the five charges; every other field is left as it was.
   */
  function WithComponents(d: Record): (r: Record)
    ensures "components_sum" in r && ToReal(r["components_sum"]) == Round2(ChargeTotal(d))
    ensures forall k :: k != "components_sum" ==> (k in r <==> k in d)
    ensures forall k :: k in d && k != "components_sum" ==> r[k] == d[k]
  {
    SumOverChargeKeys(d);
    d["components_sum" := Round2Value(SumOver(d, ChargeKeys))]
  }

  /** Python's `if not data`: true for `None` and for an empty dict. */
  predicate Falsy(r: Option<Record>)
  {
    r.None? || r.value == map[]
  }
}
