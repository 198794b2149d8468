# Bill audit engine

A Dafny model of the audit engine of BillGuard AI, which reads an electricity bill,
extracts its figures and flags three kinds of irregularity. The engine exists twice: once
in the FastAPI server (`backend/main.py`) and once in the Streamlit app (`app.py`). The
model covers both copies:

- `AnomalyDetector.detect`. It runs three rules over the extracted record:
  - a usage spike above 800 kWh (high severity);
  - a tier-1 rate more than 0.01 away from 0.13 per kWh (critical). The server reads the
    printed rate. The app derives the rate as tier-1 cost over tier-1 usage.
  - line items that differ from the billed total by more than 1.00 (critical).
  It returns the findings together with the overall severity.
- The half of `extract_data_from_pdf` that runs after the regular expressions have
  matched. It takes the first captured group and strips commas. Usage fields go through
  `int()` and everything else through `float()`. Usage is re-derived from the tiers, and
  `components_sum` is attached as `round(sum, 2)` of the five charges.
- The fallback wording of `get_ai_summary`, and the `/api/analyze` route that chains
  extraction, detection and the summary.

Modules:

- `Wrappers`: `Option`.
- `PyNumbers`: Python `int`/`float` values and the parts of `int()`, `float()`, `round()`
  and `str.replace` the engine uses.
- `Records`: the extracted dict and `dict.get(key, 0)`.
- `Findings`: severities, findings, and the overall severity.
- `Rules`: the spike and calculation rules, which the two copies share, and how the
  findings are assembled in rule order.
- `Extraction`: the coercion loop and `components_sum`, which the two copies share.
- `Summary`: `get_ai_summary`.
- `Backend` and `App`: each copy's catalog, rate rule, usage handling, `detect` and
  `extract_data_from_pdf`. `Backend` also models the analyze route.
- `Scenarios`: the four sample bills of `generate_bills.py`, the boundaries of each rule,
  and the inputs on which the two copies disagree.

Numbers are exact: money and rates are `real`. A Python `int` and a Python `float` are
the two cases of `Value`, so `int` arithmetic stays `int` as it does in Python.

Two things are inputs rather than computed:

- The text of the PDF, and which groups each pattern captured, arrive as a `Scan`. A
  failed text acquisition is `None`.
- The language model's reply is the `narrative` parameter of `AiSummary`.

The severity a detector reports is the last one it assigned. The model computes it the
same way in `Detect` and proves that it equals the maximum over the findings, because
the rules fire in ascending severity (`Findings.OverwriteIsMax`).

A bill whose text was read is never rejected, even when no pattern matches it. Its record
then holds only a zero `components_sum`, no rule fires, and the summary is the all-clear
text; the app shows such a bill as "Verified" (`Scenarios.UnmatchedBillIsClean`).

Where the code and the wording around it differ, the model follows the code:

- The account number and the bill date are matched but then sent through `float()`,
  which always fails on them. So neither ever reaches the record
  (`Backend.TextFieldsNeverRecorded`, `App.TextFieldsNeverRecorded`).
- The "Multiple issues detected" summary reads as meant for bills with several kinds of
  finding, as the message's own wording suggests. The code can never return it: a non-empty list always contains one of the
  three types it tests (`Summary.FallbackNeverMultiple`).

## Model

| member | source | states |
|---|---|---|
| PyNumbers.Plus | backend/main.py:127 | `+` on Python numbers: the real sum, and an `int` exactly when both operands are `int` |
| PyNumbers.Abs | backend/main.py:51 | `abs`: non-negative, and equal to the argument or its negation |
| PyNumbers.RoundHalfEven | backend/main.py:132 | the integer nearest to its argument, exact on integers |
| PyNumbers.Round2 | backend/main.py:132 | `round(x, 2)` lies within half a cent of `x` and is a whole number of cents |
| PyNumbers.Round2OfCents | backend/main.py:132 | rounding an amount already in whole cents leaves it unchanged |
| PyNumbers.Round2Idempotent | backend/main.py:132 | rounding twice is rounding once |
| PyNumbers.Round2OfWhole | backend/main.py:132 | rounding an integer to cents leaves it unchanged |
| PyNumbers.Round2Value | backend/main.py:132 | `round(v, 2)` keeps an `int` an `int` and rounds the value |
| PyNumbers.StripCommas | backend/main.py:112 | `replace(',', '')` leaves no comma, never lengthens, and changes nothing when there is no comma |
| PyNumbers.StripCommasAppend | backend/main.py:112 | stripping commas distributes over concatenation |
| PyNumbers.ParseInt | backend/main.py:115 | `int()` accepts only a digit or a sign followed by digits |
| PyNumbers.ParseUnsignedDecimal | backend/main.py:117 | an unsigned decimal is non-negative and made of digits and at most one point |
| PyNumbers.ParseFloat | backend/main.py:117 | `float()` accepts only a digit, a point or a sign followed by digits and at most one point |
| PyNumbers.DecimalOfParts | backend/main.py:117 | `float()` of digits, a point and digits is the whole part plus the fraction |
| PyNumbers.DigitsValueOfNatText | backend/main.py:115 | the digits of a natural number read back as that number |
| PyNumbers.ParseIntOfNatText | backend/main.py:115 | `int(str(n)) == n` for every natural `n` |
| PyNumbers.ParseFloatOfCentsText | backend/main.py:117 | a printed amount `d.cc` parses to exactly `c / 100` |
| Findings.MaxSeverity | backend/main.py:34-73 | the overall severity: an upper bound of every finding's severity, attained by some finding, low when there is none |
| Findings.OverwriteIsMax | backend/main.py:34-73 | when severities ascend, the last assigned severity is the maximum |
| Findings.OverwriteOutOfOrderIsNotMax | backend/main.py:34-73 | without ascending order, overwriting loses the maximum (a critical finding followed by a high one) |
| Findings.MaxSeverityOrderIndependent | backend/main.py:34-73 | the maximum severity does not depend on the order of the findings |
| Findings.InRuleOrderAtMostThree | backend/main.py:33-75 | findings in strict rule order number at most three, and the i-th comes from rule i or a later rule |
| Rules.SpikeRule | backend/main.py:36-46 | the spike fires exactly when usage exceeds 800 kWh, is high, and prices the excess over 500 kWh at 0.15 (more than 45) |
| Rules.CalcRule | backend/main.py:62-73 | the calculation check fires only on a positive total and positive line items differing by more than 1.00, and is critical |
| Rules.ConcatInRuleOrder | backend/main.py:33-75 | appending later rules' findings keeps rule order |
| Rules.AssembleMembers | backend/main.py:33-75 | the findings are exactly the findings of the rules that fired |
| Rules.AssembleInRuleOrder | backend/main.py:33-75 | the findings come in rule order: spike, rate, calculation |
| Rules.AssembleAscending | backend/main.py:33-75 | the findings' severities never decrease |
| Rules.AssembleShape | backend/main.py:33-75 | at most three findings in rule order, ascending, with the last severity the maximum |
| Rules.AssembleHas | backend/main.py:33-75 | a finding of a kind is present exactly when that kind's rule fired |
| Extraction.FirstGroup | backend/main.py:110 | the first group that is not `None`, and `None` exactly when every group is `None` |
| Extraction.OtherFieldNames | backend/main.py:114 | none of the ten catalog names without `usage` in them is read with `int()` |
| Extraction.Coerce | backend/main.py:113-119 | a converted capture is an `int` exactly when the key names a usage |
| Extraction.CoerceAll | backend/main.py:107-119 | a key is in the record exactly when it is in the catalog, was matched, and its capture converted; its value is that conversion |
| Extraction.CoerceFields | backend/main.py:107-119 | the coercion loop builds exactly `CoerceAll` |
| Extraction.NonNumericCaptureDropped | backend/main.py:113-119 | a capture with a character other than a digit or point after its first is dropped silently |
| Extraction.SumOverSnoc | backend/main.py:129-131 | adding one more key adds its value, 0 when unset |
| Extraction.SumOverChargeKeys | backend/main.py:129-131 | the sum over the five charge keys is the sum of the five charges |
| Extraction.ChargeTotalIgnoresOtherKeys | backend/main.py:129-131 | setting a key that is not a charge leaves the charge total unchanged |
| Extraction.SumCharges | backend/main.py:129-131 | the summing loop computes the charge total, an unset charge counting as 0 |
| Extraction.WithComponents | backend/main.py:132 | `components_sum` is attached as the charge total rounded to cents; every other key is kept as it was |
| Summary.AiSummary | backend/main.py:141-166 | no findings gives the fixed all-clear text; otherwise the narrative when there is one, else the fallback advice, one of three texts |
| Summary.FallbackPriority | backend/main.py:160-166 | rate advice exactly when a rate error is present; else calculation advice exactly when a calculation error is present; else spike advice exactly when a spike is present |
| Summary.FallbackNeverMultiple | backend/main.py:160-166 | for a non-empty list of findings the "Multiple issues" text is never returned |
| Backend.RateRule | backend/main.py:49-59 | fires exactly when the printed tier-1 rate is positive and more than 0.01 from 0.13; critical; an undercharged rate gives a negative impact |
| Backend.Anomalies | backend/main.py:31-75 | the findings are in rule order, ascending in severity, at most three, with the last severity the maximum |
| Backend.Detect | backend/main.py:31-75 | `detect` returns exactly the findings of the rules that fired, and its overwritten severity is their maximum |
| Backend.AnomaliesByRule | backend/main.py:36-73 | each kind of finding is present exactly under its rule's condition, with the severity and impact that rule gives |
| Backend.CatalogUsageKeys | backend/main.py:88-117 | of the thirteen catalog keys exactly `usage_kwh`, `tier1_usage` and `tier2_usage` are read with `int()` |
| Backend.ExtractData | backend/main.py:107-139 | `None` exactly when text acquisition failed; otherwise the coerced record after the usage fallback with `components_sum`; never an empty dict |
| Backend.UsageAfterExtraction | backend/main.py:121-127 | an unset or zero usage with positive tier-1 usage becomes tier 1 plus tier 2; otherwise usage is as extracted |
| Backend.FallbackKeepsCharges | backend/main.py:121-131 | the usage fallback changes neither the charge total nor any other field |
| Backend.ComponentsSumAttached | backend/main.py:129-134 | `components_sum` is always present as the rounded charge total, and every other extracted field except usage is kept |
| Backend.TextFieldsNeverRecorded | backend/main.py:89-119 | an account number or bill date captured in its pattern's shape never reaches the record |
| Backend.AnalyzeBill | backend/main.py:172-198 | status 400 exactly when extraction failed; otherwise the record, its findings, their maximum severity and the summary |
| App.ScaleByUsage | app.py:212-214 | for a positive usage, comparing cost over usage with 0.13 is comparing cost with 0.13 times usage |
| App.RateRuleDivides | app.py:212-214 | the rate check fires exactly when both tier-1 figures are positive and cost over usage is more than 0.01 from 0.13 |
| App.RateRule | app.py:210-221 | fires exactly when tier-1 usage and cost are positive and the cost is off 0.13 per kWh by more than 0.01 per kWh; critical; the impact is the cost minus 0.13 times the usage |
| App.Anomalies | app.py:194-236 | the findings are in rule order, ascending in severity, at most three, with the last severity the maximum |
| App.Detect | app.py:194-236 | `detect` returns exactly the findings of the rules that fired, and its overwritten severity is their maximum |
| App.AnomaliesByRule | app.py:199-234 | each kind of finding is present exactly under its rule's condition, with the severity and impact that rule gives |
| App.CatalogUsageKeys | app.py:245-266 | of the eleven catalog keys exactly `usage_kwh_explicit`, `tier1_usage` and `tier2_usage` are read with `int()` |
| App.GroupedTotalRead | app.py:248 | a comma-grouped total `1,234.56`, which only the app's pattern admits, is recorded as 1234.56 |
| App.ExtractData | app.py:260-289 | `(None, None)` exactly when text acquisition failed; otherwise the record with usage precedence and `components_sum`, beside the text |
| App.UsageKwhNotInCatalog | app.py:246-258 | the app never matches `usage_kwh` or `components_sum` directly |
| App.UsageAfterExtraction | app.py:274-280 | an extracted explicit usage, even 0, becomes the usage; otherwise positive tier-1 usage gives tier 1 plus tier 2 |
| App.ComponentsSumAttached | app.py:282-287 | `components_sum` is always present as the rounded charge total, and every other extracted field except usage is kept |
| App.TextFieldsNeverRecorded | app.py:247-272 | an account number or bill date captured in its pattern's shape never reaches the record |
| Scenarios.NormalBillFindings | generate_bills.py:16-37 | the normal bill's line items add up to its total of 106.26, and neither copy flags anything |
| Scenarios.SpikeBillFindings | generate_bills.py:38-59 | the 945 kWh bill adds up to 178.92; both copies report only a high-severity spike with impact 66.75 |
| Scenarios.MathErrorBillFindings | generate_bills.py:60-81 | line items 114.84 against a total of 121.84; both copies report only a critical calculation error of 7.00 |
| Scenarios.WrongRateBillFindings | generate_bills.py:82-103 | tier 1 billed at 0.15; both copies report only a critical rate error of 10.00, and the line items match the total |
| Scenarios.SpikeBoundary | backend/main.py:39 | 800 kWh does not fire, 801 kWh fires with impact 45.15 |
| Scenarios.BackendRateBoundary | backend/main.py:50-57 | 0.14 and 0.12 are within tolerance; 0.141 fires with 5.50; 0.10 gives -15.00; an unset tier-1 usage counts as 0; a rate of 0 is not checked |
| Scenarios.CalcBoundary | backend/main.py:64-66 | a difference of 1.50 either way fires; 0.99 and exactly 1.00 do not; zero line items are not checked |
| Scenarios.RateRulesAgree | app.py:210-221 | when the printed rate is exactly cost over usage, the two rate checks give the same finding |
| Scenarios.PrintedRateHidesOvercharge | app.py:210-221 | 75.00 for 500 kWh printed at 0.13 passes the server's check and fails the app's with 10.00 |
| Scenarios.UnmatchedBillIsClean | app.py:333-340 | a readable bill that matches no pattern is accepted by both copies with only a zero `components_sum`, has no findings, low severity and the all-clear summary |
| Scenarios.ExplicitZeroUsage | app.py:274-280 | a printed usage of 0 with tiers 500 + 445: the server re-derives 945 kWh and flags a spike, the app keeps 0 |

## Left out

- Floating point: amounts and rates are exact rationals. In IEEE doubles `0.14 - 0.13` exceeds 0.01, so the server flags a printed rate of 0.14. The model, like `Scenarios.BackendRateBoundary`, does not.
- Text acquisition with pdfplumber, and the regular expressions themselves: the model receives the text and each pattern's captured groups.
- The exception handlers around extraction and the route. Nothing in the modelled half of extraction can raise, except `int()` and `float()`, whose failures are modelled.
- `int()` and `float()` accept more than the model does: surrounding whitespace, underscores between digits, exponents, and `inf`/`nan`. The patterns capture none of these forms.
- Unicode decimal digits: the patterns' `\d` and Python's `int()` and `float()` accept any Unicode decimal digit, so a capture such as `５８０` is stored by the source. The model reads only `0`-`9` and drops such a capture.
- `PyNumbers.ParseInt`: does not model the limit of 4300 digits that `int()` enforces on strings since Python 3.11; the model reads a numeral of any length.
- The language model calls in `get_ai_summary`. The model takes their reply, or its absence, as a parameter. The API key test and the network are not modelled.
- The `detail` and `impact` strings of a finding: the model keeps the impact as a number, not its `:.2f` rendering. The summary's substring tests on the joined details are modelled as "a finding of that type is present". This is faithful because no detail template contains a type name.
- The Streamlit page and the React front end. The status route `/`, and the report routes `/api/generate-report` and `/api/generate-combined-report`. The helper scripts. None of them is part of the audit engine.
- Python's `round` on doubles rounds the binary value. The model rounds the exact value half to even.
