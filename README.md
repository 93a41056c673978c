# Personal-finance dashboard core, modelled in Dafny

This project models four parts of the personal-finance ML dashboard and proves properties of them.

- **Resilience layer** (`resilience.dfy`, module `Resilience`):
  - a three-state circuit breaker (CLOSED / OPEN / HALF_OPEN) with its failure count and last failure time;
  - a retry policy with capped exponential backoff and jitter;
  - a health check whose auto-heal clears its metrics;
  - the `ResilientSystem` orchestrator. It runs every retry attempt through the same breaker. On a terminal failure it appends one record to an append-only failure history, checks health, heals if needed and hands back the original error.
- **Rule-based classifier** (`symbolic_classifier.dfy`, module `SymbolicClassification`):
  - a list of rules kept ranked by priority and then confidence, both descending;
  - first-match classification, which writes to a symbol memory;
  - the fusion of a symbolic and a neural prediction;
  - the risk table;
  - feature extraction and batch classification.
- **Forecaster** (`probabilistic_forecaster.dfy`, module `Forecasting`):
  - the history buffer, bounded to twice the lookback period;
  - the fewer-than-ten-points guard;
  - the deterministic fallback forecast;
  - the ensemble delegation.
- **Ingestion pipeline** (`data_pipeline.dfy`, module `DataIngestion`):
  - the conversion of Plaid transaction records;
  - the merge of the results gathered from all connectors;
  - the batch-by-batch flattening of transactions into processed records.

`wrappers.dfy` (module `Wrappers`) holds the shared `Option` type, and `reals.dfy` (module `Reals`) the shared `Abs` and `Min` on reals.

## How the model is built

**Classes and specification functions.** Objects whose fields the program updates in place are Dafny classes: `CircuitBreaker`, `HealthCheck`, `ResilientSystem`, `SymbolicClassifier` and `ProbabilisticForecaster`. `RetryPolicy` and `DataPipeline` are never updated after construction; they are classes only to mirror the program's objects, and their fields are constants. The program's loops are `for`/`while` loops with invariants. Each method's postcondition ties its result and new state to a pure specification function of the inputs and the old state, for example:
- `CallStep` for one breaker call;
- `RetryFrom` for the retry loop;
- `ResilientFrom` for the retry loop through the breaker;
- `InsertRule`, `Classify`/`Remember` and `Batch` for the classifier;
- `Appended` for the history buffer;
- `ConvertPrefix`, `Merged` and `ProcessedAll` for the pipeline.

The properties the program promises are proved about those functions as lemmas.

**Inputs from outside.** The wrapped operation is an abstract per-attempt outcome: `op(a)` is `Ok(v)` or `Err(e)`. The breaker's own rejection is its own error variant, `CircuitOpenError`, because on that path the operation is never invoked. The clock (`datetime.now()`) and the jitter draw (`random.random()`) are parameters. This includes:
- one clock reading per breaker call;
- the timestamp of a failure record;
- the reading taken by each health check.

**Rule conditions.** A rule condition is a function from a transaction record to `Holds`, `Fails` or `Raises`. This lets the model follow the `try`/`except` that skips a rule whose condition raises. The five default rules are written out with their actual substring tests.

**Behaviour worth knowing.** These are stated plainly and proved:
- **Open breaker after the timeout.** An OPEN breaker stays OPEN, with its old failure time, until a call finds the recovery timeout elapsed; nothing closes it in between. The invariant that holds, and is proved, is `Inv`: a breaker that is not closed has reached the threshold and has a failure time.
- **Health check.** `perform_health_check` runs no probe. It can fail only if reading the clock raises, and that is how it is modelled.
- **Negative last value.** `_fallback_forecast` multiplies the last value by 0.95/1.05 and 0.98/1.02. For a negative last value the confidence band is therefore reversed (`FallbackBandReversedWhenNegative`).
- **Low-confidence agreement.** The agreement branch of `apply_symbiotic_learning` is commented as increasing confidence. For confidences in [0, 1] it lowers neither of them exactly when each is at least half the other, or when the boosted value is capped at 1 because they sum to at least 1.5 (`AgreementKeepsConfidenceIff`). Otherwise it lowers the larger one: confidences 0.2 and 0.06 fuse to about 0.173.
- **Unhashable id.** Storing a match in `symbol_memory` under an unhashable id raises inside the same `try` as the condition. That rule is then skipped like a raising condition (`Fires`).

## Model

| member | source | states |
|---|---|---|
| Resilience.ShouldAttemptReset | api/resilient_system.py:65-69 | `_should_attempt_reset`: due when no failure time is recorded, otherwise when the time since the last failure is at least the recovery timeout. Its properties are stated by `ShouldAttemptResetFromLastFailure`. |
| Resilience.ShouldAttemptResetFromLastFailure | api/resilient_system.py:65-69 | With no failure time the breaker is always due. It is never due before the timeout has elapsed since the last failure. Once due, it stays due as the clock advances. |
| Resilience.SuccessStep | api/resilient_system.py:52-56 | `_on_success` on a snapshot; `CallStep` and `CircuitBreaker.OnSuccess` state its effect: count 0, HALF_OPEN to CLOSED, failure time kept. |
| Resilience.FailureStep | api/resilient_system.py:58-62 | `_on_failure` on a snapshot; `CallStep` and `CircuitBreaker.OnFailure` state its effect: count plus one, failure time `now`, OPEN once the count reaches the threshold. |
| Resilience.CallStep | api/resilient_system.py:36-50 | An open breaker whose recovery timeout has not elapsed rejects with `CircuitOpenError`, does not invoke the operation and is left unchanged. Otherwise the operation is invoked exactly once and its outcome is passed through unchanged. A success resets the count to 0 and closes the breaker. A failure adds exactly one to the count, records `now`, and opens the breaker exactly when the count reaches the threshold. |
| Resilience.CallKeepsInv | api/resilient_system.py:37-62 | Every call preserves the breaker invariant: not closed implies the count is at the threshold and a failure time is set. After every call the breaker is closed or open, never half-open. |
| Resilience.TrialFailureReopens | api/resilient_system.py:37-62 | By the invariant, a failed trial call (half-open, or open with the timeout elapsed) invokes the operation, re-raises its error and always reopens the breaker. |
| Resilience.OpenThenRecover | api/resilient_system.py:36-69 | Threshold 2 and a 1 s timeout: two failures open the breaker. A call 0.5 s later fails fast without invoking the operation and changes nothing. A call 1.1 s after the failures invokes the operation and, on success, closes the breaker with count 0. |
| Resilience.CircuitBreaker.constructor | api/resilient_system.py:28-33 | A new breaker is CLOSED with count 0 and no failure time, and keeps the given threshold and timeout (defaults 5 and 60 s). |
| Resilience.CircuitBreaker.Call | api/resilient_system.py:36-50 | The new state, the result and whether the operation was invoked are exactly `CallStep` of the old state. The invariant is kept. |
| Resilience.CircuitBreaker.OnSuccess | api/resilient_system.py:52-56 | The count becomes 0 and HALF_OPEN becomes CLOSED. The failure time is unchanged. |
| Resilience.CircuitBreaker.OnFailure | api/resilient_system.py:58-62 | The count grows by one and the failure time becomes `now`. The state becomes OPEN when the new count reaches the threshold and is otherwise unchanged. |
| Resilience.RetryPolicy.constructor | api/resilient_system.py:75-78 | Stores the attempt bound, the base delay and the cap (defaults 3, 0.1 s and 10 s). |
| Resilience.RetryPolicy.CappedDelay | api/resilient_system.py:97 | The pre-jitter delay is at most both `max_delay` and `base_delay * 2^(attempt-1)` and equals one of them, so it is their minimum. It is nonnegative for nonnegative settings. |
| Resilience.RetryPolicy.CappedDelayMonotone | api/resilient_system.py:97 | The pre-jitter delay is nondecreasing in the attempt number. |
| Resilience.RetryPolicy.CalculateBackoff | api/resilient_system.py:96-98 | For a draw in [0, 1), the delay lies in [0.5, 1.5) times the capped delay. |
| Resilience.JitterBounds | api/resilient_system.py:98 | The factor `0.5 + u` with `u` in [0, 1) scales a nonnegative delay into [0.5, 1.5) of itself. |
| Resilience.RetryPolicy.RetryFrom | api/resilient_system.py:80-94 | The retry run from an attempt on: the result, the number of attempts and the delays slept. `RetryFromShape` states its behaviour, and `ExecuteWithRetry` is proved equal to it. |
| Resilience.RetryPolicy.RetryFromShape | api/resilient_system.py:80-94 | A run makes at most `max_attempts` attempts and stops at the first success. Every attempt before the last failed. The result is the last attempt's outcome, so on exhaustion it is the last attempt's error. Exactly one backoff is slept after each failed attempt but the final one, and each is that attempt's backoff. |
| Resilience.RetryPolicy.ExecuteWithRetry | api/resilient_system.py:80-94 | The loop's result, its number of invocations and the delays it sleeps, in order, are exactly the retry run `RetryFrom(op, draw, 1)`. |
| Resilience.HealthCheck.constructor | api/resilient_system.py:104-108 | A new health check keeps its interval (default 30) and is HEALTHY, with no last check and empty metrics. |
| Resilience.HealthCheck.PerformHealthCheck | api/resilient_system.py:110-118 | The check returns healthy exactly when the clock read succeeds. The status is HEALTHY then (UNHEALTHY otherwise) and `last_check` becomes the reading; on failure `last_check` is unchanged. The metrics are never touched. |
| Resilience.HealthCheck.AutoHeal | api/resilient_system.py:120-129 | The metrics are cleared, and the result is that of the health check it runs. |
| Resilience.ResilientFrom | api/resilient_system.py:141-146 | The retry run in which every attempt is one breaker call on the breaker the previous attempt left. `ResilientFromShape` states its behaviour, and `RetryThroughBreaker` is proved equal to it. |
| Resilience.BreakerBefore | api/resilient_system.py:141-146 | The breaker as a given attempt of that run finds it, after the failed calls of all earlier attempts; `ResilientFromShape` uses it to state that every attempt before the last failed. |
| Resilience.ResilientFromShape | api/resilient_system.py:141-146 | The retry loop through the breaker stops at the first success or after the last attempt. Every attempt before the final one is a failed breaker call on the breaker as the previous attempts left it (`BreakerBefore`). The run's result and breaker are those of the final call. A success is the operation's own value. A terminal failure comes from the last attempt and is either its own error or the breaker's rejection. The delays are the backoffs of all earlier attempts. The breaker invariant holds at the end. |
| Resilience.ClosedBelowThresholdIsPlainRetry | api/resilient_system.py:141-146 | A closed breaker whose count plus the remaining attempts stays below the threshold never opens: the run through it equals the plain retry run for every sequence of outcomes, and the breaker ends CLOSED. |
| Resilience.FailuresBelowThresholdStayClosed | api/resilient_system.py:141-146 | While failures stay below the threshold, the run through the breaker equals the plain retry run. The breaker stays CLOSED, counts one failure per attempt and records the last failure time. |
| Resilience.OpenBreakerFailsFast | api/resilient_system.py:141-146 | An open breaker whose timeout does not elapse during the run rejects every remaining attempt. The attempts still count against `max_attempts`, and the breaker is left exactly as it was. |
| Resilience.AlwaysFailingStaysClosed | api/resilient_system.py:141-146 | Threshold 5 and three attempts: an operation that always fails with one message ends with that message after three attempts and two sleeps. The breaker stays CLOSED with count 3. |
| Resilience.ResilientSystem.constructor | api/resilient_system.py:135-139 | Three fresh components with the defaults: threshold 5 and timeout 60 s; three attempts with 0.1 s base and 10 s cap; interval 30 s and HEALTHY. The failure history starts empty. |
| Resilience.ResilientSystem.ExecuteWithResilience | api/resilient_system.py:141-154 | Result, delays and the breaker's new state are the run through the same breaker, which carries state from attempt to attempt. A terminal failure appends exactly one record with the error's text and returns the original error. A success leaves the history and the health check unchanged. After a failure, auto-heal runs only when the health check failed. |
| Resilience.ResilientSystem.RetryThroughBreaker | api/resilient_system.py:143-145 | The retry loop whose attempts each make one `CircuitBreaker.Call` computes exactly `ResilientFrom` from the breaker's current state and keeps its invariant. |
| Resilience.ResilientSystem.RecordFailure | api/resilient_system.py:147-154 | Appends one failure record, then runs the health check. Auto-heal follows only if that check fails, and the resulting health state is stated for each case. |
| Resilience.ResilientSystem.GetSystemStatus | api/resilient_system.py:156-161 | A read-only status: the breaker state's string, the health status string, and `recent_failures` equal to the history's length. |
| SymbolicClassification.InsertPosition | core/symbolic_classifier.py:108-109 | Where Python's stable sort puts a rule appended to a ranked list: the number of leading rules it does not outrank. `InsertPositionBoundary` and `InsertPositionSuffix` state it. |
| SymbolicClassification.InsertRule | core/symbolic_classifier.py:108-109 | The rule list after `add_rule`. `InsertRulePermutation`, `InsertRuleKeepsOrder` and `InsertRuleRanked` state that it is a stable, ranked permutation of the old rules plus the new one. |
| SymbolicClassification.InsertPositionBoundary | core/symbolic_classifier.py:108-109 | A stable sort places the new rule after every rule it does not outrank and before the first rule it does outrank. |
| SymbolicClassification.InsertRulePermutation | core/symbolic_classifier.py:108-109 | After insertion the rules are, as a multiset, exactly the old rules plus the new one. |
| SymbolicClassification.InsertRuleKeepsOrder | core/symbolic_classifier.py:108-109 | The result is one longer and holds the new rule at its insertion position. Removing it gives back the old list, so the sort is stable. |
| SymbolicClassification.InsertPositionSuffix | core/symbolic_classifier.py:108-109 | In a ranked list, the new rule outranks every rule from its insertion position on. |
| SymbolicClassification.InsertRuleRanked | core/symbolic_classifier.py:108-109 | Inserting into a list ranked by (-priority, -confidence) keeps it ranked. |
| SymbolicClassification.Lower | core/symbolic_classifier.py:62 | Lower-casing keeps the length and maps exactly the ASCII capitals to small letters. |
| SymbolicClassification.MentionsAny | core/symbolic_classifier.py:71-72 | The keyword test raises exactly when there is at least one keyword and the field is present but not a string; with no keywords the generator is empty and the test fails without raising. It holds exactly when some keyword occurs in the lower-cased field, which defaults to `""`. |
| SymbolicClassification.TransferCondition | core/symbolic_classifier.py:90 | Holds exactly when the type is `"transfer"` and the amount (default 0) is a positive number. Raises exactly when the type matches and the amount is not a number. |
| SymbolicClassification.InsertionOrderOfFive | core/symbolic_classifier.py:57-109 | Five rules with the default priorities and confidences, added in source order, end up ranked investment, utility, grocery, transfer, salary. |
| SymbolicClassification.SalaryRule | core/symbolic_classifier.py:60-66 | `salary_income`: INCOME, confidence 0.95, priority 1, when the lower-cased description contains `salary`. `DefaultRulesOrder` ranks it last. |
| SymbolicClassification.GroceryRule | core/symbolic_classifier.py:69-75 | `grocery_expense`: EXPENSE, 0.9, priority 2, on a merchant mentioning grocery, supermarket or market (`MentionsAny`). |
| SymbolicClassification.UtilityRule | core/symbolic_classifier.py:78-85 | `utility_expense`: UTILITY, 0.92, priority 2, on a description mentioning electric, water, gas or internet (`MentionsAny`). |
| SymbolicClassification.TransferRule | core/symbolic_classifier.py:88-94 | `internal_transfer`: TRANSFER, 0.98, priority 1, under `TransferCondition`. |
| SymbolicClassification.InvestmentRule | core/symbolic_classifier.py:97-104 | `investment_expense`: INVESTMENT, 0.85, priority 3, on a merchant mentioning broker, exchange, investment or etf (`MentionsAny`). `DefaultRulesOrder` ranks it first. |
| SymbolicClassification.DefaultRulesOrder | core/symbolic_classifier.py:57-104 | The five default rules end up in that order. |
| SymbolicClassification.FirstMatchFrom | core/symbolic_classifier.py:113-121 | The index found is of a rule that fires, and no earlier rule fires, so rules that raise are skipped. When nothing is found, no rule from the start position on fires. |
| SymbolicClassification.Fires | core/symbolic_classifier.py:113-121 | A rule takes part in the match when its condition holds and the transaction's id can be stored in the memory; a raising condition or an unhashable id skips it. `FirstMatchFrom` and `ClassifyIsFirstFiring` are stated with it. |
| SymbolicClassification.Classify | core/symbolic_classifier.py:111-123 | The result of `classify_symbolic`. `ClassifyIsFirstFiring` states it: the first firing rule's label and confidence, or `(EXPENSE, 0.5)`. |
| SymbolicClassification.Remember | core/symbolic_classifier.py:113-123 | The memory after `classify_symbolic`. `RememberOnlyTouchesId` states it: unchanged without a match, otherwise only the id's entry is set to the matched label. |
| SymbolicClassification.ClassifyIsFirstFiring | core/symbolic_classifier.py:111-123 | The classification is the label and confidence of the first rule in list order that fires, or `(EXPENSE, 0.5)` when none fires. |
| SymbolicClassification.RememberOnlyTouchesId | core/symbolic_classifier.py:113-123 | Without a match the memory is unchanged. With one, the id (default `"unknown"`) maps to the matched label, and no other key is added, removed or changed. |
| SymbolicClassification.Fuse | core/symbolic_classifier.py:131-143 | Agreement (difference below 0.15) keeps the symbolic label with confidence `min(1, (s+n)/1.5)`. Otherwise the strictly more confident side wins, ties go to neural, and its confidence is scaled by 0.95. |
| SymbolicClassification.FusedConfidenceInUnitRange | core/symbolic_classifier.py:132-143 | Confidences in [0, 1] fuse to a confidence in [0, 1]. |
| SymbolicClassification.AgreementDoesNotLowerConfidence | core/symbolic_classifier.py:132-135 | When both confidences are in [0.3, 1] and agree, fusion lowers neither. |
| SymbolicClassification.AgreementKeepsConfidenceIff | core/symbolic_classifier.py:132-135 | For agreeing confidences in [0, 1], fusion lowers neither exactly when each is at least half the other or their sum is at least 1.5. |
| SymbolicClassification.DisagreementFollowsMoreConfident | core/symbolic_classifier.py:136-143 | On disagreement the fused label is that of the strictly more confident side. |
| SymbolicClassification.AbsAmount | core/symbolic_classifier.py:162 | The absolute amount (default 0) is nonnegative. It is missing exactly when the amount is not a number, so `abs` raises. |
| SymbolicClassification.RiskFor | core/symbolic_classifier.py:164-179 | INVESTMENT: HIGH above 10000, MEDIUM in (5000, 10000], LOW at 5000 or below. TRANSFER: CRITICAL above 50000, HIGH in (20000, 50000], LOW at 20000 or below. DEBT: always HIGH. Every other class: LOW. Only transfers are ever CRITICAL. |
| SymbolicClassification.RiskMonotoneInAmount | core/symbolic_classifier.py:164-179 | For a fixed classification, a larger amount never lowers the risk level. |
| SymbolicClassification.AssessRisk | core/symbolic_classifier.py:159-179 | The risk fails exactly when `abs(amount)` raises; otherwise it is the table's level for the absolute amount. |
| SymbolicClassification.MatchedRules | core/symbolic_classifier.py:155 | The rule-name list fails exactly when some condition raises. Otherwise it names exactly the rules whose condition holds. |
| SymbolicClassification.HoldingFrom | core/symbolic_classifier.py:155 | The indices from `i` on of the rules whose condition holds: strictly increasing, each one holds, and every holding index is listed. |
| SymbolicClassification.MatchedRulesInOrder | core/symbolic_classifier.py:155 | The comprehension yields one name per rule whose condition holds, in rule order: name `k` is the name of the `k`-th such rule. |
| SymbolicClassification.Features | core/symbolic_classifier.py:148-157 | Extraction fails exactly when listing the matched rules or assessing risk raises. Otherwise the record has exactly the four feature keys. |
| SymbolicClassification.FeatureValues | core/symbolic_classifier.py:152-157 | The features are the classification's symbol string and confidence, the matched rule names, and the risk level. |
| SymbolicClassification.BatchFailsIffSomeFails | core/symbolic_classifier.py:181-187 | A batch fails exactly when the extraction for some transaction fails. |
| SymbolicClassification.Batch | core/symbolic_classifier.py:181-187 | The result of `batch_classify`. `BatchShape`, `BatchKeepsInputFields` and `BatchFailsIffSomeFails` state it. |
| SymbolicClassification.RememberBatch | core/symbolic_classifier.py:181-187 | The memory after `batch_classify`: `Remember` applied to each transaction in order, up to and including the first whose extraction raises. `BatchClassify` is proved to leave it. |
| SymbolicClassification.BatchShape | core/symbolic_classifier.py:181-187 | A successful batch has one record per input, in input order. Record `i` is input `i` merged with its features. |
| SymbolicClassification.BatchKeepsInputFields | core/symbolic_classifier.py:186 | Each record's keys are the input's keys plus the feature keys, and the input's values are kept on every other key. |
| SymbolicClassification.SymbolicClassifier.constructor | core/symbolic_classifier.py:50-55 | Starts with an empty memory, threshold 0.7, and the five default rules in ranked order. |
| SymbolicClassification.SymbolicClassifier.AddRule | core/symbolic_classifier.py:106-109 | The rules become the stable insertion of the new rule, which by the lemmas above is a ranked permutation of old rules plus new. The list stays ranked. |
| SymbolicClassification.SymbolicClassifier.ClassifySymbolic | core/symbolic_classifier.py:111-123 | The rule loop returns the first-firing classification. The memory changes as `Remember` states, which by `RememberOnlyTouchesId` affects only the id. |
| SymbolicClassification.SymbolicClassifier.ApplySymbioticLearning | core/symbolic_classifier.py:125-146 | The prediction is the fusion of the symbolic classification with the neural one. The memory is updated by the symbolic step. |
| SymbolicClassification.SymbolicClassifier.ExtractSymbolicFeatures | core/symbolic_classifier.py:148-157 | The features equal `Features`. The classification is remembered even when a later step raises. |
| SymbolicClassification.SymbolicClassifier.BatchClassify | core/symbolic_classifier.py:181-187 | The loop's result is `Batch`, with the shape above. The memory records every transaction up to and including the first one whose extraction raises. |
| Forecasting.SliceFrom | core/probabilistic_forecaster.py:38 | Python's `xs[start:]` is the suffix of `xs` whose length is given by the clipping rule, for both negative and nonnegative starts. |
| Forecasting.Appended | core/probabilistic_forecaster.py:36-38 | The history after `add_data_point`. The `Appended…` lemmas below state its properties: it ends with the value, is a suffix of the old history plus the value, and is bounded by twice the lookback. |
| Forecasting.AppendedIsSuffix | core/probabilistic_forecaster.py:36-38 | The new buffer is a suffix of the old buffer followed by the new value, so relative order is preserved. |
| Forecasting.AppendedEndsWithValue | core/probabilistic_forecaster.py:36-38 | For a nonnegative lookback, the new value is the last element of the buffer. |
| Forecasting.AppendedIsBounded | core/probabilistic_forecaster.py:37-38 | With a positive lookback the buffer holds at most twice the lookback. |
| Forecasting.AppendedWithinBoundKeepsAll | core/probabilistic_forecaster.py:36-37 | Within the bound nothing is dropped. |
| Forecasting.AppendedPastBoundKeepsMostRecent | core/probabilistic_forecaster.py:37-38 | Past the bound, exactly the oldest values are dropped, leaving the `2 * lookback` most recent. |
| Forecasting.AppendedZeroLookbackKeepsAll | core/probabilistic_forecaster.py:37-38 | A zero lookback slices with `[-0:]` and keeps the whole list. |
| Forecasting.Fallback | core/probabilistic_forecaster.py:71-88 | With data: mean and median equal the last value, std is 0, the interval is 0.95x to 1.05x and the quartiles 0.98x to 1.02x. Without data: the fixed values 0, -1, 1, -0.5 and 0.5. The model is always `"fallback"`. |
| Forecasting.FallbackBandOrdered | core/probabilistic_forecaster.py:73-88 | With no data or a nonnegative last value, the band is ordered lower <= p25 <= median <= p75 <= upper, and the mean lies inside the interval. |
| Forecasting.FallbackBandReversedWhenNegative | core/probabilistic_forecaster.py:73-81 | With a negative last value, the interval and the quartiles are reversed. |
| Forecasting.ProbabilisticForecaster.constructor | core/probabilistic_forecaster.py:28-32 | Defaults 60 and 0.95, with an empty history. |
| Forecasting.ProbabilisticForecaster.AddDataPoint | core/probabilistic_forecaster.py:34-38 | The history becomes `Appended(old, value, lookback)`, and the bound of twice the lookback is an invariant. |
| Forecasting.ProbabilisticForecaster.ForecastMonteCarlo | core/probabilistic_forecaster.py:40-50 | Fewer than ten points give the fallback forecast. Otherwise the simulation sees the last `lookback` values and the last value. |
| Forecasting.ProbabilisticForecaster.ForecastEnsemble | core/probabilistic_forecaster.py:66-69 | The ensemble forecast is the Monte Carlo forecast. |
| DataIngestion.AbsOf | core/data_pipeline.py:92 | `abs` succeeds exactly on numbers and booleans and is then nonnegative. |
| DataIngestion.ToTransaction | core/data_pipeline.py:89-98 | The conversion of one Plaid record, `None` when it raises. `ToTransactionFields` states each field. |
| DataIngestion.ResponseItems | core/data_pipeline.py:86-88 | The records of a response: those of a 200 response whose body decodes to an object, and none otherwise. `FetchTransactions` states the error paths with it. |
| DataIngestion.ToTransactionFields | core/data_pipeline.py:88-98 | Conversion succeeds exactly when the record is convertible (an object with the required keys, an amount with an absolute value, and a parseable date string). It copies id and currency, and takes `abs` of the amount. `merchant` defaults to `"Unknown"`, `description` to `""` and the category code to `None`. `user_id` is always `"plaid_user"`, and `category` is unset. |
| DataIngestion.ConvertPrefix | core/data_pipeline.py:88-100 | The records converted before the first one that raises. `ConvertPrefixIsLongest` states it. |
| DataIngestion.ConvertPrefixIsLongest | core/data_pipeline.py:88-100 | The converted list is the longest prefix of records that all convert, each converted in place. The record after it, if any, fails. |
| DataIngestion.FetchedTransactionsAreNormalised | core/data_pipeline.py:86-98 | Every fetched transaction belongs to `plaid_user` and has a nonnegative amount. |
| DataIngestion.FetchTransactions | core/data_pipeline.py:86-102 | The conversion loop returns exactly `ConvertPrefix` of the response's records. A failed request, a non-200 status or an undecodable body gives nothing. |
| DataIngestion.Merged | core/data_pipeline.py:124-128 | The merge of the gathered results. `MergedKeepsFetched`, `MergedSkipsRaised`, `MergedAppend` and `MergedLength` state it. |
| DataIngestion.MergedKeepsFetched | core/data_pipeline.py:124-128 | A successful result contributes exactly its own transactions, in their order, between the merges of the results before and after it. |
| DataIngestion.MergedAppend | core/data_pipeline.py:124-128 | Merging distributes over concatenation of the gathered results, so order is kept. |
| DataIngestion.MergedSkipsRaised | core/data_pipeline.py:124-128 | An exception result contributes nothing. |
| DataIngestion.MergedLength | core/data_pipeline.py:124-128 | The merged list is as long as all successful results together. |
| DataIngestion.Process | core/data_pipeline.py:141-149 | One processed record. `ProcessedAll` states its fields. |
| DataIngestion.ProcessedAll | core/data_pipeline.py:141-149 | One processed record per transaction, in order. Record `k` copies id, user id, amount, merchant, description and the ISO date of transaction `k`, and takes clock reading `k`. |
| DataIngestion.DataPipeline.constructor | core/data_pipeline.py:108-112 | Stores the connectors; the batch size is 100 and the retry count 3. |
| DataIngestion.DataPipeline.FetchTasks | core/data_pipeline.py:114-120 | Exactly one fetch task per connector, in connector order, each with the given day count (default 90). |
| DataIngestion.DataPipeline.IngestAllTransactions | core/data_pipeline.py:123-128 | The merge loop yields exactly `Merged`: the in-order concatenation of the successful results. |
| DataIngestion.DataPipeline.ProcessBatch | core/data_pipeline.py:135-151 | With the pipeline's batch size of 100 the result is exactly `ProcessedAll`: same length, same order, copied fields. |
| DataIngestion.ProcessInBatches | core/data_pipeline.py:137-151 | For every positive batch size, walking the input in slices of that size gives exactly `ProcessedAll`, so the result does not depend on the batch size. |

## Left out

- Asynchronous execution: `async`/`await`, `asyncio.sleep`, `asyncio.gather` concurrency and the `iscoroutinefunction` dispatch. Each operation is one synchronous outcome, and a sleep is recorded as a delay in the returned list.
- Logging: every `logger.*` call.
- The real clock and randomness. `datetime.now()` and `random.random()` are parameters. Each breaker call takes one clock reading, which is used both for `_should_attempt_reset` and for `_on_failure`.
- Resilience.RetryPolicy.ExecuteWithRetry: requires `max_attempts >= 1`. With zero attempts the source runs `raise None`, a `TypeError` that is not modelled. The same requirement holds for `RetryThroughBreaker` and `ExecuteWithResilience`.
- Resilience.ResilientSystem.RetryThroughBreaker: this method writes out the retry loop of `execute_with_retry` a second time, with `CircuitBreaker.Call` inside. The library's retry loop takes a pure outcome function, while here each attempt changes the breaker. The lemma `ClosedBelowThresholdIsPlainRetry` shows that the two loops agree, whatever the outcomes, when the breaker starts closed and the remaining attempts cannot reach the threshold; `FailuresBelowThresholdStayClosed` adds the final breaker for a run in which every attempt fails.
- The `except` of `auto_heal`: nothing inside its `try` can raise once the clock read is a parameter, so that branch is not modelled.
- `HealthCheck.metrics` holds `Any` in the source; here it is a map from strings to strings. Only its clearing matters to the model.
- The Monte Carlo simulation: the numpy draws, cumulative sums and percentiles, and the `steps` and `n_simulations` arguments. It is a `simulate` parameter that receives the slice of the history and the last value.
- Floating-point arithmetic: all amounts, confidences, delays and forecasts are mathematical reals.
- Python values in the classifier: a transaction value is `None`, a number, a string, a list of rule names or a risk level. Booleans and other kinds are not modelled.
- `str.lower()` is modelled for ASCII letters only. More generally, strings are sequences of characters, with no Unicode case rules.
- SymbolicClassification.AgreementDoesNotLowerConfidence: requires both confidences to be at least 0.3. Below that, agreement can lower the confidence in the source too, e.g. 0.2 and 0.06 fuse to about 0.173; `AgreementKeepsConfidenceIff` gives the exact condition.
- Network I/O of the Plaid connector: `authenticate`, the `authenticated` flag, the HTTP requests and the dates sent with them. The response is given as a value: a failed request, or a status with a body that may not decode.
- `datetime.fromisoformat` and `isoformat`: the parser is a parameter, and a parsed date carries its ISO rendering.
- The outer `try` of `ingest_all_transactions`: with `return_exceptions=True`, `gather` itself does not raise in a sequential model.
- `DataPipeline.max_retries`: stored but never used by the source.
- DataIngestion.ProcessInBatches: requires a positive batch size. The pipeline always passes 100; a step of 0 (a `ValueError` in `range`) or a negative step (no iterations) is not modelled.
- The ORM models, the database session and the TF-IDF feature extraction (`models/user.py`, `models/transaction.py`, `db/database.py`, `core/features.py`) are not part of this model.
