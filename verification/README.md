# Long-stayer risk score

This project models the risk score of a hospital admission, `risk_score` in
`src/utils.py`. The score turns a length of stay (LoS) in days into an ordinal
risk-of-becoming-a-long-stayer category:

- 1: very low risk
- 2: low risk
- 3: normal risk
- 4: elevated risk
- 5: high risk

The stay is first rounded **up** to whole days. The rounded day count is then
tested against a fixed ladder of thresholds from the top down: above 15 gives 5,
above 13 gives 4, above 10 gives 3, above 6 gives 2, and anything else gives 1.

The model has two modules:

- `Rounding` (`rounding.dfy`): Python's `math.ceil` on a finite value, written as
  `-((-x).Floor)` over Dafny's `real`. It is characterised by `c - 1 < x <= c`.
  Lemmas give its uniqueness, its monotonicity, and the key fact that
  `Ceil(x) > k` holds exactly when `x > k` for an integer `k`.
- `Utils` (`utils.dfy`): `Category` is the if/elif ladder on a whole day
  count. `RiskScore` is the ceiling followed by the ladder. `Exceeded` is an
  independent reference definition: it counts how many of the thresholds
  `[6, 10, 13, 15]` a day count lies strictly above. The ladder is proved to
  equal one plus that count for every day count. The other properties (range,
  bands, monotonicity, dependence on the rounded value only, and the strict
  thresholds on the raw stay) follow from the ladder itself and the
  `Rounding` lemmas.

The code does not check for a negative length of stay. Such a stay rounds to a
day count of at most 0, falls through to the `else` branch (src/utils.py:27-28)
and scores 1 (`Utils.NonPositiveStayIsVeryLowRisk`).

## Model

| member | source | states |
|---|---|---|
| Rounding.Ceil | src/utils.py:17 | the rounded stay `c` is the whole day count with `c - 1 < los <= c`, i.e. the stay rounded up |
| Rounding.CeilUnique | src/utils.py:17 | any integer `c` with `c - 1 < x <= c` is the ceiling, so the rounding is determined by that bracket |
| Rounding.CeilOfInt | src/utils.py:17 | a stay of a whole number of days is not changed by rounding up |
| Rounding.CeilGreaterIff | src/utils.py:17 | for an integer threshold `k`, the rounded stay exceeds `k` exactly when the raw stay does |
| Rounding.CeilMonotone | src/utils.py:17 | rounding up keeps the order of two stays |
| Rounding.CeilPartialDay | src/utils.py:16-17 | `n` whole days plus any part of a day in (0, 1] rounds up to `n + 1` days |
| Utils.Exceeded | src/utils.py:19-28 | the number of ladder thresholds a day count lies above is at most the number of thresholds; it is all of them exactly when the count is above every one, and none exactly when it is above none |
| Utils.Category | src/utils.py:19-28 | the ladder always yields a category in 1..5 |
| Utils.RiskScore | src/utils.py:6-28 | the score is in 1..5 for every real stay; it is 5 exactly when the stay exceeds 15 days; at least 4 exactly when it exceeds 13; at least 3 exactly when it exceeds 10; at least 2 exactly when it exceeds 6 |
| Utils.ExceededAtLeast | src/utils.py:19-26 | with ascending thresholds, a day count exceeds at least `k` of them exactly when it exceeds the `k`-th |
| Utils.ExceededMonotone | src/utils.py:19-28 | a longer day count never exceeds fewer thresholds |
| Utils.CategoryCountsThresholds | src/utils.py:19-28 | the top-down if/elif ladder equals one plus the number of thresholds 6, 10, 13, 15 the rounded day count exceeds |
| Utils.CategoryBands | src/utils.py:19-28 | bands on the rounded day count `d`, both directions: `d <= 6` gives 1, `7..10` gives 2, `11..13` gives 3, `14..15` gives 4, `d >= 16` gives 5 |
| Utils.CategoryMonotone | src/utils.py:19-28 | the ladder is monotone non-decreasing in the day count |
| Utils.RiskScoreMonotone | src/utils.py:17-28 | a longer stay never gets a lower score |
| Utils.RiskScoreOfRoundedStay | src/utils.py:17 | the score of a stay equals the score of its rounded-up day count |
| Utils.SameRoundingSameScore | src/utils.py:17 | two stays that round up to the same day count get the same score |
| Utils.PartialDayCountsAsWholeDay | src/utils.py:16-25 | `n` days plus any part of a day is scored as the ladder category of `n + 1` days |
| Utils.NonPositiveStayIsVeryLowRisk | src/utils.py:27-28 | a zero or negative stay is not rejected and scores 1 (a named corollary of `Utils.RiskScore`'s clause for 2) |
| Utils.LongStayIsHighRisk | src/utils.py:19-20 | every stay over 15 days scores 5, with no upper bound (a named corollary of `Utils.RiskScore`'s clause for 5) |
| Utils.BoundaryExamples | src/utils.py:17-28 | 6.0 scores 1 but 6.1 and 6.9 score 2; 10.0 scores 2 but 10.01 scores 3; 13.0 scores 3 but 13.01 scores 4; 15.0 scores 4 but 15.01 scores 5; 0 scores 1; 100 scores 5 |
| Utils.BandsScenario | src/utils.py:17-28 | the stays 0, 6, 6.5, 7, 10, 10.5, 11, 13, 13.5, 14, 15, 15.5, 16, 250 score 1, 1, 2, 2, 2, 3, 3, 3, 4, 4, 4, 5, 5, 5 |

## Left out

- `train_and_test_model` (src/utils.py:31-70): it fits a scikit-learn estimator and scores it with scikit-learn's `mean_squared_error` or `f1_score`. These are foreign library calls on floating-point arrays. Its only local logic is clipping predictions at 0 and raising `ValueError` on an unknown metric name, both glue around calls the model cannot see.
- IEEE-754 float semantics for the stay: Dafny's `real` is exact and has no NaN or infinity. The model covers finite inputs only; `math.ceil` raises on NaN and infinity, which is not modelled.
- The seeded three-way train/validate/test split, data loading, cleaning, plotting and model persistence: none of it is in `src/utils.py`, and it is I/O or library-driven.
