# Food holiday insight engine: a verified Dafny model

The food holiday insight engine ranks food trends. Its scoring pipeline:

- measures how abnormal an entity's social buzz is against its baseline;
- classifies the buzz's momentum as EMERGING, PEAKING, FATIGUED or FLAT;
- compares engagement across platforms to find an agreement level and a leading platform;
- combines these into a confidence score with a risk tier and a written explanation;
- estimates how many hours a merchant has to act;
- adjusts the verdict for each delivery or retail platform.

A set of batch scripts supplies the food side of the pipeline. They:

- load a static table of food holidays and normalise its dates;
- extract keywords from holiday names and match them against menu items;
- count matches per holiday to give a 0-100 popularity score;
- keep the five most matched dishes of every holiday.

This project models that core in Dafny and proves what the code promises about it.

## Modules

There is one module per source file of the core, plus four shared modules:

| module | file | models |
|---|---|---|
| `Wrappers` | wrappers.dfy | `Option`, `Result`, and the Python exceptions the modelled code can raise (`ZeroDivisionError`, `KeyError`, `IndexError`, `AttributeError`, and `SystemExit` for `sys.exit`) |
| `Numeric` | numeric.dfy | Python `round` as exact decimal rounding on reals; sums, means and the population variance; `int()` truncation |
| `Text` | text.dfy | the Python string operations the code uses on ASCII: `lower`, `strip`, `split`, `join`, `find`, `in`, `capitalize`, integer rendering and parsing, ordering |
| `Tally` | tally.dfy | counting into a Python dictionary: keys in order of first insertion, counts and weighted totals per key, and the chunked reading of a table |
| `Schemas` | schemas.dfy | the `SocialSignal` and `TrendSignal` records |
| `Baseline` | baseline.dfy | src/services/baseline_service.py |
| `Momentum` | momentum.dfy | backend/src/services/momentum_service.py |
| `SocialIngestion` | social_ingestion.dfy | src/services/social_ingestion_service.py and its backend copy |
| `Confidence` | confidence.dfy | backend/src/services/confidence_service.py |
| `ActionWindow` | action_window.dfy | src/services/action_window_service.py |
| `PlatformProfiles` | platform_profiles.dfy | backend/src/services/platform_profiles.py |
| `PlatformBias` | platform_bias.dfy | backend/src/services/platform_bias_service.py |
| `TrendSignalAdapter` | trend_signal_adapter.dfy | backend/src/services/trend_signal_adapter.py |
| `MockData` | mock_data.dfy | src/services/mock_data_service.py |
| `HolidayKeywords` | holiday_keywords.dfy | backend/src/process/generate_holiday_keywords.py |
| `MenuMatching` | menu_matching.dfy | backend/src/process/match_holidays_to_menus.py |
| `DateText` | date_text.dfy | the month table, the "Month Day" pattern search and the ISO date format shared by both holiday loaders |
| `BackendHolidayLoader` | backend_holiday_loader.dfy | backend/src/process/load_holidays_static.py |
| `SrcHolidayLoader` | src_holiday_loader.dfy | src/process/load_holidays_static.py |
| `HolidayPopularity` | holiday_popularity.dfy | src/analytics/compute_holiday_popularity.py |
| `TopDishes` | top_dishes.dfy | backend/src/analytics/compute_top_dishes.py |

## How the code's own form is kept

- **Loops stay loops.** Code that builds a result step by step is a `method` with a loop and its invariants, for example:
  - the `pct_changes` loop of `compute_velocity`;
  - the dictionary-filling loops of the social aggregation and of platform momentum;
  - the `parts` lists of the two explanations;
  - the `base_hours *=` chain;
  - the mock series loop and the keyword-pair loop;
  - the nested holiday/keyword/chunk loops of the menu matcher;
  - the `rename` and `col_map` builders of the loaders;
  - the chunked counters of the analytics scripts.

  Each such method is proved equal to a function of its inputs. The properties the code promises are then lemmas about that function.
- **Expressions stay functions.** Thresholds, tables and formulas are functions, for example the baseline, classification, confidence, risk tier, urgency, phase remapping and date normalisation.
- **Dictionaries are explicit.**
  - A Python dictionary that a loop fills is a `map` plus the sequence of its keys in insertion order, because the code iterates over the dictionary afterwards.
  - A set is a `set`.
  - A pandas column is a `seq`.
- **Failures are values.** A failure the code can raise is an `Err` result, and each is proved to happen on exactly the inputs that raise it: a division by zero, a missing dictionary key, indexing an empty list, `.str` on a column label two columns hold (`AttributeError`), and the `sys.exit(1)` of a missing required column (`SystemExit`). Missing cells and non-string values are `Option`s.
- **Numbers are exact.** Floats are modelled as reals. `round(x, n)` is decimal rounding with halves rounded up. `int()` of a non-negative value is the floor.

## Where the written design and the code differ

The model follows the code in each case:

| topic | the design says | the code does |
|---|---|---|
| Baseline deviation | never raises | divides by the reported std. The zero guard runs before rounding, so a std below 0.005 is reported as 0.0 and the division fails (see Findings) |
| Platform momentum | defensively floors division by zero; scores in (0, 1] | raises `ZeroDivisionError` when every post has zero engagement; scores lie in [0, 1], because a platform with zero engagement scores 0 |
| Unknown platform in the bias adjustment | a named configuration error | raises `KeyError` on the name |
| Agreement and context outside [0, 1] | a validation error | accepted unchecked. The confidence bound `ConfidenceBounds` assumes the range only for its lower bound |
| Explanation leader sentence | skipped for "unknown" | also skipped for a missing or empty leader |
| Recommended actions | lower-case | start with a capital ("Launch promotion immediately", "Monitor") |
| Acceleration | compares an earlier window with the trailing one | slices the earlier window to exactly `window` points, so its velocity is always 0 and acceleration equals the trailing velocity (`Momentum.AccelerationIsVelocity`). A series of seven or more points is therefore never PEAKING or FATIGUED |

The popularity score of a listed holiday lies in [0, 100], not (0, 100]. It can round to 0.00 when the leading holiday has more than 20000 matches (`HolidayPopularity.SmallCountScoresZero`).

## Model

| member | source | states |
|---|---|---|
| Baseline.WindowTag | src/services/baseline_service.py:16 | the window tag ends in `_points` after the history length |
| Baseline.ComputeBaselineStats | src/services/baseline_service.py:5-32 | the window tag is `<len>_points` in both branches, the fallback note is set exactly when the history has fewer than 3 points, and the reported std is never negative |
| Baseline.ShortHistoryFallback | src/services/baseline_service.py:11-18 | a history of fewer than 3 points, empty included, gives mean 0.0, std 1.0 and the fallback note, whatever its values |
| Baseline.BaselineMeanWithin | src/services/baseline_service.py:20-28 | with 3 or more points the mean is the average rounded to 2 places, so it lies between the rounded minimum and the rounded maximum |
| Baseline.ConstantHistoryBaseline | src/services/baseline_service.py:20-29 | a constant history of 3 or more points has its rounded value as mean and std 1.0, since the zero std is replaced |
| Baseline.ReportedStdPositive | src/services/baseline_service.py:21-29 | a population std of at least 0.005 is reported as at least 0.01 |
| Baseline.SmallStdReportedZero | src/services/baseline_service.py:24-29 | the zero guard runs before rounding, so a std strictly between 0 and 0.005 is reported as 0.0 |
| Baseline.ComputeDeviationScore | src/services/baseline_service.py:35-39 | the deviation fails with ZeroDivisionError exactly when the std is 0 |
| Baseline.DeviationMonotone | src/services/baseline_service.py:39 | for a positive std the deviation does not decrease as the current value grows, and a value at or above the mean never scores below 0 |
| Baseline.DeviationAtMean | src/services/baseline_service.py:39 | the value equal to the mean scores exactly 0 |
| Baseline.ComputeBaselineAndDeviation | src/services/baseline_service.py:42-58 | the wrapper fails exactly when the reported std is 0; otherwise it returns the baseline stats and the current value unchanged |
| Baseline.ShortHistoryDeviation | src/services/baseline_service.py:11-52 | a short history scores the current value against mean 0 and std 1, i.e. the current value rounded to 2 places |
| Baseline.ConstantHistoryDeviation | src/services/baseline_service.py:20-58 | a constant history of 3 or more points scores `round(current - round(value, 2), 2)` |
| Baseline.WrapperDividesByZero | src/services/baseline_service.py:24-52 | the history [0, 0, 0.01] has a non-zero std that is reported as 0.0, so the wrapper divides by zero |
| Baseline.ComputeBaselineStatsGuarded | src/services/baseline_service.py:24-29 | with the guard moved after rounding, the reported std is always positive and the tag and note are unchanged |
| Baseline.ComputeBaselineAndDeviationGuarded | src/services/baseline_service.py:42-58 | the corrected wrapper never fails and returns the guarded stats and the current value |
| Baseline.GuardedAgrees | src/services/baseline_service.py:24-58 | the corrected wrapper agrees with the original on every input where the original does not fail |
| Momentum.ComputeVelocity | backend/src/services/momentum_service.py:5-28 | the loop returns 0.0 for a series shorter than window+1 or when every pair is skipped, and otherwise the mean relative change of the kept pairs of the trailing window+1 points, rounded to 3 places |
| Momentum.PctChangesStep | backend/src/services/momentum_service.py:16-23 | each step of the loop appends that pair's relative change, or nothing when the earlier point is 0 |
| Momentum.PctChangesEmptyIff | backend/src/services/momentum_service.py:20-26 | no relative change is kept exactly when every earlier point of a pair is 0 |
| Momentum.PctChangesNonNegative | backend/src/services/momentum_service.py:16-23 | a positive, non-decreasing run gives only non-negative relative changes |
| Momentum.VelocityTrailing | backend/src/services/momentum_service.py:13 | two series with the same last window+1 points have the same velocity |
| Momentum.VelocityAllPrevZero | backend/src/services/momentum_service.py:20-26 | when every earlier point of a pair in the window is 0, velocity is 0.0 |
| Momentum.VelocityNonNegative | backend/src/services/momentum_service.py:10-28 | a positive series that never falls has a non-negative velocity |
| Momentum.AccelerationIsVelocity | backend/src/services/momentum_service.py:36-45 | from 2·window+1 points on, the first window holds only `window` points, so its velocity is 0.0 and acceleration equals the trailing velocity |
| Momentum.Classify | backend/src/services/momentum_service.py:48-62 | the state is one of EMERGING, PEAKING, FATIGUED and FLAT |
| Momentum.ClassifyCases | backend/src/services/momentum_service.py:53-62 | first match wins: EMERGING iff v > 0.2 and a > 0; PEAKING iff v > 0.2 and -0.05 <= a <= 0; FATIGUED iff v > 0.1, a < 0 and not PEAKING; v <= 0.1 always gives FLAT |
| Momentum.ComputeMomentum | backend/src/services/momentum_service.py:65-77 | the state is the classification of the returned velocity and acceleration |
| Momentum.ShortSeriesFlat | backend/src/services/momentum_service.py:10-62 | fewer than 4 points give velocity 0.0, acceleration 0.0 and FLAT |
| Momentum.MidSeriesPeakingOrFlat | backend/src/services/momentum_service.py:36-62 | 4 to 6 points give acceleration 0.0, and the state is PEAKING exactly when velocity exceeds 0.2, FLAT otherwise |
| Momentum.LongSeriesEmergingOrFlat | backend/src/services/momentum_service.py:36-62 | 7 or more points give acceleration equal to velocity, so the state is EMERGING when velocity exceeds 0.2 and FLAT otherwise |
| Momentum.NeverFatigued | backend/src/services/momentum_service.py:36-60 | `compute_momentum` never yields FATIGUED |
| Momentum.ExamplePctChanges | backend/src/services/momentum_service.py:16-23 | the points 21, 30, 45, 70 give the relative changes 9/21, 15/30, 25/45 |
| Momentum.ExampleMean | backend/src/services/momentum_service.py:28 | the mean of those changes is 187/378 |
| Momentum.ExampleRound | backend/src/services/momentum_service.py:28 | 187/378 rounds to 0.495 at 3 places |
| Momentum.ExampleEmerging | backend/src/services/momentum_service.py:65-77 | the series 10, 12, 15, 21, 30, 45, 70 gives velocity 0.495, acceleration 0.495 and EMERGING |
| SocialIngestion.IngestMockSocialSignals | src/services/social_ingestion_service.py:8-47 | exactly three posts, from tiktok, instagram and youtube in that order, each mentioning only "nachos" and located in the US |
| SocialIngestion.Engagements | src/services/social_ingestion_service.py:67-71 | one engagement per post, likes + comments + shares with a missing counter read as 0 |
| SocialIngestion.TallyPost | src/services/social_ingestion_service.py:58-71 | one post's inner loop keeps the food dictionary exact: the keys are the foods in order of first mention, each count is the food's number of mentions and each sum its mentions' engagement |
| SocialIngestion.MentionsStep | src/services/social_ingestion_service.py:57-58 | the outer loop visits the posts' food lists in order, each mention weighted by its own post's engagement |
| SocialIngestion.AggregateToTrendSignal | src/services/social_ingestion_service.py:50-87 | the method returns exactly the function `Aggregate`: one trend per food in order of first mention, built from the dictionary it fills (the backend copy, backend/src/services/social_ingestion_service.py:115-148, is the same code) |
| SocialIngestion.AggregateShape | src/services/social_ingestion_service.py:55-85 | no food appears twice, a food has a trend exactly when some post mentions it, and every trend has a positive count, window 24, creator velocity 0.5 and geography {US: 1.0} |
| SocialIngestion.MentionTotalOfTrends | src/services/social_ingestion_service.py:75-85 | the trends' mention counts add up to the sum over their foods of each food's mentions |
| SocialIngestion.AggregateMentionTotal | src/services/social_ingestion_service.py:57-85 | the mention counts of all trends add up to the number of food mentions in the posts |
| SocialIngestion.SingleFoodAggregate | src/services/social_ingestion_service.py:50-87 | when every post mentions the same single food, the result is one trend for it, counted once per post and weighted by the total engagement |
| SocialIngestion.MockAggregate | src/services/social_ingestion_service.py:13-87 | the mock posts aggregate to a single nachos trend with 3 mentions and engagement 4024 |
| SocialIngestion.MockEngagementTotal | src/services/social_ingestion_service.py:13-47 | the mock posts' engagements add up to 4024 |
| SocialIngestion.Zeros | src/services/social_ingestion_service.py:94 | `[0] * days` has `days` zeros, and none for a negative count |
| SocialIngestion.Rising | src/services/social_ingestion_service.py:105 | point i of the series is base + i·step |
| SocialIngestion.RisingMonotone | src/services/social_ingestion_service.py:105 | a non-negative step gives a non-decreasing series, and a zero step a flat one |
| SocialIngestion.StepIsFifth | src/services/social_ingestion_service.py:105 | `int(base * 0.2)` is base / 5 rounded down |
| SocialIngestion.SeriesLength | src/services/social_ingestion_service.py:88-107 | no posts give `[0] * days`; posts with 0 days fail on the division; otherwise the series has `days` points (none for a negative count) (the backend copy, backend/src/services/social_ingestion_service.py:151-164, is the same code) |
| SocialIngestion.SeriesRising | src/services/social_ingestion_service.py:96-107 | with posts, the series starts at a base of at least 1, never decreases, and is flat when the base is below 5 |
| SocialIngestion.SeriesBase | src/services/social_ingestion_service.py:96-104 | for a non-negative total the base is total // days, raised to 1 when smaller |
| SocialIngestion.PadSeriesShape | backend/src/services/social_ingestion_service.py:286-297 | with at most `days` rows (the query's LIMIT) the series has exactly `days` points: the rows in their order at the end and copies of the first row before them, all zeros without rows |
| SocialIngestion.Platforms | src/services/social_ingestion_service.py:120-128 | the platform of each post, in order |
| SocialIngestion.PlatformTotals | src/services/social_ingestion_service.py:120-128 | each platform's total is the engagement of its posts added up |
| SocialIngestion.Normalised | src/services/social_ingestion_service.py:133-136 | each platform's score is its total over the largest total, rounded to 2 places, in dictionary order |
| SocialIngestion.ComputePlatformMomentum | src/services/social_ingestion_service.py:109-138 | the method returns exactly the function `PlatformMomentum`: platforms in order of first post, and ZeroDivisionError when the largest total is 0 (the backend copy, backend/src/services/social_ingestion_service.py:167-185, is the same code) |
| SocialIngestion.PlatformMomentumFails | src/services/social_ingestion_service.py:118-136 | with non-negative engagement, momentum fails exactly when there are posts and all of them have zero engagement |
| SocialIngestion.ScoreInUnit | src/services/social_ingestion_service.py:134 | a total between 0 and the largest scores between 0.0 and 1.0 |
| SocialIngestion.ScoreOfMax | src/services/social_ingestion_service.py:134 | the largest total scores exactly 1.0 |
| SocialIngestion.TotalsWithinMax | src/services/social_ingestion_service.py:127-131 | with non-negative engagement every platform total lies between 0 and a positive largest total |
| SocialIngestion.PlatformMomentumNormalised | src/services/social_ingestion_service.py:118-138 | on success with non-negative engagement there is one score per platform in order of first post, every score is in [0, 1], and some platform scores 1.0 |
| SocialIngestion.PlatformMomentumOrdered | src/services/social_ingestion_service.py:133-136 | a platform with a larger total never scores lower |
| SocialIngestion.Velocities | src/services/social_ingestion_service.py:149 | the scores of the dictionary, in order |
| SocialIngestion.ComputePlatformSignalAgreement | src/services/social_ingestion_service.py:140-160 | agreement fails exactly where the momentum does (the backend copy, backend/src/services/social_ingestion_service.py:188-202, is the same code) |
| SocialIngestion.AgreementBands | src/services/social_ingestion_service.py:146-160 | with two or more platforms: 0.85 iff every pair of scores is closer than 0.2, 0.65 iff every pair is closer than 0.5 but not all closer than 0.2, 0.4 iff some pair is 0.5 or more apart |
| SocialIngestion.FirstIndexOf | src/services/social_ingestion_service.py:176-177 | the first position holding the value |
| SocialIngestion.TopIndex | src/services/social_ingestion_service.py:176-177 | the first entry of the stable descending sort holds the largest score |
| SocialIngestion.RunnerUpIndex | src/services/social_ingestion_service.py:176-178 | the second entry of the sort is another platform, and its score bounds every platform other than the first |
| SocialIngestion.DetectPlatformLeader | src/services/social_ingestion_service.py:162-184 | leader detection fails exactly where the momentum does (the backend copy, backend/src/services/social_ingestion_service.py:205-221, is the same code) |
| SocialIngestion.LeaderWhenClose | src/services/social_ingestion_service.py:176-182 | with two or more platforms whose top two scores are within 0.1, the leader is "both" |
| SocialIngestion.LeaderWhenApart | src/services/social_ingestion_service.py:176-184 | otherwise the leader is a platform ahead of every other one by at least 0.1 |
| SocialIngestion.LeaderCases | src/services/social_ingestion_service.py:162-184 | no platform gives "unknown", one gives its name, close top two give "both", and otherwise the leader is a platform 0.1 or more ahead of every other one |
| SocialIngestion.ExampleAgreementAndLeader | src/services/social_ingestion_service.py:144-182 | momentum {tiktok: 1.0, instagram: 0.95} gives agreement 0.85 and leader "both" |
| Confidence.DeviationComponent | backend/src/services/confidence_service.py:22 | the deviation component always lies in [0, 1] |
| Confidence.DeviationComponentShape | backend/src/services/confidence_service.py:22 | the component never decreases with the deviation, is 0 at or below 0, 1 from 3 up and deviation / 3 in between |
| Confidence.MomentumWeightCases | backend/src/services/confidence_service.py:25-31 | EMERGING weighs 1.0, PEAKING 0.7, FATIGUED 0.3 and every other phase text 0.1, so the weight is always in [0.1, 1.0] |
| Confidence.ConfidenceBounds | backend/src/services/confidence_service.py:34-41 | the score never exceeds 1.0, and with agreement and context in [0, 1] it is at least 0.03 |
| Confidence.ConfidenceMonotoneInDeviation | backend/src/services/confidence_service.py:22-41 | a larger deviation never lowers the score |
| Confidence.ConfidenceFullMarks | backend/src/services/confidence_service.py:22-41 | a deviation of 3 or more, EMERGING, agreement 1 and context 1 give exactly 1.0 |
| Confidence.RiskLevelOrdered | backend/src/services/confidence_service.py:44-49 | the risk is one of LOW, MEDIUM, HIGH; a higher score never has a higher risk; 0.75 is LOW, 0.45 MEDIUM, 0.449 HIGH |
| Confidence.AppendLeader | backend/src/services/confidence_service.py:106-112 | the leader branch appends the leader sentence: nothing for a missing, empty or "unknown" leader |
| Confidence.GenerateExplanation | backend/src/services/confidence_service.py:68-122 | the text is the sentences for deviation, momentum, agreement, optional leader, context and verdict, joined by ". " and ended by "." |
| Confidence.JoinSentences | backend/src/services/confidence_service.py:122 | five or six sentences joined by a separator are those sentences with the separator between each pair |
| Confidence.ExplanationText | backend/src/services/confidence_service.py:77-122 | the explanation written out sentence by sentence, the leader sentence and its ". " present only when there is one |
| Confidence.ExplanationLeader | backend/src/services/confidence_service.py:105-112 | six sentences exactly when a leader other than "" or "unknown" is given, five otherwise; a named leader other than "both" appears capitalized in the fourth sentence |
| Confidence.ComputeConfidenceScore | backend/src/services/confidence_service.py:4-65 | the score is at most 1.0; the risk is LOW exactly when the score is at least 0.75 and HIGH exactly when it is below 0.45 |
| ActionWindow.WindowHoursBounds | src/services/action_window_service.py:15-37 | every window lies in [6, 86] hours, and a mild, steadily rising emerging trend gets the longest, 86 |
| ActionWindow.UrgencyOfPhase | src/services/action_window_service.py:15-45 | a fatigued trend is always NOW; an emerging trend's window is at least 30 hours, so never NOW |
| ActionWindow.UrgencyOrdered | src/services/action_window_service.py:39-45 | the urgency is one of NOW, SOON, NORMAL, and a longer window is never more urgent |
| ActionWindow.GenerateWindowExplanation | src/services/action_window_service.py:59-84 | the method's text is the phase, optional hype, optional slowing and window sentences joined by ". " and ended by "." |
| ActionWindow.WindowExplanationContents | src/services/action_window_service.py:65-84 | the hype sentence appears exactly when the deviation exceeds 3, the slowing sentence exactly when acceleration is negative; two to four sentences, the last one the window sentence |
| ActionWindow.ComputeWindowHours | src/services/action_window_service.py:15-37 | the method applying the multipliers one after the other returns the window of the phase, deviation and acceleration |
| ActionWindow.EstimateActionWindow | src/services/action_window_service.py:4-56 | the window is in [6, 86], its urgency is its tier, and the explanation is the one for these inputs and that window |
| ActionWindow.PeakingExample | src/services/action_window_service.py:15-45 | a peaking trend with deviation 1.5 and acceleration 0 gets the plain 24-hour window, SOON |
| PlatformProfiles.ProfilesShape | backend/src/services/platform_profiles.py:3-22 | the table has exactly the three keys uber_eats, doordash and retail; every data maturity lies in (0, 1]; doordash is the only platform whose latency is at most 8 hours |
| PlatformBias.AdjustForPlatformFails | backend/src/services/platform_bias_service.py:6-7 | the adjustment fails exactly for a platform outside the table, with KeyError on that name |
| PlatformBias.SlowTrendIsFatigued | backend/src/services/platform_bias_service.py:16-35 | a velocity below 0.2 gives FATIGUED, LOW and "Avoid new campaigns" on every platform, whatever the input phase |
| PlatformBias.FastTrend | backend/src/services/platform_bias_service.py:16-29 | a velocity above 0.6 forces PEAKING and HIGH on doordash only; the other platforms keep the input phase |
| PlatformBias.UrgencyAndAction | backend/src/services/platform_bias_service.py:23-42 | the urgency is HIGH exactly for PEAKING and MEDIUM exactly for EMERGING; a phase outside the action map gets "Monitor" |
| PlatformBias.AdjustedConfidenceBound | backend/src/services/platform_bias_service.py:10-40 | with a non-negative raw confidence, the adjusted confidence lies between 0 and the raw confidence rounded to 2 places |
| PlatformBias.AdjustedConfidenceRoundsUp | backend/src/services/platform_bias_service.py:10-40 | rounding can lift the adjusted confidence above the raw one: 0.039 on uber_eats gives 0.04 |
| PlatformBias.RunPlatformBiasEngine | backend/src/services/platform_bias_service.py:46-52 | one result per platform of the table, and no other, each the adjustment of the raw signal for that platform |
| TrendSignalAdapter.AdapterShape | backend/src/services/trend_signal_adapter.py:5-22 | the adapter fails with IndexError exactly on the empty series; otherwise the mention count is the series total, the weighted engagement 0.6 times it, the geography {US: 0.7, CA: 0.3} and the window the one given |
| TrendSignalAdapter.AdapterVelocitySign | backend/src/services/trend_signal_adapter.py:8 | the creator velocity is non-negative exactly when the series ends at or above where it starts, and 0.0 when it ends where it starts |
| MockData.MockSeriesAt | src/services/mock_data_service.py:18-30 | each point is the level after the point before it (after `base` for the first): the noisy level kept at least 1, then the spike added on spiking days |
| MockData.GenerateMockSocialSeries | src/services/mock_data_service.py:5-32 | the loop returns the first `days` levels for the given draws, and nothing for a negative `days` |
| MockData.MockSeriesPositive | src/services/mock_data_service.py:23-30 | every point is at least 1, whatever the base |
| MockData.MockSeriesQuietStep | src/services/mock_data_service.py:21-30 | on a day that does not spike, a point differs from the one before by between −5 and +8 |
| MockData.MockSeriesSpikeStep | src/services/mock_data_service.py:21-30 | on a spiking day a point exceeds the one before by at least 15, and spiking days are among the last three |
| MockData.MockSeriesFlat | src/services/mock_data_service.py:21-30 | without spiking, the whole series moves by −5 to +8 per day |
| MockData.GenerateMockTrends | src/services/mock_data_service.py:35-60 | three candidates; only "National Potato Chip Day" has a holiday soon and only "Bubble Tea" does not spike |
| HolidayKeywords.DropStopwords | backend/src/process/generate_holiday_keywords.py:21 | the result keeps, in order, exactly the words that are not stopwords |
| HolidayKeywords.CleanAndSplitTokens | backend/src/process/generate_holiday_keywords.py:17-21 | every token is non-empty, lower-case ASCII letters and digits only, and not a stopword; every non-stopword word of the cleaned name is kept |
| HolidayKeywords.GenerateKeywordList | backend/src/process/generate_holiday_keywords.py:23-34 | the loop returns exactly the keyword set of the cleaned tokens |
| HolidayKeywords.PairInjective | backend/src/process/generate_holiday_keywords.py:32 | two space-free words joined by one space split back in only one way |
| HolidayKeywords.SingleKeywordIff | backend/src/process/generate_holiday_keywords.py:27 | a single word is a keyword exactly when it is a token of at least four characters |
| HolidayKeywords.PairKeywordIff | backend/src/process/generate_holiday_keywords.py:31-32 | "a b" is a keyword exactly when token `a` is immediately followed by token `b`, whatever their lengths |
| HolidayKeywords.KeywordsArePlainText | backend/src/process/generate_holiday_keywords.py:24-35 | every generated keyword has at least three characters, all lower-case ASCII letters, digits or spaces |
| HolidayKeywords.NoTokensNoKeywords | backend/src/process/generate_holiday_keywords.py:24-26 | a name with no surviving token has no keywords |
| MenuMatching.NormalizeTextShape | backend/src/process/match_holidays_to_menus.py:14-17 | normalised text holds only lower-case ASCII letters, digits and whitespace, and normalising it again changes nothing |
| MenuMatching.PrepareMenus | backend/src/process/match_holidays_to_menus.py:37-38 | one cleaned item per menu item, in order, carrying the item and its normalised name and description |
| MenuMatching.MatchChunk | backend/src/process/match_holidays_to_menus.py:82-104 | one chunk writes exactly the rows of the matching items between its start and end, in menu order |
| MenuMatching.MatchKeyword | backend/src/process/match_holidays_to_menus.py:82-104 | the chunk loop writes the same rows as one pass over the whole table, so every menu item is examined exactly once |
| MenuMatching.MatchRawKeyword | backend/src/process/match_holidays_to_menus.py:77-104 | the body of the keyword loop: the keyword cleaned, then skipped or matched against every item |
| MenuMatching.MatchHoliday | backend/src/process/match_holidays_to_menus.py:73-104 | the keyword loop writes the rows of the split keyword list, keyword by keyword |
| MenuMatching.MatchNextHoliday | backend/src/process/match_holidays_to_menus.py:72-106 | one turn of the holiday loop appends that holiday's rows and keeps the count equal to the rows written |
| MenuMatching.MatchAll | backend/src/process/match_holidays_to_menus.py:57-106 | the holiday loop writes every holiday's rows in order, and `total_written` is their number |
| MenuMatching.MatchHolidaysToMenus | backend/src/process/match_holidays_to_menus.py:37-106 | the rows written are those of the normalised menu table, and the count is their number |
| MenuMatching.KeywordRowsIff | backend/src/process/match_holidays_to_menus.py:86-101 | a row is written for a keyword exactly when some menu item's normalised name or description contains it, and the row carries the holiday, keyword and item |
| MenuMatching.SkippedKeywordWritesNothing | backend/src/process/match_holidays_to_menus.py:78-80 | a keyword that is empty or shorter than four characters after stripping and lower-casing writes nothing |
| DateText.MonthTable | backend/src/process/load_holidays_static.py:83-86 | the month table holds exactly the 23 listed full and short month names, each mapped to a number in 1..12 |
| DateText.RunsSpec | backend/src/process/load_holidays_static.py:96 | each character run the pattern scans is the longest one: every character in it is of its class and the next one is not |
| DateText.SearchMonthDayFromSpec | backend/src/process/load_holidays_static.py:96 | a found "Month Day" match is the match at some position, and no earlier position matches (leftmost match, as `re.search`) |
| DateText.MonthDayAtShape | backend/src/process/load_holidays_static.py:96-100 | a match's word is non-empty ASCII letters, and its one or two digits give a day below 100 |
| DateText.DigitsValueBound | backend/src/process/load_holidays_static.py:100 | `w` digits denote a number below 10^w |
| DateText.ParseIntOfDigits | backend/src/process/load_holidays_static.py:100 | `int()` of a non-empty string of digits is their value |
| DateText.NatToStringLength | backend/src/process/load_holidays_static.py:103 | a number below 10^w has at most `w` digits |
| DateText.ParseIntOfZeroPad | backend/src/process/load_holidays_static.py:103 | a number below 10^w zero-padded to width `w` has exactly `w` characters and `int()` gives it back |
| DateText.IsoDateReadsBack | backend/src/process/load_holidays_static.py:103 | the ISO date of a year below 10000 and a month and day below 100 has ten characters with dashes at 4 and 7, and its year, month and day read back |
| BackendHolidayLoader.LowerMapKeys | backend/src/process/load_holidays_static.py:32 | the lookup's keys are exactly the stripped, lower-cased column names, and each key leads back to a column with that key |
| BackendHolidayLoader.LowerMapLastWins | backend/src/process/load_holidays_static.py:32 | of several columns with the same key, the last one is the one looked up |
| BackendHolidayLoader.FirstCandidate | backend/src/process/load_holidays_static.py:36-39 | the candidate found is a listed candidate present in the lookup, and none is found only when no candidate is present |
| BackendHolidayLoader.FirstCandidateWins | backend/src/process/load_holidays_static.py:36-39 | a present candidate is the one chosen exactly when no earlier candidate is present |
| BackendHolidayLoader.ApplyRename | backend/src/process/load_holidays_static.py:73-74 | the rename keeps the number and order of columns, renaming exactly the columns the dictionary lists |
| BackendHolidayLoader.RenameFirstCandidate | backend/src/process/load_holidays_static.py:36-57 | one candidate loop, walked and stopped at the first hit, builds the dictionary `RenameFirst` defines |
| BackendHolidayLoader.RenameFirstFrame | backend/src/process/load_holidays_static.py:36-57 | a candidate loop renames only the column of one of its candidates and leaves every other entry as it was |
| BackendHolidayLoader.RenameMonthFrame | backend/src/process/load_holidays_static.py:60-64 | the month rule touches only the "month" and "month number" columns |
| BackendHolidayLoader.RenameDaysFrame | backend/src/process/load_holidays_static.py:67-70 | the day rules touch only the "day of month" and "day of week" columns |
| BackendHolidayLoader.RenameMapListedOnly | backend/src/process/load_holidays_static.py:33-70 | only columns whose key is one of the listed names are renamed, and only the column the lookup holds for that key |
| BackendHolidayLoader.CandidateGroupsDisjoint | backend/src/process/load_holidays_static.py:36-70 | no name is listed in two candidate groups, nor among the month and day names |
| BackendHolidayLoader.RenameMapName | backend/src/process/load_holidays_static.py:36-40 | the column of the first present name candidate is renamed "name" |
| BackendHolidayLoader.RenameMapDate | backend/src/process/load_holidays_static.py:42-46 | the column of the first present date candidate is renamed "date_raw" |
| BackendHolidayLoader.RenameMapYear | backend/src/process/load_holidays_static.py:48-52 | the column of "year", when present, is renamed "year" |
| BackendHolidayLoader.RenameMapNotes | backend/src/process/load_holidays_static.py:54-58 | the column of the first present notes candidate is renamed "notes" |
| BackendHolidayLoader.RenameMapMonth | backend/src/process/load_holidays_static.py:60-64 | "month" becomes month_name, and "month number" becomes month_number when "month" is present too |
| BackendHolidayLoader.RenameMapMonthNumberAlone | backend/src/process/load_holidays_static.py:60-64 | a "month number" column without a "month" column is not renamed |
| BackendHolidayLoader.MappedCandidateColumn | backend/src/process/load_holidays_static.py:30-75 | a column whose key is a group's first present candidate, and the last column with that key, gets the group's target name |
| BackendHolidayLoader.MappedMonthColumns | backend/src/process/load_holidays_static.py:60-75 | the last "month" column becomes month_name; the last "month number" column becomes month_number exactly when some column is "month" |
| BackendHolidayLoader.MappedColumnKept | backend/src/process/load_holidays_static.py:30-75 | a column whose key is not listed keeps its name, and so does one shadowed by a later column with the same key spelled differently |
| BackendHolidayLoader.BuildLowerMap | backend/src/process/load_holidays_static.py:32 | the loop builds the lookup, a later column replacing an earlier one with the same key |
| BackendHolidayLoader.BuildRename | backend/src/process/load_holidays_static.py:33-70 | the four candidate loops and the month and day rules build the rename dictionary in source order |
| BackendHolidayLoader.RenameColumns | backend/src/process/load_holidays_static.py:73-74 | the rename applied column by column |
| BackendHolidayLoader.MapColumnsCaseInsensitive | backend/src/process/load_holidays_static.py:30-75 | the whole mapping returns the renamed columns of the lookup built from them |
| BackendHolidayLoader.NormalizeEmptyIff | backend/src/process/load_holidays_static.py:87-117 | the normalised date is empty exactly when the row has no date text |
| BackendHolidayLoader.NormalizePrefersDateRaw | backend/src/process/load_holidays_static.py:88-91 | a present date_raw decides the result whatever short_date holds, even when it strips to "" |
| BackendHolidayLoader.YearTextDefault | backend/src/process/load_holidays_static.py:97 | a missing or empty year is "2025"; a year with spaces is stripped, so a blank year becomes "" |
| BackendHolidayLoader.NormalizeIsoDate | backend/src/process/load_holidays_static.py:96-103 | a known "Month Day" with a year in 0..9999 gives a ten-character YYYY-MM-DD that reads back as that year, the month's number and the matched day |
| BackendHolidayLoader.NoDayRangeCheck | backend/src/process/load_holidays_static.py:96-103 | "Feb 31" is accepted as month 2, day 31: the day is not checked against the month |
| BackendHolidayLoader.NormalizeNonIntegerYear | backend/src/process/load_holidays_static.py:101-105 | a known "Month Day" with a year that is not an integer gives the capitalised month word, the day and the year text |
| BackendHolidayLoader.NormalizeWithoutMonthDay | backend/src/process/load_holidays_static.py:107-117 | without a known "Month Day", a text naming a month gets the year appended; otherwise the text is kept as it is exactly when it already holds a stand-alone four-digit year |
| SrcHolidayLoader.DateTestIsContains | src/process/load_holidays_static.py:50 | the three date tests together hold exactly when the lower-case name contains "date" |
| SrcHolidayLoader.ColumnTargetCases | src/process/load_holidays_static.py:46-58 | a column is renamed to one of name, date_raw, year, notes or keeps its name; it keeps it when no keyword occurs; a name with "date" but not both "food" and "holiday" becomes date_raw |
| SrcHolidayLoader.BuildColumnMap | src/process/load_holidays_static.py:45-58 | the loop gives every column exactly one entry, its target name |
| SrcHolidayLoader.RenameColumns | src/process/load_holidays_static.py:60 | the rename with the loop's map gives the mapped columns, one per column, in order |
| SrcHolidayLoader.ReplaceAll | src/process/load_holidays_static.py:66-69 | renaming one name changes exactly the columns spelled that way |
| SrcHolidayLoader.FallbacksNeverApply | src/process/load_holidays_static.py:62-69 | neither "Food Holidays" nor "Date" survives the mapping loop, so the fallbacks never rename anything |
| SrcHolidayLoader.FoodHolidaysIsName | src/process/load_holidays_static.py:48-49 | "Food Holidays" becomes name |
| SrcHolidayLoader.DateIsDateRaw | src/process/load_holidays_static.py:50-51 | "Date" becomes date_raw |
| SrcHolidayLoader.TwoColumnsSameTarget | src/process/load_holidays_static.py:46-60 | a table with both "Date" and "date" gets two date_raw columns |
| SrcHolidayLoader.LoadColumnsOk | src/process/load_holidays_static.py:45-85 | the program exits exactly when no column maps to name or none maps to date_raw; past that check it crashes with AttributeError exactly when two columns map to the same one of name, date_raw and year; otherwise loading goes on with the mapped columns, each of those three held at most once |
| SrcHolidayLoader.RepeatedIff | src/process/load_holidays_static.py:77-85 | name, date_raw or year labels two columns after the rename exactly when two source columns map to it |
| SrcHolidayLoader.RepeatedDateRawCrashes | src/process/load_holidays_static.py:71-79 | a name column and two date_raw columns (such as "Food Holidays", "Date" and "date") pass the exit check and then crash on `df['date_raw'].str` |
| SrcHolidayLoader.PrepareColumns | src/process/load_holidays_static.py:45-85 | the column loop, the rename, the fallbacks, the exit on a missing column and the crash on a repeated name, date_raw or year give `LoadColumns` |
| SrcHolidayLoader.FilledYearShape | src/process/load_holidays_static.py:82-85 | the filled year is never empty: "2025" for a missing column or a blank cell, otherwise the stripped text, and "nan" for a missing cell |
| SrcHolidayLoader.NormalizeWithoutMonthDay | src/process/load_holidays_static.py:107-112 | without a known "Month Day" the result is always the stripped text, a space and the year, so empty text gives " " and the year |
| SrcHolidayLoader.NormalizeIsoDate | src/process/load_holidays_static.py:98-104 | a known "Month Day" with a year in 0..9999 gives a ten-character YYYY-MM-DD that reads back as that year, the month's number and the matched day |
| SrcHolidayLoader.CompareWithBackend | src/process/load_holidays_static.py:95-112 | the two loaders agree on a known "Month Day" and on text naming a month; they differ on empty text and on text that already holds a four-digit year |
| HolidayPopularity.ValueCounts | src/analytics/compute_holiday_popularity.py:16 | one chunk's counts: each distinct name of the chunk, in order of first appearance, with its number of rows |
| HolidayPopularity.MergeOne | src/analytics/compute_holiday_popularity.py:19 | adding one name's chunk count keeps every total equal to the name's rows before the chunk plus, once merged, its rows in the chunk |
| HolidayPopularity.CountChunks | src/analytics/compute_holiday_popularity.py:13-19 | after the chunk loop the dictionary holds each name of any chunk exactly once, with its number of rows over all chunks |
| HolidayPopularity.Insert | src/analytics/compute_holiday_popularity.py:26 | insertion adds the item to the others, losing and duplicating nothing |
| HolidayPopularity.InsertSorted | src/analytics/compute_holiday_popularity.py:26 | inserting into a list sorted by count, largest first, keeps it sorted |
| HolidayPopularity.SortDesc | src/analytics/compute_holiday_popularity.py:24-28 | the sort is a permutation of the items, sorted by count with the largest first |
| HolidayPopularity.PermutationKeepsDistinctNames | src/analytics/compute_holiday_popularity.py:24-28 | reordering items with distinct names keeps the names distinct |
| HolidayPopularity.ScoreOfMax | src/analytics/compute_holiday_popularity.py:31-34 | the largest count scores exactly 100 |
| HolidayPopularity.ScoreMonotone | src/analytics/compute_holiday_popularity.py:31-34 | a larger count never scores less |
| HolidayPopularity.ScoreRange | src/analytics/compute_holiday_popularity.py:31-34 | a count between 0 and the largest scores between 0 and 100 |
| HolidayPopularity.SmallCountScoresZero | src/analytics/compute_holiday_popularity.py:32-34 | one match against a leader with 20001 scores 0.00, so a listed holiday can score 0 |
| HolidayPopularity.ScoreRows | src/analytics/compute_holiday_popularity.py:31-34 | one row per sorted item, carrying its name, its count and its score against the largest count |
| HolidayPopularity.PopularityTableItems | src/analytics/compute_holiday_popularity.py:24-34 | the table lists every item of the totals exactly once, with its count, and no name twice |
| HolidayPopularity.PopularityTableScores | src/analytics/compute_holiday_popularity.py:24-34 | counts do not increase down the table, every row is scored against the first row's count, every score lies in [0, 100] and the first row scores 100 |
| HolidayPopularity.TableRowsAreItems | src/analytics/compute_holiday_popularity.py:24-28 | the sorted items are the items: same length, each one on either side found on the other |
| HolidayPopularity.TotalsItems | src/analytics/compute_holiday_popularity.py:25 | the dictionary's items, one per key in insertion order, each with its total |
| HolidayPopularity.TotalsItemsPositive | src/analytics/compute_holiday_popularity.py:13-19 | every total in the dictionary is positive |
| HolidayPopularity.TableRowsCounted | src/analytics/compute_holiday_popularity.py:13-34 | every row of the table is a holiday found in the rows, with its number of rows |
| HolidayPopularity.TableCoversNames | src/analytics/compute_holiday_popularity.py:13-34 | every holiday found in the rows has a row in the table |
| HolidayPopularity.ComputeHolidayPopularity | src/analytics/compute_holiday_popularity.py:10-34 | one row per holiday found, with its number of match rows; no holiday twice; counts non-increasing; scores in [0, 100] against the first row's count; the first row scores 100 |
| TopDishes.CountChunkRows | backend/src/analytics/compute_top_dishes.py:21-23 | one chunk's rows added to the dictionary keep each pair counted by its number of rows, keys in order of first appearance |
| TopDishes.CountPairs | backend/src/analytics/compute_top_dishes.py:14-25 | after the chunk loop the dictionary holds each (holiday, menu item) pair of any chunk once, with its number of rows over all chunks |
| TopDishes.CountItems | backend/src/analytics/compute_top_dishes.py:28-31 | the dictionary's items as rows, one per key in insertion order, each with its count |
| TopDishes.SumCountsOfItems | backend/src/analytics/compute_top_dishes.py:28-31 | the rows' counts add up to the keys' occurrence counts |
| TopDishes.CountDishPairs | backend/src/analytics/compute_top_dishes.py:14-31 | one row per distinct pair found, no pair twice, each with its number of match rows, and the counts add up to the number of match rows |
| TopDishes.RowLeTotal | backend/src/analytics/compute_top_dishes.py:35 | any two rows can be put in order by (holiday ascending, count descending) |
| TopDishes.RowLeTransitive | backend/src/analytics/compute_top_dishes.py:35 | that order is transitive |
| TopDishes.InsertRow | backend/src/analytics/compute_top_dishes.py:35 | insertion adds the row to the others, losing and duplicating nothing |
| TopDishes.InsertRowOrdered | backend/src/analytics/compute_top_dishes.py:35 | inserting into ordered rows keeps them ordered |
| TopDishes.SortRows | backend/src/analytics/compute_top_dishes.py:35 | the sort is a permutation of the rows, ordered by holiday ascending and, within a holiday, by count descending |
| TopDishes.CountHolidayPrefix | backend/src/analytics/compute_top_dishes.py:36-37 | a longer prefix holds at least as many rows of a holiday |
| TopDishes.RankGrows | backend/src/analytics/compute_top_dishes.py:36-37 | a later row of the same holiday has a higher position in its group |
| TopDishes.RankBelowCount | backend/src/analytics/compute_top_dishes.py:36-37 | a row's position in its group is below the group's size |
| TopDishes.GroupHeadCount | backend/src/analytics/compute_top_dishes.py:36-37 | the head keeps min(n, group size) rows of every holiday |
| TopDishes.CountHolidayAppend | backend/src/analytics/compute_top_dishes.py:36-37 | the rows of a holiday in two concatenated tables add up |
| TopDishes.RankInPrefix | backend/src/analytics/compute_top_dishes.py:36-37 | a row's position in its group is the same in any prefix holding it |
| TopDishes.GroupHeadMembers | backend/src/analytics/compute_top_dishes.py:36-37 | the head holds only rows whose position in their group is below n |
| TopDishes.GroupHeadKeeps | backend/src/analytics/compute_top_dishes.py:36-37 | the head holds every row whose position in its group is below n |
| TopDishes.GroupHeadOrdered | backend/src/analytics/compute_top_dishes.py:36-37 | ordered rows stay ordered in the head |
| TopDishes.DroppedNotAbove | backend/src/analytics/compute_top_dishes.py:34-37 | a row the head of ordered rows drops belongs to a holiday that keeps n rows, none of them counting less |
| TopDishes.TopPerHolidaySpec | backend/src/analytics/compute_top_dishes.py:33-39 | the selection keeps only given rows, in sorted order, at most 5 per holiday; a dropped row's holiday keeps 5 rows, none counting less than it |
| TopDishes.ComputeTopDishes | backend/src/analytics/compute_top_dishes.py:11-39 | every output row is a pair found with its number of match rows; rows are sorted; at most 5 per holiday; every pair found is output or its holiday has 5 rows that count at least as much |

## Left out

- Floating point: Python `round` rounds half to even on binary floats. `Numeric.Round` rounds exact decimals with halves up, so results can differ when a float sits just beside a rounding boundary.
- numpy's square root: the model does not compute it. `Baseline.ComputeBaselineStats` takes the population std as an input `populationStd`, required to be the non-negative square root of the population variance. numpy's mean and variance are computed exactly.
- Confidence.GenerateExplanation: how Python prints a float inside the f-string is not modelled. The caller passes that rendering in as `show`, and the contracts hold for every `show`.
- Regular expressions and string methods are modelled on ASCII:
  - `\s` is Python's whitespace set on single characters;
  - `\w`, letters and digits are ASCII only;
  - `lower`, `title` and `capitalize` change ASCII letters only.

  Non-ASCII letters and digits that Python's Unicode-aware `re` and `str` would accept are not modelled.
- pandas NaN cells and dtypes: a missing cell is `None`, and every other cell is text. In `FilledYear`, a NaN year turned into "nan" by `astype(str)` is the one NaN behaviour modelled.
- SocialIngestion.PadSeriesShape: requires at most `days` rows. That is what the SQL `LIMIT` guarantees; the query itself is I/O and is not modelled.
- SocialIngestion.StepIsFifth: `int(base * 0.2)` is modelled as truncation of the exact product, and the binary-float error of 0.2 is not modelled.
- PlatformBias.AdjustedConfidenceBound: bounds the adjusted confidence by the raw confidence rounded to 2 places, not by the raw confidence itself. Rounding can lift it above the raw value, as `PlatformBias.AdjustedConfidenceRoundsUp` shows (0.039 on uber_eats gives 0.04).
- PlatformBias.AdjustForPlatform: the raw signal is a record with the three fields the function reads. A raw dictionary missing one of those keys, which would raise `KeyError`, is not modelled.
- HolidayKeywords.GenerateKeywordList: returns the keyword set. The code returns `list(keywords)`, whose order Python leaves unspecified. The `", ".join` of that list in `main` and the database write are not modelled.
- HolidayPopularity.ValueCounts: lists a chunk's names in order of first appearance, whereas pandas `value_counts` lists them by count. Only the insertion order of the totals dictionary depends on this, and hence the order of holidays with equal totals.
- HolidayPopularity.SortDesc: pandas' default sort is not stable, so holidays with equal counts may come out in any order. The model fixes one of the allowed orders, and every proved property holds for any order.
- TopDishes.SortRows: rows equal on both sort columns keep their dictionary order here. pandas leaves their order open, so which of several tied fifth-place dishes is kept is not pinned down by the code.
- pandas `value_counts` and `groupby` drop missing holiday names. The model's rows always carry a name.
- I/O is not modelled, because it is reading and writing with no logic to verify. This covers:
  - SQLite and CSV reading and writing, and the encoding-fallback CSV readers;
  - the SQL query of `build_entity_time_series_from_db`, and `save_raw_social_signals` / `fetch_recent_raw_social_signals`;
  - the `print` progress messages;
  - `sys.exit`, which is modelled as an `Err` result.
- MenuMatching.KeywordRowsIff: keywords are matched as literal text, while `str.contains` searches for them as regular expressions. The two agree for keywords of lower-case ASCII letters, digits and spaces, which are the only keywords `generate_keyword_list` emits (`HolidayKeywords.KeywordsArePlainText`). A keyword with a metacharacter, typed into the holidays table by hand, can match other items ("pie." matches "pies") or raise `re.error` ("(abc"); the model does not capture either.
- The menu matcher's `main` reads its tables from SQLite and writes CSV rows. The model takes the tables as lists and returns the rows that would be written, in order.
- The duplicate-column coalescing block and the later fallback heuristics of backend/src/process/load_holidays_static.py (`main`, lines 136-188) are not modelled. They are pandas `bfill` plumbing and CSV/SQLite writes outside `map_columns_case_insensitive` and `normalize_date_text`. The year fill they share with the src loader is modelled there, as `SrcHolidayLoader.FilledYear`.
- The src loader's `main` has steps that are not modelled:
  - the per-row `normalize_date_text` is modelled on the row's text and filled year;
  - the column reordering and the SQLite write.
- Randomness: `random.randint` draws in the mock series generator are caller-supplied sequences, bounded where the lemmas need it. `DummySocialSource` and the random parts of the backend ingestion service are not modelled.
- Scrapers, the HTTP API, the ingestor stubs, the upcoming-holiday insight script, the frontend and the insight orchestrator are not part of this model. They are network, browser, HTTP or UI code, or code that does not appear in the source.
- The backend copy of `social_ingestion_service.py` is modelled once, together with the src copy (its aggregation functions are identical). The rows cite the src lines and name the backend lines.

## Findings

| source | as written | input that shows it | evidently intended | confidence | as-written member | corrected member |
|---|---|---|---|---|---|---|
| src/services/baseline_service.py:24-29 | the zero-std guard runs before `round(std, 2)`, so a std in (0, 0.005) is reported as 0.0 and `compute_baseline_and_deviation` then divides by it | history [0, 0, 0.01] (population std ≈ 0.0047) with any current value | the guard applies to the reported std, so the reported std is never 0 and the wrapper never raises | not executed | Baseline.WrapperDividesByZero | Baseline.ComputeBaselineAndDeviationGuarded |
