# Coach matching service — a Dafny model

This project models the matching core of the next-peptok coaching platform.
A company submits a coaching request: required skills, an experience level, a
budget and the days it needs. The service then ranks the coaches on its roster
against that request.

**Matching service** (`matching_service.dfy`, `scoring.dfy`, `roster.dfy`, `ranking.dfy`)
- **Available coaches.** Only coaches who are active and open to new clients
  are considered.
- **Hard filters.** These drop every coach who:
  - does not offer the session type;
  - is priced above the budget ceiling;
  - takes fewer participants than requested;
  - speaks none of the preferred languages;
  - is not available on any requested day.
- **Sub-scores.** The coaches that remain are scored on five sub-scores:
  skills, experience, availability, price and rating.
- **Combined score.** The sub-scores are combined with the configured weights.
  Coaches under the minimum match score are discarded.
  Then the rest are sorted by descending score (the sort is stable) and cut to
  the maximum number of matches.
- **Roster.** The coach roster is refreshed when the refresh interval has
  elapsed. The new roster is chosen as follows:
  1. the cache, when it holds coaches;
  2. otherwise the coach API. On status 200 its records are converted to
     profiles and validated, and records that fail are skipped, so the roster
     may end up empty. On any other status, or a failed request, the two
     built-in mock coaches are used. Either way the new roster replaces the
     old one and is written back to the cache;
  3. if the refresh itself raises, because a cached record fails validation,
     the previous roster is kept. The mocks are used when it is empty.
- **Statistics.** A request updates the processing statistics whenever some
  coach passed the hard filters, even if no coach then clears the minimum
  score. That includes a running mean of processing time. The ranked results are stored
  in a result cache keyed by request id.

**Legacy scorer** (`legacy_matching.dfy`)
- The older standalone scorer computes three scores:
  - expertise, by case-insensitive substring matching of skill names;
  - experience, from the digits inside free-text experience strings;
  - rating out of five.
- It combines them with weights 0.5/0.3/0.2 into a final score floored at 0.3.
- It writes a reason string: either the triggered phrases or the truncated
  percentage of the final score.
- It returns one match per coach, ranked by the score rounded to two decimals.

**Configuration and request model** (`settings.dfy`, `request_models.dfy`)
- **Configuration:**
  - the default weights and their normalisation to sum one;
  - start-up validation of the required variables and weight ranges;
  - selection of the configuration class by environment name.
- **Request model:** the request and profile records with their field bounds,
  and the days-of-week validator.

The remaining modules are helpers:
- `text.dfy` models the string helpers the scorers use: lower-casing,
  substring test, joining, digit filtering, and `str`/`int` conversion of
  naturals.
- `wrappers.dfy` holds `Option` and `Result`.

**Imperative and functional parts.** `MatchingEngine.MatchingService` is a
class whose methods update its fields in place: roster, last refresh time,
statistics, result cache. Each of those methods is specified against the pure
functions that define the ranking and the roster step. Loops in the source are
methods with loop invariants, each proved equal to a specification function:
- filtering;
- the skill-score accumulation;
- the per-coach scoring loop;
- API conversion;
- validation;
- the legacy expertise loop and match generation.

The properties of those functions are proved as lemmas.

## Model

| member | source | states |
|---|---|---|
| Settings.GetMatchingWeights | matching-service/src/config/settings.py:51-66 | a non-positive weight total leaves the weights unchanged (no division) |
| Settings.NormalisedSumsToOne | matching-service/src/config/settings.py:61-64 | weights with a positive total normalise to weights summing to exactly 1 |
| Settings.NormalisedIsScaled | matching-service/src/config/settings.py:64 | each normalised weight is its original divided by the total |
| Settings.NormalisationScalesUniformly | matching-service/src/config/settings.py:64 | every normalised weight times the original total gives back the original weight, so one common factor scales all five |
| Settings.ScaledKeepsRatios | matching-service/src/config/settings.py:64 | entries scaled by one common factor keep all pairwise ratios (cross-multiplied); with the lemma above, normalisation keeps the ratio between any two weights |
| Settings.NormalisationKeepsOrder | matching-service/src/config/settings.py:64 | normalisation keeps the order between any two weights, in both directions |
| Settings.NormalisedInUnitInterval | matching-service/src/config/settings.py:61-64 | non-negative weights with positive total normalise into [0, 1] |
| Settings.DefaultWeightsAreNormalised | matching-service/src/config/settings.py:34-38 | the default weights 0.3/0.25/0.2/0.15/0.1 sum to 1, so normalising them changes nothing |
| Settings.ValidateConfig | matching-service/src/config/settings.py:69-97 | the errors are exactly the specified list: one per unset required variable, then the weight error if some weight is outside [0, 1] |
| Settings.MissingVarErrorsShape | matching-service/src/config/settings.py:73-81 | one error per unset variable; every error is the missing-variable message of some listed unset variable, and every listed unset variable has its message |
| Settings.ConfigErrorsCharacterised | matching-service/src/config/settings.py:69-97 | the number of errors is the number of unset variables plus at most one; the weight-range error is reported if and only if some weight is out of range |
| Settings.GetConfig | matching-service/src/config/settings.py:116-128 | "production" and "testing" select their classes; every other name, including the default, selects development |
| RequestModels.NewSkillRequirement | matching-service/src/models/request_models.py:31-36 | a requirement built from name and level has weight 1.0, is not mandatory and satisfies the field bounds |
| RequestModels.CheckDays | matching-service/src/models/request_models.py:52-58 | accepts exactly the day lists whose every entry is in 0..6 |
| RequestModels.ValidateDaysOfWeek | matching-service/src/models/request_models.py:52-58 | succeeds, returning the value unchanged, if and only if a list value has every day in 0..6; otherwise fails with the validator's message |
| Text.Lower | matching-service/src/services/matching_service.py:464-470 | lower-casing keeps the length and maps each character by its ASCII lower-case form |
| Text.LowerIdempotent | matching-service/src/services/matching_service.py:464-470 | lower-casing twice equals lower-casing once, so name comparison ignores case on both sides |
| Text.ContainsAt | matching-service.py:197-198 | the recursive substring test holds exactly when the needle occurs at some offset |
| Text.DecimalRoundTrip | matching-service.py:255 | parsing the decimal rendering of a natural gives it back |
| Text.ParseDigits | matching-service.py:207-208 | parsing fails exactly when the string holds no digit |
| Text.DecimalThenTextParses | matching-service.py:226-227 | a number's decimal rendering followed by digit-free text parses back to the number |
| Ranking.Take | matching-service/src/services/matching_service.py:97 | slicing to n keeps a prefix of length min(n, length) |
| Ranking.InsertPermutes | matching-service/src/services/matching_service.py:94 | inserting into the sorted prefix adds exactly the one element |
| Ranking.InsertSorted | matching-service/src/services/matching_service.py:94 | inserting into a descending sequence keeps it descending |
| Ranking.InsertWithKey | matching-service/src/services/matching_service.py:94 | insertion puts the new element after all earlier elements with an equal key |
| Ranking.SortDescSorted | matching-service/src/services/matching_service.py:94 | the sort result is in non-increasing key order |
| Ranking.SortDescPermutes | matching-service/src/services/matching_service.py:94 | the sort result is a permutation of its input |
| Ranking.SortDescStable | matching-service/src/services/matching_service.py:94 | the sort is stable: elements with equal keys keep their input order |
| Ranking.WithKeyAppend | matching-service/src/services/matching_service.py:94 | selecting the elements with one key distributes over concatenation |
| Ranking.WithKeyAbsent | matching-service/src/services/matching_service.py:94 | no element carries a key that is not present |
| Scoring.ApplyHardFilters | matching-service/src/services/matching_service.py:344-372 | the loop keeps exactly the coaches the filter specification keeps, in order |
| Scoring.HardFilterMembers | matching-service/src/services/matching_service.py:344-372 | a coach survives if and only if it was in the input and passes the session-type, budget, capacity, language and availability constraints |
| Scoring.HardFilterAppend | matching-service/src/services/matching_service.py:348-371 | filtering distributes over concatenation of rosters |
| Scoring.NoRequestedDaysDropsAll | matching-service/src/services/matching_service.py:366-368 | a request naming no days excludes every coach |
| Scoring.HardFilterMonotone | matching-service/src/services/matching_service.py:344-372 | a stricter constraint set keeps no more coaches |
| Scoring.StricterCeilingKeepsFewer | matching-service/src/services/matching_service.py:353-356 | lowering (or imposing) the hourly ceiling keeps no more coaches |
| Scoring.SkillLevelMatch | matching-service/src/services/matching_service.py:472-489 | a level match is in (0, 1] and is 1 exactly when the coach's tier meets the required tier |
| Scoring.FirstSkillIndex | matching-service/src/services/matching_service.py:464-470 | finds the first coach skill whose name equals the requested one ignoring case, or reports that none does |
| Scoring.FoundSkillScore | matching-service/src/services/matching_service.py:447-456 | a found skill scores at most 1, above 0 when valid, and exactly 1 when its level meets the requirement |
| Scoring.SkillContributionBounds | matching-service/src/services/matching_service.py:443-460 | a missing mandatory skill costs half its weight, a missing optional one nothing, and a found skill contributes between 0 and its weight |
| Scoring.FoundScoreInUnitInterval | matching-service/src/services/matching_service.py:447-456 | a skill found on a coach with valid skills scores in [0, 1] |
| Scoring.SkillScore | matching-service/src/services/matching_service.py:433-462 | no requirements, or zero total weight, gives the neutral 0.5; otherwise the score is non-negative |
| Scoring.SkillSumBounds | matching-service/src/services/matching_service.py:442-460 | the weighted skill sum lies between -0.5 and 1 times the total weight |
| Scoring.SkillScoreInUnitInterval | matching-service/src/services/matching_service.py:433-462 | for a valid request and profile the skill score lies in [0, 1] |
| Scoring.AccumulateSkillSum | matching-service/src/services/matching_service.py:442-460 | the accumulation loop computes the specified weighted sum |
| Scoring.CalculateSkillScore | matching-service/src/services/matching_service.py:433-462 | the method computes the specified skill score |
| Scoring.ExperienceScore | matching-service/src/services/matching_service.py:491-508 | the score is 1 exactly when the coach has at least the years the level requires, and lies in [0, 1] for non-negative experience |
| Scoring.OverlapRatio | matching-service/src/services/matching_service.py:374-380 | the overlap ratio lies in [0, 1] and is positive exactly when coach and request share a day |
| Scoring.NonEmptyDays | matching-service/src/services/matching_service.py:374-380 | the requested day set is empty exactly when the request lists no days |
| Scoring.AvailabilityScore | matching-service/src/services/matching_service.py:510-529 | 0.5 when either side has no days, 0 without overlap, positive with overlap, and in [0, 1] for a valid flexibility |
| Scoring.AvailabilityOverlap | matching-service/src/services/matching_service.py:586-596 | the reported overlap lies in [0, 1], is 0 for a request without days, and is positive exactly when days are shared |
| Scoring.PriceScore | matching-service/src/services/matching_service.py:531-548 | 0.5 without a ceiling; within the ceiling 1.0 at or below 80% of it and 0.8 above; over the ceiling below 0.5; in [0, 1] for a valid budget |
| Scoring.PriceDifferencePercent | matching-service/src/services/matching_service.py:598-604 | 0 without a ceiling; otherwise non-positive exactly when the rate is within the ceiling |
| Scoring.RatingScore | matching-service/src/services/matching_service.py:550-564 | an unrated coach scores 0.5; a valid profile scores in [0, 1] and at least rating/5 |
| Scoring.GetMatchingSkills | matching-service/src/services/matching_service.py:566-574 | the loop returns the specified names of the requirements the coach has |
| Scoring.GetMissingSkills | matching-service/src/services/matching_service.py:576-584 | the loop returns the specified names of the requirements the coach lacks |
| Scoring.SkillsPartition | matching-service/src/services/matching_service.py:566-584 | matching and missing skills partition the requirement names: together a permutation of them, each side correctly classified |
| Scoring.ConfidenceLevel | matching-service/src/services/matching_service.py:630-644 | confidence is at most 1, at least the mean of the three scores (when that mean is at most 1), and exactly that mean capped at 1 without session or rating boosts |
| Scoring.ReasonParts | matching-service/src/services/matching_service.py:606-626 | the fallback phrase appears alone exactly when no threshold is crossed; each of the five phrases (excellent skill, good skill, extensive experience, highly rated, proven track record) appears exactly when its own threshold is crossed |
| Scoring.RecommendationReason | matching-service/src/services/matching_service.py:628 | the reason is the fixed lead-in "Recommended for " followed by the reason phrases joined with ", " |
| Scoring.ScoreCoach | matching-service/src/services/matching_service.py:382-431 | scoring succeeds with a result that satisfies the result model's bounds, about the same coach, and fails exactly when the built result violates them |
| Scoring.WeightedSumInRange | matching-service/src/services/matching_service.py:392-399 | sub-scores in [0, 1] and non-negative weights give a non-negative weighted sum |
| Scoring.ScoreCoachSucceeds | matching-service/src/services/matching_service.py:382-431 | a valid coach and request with non-negative weights never fail scoring |
| Scoring.CalculateMatchScore | matching-service/src/services/matching_service.py:382-431 | the method computes the specified scoring outcome |
| Roster.MapExperienceLevel | matching-service/src/services/matching_service.py:235-243 | a known level name, in any case, maps to its level; anything else maps to intermediate |
| Roster.MapExperienceLevelRoundTrip | matching-service/src/services/matching_service.py:235-243 | mapping a level's own name (in any case) gives back that level |
| Roster.MapExperienceLevelIgnoresCase | matching-service/src/services/matching_service.py:237 | the mapping ignores letter case |
| Roster.ConvertSkill | matching-service/src/services/matching_service.py:205-212 | an API skill keeps its years (0 when absent) and has no certifications |
| Roster.ConvertSkills | matching-service/src/services/matching_service.py:205-212 | skills are converted one by one, in order |
| Roster.ConvertAvailabilities | matching-service/src/services/matching_service.py:214-221 | availability slots are converted one by one, in order |
| Roster.MaxYears | matching-service/src/services/matching_service.py:213 | total experience is the largest skill experience, 0 without skills |
| Roster.ConvertApiCoach | matching-service/src/services/matching_service.py:193-233 | a record converts exactly when the defaulted profile is valid; the result keeps id and rate, is active and one-on-one, and has total experience at least every skill's |
| Roster.EmptyRecordConverts | matching-service/src/services/matching_service.py:193-233 | a record with every field absent converts with the documented defaults (rate 100, USD, rating 0, 24-hour response) |
| Roster.MockCoachesValid | matching-service/src/services/matching_service.py:245-342 | the two mock coaches are valid, distinct and available |
| Roster.ConvertAllProperties | matching-service/src/services/matching_service.py:175-184 | API conversion yields only valid profiles, no more than the records, each converted from some record |
| Roster.FetchedCoachesValid | matching-service/src/services/matching_service.py:163-191 | every coach fetched from the API is valid |
| Roster.FetchCoachesFromApi | matching-service/src/services/matching_service.py:163-191 | the fetch loop computes the specified roster: the converted records on status 200, the mock roster on any other status or a failed request |
| Roster.RefreshOutcome | matching-service/src/services/matching_service.py:134-161 | a valid cache wins; an invalid cache is a failure; an empty cache falls back to the API, whose roster is written back; a failure keeps the old roster, or the mocks when it is empty |
| Roster.RefreshKeepsRosterValid | matching-service/src/services/matching_service.py:134-161 | a refresh keeps the roster valid, and a failed refresh never leaves it empty |
| MatchingEngine.ActiveCoachesMembers | matching-service/src/services/matching_service.py:116-127 | the available coaches are exactly the active coaches open to new clients, and stay valid |
| MatchingEngine.NextRoster | matching-service/src/services/matching_service.py:116-132 | before the interval elapses nothing changes; afterwards the roster is the refresh outcome and the refresh time advances only on success |
| MatchingEngine.ScoredAboveMembers | matching-service/src/services/matching_service.py:84-91 | the kept results are exactly the successful results at or above the minimum score, each about an input coach |
| MatchingEngine.ScoredAboveSound | matching-service/src/services/matching_service.py:84-91 | every kept result is valid, at or above the minimum, and the scoring of an input coach |
| MatchingEngine.ScoredAboveComplete | matching-service/src/services/matching_service.py:84-91 | every input coach scoring at or above the minimum is kept |
| MatchingEngine.ScoringFailureSkipped | matching-service/src/services/matching_service.py:90-91 | a coach whose scoring fails adds nothing to the results |
| MatchingEngine.RankedAreScored | matching-service/src/services/matching_service.py:76-97 | ranked results come from the scored, filtered coaches, and are all of them when the limit is not reached |
| MatchingEngine.RankMatchesProperties | matching-service/src/services/matching_service.py:61-114 | every ranked result is valid, at or above the minimum score, about a roster coach that passes the hard filters; the ranking is descending and within the limit |
| MatchingEngine.RankMatchesStable | matching-service/src/services/matching_service.py:93-97 | ties keep their scoring order, and the result is a prefix of the sorted list |
| MatchingEngine.RankedResultsWithinHardConstraints | matching-service/src/services/matching_service.py:344-372 | every ranked coach shares a requested day and, under a ceiling, has price score 1.0 or 0.8 |
| MatchingEngine.FilteredResultWithinConstraints | matching-service/src/services/matching_service.py:344-372 | a coach passing the hard filters scores positive overlap and a within-ceiling price score |
| MatchingEngine.ScoreAll | matching-service/src/services/matching_service.py:84-91 | the scoring loop computes the specified list of kept results |
| MatchingEngine.MeanStep | matching-service/src/services/matching_service.py:651-655 | the incremental mean update equals the mean of all recorded processing times |
| MatchingEngine.WriteBack | matching-service/src/services/matching_service.py:151-153 | the coaches written to the cache are the fetched roster |
| MatchingEngine.MatchingService.constructor | matching-service/src/services/matching_service.py:38-59 | a fresh service has normalised weights, an empty roster, empty statistics and cache |
| MatchingEngine.MatchingService.RefreshCoachData | matching-service/src/services/matching_service.py:134-161 | the roster, refresh time and cache write are the refresh outcome; statistics and result cache are untouched |
| MatchingEngine.MatchingService.GetAvailableCoaches | matching-service/src/services/matching_service.py:116-132 | the roster takes its next step and the active valid coaches are returned; nothing else changes |
| MatchingEngine.MatchingService.UpdateStatistics | matching-service/src/services/matching_service.py:646-665 | one request and its matches are counted, its entry is logged, and the mean processing time stays the mean of the log |
| MatchingEngine.MatchingService.CacheResults | matching-service/src/services/matching_service.py:667-679 | the results are stored under the request id; nothing else changes |
| MatchingEngine.MatchingService.FindMatches | matching-service/src/services/matching_service.py:61-114 | returns the ranked matches of the active roster; statistics and cache are updated exactly when some coach passed the hard filters |
| LegacyMatching.CoveredCount | matching-service.py:195-200 | at most the number of required skills are counted |
| LegacyMatching.ExpertiseScore | matching-service.py:190-202 | 0.3 when either list is empty; otherwise in [0, 1] |
| LegacyMatching.CoveredCountExtremes | matching-service.py:195-200 | every required skill is covered exactly when the count is full, and none exactly when it is zero |
| LegacyMatching.ExpertiseScoreExtremes | matching-service.py:190-202 | for non-empty lists the score is 1 exactly when every required skill aligns with some offered skill, and 0 exactly when none does |
| LegacyMatching.CalculateExpertiseScore | matching-service.py:190-202 | the nested loop computes the specified expertise score |
| LegacyMatching.ExperienceScore | matching-service.py:204-215 | 0.5 when either string cannot be parsed; in [0, 1]; 1 exactly when the coach's years meet the required years |
| LegacyMatching.DefaultExperienceIsFiveYears | matching-service.py:208 | the default "5+ years" and the empty level both require 5 years |
| LegacyMatching.RatingScore | matching-service.py:217-219 | at most 1, and rating/5 for ratings up to 5 |
| LegacyMatching.FinalScore | matching-service.py:237-244 | at least 0.3, at most 1 for sub-scores at most 1, and the weighted sum whenever above the floor |
| LegacyMatching.Round2 | matching-service.py:263 | rounding to two decimals moves a value by at most 0.005 |
| LegacyMatching.Round2Monotone | matching-service.py:263 | rounding keeps order |
| LegacyMatching.Round2Exact | matching-service.py:263 | values with two decimals are unchanged by rounding |
| LegacyMatching.RoundedFinalInRange | matching-service.py:263 | a rounded final score stays in [0.3, 1] |
| LegacyMatching.ReasonParts | matching-service.py:247-253 | "Strong expertise alignment" appears exactly when expertise exceeds 0.7, "Excellent experience match" exactly when experience exceeds 0.8, and "Outstanding client ratings" exactly when rating exceeds 0.9 |
| LegacyMatching.Reason | matching-service.py:255 | with some phrase triggered, the reason is the phrases joined with ", "; otherwise it is a number followed by the compatibility suffix |
| LegacyMatching.JoinDigitFree | matching-service.py:255 | joining digit-free parts with a digit-free separator gives digit-free text |
| LegacyMatching.PartsDigitFree | matching-service.py:247-253 | every reason phrase is digit-free |
| LegacyMatching.TriggeredReasonHasNoDigits | matching-service.py:255 | a reason made of triggered phrases holds no number |
| LegacyMatching.FallbackReasonNumber | matching-service.py:255 | the fallback reason carries the truncated percentage of the final score |
| LegacyMatching.ReasonNumber | matching-service.py:247-255 | the reason holds a number exactly when no phrase triggered, and that number is the percentage, between 30 and 100 |
| LegacyMatching.MatchFor | matching-service.py:230-270 | a match is about its coach and the request, with a score in [0.3, 1] |
| LegacyMatching.MatchesInCoachOrder | matching-service.py:230-276 | one match per coach, in store order |
| LegacyMatching.GenerateMatches | matching-service.py:221-281 | the loop and sort compute the specified ranked matches |
| LegacyMatching.GeneratedMatchesProperties | matching-service.py:221-281 | exactly one match per coach (a permutation of the unsorted matches), every score in [0.3, 1], sorted descending, ties in coach order |
| LegacyMatching.NoExpertiseRequested | matching-service.py:226 | without requested expertise every match's expertise score is the neutral 0.3 |

## Left out

- Kafka consumption and publication, the Flask endpoints, the SQLite store of the legacy scorer and the HTTP client are not modelled. The API call is a parameter: an `ApiResponse`, either an error or the list of raw records.
- The Redis cache is not modelled as a store. Its reply to a roster read is a parameter (`cached`), and a roster write is returned as the `written` output. Its key expiries and its trimming to 1000 statistics entries belong to the Redis service, which is not part of this model.
- The wall clock is a parameter. `now` is in real seconds and processing time in whole milliseconds. Timestamps, match ids and creation times built from the clock are not modelled.
- Logging, and the TF-IDF vectoriser and scaler the service builds but never uses, are left out.
- Exceptions: `find_matches` re-raises an exception after logging it. Two failures are modelled. A scoring failure skips the coach. A cached record that fails profile validation aborts the refresh, and the old roster or the mocks are kept (`Roster.RefreshOutcome`). Errors swallowed by the cache writes are not modelled.
- Coach skills and availability slots are read through their fields (`name`, `level`, `yearsExperience`, `dayOfWeek`), which is what the code evidently intends. The code as written subscripts those pydantic objects like dictionaries, at matching_service.py lines 377, 450, 454, 468, 516 and 592. That raises TypeError on a `CoachSkill` or `CoachAvailability` instance (request_models.py lines 122 and 126). As written, `_apply_hard_filters` therefore raises for every coach that passes the first four filters and has at least one availability slot (a coach with no slots is dropped without error), and `find_matches` re-raises the error. The model does not reproduce that failure.
- pydantic's type coercion is left out. A record is modelled by its field values; the field bounds are predicates (`ValidCoachProfile`, `ValidRequest`, `ValidMatchResult`). A mistyped API field is treated as absent.
- Floating point is modelled as exact reals. `round(x, 2)` is half-to-even over reals, with no binary representation error.
- `str.lower` and `str.isdigit` are modelled on ASCII only.
- The source's list sorts are modelled as a functional stable insertion sort. The in-place `list.sort` and its aliasing are not modelled.
- `get_statistics`, `is_healthy` and the plain attribute accessors are left out. They only read state the model exposes as fields.
- The legacy scorer's `save_match`, its sample-data seeding and its HTTP loop are I/O and are left out.
- `validate_config` makes only two checks: the two required variables and the five weight ranges. Both are modelled in full. The process environment it reads is a parameter (a map from names to values).
- Scoring.SkillScore: its own contract gives only the neutral and non-negative cases. The [0, 1] bound for valid inputs is in Scoring.SkillScoreInUnitInterval.
- Settings.GetMatchingWeights: its own contract covers only the non-positive total. The positive case is stated by the normalisation lemmas beside it.
