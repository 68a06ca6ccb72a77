/** The matching engine: the roster it keeps and refreshes, the ranking of
    one request (filter → score → threshold → stable descending sort →
    truncate), and the running statistics. The clock, the cache read and the
    API answer are parameters of the operations that use them. */
module MatchingEngine {
  import opened Wrappers
  import opened RequestModels
  import opened Settings
  import opened Ranking
  import opened Scoring
  import opened Roster

  // ---------------------------------------------------------------- roster state

  /** The coaches offered for matching: active and accepting new clients. */
  function ActiveCoaches(coaches: seq<CoachProfile>): seq<CoachProfile> {
    if coaches == [] then []
    else
      var last := coaches[|coaches| - 1];
      ActiveCoaches(coaches[..|coaches| - 1])
      + (if last.isActive && last.canAcceptNewClients then [last] else [])
  }

  lemma {:induction false} ActiveCoachesMembers(coaches: seq<CoachProfile>)
    ensures forall c :: c in ActiveCoaches(coaches) <==> c in coaches && c.isActive && c.canAcceptNewClients
    ensures AllValid(coaches) ==> AllValid(ActiveCoaches(coaches))
  {
    if coaches != [] {
      var init := coaches[..|coaches| - 1];
      ActiveCoachesMembers(init);
      assert coaches == init + [coaches[|coaches| - 1]];
      if AllValid(coaches) {
        assert AllValid(init);
        assert forall c :: c in ActiveCoaches(coaches) ==> c in coaches;
      }
    }
  }

  /** Refresh is due once strictly more seconds than the interval have passed. */
  predicate RefreshDue(lastRefresh: real, interval: int, now: real) {
    now - lastRefresh > interval as real
  }

  /** Roster, refresh time and cache writes after one roster request. */
  datatype RosterStep = RosterStep(roster: seq<CoachProfile>, lastRefresh: real, written: seq<CoachProfile>)

  function NextRoster(roster: seq<CoachProfile>, lastRefresh: real, interval: int,
                      now: real, cached: seq<CoachProfile>, api: ApiResponse): (s: RosterStep)
    ensures !RefreshDue(lastRefresh, interval, now) ==> s == RosterStep(roster, lastRefresh, [])
    ensures RefreshDue(lastRefresh, interval, now)
            ==> s.roster == RefreshOutcome(roster, cached, api).roster
                && s.written == RefreshOutcome(roster, cached, api).written
                && s.lastRefresh == (if RefreshOutcome(roster, cached, api).succeeded then now else lastRefresh)
  {
    if RefreshDue(lastRefresh, interval, now) then
      var o := RefreshOutcome(roster, cached, api);
      RosterStep(o.roster, if o.succeeded then now else lastRefresh, o.written)
    else RosterStep(roster, lastRefresh, [])
  }

  // ---------------------------------------------------------------- ranking

  function MatchScoreOf(m: MatchResult): real {
    m.matchScore
  }

  /** The results that scored successfully and reach the threshold, in the
      order of their coaches. */
  function ScoredAbove(coaches: seq<CoachProfile>, r: MatchingRequest, w: Weights, minScore: real): seq<MatchResult> {
    if coaches == [] then []
    else
      var res := ScoreCoach(coaches[|coaches| - 1], r, w);
      ScoredAbove(coaches[..|coaches| - 1], r, w, minScore)
      + (if res.Success? && res.value.matchScore >= minScore then [res.value] else [])
  }

  /** The ranking of one request over the available coaches. */
  function RankMatches(coaches: seq<CoachProfile>, r: MatchingRequest, w: Weights, cfg: Config): seq<MatchResult> {
    Take(SortDesc(ScoredAbove(HardFilter(coaches, r), r, w, cfg.minMatchScore), MatchScoreOf), cfg.maxMatchesPerRequest)
  }

  /** A threshold survivor is exactly the successful, valid score of one of
      the coaches, and every such score at or above the threshold survives. */
  lemma ScoredAboveMembers(coaches: seq<CoachProfile>, r: MatchingRequest, w: Weights, minScore: real)
    ensures |ScoredAbove(coaches, r, w, minScore)| <= |coaches|
    ensures forall m :: m in ScoredAbove(coaches, r, w, minScore) ==>
              m.matchScore >= minScore && ValidMatchResult(m) && m.coach in coaches && ScoreCoach(m.coach, r, w) == Success(m)
    ensures forall c :: c in coaches && ScoreCoach(c, r, w).Success? && ScoreCoach(c, r, w).value.matchScore >= minScore
              ==> ScoreCoach(c, r, w).value in ScoredAbove(coaches, r, w, minScore)
  {
    ScoredAboveSound(coaches, r, w, minScore);
    ScoredAboveComplete(coaches, r, w, minScore);
  }

  /** The last coach adds its own successful score, if it reaches the threshold. */
  lemma ScoredAboveLast(coaches: seq<CoachProfile>, r: MatchingRequest, w: Weights, minScore: real)
    requires coaches != []
    ensures var res := ScoreCoach(coaches[|coaches| - 1], r, w);
            ScoredAbove(coaches, r, w, minScore)
            == ScoredAbove(coaches[..|coaches| - 1], r, w, minScore)
               + (if res.Success? && res.value.matchScore >= minScore then [res.value] else [])
  {
  }

  lemma {:induction false} ScoredAboveSound(coaches: seq<CoachProfile>, r: MatchingRequest, w: Weights, minScore: real)
    ensures |ScoredAbove(coaches, r, w, minScore)| <= |coaches|
    ensures forall m :: m in ScoredAbove(coaches, r, w, minScore) ==>
              m.matchScore >= minScore && ValidMatchResult(m) && m.coach in coaches && ScoreCoach(m.coach, r, w) == Success(m)
  {
    if coaches != [] {
      var init, last := coaches[..|coaches| - 1], coaches[|coaches| - 1];
      ScoredAboveSound(init, r, w, minScore);
      ScoredAboveLast(coaches, r, w, minScore);
      var res := ScoreCoach(last, r, w);
      var extra: seq<MatchResult> := if res.Success? && res.value.matchScore >= minScore then [res.value] else [];
      var before := ScoredAbove(init, r, w, minScore);
      assert ScoredAbove(coaches, r, w, minScore) == before + extra;
      forall m: MatchResult | m in before + extra
        ensures m.matchScore >= minScore && ValidMatchResult(m) && m.coach in coaches && ScoreCoach(m.coach, r, w) == Success(m)
      {
        if m in before {
          assert m.coach in init;
        } else {
          assert m == res.value && m.coach == last;
        }
      }
    }
  }

  lemma {:induction false} ScoredAboveComplete(coaches: seq<CoachProfile>, r: MatchingRequest, w: Weights, minScore: real)
    ensures forall c :: c in coaches && ScoreCoach(c, r, w).Success? && ScoreCoach(c, r, w).value.matchScore >= minScore
              ==> ScoreCoach(c, r, w).value in ScoredAbove(coaches, r, w, minScore)
  {
    if coaches != [] {
      var init, last := coaches[..|coaches| - 1], coaches[|coaches| - 1];
      ScoredAboveComplete(init, r, w, minScore);
      ScoredAboveLast(coaches, r, w, minScore);
      var before := ScoredAbove(init, r, w, minScore);
      forall c | c in coaches && ScoreCoach(c, r, w).Success? && ScoreCoach(c, r, w).value.matchScore >= minScore
        ensures ScoreCoach(c, r, w).value in ScoredAbove(coaches, r, w, minScore)
      {
        if c != last {
          assert c in init;
          assert ScoreCoach(c, r, w).value in before;
        }
      }
    }
  }

  /** A coach whose scoring fails is skipped; the others are still ranked. */
  lemma ScoringFailureSkipped(coaches: seq<CoachProfile>, c: CoachProfile, r: MatchingRequest, w: Weights, minScore: real)
    requires ScoreCoach(c, r, w).Failure?
    ensures ScoredAbove(coaches + [c], r, w, minScore) == ScoredAbove(coaches, r, w, minScore)
  {
    assert (coaches + [c])[..|coaches|] == coaches;
  }

  /** The returned results are some of the threshold survivors, and all of
      them when the limit does not truncate. */
  lemma RankedAreScored(coaches: seq<CoachProfile>, r: MatchingRequest, w: Weights, cfg: Config)
    ensures var scored := ScoredAbove(HardFilter(coaches, r), r, w, cfg.minMatchScore);
            && (forall m :: m in RankMatches(coaches, r, w, cfg) ==> m in scored)
            && (|scored| <= cfg.maxMatchesPerRequest ==> multiset(RankMatches(coaches, r, w, cfg)) == multiset(scored))
  {
    var scored := ScoredAbove(HardFilter(coaches, r), r, w, cfg.minMatchScore);
    var sorted := SortDesc(scored, MatchScoreOf);
    var ranked := RankMatches(coaches, r, w, cfg);
    SortDescPermutes(scored, MatchScoreOf);
    forall m | m in ranked
      ensures m in scored
    {
      assert m in sorted;
      assert m in multiset(sorted);
    }
    if |scored| <= cfg.maxMatchesPerRequest {
      assert ranked == sorted;
    }
  }

  /** Every returned result reaches the threshold, is valid, and belongs to
      an available coach that passed the hard filter; the results are ordered
      by non-increasing score and are no more than the limit. */
  lemma RankMatchesProperties(coaches: seq<CoachProfile>, r: MatchingRequest, w: Weights, cfg: Config)
    ensures var ranked := RankMatches(coaches, r, w, cfg);
            && (forall m :: m in ranked ==>
                  && m.matchScore >= cfg.minMatchScore
                  && ValidMatchResult(m)
                  && m.coach in coaches
                  && PassesHardFilters(m.coach, r))
            && SortedDesc(ranked, MatchScoreOf)
            && (cfg.maxMatchesPerRequest >= 0 ==> |ranked| <= cfg.maxMatchesPerRequest)
  {
    var filtered := HardFilter(coaches, r);
    var scored := ScoredAbove(filtered, r, w, cfg.minMatchScore);
    HardFilterMembers(coaches, r);
    ScoredAboveMembers(filtered, r, w, cfg.minMatchScore);
    RankedAreScored(coaches, r, w, cfg);
    SortDescSorted(scored, MatchScoreOf);
  }

  /** Ties keep the order of the filtered coaches: the untruncated ranking
      lists the results of each score in the order they were scored, and the
      returned ranking is a prefix of it. */
  lemma RankMatchesStable(coaches: seq<CoachProfile>, r: MatchingRequest, w: Weights, cfg: Config, v: real)
    ensures var scored := ScoredAbove(HardFilter(coaches, r), r, w, cfg.minMatchScore);
            var sorted := SortDesc(scored, MatchScoreOf);
            && WithKey(sorted, MatchScoreOf, v) == WithKey(scored, MatchScoreOf, v)
            && RankMatches(coaches, r, w, cfg) == sorted[..|RankMatches(coaches, r, w, cfg)|]
  {
    SortDescStable(ScoredAbove(HardFilter(coaches, r), r, w, cfg.minMatchScore), MatchScoreOf, v);
  }

  /** A returned result shares at least one weekday with the request, and
      under a budget ceiling its price score is never the over-budget one. */
  lemma RankedResultsWithinHardConstraints(coaches: seq<CoachProfile>, r: MatchingRequest, w: Weights, cfg: Config)
    ensures forall m :: m in RankMatches(coaches, r, w, cfg) ==>
              && m.availabilityOverlap > 0.0
              && (HasCeiling(r) ==> m.priceScore == 1.0 || m.priceScore == 0.8)
  {
    var filtered := HardFilter(coaches, r);
    var ranked := RankMatches(coaches, r, w, cfg);
    RankedAreScored(coaches, r, w, cfg);
    ScoredAboveSound(filtered, r, w, cfg.minMatchScore);
    HardFilterMembers(coaches, r);
    forall m | m in ranked
      ensures m.availabilityOverlap > 0.0
      ensures HasCeiling(r) ==> m.priceScore == 1.0 || m.priceScore == 0.8
    {
      assert ScoreCoach(m.coach, r, w) == Success(m);
      FilteredResultWithinConstraints(m.coach, r, w);
    }
  }

  lemma FilteredResultWithinConstraints(c: CoachProfile, r: MatchingRequest, w: Weights)
    requires PassesHardFilters(c, r)
    ensures BuildMatchResult(c, r, w).availabilityOverlap > 0.0
    ensures HasCeiling(r) ==> BuildMatchResult(c, r, w).priceScore == 1.0 || BuildMatchResult(c, r, w).priceScore == 0.8
  {
  }

  lemma ScoredAboveStep(coaches: seq<CoachProfile>, i: nat, r: MatchingRequest, w: Weights, minScore: real)
    requires i < |coaches|
    ensures var res := ScoreCoach(coaches[i], r, w);
            ScoredAbove(coaches[..i + 1], r, w, minScore)
            == ScoredAbove(coaches[..i], r, w, minScore)
               + (if res.Success? && res.value.matchScore >= minScore then [res.value] else [])
  {
    assert coaches[..i + 1][..i] == coaches[..i];
  }

  /** Scores each filtered coach in turn, keeping the results that reach the
      threshold and skipping coaches whose scoring fails. */
  method ScoreAll(filtered: seq<CoachProfile>, request: MatchingRequest, w: Weights, minScore: real)
    returns (matchResults: seq<MatchResult>)
    ensures matchResults == ScoredAbove(filtered, request, w, minScore)
  {
    matchResults := [];
    for i := 0 to |filtered|
      invariant matchResults == ScoredAbove(filtered[..i], request, w, minScore)
    {
      var scored := CalculateMatchScore(filtered[i], request, w);
      ScoredAboveStep(filtered, i, request, w, minScore);
      if scored.Success? && scored.value.matchScore >= minScore {
        matchResults := matchResults + [scored.value];
      }
    }
    assert filtered[..|filtered|] == filtered;
  }

  // ---------------------------------------------------------------- statistics

  /** What is stored per processed request. */
  datatype ProcessingStats = ProcessingStats(
    totalCoaches: int,
    matchesFound: int,
    processingTimeMs: int,
    algorithmVersion: string)

  /** What is cached per request id. */
  datatype CachedResults = CachedResults(matches: seq<MatchResult>, algorithmVersion: string)

  function SumMatches(log: seq<ProcessingStats>): int {
    if log == [] then 0 else SumMatches(log[..|log| - 1]) + log[|log| - 1].matchesFound
  }

  function SumTimes(log: seq<ProcessingStats>): int {
    if log == [] then 0 else SumTimes(log[..|log| - 1]) + log[|log| - 1].processingTimeMs
  }

  /** Arithmetic mean of the processing times, 0 for no requests. */
  function MeanTime(log: seq<ProcessingStats>): real {
    if log == [] then 0.0 else SumTimes(log) as real / |log| as real
  }

  lemma SumTimesSnoc(log: seq<ProcessingStats>, s: ProcessingStats)
    ensures SumTimes(log + [s]) == SumTimes(log) + s.processingTimeMs
  {
    assert (log + [s])[..|log|] == log;
  }

  /** The mean times the number of requests is the total time. */
  lemma MeanTimesCount(log: seq<ProcessingStats>)
    ensures MeanTime(log) * |log| as real == SumTimes(log) as real
  {
    if log != [] {
      MultiplyBack(SumTimes(log) as real, |log| as real);
    }
  }

  lemma MultiplyBack(a: real, n: real)
    requires n > 0.0
    ensures (a / n) * n == a
  {
  }

  /** The incremental update `(mean·(n-1) + t) / n` gives the mean of the
      extended log. */
  lemma MeanStep(log: seq<ProcessingStats>, s: ProcessingStats, mean: real, previous: int, count: int, time: int)
    requires mean == MeanTime(log) && previous == |log| && count == previous + 1
    requires time == s.processingTimeMs
    ensures (mean * previous as real + time as real) / count as real == MeanTime(log + [s])
  {
    SumTimesSnoc(log, s);
    MeanTimesCount(log);
    var numerator := mean * previous as real + time as real;
    assert numerator == SumTimes(log + [s]) as real;
    assert count as real == |log + [s]| as real;
  }

  // ---------------------------------------------------------------- the service

  /** Stands for the per-coach `set_coach_data` loop of a refresh, and for
      nothing more: the cache is not modelled, so the loop's only observable
      effect is the sequence of profiles it writes, in order. */
  method WriteBack(coaches: seq<CoachProfile>) returns (written: seq<CoachProfile>)
    ensures written == coaches
  {
    written := [];
    for i := 0 to |coaches|
      invariant written == coaches[..i]
    {
      written := written + [coaches[i]];
    }
  }

  class MatchingService {
    const config: Config
    const algorithmVersion: string
    const weights: Weights
    var lastProcessingTime: int
    var coachesCache: seq<CoachProfile>
    /** Seconds since the earliest representable time; 0 means never refreshed. */
    var lastCoachRefresh: real
    var totalRequestsProcessed: int
    var totalMatchesGenerated: int
    var averageProcessingTime: real
    /** Processing records handed to the statistics store, oldest first. */
    var statsLog: seq<ProcessingStats>
    /** Ranked results handed to the result cache, by request id. */
    var resultCache: map<string, CachedResults>

    /** The counters and the mean summarise the stored records, and the
        roster holds only valid profiles. */
    ghost predicate Valid()
      reads this
    {
      && totalRequestsProcessed == |statsLog|
      && totalMatchesGenerated == SumMatches(statsLog)
      && averageProcessingTime == MeanTime(statsLog)
      && AllValid(coachesCache)
    }

    constructor(config: Config)
      ensures Valid()
      ensures this.config == config && algorithmVersion == config.algorithmVersion
      ensures weights == GetMatchingWeights(config.weights)
      ensures coachesCache == [] && lastCoachRefresh == 0.0 && lastProcessingTime == 0
      ensures statsLog == [] && resultCache == map[]
      ensures totalRequestsProcessed == 0 && totalMatchesGenerated == 0 && averageProcessingTime == 0.0
    {
      this.config := config;
      algorithmVersion := config.algorithmVersion;
      weights := GetMatchingWeights(config.weights);
      lastProcessingTime := 0;
      coachesCache := [];
      lastCoachRefresh := 0.0;
      totalRequestsProcessed := 0;
      totalMatchesGenerated := 0;
      averageProcessingTime := 0.0;
      statsLog := [];
      resultCache := map[];
    }

    predicate ShouldRefreshCoaches(now: real)
      reads this
    {
      RefreshDue(lastCoachRefresh, config.refreshCoachDataInterval, now)
    }

    /** Reloads the roster: from the cache if it holds entries, otherwise from
        the API, writing each fetched coach back to the cache. */
    method RefreshCoachData(now: real, cached: seq<CoachProfile>, api: ApiResponse)
      returns (written: seq<CoachProfile>)
      requires Valid()
      modifies this
      ensures Valid()
      ensures var o := RefreshOutcome(old(coachesCache), cached, api);
              && coachesCache == o.roster && written == o.written
              && lastCoachRefresh == (if o.succeeded then now else old(lastCoachRefresh))
      ensures statsLog == old(statsLog) && resultCache == old(resultCache)
      ensures totalRequestsProcessed == old(totalRequestsProcessed)
      ensures totalMatchesGenerated == old(totalMatchesGenerated)
      ensures averageProcessingTime == old(averageProcessingTime)
      ensures lastProcessingTime == old(lastProcessingTime)
    {
      RefreshKeepsRosterValid(coachesCache, cached, api);
      written := [];
      if cached != [] {
        if AllValid(cached) {
          coachesCache := cached;
          lastCoachRefresh := now;
        } else if coachesCache == [] {
          coachesCache := MockCoaches;
        }
      } else {
        var fetched := FetchCoachesFromApi(api);
        coachesCache := fetched;
        written := WriteBack(fetched);
        lastCoachRefresh := now;
      }
    }

    /** The active coaches, after a refresh if one is due. */
    method GetAvailableCoaches(now: real, cached: seq<CoachProfile>, api: ApiResponse)
      returns (coaches: seq<CoachProfile>, written: seq<CoachProfile>)
      requires Valid()
      modifies this
      ensures Valid()
      ensures RosterStep(coachesCache, lastCoachRefresh, written)
              == NextRoster(old(coachesCache), old(lastCoachRefresh), config.refreshCoachDataInterval, now, cached, api)
      ensures coaches == ActiveCoaches(coachesCache) && AllValid(coaches)
      ensures statsLog == old(statsLog) && resultCache == old(resultCache)
      ensures totalRequestsProcessed == old(totalRequestsProcessed)
      ensures totalMatchesGenerated == old(totalMatchesGenerated)
      ensures averageProcessingTime == old(averageProcessingTime)
      ensures lastProcessingTime == old(lastProcessingTime)
    {
      if ShouldRefreshCoaches(now) {
        written := RefreshCoachData(now, cached, api);
      } else {
        written := [];
      }
      coaches := ActiveCoaches(coachesCache);
      ActiveCoachesMembers(coachesCache);
    }

    /** Counts one processed request and folds its time into the running mean. */
    method UpdateStatistics(totalCoaches: int, matchesFound: int, processingTime: int)
      requires Valid()
      modifies this
      ensures Valid()
      ensures statsLog == old(statsLog) + [ProcessingStats(totalCoaches, matchesFound, processingTime, algorithmVersion)]
      ensures totalRequestsProcessed == old(totalRequestsProcessed) + 1
      ensures totalMatchesGenerated == old(totalMatchesGenerated) + matchesFound
      ensures coachesCache == old(coachesCache) && lastCoachRefresh == old(lastCoachRefresh)
      ensures resultCache == old(resultCache) && lastProcessingTime == old(lastProcessingTime)
    {
      var entry := ProcessingStats(totalCoaches, matchesFound, processingTime, algorithmVersion);
      assert (statsLog + [entry])[..|statsLog|] == statsLog;
      totalRequestsProcessed := totalRequestsProcessed + 1;
      totalMatchesGenerated := totalMatchesGenerated + matchesFound;
      MeanStep(statsLog, entry, averageProcessingTime, totalRequestsProcessed - 1, totalRequestsProcessed, processingTime);
      averageProcessingTime :=
        (averageProcessingTime * (totalRequestsProcessed - 1) as real + processingTime as real)
        / totalRequestsProcessed as real;
      statsLog := statsLog + [entry];
    }

    method CacheResults(requestId: string, results: seq<MatchResult>)
      modifies this
      ensures resultCache == old(resultCache)[requestId := CachedResults(results, algorithmVersion)]
      ensures statsLog == old(statsLog) && coachesCache == old(coachesCache)
      ensures lastCoachRefresh == old(lastCoachRefresh) && lastProcessingTime == old(lastProcessingTime)
      ensures totalRequestsProcessed == old(totalRequestsProcessed)
      ensures totalMatchesGenerated == old(totalMatchesGenerated)
      ensures averageProcessingTime == old(averageProcessingTime)
    {
      resultCache := resultCache[requestId := CachedResults(results, algorithmVersion)];
    }

    /** Ranks the available coaches for one request. When no coach is
        available or none passes the hard filter it returns no result and
        records nothing; otherwise it records the statistics and caches the
        ranking. `processingTime` is the elapsed time the clock would give. */
    method FindMatches(request: MatchingRequest, now: real, cached: seq<CoachProfile>,
                       api: ApiResponse, processingTime: int)
      returns (results: seq<MatchResult>, written: seq<CoachProfile>)
      requires Valid()
      modifies this
      ensures Valid()
      ensures RosterStep(coachesCache, lastCoachRefresh, written)
              == NextRoster(old(coachesCache), old(lastCoachRefresh), config.refreshCoachDataInterval, now, cached, api)
      ensures results == RankMatches(ActiveCoaches(coachesCache), request, weights, config)
      ensures HardFilter(ActiveCoaches(coachesCache), request) == [] ==>
                && statsLog == old(statsLog) && resultCache == old(resultCache)
                && lastProcessingTime == old(lastProcessingTime)
      ensures HardFilter(ActiveCoaches(coachesCache), request) != [] ==>
                && statsLog == old(statsLog)
                   + [ProcessingStats(|ActiveCoaches(coachesCache)|, |results|, processingTime, algorithmVersion)]
                && resultCache == old(resultCache)[request.requestId := CachedResults(results, algorithmVersion)]
                && lastProcessingTime == processingTime
    {
      var coaches;
      coaches, written := GetAvailableCoaches(now, cached, api);
      if coaches == [] {
        return [], written;
      }
      var filtered := ApplyHardFilters(coaches, request);
      if filtered == [] {
        return [], written;
      }
      var matchResults := ScoreAll(filtered, request, weights, config.minMatchScore);
      results := Take(SortDesc(matchResults, MatchScoreOf), config.maxMatchesPerRequest);
      lastProcessingTime := processingTime;
      UpdateStatistics(|coaches|, |results|, processingTime);
      CacheResults(request.requestId, results);
    }
  }
}
