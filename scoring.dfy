/** The hard filter and the scorer of the matching engine: the binary
    keep/drop rules, the five sub-scores (skill, experience, availability,
    price, rating), their weighted combination, and the derived fields of a
    match result (matching and missing skills, overlap ratio, price
    difference, confidence and the recommendation reason). */
module Scoring {
  import opened Wrappers
  import opened Text
  import opened RequestModels
  import opened Settings

  function Min(a: real, b: real): real {
    if a <= b then a else b
  }

  function Max(a: real, b: real): real {
    if a >= b then a else b
  }

  // ---------------------------------------------------------------- hard filter

  /** The budget ceiling is tested for truthiness: absent or 0 means none. */
  predicate HasCeiling(r: MatchingRequest) {
    r.budgetConstraints.maxHourlyRate.Some? && r.budgetConstraints.maxHourlyRate.value != 0.0
  }

  function Ceiling(r: MatchingRequest): real
    requires HasCeiling(r)
  {
    r.budgetConstraints.maxHourlyRate.value
  }

  function RequestDays(r: MatchingRequest): set<int> {
    set d | d in r.availabilityRequirements.daysOfWeek
  }

  function CoachDays(c: CoachProfile): set<int> {
    set a | a in c.availability :: a.dayOfWeek
  }

  /** Some requested weekday is one of the coach's weekdays. */
  predicate HasAvailabilityOverlap(c: CoachProfile, r: MatchingRequest) {
    RequestDays(r) * CoachDays(c) != {}
  }

  /** Some preferred language is, exactly, one the coach speaks. */
  predicate SpeaksPreferredLanguage(c: CoachProfile, r: MatchingRequest) {
    exists lang :: lang in r.preferredLanguages && lang in c.languages
  }

  /** The five hard constraints; violating any one drops the coach. */
  predicate PassesHardFilters(c: CoachProfile, r: MatchingRequest) {
    && r.sessionType in c.sessionTypes
    && !(HasCeiling(r) && c.hourlyRate > Ceiling(r))
    && c.maxParticipants >= r.participantsCount
    && SpeaksPreferredLanguage(c, r)
    && HasAvailabilityOverlap(c, r)
  }

  /** The coaches that pass, in their input order. */
  function HardFilter(coaches: seq<CoachProfile>, r: MatchingRequest): seq<CoachProfile> {
    if coaches == [] then []
    else HardFilter(coaches[..|coaches| - 1], r)
         + (if PassesHardFilters(coaches[|coaches| - 1], r) then [coaches[|coaches| - 1]] else [])
  }

  /** Checks each coach against the constraints in turn, skipping it at the
      first one it violates. */
  method ApplyHardFilters(coaches: seq<CoachProfile>, request: MatchingRequest)
    returns (filtered: seq<CoachProfile>)
    ensures filtered == HardFilter(coaches, request)
  {
    filtered := [];
    for i := 0 to |coaches|
      invariant filtered == HardFilter(coaches[..i], request)
    {
      assert coaches[..i + 1][..i] == coaches[..i];
      var coach := coaches[i];
      if request.sessionType !in coach.sessionTypes {
        continue;
      }
      if HasCeiling(request) && coach.hourlyRate > Ceiling(request) {
        continue;
      }
      if coach.maxParticipants < request.participantsCount {
        continue;
      }
      if !SpeaksPreferredLanguage(coach, request) {
        continue;
      }
      if !HasAvailabilityOverlap(coach, request) {
        continue;
      }
      filtered := filtered + [coach];
    }
    assert coaches[..|coaches|] == coaches;
  }

  /** A coach survives iff it is in the input and passes every constraint. */
  lemma {:induction false} HardFilterMembers(coaches: seq<CoachProfile>, r: MatchingRequest)
    ensures forall c :: c in HardFilter(coaches, r) <==> c in coaches && PassesHardFilters(c, r)
  {
    if coaches != [] {
      var init := coaches[..|coaches| - 1];
      HardFilterMembers(init, r);
      assert coaches == init + [coaches[|coaches| - 1]];
    }
  }

  /** Filtering distributes over concatenation, so survivors keep their
      relative input order. */
  lemma {:induction false} HardFilterAppend(a: seq<CoachProfile>, b: seq<CoachProfile>, r: MatchingRequest)
    ensures HardFilter(a + b, r) == HardFilter(a, r) + HardFilter(b, r)
  {
    if b == [] {
      assert a + b == a;
    } else {
      var init := b[..|b| - 1];
      assert (a + b)[..|a + b| - 1] == a + init;
      HardFilterAppend(a, init, r);
    }
  }

  /** A request with no weekdays drops every coach. */
  lemma {:induction false} NoRequestedDaysDropsAll(coaches: seq<CoachProfile>, r: MatchingRequest)
    requires r.availabilityRequirements.daysOfWeek == []
    ensures HardFilter(coaches, r) == []
  {
    if coaches != [] {
      NoRequestedDaysDropsAll(coaches[..|coaches| - 1], r);
      assert RequestDays(r) == {};
    }
  }

  /** If every coach passing `r2` also passes `r1`, filtering by `r2` keeps
      no more coaches than filtering by `r1`. */
  lemma {:induction false} HardFilterMonotone(coaches: seq<CoachProfile>, r1: MatchingRequest, r2: MatchingRequest)
    requires forall c :: PassesHardFilters(c, r2) ==> PassesHardFilters(c, r1)
    ensures |HardFilter(coaches, r2)| <= |HardFilter(coaches, r1)|
  {
    if coaches != [] {
      HardFilterMonotone(coaches[..|coaches| - 1], r1, r2);
    }
  }

  /** Imposing a ceiling, or lowering one, never lets more coaches through. */
  lemma StricterCeilingKeepsFewer(coaches: seq<CoachProfile>, r: MatchingRequest, m: real)
    requires m > 0.0
    requires HasCeiling(r) ==> m <= Ceiling(r)
    ensures var stricter := r.(budgetConstraints := r.budgetConstraints.(maxHourlyRate := Some(m)));
            |HardFilter(coaches, stricter)| <= |HardFilter(coaches, r)|
  {
    var stricter := r.(budgetConstraints := r.budgetConstraints.(maxHourlyRate := Some(m)));
    assert RequestDays(stricter) == RequestDays(r);
    forall c | PassesHardFilters(c, stricter)
      ensures PassesHardFilters(c, r)
    {
      assert SpeaksPreferredLanguage(c, r);
    }
    HardFilterMonotone(coaches, r, stricter);
  }

  // ---------------------------------------------------------------- skill score

  /** Tier of an expertise level when comparing a coach's skill to a requirement. */
  function LevelTier(l: ExpertiseLevel): int {
    match l
    case Beginner => 1
    case Intermediate => 2
    case Expert => 3
    case Master => 4
  }

  /** 1.0 when the coach's tier meets the required tier, otherwise the
      fraction of the required tier the coach reaches. */
  function SkillLevelMatch(coachLevel: ExpertiseLevel, requiredLevel: ExpertiseLevel): (r: real)
    ensures 0.0 < r <= 1.0
    ensures r == 1.0 <==> LevelTier(coachLevel) >= LevelTier(requiredLevel)
  {
    var c, q := LevelTier(coachLevel), LevelTier(requiredLevel);
    if c >= q then 1.0 else c as real / q as real
  }

  predicate SameSkillName(a: string, b: string) {
    Lower(a) == Lower(b)
  }

  /** Position of the first coach skill whose name equals `name` up to case. */
  function FirstSkillIndex(skills: seq<CoachSkill>, name: string): (r: Option<nat>)
    ensures r.Some? ==> r.value < |skills| && SameSkillName(skills[r.value].name, name)
    ensures r.Some? ==> forall j :: 0 <= j < r.value ==> !SameSkillName(skills[j].name, name)
    ensures r.None? <==> forall j :: 0 <= j < |skills| ==> !SameSkillName(skills[j].name, name)
  {
    if skills == [] then None
    else if SameSkillName(skills[0].name, name) then Some(0)
    else match FirstSkillIndex(skills[1..], name)
      case None => None
      case Some(k) => Some(k + 1)
  }

  /** The first matching coach skill, if any. */
  function FindCoachSkill(c: CoachProfile, name: string): Option<CoachSkill> {
    match FirstSkillIndex(c.skills, name)
    case None => None
    case Some(k) => Some(c.skills[k])
  }

  predicate HasSkill(c: CoachProfile, name: string) {
    FindCoachSkill(c, name).Some?
  }

  /** Score of a found skill: the level match plus up to 0.2 for years, capped at 1. */
  function FoundSkillScore(cs: CoachSkill, req: SkillRequirement): (r: real)
    ensures r <= 1.0
    ensures ValidCoachSkill(cs) ==> r > 0.0
    ensures ValidCoachSkill(cs) && LevelTier(cs.level) >= LevelTier(req.level) ==> r == 1.0
  {
    var levelScore := SkillLevelMatch(cs.level, req.level);
    var expBonus := Min(cs.yearsExperience as real / 5.0, 0.2);
    Min(levelScore + expBonus, 1.0)
  }

  /** What one requirement adds to the weighted skill sum. */
  function SkillContribution(c: CoachProfile, req: SkillRequirement): real {
    match FindCoachSkill(c, req.name)
    case Some(cs) => FoundSkillScore(cs, req) * req.weight
    case None => if req.mandatory then -0.5 * req.weight else 0.0
  }

  /** A missing mandatory skill costs half its weight, a missing optional
      skill nothing, and a found skill of a valid coach earns between none
      and all of its (non-negative) weight. */
  lemma SkillContributionBounds(c: CoachProfile, req: SkillRequirement)
    ensures !HasSkill(c, req.name) && req.mandatory ==> SkillContribution(c, req) == -0.5 * req.weight
    ensures !HasSkill(c, req.name) && !req.mandatory ==> SkillContribution(c, req) == 0.0
    ensures HasSkill(c, req.name) && req.weight >= 0.0
            && (forall i :: 0 <= i < |c.skills| ==> ValidCoachSkill(c.skills[i]))
            ==> 0.0 <= SkillContribution(c, req) <= req.weight
  {
    if HasSkill(c, req.name) {
      var s := FoundSkillScore(FindCoachSkill(c, req.name).value, req);
      FoundContribution(c, req, s);
      FoundScoreInUnitInterval(c, req);
      ScaledByWeight(s, req.weight);
    }
  }

  lemma FoundScoreInUnitInterval(c: CoachProfile, req: SkillRequirement)
    requires HasSkill(c, req.name)
    ensures (forall i :: 0 <= i < |c.skills| ==> ValidCoachSkill(c.skills[i]))
            ==> 0.0 <= FoundSkillScore(FindCoachSkill(c, req.name).value, req) <= 1.0
  {
    FoundSkillIsValid(c, req.name);
  }

  lemma FoundSkillIsValid(c: CoachProfile, name: string)
    ensures FindCoachSkill(c, name).Some? && (forall i :: 0 <= i < |c.skills| ==> ValidCoachSkill(c.skills[i]))
            ==> ValidCoachSkill(FindCoachSkill(c, name).value)
  {
  }

  lemma ScaledByWeight(s: real, w: real)
    ensures 0.0 <= s <= 1.0 && w >= 0.0 ==> 0.0 <= s * w <= w
  {
    if 0.0 <= s <= 1.0 && w >= 0.0 {
      assert w - s * w == (1.0 - s) * w;
    }
  }

  function SkillSum(c: CoachProfile, reqs: seq<SkillRequirement>): real {
    if reqs == [] then 0.0
    else SkillSum(c, reqs[..|reqs| - 1]) + SkillContribution(c, reqs[|reqs| - 1])
  }

  function TotalWeight(reqs: seq<SkillRequirement>): real {
    if reqs == [] then 0.0 else TotalWeight(reqs[..|reqs| - 1]) + reqs[|reqs| - 1].weight
  }

  /** The skill sub-score: neutral 0.5 with no requirements or zero total
      weight, otherwise the weighted mean of the contributions, floored at 0. */
  function SkillScore(c: CoachProfile, r: MatchingRequest): (s: real)
    ensures r.skillsRequired == [] ==> s == 0.5
    ensures TotalWeight(r.skillsRequired) == 0.0 ==> s == 0.5
    ensures r.skillsRequired != [] && TotalWeight(r.skillsRequired) != 0.0 ==> s >= 0.0
  {
    var reqs := r.skillsRequired;
    if reqs == [] then 0.5
    else
      var total := TotalWeight(reqs);
      if total == 0.0 then 0.5 else Max(SkillSum(c, reqs) / total, 0.0)
  }

  predicate WeightsNonNegative(reqs: seq<SkillRequirement>) {
    forall i :: 0 <= i < |reqs| ==> reqs[i].weight >= 0.0
  }

  /** Each contribution lies between -0.5 w and w, so the sum lies between
      -0.5 and 1 times the total weight. */
  lemma {:induction false} SkillSumBounds(c: CoachProfile, reqs: seq<SkillRequirement>)
    requires WeightsNonNegative(reqs)
    requires forall i :: 0 <= i < |c.skills| ==> ValidCoachSkill(c.skills[i])
    ensures TotalWeight(reqs) >= 0.0
    ensures -0.5 * TotalWeight(reqs) <= SkillSum(c, reqs) <= TotalWeight(reqs)
  {
    if reqs != [] {
      var init, last := reqs[..|reqs| - 1], reqs[|reqs| - 1];
      assert WeightsNonNegative(init);
      SkillSumBounds(c, init);
      SkillContributionBounds(c, last);
      var x := SkillContribution(c, last);
      assert -0.5 * last.weight <= x <= last.weight;
    }
  }

  /** For a valid request and coach the skill sub-score lies in [0, 1]. */
  lemma SkillScoreInUnitInterval(c: CoachProfile, r: MatchingRequest)
    requires ValidRequest(r) && ValidCoachProfile(c)
    ensures UnitInterval(SkillScore(c, r))
  {
    var reqs := r.skillsRequired;
    assert WeightsNonNegative(reqs) by {
      forall i | 0 <= i < |reqs| ensures reqs[i].weight >= 0.0 {
        assert ValidSkillRequirement(reqs[i]);
      }
    }
    SkillSumBounds(c, reqs);
    var total := TotalWeight(reqs);
    if reqs != [] && total != 0.0 {
      var sum := SkillSum(c, reqs);
      RatioAtMostOne(sum, total);
    }
  }

  lemma RatioAtMostOne(sum: real, total: real)
    requires total > 0.0 && sum <= total
    ensures 0.0 <= Max(sum / total, 0.0) <= 1.0
  {
    DivideKeepsOrder(sum, total, total);
    assert total / total == 1.0;
  }

  lemma FoundContribution(c: CoachProfile, req: SkillRequirement, skillScore: real)
    requires FindCoachSkill(c, req.name).Some?
    requires skillScore == FoundSkillScore(FindCoachSkill(c, req.name).value, req)
    ensures SkillContribution(c, req) == skillScore * req.weight
  {
  }

  lemma SkillSumStep(c: CoachProfile, reqs: seq<SkillRequirement>, i: nat)
    requires i < |reqs|
    ensures SkillSum(c, reqs[..i + 1]) == SkillSum(c, reqs[..i]) + SkillContribution(c, reqs[i])
  {
    assert reqs[..i + 1][..i] == reqs[..i];
  }

  /** Accumulates the weighted skill sum over the requirements in order. */
  method AccumulateSkillSum(c: CoachProfile, reqs: seq<SkillRequirement>) returns (sum: real)
    ensures sum == SkillSum(c, reqs)
  {
    sum := 0.0;
    for i := 0 to |reqs|
      invariant sum == SkillSum(c, reqs[..i])
    {
      var req := reqs[i];
      SkillSumStep(c, reqs, i);
      var found := FindCoachSkill(c, req.name);
      if found.Some? {
        var skillScore := FoundSkillScore(found.value, req);
        FoundContribution(c, req, skillScore);
        sum := sum + skillScore * req.weight;
      } else if req.mandatory {
        sum := sum - 0.5 * req.weight;
      }
    }
    assert reqs[..|reqs|] == reqs;
  }

  /** The skill sub-score, accumulating the sum by a loop. */
  method CalculateSkillScore(c: CoachProfile, request: MatchingRequest) returns (score: real)
    ensures score == SkillScore(c, request)
  {
    var reqs := request.skillsRequired;
    if reqs == [] {
      return 0.5;
    }
    var total := TotalWeight(reqs);
    if total == 0.0 {
      return 0.5;
    }
    var sum := AccumulateSkillSum(c, reqs);
    score := Max(sum / total, 0.0);
  }

  // ---------------------------------------------------------------- experience score

  /** Years of experience each minimum level asks for. */
  function RequiredYears(l: ExpertiseLevel): int {
    match l
    case Beginner => 1
    case Intermediate => 3
    case Expert => 6
    case Master => 10
  }

  /** Full marks at or above the required years (the extra-years bonus is
      capped away), otherwise the fraction of the required years reached. */
  function ExperienceScore(c: CoachProfile, r: MatchingRequest): (s: real)
    ensures s == 1.0 <==> c.totalExperienceYears >= RequiredYears(r.experienceLevel)
    ensures c.totalExperienceYears >= 0 ==> UnitInterval(s)
  {
    var required := RequiredYears(r.experienceLevel);
    var years := c.totalExperienceYears;
    if years >= required then
      var bonus := Min((years - required) as real / 10.0, 0.3);
      Min(1.0 + bonus, 1.0)
    else
      years as real / required as real
  }

  // ---------------------------------------------------------------- availability score

  lemma {:induction false} SubsetCardinality<T>(a: set<T>, b: set<T>)
    requires a <= b
    ensures |a| <= |b|
    decreases |b|
  {
    if a != {} {
      var x :| x in a;
      SubsetCardinality(a - {x}, b - {x});
    }
  }

  /** Share of the requested weekdays the coach covers. */
  function OverlapRatio(c: CoachProfile, r: MatchingRequest): (o: real)
    requires RequestDays(r) != {}
    ensures UnitInterval(o)
    ensures o > 0.0 <==> HasAvailabilityOverlap(c, r)
  {
    var overlap := RequestDays(r) * CoachDays(c);
    SubsetCardinality(overlap, RequestDays(r));
    OverlapFraction(|overlap|, |RequestDays(r)|);
    |overlap| as real / |RequestDays(r)| as real
  }

  lemma OverlapFraction(k: nat, n: nat)
    requires 0 < n && k <= n
    ensures 0.0 <= k as real / n as real <= 1.0
    ensures k as real / n as real > 0.0 <==> k > 0
  {
    FractionInUnitInterval(k as real, n as real);
    SignOfFraction(k as real, n as real);
  }

  lemma NonEmptyDays(r: MatchingRequest)
    ensures RequestDays(r) == {} <==> r.availabilityRequirements.daysOfWeek == []
  {
    var days := r.availabilityRequirements.daysOfWeek;
    if days != [] {
      assert days[0] in RequestDays(r);
    }
  }

  /** Neutral 0.5 when either side lists no availability, 0 when no weekday
      is shared, otherwise the overlap ratio plus a flexibility bonus. */
  function AvailabilityScore(c: CoachProfile, r: MatchingRequest): (s: real)
    ensures c.availability == [] || r.availabilityRequirements.daysOfWeek == [] ==> s == 0.5
    ensures c.availability != [] && r.availabilityRequirements.daysOfWeek != []
            ==> (!HasAvailabilityOverlap(c, r) ==> s == 0.0)
    ensures c.availability != [] && HasAvailabilityOverlap(c, r) && r.availabilityRequirements.flexibility >= 0.0
            ==> s > 0.0
    ensures UnitInterval(r.availabilityRequirements.flexibility) ==> UnitInterval(s)
  {
    var days := r.availabilityRequirements.daysOfWeek;
    NonEmptyDays(r);
    if c.availability == [] || days == [] then 0.5
    else
      var overlap := RequestDays(r) * CoachDays(c);
      if overlap == {} then 0.0
      else Min(OverlapRatio(c, r) + r.availabilityRequirements.flexibility * 0.2, 1.0)
  }

  /** The overlap ratio reported with a result; 0 when no weekday is requested. */
  function AvailabilityOverlap(c: CoachProfile, r: MatchingRequest): (o: real)
    ensures UnitInterval(o)
    ensures r.availabilityRequirements.daysOfWeek == [] ==> o == 0.0
    ensures o > 0.0 <==> HasAvailabilityOverlap(c, r)
  {
    NonEmptyDays(r);
    if r.availabilityRequirements.daysOfWeek == [] then 0.0
    else if RequestDays(r) != {} then OverlapRatio(c, r)
    else 0.0
  }

  // ---------------------------------------------------------------- price score

  lemma SignOfFraction(a: real, m: real)
    ensures m > 0.0 ==> (a / m > 0.0 <==> a > 0.0)
  {
    if m > 0.0 {
      DivideKeepsOrder(a, 0.0, m);
    }
  }

  /** Neutral 0.5 without a ceiling; 1.0 at or below 80% of the ceiling, 0.8
      up to the ceiling; below 0.5, shrinking with the overage, above it. */
  function PriceScore(c: CoachProfile, r: MatchingRequest): (s: real)
    ensures !HasCeiling(r) ==> s == 0.5
    ensures HasCeiling(r) && c.hourlyRate <= Ceiling(r)
            ==> (s == 1.0 <==> c.hourlyRate <= Ceiling(r) * 0.8) && (s == 1.0 || s == 0.8)
    ensures HasCeiling(r) && Ceiling(r) > 0.0 && c.hourlyRate > Ceiling(r) ==> 0.0 <= s < 0.5
    ensures ValidBudget(r.budgetConstraints) ==> UnitInterval(s)
  {
    if !HasCeiling(r) then 0.5
    else
      var maxRate := Ceiling(r);
      var rate := c.hourlyRate;
      if rate <= maxRate then
        if rate <= maxRate * 0.8 then 1.0 else 0.8
      else
        var overage := (rate - maxRate) / maxRate;
        SignOfFraction(rate - maxRate, maxRate);
        Max(0.0, 0.5 - overage)
  }

  /** Signed distance of the rate from the ceiling, in percent of the ceiling. */
  function PriceDifferencePercent(c: CoachProfile, r: MatchingRequest): (d: real)
    ensures !HasCeiling(r) ==> d == 0.0
    ensures HasCeiling(r) && Ceiling(r) > 0.0 ==> (d <= 0.0 <==> c.hourlyRate <= Ceiling(r))
  {
    if !HasCeiling(r) then 0.0
    else
      var maxRate := Ceiling(r);
      SignOfFraction(c.hourlyRate - maxRate, maxRate);
      ((c.hourlyRate - maxRate) / maxRate) * 100.0
  }

  // ---------------------------------------------------------------- rating score

  /** Neutral 0.5 for an unrated coach, otherwise the rating out of 5 plus
      bonuses for sessions (up to 0.2) and success rate (up to 0.1), capped at 1. */
  function RatingScore(c: CoachProfile): (s: real)
    ensures c.rating == 0.0 ==> s == 0.5
    ensures ValidCoachProfile(c) ==> UnitInterval(s)
    ensures ValidCoachProfile(c) && c.rating != 0.0 ==> s >= c.rating / 5.0
  {
    if c.rating == 0.0 then 0.5
    else
      var baseScore := c.rating / 5.0;
      var sessionBonus := Min(c.totalSessions as real / 100.0, 0.2);
      var successBonus := c.successRate * 0.1;
      Min(baseScore + sessionBonus + successBonus, 1.0)
  }

  // ---------------------------------------------------------------- derived fields

  function SkillNames(reqs: seq<SkillRequirement>): seq<string> {
    if reqs == [] then [] else SkillNames(reqs[..|reqs| - 1]) + [reqs[|reqs| - 1].name]
  }

  /** Names of the required skills the coach has, in requirement order. */
  function MatchingSkills(c: CoachProfile, reqs: seq<SkillRequirement>): seq<string> {
    if reqs == [] then []
    else MatchingSkills(c, reqs[..|reqs| - 1])
         + (if HasSkill(c, reqs[|reqs| - 1].name) then [reqs[|reqs| - 1].name] else [])
  }

  /** Names of the required skills the coach lacks, in requirement order. */
  function MissingSkills(c: CoachProfile, reqs: seq<SkillRequirement>): seq<string> {
    if reqs == [] then []
    else MissingSkills(c, reqs[..|reqs| - 1])
         + (if HasSkill(c, reqs[|reqs| - 1].name) then [] else [reqs[|reqs| - 1].name])
  }

  method GetMatchingSkills(c: CoachProfile, request: MatchingRequest) returns (names: seq<string>)
    ensures names == MatchingSkills(c, request.skillsRequired)
  {
    var reqs := request.skillsRequired;
    names := [];
    for i := 0 to |reqs|
      invariant names == MatchingSkills(c, reqs[..i])
    {
      assert reqs[..i + 1][..i] == reqs[..i];
      if FindCoachSkill(c, reqs[i].name).Some? {
        names := names + [reqs[i].name];
      }
    }
    assert reqs[..|reqs|] == reqs;
  }

  method GetMissingSkills(c: CoachProfile, request: MatchingRequest) returns (names: seq<string>)
    ensures names == MissingSkills(c, request.skillsRequired)
  {
    var reqs := request.skillsRequired;
    names := [];
    for i := 0 to |reqs|
      invariant names == MissingSkills(c, reqs[..i])
    {
      assert reqs[..i + 1][..i] == reqs[..i];
      if FindCoachSkill(c, reqs[i].name).None? {
        names := names + [reqs[i].name];
      }
    }
    assert reqs[..|reqs|] == reqs;
  }

  /** Matching and missing skills split the required names between them:
      together they hold every required name once, the first only names the
      coach has, the second only names it lacks. */
  lemma {:induction false} SkillsPartition(c: CoachProfile, reqs: seq<SkillRequirement>)
    ensures multiset(MatchingSkills(c, reqs)) + multiset(MissingSkills(c, reqs)) == multiset(SkillNames(reqs))
    ensures |MatchingSkills(c, reqs)| + |MissingSkills(c, reqs)| == |reqs|
    ensures forall n :: n in MatchingSkills(c, reqs) ==> HasSkill(c, n)
    ensures forall n :: n in MissingSkills(c, reqs) ==> !HasSkill(c, n)
  {
    if reqs != [] {
      SkillsPartition(c, reqs[..|reqs| - 1]);
    }
  }

  /** Mean of the skill, experience and availability sub-scores, plus 0.1
      for more than 20 sessions and 0.1 for a rating above 4.5, capped at 1. */
  function ConfidenceLevel(skill: real, experience: real, availability: real, c: CoachProfile): (r: real)
    ensures r <= 1.0
    ensures skill >= 0.0 && experience >= 0.0 && availability >= 0.0 ==> r >= 0.0
    ensures (skill + experience + availability) / 3.0 <= 1.0 ==> r >= (skill + experience + availability) / 3.0
    ensures c.totalSessions <= 20 && c.rating <= 4.5 ==> r == Min((skill + experience + availability) / 3.0, 1.0)
  {
    var base := (skill + experience + availability) / 3.0;
    var withSessions := if c.totalSessions > 20 then base + 0.1 else base;
    var withRating := if c.rating > 4.5 then withSessions + 0.1 else withSessions;
    Min(withRating, 1.0)
  }

  const FallbackReason := "meets basic requirements"

  /** The reasons triggered by the score thresholds, in a fixed order, or the
      fallback reason when none is triggered. */
  function ReasonParts(c: CoachProfile, skill: real, experience: real, rating: real): (parts: seq<string>)
    ensures |parts| >= 1
    ensures parts == [FallbackReason]
            <==> skill <= 0.6 && experience <= 0.8 && rating <= 0.8 && c.totalSessions <= 50
    ensures "excellent skill match" in parts <==> skill > 0.8
    ensures "good skill alignment" in parts <==> 0.6 < skill <= 0.8
    ensures "extensive experience" in parts <==> experience > 0.8
    ensures "highly rated" in parts <==> rating > 0.8
    ensures "proven track record" in parts <==> c.totalSessions > 50
  {
    var skillPart := if skill > 0.8 then ["excellent skill match"]
                     else if skill > 0.6 then ["good skill alignment"] else [];
    var expPart := if experience > 0.8 then ["extensive experience"] else [];
    var ratingPart := if rating > 0.8 then ["highly rated"] else [];
    var sessionPart := if c.totalSessions > 50 then ["proven track record"] else [];
    var reasons := skillPart + expPart + ratingPart + sessionPart;
    assert reasons != [] ==> reasons[0][0] != FallbackReason[0];
    if reasons == [] then [FallbackReason] else reasons
  }

  const RecommendationPrefix := "Recommended for "

  /** The reasons joined by ", " after a fixed lead-in. */
  function RecommendationReason(c: CoachProfile, skill: real, experience: real, rating: real): (r: string)
    ensures |r| > |RecommendationPrefix| && r[..|RecommendationPrefix|] == RecommendationPrefix
    ensures r[|RecommendationPrefix|..] == Join(ReasonParts(c, skill, experience, rating), ", ")
  {
    RecommendationPrefix + Join(ReasonParts(c, skill, experience, rating), ", ")
  }

  // ---------------------------------------------------------------- combined score

  function WeightedSum(skill: real, experience: real, availability: real, price: real, rating: real, w: Weights): real {
    skill * w.skills + experience * w.experience + availability * w.availability
    + price * w.price + rating * w.rating
  }

  /** The full result for one coach, before its bounds are validated. */
  function BuildMatchResult(c: CoachProfile, r: MatchingRequest, w: Weights): MatchResult {
    var skill := SkillScore(c, r);
    var experience := ExperienceScore(c, r);
    var availability := AvailabilityScore(c, r);
    var price := PriceScore(c, r);
    var rating := RatingScore(c);
    MatchResult(
      c,
      Min(WeightedSum(skill, experience, availability, price, rating, w), 1.0),
      skill, experience, availability, price, rating,
      MatchingSkills(c, r.skillsRequired),
      MissingSkills(c, r.skillsRequired),
      AvailabilityOverlap(c, r),
      PriceDifferencePercent(c, r),
      ConfidenceLevel(skill, experience, availability, c),
      RecommendationReason(c, skill, experience, rating))
  }

  const ResultOutOfBounds := "match result out of bounds"

  /** Scoring one coach: the built result, or a failure where constructing
      the result would reject a field outside its bounds. */
  function ScoreCoach(c: CoachProfile, r: MatchingRequest, w: Weights): (res: Result<MatchResult, string>)
    ensures res.Success? ==> ValidMatchResult(res.value) && res.value.coach == c
    ensures res.Failure? <==> !ValidMatchResult(BuildMatchResult(c, r, w))
  {
    var m := BuildMatchResult(c, r, w);
    if ValidMatchResult(m) then Success(m) else Failure(ResultOutOfBounds)
  }

  lemma WeightedSumInRange(s1: real, s2: real, s3: real, s4: real, s5: real, w: Weights)
    requires UnitInterval(s1) && UnitInterval(s2) && UnitInterval(s3) && UnitInterval(s4) && UnitInterval(s5)
    requires NonNegative(w)
    ensures WeightedSum(s1, s2, s3, s4, s5, w) >= 0.0
  {
    var l := AsList(w);
    assert l[0] >= 0.0 && l[1] >= 0.0 && l[2] >= 0.0 && l[3] >= 0.0 && l[4] >= 0.0;
    ScaledByWeight(s1, w.skills);
    ScaledByWeight(s2, w.experience);
    ScaledByWeight(s3, w.availability);
    ScaledByWeight(s4, w.price);
    ScaledByWeight(s5, w.rating);
  }

  /** With a valid coach and request and non-negative weights, scoring never
      fails: every sub-score, the overlap, the confidence and the overall
      score land in [0, 1]. */
  lemma ScoreCoachSucceeds(c: CoachProfile, r: MatchingRequest, w: Weights)
    requires ValidCoachProfile(c) && ValidRequest(r) && NonNegative(w)
    ensures ScoreCoach(c, r, w).Success?
  {
    SkillScoreInUnitInterval(c, r);
    var skill := SkillScore(c, r);
    var experience := ExperienceScore(c, r);
    var availability := AvailabilityScore(c, r);
    var price := PriceScore(c, r);
    var rating := RatingScore(c);
    WeightedSumInRange(skill, experience, availability, price, rating, w);
    var m := BuildMatchResult(c, r, w);
    assert UnitInterval(m.confidenceLevel);
  }

  /** Scores one coach, computing the skill score and skill lists by their loops. */
  method CalculateMatchScore(c: CoachProfile, request: MatchingRequest, w: Weights)
    returns (res: Result<MatchResult, string>)
    ensures res == ScoreCoach(c, request, w)
  {
    var skill := CalculateSkillScore(c, request);
    var experience := ExperienceScore(c, request);
    var availability := AvailabilityScore(c, request);
    var price := PriceScore(c, request);
    var rating := RatingScore(c);
    var overall := WeightedSum(skill, experience, availability, price, rating, w);
    var matching := GetMatchingSkills(c, request);
    var missing := GetMissingSkills(c, request);
    var m := MatchResult(
      c, Min(overall, 1.0),
      skill, experience, availability, price, rating,
      matching, missing,
      AvailabilityOverlap(c, request),
      PriceDifferencePercent(c, request),
      ConfidenceLevel(skill, experience, availability, c),
      RecommendationReason(c, skill, experience, rating));
    if ValidMatchResult(m) {
      res := Success(m);
    } else {
      res := Failure(ResultOutOfBounds);
    }
  }
}
