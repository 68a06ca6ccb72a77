/** The older standalone scorer: expertise by case-insensitive substring
    matching, experience by the digits in free-text strings, rating out of
    5, a weighted final score floored at 0.3, and one match per stored coach
    ranked by rounded score. The coach store is a sequence of coaches; match
    ids and creation times, which come from the clock, are not modelled. */
module LegacyMatching {
  import opened Wrappers
  import opened Text
  import opened Ranking

  datatype LegacyCoach = LegacyCoach(
    id: string,
    name: string,
    expertise: seq<string>,
    experience: string,
    rating: real,
    bio: string,
    hourlyRate: real,
    availability: string)

  /** A request as received; a field is `None` when its key is absent. */
  datatype LegacyRequest = LegacyRequest(
    id: Option<string>,
    expertise: Option<seq<string>>,
    experience: Option<string>)

  datatype LegacyMatch = LegacyMatch(
    coachId: string,
    requestId: string,
    matchScore: real,
    reason: string,
    coach: LegacyCoach,
    expertiseScore: real,
    experienceScore: real,
    ratingScore: real)

  // ---------------------------------------------------------------- expertise

  /** One skill names the other: either lower-cased string contains the other. */
  predicate SkillsAlign(required: string, offered: string) {
    Contains(Lower(offered), Lower(required)) || Contains(Lower(required), Lower(offered))
  }

  predicate Covered(required: string, offered: seq<string>) {
    exists o :: o in offered && SkillsAlign(required, o)
  }

  /** How many required skills some offered skill aligns with. */
  function CoveredCount(offered: seq<string>, required: seq<string>): (n: nat)
    ensures n <= |required|
  {
    if required == [] then 0
    else CoveredCount(offered, required[..|required| - 1])
         + (if Covered(required[|required| - 1], offered) then 1 else 0)
  }

  /** 0.3 when either list is empty, otherwise the covered share of the
      required skills. */
  function ExpertiseScore(offered: seq<string>, required: seq<string>): (r: real)
    ensures required == [] || offered == [] ==> r == 0.3
    ensures 0.0 <= r <= 1.0
  {
    if required == [] || offered == [] then 0.3
    else
      var share := CoveredCount(offered, required) as real / |required| as real;
      CoveredShare(CoveredCount(offered, required), |required|);
      if share <= 1.0 then share else 1.0
  }

  lemma CoveredShare(k: nat, n: nat)
    requires 0 < n && k <= n
    ensures 0.0 <= k as real / n as real <= 1.0
    ensures k as real / n as real == 1.0 <==> k == n
    ensures k as real / n as real == 0.0 <==> k == 0
  {
    assert (k as real / n as real) * n as real == k as real;
  }

  /** Full marks exactly when every required skill is covered, none when no
      required skill is (both lists non-empty). */
  lemma {:induction false} ExpertiseScoreExtremes(offered: seq<string>, required: seq<string>)
    requires required != [] && offered != []
    ensures ExpertiseScore(offered, required) == 1.0 <==> forall i :: 0 <= i < |required| ==> Covered(required[i], offered)
    ensures ExpertiseScore(offered, required) == 0.0 <==> forall i :: 0 <= i < |required| ==> !Covered(required[i], offered)
  {
    CoveredCountExtremes(offered, required);
    var k, n := CoveredCount(offered, required), |required|;
    CoveredShare(k, n);
    assert ExpertiseScore(offered, required) == k as real / n as real;
  }

  lemma {:induction false} CoveredCountExtremes(offered: seq<string>, required: seq<string>)
    ensures CoveredCount(offered, required) == |required| <==> forall i :: 0 <= i < |required| ==> Covered(required[i], offered)
    ensures CoveredCount(offered, required) == 0 <==> forall i :: 0 <= i < |required| ==> !Covered(required[i], offered)
  {
    if required != [] {
      var init := required[..|required| - 1];
      CoveredCountExtremes(offered, init);
      assert forall i :: 0 <= i < |init| ==> init[i] == required[i];
    }
  }

  /** Counts the required skills that some offered skill aligns with,
      stopping the inner scan at the first alignment. */
  method CalculateExpertiseScore(offered: seq<string>, required: seq<string>) returns (score: real)
    ensures score == ExpertiseScore(offered, required)
  {
    if required == [] || offered == [] {
      return 0.3;
    }
    var matches := 0;
    for i := 0 to |required|
      invariant matches == CoveredCount(offered, required[..i])
    {
      assert required[..i + 1][..i] == required[..i];
      ghost var before := matches;
      for j := 0 to |offered|
        invariant matches == before
        invariant forall k :: 0 <= k < j ==> !SkillsAlign(required[i], offered[k])
      {
        if SkillsAlign(required[i], offered[j]) {
          matches := matches + 1;
          break;
        }
      }
    }
    assert required[..|required|] == required;
    var share := matches as real / |required| as real;
    score := if share <= 1.0 then share else 1.0;
  }

  // ---------------------------------------------------------------- experience

  /** Years required: the digits of the level, or 5 for an empty level;
      `None` where the level has no digit. */
  function RequiredYearsOf(requiredLevel: string): Option<nat> {
    if requiredLevel == "" then Some(5) else ParseDigits(requiredLevel)
  }

  /** 0.5 when either string cannot be parsed; otherwise 1.0 at or above the
      required years and the fraction of them below. */
  function ExperienceScore(coachExperience: string, requiredLevel: string): (r: real)
    ensures ParseDigits(coachExperience).None? || RequiredYearsOf(requiredLevel).None? ==> r == 0.5
    ensures 0.0 <= r <= 1.0
    ensures r == 1.0 <==> ParseDigits(coachExperience).Some? && RequiredYearsOf(requiredLevel).Some?
                          && ParseDigits(coachExperience).value >= RequiredYearsOf(requiredLevel).value
  {
    match ParseDigits(coachExperience)
    case None => 0.5
    case Some(coachYears) =>
      match RequiredYearsOf(requiredLevel)
      case None => 0.5
      case Some(requiredYears) =>
        if coachYears >= requiredYears then 1.0
        else
          CoveredShare(coachYears, requiredYears);
          coachYears as real / requiredYears as real
  }

  const DefaultExperience := "5+ years"

  /** The default requirement means five years, as an empty one does; a
      coach's "N+ years" reads as N. */
  lemma DefaultExperienceIsFiveYears(coachExperience: string, n: nat)
    ensures RequiredYearsOf(DefaultExperience) == Some(5)
    ensures ExperienceScore(coachExperience, DefaultExperience) == ExperienceScore(coachExperience, "")
    ensures ParseDigits(Decimal(n) + "+ years") == Some(n)
  {
    assert DefaultExperience == Decimal(5) + "+ years";
    assert DigitsOf("+ years") == [];
    DecimalThenTextParses(5, "+ years");
    DecimalThenTextParses(n, "+ years");
  }

  // ---------------------------------------------------------------- rating and final score

  function RatingScore(rating: real): (r: real)
    ensures r <= 1.0
    ensures rating <= 5.0 ==> r == rating / 5.0
  {
    var s := rating / 5.0;
    if s <= 1.0 then s else 1.0
  }

  /** Weighted 0.5 / 0.3 / 0.2 and floored at 0.3; never above 1 because no
      sub-score is. */
  function FinalScore(expertise: real, experience: real, rating: real): (r: real)
    ensures r >= 0.3
    ensures expertise <= 1.0 && experience <= 1.0 && rating <= 1.0 ==> r <= 1.0
    ensures r > 0.3 ==> r == expertise * 0.5 + experience * 0.3 + rating * 0.2
  {
    var s := expertise * 0.5 + experience * 0.3 + rating * 0.2;
    if s >= 0.3 then s else 0.3
  }

  /** `round(x, 2)` on the real number `x`: the nearest hundredth, halves to
      the even hundredth. */
  function Round2(x: real): (r: real)
    ensures -0.005 <= r - x <= 0.005
  {
    var scaled := x * 100.0;
    var k := scaled.Floor;
    var frac := scaled - k as real;
    var n := if frac < 0.5 then k else if frac > 0.5 then k + 1 else if k % 2 == 0 then k else k + 1;
    n as real / 100.0
  }

  /** Rounding never reverses the order of two scores. */
  lemma Round2Monotone(x: real, y: real)
    requires x <= y
    ensures Round2(x) <= Round2(y)
  {
    var kx, ky := (x * 100.0).Floor, (y * 100.0).Floor;
    assert kx <= ky;
  }

  /** Hundredths round to themselves. */
  lemma Round2Exact(k: int)
    ensures Round2(k as real / 100.0) == k as real / 100.0
  {
    assert (k as real / 100.0) * 100.0 == k as real;
  }

  /** A final score in [0.3, 1] stays there once rounded. */
  lemma RoundedFinalInRange(x: real)
    requires 0.3 <= x <= 1.0
    ensures 0.3 <= Round2(x) <= 1.0
  {
    Round2Exact(30);
    Round2Exact(100);
    Round2Monotone(0.3, x);
    Round2Monotone(x, 1.0);
  }

  // ---------------------------------------------------------------- reason

  /** The phrases whose thresholds the three scores cross, in a fixed order. */
  function ReasonParts(expertise: real, experience: real, rating: real): (parts: seq<string>)
    ensures "Strong expertise alignment" in parts <==> expertise > 0.7
    ensures "Excellent experience match" in parts <==> experience > 0.8
    ensures "Outstanding client ratings" in parts <==> rating > 0.9
    ensures |parts| <= 3
  {
    (if expertise > 0.7 then ["Strong expertise alignment"] else [])
    + (if experience > 0.8 then ["Excellent experience match"] else [])
    + (if rating > 0.9 then ["Outstanding client ratings"] else [])
  }

  const CompatibilitySuffix := "% overall compatibility"

  /** The triggered parts joined by ", ", or else the truncated percentage
      of the final score. */
  function Reason(expertise: real, experience: real, rating: real): (r: string)
    ensures ReasonParts(expertise, experience, rating) != []
            ==> r == Join(ReasonParts(expertise, experience, rating), ", ")
    ensures ReasonParts(expertise, experience, rating) == []
            ==> exists n: nat :: r == Decimal(n) + CompatibilitySuffix
  {
    var parts := ReasonParts(expertise, experience, rating);
    if parts != [] then Join(parts, ", ")
    else Decimal((FinalScore(expertise, experience, rating) * 100.0).Floor) + CompatibilitySuffix
  }

  predicate DigitFree(s: string) {
    forall i :: 0 <= i < |s| ==> !IsDigit(s[i])
  }

  lemma {:induction false} DigitFreeHasNoDigits(s: string)
    requires DigitFree(s)
    ensures DigitsOf(s) == []
  {
    if s != [] {
      DigitFreeHasNoDigits(s[1..]);
    }
  }

  lemma {:induction false} JoinDigitFree(parts: seq<string>, sep: string)
    requires DigitFree(sep)
    requires forall i :: 0 <= i < |parts| ==> DigitFree(parts[i])
    ensures DigitFree(Join(parts, sep))
  {
    if |parts| > 1 {
      JoinDigitFree(parts[1..], sep);
    }
  }

  lemma PartsDigitFree(expertise: real, experience: real, rating: real)
    ensures forall i :: 0 <= i < |ReasonParts(expertise, experience, rating)| ==>
              DigitFree(ReasonParts(expertise, experience, rating)[i])
  {
    assert DigitFree("Strong expertise alignment");
    assert DigitFree("Excellent experience match");
    assert DigitFree("Outstanding client ratings");
  }

  lemma TriggeredReasonHasNoDigits(expertise: real, experience: real, rating: real)
    requires ReasonParts(expertise, experience, rating) != []
    ensures ParseDigits(Reason(expertise, experience, rating)).None?
  {
    var parts := ReasonParts(expertise, experience, rating);
    PartsDigitFree(expertise, experience, rating);
    assert DigitFree(", ");
    JoinDigitFree(parts, ", ");
    DigitFreeHasNoDigits(Join(parts, ", "));
  }

  lemma SuffixHasNoDigits()
    ensures DigitsOf(CompatibilitySuffix) == []
  {
    assert DigitFree(CompatibilitySuffix);
    DigitFreeHasNoDigits(CompatibilitySuffix);
  }

  lemma FallbackReasonNumber(expertise: real, experience: real, rating: real)
    requires ReasonParts(expertise, experience, rating) == []
    ensures ParseDigits(Reason(expertise, experience, rating))
            == Some((FinalScore(expertise, experience, rating) * 100.0).Floor)
  {
    var pct := (FinalScore(expertise, experience, rating) * 100.0).Floor;
    SuffixHasNoDigits();
    DecimalThenTextParses(pct, CompatibilitySuffix);
  }

  /** A reason carries a number exactly when no part is triggered, and that
      number is the truncated percentage of the final score, 30 to 100. */
  lemma ReasonNumber(expertise: real, experience: real, rating: real)
    requires expertise <= 1.0 && experience <= 1.0 && rating <= 1.0
    ensures var n := ParseDigits(Reason(expertise, experience, rating));
            && (n.Some? <==> ReasonParts(expertise, experience, rating) == [])
            && (n.Some? ==> n.value == (FinalScore(expertise, experience, rating) * 100.0).Floor && 30 <= n.value <= 100)
  {
    if ReasonParts(expertise, experience, rating) != [] {
      TriggeredReasonHasNoDigits(expertise, experience, rating);
    } else {
      FallbackReasonNumber(expertise, experience, rating);
    }
  }

  // ---------------------------------------------------------------- matches

  function MatchFor(coach: LegacyCoach, required: seq<string>, requiredLevel: string, requestId: string): (m: LegacyMatch)
    ensures m.coach == coach && m.coachId == coach.id && m.requestId == requestId
    ensures 0.3 <= m.matchScore <= 1.0
  {
    var expertise := ExpertiseScore(coach.expertise, required);
    var experience := ExperienceScore(coach.experience, requiredLevel);
    var rating := RatingScore(coach.rating);
    var final := FinalScore(expertise, experience, rating);
    RoundedFinalInRange(final);
    LegacyMatch(coach.id, requestId, Round2(final), Reason(expertise, experience, rating), coach,
                Round2(expertise), Round2(experience), Round2(rating))
  }

  /** One match per coach, in coach order. */
  function MatchesInCoachOrder(coaches: seq<LegacyCoach>, required: seq<string>, requiredLevel: string, requestId: string): (ms: seq<LegacyMatch>)
    ensures |ms| == |coaches|
    ensures forall i :: 0 <= i < |coaches| ==> ms[i] == MatchFor(coaches[i], required, requiredLevel, requestId)
  {
    seq(|coaches|, i requires 0 <= i < |coaches| => MatchFor(coaches[i], required, requiredLevel, requestId))
  }

  function MatchScoreOf(m: LegacyMatch): real {
    m.matchScore
  }

  function RequestIdOf(request: LegacyRequest, now: nat): string {
    request.id.GetOr("request_" + Decimal(now))
  }

  /** The generated matches: one per coach, ranked by rounded score. */
  function GeneratedMatches(coaches: seq<LegacyCoach>, request: LegacyRequest, now: nat): seq<LegacyMatch> {
    SortDesc(MatchesInCoachOrder(coaches, request.expertise.GetOr([]),
                                 request.experience.GetOr(DefaultExperience), RequestIdOf(request, now)),
             MatchScoreOf)
  }

  /** Scores every coach, with missing request fields defaulted, then ranks
      the matches. `now` is the timestamp used in a default request id. */
  method GenerateMatches(coaches: seq<LegacyCoach>, request: LegacyRequest, now: nat) returns (matches: seq<LegacyMatch>)
    ensures matches == GeneratedMatches(coaches, request, now)
  {
    var required := request.expertise.GetOr([]);
    var requiredLevel := request.experience.GetOr(DefaultExperience);
    var requestId := RequestIdOf(request, now);
    var unsorted: seq<LegacyMatch> := [];
    for i := 0 to |coaches|
      invariant unsorted == MatchesInCoachOrder(coaches[..i], required, requiredLevel, requestId)
    {
      var coach := coaches[i];
      var expertise := CalculateExpertiseScore(coach.expertise, required);
      var experience := ExperienceScore(coach.experience, requiredLevel);
      var rating := RatingScore(coach.rating);
      var final := FinalScore(expertise, experience, rating);
      var reason := Reason(expertise, experience, rating);
      var m := LegacyMatch(coach.id, requestId, Round2(final), reason, coach,
                           Round2(expertise), Round2(experience), Round2(rating));
      assert m == MatchFor(coach, required, requiredLevel, requestId);
      unsorted := unsorted + [m];
    }
    assert coaches[..|coaches|] == coaches;
    matches := SortDesc(unsorted, MatchScoreOf);
  }

  /** Exactly one match per coach, every score in [0.3, 1], ranked by
      non-increasing score with ties in coach order. */
  lemma GeneratedMatchesProperties(coaches: seq<LegacyCoach>, request: LegacyRequest, now: nat, v: real)
    ensures var unsorted := MatchesInCoachOrder(coaches, request.expertise.GetOr([]),
                                                request.experience.GetOr(DefaultExperience), RequestIdOf(request, now));
            var ms := GeneratedMatches(coaches, request, now);
            && |ms| == |coaches|
            && multiset(ms) == multiset(unsorted)
            && (forall m :: m in ms ==> 0.3 <= m.matchScore <= 1.0 && m.coach in coaches)
            && SortedDesc(ms, MatchScoreOf)
            && WithKey(ms, MatchScoreOf, v) == WithKey(unsorted, MatchScoreOf, v)
  {
    var unsorted := MatchesInCoachOrder(coaches, request.expertise.GetOr([]),
                                        request.experience.GetOr(DefaultExperience), RequestIdOf(request, now));
    var ms := GeneratedMatches(coaches, request, now);
    SortDescPermutes(unsorted, MatchScoreOf);
    SortDescSorted(unsorted, MatchScoreOf);
    SortDescStable(unsorted, MatchScoreOf, v);
    forall m | m in ms
      ensures 0.3 <= m.matchScore <= 1.0 && m.coach in coaches
    {
      assert m in multiset(unsorted);
      var i :| 0 <= i < |unsorted| && unsorted[i] == m;
    }
  }

  /** A request without expertise scores every coach's expertise at 0.3. */
  lemma NoExpertiseRequested(coaches: seq<LegacyCoach>, request: LegacyRequest, now: nat)
    requires request.expertise.None?
    ensures forall m :: m in GeneratedMatches(coaches, request, now) ==> m.expertiseScore == Round2(0.3)
  {
    var unsorted := MatchesInCoachOrder(coaches, [], request.experience.GetOr(DefaultExperience), RequestIdOf(request, now));
    SortDescPermutes(unsorted, MatchScoreOf);
    forall m | m in GeneratedMatches(coaches, request, now)
      ensures m.expertiseScore == Round2(0.3)
    {
      assert m in multiset(unsorted);
    }
  }
}
