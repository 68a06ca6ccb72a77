/** Where the coach roster comes from: the mapping of a backend API coach
    record into a coach profile, the API fetch with its fallback to the mock
    roster, and the refresh chain cache → API → mocks. The HTTP call and the
    cache read are inputs (`ApiResponse`, a sequence of cached profiles); the
    cache writes are an output. */
module Roster {
  import opened Wrappers
  import opened Text
  import opened RequestModels

  // ---------------------------------------------------------------- API records

  /** An API record field is `None` when its key is absent. */
  datatype ApiSkill = ApiSkill(
    subcategory: Option<string>,
    level: Option<string>,
    yearsExperience: Option<int>)

  datatype ApiAvailability = ApiAvailability(
    dayOfWeek: Option<int>,
    startTime: Option<string>,
    endTime: Option<string>,
    timezone: Option<string>)

  datatype ApiMetrics = ApiMetrics(
    averageRating: Option<real>,
    totalSessions: Option<int>,
    successRate: Option<real>,
    responseTime: Option<real>)

  datatype ApiCoach = ApiCoach(
    id: Option<string>,
    userId: Option<string>,
    firstName: Option<string>,
    lastName: Option<string>,
    email: Option<string>,
    title: Option<string>,
    company: Option<string>,
    bio: Option<string>,
    expertise: Option<seq<ApiSkill>>,
    availability: Option<seq<ApiAvailability>>,
    hourlyRate: Option<real>,
    currency: Option<string>,
    metrics: Option<ApiMetrics>,
    languages: Option<seq<string>>)

  /** Outcome of the GET on the coaches endpoint: a status and the `data`
      list of the JSON body (absent key: `None`), or a failure of the request
      or of decoding its body. */
  datatype ApiResponse =
    | Response(status: int, data: Option<seq<ApiCoach>>)
    | RequestFailed

  // ---------------------------------------------------------------- mapping

  function LevelName(l: ExpertiseLevel): string {
    match l
    case Beginner => "beginner"
    case Intermediate => "intermediate"
    case Expert => "expert"
    case Master => "master"
  }

  /** Level names are matched after lower-casing; anything else maps to
      Intermediate. */
  function MapExperienceLevel(s: string): (l: ExpertiseLevel)
    ensures Lower(s) == LevelName(l) || l == Intermediate
    ensures (forall k: ExpertiseLevel :: Lower(s) != LevelName(k)) ==> l == Intermediate
  {
    var key := Lower(s);
    if key == "beginner" then Beginner
    else if key == "expert" then Expert
    else if key == "master" then Master
    else Intermediate
  }

  /** Every level maps back from its own name, whatever its case. */
  lemma {:induction false} MapExperienceLevelRoundTrip(l: ExpertiseLevel, s: string)
    requires Lower(s) == LevelName(l)
    ensures MapExperienceLevel(s) == l
  {
  }

  /** The mapping ignores case. */
  lemma MapExperienceLevelIgnoresCase(s: string)
    ensures MapExperienceLevel(Lower(s)) == MapExperienceLevel(s)
  {
    LowerIdempotent(s);
  }

  function ConvertSkill(s: ApiSkill): (r: CoachSkill)
    ensures r.yearsExperience == s.yearsExperience.GetOr(0) && r.certifications == []
  {
    CoachSkill(
      s.subcategory.GetOr(""),
      MapExperienceLevel(s.level.GetOr("intermediate")),
      s.yearsExperience.GetOr(0),
      [])
  }

  function ConvertSkills(ss: seq<ApiSkill>): (r: seq<CoachSkill>)
    ensures |r| == |ss|
    ensures forall i :: 0 <= i < |ss| ==> r[i] == ConvertSkill(ss[i])
  {
    seq(|ss|, i requires 0 <= i < |ss| => ConvertSkill(ss[i]))
  }

  function ConvertAvailability(a: ApiAvailability): CoachAvailability {
    CoachAvailability(
      a.dayOfWeek.GetOr(0),
      a.startTime.GetOr("09:00"),
      a.endTime.GetOr("17:00"),
      a.timezone.GetOr("UTC"))
  }

  function ConvertAvailabilities(slots: seq<ApiAvailability>): (r: seq<CoachAvailability>)
    ensures |r| == |slots|
    ensures forall i :: 0 <= i < |slots| ==> r[i] == ConvertAvailability(slots[i])
  {
    seq(|slots|, i requires 0 <= i < |slots| => ConvertAvailability(slots[i]))
  }

  /** `max(years of each expertise entry, default=0)` */
  function MaxYears(ss: seq<ApiSkill>): (m: int)
    ensures forall i :: 0 <= i < |ss| ==> ss[i].yearsExperience.GetOr(0) <= m
    ensures ss == [] ==> m == 0
    ensures ss != [] ==> exists i :: 0 <= i < |ss| && m == ss[i].yearsExperience.GetOr(0)
  {
    if ss == [] then 0
    else if |ss| == 1 then ss[0].yearsExperience.GetOr(0)
    else
      var rest := MaxYears(ss[1..]);
      var y := ss[0].yearsExperience.GetOr(0);
      if y >= rest then y else rest
  }

  /** The profile an API record maps to, before profile validation. */
  function ProfileOf(a: ApiCoach): CoachProfile {
    var expertise := a.expertise.GetOr([]);
    var metrics := a.metrics.GetOr(ApiMetrics(None, None, None, None));
    CoachProfile(
      a.id.GetOr(""), a.userId.GetOr(""), a.firstName.GetOr(""), a.lastName.GetOr(""),
      a.email.GetOr(""), a.title.GetOr(""), a.company.GetOr(""), a.bio.GetOr(""),
      ConvertSkills(expertise),
      MaxYears(expertise),
      ConvertAvailabilities(a.availability.GetOr([])),
      a.hourlyRate.GetOr(100.0),
      a.currency.GetOr("USD"),
      metrics.averageRating.GetOr(0.0),
      metrics.totalSessions.GetOr(0),
      metrics.successRate.GetOr(0.0),
      metrics.responseTime.GetOr(24.0),
      a.languages.GetOr(["English"]),
      1,
      [OneOnOne],
      true,
      true)
  }

  /** Converts an API record; `None` where profile validation rejects the
      mapped values. A converted coach is a one-to-one, active coach open to
      new clients whose total experience is its longest expertise. */
  function ConvertApiCoach(a: ApiCoach): (r: Option<CoachProfile>)
    ensures r.Some? <==> ValidCoachProfile(ProfileOf(a))
    ensures r.Some? ==> ValidCoachProfile(r.value)
    ensures r.Some? ==> r.value.coachId == a.id.GetOr("") && r.value.hourlyRate == a.hourlyRate.GetOr(100.0)
    ensures r.Some? ==> r.value.maxParticipants == 1 && r.value.sessionTypes == [OneOnOne]
    ensures r.Some? ==> r.value.isActive && r.value.canAcceptNewClients
    ensures r.Some? ==> |r.value.skills| == |a.expertise.GetOr([])|
    ensures r.Some? ==> forall i :: 0 <= i < |r.value.skills| ==> r.value.skills[i].yearsExperience <= r.value.totalExperienceYears
    ensures r.Some? && a.expertise.GetOr([]) == [] ==> r.value.totalExperienceYears == 0
    ensures r.Some? && a.languages.None? ==> r.value.languages == ["English"]
  {
    var p := ProfileOf(a);
    if ValidCoachProfile(p) then Some(p) else None
  }

  /** A record with no keys at all maps to the all-defaults profile, which is valid. */
  lemma EmptyRecordConverts()
    ensures var r := ConvertApiCoach(ApiCoach(None, None, None, None, None, None, None, None,
                                              None, None, None, None, None, None));
            && r.Some?
            && r.value.hourlyRate == 100.0 && r.value.currency == "USD"
            && r.value.rating == 0.0 && r.value.responseTimeHours == 24.0
            && r.value.skills == [] && r.value.availability == []
  {
  }

  // ---------------------------------------------------------------- the mock roster

  const MockCoaches: seq<CoachProfile> := [
    CoachProfile(
      "coach_1", "user_1", "Sarah", "Johnson", "sarah@example.com",
      "Senior Software Engineer", "Tech Corp",
      "Experienced full-stack developer with expertise in React and Node.js",
      [CoachSkill("React", Expert, 6, ["React Certified Developer"]),
       CoachSkill("Node.js", Expert, 5, [])],
      8,
      [CoachAvailability(1, "09:00", "17:00", "UTC-8"),
       CoachAvailability(3, "09:00", "17:00", "UTC-8")],
      150.0, "USD", 4.8, 127, 0.91, 4.0,
      ["English", "Spanish"], 5, [OneOnOne, Group], true, true),
    CoachProfile(
      "coach_2", "user_2", "Michael", "Chen", "michael@example.com",
      "Product Manager", "Innovation Labs",
      "Product strategy expert with agile methodologies expertise",
      [CoachSkill("Product Strategy", Expert, 7, ["Certified Product Manager"]),
       CoachSkill("Agile", Expert, 6, ["Scrum Master"])],
      10,
      [CoachAvailability(2, "10:00", "18:00", "UTC-8")],
      120.0, "USD", 4.9, 89, 0.94, 2.0,
      ["English", "Mandarin"], 10, [Group, Workshop], true, true)
  ]

  predicate AllValid(coaches: seq<CoachProfile>) {
    forall i :: 0 <= i < |coaches| ==> ValidCoachProfile(coaches[i])
  }

  /** The mock roster is two valid, active coaches with distinct identifiers. */
  lemma MockCoachesValid()
    ensures |MockCoaches| == 2 && AllValid(MockCoaches)
    ensures MockCoaches[0].coachId != MockCoaches[1].coachId
    ensures forall i :: 0 <= i < |MockCoaches| ==> MockCoaches[i].isActive && MockCoaches[i].canAcceptNewClients
  {
    assert MockCoaches[0].coachId[6] != MockCoaches[1].coachId[6];
  }

  // ---------------------------------------------------------------- fetch

  /** The records that convert, in order; the others are skipped. */
  function ConvertAll(data: seq<ApiCoach>): seq<CoachProfile> {
    if data == [] then []
    else ConvertAll(data[..|data| - 1])
         + (match ConvertApiCoach(data[|data| - 1]) case Some(p) => [p] case None => [])
  }

  /** The roster a fetch yields: the converted records on status 200, the
      mock roster on any other status or a failed request. */
  function FetchedCoaches(api: ApiResponse): seq<CoachProfile> {
    match api
    case RequestFailed => MockCoaches
    case Response(status, data) => if status == 200 then ConvertAll(data.GetOr([])) else MockCoaches
  }

  /** Conversion keeps only valid profiles, never more than it was given,
      and each of them comes from some record. */
  lemma {:induction false} ConvertAllProperties(data: seq<ApiCoach>)
    ensures AllValid(ConvertAll(data))
    ensures |ConvertAll(data)| <= |data|
    ensures forall p :: p in ConvertAll(data) ==> exists a :: a in data && ConvertApiCoach(a) == Some(p)
  {
    if data != [] {
      var init, last := data[..|data| - 1], data[|data| - 1];
      ConvertAllProperties(init);
      var head := ConvertAll(init);
      var extra := match ConvertApiCoach(last) case Some(p) => [p] case None => [];
      assert ConvertAll(data) == head + extra;
      assert AllValid(extra) && |extra| <= 1;
      assert forall p :: p in extra ==> ConvertApiCoach(last) == Some(p);
      forall p | p in ConvertAll(data)
        ensures exists a :: a in data && ConvertApiCoach(a) == Some(p)
      {
        if p in head {
          var a :| a in init && ConvertApiCoach(a) == Some(p);
          assert a in data;
        } else {
          assert p in extra && last in data;
        }
      }
    }
  }

  /** Whatever the API answers, the fetched roster is valid. */
  lemma FetchedCoachesValid(api: ApiResponse)
    ensures AllValid(FetchedCoaches(api))
  {
    MockCoachesValid();
    if api.Response? {
      ConvertAllProperties(api.data.GetOr([]));
    }
  }

  lemma ConvertAllStep(data: seq<ApiCoach>, i: nat)
    requires i < |data|
    ensures ConvertAll(data[..i + 1])
         == ConvertAll(data[..i]) + (match ConvertApiCoach(data[i]) case Some(p) => [p] case None => [])
  {
    assert data[..i + 1][..i] == data[..i];
  }

  /** Converts the records of a successful response one by one, skipping the
      ones that fail conversion. */
  method FetchCoachesFromApi(api: ApiResponse) returns (coaches: seq<CoachProfile>)
    ensures coaches == FetchedCoaches(api)
  {
    if api.RequestFailed? || api.status != 200 {
      return MockCoaches;
    }
    var data := api.data.GetOr([]);
    coaches := [];
    for i := 0 to |data|
      invariant coaches == ConvertAll(data[..i])
    {
      ConvertAllStep(data, i);
      var coach := ConvertApiCoach(data[i]);
      if coach.Some? {
        coaches := coaches + [coach.value];
      }
    }
    assert data[..|data|] == data;
  }

  // ---------------------------------------------------------------- refresh

  /** Result of one refresh: the new roster, the profiles written back to
      the cache, and whether the refresh completed (only then does the
      refresh time advance). */
  datatype Refresh = Refresh(roster: seq<CoachProfile>, written: seq<CoachProfile>, succeeded: bool)

  /** One refresh given the current roster, what the cache holds and the API
      answer. A non-empty cache wins if every entry validates; an entry that
      fails validation aborts the refresh, keeping the current roster or, if
      it is empty, the mocks. An empty cache is refilled from the fetch. */
  function RefreshOutcome(current: seq<CoachProfile>, cached: seq<CoachProfile>, api: ApiResponse): (r: Refresh)
    ensures cached != [] && AllValid(cached) ==> r == Refresh(cached, [], true)
    ensures cached != [] && !AllValid(cached) ==> !r.succeeded && r.written == []
    ensures !r.succeeded ==> r.roster == (if current == [] then MockCoaches else current)
    ensures cached == [] ==> r.succeeded && r.roster == FetchedCoaches(api) && r.written == r.roster
  {
    if cached != [] then
      if AllValid(cached) then Refresh(cached, [], true)
      else Refresh(if current == [] then MockCoaches else current, [], false)
    else
      var fetched := FetchedCoaches(api);
      Refresh(fetched, fetched, true)
  }

  /** A refresh never brings an invalid profile into a valid roster, and a
      failed one never leaves the roster empty. */
  lemma RefreshKeepsRosterValid(current: seq<CoachProfile>, cached: seq<CoachProfile>, api: ApiResponse)
    requires AllValid(current)
    ensures AllValid(RefreshOutcome(current, cached, api).roster)
    ensures !RefreshOutcome(current, cached, api).succeeded ==> RefreshOutcome(current, cached, api).roster != []
  {
    MockCoachesValid();
    FetchedCoachesValid(api);
  }
}
