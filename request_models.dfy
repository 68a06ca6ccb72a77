/** The request, profile and result records of the matching service, with the
    field bounds that validation enforces on them. A record of these types is
    any value of its fields; the `Valid...` predicates say when validation
    would accept it. Timestamps and start/end dates are not modelled. */
module RequestModels {
  import opened Wrappers

  datatype ExpertiseLevel = Beginner | Intermediate | Expert | Master

  datatype SessionType = OneOnOne | Group | Workshop | Mentoring

  datatype PriorityLevel = Low | Medium | High | Urgent

  datatype SkillRequirement = SkillRequirement(
    name: string,
    level: ExpertiseLevel,
    weight: real,
    mandatory: bool)

  datatype BudgetConstraint = BudgetConstraint(
    maxHourlyRate: Option<real>,
    totalBudget: Option<real>,
    currency: string,
    paymentFrequency: string)

  datatype AvailabilityRequirement = AvailabilityRequirement(
    daysOfWeek: seq<int>,
    timeSlots: seq<string>,
    timezone: string,
    flexibility: real)

  datatype MatchingRequest = MatchingRequest(
    requestId: string,
    companyId: string,
    programId: string,
    title: string,
    description: string,
    sessionType: SessionType,
    priority: PriorityLevel,
    skillsRequired: seq<SkillRequirement>,
    experienceLevel: ExpertiseLevel,
    budgetConstraints: BudgetConstraint,
    availabilityRequirements: AvailabilityRequirement,
    preferredLanguages: seq<string>,
    locationPreference: Option<string>,
    coachGenderPreference: Option<string>,
    participantsCount: int,
    sessionDurationMinutes: int,
    totalSessions: int)

  datatype CoachSkill = CoachSkill(
    name: string,
    level: ExpertiseLevel,
    yearsExperience: int,
    certifications: seq<string>)

  datatype CoachAvailability = CoachAvailability(
    dayOfWeek: int,
    startTime: string,
    endTime: string,
    timezone: string)

  datatype CoachProfile = CoachProfile(
    coachId: string,
    userId: string,
    firstName: string,
    lastName: string,
    email: string,
    title: string,
    company: string,
    bio: string,
    skills: seq<CoachSkill>,
    totalExperienceYears: int,
    availability: seq<CoachAvailability>,
    hourlyRate: real,
    currency: string,
    rating: real,
    totalSessions: int,
    successRate: real,
    responseTimeHours: real,
    languages: seq<string>,
    maxParticipants: int,
    sessionTypes: seq<SessionType>,
    isActive: bool,
    canAcceptNewClients: bool)

  datatype MatchResult = MatchResult(
    coach: CoachProfile,
    matchScore: real,
    skillScore: real,
    experienceScore: real,
    availabilityScore: real,
    priceScore: real,
    ratingScore: real,
    matchingSkills: seq<string>,
    missingSkills: seq<string>,
    availabilityOverlap: real,
    priceDifferencePercent: real,
    confidenceLevel: real,
    recommendationReason: string)

  predicate UnitInterval(x: real) {
    0.0 <= x <= 1.0
  }

  predicate DaysInRange(days: seq<int>) {
    forall i :: 0 <= i < |days| ==> 0 <= days[i] <= 6
  }

  predicate ValidSkillRequirement(s: SkillRequirement) {
    UnitInterval(s.weight)
  }

  predicate ValidBudget(b: BudgetConstraint) {
    && (b.maxHourlyRate.Some? ==> b.maxHourlyRate.value >= 0.0)
    && (b.totalBudget.Some? ==> b.totalBudget.value >= 0.0)
  }

  predicate ValidAvailabilityRequirement(a: AvailabilityRequirement) {
    DaysInRange(a.daysOfWeek) && UnitInterval(a.flexibility)
  }

  predicate ValidRequest(r: MatchingRequest) {
    && (forall i :: 0 <= i < |r.skillsRequired| ==> ValidSkillRequirement(r.skillsRequired[i]))
    && ValidBudget(r.budgetConstraints)
    && ValidAvailabilityRequirement(r.availabilityRequirements)
    && r.participantsCount >= 1
    && r.sessionDurationMinutes >= 15
    && r.totalSessions >= 1
  }

  predicate ValidCoachSkill(s: CoachSkill) {
    s.yearsExperience >= 0
  }

  predicate ValidCoachAvailability(a: CoachAvailability) {
    0 <= a.dayOfWeek <= 6
  }

  predicate ValidCoachProfile(c: CoachProfile) {
    && (forall i :: 0 <= i < |c.skills| ==> ValidCoachSkill(c.skills[i]))
    && c.totalExperienceYears >= 0
    && (forall i :: 0 <= i < |c.availability| ==> ValidCoachAvailability(c.availability[i]))
    && c.hourlyRate >= 0.0
    && 0.0 <= c.rating <= 5.0
    && c.totalSessions >= 0
    && UnitInterval(c.successRate)
    && c.responseTimeHours >= 0.0
    && c.maxParticipants >= 1
  }

  /** The bounds on a match result; `priceDifferencePercent` is unbounded. */
  predicate ValidMatchResult(m: MatchResult) {
    && UnitInterval(m.matchScore)
    && UnitInterval(m.skillScore)
    && UnitInterval(m.experienceScore)
    && UnitInterval(m.availabilityScore)
    && UnitInterval(m.priceScore)
    && UnitInterval(m.ratingScore)
    && UnitInterval(m.availabilityOverlap)
    && UnitInterval(m.confidenceLevel)
  }

  /** A skill requirement given only its name and level: weight 1.0, optional. */
  function NewSkillRequirement(name: string, level: ExpertiseLevel): (r: SkillRequirement)
    ensures ValidSkillRequirement(r)
    ensures r.name == name && r.level == level
    ensures r.weight == 1.0 && !r.mandatory
  {
    SkillRequirement(name, level, 1.0, false)
  }

  /** The raw value handed to the weekday validator before coercion: a list
      of integers, or some other value that the validator does not inspect. */
  datatype DaysField = DayList(days: seq<int>) | OtherValue

  const DaysOfWeekError := "Days of week must be between 0 (Monday) and 6 (Sunday)"

  /** Walks the list and reports whether every day lies in 0..6. */
  function CheckDays(days: seq<int>): (ok: bool)
    ensures ok <==> DaysInRange(days)
  {
    if days == [] then true
    else if !(0 <= days[0] <= 6) then false
    else CheckDays(days[1..])
  }

  /** The `days_of_week` validator: rejects a list holding a day outside
      0..6, and otherwise returns its input unchanged. */
  function ValidateDaysOfWeek(v: DaysField): (r: Result<DaysField, string>)
    ensures r.Success? <==> (v.DayList? ==> DaysInRange(v.days))
    ensures r.Success? ==> r.value == v
    ensures r.Failure? ==> r.error == DaysOfWeekError
  {
    match v
    case OtherValue => Success(v)
    case DayList(days) => if CheckDays(days) then Success(v) else Failure(DaysOfWeekError)
  }
}
