/** The configuration surface of the matching service: the five scoring
    weights and their normalisation, the ranking limits, the roster refresh
    interval, the start-up validation of required variables and weight
    ranges, and the lookup of a configuration class by environment name.
    Reading values out of the process environment is not modelled: a
    `Config` value is what that reading produced. */
module Settings {
  import opened Wrappers

  /** The weights, one per sub-score, keyed as the scorer reads them. */
  datatype Weights = Weights(
    skills: real,
    experience: real,
    rating: real,
    availability: real,
    price: real)

  function Total(w: Weights): real {
    w.skills + w.experience + w.rating + w.availability + w.price
  }

  /** The weights in the order the configuration lists them. */
  function AsList(w: Weights): (r: seq<real>)
    ensures |r| == 5
  {
    [w.skills, w.experience, w.rating, w.availability, w.price]
  }

  predicate NonNegative(w: Weights) {
    forall i :: 0 <= i < 5 ==> AsList(w)[i] >= 0.0
  }

  const DefaultWeights := Weights(0.3, 0.25, 0.2, 0.15, 0.1)

  datatype Config = Config(
    algorithmVersion: string,
    maxMatchesPerRequest: int,
    minMatchScore: real,
    weights: Weights,
    coachDataTtl: int,
    refreshCoachDataInterval: int)

  const DefaultConfig := Config("1.0.0", 10, 0.6, DefaultWeights, 3600, 1800)

  /** Normalises the weights to sum to 1 when their total is positive, and
      returns them untouched otherwise (no division by a non-positive sum). */
  function GetMatchingWeights(w: Weights): (r: Weights)
    ensures Total(w) <= 0.0 ==> r == w
  {
    var t := Total(w);
    if t > 0.0 then
      Weights(w.skills / t, w.experience / t, w.rating / t, w.availability / t, w.price / t)
    else w
  }

  /** Weights with a positive total normalise to weights summing to one. */
  lemma NormalisedSumsToOne(w: Weights)
    requires Total(w) > 0.0
    ensures Total(GetMatchingWeights(w)) == 1.0
  {
    var t := Total(w);
    AddFractions(w.skills, w.experience, t);
    AddFractions(w.skills + w.experience, w.rating, t);
    AddFractions(w.skills + w.experience + w.rating, w.availability, t);
    AddFractions(w.skills + w.experience + w.rating + w.availability, w.price, t);
    assert t / t == 1.0;
    assert Total(GetMatchingWeights(w)) == t / t;
  }

  lemma AddFractions(a: real, b: real, t: real)
    requires t > 0.0
    ensures a / t + b / t == (a + b) / t
  {
  }

  /** Every normalised weight is its original divided by the total. */
  lemma NormalisedIsScaled(w: Weights, i: nat)
    requires Total(w) > 0.0 && i < 5
    ensures AsList(GetMatchingWeights(w))[i] == AsList(w)[i] / Total(w)
  {
  }

  /** Normalisation scales every weight by one common factor: multiplying
      any normalised weight back by the total gives the original. With
      `ScaledKeepsRatios` this means the ratio between any two weights is kept. */
  lemma NormalisationScalesUniformly(w: Weights)
    requires Total(w) > 0.0
    ensures forall k :: 0 <= k < 5 ==> AsList(GetMatchingWeights(w))[k] * Total(w) == AsList(w)[k]
  {
    var t := Total(w);
    forall k | 0 <= k < 5
      ensures AsList(GetMatchingWeights(w))[k] * t == AsList(w)[k]
    {
      NormalisedIsScaled(w, k);
      DivideThenMultiply(AsList(w)[k], t);
    }
  }

  lemma DivideThenMultiply(a: real, t: real)
    requires t > 0.0
    ensures (a / t) * t == a
  {
  }

  /** Entries that all give back their originals when multiplied by one
      common factor keep the originals' pairwise ratios (cross-multiplied,
      so that zero weights need no special case). */
  lemma ScaledKeepsRatios(n: seq<real>, o: seq<real>, t: real, i: nat, j: nat)
    requires |n| == |o| && i < |n| && j < |n|
    requires forall k :: 0 <= k < |n| ==> n[k] * t == o[k]
    ensures n[i] * o[j] == n[j] * o[i]
  {
    var p, q := n[i], n[j];
    calc {
      p * o[j];
      p * (q * t);
      q * (p * t);
      q * o[i];
    }
  }

  /** Normalisation keeps the order between any two weights. */
  lemma NormalisationKeepsOrder(w: Weights, i: nat, j: nat)
    requires Total(w) > 0.0 && i < 5 && j < 5
    ensures AsList(w)[i] <= AsList(w)[j] <==> AsList(GetMatchingWeights(w))[i] <= AsList(GetMatchingWeights(w))[j]
  {
    NormalisedIsScaled(w, i);
    NormalisedIsScaled(w, j);
    DivideKeepsOrder(AsList(w)[i], AsList(w)[j], Total(w));
  }

  lemma DivideKeepsOrder(a: real, b: real, t: real)
    requires t > 0.0
    ensures a <= b <==> a / t <= b / t
  {
    if a <= b {
      assert b / t - a / t == (b - a) / t;
    } else {
      assert a / t - b / t == (a - b) / t;
    }
  }

  /** Non-negative weights normalise into [0, 1]. */
  lemma NormalisedInUnitInterval(w: Weights)
    requires NonNegative(w) && Total(w) > 0.0
    ensures var r := GetMatchingWeights(w);
            NonNegative(r) && forall i :: 0 <= i < 5 ==> AsList(r)[i] <= 1.0
  {
    var t := Total(w);
    var l := AsList(w);
    assert l[0] >= 0.0 && l[1] >= 0.0 && l[2] >= 0.0 && l[3] >= 0.0 && l[4] >= 0.0;
    FractionInUnitInterval(w.skills, t);
    FractionInUnitInterval(w.experience, t);
    FractionInUnitInterval(w.rating, t);
    FractionInUnitInterval(w.availability, t);
    FractionInUnitInterval(w.price, t);
  }

  lemma FractionInUnitInterval(a: real, t: real)
    requires 0.0 <= a <= t && t > 0.0
    ensures 0.0 <= a / t <= 1.0
  {
    DivideKeepsOrder(a, t, t);
    DivideKeepsOrder(0.0, a, t);
  }

  /** The default weights already sum to one, so normalising them changes nothing. */
  lemma DefaultWeightsAreNormalised()
    ensures Total(DefaultWeights) == 1.0
    ensures GetMatchingWeights(DefaultWeights) == DefaultWeights
  {
  }

  const RequiredVars: seq<string> := ["KAFKA_BOOTSTRAP_SERVERS", "REDIS_HOST"]

  const MissingVarPrefix := "Missing required environment variable: "

  const WeightRangeError := "Weight values must be between 0 and 1"

  /** A variable counts as set when present and non-empty. */
  predicate IsSet(env: map<string, string>, name: string) {
    name in env && env[name] != ""
  }

  /** One error per unset variable, in the order the variables are listed. */
  function MissingVarErrors(vars: seq<string>, env: map<string, string>): seq<string> {
    if vars == [] then []
    else MissingVarErrors(vars[..|vars| - 1], env)
         + (if IsSet(env, vars[|vars| - 1]) then [] else [MissingVarPrefix + vars[|vars| - 1]])
  }

  predicate WeightsInRange(w: Weights) {
    forall i :: 0 <= i < 5 ==> 0.0 <= AsList(w)[i] <= 1.0
  }

  /** The errors start-up validation reports. */
  function ConfigErrors(env: map<string, string>, w: Weights): seq<string> {
    MissingVarErrors(RequiredVars, env) + (if WeightsInRange(w) then [] else [WeightRangeError])
  }

  /** Collects the configuration errors: one per missing required variable,
      then at most one for the weights, since the weight loop stops at the
      first out-of-range weight. */
  method ValidateConfig(env: map<string, string>, w: Weights) returns (errors: seq<string>)
    ensures errors == ConfigErrors(env, w)
  {
    errors := [];
    var i := 0;
    while i < |RequiredVars|
      invariant 0 <= i <= |RequiredVars|
      invariant errors == MissingVarErrors(RequiredVars[..i], env)
    {
      assert RequiredVars[..i + 1][..i] == RequiredVars[..i];
      if !IsSet(env, RequiredVars[i]) {
        errors := errors + [MissingVarPrefix + RequiredVars[i]];
      }
      i := i + 1;
    }
    assert RequiredVars[..i] == RequiredVars;
    ghost var missing := errors;
    var weights := AsList(w);
    var j := 0;
    while j < |weights|
      invariant 0 <= j <= |weights|
      invariant errors == missing
      invariant forall k :: 0 <= k < j ==> 0.0 <= weights[k] <= 1.0
    {
      if !(0.0 <= weights[j] <= 1.0) {
        errors := errors + [WeightRangeError];
        break;
      }
      j := j + 1;
    }
  }

  function CountUnset(vars: seq<string>, env: map<string, string>): nat {
    if vars == [] then 0
    else CountUnset(vars[..|vars| - 1], env) + (if IsSet(env, vars[|vars| - 1]) then 0 else 1)
  }

  lemma {:induction false} MissingVarErrorsShape(vars: seq<string>, env: map<string, string>)
    ensures |MissingVarErrors(vars, env)| == CountUnset(vars, env)
    ensures forall e :: e in MissingVarErrors(vars, env) ==>
              exists v :: v in vars && !IsSet(env, v) && e == MissingVarPrefix + v
    ensures forall v :: v in vars && !IsSet(env, v) ==> MissingVarPrefix + v in MissingVarErrors(vars, env)
  {
    if vars != [] {
      MissingVarErrorsShape(vars[..|vars| - 1], env);
    }
  }

  /** Validation reports one error per unset required variable, and the
      weight-range error exactly when some weight lies outside [0, 1]. */
  lemma ConfigErrorsCharacterised(env: map<string, string>, w: Weights)
    ensures |ConfigErrors(env, w)| == CountUnset(RequiredVars, env) + (if WeightsInRange(w) then 0 else 1)
    ensures WeightRangeError in ConfigErrors(env, w) <==> !WeightsInRange(w)
  {
    MissingVarErrorsShape(RequiredVars, env);
    assert WeightRangeError[0] == 'W';
  }

  /** The configuration classes selectable by environment name. */
  datatype ConfigClass = DevelopmentConfig | ProductionConfig | TestingConfig

  /** The environment name used: the argument, or else the FLASK_ENV
      variable, or else "default". */
  function EnvName(envName: Option<string>, flaskEnv: Option<string>): string {
    if envName.Some? then envName.value else flaskEnv.GetOr("default")
  }

  /** Known names select their class; every other name, "default" included,
      selects the development configuration. */
  function GetConfig(envName: Option<string>, flaskEnv: Option<string>): (r: ConfigClass)
    ensures r == ProductionConfig <==> EnvName(envName, flaskEnv) == "production"
    ensures r == TestingConfig <==> EnvName(envName, flaskEnv) == "testing"
    ensures r == DevelopmentConfig <==> EnvName(envName, flaskEnv) !in {"production", "testing"}
  {
    var configMap := map["development" := DevelopmentConfig, "production" := ProductionConfig,
                         "testing" := TestingConfig, "default" := DevelopmentConfig];
    var name := EnvName(envName, flaskEnv);
    if name in configMap then configMap[name] else configMap["default"]
  }
}
