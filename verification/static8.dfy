/** The Generation 8 static encounter template (EncounterStatic8) and the two
    decisions it makes about a creature record: whether the record can have come
    from the template at all (IsMatchExact), and with what confidence
    (GetMatchRating). Everything the template asks of code outside it is an
    injected oracle (Rules8, Rng8). */
module Static8 {
  import opened Primitives

  // ---------------------------------------------------------------------------
  // Constants defined by other files of the game model

  /** EncounterArea8.BoostLevel: the minimum level of a weather-boosted spawn. */
  const BoostLevel: u8 := 60
  /** Locations.Default8bNone: the "no egg location" value of a PB8 record. */
  const Default8bNone: int := 65535
  /** Ball.None: the template fixes no ball. */
  const BallNone: u8 := 0
  /** Ball.Poke */
  const BallPoke: u8 := 4
  /** Species.Shedinja */
  const Shedinja: int := 292
  /** RibbonIndex.MarkCurry, as stored in a PK8's AffixedRibbon. */
  const MarkCurryIndex: int := 67
  /** The ability number of the hidden-ability slot. */
  const HiddenAbilityNumber: int := 4
  /** Template Gender value meaning "any gender". */
  const AnyGender: i8 := -1
  /** The generation number of this template. */
  const Generation: int := 8

  // ---------------------------------------------------------------------------
  // Data model

  /** Shininess policy of a template. */
  datatype Shiny = Random | Never | Always | AlwaysStar | AlwaysSquare | FixedValue

  /** The raw AreaWeather8 flag values of Normal (1) and Heavy_Fog (256). */
  const NormalFlags: nat := 1
  const HeavyFogFlags: nat := 256

  /** An AreaWeather8 value other than Normal and Heavy_Fog. */
  type OtherWeatherFlags = f: nat | f != NormalFlags && f != HeavyFogFlags witness 0

  /** AreaWeather8. Only Heavy_Fog is singled out by this template; every other
      value or flag combination is an opaque `Other`, which never carries the
      values of Normal or Heavy_Fog, so each source weather has one model value. */
  datatype Weather = Normal | HeavyFog | Other(flags: OtherWeatherFlags)

  /** OverworldCorrelation8Requirement as used by this template. */
  datatype Requirement = MustHave | MustNotHave

  /** EncounterMatchRating values this template can produce. */
  datatype Rating = Match | Deferred | DeferredErrors | PartialMatch

  /** The concrete storage class of a creature record (PK8, PB8, or any other). */
  datatype Format = PK8 | PB8 | OtherFormat(tag: nat)

  /** The Gen 8 mark ribbons (IRibbonSetMark8) that this template looks at by
      name; the rest are an opaque set handed to the weather compatibility test. */
  datatype Marks8 = Marks8(curry: bool, fishing: bool, others: set<nat>)

  /** The record fields written by SetPINGA: encryption constant, PID, IVs,
      nature, gender and ability number. */
  datatype Pinga = Pinga(
    encryptionConstant: u32,
    pid: u32,
    ivs: seq<int>,
    nature: int,
    gender: int,
    abilityNumber: int)

  /** A creature record (PKM) as far as this template reads or writes it.
      `marks` is present exactly when the record implements IRibbonSetMark8;
      `dynamaxLevel` and `affixedRibbon` are consulted only for PK8 records. */
  datatype Pk = Pk(
    format: Format,
    species: int,
    form: int,
    currentLevel: int,
    metLevel: int,
    metLocation: i32,
    eggLocation: int,
    metDate: int,
    ball: int,
    fatefulEncounter: bool,
    id32: u32,
    version: int,
    language: int,
    otGender: int,
    otName: string,
    otFriendship: int,
    nickname: string,
    heightScalar: int,
    weightScalar: int,
    dynamaxLevel: int,
    canGigantamax: bool,
    pinga: Pinga,
    marks: Option<Marks8>,
    affixedRibbon: int,
    moves: seq<int>)

  /** An EncounterStatic8 catalogue entry. `ivs` is None when the IV set is
      unspecified; `crossover` is the Crossover8 flag value. */
  datatype EncounterStatic8 = EncounterStatic8(
    version: int,
    location: u16,
    species: u16,
    form: u8,
    level: u8,
    ivs: Option<seq<int>>,
    crossover: nat,
    weather: Weather,
    dynamaxLevel: u8,
    shiny: Shiny,
    gender: i8,
    fixedBall: u8,
    flawlessIVCount: u8,
    scriptedNoMarks: bool,
    canGigantamax: bool,
    fatefulEncounter: bool)

  /** Predicates defined outside the template, injected as total functions:
      EncounterArea8.IsBoostedArea60 and IsBoostedArea60Fog (by location),
      Crossover8.IsMatchLocation (crossover flags, byte location),
      FormInfo.IsFormChangeable (species, template form, record form, record format),
      Legal.GetIsFixedIVSequenceValidSkipRand (template IVs, record IVs),
      AreaWeather8.IsMarkCompatible (weather, marks),
      IsPartialMatchHidden (record species, template species). */
  datatype Rules8 = Rules8(
    isBoostedArea60: int -> bool,
    isBoostedArea60Fog: int -> bool,
    crossoverMatch: (nat, u8) -> bool,
    isFormChangeable: (int, int, int, Format) -> bool,
    ivSequenceValid: (seq<int>, seq<int>) -> bool,
    isMarkCompatible: (Weather, Marks8) -> bool,
    isPartialMatchHidden: (int, int) -> bool)

  /** Generation criteria handed through to the RNG applicator untouched. */
  datatype Criteria = Criteria(token: nat)

  /** Overworld8RNG: `validate` is ValidateOverworldEncounter, judging a record's
      hidden bundle against its trainer ID under a shiny policy and a flawless IV
      count; `apply` is ApplyDetails, whose effect on a record is the Pinga bundle
      it writes. */
  datatype Rng8 = Rng8(
    validate: (Pinga, u32, Shiny, int) -> bool,
    apply: (Pk, Criteria, Shiny, int) -> Pinga)

  // ---------------------------------------------------------------------------
  // Overworld correlation

  /** A template with a fixed ball is a gift. */
  function Gift(t: EncounterStatic8): (r: bool)
    ensures r <==> t.fixedBall != BallNone
  {
    t.fixedBall != BallNone
  }

  /** Whether records of this template must carry the overworld RNG correlation:
      gifts may hold any seed, and scripted encounters are not saved spawns. */
  function IsOverworldCorrelation(t: EncounterStatic8): (r: bool)
    ensures r <==> t.fixedBall == BallNone && !t.scriptedNoMarks
  {
    if Gift(t) then false
    else if t.scriptedNoMarks then false
    else true
  }

  function GetRequirement(t: EncounterStatic8): (r: Requirement)
    ensures r == MustHave <==> t.fixedBall == BallNone && !t.scriptedNoMarks
    ensures r == MustNotHave <==> Gift(t) || t.scriptedNoMarks
  {
    if IsOverworldCorrelation(t) then MustHave else MustNotHave
  }

  /** The shiny policy the RNG sees: a Random template is validated and generated
      as FixedValue; every other policy is passed unchanged. */
  function EffectiveShiny(s: Shiny): (r: Shiny)
    ensures r != Random
    ensures s == Random ==> r == FixedValue
    ensures s != Random ==> r == s
  {
    if s == Random then FixedValue else s
  }

  /** Whether the record's hidden bundle is what the overworld RNG would produce
      for this template's shiny policy and flawless IV count. */
  function IsOverworldCorrelationCorrect(t: EncounterStatic8, pk: Pk, rng: Rng8): (r: bool)
    // a Random template is validated as FixedValue
    ensures t.shiny == Random ==> (r <==> rng.validate(pk.pinga, pk.id32, FixedValue, t.flawlessIVCount))
    // every other policy is validated as itself
    ensures t.shiny != Random ==> (r <==> rng.validate(pk.pinga, pk.id32, t.shiny, t.flawlessIVCount))
  {
    rng.validate(pk.pinga, pk.id32, EffectiveShiny(t.shiny), t.flawlessIVCount)
  }

  // ---------------------------------------------------------------------------
  // Structural match

  /** The template sits in a Heavy_Fog area whose spawns are boosted to BoostLevel. */
  predicate FogBoosted(t: EncounterStatic8, rules: Rules8) {
    t.weather == HeavyFog && rules.isBoostedArea60Fog(t.location)
  }

  function IsMatchLevel(t: EncounterStatic8, pk: Pk, rules: Rules8): (r: bool)
    ensures pk.metLevel == t.level ==> r
    ensures r ==> pk.metLevel == t.level || pk.metLevel == BoostLevel
    ensures r ==> pk.metLevel >= t.level
    ensures pk.metLevel != t.level ==>
              (r <==> t.level < BoostLevel && rules.isBoostedArea60(t.location) && pk.metLevel == BoostLevel)
  {
    var met := pk.metLevel;
    var lvl := t.level;
    if met == lvl then true
    else if lvl < BoostLevel && rules.isBoostedArea60(t.location) then met == BoostLevel
    else false
  }

  function IsMatchLocation(t: EncounterStatic8, pk: Pk, rules: Rules8): (r: bool)
    ensures r <==> pk.metLocation == t.location
                   || (0 <= pk.metLocation <= ByteMax && rules.crossoverMatch(t.crossover, pk.metLocation))
    ensures pk.metLocation != t.location && (pk.metLocation < 0 || pk.metLocation > ByteMax) ==> !r
  {
    var met := pk.metLocation;
    if met == t.location then true
    else if AsUInt32(met) > ByteMax then false
    else rules.crossoverMatch(t.crossover, met)
  }

  /** The egg location a never-hatched Gen 8 record carries in its format. */
  function ExpectedEggLocation(f: Format): (r: int)
    ensures f == PB8 ==> r == Default8bNone
    ensures f != PB8 ==> r == 0
  {
    if f.PB8? then Default8bNone else 0
  }

  function IsMatchEggLocation(pk: Pk): (r: bool)
    ensures pk.format == PB8 ==> (r <==> pk.eggLocation == Default8bNone)
    ensures pk.format != PB8 ==> (r <==> pk.eggLocation == 0)
  {
    var expected := ExpectedEggLocation(pk.format);
    pk.eggLocation == expected
  }

  /** A PK8 record must have at least the template's Dynamax level. */
  predicate DynamaxFloorOk(t: EncounterStatic8, pk: Pk) {
    !(pk.format == PK8 && pk.dynamaxLevel < t.dynamaxLevel)
  }

  /** In a fog-boosted area the record cannot be met below BoostLevel. */
  predicate FogFloorOk(t: EncounterStatic8, pk: Pk, rules: Rules8) {
    !(pk.metLevel < BoostLevel && FogBoosted(t, rules))
  }

  predicate GenderOk(t: EncounterStatic8, pk: Pk) {
    !(t.gender != AnyGender && pk.pinga.gender != t.gender)
  }

  predicate FormOk(t: EncounterStatic8, pk: Pk, evoForm: int, rules: Rules8) {
    !(t.form != evoForm && !rules.isFormChangeable(t.species, t.form, pk.form, pk.format))
  }

  predicate IvsOk(t: EncounterStatic8, pk: Pk, rules: Rules8) {
    !(t.ivs.Some? && !rules.ivSequenceValid(t.ivs.value, pk.pinga.ivs))
  }

  /** The eight independent checks of IsMatchExact. */
  datatype Check = LevelCheck | LocationCheck | EggLocationCheck | DynamaxCheck
                 | FogCheck | GenderCheck | FormCheck | IvCheck

  /** Whether one check accepts the record. */
  predicate Passes(c: Check, t: EncounterStatic8, pk: Pk, evoForm: int, rules: Rules8) {
    match c
    case LevelCheck => IsMatchLevel(t, pk, rules)
    case LocationCheck => IsMatchLocation(t, pk, rules)
    case EggLocationCheck => IsMatchEggLocation(pk)
    case DynamaxCheck => DynamaxFloorOk(t, pk)
    case FogCheck => FogFloorOk(t, pk, rules)
    case GenderCheck => GenderOk(t, pk)
    case FormCheck => FormOk(t, pk, evoForm, rules)
    case IvCheck => IvsOk(t, pk, rules)
  }

  /** The early-return cascade of the template, in source order. `evoForm` is the
      form of the evolution-chain entry being matched. */
  function IsMatchExact(t: EncounterStatic8, pk: Pk, evoForm: int, rules: Rules8): (r: bool)
    ensures r ==> IsMatchLevel(t, pk, rules) && IsMatchLocation(t, pk, rules) && IsMatchEggLocation(pk)
    ensures t.gender != AnyGender && pk.pinga.gender != t.gender ==> !r
    ensures pk.format == PK8 && pk.dynamaxLevel < t.dynamaxLevel ==> !r
    ensures pk.metLevel < BoostLevel && FogBoosted(t, rules) ==> !r
  {
    if !IsMatchLevel(t, pk, rules) then false
    else if !IsMatchLocation(t, pk, rules) then false
    else if !IsMatchEggLocation(pk) then false
    else if pk.format == PK8 && pk.dynamaxLevel < t.dynamaxLevel then false
    else if pk.metLevel < BoostLevel && FogBoosted(t, rules) then false
    else if t.gender != AnyGender && pk.pinga.gender != t.gender then false
    else if t.form != evoForm && !rules.isFormChangeable(t.species, t.form, pk.form, pk.format) then false
    else if t.ivs.Some? && !rules.ivSequenceValid(t.ivs.value, pk.pinga.ivs) then false
    else true
  }

  /** The cascade is a plain conjunction: a record matches exactly when every
      one of the eight checks accepts it, whatever order they are asked in. */
  lemma IsMatchExactIsConjunction(t: EncounterStatic8, pk: Pk, evoForm: int, rules: Rules8)
    ensures IsMatchExact(t, pk, evoForm, rules) <==> forall c: Check :: Passes(c, t, pk, evoForm, rules)
  {
    if IsMatchExact(t, pk, evoForm, rules) {
      forall c: Check ensures Passes(c, t, pk, evoForm, rules) {
        match c
        case LevelCheck =>
        case LocationCheck =>
        case EggLocationCheck =>
        case DynamaxCheck =>
        case FogCheck =>
        case GenderCheck =>
        case FormCheck =>
        case IvCheck =>
      }
    } else {
      var failing :=
        if !Passes(LevelCheck, t, pk, evoForm, rules) then LevelCheck
        else if !Passes(LocationCheck, t, pk, evoForm, rules) then LocationCheck
        else if !Passes(EggLocationCheck, t, pk, evoForm, rules) then EggLocationCheck
        else if !Passes(DynamaxCheck, t, pk, evoForm, rules) then DynamaxCheck
        else if !Passes(FogCheck, t, pk, evoForm, rules) then FogCheck
        else if !Passes(GenderCheck, t, pk, evoForm, rules) then GenderCheck
        else if !Passes(FormCheck, t, pk, evoForm, rules) then FormCheck
        else IvCheck;
      assert !Passes(failing, t, pk, evoForm, rules);
    }
  }

  /** The Dynamax floor is a PK8-only check: a record of any other format is
      matched the same whatever Dynamax level it reports. */
  lemma DynamaxFloorOnlyForPK8(t: EncounterStatic8, pk: Pk, evoForm: int, rules: Rules8, d: int)
    requires pk.format != PK8
    ensures IsMatchExact(t, pk.(dynamaxLevel := d), evoForm, rules)
            == IsMatchExact(t, pk, evoForm, rules)
  {
  }

  // ---------------------------------------------------------------------------
  // Match rating

  /** The record holds the hidden ability and the template is a known partial
      match for that species pairing. */
  predicate PartialHidden(t: EncounterStatic8, pk: Pk, rules: Rules8) {
    pk.pinga.abilityNumber == HiddenAbilityNumber && rules.isPartialMatchHidden(pk.species, t.species)
  }

  /** Whether the record is correlated disagrees with whether it must be. */
  predicate CorrelationMismatch(t: EncounterStatic8, pk: Pk, rng: Rng8) {
    (GetRequirement(t) == MustHave) != IsOverworldCorrelationCorrect(t, pk, rng)
  }

  predicate HasCurryMark(pk: Pk) {
    pk.marks.Some? && pk.marks.value.curry
  }

  predicate AffixedCurry(pk: Pk) {
    pk.format == PK8 && pk.affixedRibbon == MarkCurryIndex
  }

  /** A mark that no static encounter can carry under this template's weather. */
  predicate MarkDefect(t: EncounterStatic8, pk: Pk, rules: Rules8) {
    pk.marks.Some? &&
    (pk.marks.value.curry || pk.marks.value.fishing || !rules.isMarkCompatible(t.weather, pk.marks.value))
  }

  function GetMatchRating(t: EncounterStatic8, pk: Pk, rules: Rules8, rng: Rng8): (r: Rating)
    // the partial-match tier comes before any correlation check
    ensures r == PartialMatch <==> PartialHidden(t, pk, rules)
    // a correlation disagreement is an error whatever the marks say
    ensures !PartialHidden(t, pk, rules) && CorrelationMismatch(t, pk, rng) ==> r == DeferredErrors
    // only a Shedinja with an affixed curry ribbon and no curry mark is Deferred
    ensures r == Deferred <==>
              !PartialHidden(t, pk, rules) && !CorrelationMismatch(t, pk, rng)
              && pk.species == Shedinja && !HasCurryMark(pk) && AffixedCurry(pk)
    // a full match needs every later tier to pass
    ensures r == Match <==>
              !PartialHidden(t, pk, rules) && !CorrelationMismatch(t, pk, rng)
              && (if pk.species == Shedinja then !HasCurryMark(pk) && !AffixedCurry(pk)
                  else !MarkDefect(t, pk, rules))
  {
    if pk.pinga.abilityNumber == HiddenAbilityNumber && rules.isPartialMatchHidden(pk.species, t.species) then
      PartialMatch
    else if (GetRequirement(t) == MustHave) != IsOverworldCorrelationCorrect(t, pk, rng) then
      DeferredErrors
    else if pk.species == Shedinja then
      // a Shedinja loses its marks on evolving, but not the affixed ribbon value
      if pk.marks.Some? && pk.marks.value.curry then DeferredErrors
      else if pk.format == PK8 && pk.affixedRibbon == MarkCurryIndex then Deferred
      else Match
    else if pk.marks.Some?
            && (pk.marks.value.curry || pk.marks.value.fishing
                || !rules.isMarkCompatible(t.weather, pk.marks.value)) then
      DeferredErrors
    else
      Match
  }

  /** A record that must be correlated but is not (its hidden bits were rolled
      independently) is never a Match: unless the partial-match tier catches it
      first, it is DeferredErrors. */
  lemma UncorrelatedSpawnIsDeferredErrors(t: EncounterStatic8, pk: Pk, rules: Rules8, rng: Rng8)
    requires IsOverworldCorrelation(t)
    requires !IsOverworldCorrelationCorrect(t, pk, rng)
    ensures GetMatchRating(t, pk, rules, rng) != Match
    ensures !PartialHidden(t, pk, rules) ==> GetMatchRating(t, pk, rules, rng) == DeferredErrors
  {
  }

  /** A gift whose record is not correlated passes the correlation tier: with no
      partial match, no Shedinja special case and no mark defect it is a Match. */
  lemma UncorrelatedGiftMatches(t: EncounterStatic8, pk: Pk, rules: Rules8, rng: Rng8)
    requires Gift(t)
    requires !IsOverworldCorrelationCorrect(t, pk, rng)
    requires !PartialHidden(t, pk, rules)
    requires pk.species != Shedinja && !MarkDefect(t, pk, rules)
    ensures GetMatchRating(t, pk, rules, rng) == Match
  {
  }

  /** A Shedinja never reaches the general mark check: its rating is the same
      under any weather compatibility oracle, and a fishing mark or a weather
      mark never makes it DeferredErrors. */
  lemma ShedinjaSkipsMarkCheck(t: EncounterStatic8, pk: Pk, rules: Rules8, rng: Rng8,
                               compatible: (Weather, Marks8) -> bool)
    requires pk.species == Shedinja
    ensures GetMatchRating(t, pk, rules.(isMarkCompatible := compatible), rng) == GetMatchRating(t, pk, rules, rng)
    ensures !PartialHidden(t, pk, rules) && !CorrelationMismatch(t, pk, rng) ==>
              (GetMatchRating(t, pk, rules, rng) == DeferredErrors <==> HasCurryMark(pk))
  {
  }
}
