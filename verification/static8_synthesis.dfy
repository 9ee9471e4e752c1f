/** Building a PK8 record from an EncounterStatic8 template (ConvertToPKM and
    SetPINGA), and what the matcher says about the records it builds. */
module Static8Synthesis {
  import opened Primitives
  import opened Static8

  /** Trainer context (ITrainerInfo): ID32, game, language, gender, OT name. */
  datatype Trainer = Trainer(id32: u32, game: int, language: int, gender: int, ot: string)

  /** The nondeterministic inputs of synthesis: Util.Rand32, the two
      PokeSizeUtil.GetRandomScalar rolls and EncounterDate.GetDateSwitch. */
  datatype Draws = Draws(rand32: u32, heightScalar: u8, weightScalar: u8, metDate: int)

  /** Catalogue lookups used while building a record, injected as total functions:
      GetCompatibleVersion (template version, trainer game),
      Language.GetSafeLanguage (generation, language, version),
      PersonalTable.SWSH base friendship (species, form),
      SpeciesName.GetSpeciesNameGeneration (species, language, generation),
      EncounterUtil1.SetEncounterMoves (species, form, version, level). */
  datatype Tables8 = Tables8(
    compatibleVersion: (int, int) -> int,
    safeLanguage: (int, int, int) -> int,
    baseFriendship: (int, int) -> int,
    speciesName: (int, int, int) -> string,
    encounterMoves: (int, int, int, int) -> seq<int>)

  /** The hidden fields of a freshly constructed PK8: all zero. */
  const BlankPinga: Pinga := Pinga(0, 0, [0, 0, 0, 0, 0, 0], 0, 0, 0)

  /** A freshly constructed PK8: zero-filled, no mark ribbons set, and no ribbon
      affixed (AffixedRibbon = -1). */
  const BlankPK8: Pk := Pk(
    PK8, 0, 0, 0, 0, 0, 0, 0, 0, false,
    0, 0, 0, 0, "", 0, "",
    0, 0, 0, false,
    BlankPinga, Some(Marks8(false, false, {})), -1, [])

  /** The ball of a built record: the template's fixed ball, else a Poke Ball. */
  function DefaultBall(t: EncounterStatic8): (b: u8)
    ensures Gift(t) ==> b == t.fixedBall
    ensures !Gift(t) ==> b == BallPoke
    ensures b != BallNone
  {
    if t.fixedBall != BallNone then t.fixedBall else BallPoke
  }

  /** The level a built record carries: BoostLevel in a fog-boosted area,
      the template's level otherwise. */
  function BuiltLevel(t: EncounterStatic8, rules: Rules8): (l: u8)
    ensures FogBoosted(t, rules) ==> l == BoostLevel
    ensures !FogBoosted(t, rules) ==> l == t.level
  {
    if FogBoosted(t, rules) then BoostLevel else t.level
  }

  /** SetPINGA: the fog level boost, then either a bare random encryption
      constant (no correlation required) or the RNG applicator's bundle. */
  function SetPinga(t: EncounterStatic8, pk: Pk, criteria: Criteria, rules: Rules8, rng: Rng8, rand32: u32): (r: Pk)
    // nothing but the two levels and the hidden bundle changes
    ensures r.(currentLevel := pk.currentLevel, metLevel := pk.metLevel, pinga := pk.pinga) == pk
    ensures FogBoosted(t, rules) ==> r.currentLevel == BoostLevel && r.metLevel == BoostLevel
    ensures !FogBoosted(t, rules) ==> r.currentLevel == pk.currentLevel && r.metLevel == pk.metLevel
    // a template that need not correlate gets only a fresh encryption constant
    ensures !IsOverworldCorrelation(t) ==> r.pinga == pk.pinga.(encryptionConstant := rand32)
    // a correlated template gets the applicator's bundle, under the shiny policy the validator uses
    ensures IsOverworldCorrelation(t) ==>
              r.pinga == rng.apply(r.(pinga := pk.pinga), criteria, EffectiveShiny(t.shiny), t.flawlessIVCount)
  {
    var pk := if FogBoosted(t, rules) then pk.(currentLevel := BoostLevel, metLevel := BoostLevel) else pk;
    if GetRequirement(t) != MustHave then
      pk.(pinga := pk.pinga.(encryptionConstant := rand32))
    else
      var shiny := if t.shiny == Random then FixedValue else t.shiny;
      pk.(pinga := rng.apply(pk, criteria, shiny, t.flawlessIVCount))
  }

  /** The record built before SetPINGA runs. */
  function Prefill(t: EncounterStatic8, tr: Trainer, tables: Tables8, draws: Draws): (pk: Pk)
    ensures pk.format == PK8 && pk.eggLocation == 0 && pk.marks == Some(Marks8(false, false, {}))
    ensures pk.species == t.species && pk.metLocation == t.location
    ensures pk.currentLevel == t.level && pk.metLevel == t.level
    ensures pk.ball == DefaultBall(t) && pk.dynamaxLevel == t.dynamaxLevel
    ensures pk.pinga == BlankPinga
    // Form is never assigned, so the record keeps the blank form 0
    ensures pk.form == 0
  {
    var version := tables.compatibleVersion(t.version, tr.game);
    var lang := tables.safeLanguage(Generation, tr.language, version);
    BlankPK8.(
      species := t.species,
      currentLevel := t.level,
      metLocation := t.location,
      metLevel := t.level,
      metDate := draws.metDate,
      ball := DefaultBall(t),
      fatefulEncounter := t.fatefulEncounter,
      id32 := tr.id32,
      version := AsByte(version),
      language := lang,
      otGender := tr.gender,
      otName := tr.ot,
      otFriendship := tables.baseFriendship(t.species, t.form),
      nickname := tables.speciesName(t.species, lang, Generation),
      heightScalar := draws.heightScalar,
      weightScalar := draws.weightScalar,
      dynamaxLevel := t.dynamaxLevel,
      canGigantamax := t.canGigantamax)
  }

  /** ConvertToPKM: prefill, SetPINGA, then the encounter moves for the
      template's own level. */
  function ConvertToPKM(t: EncounterStatic8, tr: Trainer, criteria: Criteria,
                        tables: Tables8, rules: Rules8, rng: Rng8, draws: Draws): (r: Pk)
    ensures r.format == PK8
    ensures r.ball == (if Gift(t) then t.fixedBall else BallPoke)
    ensures r.species == t.species && r.metLocation == t.location && r.eggLocation == 0
    ensures r.currentLevel == r.metLevel == BuiltLevel(t, rules)
    ensures r.dynamaxLevel == t.dynamaxLevel && r.canGigantamax == t.canGigantamax
    ensures r.fatefulEncounter == t.fatefulEncounter && r.id32 == tr.id32 && r.otName == tr.ot
    ensures r.otGender == tr.gender
    ensures r.form == 0
    ensures r.otFriendship == tables.baseFriendship(t.species, t.form)
    // the stored version is the compatible version cut to a byte; the language
    // and move lookups see the full value
    ensures var v := tables.compatibleVersion(t.version, tr.game);
            && (0 <= v < 0x100 ==> r.version == v)
            && (v - r.version) % 0x100 == 0 && 0 <= r.version < 0x100
            && r.language == tables.safeLanguage(Generation, tr.language, v)
            && r.moves == tables.encounterMoves(t.species, 0, v, t.level)
    ensures r.marks == Some(Marks8(false, false, {})) && r.affixedRibbon == -1
    ensures !IsOverworldCorrelation(t) ==> r.pinga == BlankPinga.(encryptionConstant := draws.rand32)
  {
    var version := tables.compatibleVersion(t.version, tr.game);
    var pk := Prefill(t, tr, tables, draws);
    var pk := SetPinga(t, pk, criteria, rules, rng, draws.rand32);
    pk.(moves := tables.encounterMoves(pk.species, pk.form, version, t.level))
  }

  // ---------------------------------------------------------------------------
  // Round trip: what the matcher says about a built record

  /** The RNG applicator and validator agree: whatever bundle the applicator
      writes under a shiny policy and flawless count, the validator accepts the
      result under the same policy and count. */
  ghost predicate RngSound(rng: Rng8) {
    forall pk: Pk, c: Criteria, s: Shiny, n: int ::
      rng.validate(rng.apply(pk, c, s, n), pk.id32, s, n)
  }

  /** A built record always passes the location, egg-location, Dynamax-floor and
      fog-floor checks; it passes the form check exactly when the template's form
      is the evolution's or may change into the record's blank form 0, and the
      level check exactly when the fog boost is off, or the boosted level is one
      the level check accepts. */
  lemma BuiltRecordStructure(t: EncounterStatic8, tr: Trainer, criteria: Criteria,
                             tables: Tables8, rules: Rules8, rng: Rng8, draws: Draws, evoForm: int)
    ensures var pk := ConvertToPKM(t, tr, criteria, tables, rules, rng, draws);
            && Passes(LocationCheck, t, pk, evoForm, rules)
            && Passes(EggLocationCheck, t, pk, evoForm, rules)
            && Passes(DynamaxCheck, t, pk, evoForm, rules)
            && Passes(FogCheck, t, pk, evoForm, rules)
            && (Passes(FormCheck, t, pk, evoForm, rules) <==>
                  t.form == evoForm || rules.isFormChangeable(t.species, t.form, 0, PK8))
            && (Passes(LevelCheck, t, pk, evoForm, rules) <==>
                  !FogBoosted(t, rules) || t.level == BoostLevel
                  || (t.level < BoostLevel && rules.isBoostedArea60(t.location)))
  {
  }

  /** When every fog-boosted area is also a boosted-60 area and the template is
      not above BoostLevel there, a built record passes the level check. */
  lemma BuiltRecordMatchesLevel(t: EncounterStatic8, tr: Trainer, criteria: Criteria,
                                tables: Tables8, rules: Rules8, rng: Rng8, draws: Draws)
    requires FogBoosted(t, rules) ==> rules.isBoostedArea60(t.location) && t.level <= BoostLevel
    ensures IsMatchLevel(t, ConvertToPKM(t, tr, criteria, tables, rules, rng, draws), rules)
  {
  }

  /** Without that assumption the round trip can fail: a level-50 template in a
      fog area that is not a boosted-60 area builds a level-60 record that its own
      level check rejects. */
  lemma FogOutsideBoostedAreaBreaksRoundTrip(tr: Trainer, criteria: Criteria, tables: Tables8, rng: Rng8, draws: Draws)
    ensures var t := EncounterStatic8(0, 10, 25, 0, 50, None, 0, HeavyFog, 0, Random, AnyGender,
                                      BallNone, 3, false, false, false);
            var rules := Rules8(_ => false, _ => true, (_, _) => false, (_, _, _, _) => false,
                                (_, _) => false, (_, _) => true, (_, _) => false);
            !IsMatchLevel(t, ConvertToPKM(t, tr, criteria, tables, rules, rng, draws), rules)
  {
  }

  /** A template that must correlate builds a correlated record, provided the
      applicator and validator agree: the built record is never rejected for its
      correlation. */
  lemma BuiltRecordCorrelates(t: EncounterStatic8, tr: Trainer, criteria: Criteria,
                              tables: Tables8, rules: Rules8, rng: Rng8, draws: Draws)
    requires IsOverworldCorrelation(t)
    requires RngSound(rng)
    ensures !CorrelationMismatch(t, ConvertToPKM(t, tr, criteria, tables, rules, rng, draws), rng)
  {
  }

  /** The full round trip on the rating: a built record rates Match, provided the
      RNG applicator and validator agree (correlated templates), the bare random
      encryption constant does not happen to validate (gifts and scripted
      encounters), the template's species is no partial-match case for itself,
      and the weather admits a record without marks (unless the species is
      Shedinja, which skips the mark check). */
  lemma BuiltRecordRatesMatch(t: EncounterStatic8, tr: Trainer, criteria: Criteria,
                              tables: Tables8, rules: Rules8, rng: Rng8, draws: Draws)
    requires IsOverworldCorrelation(t) ==> RngSound(rng)
    requires !IsOverworldCorrelation(t) ==>
               !rng.validate(BlankPinga.(encryptionConstant := draws.rand32), tr.id32,
                             EffectiveShiny(t.shiny), t.flawlessIVCount)
    requires !rules.isPartialMatchHidden(t.species, t.species)
    requires t.species != Shedinja ==> rules.isMarkCompatible(t.weather, Marks8(false, false, {}))
    ensures GetMatchRating(t, ConvertToPKM(t, tr, criteria, tables, rules, rng, draws), rules, rng) == Match
  {
  }

  /** SetPINGA's gift path writes only the encryption constant, so a gift or
      scripted template that fixes a gender other than 0 builds a record its own
      structural match rejects on gender. */
  lemma FixedGenderGiftFailsGenderCheck(t: EncounterStatic8, tr: Trainer, criteria: Criteria,
                                        tables: Tables8, rules: Rules8, rng: Rng8, draws: Draws, evoForm: int)
    requires !IsOverworldCorrelation(t)
    requires t.gender != AnyGender && t.gender != 0
    ensures !IsMatchExact(t, ConvertToPKM(t, tr, criteria, tables, rules, rng, draws), evoForm, rules)
  {
  }

  /** The same zeroed bundle fails a specified IV set: a gift or scripted
      template whose IV sequence does not admit all-zero IVs builds a record its
      own structural match rejects. */
  lemma SpecifiedIvGiftFailsIvCheck(t: EncounterStatic8, tr: Trainer, criteria: Criteria,
                                    tables: Tables8, rules: Rules8, rng: Rng8, draws: Draws, evoForm: int)
    requires !IsOverworldCorrelation(t)
    requires t.ivs.Some? && !rules.ivSequenceValid(t.ivs.value, BlankPinga.ivs)
    ensures !IsMatchExact(t, ConvertToPKM(t, tr, criteria, tables, rules, rng, draws), evoForm, rules)
  {
  }

  /** The RNG applicator writes a bundle this template's gender and IV checks
      accept: the fixed gender, when the template fixes one, and IVs its
      specified IV set admits. */
  ghost predicate ApplicatorHonours(t: EncounterStatic8, rules: Rules8, rng: Rng8) {
    forall pk: Pk, c: Criteria, s: Shiny, n: int ::
      (t.gender != AnyGender ==> rng.apply(pk, c, s, n).gender == t.gender)
      && (t.ivs.Some? ==> rules.ivSequenceValid(t.ivs.value, rng.apply(pk, c, s, n).ivs))
  }

  /** What a template must satisfy for the structural round trip through the
      record builders: fog-boosted areas are boosted-60 areas with the template
      not above BoostLevel there; a correlated template's applicator honours its
      gender and IVs; a gift or scripted template, whose bundle stays zeroed,
      fixes no gender but 0 and admits all-zero IVs. */
  ghost predicate RoundTripHypotheses(t: EncounterStatic8, rules: Rules8, rng: Rng8) {
    && (FogBoosted(t, rules) ==> rules.isBoostedArea60(t.location) && t.level <= BoostLevel)
    && (IsOverworldCorrelation(t) ==> ApplicatorHonours(t, rules, rng))
    && (!IsOverworldCorrelation(t) ==>
          (t.gender == AnyGender || t.gender == 0)
          && (t.ivs.Some? ==> rules.ivSequenceValid(t.ivs.value, BlankPinga.ivs)))
  }

  /** The full structural round trip of the builder as written: under the
      hypotheses above, and with a template form of 0 or one that may change
      into form 0, a built record matches its own template exactly. */
  lemma BuiltRecordMatchesExact(t: EncounterStatic8, tr: Trainer, criteria: Criteria,
                                tables: Tables8, rules: Rules8, rng: Rng8, draws: Draws)
    requires RoundTripHypotheses(t, rules, rng)
    requires t.form == 0 || rules.isFormChangeable(t.species, t.form, 0, PK8)
    ensures var pk := ConvertToPKM(t, tr, criteria, tables, rules, rng, draws);
            IsMatchExact(t, pk, pk.form, rules)
  {
  }

  /** The builder never assigns Form, so a template of any other form than 0
      that may not change into form 0 builds a record its own structural match
      rejects, whatever else holds. */
  lemma FormedTemplateFailsFormCheck(t: EncounterStatic8, tr: Trainer, criteria: Criteria,
                                     tables: Tables8, rules: Rules8, rng: Rng8, draws: Draws)
    requires t.form != 0 && !rules.isFormChangeable(t.species, t.form, 0, PK8)
    ensures var pk := ConvertToPKM(t, tr, criteria, tables, rules, rng, draws);
            !Passes(FormCheck, t, pk, pk.form, rules) && !IsMatchExact(t, pk, pk.form, rules)
  {
  }

  // ---------------------------------------------------------------------------
  // The builder with the template's form written

  /** ConvertToPKM with the initializer also setting the record's Form to the
      template's; the move lookup then sees that form. */
  function ConvertToPKMWithForm(t: EncounterStatic8, tr: Trainer, criteria: Criteria,
                                tables: Tables8, rules: Rules8, rng: Rng8, draws: Draws): (r: Pk)
    ensures r.form == t.form
    ensures r.moves == tables.encounterMoves(t.species, t.form, tables.compatibleVersion(t.version, tr.game), t.level)
    // every other field but the applicator's bundle is what the builder as written stores
    ensures var w := ConvertToPKM(t, tr, criteria, tables, rules, rng, draws);
            r.(form := w.form, moves := w.moves, pinga := w.pinga) == w
    // the applicator is not consulted for a gift or scripted template, so its bundle is unchanged too
    ensures !IsOverworldCorrelation(t) ==>
              r.pinga == ConvertToPKM(t, tr, criteria, tables, rules, rng, draws).pinga
  {
    var version := tables.compatibleVersion(t.version, tr.game);
    var pk := Prefill(t, tr, tables, draws).(form := t.form);
    var pk := SetPinga(t, pk, criteria, rules, rng, draws.rand32);
    pk.(moves := tables.encounterMoves(pk.species, pk.form, version, t.level))
  }

  /** With the form written, the structural round trip needs no hypothesis about
      form changes: under the other hypotheses every built record matches its own
      template exactly. */
  lemma FormedRecordMatchesExact(t: EncounterStatic8, tr: Trainer, criteria: Criteria,
                                 tables: Tables8, rules: Rules8, rng: Rng8, draws: Draws)
    requires RoundTripHypotheses(t, rules, rng)
    ensures var pk := ConvertToPKMWithForm(t, tr, criteria, tables, rules, rng, draws);
            IsMatchExact(t, pk, pk.form, rules)
  {
  }

  // ---------------------------------------------------------------------------
  // The gift path with the template's fixed gender written

  /** SetPINGA with the gift path also writing the template's fixed gender (when
      it fixes one); the correlated path and the fog boost are unchanged. */
  function SetPingaFixedGender(t: EncounterStatic8, pk: Pk, criteria: Criteria, rules: Rules8,
                               rng: Rng8, rand32: u32): (r: Pk)
    // it differs from SetPINGA as written only in the gift path's gender
    ensures IsOverworldCorrelation(t) || t.gender == AnyGender ==>
              r == SetPinga(t, pk, criteria, rules, rng, rand32)
    ensures var w := SetPinga(t, pk, criteria, rules, rng, rand32);
            r.(pinga := r.pinga.(gender := w.pinga.gender)) == w
    // a gift or scripted template's record carries its fixed gender
    ensures !IsOverworldCorrelation(t) && t.gender != AnyGender ==> r.pinga.gender == t.gender
  {
    var r := SetPinga(t, pk, criteria, rules, rng, rand32);
    if !IsOverworldCorrelation(t) && t.gender != AnyGender then r.(pinga := r.pinga.(gender := t.gender))
    else r
  }

  /** With the corrected gift path the gender round trip holds for every gift
      or scripted template: the record built through it passes the gender check. */
  lemma FixedGenderGiftPassesGenderCheck(t: EncounterStatic8, tr: Trainer, criteria: Criteria,
                                         tables: Tables8, rules: Rules8, rng: Rng8, draws: Draws)
    requires !IsOverworldCorrelation(t)
    ensures GenderOk(t, SetPingaFixedGender(t, Prefill(t, tr, tables, draws), criteria, rules, rng, draws.rand32))
  {
  }
}
