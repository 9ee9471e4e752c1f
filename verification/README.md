# Encounter matching cores of PKHeX, modelled in Dafny

This project models two decision cores of PKHeX's legality engine. They take a
creature record ("PKM") and decide which catalogued encounter template produced it.

1. **EncounterStatic8**, the Generation 8 (Sword/Shield) static encounter template.
   - `IsMatchExact` decides whether a record can structurally have come from the template. It checks met level, met location, egg location, the Dynamax floor, the Heavy Fog level floor, gender, form and the fixed IV sequence.
   - `GetMatchRating` grades a structural match as PartialMatch, DeferredErrors, Deferred or Match. The tiers are: the hidden-ability partial match, the overworld RNG correlation requirement, the Shedinja curry-mark exception, and the mark/weather check.
   - `ConvertToPKM` / `SetPINGA` build a PK8 from the template. This covers ball defaulting, the Heavy Fog level boost, and the choice between a bare random encryption constant (gifts and scripted encounters) and the overworld RNG applicator.
2. **GBEncounterData**, the Generation 1/2 normaliser. It wraps a trade, static, wild-slot or other encounter. It computes an effective `Level` (and `MoveLevel`) and a `GBEncounterType` tag. It also has a separate egg constructor.

Files:
- `primitives.dfy`: .NET integer widths and the unchecked `(uint)` cast.
- `static8.dfy`: the template, the record, the correlation requirement, matching and rating.
- `static8_synthesis.dfy`: record synthesis, plus round-trip lemmas against the matcher.
- `gb_encounter.dfy`: the Gen 1/2 normaliser.

Collaborators outside these two files are injected as total functions in records:
- `Rules8`: the boosted-area tables, crossover locations, form-change rules, the fixed IV sequence test, weather/mark compatibility, and the partial hidden-ability test.
- `Rng8`: `Overworld8RNG`'s validator and applicator.
- `Tables8`: version, language, friendship, species name and encounter moves.

Nondeterministic draws (`Util.Rand32`, the size scalars, the met date) are a `Draws` parameter. Constants taken from other files:
- `EncounterArea8.BoostLevel` = 60
- `Locations.Default8bNone` = 65535
- `Ball.None` = 0 and `Ball.Poke` = 4
- `Species.Shedinja` = 292
- `RibbonIndex.MarkCurry` = 67
- a new PK8 is zero-filled with `AffixedRibbon` = -1

Three behaviours of the code are easy to misread. The model follows the code in each:
- The wild-slot guard tests `LevelMin >= Met_Level`, not "met level within the slot's range". See Findings.
- The egg constructor leaves `Type` at the default 0, not `EggEncounter`. It also wraps an egg of level 0, because the egg is built from `Level` before `Level` is assigned.
- The synthesise-then-match round trip does not hold for every template:
  - It holds for the level check only when a fog-boosted area is also a boosted-60 area (`FogOutsideBoostedAreaBreaksRoundTrip`).
  - The builder never assigns `Form`, so every built record has form 0. A template of another form that may not change into form 0 therefore builds a record its own form check rejects, correlated or not (`FormedTemplateFailsFormCheck`). See Findings.
  - The gift path writes only the encryption constant. PID, IVs, nature, gender and ability keep the zeroed defaults of a new PK8. A gift that fixes a non-zero gender therefore builds a record its own gender check rejects (`FixedGenderGiftFailsGenderCheck`). So does a gift with a specified IV set that does not admit all-zero IVs (`SpecifiedIvGiftFailsIvCheck`). See Findings.
  - With all three causes ruled out by explicit hypotheses, the structural round trip holds in full (`BuiltRecordMatchesExact`).

## Model

| member | source | states |
|---|---|---|
| Primitives.AsUInt32 | PKHeX.Core/Legality/Encounters/Templates/Gen8/EncounterStatic8.cs:161 | the `(uint)` cast keeps the value modulo 2^32, and a negative location maps above 2^31 |
| Primitives.AsByte | PKHeX.Core/Legality/Encounters/Templates/Gen8/EncounterStatic8.cs:88 | the `(byte)` cast keeps a value in 0..255 and otherwise keeps it modulo 256 |
| Static8.Gift | PKHeX.Core/Legality/Encounters/Templates/Gen8/EncounterStatic8.cs:15 | a template is a gift exactly when its fixed ball is not Ball.None |
| Static8.IsOverworldCorrelation | PKHeX.Core/Legality/Encounters/Templates/Gen8/EncounterStatic8.cs:45-55 | correlation is required exactly when the template fixes no ball and is not scripted |
| Static8.GetRequirement | PKHeX.Core/Legality/Encounters/Templates/Gen8/EncounterStatic8.cs:57-59 | MustHave exactly when FixedBall is None and ScriptedNoMarks is false; MustNotHave exactly for gifts or scripted encounters |
| Static8.EffectiveShiny | PKHeX.Core/Legality/Encounters/Templates/Gen8/EncounterStatic8.cs:61-64 | Random becomes FixedValue, so the RNG never sees Random; every other shiny policy passes unchanged |
| Static8.IsOverworldCorrelationCorrect | PKHeX.Core/Legality/Encounters/Templates/Gen8/EncounterStatic8.cs:61-64 | the record is judged by the RNG validator under the template's flawless IV count, with a Random template validated as FixedValue and every other shiny policy as itself |
| Static8.IsMatchLevel | PKHeX.Core/Legality/Encounters/Templates/Gen8/EncounterStatic8.cs:166-175 | the template level is always accepted; any accepted met level is the template level or BoostLevel and never below the template level; a different met level is accepted iff it is BoostLevel, the template is below BoostLevel and the location is a boosted-60 area |
| Static8.IsMatchLocation | PKHeX.Core/Legality/Encounters/Templates/Gen8/EncounterStatic8.cs:156-164 | accepted iff the met location equals the template's, or is a byte value the crossover set admits; any other location outside 0..255 is rejected |
| Static8.ExpectedEggLocation | PKHeX.Core/Legality/Encounters/Templates/Gen8/EncounterStatic8.cs:152 | Default8bNone for PB8 and 0 for every other format |
| Static8.IsMatchEggLocation | PKHeX.Core/Legality/Encounters/Templates/Gen8/EncounterStatic8.cs:150-154 | a PB8 must carry Default8bNone and any other record 0 |
| Static8.IsMatchExact | PKHeX.Core/Legality/Encounters/Templates/Gen8/EncounterStatic8.cs:129-148 | a match implies the level, location and egg checks; a fixed-gender template rejects every other gender; a PK8 below the Dynamax floor and a record met below BoostLevel in a fog-boosted area are rejected |
| Static8.IsMatchExactIsConjunction | PKHeX.Core/Legality/Encounters/Templates/Gen8/EncounterStatic8.cs:129-148 | the early-return cascade accepts exactly when all eight checks accept, so their order does not matter |
| Static8.DynamaxFloorOnlyForPK8 | PKHeX.Core/Legality/Encounters/Templates/Gen8/EncounterStatic8.cs:137 | for a record that is not a PK8, the reported Dynamax level never changes the structural verdict |
| Static8.GetMatchRating | PKHeX.Core/Legality/Encounters/Templates/Gen8/EncounterStatic8.cs:177-203 | PartialMatch exactly for a hidden-ability partial case, before any other tier; otherwise a correlation mismatch is DeferredErrors; Deferred only for a PK8 Shedinja with an affixed curry ribbon and no curry mark; Match exactly when no tier objects, with Shedinja exempt from the fishing and weather mark checks |
| Static8.UncorrelatedSpawnIsDeferredErrors | PKHeX.Core/Legality/Encounters/Templates/Gen8/EncounterStatic8.cs:182-185 | a template that needs correlation never rates an uncorrelated record Match; without a partial match it rates DeferredErrors |
| Static8.UncorrelatedGiftMatches | PKHeX.Core/Legality/Encounters/Templates/Gen8/EncounterStatic8.cs:177-202 | a gift rates an uncorrelated record Match when no partial match, Shedinja case or mark defect applies |
| Static8.ShedinjaSkipsMarkCheck | PKHeX.Core/Legality/Encounters/Templates/Gen8/EncounterStatic8.cs:188-200 | a Shedinja's rating does not depend on the weather compatibility oracle; past the first two tiers it is DeferredErrors iff it carries the curry mark |
| Static8Synthesis.DefaultBall | PKHeX.Core/Legality/Encounters/Templates/Gen8/EncounterStatic8.cs:84 | the fixed ball for a gift, a Poke Ball otherwise, and never Ball.None |
| Static8Synthesis.BuiltLevel | PKHeX.Core/Legality/Encounters/Templates/Gen8/EncounterStatic8.cs:112-113 | BoostLevel in a Heavy Fog boosted area, the template level otherwise |
| Static8Synthesis.SetPinga | PKHeX.Core/Legality/Encounters/Templates/Gen8/EncounterStatic8.cs:110-123 | changes only the two levels and the hidden bundle; a non-correlated template gets only a fresh encryption constant; a correlated one gets the applicator's bundle under the same shiny mapping the validator uses. On the correlated path, "only the hidden bundle" rests on the assumption that ApplyDetails writes nothing but the PINGA fields: the source hands it the whole record |
| Static8Synthesis.Prefill | PKHeX.Core/Legality/Encounters/Templates/Gen8/EncounterStatic8.cs:77-100 | a PK8 with the template's species, location, level, Dynamax level and defaulted ball, no egg location, no marks and a blank hidden bundle |
| Static8Synthesis.ConvertToPKM | PKHeX.Core/Legality/Encounters/Templates/Gen8/EncounterStatic8.cs:73-108 | the built PK8's ball, species, location, egg location, levels (fog-boosted or the template's), Dynamax and Gigantamax fields, marks, trainer fields (ID32, OT name, OT gender), the friendship of the template's species and form, and form 0 (never assigned); the stored version is the compatible version cut to a byte, while the language and the moves are looked up with the full value; a non-correlated template's record holds only a random encryption constant; moves are those of the template's own level |
| Static8Synthesis.BuiltRecordStructure | PKHeX.Core/Legality/Encounters/Templates/Gen8/EncounterStatic8.cs:129-140 | a built record always passes the location, egg-location, Dynamax and fog checks; it passes the form check iff the template's form is the evolution's or may change into form 0; and it passes the level check iff the fog boost is off or lands on a level the level check accepts |
| Static8Synthesis.BuiltRecordMatchesLevel | PKHeX.Core/Legality/Encounters/Templates/Gen8/EncounterStatic8.cs:166-175 | if fog-boosted areas are boosted-60 areas and the template is at most BoostLevel there, a built record passes the level check |
| Static8Synthesis.FogOutsideBoostedAreaBreaksRoundTrip | PKHeX.Core/Legality/Encounters/Templates/Gen8/EncounterStatic8.cs:112-113 | without that assumption a level-50 fog template builds a level-60 record its own level check rejects |
| Static8Synthesis.BuiltRecordCorrelates | PKHeX.Core/Legality/Encounters/Templates/Gen8/EncounterStatic8.cs:115-122 | a template that must correlate builds a correlated record whenever the applicator and validator agree |
| Static8Synthesis.BuiltRecordRatesMatch | PKHeX.Core/Legality/Encounters/Templates/Gen8/EncounterStatic8.cs:177-203 | a built record rates Match, given applicator/validator agreement, an uncorrelated gift seed, no self partial match, and a weather that admits unmarked records |
| Static8Synthesis.FixedGenderGiftFailsGenderCheck | PKHeX.Core/Legality/Encounters/Templates/Gen8/EncounterStatic8.cs:116-119 | a non-correlated template fixing a non-zero gender builds a record that fails its own structural match |
| Static8Synthesis.SpecifiedIvGiftFailsIvCheck | PKHeX.Core/Legality/Encounters/Templates/Gen8/EncounterStatic8.cs:116-119 | a non-correlated template whose IV set rejects all-zero IVs builds a record that fails its own structural match |
| Static8Synthesis.BuiltRecordMatchesExact | PKHeX.Core/Legality/Encounters/Templates/Gen8/EncounterStatic8.cs:73-148 | the full structural round trip: with fog areas inside boosted-60 areas, an applicator that writes the fixed gender and admissible IVs (or, for gifts, a gender of 0 or any and an IV set admitting zeros), and a form of 0 or one that may change into 0, a built record matches its own template |
| Static8Synthesis.FormedTemplateFailsFormCheck | PKHeX.Core/Legality/Encounters/Templates/Gen8/EncounterStatic8.cs:77-100 | a template of a form other than 0 that may not change into form 0 builds a record that fails its own form check and structural match |
| Static8Synthesis.ConvertToPKMWithForm | PKHeX.Core/Legality/Encounters/Templates/Gen8/EncounterStatic8.cs:73-108 | the corrected builder: the record carries the template's form and that form's moves, and every other field except the applicator's bundle equals the as-written builder's; a gift's bundle is equal too |
| Static8Synthesis.FormedRecordMatchesExact | PKHeX.Core/Legality/Encounters/Templates/Gen8/EncounterStatic8.cs:129-148 | with the form written, the structural round trip holds under the same hypotheses without any form-change assumption |
| Static8Synthesis.SetPingaFixedGender | PKHeX.Core/Legality/Encounters/Templates/Gen8/EncounterStatic8.cs:110-123 | the corrected gift path: equal to SetPINGA as written except for the gender, which a gift or scripted template fixing one now carries |
| Static8Synthesis.FixedGenderGiftPassesGenderCheck | PKHeX.Core/Legality/Encounters/Templates/Gen8/EncounterStatic8.cs:141 | every gift or scripted record built through the corrected gift path passes the gender check |
| GBEncounter.Code | PKHeX.Core/Legality/Structures/GBEncounterData.cs:5-13 | every tag has one of the enum's values, and only the unset default has value 0 |
| GBEncounter.CodeInjective | PKHeX.Core/Legality/Structures/GBEncounterData.cs:5-13 | no two tags share a value |
| GBEncounter.NewEgg | PKHeX.Core/Legality/Structures/GBEncounterData.cs:32-36 | generation 2; wraps an egg of the species and game at level 0; Level and MoveLevel 0; Type left at 0, not EggEncounter |
| GBEncounter.TradeLevel | PKHeX.Core/Legality/Structures/GBEncounterData.cs:44-47 | never below the trade level; either the trade level or the original-location met level; the met level whenever it exceeds the trade level at an original location |
| GBEncounter.SlotLevel | PKHeX.Core/Legality/Structures/GBEncounterData.cs:61-63 | with the guard as written: never above LevelMin; the met level exactly when the record keeps its original met location and the met level is at most both LevelMin and LevelMax, LevelMin otherwise |
| GBEncounter.Normalize | PKHeX.Core/Legality/Structures/GBEncounterData.cs:38-67 | MoveLevel equals Level; a trade's Level is the trade level rule's value, at least the trade level, and its tag is G2 iff generation 2; a static's Level is its level and it is Special iff its first move is set and known to the record; a slot's Level is the as-written slot rule's value, at most LevelMin, and tagged Wild; anything else keeps Level 0 and tag 0 |
| GBEncounter.NormalizePassesThrough | PKHeX.Core/Legality/Structures/GBEncounterData.cs:19-29 | Species, EggEncounter, LevelMin and LevelMax come from the wrapped encounter; Gen1/Gen2 are generation 1/2 and never both |
| GBEncounter.TradeMetAboveNominalLevel | PKHeX.Core/Legality/Structures/GBEncounterData.cs:44-45 | a trade met above its nominal level at its original location takes the met level as Level and MoveLevel |
| GBEncounter.Contains | PKHeX.Core/Legality/Structures/GBEncounterData.cs:55 | the record's move search finds a move exactly when it is in the list |
| GBEncounter.NewGBEncounterData | PKHeX.Core/Legality/Structures/GBEncounterData.cs:38-67 | the statement-by-statement constructor with a looping move search builds exactly the normalised view |
| GBEncounter.SlotLevelIgnoresInRangeMetLevel | PKHeX.Core/Legality/Structures/GBEncounterData.cs:61 | met level 4 in a 2..5 slot gives level 2, and met level 1 gives level 1 |
| GBEncounter.SlotLevelInRange | PKHeX.Core/Legality/Structures/GBEncounterData.cs:61-63 | with the range test: the level lies in LevelMin..LevelMax, and is the met level whenever that lies in range at an original location |
| GBEncounter.SlotLevelGuardsAgreeAtLevelMin | PKHeX.Core/Legality/Structures/GBEncounterData.cs:61-63 | the two guards agree when the met level equals LevelMin or exceeds LevelMax |

## Left out

- Overworld8RNG: the seed algorithm is not modelled. The validator and applicator are the injected `Rng8` functions, and the applicator's effect is the PINGA bundle it returns (encryption constant, PID, IVs, nature, gender, ability number). Whether they agree is the explicit `RngSound` hypothesis. The source hands ApplyDetails the whole record, so the model assumes it writes nothing beyond those fields.
- Util.Rand32, PokeSizeUtil.GetRandomScalar and EncounterDate.GetDateSwitch: nondeterministic, so they are the `Draws` parameter.
- PersonalTable, SpeciesName, Language.GetSafeLanguage, GetCompatibleVersion and EncounterUtil1.SetEncounterMoves: catalogue data, injected as `Tables8`. ResetPartyStats touches party stats, which this record does not carry.
- FormInfo.IsFormChangeable, Legal.GetIsFixedIVSequenceValidSkipRand, Crossover8.IsMatchLocation, AreaWeather8.IsMarkCompatible, IsPartialMatchHidden, EncounterArea8.IsBoostedArea60 and IsBoostedArea60Fog: defined in other files, injected as `Rules8`. IsPartialMatchHidden is taken to depend only on the two species.
- Static8.GetRequirement: the source takes the record as an argument but never reads it, so the model drops it.
- The template's Moves, Relearn, Nature and Ability fields, and the Name, LongName, IsShiny, EggEncounter, Generation, Context, LevelMin and LevelMax members: constant or display-only, and not read by the modelled logic.
- The interface-forwarding ConvertToPKM overloads and the overload without criteria: plain forwarding.
- GBEncounter.Normalize: requires a static encounter's move list, when present, to be non-empty. Reading `Moves[0]` of an empty array throws, so the source demands this of its callers.
- Static8Synthesis.SetPingaFixedGender: corrects only the gender of the gift path. The PID, IVs, nature and ability a corrected gift path would write come from random draws and the IV sequence test, which the model does not see, so the IV case of the finding has no corrected half beyond `SpecifiedIvGiftFailsIvCheck` exhibiting it.
- GBEncounterData.Name: a display string passed through from the wrapped encounter.
- EncounterEgg is not part of this model. The egg it builds is taken to be an egg encounter whose LevelMin and LevelMax equal its Level.

## Findings

| source | as written | input that shows it | evidently intended | confidence | as-written member | corrected member |
|---|---|---|---|---|---|---|
| PKHeX.Core/Legality/Structures/GBEncounterData.cs:61 | `slot.LevelMin >= pkm.Met_Level && pkm.Met_Level <= slot.LevelMax` | original met location, met level 4, slot levels 2..5: effective level 2, not 4; met level 1 gives 1, below the slot | `slot.LevelMin <= pkm.Met_Level && pkm.Met_Level <= slot.LevelMax` | medium, not executed | GBEncounter.SlotLevel | GBEncounter.SlotLevelInRange |
| PKHeX.Core/Legality/Encounters/Templates/Gen8/EncounterStatic8.cs:116-120 | the path for templates without correlation sets only `EncryptionConstant` and returns, so PID, IVs, nature, gender and ability stay zero | a gift with Gender = 1; or a gift with a specified IV set whose sequence test rejects all-zero IVs: the built record fails the template's own `IsMatchExact` | the gift path also writes the record's remaining PINGA fields, at least the template's fixed gender | medium, not executed | Static8Synthesis.FixedGenderGiftFailsGenderCheck | Static8Synthesis.SetPingaFixedGender |
| PKHeX.Core/Legality/Encounters/Templates/Gen8/EncounterStatic8.cs:77-100 | the PK8 initializer assigns no `Form`, although friendship is read for the template's form | a template with Form = 1 whose form may not change into 0: the built record has form 0 and fails the form check at :143 | the initializer also sets `Form = Form` | medium, not executed | Static8Synthesis.FormedTemplateFailsFormCheck | Static8Synthesis.ConvertToPKMWithForm |

`GBEncounter.Normalize` keeps the guard as written, because it models what the code computes. `SlotLevelInRange` is the corrected guard. It is proved to keep the level inside the slot's range.

`Static8Synthesis.ConvertToPKM` likewise keeps the gift path and the missing form as written. `ConvertToPKMWithForm` is the builder with the form written, and `FormedRecordMatchesExact` proves the full structural round trip for it. `SetPingaFixedGender` is the corrected SetPINGA, and `FixedGenderGiftPassesGenderCheck` proves the gender round trip for it.
