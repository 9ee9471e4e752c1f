/** GBEncounterData: the uniform view of a Generation 1/2 encounter, giving the
    wrapped encounter an effective level and a GBEncounterType tag. */
module GBEncounter {
  import opened Primitives

  /** GBEncounterType. `Unset` is the enum's default value 0, which names no
      member but is what a field left unassigned holds. */
  datatype GBEncounterType =
    | Unset
    | TradeEncounterG1
    | StaticEncounter
    | WildEncounter
    | EggEncounter
    | TradeEncounterG2
    | SpecialEncounter

  /** The numeric value of each tag. */
  function Code(t: GBEncounterType): (c: int)
    ensures c == 0 <==> t == Unset
    ensures c in {0, 1, 2, 3, 9, 10, 20}
  {
    match t
    case Unset => 0
    case TradeEncounterG1 => 1
    case WildEncounter => 2
    case StaticEncounter => 3
    case EggEncounter => 9
    case TradeEncounterG2 => 10
    case SpecialEncounter => 20
  }

  /** No two tags share a numeric value. */
  lemma CodeInjective(t: GBEncounterType, u: GBEncounterType)
    ensures Code(t) == Code(u) ==> t == u
  {
  }

  /** The runtime variant of the wrapped encounter: a trade, a static encounter
      (with its optional move list), a Gen 1 wild slot, an egg, or anything else. */
  datatype Variant =
    | Trade(level: int)
    | Static(level: int, moves: Option<seq<int>>)
    | Slot1
    | Egg(game: int, level: int)
    | OtherVariant

  /** The wrapped encounter (IEncounterable) with the members GBEncounterData
      passes through. A wild slot's level range is its LevelMin..LevelMax. */
  datatype Encounter = Encounter(
    species: int,
    eggEncounter: bool,
    levelMin: int,
    levelMax: int,
    variant: Variant)

  /** The creature record fields the normaliser reads. */
  datatype GBPkm = GBPkm(hasOriginalMetLocation: bool, metLevel: int, moves: seq<int>)

  datatype GBEncounterData = GBEncounterData(
    level: int,
    moveLevel: int,
    generation: int,
    kind: GBEncounterType,
    encounter: Encounter)

  predicate Gen1(d: GBEncounterData) { d.generation == 1 }
  predicate Gen2(d: GBEncounterData) { d.generation == 2 }
  function Species(d: GBEncounterData): int { d.encounter.species }
  function IsEggEncounter(d: GBEncounterData): bool { d.encounter.eggEncounter }
  function LevelMin(d: GBEncounterData): int { d.encounter.levelMin }
  function LevelMax(d: GBEncounterData): int { d.encounter.levelMax }

  /** An EncounterEgg of a species and game at a level; an egg encounter whose
      level range is that single level. */
  function MakeEgg(species: int, game: int, level: int): Encounter {
    Encounter(species, true, level, level, Egg(game, level))
  }

  /** The egg constructor. It builds the egg from its own Level field before
      that field is ever assigned, so the egg's level is 0, and it never assigns
      Type or MoveLevel, which stay 0. */
  function NewEgg(species: int, game: int): (d: GBEncounterData)
    ensures d.generation == 2 && Gen2(d) && !Gen1(d)
    ensures d.encounter.variant == Egg(game, 0) && Species(d) == species && IsEggEncounter(d)
    ensures d.level == 0 && d.moveLevel == 0
    ensures d.kind == Unset && Code(d.kind) == 0 && d.kind != EggEncounter
  {
    var unassignedLevel := 0;
    GBEncounterData(unassignedLevel, 0, 2, Unset, MakeEgg(species, game, unassignedLevel))
  }

  /** A static encounter's move list, when present, must have a first entry:
      reading Moves[0] of an empty list throws. */
  predicate StaticMovesReadable(enc: Encounter) {
    enc.variant.Static? && enc.variant.moves.Some? ==> |enc.variant.moves.value| > 0
  }

  /** A trade's effective level: the record's met level when the record keeps
      its original met location and was met above the trade level (Crystal),
      the trade level otherwise. */
  function TradeLevel(pkm: GBPkm, tradeLevel: int): (l: int)
    ensures l >= tradeLevel
    ensures l == tradeLevel || (pkm.hasOriginalMetLocation && l == pkm.metLevel)
    ensures pkm.hasOriginalMetLocation && pkm.metLevel > tradeLevel ==> l == pkm.metLevel
    ensures !pkm.hasOriginalMetLocation ==> l == tradeLevel
  {
    if pkm.hasOriginalMetLocation && tradeLevel < pkm.metLevel then pkm.metLevel else tradeLevel
  }

  /** A wild slot's effective level, with the guard exactly as the source writes
      it: the met level is taken only when it is at most LevelMin (and at most
      LevelMax), so the result never exceeds LevelMin. */
  function SlotLevel(pkm: GBPkm, levelMin: int, levelMax: int): (l: int)
    ensures l <= levelMin
    ensures l == levelMin || (pkm.hasOriginalMetLocation && l == pkm.metLevel < levelMin)
    ensures pkm.hasOriginalMetLocation && pkm.metLevel <= levelMin && pkm.metLevel <= levelMax ==> l == pkm.metLevel
    ensures pkm.metLevel > levelMin ==> l == levelMin
    ensures !(pkm.hasOriginalMetLocation && pkm.metLevel <= levelMin && pkm.metLevel <= levelMax) ==> l == levelMin
  {
    if pkm.hasOriginalMetLocation && levelMin >= pkm.metLevel && pkm.metLevel <= levelMax then pkm.metLevel
    else levelMin
  }

  /** Whether a static encounter is a special one: it has moves, its first move
      is set, and the record knows that move. */
  predicate IsSpecialStatic(pkm: GBPkm, moves: Option<seq<int>>)
    requires moves.Some? ==> |moves.value| > 0
  {
    moves.Some? && moves.value[0] != 0 && moves.value[0] in pkm.moves
  }

  /** The variant-dispatch constructor. */
  function Normalize(pkm: GBPkm, gen: int, enc: Encounter): (d: GBEncounterData)
    requires StaticMovesReadable(enc)
    ensures d.generation == gen && d.encounter == enc && d.moveLevel == d.level
    ensures enc.variant.Trade? ==>
              d.level >= enc.variant.level
              && d.level == TradeLevel(pkm, enc.variant.level)
              && (d.level == enc.variant.level || (pkm.hasOriginalMetLocation && d.level == pkm.metLevel))
              && (d.kind == TradeEncounterG2 <==> gen == 2)
              && (d.kind == TradeEncounterG1 <==> gen != 2)
    ensures enc.variant.Static? ==>
              d.level == enc.variant.level
              && (d.kind == SpecialEncounter <==>
                    enc.variant.moves.Some? && enc.variant.moves.value[0] != 0
                    && enc.variant.moves.value[0] in pkm.moves)
              && (d.kind == StaticEncounter <==> d.kind != SpecialEncounter)
    ensures enc.variant.Slot1? ==>
              d.level <= enc.levelMin && d.level == SlotLevel(pkm, enc.levelMin, enc.levelMax)
              && d.kind == WildEncounter
    ensures !(enc.variant.Trade? || enc.variant.Static? || enc.variant.Slot1?) ==>
              d.level == 0 && d.moveLevel == 0 && d.kind == Unset
  {
    match enc.variant
    case Trade(tradeLevel) =>
      var kind := if gen == 2 then TradeEncounterG2 else TradeEncounterG1;
      var level := TradeLevel(pkm, tradeLevel);
      GBEncounterData(level, level, gen, kind, enc)
    case Static(staticLevel, moves) =>
      var kind := if IsSpecialStatic(pkm, moves) then SpecialEncounter else StaticEncounter;
      GBEncounterData(staticLevel, staticLevel, gen, kind, enc)
    case Slot1 =>
      var level := SlotLevel(pkm, enc.levelMin, enc.levelMax);
      GBEncounterData(level, level, gen, WildEncounter, enc)
    case _ =>
      GBEncounterData(0, 0, gen, Unset, enc)
  }

  /** The delegating members read straight through to the wrapped encounter, and
      the generation flags reflect the constructor's generation argument. */
  lemma NormalizePassesThrough(pkm: GBPkm, gen: int, enc: Encounter)
    requires StaticMovesReadable(enc)
    ensures var d := Normalize(pkm, gen, enc);
            && Species(d) == enc.species
            && IsEggEncounter(d) == enc.eggEncounter
            && LevelMin(d) == enc.levelMin
            && LevelMax(d) == enc.levelMax
            && (Gen1(d) <==> gen == 1)
            && (Gen2(d) <==> gen == 2)
            && !(Gen1(d) && Gen2(d))
  {
  }

  /** A traded record met above its trade's nominal level, at its original met
      location, takes its own met level as the effective level. */
  lemma TradeMetAboveNominalLevel(pkm: GBPkm, gen: int, enc: Encounter)
    requires enc.variant.Trade? && pkm.hasOriginalMetLocation && pkm.metLevel > enc.variant.level
    ensures Normalize(pkm, gen, enc).level == pkm.metLevel
    ensures Normalize(pkm, gen, enc).moveLevel == pkm.metLevel
  {
  }

  /** Sequence membership, the executable way: Enumerable.Contains. */
  method Contains(xs: seq<int>, x: int) returns (found: bool)
    ensures found <==> x in xs
  {
    found := false;
    var i := 0;
    while i < |xs|
      invariant 0 <= i <= |xs|
      invariant found <==> x in xs[..i]
    {
      if xs[i] == x {
        found := true;
      }
      assert xs[..i + 1] == xs[..i] + [xs[i]];
      i := i + 1;
    }
    assert xs[..i] == xs;
  }

  /** The variant-dispatch constructor as the source runs it, assigning the
      fields in order and searching the record's moves with a loop. */
  method NewGBEncounterData(pkm: GBPkm, gen: int, enc: Encounter) returns (d: GBEncounterData)
    requires StaticMovesReadable(enc)
    ensures d == Normalize(pkm, gen, enc)
  {
    var level := 0;
    var kind := Unset;
    match enc.variant {
      case Trade(tradeLevel) =>
        if pkm.hasOriginalMetLocation && tradeLevel < pkm.metLevel {
          level := pkm.metLevel;
        } else {
          level := tradeLevel;
        }
        kind := if gen == 2 then TradeEncounterG2 else TradeEncounterG1;
      case Static(staticLevel, moves) =>
        level := staticLevel;
        var special := false;
        if moves.Some? && moves.value[0] != 0 {
          special := Contains(pkm.moves, moves.value[0]);
        }
        kind := if special then SpecialEncounter else StaticEncounter;
      case Slot1 =>
        if pkm.hasOriginalMetLocation && enc.levelMin >= pkm.metLevel && pkm.metLevel <= enc.levelMax {
          level := pkm.metLevel;
        } else {
          level := enc.levelMin;
        }
        kind := WildEncounter;
      case _ =>
    }
    d := GBEncounterData(level, level, gen, kind, enc);
  }

  // ---------------------------------------------------------------------------
  // The wild-slot guard

  /** The guard as written ignores a met level strictly inside the slot's range:
      a record met at level 4 from a level 2..5 slot gets level 2; and it accepts
      a met level below the range: a record met at level 1 from that slot gets 1. */
  lemma SlotLevelIgnoresInRangeMetLevel()
    ensures SlotLevel(GBPkm(true, 4, []), 2, 5) == 2
    ensures SlotLevel(GBPkm(true, 1, []), 2, 5) == 1
  {
  }

  /** The wild-slot level with the range test the guard evidently intends:
      LevelMin <= Met_Level <= LevelMax. */
  function SlotLevelInRange(pkm: GBPkm, levelMin: int, levelMax: int): (l: int)
    ensures levelMin <= levelMax ==> levelMin <= l <= levelMax
    ensures l == levelMin || (pkm.hasOriginalMetLocation && l == pkm.metLevel && levelMin <= l <= levelMax)
    ensures pkm.hasOriginalMetLocation && levelMin <= pkm.metLevel <= levelMax ==> l == pkm.metLevel
  {
    if pkm.hasOriginalMetLocation && levelMin <= pkm.metLevel && pkm.metLevel <= levelMax then pkm.metLevel
    else levelMin
  }

  /** The two guards agree whenever the met level equals LevelMin or exceeds
      LevelMax, and differ on the records of the lemma above. */
  lemma SlotLevelGuardsAgreeAtLevelMin(pkm: GBPkm, levelMin: int, levelMax: int)
    requires pkm.metLevel == levelMin || pkm.metLevel > levelMax
    ensures SlotLevel(pkm, levelMin, levelMax) == SlotLevelInRange(pkm, levelMin, levelMax)
  {
  }
}
