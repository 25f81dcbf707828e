/**
 * The pure decisions inside ModifyCreatureAttributes: the level band, the choice of a
 * new level, the area level lookup, the population curve and its inflection point, the
 * multiplier floors and level-based stat ratios, and the pro-rating of current health
 * and mana. Floats are modelled as reals; tanh is a parameter.
 */
module ScalingMath {
  import opened Numbers
  import opened Settings

  // ---------------------------------------------------------------------------
  // Levels
  // ---------------------------------------------------------------------------

  /**
   * checkLevelOffset: a selected level of 0 means "unset" and matches nothing; otherwise
   * the target must lie in the band from lowerOffset below to higherOffset above.
   */
  function CheckLevelOffset(cfg: Config, selectedLevel: Uint8, targetLevel: Uint8): (r: bool)
    ensures selectedLevel == 0 ==> !r
    ensures cfg.higherOffset >= 0 && cfg.lowerOffset >= 0 ==>
      (r <==> selectedLevel != 0 &&
              selectedLevel - cfg.lowerOffset <= targetLevel <= selectedLevel + cfg.higherOffset)
  {
    selectedLevel != 0 &&
    ((targetLevel >= selectedLevel && targetLevel <= selectedLevel + cfg.higherOffset) ||
     (targetLevel <= selectedLevel && targetLevel >= selectedLevel - cfg.lowerOffset))
  }

  /** Every set level is in its own band when the offsets are not negative. */
  lemma LevelInOwnBand(cfg: Config, level: Uint8)
    requires cfg.higherOffset >= 0 && cfg.lowerOffset >= 0 && level != 0
    ensures CheckLevelOffset(cfg, level, level)
  {
  }

  /** The dungeon-finder levels of the map, when the map has a dungeon entry. */
  datatype LfgDungeon = LfgDungeon(minLevel: Uint32, maxLevel: Uint32, recLevel: Uint32)

  datatype AreaLevels = AreaLevels(min: Uint8, max: Uint8)

  /** The levels getAreaLevel takes from the dungeon entry. */
  function DungeonLevels(d: LfgDungeon): AreaLevels {
    AreaLevels(ToUint8(d.minLevel), ToUint8(if d.recLevel != 0 then d.recLevel else d.maxLevel))
  }

  /**
   * getAreaLevel: the dungeon entry's levels for a dungeon or raid map; when the result is
   * still 0/0, the area's level (if the area table has one above 0) for both bounds. The
   * out-parameters start with whatever the caller left in them (initial).
   */
  function GetAreaLevel(dungeon: Option<LfgDungeon>, isDungeonOrRaid: bool, areaLevel: Option<Uint32>,
                        initial: AreaLevels): (r: AreaLevels)
    ensures var first := if dungeon.Some? && isDungeonOrRaid then DungeonLevels(dungeon.value) else initial;
      && (first != AreaLevels(0, 0) ==> r == first)
      && (first == AreaLevels(0, 0) && areaLevel.Some? && areaLevel.value > 0 ==>
            r.min == r.max == ToUint8(areaLevel.value))
      && (first == AreaLevels(0, 0) && !(areaLevel.Some? && areaLevel.value > 0) ==> r == first)
  {
    var first := if dungeon.Some? && isDungeonOrRaid then DungeonLevels(dungeon.value) else initial;
    if first.min == 0 && first.max == 0 && areaLevel.Some? && areaLevel.value > 0
    then AreaLevels(ToUint8(areaLevel.value), ToUint8(areaLevel.value))
    else first
  }

  /** Without a dungeon entry, whatever the caller's variables held is returned unless it is 0/0. */
  lemma IndeterminateLevelsReachCaller(areaLevel: Option<Uint32>, initial: AreaLevels)
    requires initial != AreaLevels(0, 0)
    ensures GetAreaLevel(None, true, areaLevel, initial) == initial
  {
  }

  /** Critters and special creatures: original level at most 1 in an area of level 5 or more. */
  predicate SkipLevel(originalLevel: Uint8, areaMinLevel: Uint8) {
    originalLevel <= 1 && areaMinLevel >= 5
  }

  /** The selected level and, when the creature's level is set, the level it is set to. */
  datatype LevelChoice = LevelChoice(selectedLevel: Uint8, setLevel: Option<Uint8>)

  /** Whether the original level is moved to the map level at all. */
  predicate MovesLevel(cfg: Config, isDungeon: bool, skipLevel: bool, mapLevel: Uint8, originalLevel: Uint8) {
    cfg.levelScaling != 0 && isDungeon && !skipLevel && !CheckLevelOffset(cfg, mapLevel, originalLevel)
  }

  /**
   * Level selection. previous is the selected level after the entry/reset clear, level
   * the creature's current level, bonus 3 for world bosses and 0 otherwise.
   */
  function SelectLevel(cfg: Config, isDungeon: bool, skipLevel: bool, mapLevel: Uint8, originalLevel: Uint8,
                       bonus: nat, previous: Uint8, level: Uint8): (r: LevelChoice)
    // the selected level is always the level the creature ends up with
    ensures r.selectedLevel == r.setLevel.GetOr(level)
    ensures r.setLevel.Some? ==>
      MovesLevel(cfg, isDungeon, skipLevel, mapLevel, originalLevel) && r.setLevel.value == ToUint8(mapLevel + bonus)
    ensures MovesLevel(cfg, isDungeon, skipLevel, mapLevel, originalLevel) && (mapLevel != previous || previous != level) ==>
      r.setLevel.Some?
  {
    if MovesLevel(cfg, isDungeon, skipLevel, mapLevel, originalLevel) then
      if mapLevel != previous || previous != level
      then LevelChoice(ToUint8(mapLevel + bonus), Some(ToUint8(mapLevel + bonus)))
      else LevelChoice(previous, None)
    else LevelChoice(level, None)
  }

  /**
   * A template of levels 10 to 12 in a dungeon of map level 12, at the default offsets: a
   * creature spawned at level 10 is not moved (the template maximum is in the band) and
   * keeps level 10, which lies outside the band of the map level.
   */
  lemma SelectionKeepsLevelOutsideBand()
    ensures !MovesLevel(Defaults(), true, false, 12, 12)
    ensures SelectLevel(Defaults(), true, false, 12, 12, 0, 0, 10) == LevelChoice(10, None)
    ensures !CheckLevelOffset(Defaults(), 12, 10)
  {
  }

  // ---------------------------------------------------------------------------
  // The population curve
  // ---------------------------------------------------------------------------

  /** What the instance map reports about itself. */
  datatype InstanceKind = InstanceKind(isHeroic: bool, isRaid: bool, maxPlayers: Uint32)

  /** The configured inflection point for the instance's difficulty, raid flag and raid size. */
  function InflectionFactor(cfg: Config, k: InstanceKind): (r: real)
    ensures !k.isRaid ==> r == if k.isHeroic then cfg.inflection.heroic else cfg.inflection.normal
    ensures k.isRaid && k.maxPlayers == 10 ==>
      r == if k.isHeroic then cfg.inflection.raid10MHeroic else cfg.inflection.raid10M
    ensures k.isRaid && k.maxPlayers == 25 ==>
      r == if k.isHeroic then cfg.inflection.raid25MHeroic else cfg.inflection.raid25M
    ensures k.isRaid && k.maxPlayers != 10 && k.maxPlayers != 25 ==>
      r == if k.isHeroic then cfg.inflection.raidHeroic else cfg.inflection.raid
  {
    var p := cfg.inflection;
    if k.isHeroic then
      if k.isRaid then
        if k.maxPlayers == 10 then p.raid10MHeroic
        else if k.maxPlayers == 25 then p.raid25MHeroic
        else p.raidHeroic
      else p.heroic
    else
      if k.isRaid then
        if k.maxPlayers == 10 then p.raid10M
        else if k.maxPlayers == 25 then p.raid25M
        else p.raid
      else p.normal
  }

  /**
   * The population at which the curve is at one half: the effective maximum player count
   * (which may be forced) times the factor of the instance's own size, times the boss
   * multiplier for dungeon bosses.
   */
  function InflectionValue(cfg: Config, k: InstanceKind, maxNumberOfPlayers: Uint32, isDungeonBoss: bool): (r: real)
    ensures !isDungeonBoss ==> r == maxNumberOfPlayers as real * InflectionFactor(cfg, k)
    ensures isDungeonBoss ==> r == maxNumberOfPlayers as real * InflectionFactor(cfg, k) * cfg.bossInflectionMult
  {
    var v := maxNumberOfPlayers as real * InflectionFactor(cfg, k);
    if isDungeonBoss then v * cfg.bossInflectionMult else v
  }

  /** The width of the curve: a fifth of the maximum player count, times 1.5. */
  function Steepness(maxNumberOfPlayers: Uint32): (d: real)
    ensures maxNumberOfPlayers > 0 ==> d > 0.0
  {
    (maxNumberOfPlayers as real / 5.0) * 1.5
  }

  ghost predicate TanhBounded(tanh: real -> real) {
    forall x :: -1.0 < tanh(x) < 1.0
  }

  ghost predicate TanhMonotone(tanh: real -> real) {
    forall x, y :: x <= y ==> tanh(x) <= tanh(y)
  }

  /**
   * defaultMultiplier: exactly 1 once the count reaches the maximum, otherwise the tanh
   * curve lifted into (0, 1).
   */
  function DefaultMultiplier(count: Uint32, maxNumberOfPlayers: Uint32, inflection: real, tanh: real -> real): (r: real)
    ensures count >= maxNumberOfPlayers ==> r == 1.0
    ensures count < maxNumberOfPlayers && TanhBounded(tanh) ==> 0.0 < r < 1.0
  {
    if count < maxNumberOfPlayers
    then (tanh((count as real - inflection) / Steepness(maxNumberOfPlayers)) + 1.0) / 2.0
    else 1.0
  }

  /** More players never lower the multiplier. */
  lemma DefaultMultiplierMonotone(c1: Uint32, c2: Uint32, maxNumberOfPlayers: Uint32, inflection: real, tanh: real -> real)
    requires TanhBounded(tanh) && TanhMonotone(tanh)
    requires c1 <= c2
    ensures DefaultMultiplier(c1, maxNumberOfPlayers, inflection, tanh) <= DefaultMultiplier(c2, maxNumberOfPlayers, inflection, tanh)
  {
    if c2 < maxNumberOfPlayers {
      var d := Steepness(maxNumberOfPlayers);
      var x1 := (c1 as real - inflection) / d;
      var x2 := (c2 as real - inflection) / d;
      DivLeq(c1 as real - inflection, c2 as real - inflection, d);
      assert tanh(x1) <= tanh(x2);
    }
  }

  /** A population equal to the inflection value gets half of full scaling. */
  lemma HalfAtInflection(count: Uint32, maxNumberOfPlayers: Uint32, tanh: real -> real)
    requires count < maxNumberOfPlayers && tanh(0.0) == 0.0
    ensures DefaultMultiplier(count, maxNumberOfPlayers, count as real, tanh) == 0.5
  {
  }

  /** A five-player dungeon with inflection point 0.5: one player sits at tanh(-1). */
  lemma OnePlayerInFiveManDungeon(cfg: Config, tanh: real -> real)
    requires cfg.inflection.normal == 0.5
    ensures InflectionValue(cfg, InstanceKind(false, false, 5), 5, false) == 2.5
    ensures Steepness(5) == 1.5
    ensures DefaultMultiplier(1, 5, 2.5, tanh) == (tanh(-1.0) + 1.0) / 2.0
  {
    assert (1.0 - 2.5) / 1.5 == -1.0;
  }

  // ---------------------------------------------------------------------------
  // Multipliers
  // ---------------------------------------------------------------------------

  /** The "if (x <= min) x = min" floors. */
  function ApplyFloor(x: real, minimum: real): (r: real)
    ensures r >= minimum
    ensures x > minimum ==> r == x
    ensures x <= minimum ==> r == minimum
  {
    if x <= minimum then minimum else x
  }

  /** A float division; a zero divisor gives a non-finite float, represented by an unspecified real. */
  function Quotient(a: real, b: real, nonFinite: real): (r: real)
    ensures b != 0.0 ==> r * b == a
  {
    if b == 0.0 then nonFinite else a / b
  }

  /** The three expansion tiers of a base stat table row. */
  datatype Tiers = Tiers(upTo60: real, upTo70: real, above70: real)

  /** What the base stat tables give at one level for this creature's class and template. */
  datatype BaseStats = BaseStats(
    baseHealth: Tiers,
    baseDamage: Tiers,
    health: Uint32,   // GenerateHealth
    mana: Uint32,     // GenerateMana
    armor: Uint32,    // GenerateArmor
    damage: real)     // GenerateBaseDamage

  /** The tier is chosen by the map level, not by the selected level. */
  function Tier(t: Tiers, mapLevel: Uint8): real {
    if mapLevel <= 60 then t.upTo60 else if mapLevel <= 70 then t.upTo70 else t.above70
  }

  /** End-game boost: levels 75 and up over an original level below 75 get (level - 70) * 0.3. */
  function EndGameBoost(selectedLevel: Uint8, originalLevel: Uint8): (r: real)
    ensures selectedLevel >= 75 && originalLevel < 75 ==> r >= 1.5
    ensures !(selectedLevel >= 75 && originalLevel < 75) ==> r == 1.0
  {
    if selectedLevel >= 75 && originalLevel < 75 then (selectedLevel - 70) as real * 0.3 else 1.0
  }

  /**
   * The area reduction of health for creatures whose original level lies below the area's
   * maximum: proportional to the distance from the maximum, never more than 30%.
   */
  function AreaHealthReduction(newHealth: real, area: AreaLevels, originalLevel: Uint8): (r: real)
    ensures newHealth >= 0.0 ==> newHealth * 0.7 <= r <= newHealth
    ensures !(area.min <= originalLevel < area.max) ==> r == newHealth
  {
    if originalLevel >= area.min && originalLevel < area.max then
      var span := (area.max - area.min) as real;
      var reduction := newHealth / span * ((area.max - originalLevel) as real * 0.3);
      ReductionBound(newHealth, span, (area.max - originalLevel) as real);
      if reduction > 0.0 && reduction < newHealth then newHealth - reduction else newHealth
    else newHealth
  }

  lemma ReductionBound(h: real, span: real, dist: real)
    requires 0.0 < dist <= span
    ensures h >= 0.0 ==> h / span * (dist * 0.3) <= h * 0.3
  {
    if h >= 0.0 {
      var q := h / span;
      assert q * span == h;
      assert q >= 0.0;
      assert q * dist <= q * span;
    }
  }

  /** The interpolation inputs: which levels are involved and whether stats are re-based. */
  datatype LevelContext = LevelContext(
    mapLevel: Uint8,
    selectedLevel: Uint8,
    originalLevel: Uint8,
    interpolate: bool,   // not using DB stats, level scaling on, not a skip-level creature
    area: AreaLevels,
    isRaid: bool)

  /** hpStatsRate: new base health over the original level's generated health. */
  function HealthStatsRate(cfg: Config, lc: LevelContext, modHealth: real, orig: BaseStats, sel: BaseStats,
                           nonFinite: real): (r: real)
    ensures !lc.interpolate ==> r == 1.0
  {
    if !lc.interpolate then 1.0
    else
      var base := Tier(sel.baseHealth, lc.mapLevel);
      var boosted := if lc.mapLevel > 70 && cfg.levelEndGameBoost
                     then base * EndGameBoost(lc.selectedLevel, lc.originalLevel) else base;
      Quotient(AreaHealthReduction(boosted * modHealth, lc.area, lc.originalLevel), orig.health as real, nonFinite)
  }

  /** manaStatsRate: generated mana at the selected level over that at the original level. */
  function ManaStatsRate(lc: LevelContext, orig: BaseStats, sel: BaseStats, nonFinite: real): (r: real)
    ensures !lc.interpolate ==> r == 1.0
  {
    if !lc.interpolate then 1.0 else Quotient(sel.mana as real, orig.mana as real, nonFinite)
  }

  /** The damage ratio; the end-game boost does not apply in raids. */
  function DamageStatsRate(cfg: Config, lc: LevelContext, orig: BaseStats, sel: BaseStats, nonFinite: real): (r: real)
    ensures !lc.interpolate ==> r == 1.0
  {
    if !lc.interpolate then 1.0
    else
      var base := Tier(sel.baseDamage, lc.mapLevel);
      var boosted := if lc.mapLevel > 70 && cfg.levelEndGameBoost && !lc.isRaid
                     then base * EndGameBoost(lc.selectedLevel, lc.originalLevel) else base;
      Quotient(boosted, orig.damage, nonFinite)
  }

  /** The four multipliers ModifyCreatureAttributes stores. */
  datatype Scaling = Scaling(
    healthMultiplier: real,
    manaMultiplier: real,
    armorMultiplier: real,
    damageMultiplier: real)

  /**
   * Whether the float mana multiplier is NaN when it reaches its floor test. With re-based
   * stats and no generated mana at the original level, the mana ratio is 0/0 (NaN) when
   * there is no mana at the selected level either, and +infinity otherwise; infinity
   * times a zero rate is NaN as well.
   */
  predicate ManaMultiplierIsNaN(cfg: Config, lc: LevelContext, orig: BaseStats, sel: BaseStats, defaultMultiplier: real) {
    lc.interpolate && orig.mana == 0 && (sel.mana == 0 || cfg.manaRate * defaultMultiplier * cfg.globalRate == 0.0)
  }

  /**
   * The multipliers. The health and damage floors are applied BEFORE the level ratio, the
   * mana floor AFTER it. A mana multiplier that is not finite stays so unless it is
   * -infinity: NaN fails the floor test and +infinity passes it; both are stored as the
   * stand-in nonFinite.
   */
  function ComputeScaling(cfg: Config, lc: LevelContext, modHealth: real, orig: BaseStats, sel: BaseStats,
                          defaultMultiplier: real, nonFinite: real): (r: Scaling)
    ensures !(lc.interpolate && orig.mana == 0) ==> r.manaMultiplier >= cfg.minManaModifier
    ensures ManaMultiplierIsNaN(cfg, lc, orig, sel, defaultMultiplier) ==> r.manaMultiplier == nonFinite
    ensures r.manaMultiplier >= cfg.minManaModifier || r.manaMultiplier == nonFinite
    ensures !lc.interpolate ==> r.healthMultiplier >= cfg.minHPModifier
    ensures !lc.interpolate ==> r.damageMultiplier >= cfg.minDamageModifier
    ensures r.armorMultiplier == cfg.globalRate * cfg.armorRate
  {
    var health := ApplyFloor(cfg.healthRate * defaultMultiplier * cfg.globalRate, cfg.minHPModifier)
                  * HealthStatsRate(cfg, lc, modHealth, orig, sel, nonFinite);
    var manaRates := cfg.manaRate * defaultMultiplier * cfg.globalRate;
    var mana :=
      if lc.interpolate && orig.mana == 0 then
        if sel.mana == 0 || manaRates >= 0.0 then nonFinite  // NaN or +infinity
        else cfg.minManaModifier                             // -infinity is floored
      else ApplyFloor(ManaStatsRate(lc, orig, sel, nonFinite) * cfg.manaRate * defaultMultiplier * cfg.globalRate,
                      cfg.minManaModifier);
    var damage := ApplyFloor(defaultMultiplier * cfg.globalRate * cfg.damageRate, cfg.minDamageModifier)
                  * DamageStatsRate(cfg, lc, orig, sel, nonFinite);
    Scaling(health, mana, cfg.globalRate * cfg.armorRate, damage)
  }

  /** scaledHealth: round(base * multiplier + 1); never 0 for a non-negative multiplier. */
  function ScaledHealth(baseHealth: Uint32, multiplier: real): (r: int)
    ensures multiplier >= 0.0 ==> r >= 1
    ensures multiplier == 1.0 ==> r == baseHealth + 1
  {
    MulNonNegative(baseHealth as real, multiplier);
    Round(baseHealth as real * multiplier + 1.0)
  }

  /** scaledMana: round(base * multiplier). */
  function ScaledMana(baseMana: Uint32, multiplier: real): (r: int)
    ensures multiplier >= 0.0 ==> r >= 0
    ensures multiplier == 1.0 ==> r == baseMana
  {
    MulNonNegative(baseMana as real, multiplier);
    Round(baseMana as real * multiplier)
  }

  /** newBaseArmor: round(multiplier * base armor), the base taken at the original level unless re-based. */
  function ScaledArmor(lc: LevelContext, armorMultiplier: real, orig: BaseStats, sel: BaseStats): (r: int)
    ensures armorMultiplier >= 0.0 ==> r >= 0
    ensures armorMultiplier == 1.0 && !lc.interpolate ==> r == orig.armor
  {
    var base := (if lc.interpolate then sel.armor else orig.armor) as real;
    MulNonNegative(armorMultiplier, base);
    Round(armorMultiplier * base)
  }

  /**
   * With neutral rates and a full group, nothing is scaled: every multiplier is 1, health
   * comes out one point above the generated value and mana equal to it.
   */
  lemma FullGroupIsNeutral(cfg: Config, lc: LevelContext, modHealth: real, orig: BaseStats, sel: BaseStats, nonFinite: real)
    requires !lc.interpolate
    requires cfg.globalRate == cfg.healthRate == cfg.manaRate == cfg.damageRate == 1.0
    requires cfg.minHPModifier < 1.0 && cfg.minManaModifier < 1.0 && cfg.minDamageModifier < 1.0
    ensures var r := ComputeScaling(cfg, lc, modHealth, orig, sel, 1.0, nonFinite);
      r.healthMultiplier == r.manaMultiplier == r.damageMultiplier == 1.0 &&
      ScaledHealth(orig.health, r.healthMultiplier) == orig.health + 1 &&
      ScaledMana(orig.mana, r.manaMultiplier) == orig.mana
  {
  }

  /**
   * The health floor does not bound the final health multiplier: a level ratio below 1
   * takes it under MinHPModifier.
   */
  lemma HealthFloorIsNotFinal()
    ensures var lc := LevelContext(50, 50, 40, true, AreaLevels(0, 0), false);
      var sel := BaseStats(Tiers(1.0, 1.0, 1.0), Tiers(1.0, 1.0, 1.0), 1, 1, 1, 1.0);
      var orig := BaseStats(Tiers(1.0, 1.0, 1.0), Tiers(1.0, 1.0, 1.0), 10, 1, 1, 1.0);
      ComputeScaling(Defaults(), lc, 1.0, orig, sel, 0.0, 0.0).healthMultiplier < Defaults().minHPModifier
  {
  }

  /**
   * A creature that generates no mana at either level, re-based at the default rates,
   * keeps a NaN mana multiplier: the floor does not apply to it.
   */
  lemma ManaFloorSkippedWithoutMana()
    ensures var lc := LevelContext(50, 50, 40, true, AreaLevels(0, 0), false);
      var noMana := BaseStats(Tiers(1.0, 1.0, 1.0), Tiers(1.0, 1.0, 1.0), 1, 0, 1, 1.0);
      ManaMultiplierIsNaN(Defaults(), lc, noMana, noMana, 0.5) &&
      ComputeScaling(Defaults(), lc, 1.0, noMana, noMana, 0.5, 0.0).manaMultiplier < Defaults().minManaModifier
  {
  }

  // ---------------------------------------------------------------------------
  // Current health and mana
  // ---------------------------------------------------------------------------

  /**
   * The new current value after a rescale: newMax * prev / prevMax truncated, or 0 when
   * either the previous value or the previous maximum is 0.
   */
  function ProRate(newMax: int, prev: Uint32, prevMax: Uint32): (r: int)
    ensures prev == 0 || prevMax == 0 ==> r == 0
    ensures prev > 0 && prevMax > 0 && newMax >= 0 ==>
      r * prevMax <= newMax * prev < (r + 1) * prevMax
    ensures newMax >= 0 && prev <= prevMax ==> 0 <= r <= newMax
    ensures newMax >= 0 && prev == prevMax > 0 ==> r == newMax
  {
    if prev != 0 && prevMax != 0 then
      var x := newMax as real / prevMax as real * prev as real;
      ProRateBounds(newMax, prev, prevMax, x, Trunc(x));
      Trunc(x)
    else 0
  }

  lemma ProRateBounds(newMax: int, prev: nat, prevMax: nat, x: real, t: int)
    requires prev > 0 && prevMax > 0
    requires x == newMax as real / prevMax as real * prev as real
    requires x >= 0.0 ==> t as real <= x < t as real + 1.0
    ensures newMax >= 0 ==> t * prevMax <= newMax * prev < (t + 1) * prevMax
    ensures newMax >= 0 && prev <= prevMax ==> t <= newMax
    ensures newMax >= 0 && prev == prevMax ==> t == newMax
  {
    if newMax >= 0 {
      ScaledQuotient(newMax, prev, prevMax, x);
      TruncBounds(newMax * prev, prevMax, x, t);
      if prev <= prevMax {
        MulLeqInt(prev, prevMax, newMax);
        CancelLeq(t, newMax, prevMax);
      }
      if prev == prevMax {
        CancelLeq(t, newMax, prevMax);
        CancelLess(newMax, t + 1, prevMax);
      }
    }
  }

  lemma ScaledQuotient(newMax: nat, prev: nat, prevMax: nat, x: real)
    requires prevMax > 0
    requires x == newMax as real / prevMax as real * prev as real
    ensures x * prevMax as real == (newMax * prev) as real && x >= 0.0
  {
    DivMul(newMax as real, prevMax as real, prev as real);
    CastMul(newMax, prev);
    MulNonNegative(newMax as real / prevMax as real, prev as real);
  }

  lemma TruncBounds(product: int, prevMax: nat, x: real, t: int)
    requires prevMax > 0 && x >= 0.0
    requires x * prevMax as real == product as real
    requires t as real <= x < t as real + 1.0
    ensures t * prevMax <= product < (t + 1) * prevMax
  {
    LowerBound(product, t, prevMax, x);
    assert x < (t + 1) as real;
    UpperBound(product, t + 1, prevMax, x);
  }

  lemma LowerBound(product: int, k: int, prevMax: nat, x: real)
    requires prevMax > 0
    requires x * prevMax as real == product as real
    requires k as real <= x
    ensures k * prevMax <= product
  {
    MulLeq(k as real, x, prevMax as real);
    CastMul(k, prevMax);
    CastLeq(k * prevMax, product);
  }

  lemma UpperBound(product: int, k: int, prevMax: nat, x: real)
    requires prevMax > 0
    requires x * prevMax as real == product as real
    requires x < k as real
    ensures product < k * prevMax
  {
    MulLess(x, k as real, prevMax as real);
    CastMul(k, prevMax);
    CastLess(product, k * prevMax);
  }

  lemma CastLeq(a: int, b: int)
    requires a as real <= b as real
    ensures a <= b
  {
  }

  lemma CastLess(a: int, b: int)
    requires a as real < b as real
    ensures a < b
  {
  }

  lemma MulLeqInt(a: int, b: int, c: nat)
    requires a <= b
    ensures c * a <= c * b
  {
  }

  lemma CancelLeq(a: int, b: int, c: int)
    requires c > 0 && a * c <= b * c
    ensures a <= b
  {
  }

  lemma CancelLess(a: int, b: int, c: int)
    requires c > 0 && a * c < b * c
    ensures a < b
  {
  }

  lemma CastMul(a: int, b: int)
    ensures (a * b) as real == a as real * b as real
  {
  }

  lemma MulNonNegative(a: real, b: real)
    ensures a >= 0.0 && b >= 0.0 ==> a * b >= 0.0
  {
  }

  lemma DivMul(a: real, b: real, c: real)
    requires b != 0.0
    ensures a / b * c * b == a * c
  {
  }

  lemma DivLeq(a: real, b: real, d: real)
    requires a <= b && d > 0.0
    ensures a / d <= b / d
  {
    var q1, q2 := a / d, b / d;
    assert q1 * d == a && q2 * d == b;
    if q1 > q2 {
      MulLess(q2, q1, d);
    }
  }

  lemma MulLeq(a: real, b: real, c: real)
    requires a <= b && c >= 0.0
    ensures a * c <= b * c
  {
  }

  lemma MulLess(a: real, b: real, c: real)
    requires a < b && c > 0.0
    ensures a * c < b * c
  {
  }
}
