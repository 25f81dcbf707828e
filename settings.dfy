/**
 * The configuration snapshot that every AutoBalance component reads. The source keeps
 * these as file-scope globals filled from the configuration manager; here they are one
 * immutable record passed to each operation.
 */
module Settings {
  import opened Numbers

  /** Inflection points per instance context (fractions of the maximum player count). */
  datatype InflectionPoints = InflectionPoints(
    normal: real,
    raid: real,
    raid10M: real,
    raid25M: real,
    heroic: real,
    raidHeroic: real,
    raid10MHeroic: real,
    raid25MHeroic: real)

  datatype Config = Config(
    enabled: bool,
    levelEndGameBoost: bool,
    dungeonsOnly: bool,
    levelUseDb: bool,
    // the four int8 settings keep the width the source stores them in
    levelScaling: Int8,
    playerCountDifficultyOffset: Int8,
    higherOffset: Int8,
    lowerOffset: Int8,
    inflection: InflectionPoints,
    bossInflectionMult: real,
    globalRate: real,
    healthRate: real,
    manaRate: real,
    armorRate: real,
    damageRate: real,
    minHPModifier: real,
    minManaModifier: real,
    minDamageModifier: real)

  /** The values the configuration falls back to when a key is missing. */
  function Defaults(): (c: Config)
    ensures c.enabled && c.dungeonsOnly && c.levelScaling == 1
    ensures c.higherOffset == 3 && c.lowerOffset == 0 && c.playerCountDifficultyOffset == 0
  {
    Config(
      enabled := true,
      levelEndGameBoost := true,
      dungeonsOnly := true,
      levelUseDb := true,
      levelScaling := 1,
      playerCountDifficultyOffset := 0,
      higherOffset := 3,
      lowerOffset := 0,
      inflection := InflectionPoints(0.5, 0.5, 0.5, 0.5, 0.5, 0.5, 0.5, 0.5),
      bossInflectionMult := 1.0,
      globalRate := 1.0,
      healthRate := 1.0,
      manaRate := 1.0,
      armorRate := 1.0,
      damageRate := 1.0,
      minHPModifier := 0.1,
      minManaModifier := 0.1,
      minDamageModifier := 0.1)
  }

  /**
   * The debug level in effect: the configured one (2 when the key is missing) when it is
   * in 0..3, and 1 for anything out of range.
   */
  function ValidDebugLevel(configured: Option<int>): (r: int)
    ensures 0 <= r <= 3
    ensures configured.None? ==> r == 2
    ensures configured.Some? && 0 <= configured.value <= 3 ==> r == configured.value
    ensures configured.Some? && !(0 <= configured.value <= 3) ==> r == 1
  {
    var debugLevel := configured.GetOr(2);
    if debugLevel < 0 || debugLevel > 3 then 1 else debugLevel
  }
}
