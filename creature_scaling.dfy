/**
 * ModifyCreatureAttributes and the per-creature record AutoBalanceCreatureInfo it keeps:
 * the early exits, the forced player count, the entry-swap reset, the staleness check,
 * level selection, the multipliers and the stat writes handed to the engine.
 *
 * The engine objects are inputs: what the creature, its template and its map report is a
 * value of type Creature and MapContext; the DBC and base-stat lookups are functions in
 * Env; the three script hooks are booleans (true lets the update continue).
 */
module CreatureScaling {
  import opened Numbers
  import opened Settings
  import opened ForcedIds
  import MapTracker
  import opened ScalingMath

  // ---------------------------------------------------------------------------
  // Inputs
  // ---------------------------------------------------------------------------

  /** What the creature template provides. */
  datatype Template = Template(
    entry: Uint32,
    minLevel: Uint8,
    maxLevel: Uint8,
    isWorldBoss: bool,   // rank CREATURE_ELITE_WORLDBOSS
    modHealth: real)

  /**
   * What the creature reports. onMap is false for a null creature or one without a map.
   * entry is GetEntry(), which the entry-swap check compares with the stored entry.
   */
  datatype Creature = Creature(
    onMap: bool,
    entry: Uint32,
    template: Template,
    level: Uint8,
    isAlive: bool,
    isHunterPet: bool,
    isPet: bool,
    isSummon: bool,
    controlledByPlayer: bool,
    isDungeonBoss: bool,
    areaId: Uint32,
    health: Uint32,
    maxHealth: Uint32,
    mana: Uint32,
    maxMana: Uint32,
    powerIsMana: bool)

  /** What the creature's (instance) map reports. */
  datatype MapContext = MapContext(
    isDungeon: bool,
    isBattleground: bool,
    isRaid: bool,
    isHeroic: bool,
    maxPlayers: Uint32,
    lfgDungeon: Option<LfgDungeon>)

  /** The three script hooks; false is a veto. */
  datatype Hooks = Hooks(beforeModify: bool, afterDefaultMultiplier: bool, beforeUpdateStats: bool)

  /**
   * Everything ModifyCreatureAttributes reads besides the creature and its record:
   * the map, the map's tracker, the forced-count registry, the hooks, the area table
   * (by the uint8 area id), the garbage the uninitialised area level variables hold,
   * the base-stat table for the creature's class and template (by level), tanh, and the
   * value a float division by zero stands for.
   */
  datatype Env = Env(
    instance: MapContext,
    tracker: MapTracker.MapState,
    forced: map<int, int>,
    hooks: Hooks,
    areaLevelOf: Uint8 -> Option<Uint32>,
    uninitialized: AreaLevels,
    statsAt: Uint8 -> BaseStats,
    tanh: real -> real,
    nonFinite: real)

  // ---------------------------------------------------------------------------
  // The record and the writes
  // ---------------------------------------------------------------------------

  /** The fields of AutoBalanceCreatureInfo as a value. */
  datatype CreatureInfo = CreatureInfo(
    instancePlayerCount: Uint32,
    selectedLevel: Uint8,
    entry: Uint32,
    damageMultiplier: real,
    healthMultiplier: real,
    manaMultiplier: real,
    armorMultiplier: real)

  /** The record a creature gets on first access. */
  function Untouched(): (r: CreatureInfo)
    ensures r.selectedLevel == 0 && r.entry == 0 && r.instancePlayerCount == 0
    ensures r.damageMultiplier == r.healthMultiplier == r.manaMultiplier == r.armorMultiplier == 1.0
  {
    CreatureInfo(0, 0, 0, 1.0, 1.0, 1.0, 1.0)
  }

  /**
   * The engine setters of the final block: armor (and its base modifier), create/max
   * health and mana (and their base modifiers), current health, and current mana when
   * the creature's power type is mana.
   */
  datatype StatWrites = StatWrites(armor: int, maxHealth: int, maxMana: int, health: int, mana: Option<int>)

  /** The creature-side effects: SetLevel, and the stat writes when the update completes. */
  datatype Effects = Effects(newLevel: Option<Uint8>, stats: Option<StatWrites>)

  function NoEffects(): Effects {
    Effects(None, None)
  }

  /** Where the update stopped. ModuleDisabled is the hook wrappers' own early return. */
  datatype Exit =
    | ModuleDisabled
    | NoMap
    | OutsideInstance
    | PlayerMinion
    | NoMapLevel
    | TemplateDisabled
    | Dead
    | UpToDate
    | NoPlayers
    | VetoBeforeModify
    | VetoAfterDefaultMultiplier
    | VetoBeforeUpdateStats
    | Updated

  /** The exits taken before the record is read. */
  predicate IsGateExit(e: Exit) {
    e == NoMap || e == OutsideInstance || e == PlayerMinion || e == NoMapLevel || e == TemplateDisabled
  }

  /** The record after the call, where it stopped, and what it asked of the engine. */
  datatype Update = Update(exit: Exit, info: CreatureInfo, effects: Effects)

  // ---------------------------------------------------------------------------
  // The steps
  // ---------------------------------------------------------------------------

  /** A pet, hunter pet or summon that a player controls. */
  predicate IsPlayerMinion(c: Creature) {
    (c.isHunterPet || c.isPet || c.isSummon) && c.controlledByPlayer
  }

  datatype Gate = Stop(exit: Exit) | Proceed(maxNumberOfPlayers: Uint32)

  /**
   * The checks before the record is touched, and the effective maximum player count: the
   * map's, unless the registry forces a positive count for the template; a forced 0
   * (the disabled list) stops the update.
   */
  function CheckGate(cfg: Config, env: Env, c: Creature): (g: Gate)
    ensures g.Stop? ==> IsGateExit(g.exit)
    ensures g.Stop? && g.exit == TemplateDisabled <==>
      c.onMap && (env.instance.isDungeon || env.instance.isBattleground || !cfg.dungeonsOnly) &&
      !IsPlayerMinion(c) && env.tracker.mapLevel != 0 &&
      GetForcedNumPlayers(env.forced, c.template.entry) == 0
    ensures g.Proceed? ==>
      && c.onMap
      && (env.instance.isDungeon || env.instance.isBattleground || !cfg.dungeonsOnly)
      && !IsPlayerMinion(c)
      && env.tracker.mapLevel != 0
      && GetForcedNumPlayers(env.forced, c.template.entry) != 0
    ensures g.Proceed? ==>
      var forced := GetForcedNumPlayers(env.forced, c.template.entry);
      g.maxNumberOfPlayers == if forced > 0 then ToUint32(forced) else env.instance.maxPlayers
  {
    if !c.onMap then Stop(NoMap)
    else if !env.instance.isDungeon && !env.instance.isBattleground && cfg.dungeonsOnly then Stop(OutsideInstance)
    else if IsPlayerMinion(c) then Stop(PlayerMinion)
    else if env.tracker.mapLevel == 0 then Stop(NoMapLevel)
    else
      var forced := GetForcedNumPlayers(env.forced, c.template.entry);
      if forced > 0 then Proceed(ToUint32(forced))
      else if forced == 0 then Stop(TemplateDisabled)
      else Proceed(env.instance.maxPlayers)
  }

  /** The entry-swap / reset clear of the selected level. */
  function ClearSelected(s: CreatureInfo, c: Creature, resetSelLevel: bool): (r: CreatureInfo)
    ensures r.selectedLevel == 0 <==> s.selectedLevel == 0 || resetSelLevel || (s.entry != 0 && s.entry != c.entry)
    ensures r.(selectedLevel := s.selectedLevel) == s
  {
    if (s.entry != 0 && s.entry != c.entry) || resetSelLevel then s.(selectedLevel := 0) else s
  }

  /** The player count the creature is scaled for: the tracker's count plus the offset, in uint32. */
  function CurrentCount(cfg: Config, env: Env): (r: Uint32)
    ensures 0 <= env.tracker.playerCount + cfg.playerCountDifficultyOffset < 0x1_0000_0000 ==>
      r == env.tracker.playerCount + cfg.playerCountDifficultyOffset
    ensures env.tracker.playerCount + cfg.playerCountDifficultyOffset < 0 ==>
      r == env.tracker.playerCount + cfg.playerCountDifficultyOffset + 0x1_0000_0000
  {
    ToUint32(env.tracker.playerCount + cfg.playerCountDifficultyOffset)
  }

  function BonusLevel(t: Template): (b: nat)
    ensures b == 3 || b == 0
    ensures b == 3 <==> t.isWorldBoss
  {
    if t.isWorldBoss then 3 else 0
  }

  /**
   * The "already scaled" test: a selected level is set, the stored count is current, and,
   * with level scaling on, the creature's level lies in the band of mapLevel + bonus
   * (passed as uint8) and in the band of its selected level.
   */
  predicate IsUpToDate(cfg: Config, env: Env, s: CreatureInfo, c: Creature) {
    s.selectedLevel > 0 &&
    s.instancePlayerCount == CurrentCount(cfg, env) &&
    (cfg.levelScaling != 0 ==>
       CheckLevelOffset(cfg, ToUint8(env.tracker.mapLevel + BonusLevel(c.template)), c.level) &&
       CheckLevelOffset(cfg, s.selectedLevel, c.level))
  }

  /** The area levels getAreaLevel reports for the creature. */
  function AreaOf(env: Env, c: Creature): AreaLevels {
    GetAreaLevel(env.instance.lfgDungeon, env.instance.isDungeon || env.instance.isRaid,
                 env.areaLevelOf(ToUint8(c.areaId)), env.uninitialized)
  }

  /** The level choice made for the creature, given the selected level after the clear. */
  function ChooseLevel(cfg: Config, env: Env, s: CreatureInfo, c: Creature): (r: LevelChoice)
    ensures r.selectedLevel == r.setLevel.GetOr(c.level)
    ensures r.setLevel.Some? ==>
      cfg.levelScaling != 0 && env.instance.isDungeon &&
      r.setLevel.value == ToUint8(env.tracker.mapLevel + BonusLevel(c.template))
  {
    SelectLevel(cfg, env.instance.isDungeon, SkipLevel(c.template.maxLevel, AreaOf(env, c).min),
                env.tracker.mapLevel, c.template.maxLevel, BonusLevel(c.template), s.selectedLevel, c.level)
  }

  /** The inputs to the multiplier computation once the level is chosen. */
  function Context(cfg: Config, env: Env, c: Creature, choice: LevelChoice): (lc: LevelContext)
    ensures lc.selectedLevel == choice.selectedLevel && lc.mapLevel == env.tracker.mapLevel
    ensures lc.originalLevel == c.template.maxLevel
    ensures lc.area == AreaOf(env, c) && lc.isRaid == env.instance.isRaid
    // stats are re-based unless the DB stats fit the creature's level, level scaling is off
    // or the creature is a critter
    ensures lc.interpolate <==>
      && !(cfg.levelUseDb && c.template.minLevel <= choice.setLevel.GetOr(c.level) <= c.template.maxLevel)
      && cfg.levelScaling != 0
      && !SkipLevel(c.template.maxLevel, AreaOf(env, c).min)
  {
    var area := AreaOf(env, c);
    var level := choice.setLevel.GetOr(c.level);
    var useDefStats := cfg.levelUseDb && c.template.minLevel <= level <= c.template.maxLevel;
    LevelContext(env.tracker.mapLevel, choice.selectedLevel, c.template.maxLevel,
                 !useDefStats && cfg.levelScaling != 0 && !SkipLevel(c.template.maxLevel, area.min),
                 area, env.instance.isRaid)
  }

  /** The population curve for the stored count against the effective maximum. */
  function CreatureDefaultMultiplier(cfg: Config, env: Env, c: Creature, count: Uint32, maxNumberOfPlayers: Uint32): (r: real)
    ensures count >= maxNumberOfPlayers ==> r == 1.0
    ensures count < maxNumberOfPlayers && TanhBounded(env.tanh) ==> 0.0 < r < 1.0
  {
    var kind := InstanceKind(env.instance.isHeroic, env.instance.isRaid, env.instance.maxPlayers);
    DefaultMultiplier(count, maxNumberOfPlayers, InflectionValue(cfg, kind, maxNumberOfPlayers, c.isDungeonBoss), env.tanh)
  }

  /** The final stat writes for the computed multipliers. */
  function Writes(lc: LevelContext, sc: Scaling, orig: BaseStats, sel: BaseStats, c: Creature): (w: StatWrites)
    ensures w.mana.Some? <==> c.powerIsMana
    ensures w.maxHealth >= 0 && c.health <= c.maxHealth ==> 0 <= w.health <= w.maxHealth
    ensures w.maxMana >= 0 && c.mana <= c.maxMana && c.powerIsMana ==> 0 <= w.mana.value <= w.maxMana
    ensures c.health == 0 || c.maxHealth == 0 ==> w.health == 0
  {
    var health := ScaledHealth(orig.health, sc.healthMultiplier);
    var mana := ScaledMana(orig.mana, sc.manaMultiplier);
    StatWrites(ScaledArmor(lc, sc.armorMultiplier, orig, sel), health, mana,
               ProRate(health, c.health, c.maxHealth),
               if c.powerIsMana then Some(ProRate(mana, c.mana, c.maxMana)) else None)
  }

  /**
   * Everything after the first hook: level selection and the entry stamp, the default
   * multiplier and its hook, the health, mana and armor multipliers (stored before the
   * last hook), and on success the damage multiplier and the stat writes.
   */
  function Rescale(cfg: Config, env: Env, s: CreatureInfo, c: Creature, maxNumberOfPlayers: Uint32): (r: Update)
    ensures r.exit == VetoAfterDefaultMultiplier || r.exit == VetoBeforeUpdateStats || r.exit == Updated
    ensures r.info.entry == c.entry && r.info.instancePlayerCount == s.instancePlayerCount
    ensures r.info.selectedLevel == r.effects.newLevel.GetOr(c.level)
    ensures r.effects.stats.Some? <==> r.exit == Updated
    ensures r.exit != Updated ==> r.info.damageMultiplier == s.damageMultiplier
    ensures r.exit == VetoAfterDefaultMultiplier ==>
      r.info.healthMultiplier == s.healthMultiplier && r.info.manaMultiplier == s.manaMultiplier &&
      r.info.armorMultiplier == s.armorMultiplier
    ensures r.exit != VetoAfterDefaultMultiplier ==>
      && (r.info.manaMultiplier >= cfg.minManaModifier || r.info.manaMultiplier == env.nonFinite)
      && (env.statsAt(c.template.maxLevel).mana > 0 || cfg.levelScaling == 0 ==>
            r.info.manaMultiplier >= cfg.minManaModifier)
      && r.info.armorMultiplier == cfg.globalRate * cfg.armorRate
  {
    var choice := ChooseLevel(cfg, env, s, c);
    var s3 := s.(selectedLevel := choice.selectedLevel, entry := c.entry);
    var lc := Context(cfg, env, c, choice);
    var dm := CreatureDefaultMultiplier(cfg, env, c, s3.instancePlayerCount, maxNumberOfPlayers);
    if !env.hooks.afterDefaultMultiplier then
      Update(VetoAfterDefaultMultiplier, s3, Effects(choice.setLevel, None))
    else
      var orig := env.statsAt(c.template.maxLevel);
      var sel := env.statsAt(choice.selectedLevel);
      var sc := ComputeScaling(cfg, lc, c.template.modHealth, orig, sel, dm, env.nonFinite);
      var s4 := s3.(healthMultiplier := sc.healthMultiplier, manaMultiplier := sc.manaMultiplier,
                    armorMultiplier := sc.armorMultiplier);
      if !env.hooks.beforeUpdateStats then
        Update(VetoBeforeUpdateStats, s4, Effects(choice.setLevel, None))
      else
        Update(Updated, s4.(damageMultiplier := sc.damageMultiplier),
               Effects(choice.setLevel, Some(Writes(lc, sc, orig, sel, c))))
  }

  /**
   * One call of ModifyCreatureAttributes on the record's value s.
   */
  function Recompute(cfg: Config, env: Env, s: CreatureInfo, c: Creature, resetSelLevel: bool): (r: Update)
    // the gate exits leave the record and the creature alone
    ensures IsGateExit(r.exit) ==> r.info == s && r.effects == NoEffects()
    ensures r.exit != ModuleDisabled
    // a dead creature only gets the entry-swap / reset clear
    ensures r.exit == Dead ==> r.info == ClearSelected(s, c, resetSelLevel) && r.effects == NoEffects()
    // an up-to-date creature is left alone, and a reset always forces a recomputation
    ensures r.exit == UpToDate ==> r.info == s && r.effects == NoEffects() && !resetSelLevel
    ensures CheckGate(cfg, env, c).Proceed? && c.isAlive && IsUpToDate(cfg, env, s, c) &&
            !resetSelLevel && (s.entry == 0 || s.entry == c.entry) ==>
      r.exit == UpToDate
    // once past the staleness test, the count is stored whatever happens next
    ensures !IsGateExit(r.exit) && r.exit != Dead && r.exit != UpToDate ==>
      r.info.instancePlayerCount == CurrentCount(cfg, env)
    ensures r.exit == NoPlayers <==>
      CheckGate(cfg, env, c).Proceed? && c.isAlive && CurrentCount(cfg, env) == 0 &&
      !IsUpToDate(cfg, env, ClearSelected(s, c, resetSelLevel), c)
    // the damage multiplier and the creature's stats change only when the update completes
    ensures r.effects.stats.Some? <==> r.exit == Updated
    ensures r.exit != Updated ==> r.info.damageMultiplier == s.damageMultiplier
    ensures r.effects.newLevel.Some? ==> cfg.levelScaling != 0 && env.instance.isDungeon
    ensures r.exit == Updated ==>
      && r.info.entry == c.entry
      && r.info.instancePlayerCount > 0
      && r.info.selectedLevel == r.effects.newLevel.GetOr(c.level)
      && r.info.armorMultiplier == cfg.globalRate * cfg.armorRate
    // the last veto leaves the health, mana and armor multipliers already rewritten
    ensures r.exit == VetoBeforeUpdateStats ==>
      r.info.armorMultiplier == cfg.globalRate * cfg.armorRate &&
      r.info.damageMultiplier == s.damageMultiplier && r.effects.stats.None?
    // the mana multiplier is at least its floor unless it is the NaN or +infinity of a
    // creature without mana at its original level
    ensures r.exit == Updated || r.exit == VetoBeforeUpdateStats ==>
      && (r.info.manaMultiplier >= cfg.minManaModifier || r.info.manaMultiplier == env.nonFinite)
      && (env.statsAt(c.template.maxLevel).mana > 0 || cfg.levelScaling == 0 ==>
            r.info.manaMultiplier >= cfg.minManaModifier)
  {
    match CheckGate(cfg, env, c)
    case Stop(e) => Update(e, s, NoEffects())
    case Proceed(maxNumberOfPlayers) =>
      var s1 := ClearSelected(s, c, resetSelLevel);
      if !c.isAlive then Update(Dead, s1, NoEffects())
      else if IsUpToDate(cfg, env, s1, c) then Update(UpToDate, s1, NoEffects())
      else
        var s2 := s1.(instancePlayerCount := CurrentCount(cfg, env));
        if s2.instancePlayerCount == 0 then Update(NoPlayers, s2, NoEffects())
        else if !env.hooks.beforeModify then Update(VetoBeforeModify, s2, NoEffects())
        else Rescale(cfg, env, s2, c, maxNumberOfPlayers)
  }

  /**
   * The creature as the engine leaves it after the writes (values stored as uint32): the
   * maximum mana is written for every creature, the current mana only for mana users.
   */
  function Apply(c: Creature, e: Effects): (c2: Creature)
    ensures e.stats.None? ==> c2 == c.(level := e.newLevel.GetOr(c.level))
    ensures e.stats.Some? ==>
      var w := e.stats.value;
      c2 == c.(level := e.newLevel.GetOr(c.level),
               health := ToUint32(w.health), maxHealth := ToUint32(w.maxHealth),
               mana := if w.mana.Some? then ToUint32(w.mana.value) else c.mana,
               maxMana := ToUint32(w.maxMana))
  {
    var c1 := c.(level := e.newLevel.GetOr(c.level));
    match e.stats
    case None => c1
    case Some(w) =>
      var c2 := c1.(health := ToUint32(w.health), maxHealth := ToUint32(w.maxHealth), maxMana := ToUint32(w.maxMana));
      if w.mana.Some? then c2.(mana := ToUint32(w.mana.value)) else c2
  }

  // ---------------------------------------------------------------------------
  // Properties across calls and of the registry's effect
  // ---------------------------------------------------------------------------

  /** A template named in the disabled list is never scaled, whatever the forced lists say. */
  lemma DisabledTemplateIsNeverScaled(cfg: Config, env: Env, lists: ForcedLists, s: CreatureInfo, c: Creature,
                                      resetSelLevel: bool)
    requires env.forced == ForcedMap(lists)
    requires Listed(Tokens(lists.disabled), c.template.entry)
    ensures var r := Recompute(cfg, env, s, c, resetSelLevel);
      IsGateExit(r.exit) && r.info == s && r.effects == NoEffects()
  {
    ForcedLookup(lists, c.template.entry);
  }

  /** A template listed for 10 players (and in no list loaded after it) is scaled as for 10. */
  lemma ForcedCountReplacesMaximum(cfg: Config, env: Env, lists: ForcedLists, c: Creature)
    requires env.forced == ForcedMap(lists)
    requires Listed(Tokens(lists.forced10), c.template.entry)
    requires !Listed(Tokens(lists.forced5), c.template.entry) && !Listed(Tokens(lists.forced2), c.template.entry)
    requires !Listed(Tokens(lists.disabled), c.template.entry)
    requires c.onMap && env.instance.isDungeon && !IsPlayerMinion(c) && env.tracker.mapLevel != 0
    ensures CheckGate(cfg, env, c) == Proceed(10)
  {
    ForcedLookup(lists, c.template.entry);
  }

  /**
   * Template 12345 in the 10-player list only: a creature of that template in a 25-player
   * raid is scaled with a maximum of 10 players.
   */
  lemma TemplateForcedToTenInRaid(cfg: Config, env: Env, c: Creature)
    requires env.forced == ForcedMap(ForcedLists("", "", "12345", "", "", ""))
    requires c.template.entry == 12345
    requires env.instance.isRaid && env.instance.isDungeon && env.instance.maxPlayers == 25
    requires c.onMap && !IsPlayerMinion(c) && env.tracker.mapLevel != 0
    ensures CheckGate(cfg, env, c) == Proceed(10)
  {
    var lists := ForcedLists("", "", "12345", "", "", "");
    ListsTemplate12345();
    ForcedCountReplacesMaximum(cfg, env, lists, c);
  }

  lemma ListsTemplate12345()
    ensures Listed(Tokens("12345"), 12345)
    ensures !Listed(Tokens(""), 12345)
  {
    assert CommaIndex("12345") == 5 by {
      assert CommaIndex("5") == 1;
      assert "12345"[1..] == "2345" && "2345"[1..] == "345" && "345"[1..] == "45" && "45"[1..] == "5";
    }
    assert Tokens("12345") == ["12345"];
    assert Decimal(12345) == "12345" by {
      assert Decimal(1) == "1";
      assert Decimal(12) == "12";
      assert Decimal(123) == "123";
      assert Decimal(1234) == "1234";
    }
    AtoiDecimal(12345, []);
    assert "12345" + [] == "12345";
    assert Atoi(Tokens("12345")[0]) == 12345;
  }

  /**
   * A call that got as far as level selection leaves a creature that the next tick finds up
   * to date, provided the creature's new level lies in the band around mapLevel + bonus.
   */
  lemma SecondCallIsNoOp(cfg: Config, env: Env, s: CreatureInfo, c: Creature, resetSelLevel: bool, r: Update)
    requires cfg.higherOffset >= 0 && cfg.lowerOffset >= 0
    requires r == Recompute(cfg, env, s, c, resetSelLevel)
    requires r.exit == Updated || r.exit == VetoAfterDefaultMultiplier || r.exit == VetoBeforeUpdateStats
    requires Apply(c, r.effects).level > 0
    requires cfg.levelScaling != 0 ==>
      CheckLevelOffset(cfg, ToUint8(env.tracker.mapLevel + BonusLevel(c.template)), Apply(c, r.effects).level)
    ensures Recompute(cfg, env, r.info, Apply(c, r.effects), false) == Update(UpToDate, r.info, NoEffects())
  {
    var c2 := Apply(c, r.effects);
    assert CheckGate(cfg, env, c2) == CheckGate(cfg, env, c);
    LevelInOwnBand(cfg, c2.level);
    assert IsUpToDate(cfg, env, r.info, c2);
  }

  /**
   * A world boss whose own level equals the map level keeps that level (it is in the band
   * of the map level), but the staleness test looks for it around mapLevel + 3: with a
   * lower offset under 3, every tick recomputes it.
   */
  lemma WorldBossAtMapLevelIsNeverUpToDate(cfg: Config, env: Env, s: CreatureInfo, c: Creature,
                                            resetSelLevel: bool, r: Update)
    requires cfg.levelScaling != 0 && cfg.higherOffset >= 0 && 0 <= cfg.lowerOffset < 3
    requires c.template.isWorldBoss && env.tracker.mapLevel < 253
    requires c.level == c.template.maxLevel == env.tracker.mapLevel
    requires r == Recompute(cfg, env, s, c, resetSelLevel)
    requires r.exit == Updated
    ensures Apply(c, r.effects).level == c.level
    ensures !IsUpToDate(cfg, env, r.info, Apply(c, r.effects))
  {
    LevelInOwnBand(cfg, c.level);
    assert r.effects.newLevel.None?;
  }

  /**
   * The level band is not kept: a creature whose template maximum level lies in the band
   * of the map level is not moved, even when its own level lies outside that band. It
   * keeps its level, and the staleness test recomputes it on every tick.
   */
  lemma OwnLevelOutsideBandIsNeverUpToDate(cfg: Config, env: Env, s: CreatureInfo, c: Creature,
                                           resetSelLevel: bool, r: Update)
    requires cfg.levelScaling != 0 && cfg.higherOffset >= 0 && cfg.lowerOffset >= 0
    requires !c.template.isWorldBoss
    requires CheckLevelOffset(cfg, env.tracker.mapLevel, c.template.maxLevel)
    requires !CheckLevelOffset(cfg, env.tracker.mapLevel, c.level)
    requires r == Recompute(cfg, env, s, c, resetSelLevel)
    requires r.exit == Updated || r.exit == VetoAfterDefaultMultiplier || r.exit == VetoBeforeUpdateStats
    ensures Apply(c, r.effects).level == c.level
    ensures !IsUpToDate(cfg, env, r.info, Apply(c, r.effects))
  {
    assert ToUint8(env.tracker.mapLevel + BonusLevel(c.template)) == env.tracker.mapLevel;
    assert r.effects.newLevel.None?;
  }

  /**
   * A full group (count at or above the effective maximum) with neutral rates and no level
   * scaling gets multipliers of exactly 1: health one point above the generated value,
   * mana equal to it.
   */
  lemma FullGroupKeepsTemplateStats(cfg: Config, env: Env, s: CreatureInfo, c: Creature, resetSelLevel: bool, r: Update)
    requires cfg.levelScaling == 0
    requires cfg.globalRate == cfg.healthRate == cfg.manaRate == cfg.damageRate == 1.0
    requires cfg.minHPModifier < 1.0 && cfg.minManaModifier < 1.0 && cfg.minDamageModifier < 1.0
    requires CheckGate(cfg, env, c).Proceed? && CurrentCount(cfg, env) >= CheckGate(cfg, env, c).maxNumberOfPlayers
    requires r == Recompute(cfg, env, s, c, resetSelLevel)
    requires r.exit == Updated
    ensures r.info.healthMultiplier == r.info.manaMultiplier == r.info.damageMultiplier == 1.0
    ensures r.effects.stats.value.maxHealth == env.statsAt(c.template.maxLevel).health + 1
    ensures r.effects.stats.value.maxMana == env.statsAt(c.template.maxLevel).mana
  {
    var maxNumberOfPlayers := CheckGate(cfg, env, c).maxNumberOfPlayers;
    var s2 := ClearSelected(s, c, resetSelLevel).(instancePlayerCount := CurrentCount(cfg, env));
    var choice := ChooseLevel(cfg, env, s2, c);
    var lc := Context(cfg, env, c, choice);
    var orig := env.statsAt(c.template.maxLevel);
    var sel := env.statsAt(choice.selectedLevel);
    assert CreatureDefaultMultiplier(cfg, env, c, CurrentCount(cfg, env), maxNumberOfPlayers) == 1.0;
    FullGroupIsNeutral(cfg, lc, c.template.modHealth, orig, sel, env.nonFinite);
  }

  // ---------------------------------------------------------------------------
  // The record as the source keeps it, and the method that updates it in place
  // ---------------------------------------------------------------------------

  class AutoBalanceCreatureInfo {
    var instancePlayerCount: Uint32
    var selectedLevel: Uint8
    var entry: Uint32
    var damageMultiplier: real
    var healthMultiplier: real
    var manaMultiplier: real
    var armorMultiplier: real

    /** The record a creature gets on first access. */
    constructor ()
      ensures State() == Untouched()
    {
      instancePlayerCount := 0;
      selectedLevel := 0;
      entry := 0;
      damageMultiplier := 1.0;
      healthMultiplier := 1.0;
      manaMultiplier := 1.0;
      armorMultiplier := 1.0;
    }

    /** The record built from explicit values; the entry starts at 0. */
    constructor WithValues(count: Uint32, dmg: real, hpRate: real, manaRate: real, armorRate: real, selLevel: Uint8)
      ensures State() == CreatureInfo(count, selLevel, 0, dmg, hpRate, manaRate, armorRate)
    {
      instancePlayerCount := count;
      selectedLevel := selLevel;
      entry := 0;
      damageMultiplier := dmg;
      healthMultiplier := hpRate;
      manaMultiplier := manaRate;
      armorMultiplier := armorRate;
    }

    function State(): CreatureInfo
      reads this
    {
      CreatureInfo(instancePlayerCount, selectedLevel, entry, damageMultiplier, healthMultiplier,
                   manaMultiplier, armorMultiplier)
    }
  }

  /** ModifyCreatureAttributes, field by field, with the source's early returns. */
  method ModifyCreatureAttributes(cfg: Config, env: Env, info: AutoBalanceCreatureInfo, c: Creature, resetSelLevel: bool)
    returns (exit: Exit, effects: Effects)
    modifies info
    ensures Update(exit, info.State(), effects) == Recompute(cfg, env, old(info.State()), c, resetSelLevel)
  {
    effects := NoEffects();
    if !c.onMap {
      return NoMap, effects;
    }
    if !env.instance.isDungeon && !env.instance.isBattleground && cfg.dungeonsOnly {
      return OutsideInstance, effects;
    }
    if IsPlayerMinion(c) {
      return PlayerMinion, effects;
    }
    if env.tracker.mapLevel == 0 {
      return NoMapLevel, effects;
    }
    var maxNumberOfPlayers := env.instance.maxPlayers;
    var forcedNumPlayers := GetForcedNumPlayers(env.forced, c.template.entry);
    if forcedNumPlayers > 0 {
      maxNumberOfPlayers := ToUint32(forcedNumPlayers);
    } else if forcedNumPlayers == 0 {
      return TemplateDisabled, effects;
    }

    if (info.entry != 0 && info.entry != c.entry) || resetSelLevel {
      info.selectedLevel := 0;
    }
    if !c.isAlive {
      return Dead, effects;
    }

    var curCount := CurrentCount(cfg, env);
    var bonusLevel := BonusLevel(c.template);
    if info.selectedLevel > 0 {
      if cfg.levelScaling != 0 {
        if CheckLevelOffset(cfg, ToUint8(env.tracker.mapLevel + bonusLevel), c.level) &&
           CheckLevelOffset(cfg, info.selectedLevel, c.level) &&
           info.instancePlayerCount == curCount {
          return UpToDate, effects;
        }
      } else if info.instancePlayerCount == curCount {
        return UpToDate, effects;
      }
    }

    info.instancePlayerCount := curCount;
    if info.instancePlayerCount == 0 {
      return NoPlayers, effects;
    }
    if !env.hooks.beforeModify {
      return VetoBeforeModify, effects;
    }

    exit, effects := RescaleInPlace(cfg, env, info, c, maxNumberOfPlayers);
  }

  /** The part of ModifyCreatureAttributes after the first hook. */
  method RescaleInPlace(cfg: Config, env: Env, info: AutoBalanceCreatureInfo, c: Creature, maxNumberOfPlayers: Uint32)
    returns (exit: Exit, effects: Effects)
    modifies info
    ensures Update(exit, info.State(), effects) == Rescale(cfg, env, old(info.State()), c, maxNumberOfPlayers)
  {
    effects := NoEffects();
    var choice := ChooseLevel(cfg, env, info.State(), c);
    if choice.setLevel.Some? {
      info.selectedLevel := choice.setLevel.value;
      effects := effects.(newLevel := choice.setLevel);
    } else {
      info.selectedLevel := choice.selectedLevel;
    }
    info.entry := c.entry;

    var lc := Context(cfg, env, c, choice);
    var defaultMultiplier := CreatureDefaultMultiplier(cfg, env, c, info.instancePlayerCount, maxNumberOfPlayers);
    if !env.hooks.afterDefaultMultiplier {
      return VetoAfterDefaultMultiplier, effects;
    }

    var orig := env.statsAt(c.template.maxLevel);
    var sel := env.statsAt(info.selectedLevel);
    var sc := ComputeScaling(cfg, lc, c.template.modHealth, orig, sel, defaultMultiplier, env.nonFinite);
    info.healthMultiplier := sc.healthMultiplier;
    info.manaMultiplier := sc.manaMultiplier;
    info.armorMultiplier := sc.armorMultiplier;
    if !env.hooks.beforeUpdateStats {
      return VetoBeforeUpdateStats, effects;
    }

    info.damageMultiplier := sc.damageMultiplier;
    effects := effects.(stats := Some(Writes(lc, sc, orig, sel, c)));
    return Updated, effects;
  }

  /** Creature_SelectLevel: a forced recomputation when the module is enabled. */
  method CreatureSelectLevel(cfg: Config, env: Env, info: AutoBalanceCreatureInfo, c: Creature)
    returns (exit: Exit, effects: Effects)
    modifies info
    ensures !cfg.enabled ==> exit == ModuleDisabled && effects == NoEffects() && info.State() == old(info.State())
    ensures cfg.enabled ==> Update(exit, info.State(), effects) == Recompute(cfg, env, old(info.State()), c, true)
  {
    if !cfg.enabled {
      return ModuleDisabled, NoEffects();
    }
    exit, effects := ModifyCreatureAttributes(cfg, env, info, c, true);
  }

  /** OnAllCreatureUpdate: the per-tick update when the module is enabled. */
  method OnAllCreatureUpdate(cfg: Config, env: Env, info: AutoBalanceCreatureInfo, c: Creature)
    returns (exit: Exit, effects: Effects)
    modifies info
    ensures !cfg.enabled ==> exit == ModuleDisabled && effects == NoEffects() && info.State() == old(info.State())
    ensures cfg.enabled ==> Update(exit, info.State(), effects) == Recompute(cfg, env, old(info.State()), c, false)
  {
    if !cfg.enabled {
      return ModuleDisabled, NoEffects();
    }
    exit, effects := ModifyCreatureAttributes(cfg, env, info, c, false);
  }
}
