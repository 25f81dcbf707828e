# AutoBalance scaling core in Dafny

This project models the decision core of the AzerothCore AutoBalance module
(`src/AutoBalance.cpp`). The module rescales dungeon and raid creatures to the number of
players in the instance and proves properties of that model:

- **ForcedIds** (`forced_ids.dfy`): the forced-count registry. It covers the `getline`
  splitter, `atoi`, the `ForcedCreatureIds` class that loads lists into the static map,
  and `GetForcedNumPlayers` with its -1 sentinel.
- **MapTracker** (`map_tracker.dfy`): the per-instance record `AutoBalanceMapInfo`, a class
  with `playerCount` and `mapLevel`. It is updated in place by `OnLevelChanged`,
  `OnPlayerEnterAll` and `OnPlayerLeaveAll`. Each method is proved against a pure
  transition function, and a replay lemma covers runs of hook calls.
- **ScalingMath** (`scaling_math.dfy`): the pure parts of the creature update. These are
  the level band `checkLevelOffset`, `getAreaLevel`, level selection, the choice of
  inflection point, the population curve, the multiplier floors, the level-based stat
  ratios and the pro-rating of current health and mana.
- **CreatureScaling** (`creature_scaling.dfy`): `ModifyCreatureAttributes` over the
  per-creature record `AutoBalanceCreatureInfo` (a class). It is a method with the
  source's early returns, proved against the spec function `Recompute`. Lemmas cover the
  registry's effect, the second call on an updated creature and full groups.
- **DamageFilter** (`damage_filter.dfy`): `_Modifer_DealDamage` and the five unit hooks
  that call it.
- **Settings** and **Numbers**: the configuration record with its default values and
  `GetValidDebugLevel`, plus the C++ integer widths and float-to-integer conversions.

Engine objects are inputs. A creature, its template and its map are datatypes. The DBC
and base-stat lookups, and `tanh`, are function-typed fields of `CreatureScaling.Env`.
Each of the three `ABScriptMgr` hooks is a boolean veto. Floats are reals. Every place
where the source stores into a narrower integer goes through an explicit conversion
(`ToUint8`, `ToUint32`, `ToInt32`).

The model keeps these behaviours of the code as written:

- `OnPlayerEnterAll` and `OnPlayerLeaveAll` call `IsGameMaster()` on the player before any
  null test. A null player is therefore the `NullPlayer` outcome (undefined behaviour),
  and the list scan at lines 544-557 can never run.
- On leaving a dungeon, `GetPlayersCountExceptGMs() - 1` is computed in uint32. It wraps
  to 2^32 - 1 when the list holds no non-GM player (`MapTracker.LeaveWrapsOnEmptyList`).
- `playerCount + PlayerCountDifficultyOffset` is stored in uint32, `level + bonusLevel`
  in uint8, and `mapLevel + bonusLevel` is passed as uint8. The area id is passed to
  `getAreaLevel` as uint8.
- `areaMinLvl` and `areaMaxLvl` are uninitialised when `getAreaLevel` reads them. The
  model gives them as the input `Env.uninitialized`.
- `instancePlayerCount` is stored before the zero test and the first hook. The health,
  mana and armor multipliers are stored before the last hook. A veto therefore leaves
  partial state (`CreatureScaling.Recompute`).
- The health and damage floors are applied before the level ratio, so they do not bound
  the final multipliers (`ScalingMath.HealthFloorIsNotFinal`).
- The mana floor is applied after the level ratio. A creature that generates no mana at
  its original level, with re-based stats, has a mana ratio of 0/0 (NaN) or x/0
  (+infinity). NaN fails the floor test and is stored as it is, so the mana multiplier is
  at least its floor only when the original level has mana or the stats are not re-based
  (`ScalingMath.ManaMultiplierIsNaN`, `ScalingMath.ManaFloorSkippedWithoutMana`).
- Level selection tests the template's maximum level against the band around the map
  level, but keeps the creature's own level when it does not move it. A creature whose own
  level lies outside the band, for example a level 10 spawn of a level 10-12 template in a
  dungeon of map level 12, is therefore never moved into the band. The staleness test
  then fails on every tick, and the creature is recomputed each time
  (`ScalingMath.SelectionKeepsLevelOutsideBand`,
  `CreatureScaling.OwnLevelOutsideBandIsNeverUpToDate`). A world boss at the map level is
  one such case: it keeps its level while the staleness test looks for it around
  `mapLevel + 3` (`CreatureScaling.WorldBossAtMapLevelIsNeverUpToDate`).
- A negative amount in `ModifySpellDamageTaken` is scaled as the large uint32 it converts
  to, and the result can come back with the opposite sign
  (`DamageFilter.NegativeSpellAmountFlipsSign`).

## Model

| member | source | states |
|---|---|---|
| Numbers.ToUint8 | src/AutoBalance.cpp:758 | storing into a uint8 keeps in-range values and otherwise reduces modulo 2^8 |
| Numbers.ToUint32 | src/AutoBalance.cpp:719 | storing into a uint32 keeps in-range values and otherwise reduces modulo 2^32 |
| Numbers.ToInt32 | src/AutoBalance.cpp:398-401 | storing into an int32 keeps in-range values and otherwise is congruent modulo 2^32 |
| Numbers.Round | src/AutoBalance.cpp:881 | `round` is within one half of its argument, strictly nearer unless the argument is halfway, where it rounds away from zero; not negative for a non-negative argument |
| Numbers.Trunc | src/AutoBalance.cpp:952-953 | the float-to-integer conversion truncates toward zero: the result is the integer part |
| Settings.Defaults | src/AutoBalance.cpp:216-265 | missing keys give enabled, DungeonsOnly, levelScaling 1, higher offset 3, lower offset 0, player offset 0 |
| Settings.ValidDebugLevel | src/AutoBalance.cpp:106-115 | the debug level is in 0..3: 2 when the key is missing, the configured value when in range, and 1 otherwise |
| ForcedIds.CommaIndex | src/AutoBalance.cpp:123 | the index of the first ',' (or the length), with no ',' before it |
| ForcedIds.TokensHaveNoComma | src/AutoBalance.cpp:123 | no token the `getline` loop yields contains the delimiter |
| ForcedIds.TokensJoin | src/AutoBalance.cpp:123 | the tokens joined with ',' give back the string, less one trailing ',' (the loop yields no empty last token) |
| ForcedIds.TokensNonEmpty | src/AutoBalance.cpp:123 | a non-empty string yields at least one token |
| ForcedIds.EmptyTokenIsIdZero | src/AutoBalance.cpp:123-128 | an empty token between commas is read by `atoi` as template id 0 |
| ForcedIds.SkipSpaces | src/AutoBalance.cpp:125 | `atoi` drops exactly the leading white space: what it drops is all white space, and what remains is a suffix that is empty or starts with a non-space |
| ForcedIds.DigitPrefix | src/AutoBalance.cpp:125 | `atoi` reads the longest run of leading digits |
| ForcedIds.Atoi | src/AutoBalance.cpp:125 | a negative id only comes from a token whose first non-blank character is '-' |
| ForcedIds.Decimal | src/AutoBalance.cpp:125 | the decimal spelling of an id is a non-empty run of digits |
| ForcedIds.DecimalValue | src/AutoBalance.cpp:125 | the digits of a decimal spelling have the value spelled |
| ForcedIds.DigitPrefixOfDigits | src/AutoBalance.cpp:125 | the digit run stops at the first non-digit |
| ForcedIds.AtoiDecimal | src/AutoBalance.cpp:125 | `atoi` reads back a decimal id, with or without a minus sign, and ignores what follows the digits |
| ForcedIds.AtoiOfDigits | src/AutoBalance.cpp:125 | `atoi` of a token starting with digits is the value of its digit run |
| ForcedIds.AtoiOfNegative | src/AutoBalance.cpp:125 | `atoi` of a token starting with '-' is minus the value of the digits after it |
| ForcedIds.LoadTokensSpec | src/AutoBalance.cpp:117-131 | loading a list adds exactly its non-negative ids, all mapped to the list's count, and keeps every other entry |
| ForcedIds.ListedLast | src/AutoBalance.cpp:123-129 | a list names exactly the ids its shorter prefix names plus its last token's non-negative id |
| ForcedIds.GetForcedNumPlayers | src/AutoBalance.cpp:133-140 | the lookup is -1 for an absent id and the stored count otherwise, and inserts nothing |
| ForcedIds.ForcedLookup | src/AutoBalance.cpp:208-214 | after a reload an id is present iff some list names it, and its count is that of the last list naming it (disabled 0, then 2, 5, 10, 25, 40) |
| ForcedIds.SentinelMeansAbsent | src/AutoBalance.cpp:133-140 | after a reload -1 means absent, and negative ids are never present |
| ForcedIds.ForcedCreatureIds.constructor | src/AutoBalance.cpp:97 | the registry starts empty |
| ForcedIds.ForcedCreatureIds.LoadFromString | src/AutoBalance.cpp:118-122 | splitting the string at ',' and loading its tokens leaves the map equal to the old map with the list's tokens loaded in order |
| ForcedIds.ForcedCreatureIds.LoadTokenList | src/AutoBalance.cpp:123-130 | the `getline` loop, one `atoi` per token and a write only for ids >= 0, leaves the map equal to the old map with the tokens loaded in order (a later token overrides an earlier one) |
| ForcedIds.ForcedCreatureIds.Reload | src/AutoBalance.cpp:208-214 | a reload clears the map and loads the lists 40, 25, 10, 5, 2, disabled, whatever the map held before |
| MapTracker.CountExceptGMs | src/AutoBalance.cpp:559 | the non-GM count is at most the length of the player list |
| MapTracker.CountIncludesPresentPlayer | src/AutoBalance.cpp:615 | a non-GM player still on the list makes the count at least 1 |
| MapTracker.Max | src/AutoBalance.cpp:542-543 | the larger of two levels |
| MapTracker.AfterEnter | src/AutoBalance.cpp:529-559 | entry is tracked iff the module is enabled and the player is present and not a GM; it raises mapLevel to at least the player's level and sets the count to the non-GM count; a null player is undefined behaviour |
| MapTracker.AfterLeave | src/AutoBalance.cpp:583-623 | GM players are ignored; in a dungeon the count becomes the non-GM count minus one (uint32) unless someone is in combat; outside a dungeon it is kept; a resulting count of 0 resets mapLevel to 0 |
| MapTracker.AfterLevelChange | src/AutoBalance.cpp:349-361 | a level change only raises mapLevel, never touches the count, and does nothing when disabled, with no player, or with levelScaling 0 |
| MapTracker.LeaveDoesNotWrapWhilePresent | src/AutoBalance.cpp:615 | while the leaving non-GM player is still on the list, the count minus one does not wrap |
| MapTracker.LeaveWrapsOnEmptyList | src/AutoBalance.cpp:615-623 | with an empty list the count wraps to 2^32 - 1 and mapLevel is kept |
| MapTracker.LevelDropsOnlyOnVacancy | src/AutoBalance.cpp:620-622 | across any run of hook calls mapLevel never goes down unless the tracker passed through count 0 and level 0 |
| MapTracker.AutoBalanceMapInfo.constructor | src/AutoBalance.cpp:87-94 | a fresh record has count 0 and level 0 |
| MapTracker.KeepPlayerCount | src/AutoBalance.cpp:595-603 | the scan reports true iff some player on the list is in combat |
| MapTracker.OnLevelChanged | src/AutoBalance.cpp:349-361 | the in-place update leaves the record as `AfterLevelChange` of the old record |
| MapTracker.OnPlayerEnterAll | src/AutoBalance.cpp:529-559 | the in-place update leaves the record as `AfterEnter` of the old record |
| MapTracker.OnPlayerLeaveAll | src/AutoBalance.cpp:583-623 | the in-place update leaves the record as `AfterLeave` of the old record |
| ScalingMath.CheckLevelOffset | src/AutoBalance.cpp:673-675 | a selected level of 0 matches nothing; with non-negative offsets the target matches iff it lies between sel - lowerOffset and sel + higherOffset |
| ScalingMath.LevelInOwnBand | src/AutoBalance.cpp:673-675 | a non-zero level is in its own band |
| ScalingMath.GetAreaLevel | src/AutoBalance.cpp:143-158 | the dungeon entry's levels (recommended level over maximum) for a dungeon or raid; when still 0/0, the area level if above 0; otherwise the caller's values |
| ScalingMath.IndeterminateLevelsReachCaller | src/AutoBalance.cpp:143-158 | without a dungeon entry, whatever non-zero values the caller's variables held are returned |
| ScalingMath.SelectLevel | src/AutoBalance.cpp:755-763 | the selected level is the level the creature ends with; the level is set only when level scaling is on, the map is a dungeon, the creature is not skipped and its original level is outside the map level's band, and then to mapLevel + bonus in uint8 |
| ScalingMath.InflectionFactor | src/AutoBalance.cpp:795-832 | the inflection point is chosen by heroic flag, raid flag and raid size 10 or 25 |
| ScalingMath.InflectionValue | src/AutoBalance.cpp:793-835 | the inflection value is the effective maximum times that point, times BossInflectionMult for dungeon bosses |
| ScalingMath.Steepness | src/AutoBalance.cpp:837 | the curve width is positive for a positive maximum |
| ScalingMath.DefaultMultiplier | src/AutoBalance.cpp:790-839 | the multiplier is exactly 1 when the count reaches the maximum, and strictly between 0 and 1 below it |
| ScalingMath.DefaultMultiplierMonotone | src/AutoBalance.cpp:838 | more players never lower the multiplier |
| ScalingMath.HalfAtInflection | src/AutoBalance.cpp:838 | a population at the inflection value gets one half |
| ScalingMath.OnePlayerInFiveManDungeon | src/AutoBalance.cpp:793-838 | one player in a 5-player dungeon with point 0.5 has inflection 2.5, width 1.5 and multiplier (tanh(-1) + 1) / 2 |
| ScalingMath.ApplyFloor | src/AutoBalance.cpp:846-849 | a floored multiplier is at least the floor, and is the floor exactly when the value was at or below it |
| ScalingMath.Quotient | src/AutoBalance.cpp:876 | a float division by a non-zero divisor gives the real quotient |
| ScalingMath.EndGameBoost | src/AutoBalance.cpp:862 | the end-game boost is at least 1.5 for levels 75 and up over an original level below 75, and 1 otherwise |
| ScalingMath.AreaHealthReduction | src/AutoBalance.cpp:870-874 | the area reduction takes off at most 30% of health, and nothing when the original level is outside the area's range |
| ScalingMath.HealthStatsRate | src/AutoBalance.cpp:851-877 | the health ratio is 1 unless stats are re-based to the new level |
| ScalingMath.ManaStatsRate | src/AutoBalance.cpp:886-890 | the mana ratio is 1 unless stats are re-based to the new level |
| ScalingMath.DamageStatsRate | src/AutoBalance.cpp:909-924 | the damage ratio is 1 unless stats are re-based to the new level |
| ScalingMath.ComputeScaling | src/AutoBalance.cpp:844-926 | the mana multiplier is at least its floor unless the stats are re-based for a creature without mana at its original level; in the NaN case the floor is skipped and the multiplier is the non-finite stand-in; the health and damage floors hold only without re-basing; armor is globalRate times the armor rate |
| ScalingMath.ManaFloorSkippedWithoutMana | src/AutoBalance.cpp:886-895 | a re-based creature without mana at either level at the default rates has a NaN mana multiplier, which stays below the floor |
| ScalingMath.ScaledHealth | src/AutoBalance.cpp:881 | scaled health is at least 1 for a non-negative multiplier, and the generated health plus one at multiplier 1 |
| ScalingMath.ScaledMana | src/AutoBalance.cpp:899 | scaled mana is non-negative for a non-negative multiplier, and the generated mana at multiplier 1 |
| ScalingMath.ScaledArmor | src/AutoBalance.cpp:927 | scaled armor is non-negative for a non-negative multiplier, and the original armor at multiplier 1 without re-basing |
| ScalingMath.FullGroupIsNeutral | src/AutoBalance.cpp:844-899 | with neutral rates and a full group every multiplier is 1 and the stats keep their generated values |
| ScalingMath.SelectionKeepsLevelOutsideBand | src/AutoBalance.cpp:755-763 | at the default offsets, a level 10 creature of a level 12 template in a map of level 12 is not moved and keeps level 10, outside the band of 12 |
| ScalingMath.HealthFloorIsNotFinal | src/AutoBalance.cpp:844-879 | a level ratio below 1 takes the health multiplier under MinHPModifier |
| ScalingMath.ProRate | src/AutoBalance.cpp:952-953 | the new current value is newMax * prev / prevMax rounded down, 0 when prev or prevMax is 0, at most newMax when prev <= prevMax, and newMax at full health |
| CreatureScaling.Untouched | src/AutoBalance.cpp:77-84 | a fresh creature record has count, level and entry 0 and all multipliers 1 |
| CreatureScaling.CheckGate | src/AutoBalance.cpp:679-703 | the early exits before the record is read; a positive forced count replaces the map's maximum, a forced 0 stops the update |
| CreatureScaling.ClearSelected | src/AutoBalance.cpp:712-714 | an entry change or a reset clears the selected level and nothing else |
| CreatureScaling.CurrentCount | src/AutoBalance.cpp:719 | the scaled-for count is playerCount plus the offset, wrapped into uint32 when negative |
| CreatureScaling.BonusLevel | src/AutoBalance.cpp:721 | world bosses get 3 extra levels, others none |
| CreatureScaling.ChooseLevel | src/AutoBalance.cpp:743-763 | the creature's level is set only under level scaling in a dungeon, and then to mapLevel + bonus in uint8 |
| CreatureScaling.Context | src/AutoBalance.cpp:750-769 | stats are re-based exactly when the DB stats do not fit the creature's level (or LevelUseDb is off), level scaling is on and the creature is not skipped; the original level is the template maximum |
| CreatureScaling.CreatureDefaultMultiplier | src/AutoBalance.cpp:790-839 | the creature's curve is 1 at or above the effective maximum and in (0, 1) below it |
| CreatureScaling.Writes | src/AutoBalance.cpp:932-959 | current health and mana keep their proportion and never exceed the new maxima; mana is written only for mana users |
| CreatureScaling.Rescale | src/AutoBalance.cpp:743-950 | after the first hook: the entry is stamped, the selected level is the creature's final level, the stats and the damage multiplier change only when no hook vetoes; once rewritten, the mana multiplier is at least its floor or the non-finite stand-in, and at least the floor when the original level has mana or level scaling is off |
| CreatureScaling.Recompute | src/AutoBalance.cpp:677-962 | gate exits change nothing; a dead creature only gets the clear; an up-to-date creature is left alone; the count is stored before the zero test and the vetoes; stats and damage change only on a full update, which has the entry stamped; after the rewrite of the multipliers the mana multiplier is at least its floor, or the non-finite stand-in when the original level has no mana |
| CreatureScaling.Apply | src/AutoBalance.cpp:759-958 | the new level; without stat writes nothing else changes; with them, health and maximum health and maximum mana take the written values in uint32 for every creature, and current mana only for a creature whose power is mana |
| CreatureScaling.DisabledTemplateIsNeverScaled | src/AutoBalance.cpp:700-703 | a template in the disabled list is never scaled, whatever the forced lists say |
| CreatureScaling.ForcedCountReplacesMaximum | src/AutoBalance.cpp:697-701 | a template listed for 10 players, and not in a later list, is scaled with a maximum of 10 |
| CreatureScaling.TemplateForcedToTenInRaid | src/AutoBalance.cpp:697-701 | template 12345 in the 10-player list is scaled for 10 in a 25-player raid |
| CreatureScaling.ListsTemplate12345 | src/AutoBalance.cpp:123-128 | the string "12345" lists template 12345 and the empty string lists nothing |
| CreatureScaling.SecondCallIsNoOp | src/AutoBalance.cpp:722-733 | after a call that reached level selection, the next tick finds the creature up to date when its level is in the band of mapLevel + bonus |
| CreatureScaling.OwnLevelOutsideBandIsNeverUpToDate | src/AutoBalance.cpp:721-763 | a creature whose template maximum is in the map level's band but whose own level is not keeps its level and fails the staleness test, so every tick recomputes it |
| CreatureScaling.WorldBossAtMapLevelIsNeverUpToDate | src/AutoBalance.cpp:721-733 | a world boss at the map level keeps its level but fails the staleness test, so every tick recomputes it |
| CreatureScaling.FullGroupKeepsTemplateStats | src/AutoBalance.cpp:790-899 | a full group with neutral rates and no level scaling gets multipliers of 1 and the generated health + 1 and mana |
| CreatureScaling.AutoBalanceCreatureInfo.constructor | src/AutoBalance.cpp:74 | a fresh record is `Untouched` |
| CreatureScaling.AutoBalanceCreatureInfo.WithValues | src/AutoBalance.cpp:75-76 | the value constructor stores its arguments, with entry 0 |
| CreatureScaling.ModifyCreatureAttributes | src/AutoBalance.cpp:677-962 | the step-by-step update with early returns leaves the record, exit and writes as `Recompute` of the old record |
| CreatureScaling.RescaleInPlace | src/AutoBalance.cpp:743-950 | the in-place tail of the update leaves the record as `Rescale` of the old record |
| CreatureScaling.CreatureSelectLevel | src/AutoBalance.cpp:657-663 | when enabled, a recomputation with reset; when disabled, nothing changes |
| CreatureScaling.OnAllCreatureUpdate | src/AutoBalance.cpp:665-671 | when enabled, a recomputation without reset; when disabled, nothing changes |
| DamageFilter.AttackerMultiplier | src/AutoBalance.cpp:421 | an attacker without a record deals at the default multiplier 1 |
| DamageFilter.ModifierDealDamage | src/AutoBalance.cpp:413-436 | the amount changes only if the module is enabled, the attacker is a non-player unit in the world with multiplier not 1, both units are in a dungeon or both in a battleground (under DungeonsOnly), and the attacker is not player-controlled; then it is damage times the multiplier, truncated |
| DamageFilter.UntouchedAttackerIsNeutral | src/AutoBalance.cpp:421-424 | a creature never scaled deals and heals unchanged amounts |
| DamageFilter.FilterIsMonotone | src/AutoBalance.cpp:435 | with a non-negative multiplier more damage in never gives less out |
| DamageFilter.WeakenedAttackerNeverRaises | src/AutoBalance.cpp:435 | a multiplier in [0, 1] never raises the amount |
| DamageFilter.DealDamage | src/AutoBalance.cpp:388-391 | with the module disabled the amount passes unchanged |
| DamageFilter.ModifyUnsigned | src/AutoBalance.cpp:393-410 | with the module disabled the amount passes unchanged |
| DamageFilter.ModifySpellDamageTaken | src/AutoBalance.cpp:398-401 | a non-negative spell amount is filtered as itself and stored back as an int32 |
| DamageFilter.SpellPassThroughRoundTrips | src/AutoBalance.cpp:398-401 | a spell amount the filter lets through comes back unchanged, negative or not |
| DamageFilter.NegativeSpellAmountFlipsSign | src/AutoBalance.cpp:398-401 | -0x1000_0000 at multiplier one half is scaled as 0xF000_0000 and comes back as +0x7800_0000 (both products exact in single precision) |

## Left out

- Immunities (`ApplyImmunity`, `ApplyImmunities`, `OnBeforeUpdate`,
  `OnAfterGuardianInitStatsForLevel`, lines 160-188, 277-340 and 448-527). They are engine
  aura calls with no decision in them.
- Chat notifications, `OnLogin` and the command script (lines 964-1092). These are I/O and
  admin accessors.
- Encounter rewards (lines 1094-1139) and `OnGiveXP` (lines 363-377). These are item and
  experience grants through the engine.
- Reading the configuration (lines 216-265). The configuration is an immutable `Config`
  record, and `Settings.Defaults` gives the fallback values. The conversion of the
  integer keys to int8 is not modelled.
- The `ABScriptMgr` fan-out (lines 37-62). Each hook is one boolean veto. Hook scripts
  that rewrite their by-reference arguments are not modelled.
- DBC and ObjectMgr lookups (`GetLFGDungeon`, `sAreaTableStore`, `GetCreatureBaseStats`,
  `Generate*`). They are inputs: `MapContext.lfgDungeon`, `Env.areaLevelOf` and `Env.statsAt`.
- `ScalingMath.DefaultMultiplier`: `tanh` is a parameter. Its range and monotonicity are
  assumed where lemmas state them.
- Float arithmetic in general: rounding, precision loss and IEEE infinities and NaN. A
  division by a zero base stat gives the unspecified real `Env.nonFinite`. For the health
  and damage ratios the model then multiplies that real by the other factors, where the
  program keeps a non-finite value.
- `ScalingMath.ComputeScaling`, `CreatureScaling.Recompute`, `CreatureScaling.Rescale`:
  a NaN or +infinity mana multiplier is stored as the stand-in `Env.nonFinite`, and the
  contract promises the mana floor only when the original level has mana or the stats
  are not re-based. The scaled mana of such a creature is `round(0 * NaN)`, whose uint32
  conversion is undefined in C++; the model gives 0.
- `ScalingMath.ProRate`: the contract is proved in exact arithmetic. The source computes
  `float(newMax) / float(prevMax) * float(prev)` in single precision, which can fall just
  below the exact quotient, so at full health the result can be newMax - 1 (1000 over 922
  at full health gives 999).
- `ScalingMath.ScaledHealth`, `ScalingMath.ScaledMana`, `ScalingMath.ScaledArmor`,
  `DamageFilter.ModifierDealDamage`: a float result outside the uint32 range is left as
  an unbounded integer. Converting it is undefined behaviour in C++.
- `ForcedIds.Atoi`: overflow of the C int is not modelled.
- `CreatureScaling.StatWrites` holds only the values written. The engine's own clamp of
  the current power by `SetMaxPower` is not modelled. The constant energy and
  rage modifiers, `ResetPlayerDamageReq`, `setPowerType` and `UpdateAllStats` (lines
  943-961) are left out.
- The cast of a battleground map to `InstanceMap` (line 696) is taken as giving the
  same flags as the map.
- `GetDefault` creates a record when the attacker has none (line 421). Only the default
  multiplier is modelled, not the insertion.
- The mass-sync branch of `OnPlayerEnterAll` (lines 544-557) is unreachable, as
  explained above.
