/**
 * The damage filter _Modifer_DealDamage and the five unit hooks that route melee, spell,
 * periodic and direct damage and received healing through it: a chain of pass-through
 * conditions, then the amount times the attacker's stored damage multiplier, truncated.
 */
module DamageFilter {
  import opened Numbers
  import opened Settings
  import CreatureScaling
  import ScalingMath

  /**
   * What the filter reads of the attacking unit. storedMultiplier is the DamageMultiplier of
   * its AutoBalanceCreatureInfo, None when it has none yet (a fresh record is created then).
   */
  datatype Attacker = Attacker(
    isPlayer: bool,
    inWorld: bool,
    storedMultiplier: Option<real>,
    isHunterPet: bool,
    isPet: bool,
    isSummon: bool,
    isVehicle: bool,
    controlledByPlayer: bool,
    inDungeon: bool,
    inBattleground: bool)

  /** What the filter reads of the target's map. */
  datatype TargetMap = TargetMap(isDungeon: bool, isBattleground: bool)

  /** The multiplier the attacker's record holds; an untouched record holds its default. */
  function AttackerMultiplier(a: Attacker): (m: real)
    ensures a.storedMultiplier.None? ==> m == 1.0
    ensures a.storedMultiplier.Some? ==> m == a.storedMultiplier.value
  {
    a.storedMultiplier.GetOr(CreatureScaling.Untouched().damageMultiplier)
  }

  /** A pet, hunter pet, summon or vehicle that a player controls. */
  predicate IsPlayerControlled(a: Attacker) {
    (a.isHunterPet || a.isPet || a.isSummon || a.isVehicle) && a.controlledByPlayer
  }

  /** With DungeonsOnly, both units must be in a dungeon, or both in a battleground. */
  predicate SameKindOfInstance(cfg: Config, target: TargetMap, a: Attacker) {
    !cfg.dungeonsOnly || (target.isDungeon && a.inDungeon) || (a.inBattleground && target.isBattleground)
  }

  /**
   * _Modifer_DealDamage. The product is converted back to uint32 by truncation; a
   * product outside the uint32 range is not narrowed (the conversion is undefined in C++).
   */
  function ModifierDealDamage(cfg: Config, target: TargetMap, attacker: Option<Attacker>, damage: Uint32): (r: int)
    // every condition of the chain, in both directions
    ensures r != damage ==>
      && cfg.enabled && attacker.Some? && !attacker.value.isPlayer && attacker.value.inWorld
      && AttackerMultiplier(attacker.value) != 1.0
      && SameKindOfInstance(cfg, target, attacker.value)
      && !IsPlayerControlled(attacker.value)
    ensures cfg.enabled && attacker.Some? && !attacker.value.isPlayer && attacker.value.inWorld &&
            SameKindOfInstance(cfg, target, attacker.value) && !IsPlayerControlled(attacker.value) &&
            AttackerMultiplier(attacker.value) >= 0.0 ==>
      r as real <= damage as real * AttackerMultiplier(attacker.value) < r as real + 1.0
  {
    if !cfg.enabled then damage
    else if attacker.None? || attacker.value.isPlayer || !attacker.value.inWorld then damage
    else
      var a := attacker.value;
      var m := AttackerMultiplier(a);
      if m == 1.0 then damage
      else if !SameKindOfInstance(cfg, target, a) then damage
      else if IsPlayerControlled(a) then damage
      else
        ScalingMath.MulNonNegative(damage as real, m);
        Trunc(damage as real * m)
  }

  /** A creature that was never scaled deals and heals unchanged amounts. */
  lemma UntouchedAttackerIsNeutral(cfg: Config, target: TargetMap, a: Attacker, damage: Uint32)
    requires a.storedMultiplier.None?
    ensures ModifierDealDamage(cfg, target, Some(a), damage) == damage
  {
  }

  /** With a non-negative multiplier, more damage in never gives less damage out. */
  lemma {:induction false} FilterIsMonotone(cfg: Config, target: TargetMap, attacker: Option<Attacker>, d1: Uint32, d2: Uint32)
    requires d1 <= d2
    requires attacker.Some? ==> AttackerMultiplier(attacker.value) >= 0.0
    ensures ModifierDealDamage(cfg, target, attacker, d1) <= ModifierDealDamage(cfg, target, attacker, d2)
  {
    if cfg.enabled && attacker.Some? && !attacker.value.isPlayer && attacker.value.inWorld &&
       AttackerMultiplier(attacker.value) != 1.0 &&
       SameKindOfInstance(cfg, target, attacker.value) && !IsPlayerControlled(attacker.value) {
      var m := AttackerMultiplier(attacker.value);
      ScalingMath.MulLeq(d1 as real, d2 as real, m);
      ScalingMath.MulNonNegative(d1 as real, m);
      TruncMonotone(d1 as real * m, d2 as real * m);
    }
  }

  lemma TruncMonotone(a: real, b: real)
    requires 0.0 <= a <= b
    ensures Trunc(a) <= Trunc(b)
  {
  }

  /** A multiplier between 0 and 1 (a weakened creature) never raises the amount. */
  lemma {:induction false} WeakenedAttackerNeverRaises(cfg: Config, target: TargetMap, attacker: Option<Attacker>, damage: Uint32)
    requires attacker.Some? ==> 0.0 <= AttackerMultiplier(attacker.value) <= 1.0
    ensures 0 <= ModifierDealDamage(cfg, target, attacker, damage) <= damage
  {
    var r := ModifierDealDamage(cfg, target, attacker, damage);
    if r != damage {
      var m := AttackerMultiplier(attacker.value);
      ScalingMath.MulLeq(m, 1.0, damage as real);
      assert r as real <= damage as real * m;
    }
  }

  // ---------------------------------------------------------------------------
  // The hooks
  // ---------------------------------------------------------------------------

  /** DealDamage: the victim is the target. */
  function DealDamage(cfg: Config, attacker: Option<Attacker>, victim: TargetMap, damage: Uint32): (r: int)
    ensures !cfg.enabled ==> r == damage
  {
    ModifierDealDamage(cfg, victim, attacker, damage)
  }

  /** ModifyPeriodicDamageAurasTick, ModifyMeleeDamage and ModifyHealRecieved share this form. */
  function ModifyUnsigned(cfg: Config, target: TargetMap, attacker: Option<Attacker>, damage: Uint32): (r: int)
    ensures !cfg.enabled ==> r == damage
  {
    ModifierDealDamage(cfg, target, attacker, damage)
  }

  /**
   * ModifySpellDamageTaken: the int32 amount goes in as a uint32 and the result is
   * stored back into the int32 (two's complement).
   */
  function ModifySpellDamageTaken(cfg: Config, target: TargetMap, attacker: Option<Attacker>, damage: Int32): (r: Int32)
    ensures 0 <= damage ==> r == ToInt32(ModifierDealDamage(cfg, target, attacker, damage))
  {
    ToInt32(ModifierDealDamage(cfg, target, attacker, ToUint32(damage)))
  }

  /** When the filter lets the amount through, the int32 round trip returns it unchanged, negative or not. */
  lemma {:induction false} SpellPassThroughRoundTrips(cfg: Config, target: TargetMap, attacker: Option<Attacker>, damage: Int32)
    requires ModifierDealDamage(cfg, target, attacker, ToUint32(damage)) == ToUint32(damage)
    ensures ModifySpellDamageTaken(cfg, target, attacker, damage) == damage
  {
    var u := ToUint32(damage);
    assert (u - damage) % 0x1_0000_0000 == 0;
    if damage < 0 {
      assert u == damage + 0x1_0000_0000;
    }
  }

  /**
   * A negative spell amount is scaled as the large unsigned value it becomes:
   * -0x1000_0000 is taken as 0xF000_0000, and one half of that, 0x7800_0000, is stored back
   * as a large positive amount. Both products are exact in single precision.
   */
  lemma NegativeSpellAmountFlipsSign(cfg: Config, target: TargetMap, a: Attacker)
    requires cfg.enabled && !a.isPlayer && a.inWorld && !IsPlayerControlled(a)
    requires SameKindOfInstance(cfg, target, a)
    requires a.storedMultiplier == Some(0.5)
    ensures ModifySpellDamageTaken(cfg, target, Some(a), -0x1000_0000) == 0x7800_0000
  {
    assert ToUint32(-0x1000_0000) == 0xF000_0000;
    assert 0xF000_0000 as real * 0.5 == 0x7800_0000 as real;
  }
}
