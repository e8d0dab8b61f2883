/** The opponent drones (backend/ai_drone_advanced.py): the difficulty table,
    level scaling, and the `AdvancedAIDrone` object's behaviour state, evasive
    manoeuvre, firing decision, damage and respawn. Random draws are
    parameters; the float steering of update_position is not modelled. */
module Drones {
  import opened Base

  // ---------------------------------------------------------------------
  // Difficulty and level scaling
  // ---------------------------------------------------------------------

  /** One row of the difficulty table. */
  datatype DifficultyProfile = DifficultyProfile(
    maxSpeed: real,
    acceleration: real,
    reactionTime: real,
    aimAccuracy: real,
    hpMultiplier: real,
    aggression: real)

  const EasyProfile := DifficultyProfile(0.25, 0.04, 0.8, 0.5, 0.8, 0.3)
  const NormalProfile := DifficultyProfile(0.35, 0.06, 0.5, 0.75, 1.0, 0.6)
  const HardProfile := DifficultyProfile(0.45, 0.08, 0.3, 0.9, 1.3, 0.8)
  const ExtremeProfile := DifficultyProfile(0.6, 0.12, 0.15, 0.98, 1.6, 1.0)

  /** The table lookup with `normal` as the default for any other name. */
  function ProfileFor(difficulty: string): (p: DifficultyProfile)
    ensures difficulty !in {"easy", "normal", "hard", "extreme"} ==> p == NormalProfile
    ensures 0.5 <= p.aimAccuracy < 1.0 && 0.3 <= p.aggression <= 1.0 && 0.8 <= p.hpMultiplier <= 1.6
  {
    if difficulty == "easy" then EasyProfile
    else if difficulty == "hard" then HardProfile
    else if difficulty == "extreme" then ExtremeProfile
    else NormalProfile
  }

  /** The hit points before level scaling: int(100 * hp_multiplier). */
  function BaseMaxHp(p: DifficultyProfile): int {
    Trunc(100.0 * p.hpMultiplier)
  }

  const BaseMissileDamage := 20

  /** The four tables give 80, 100, 130 and 160 base hit points. */
  lemma BaseHitPoints()
    ensures BaseMaxHp(ProfileFor("easy")) == 80
    ensures BaseMaxHp(ProfileFor("normal")) == 100
    ensures BaseMaxHp(ProfileFor("hard")) == 130
    ensures BaseMaxHp(ProfileFor("extreme")) == 160
  {
  }

  /** 8% more hit points per level above 1. */
  function HpScaling(level: int): real {
    1.0 + (level - 1) as real * 0.08
  }

  /** 6% more missile damage per level above 1. */
  function DamageScaling(level: int): real {
    1.0 + (level - 1) as real * 0.06
  }

  /** int(base_max_hp * hp_scaling): from level 1 up, the whole part of the
      scaled hit points, never below the base. */
  function ScaledMaxHp(baseMaxHp: int, level: int): (hp: int)
    ensures baseMaxHp >= 0 && level >= 1 ==>
              baseMaxHp <= hp && hp as real <= baseMaxHp as real * HpScaling(level) < hp as real + 1.0
  {
    var b, s := baseMaxHp as real, HpScaling(level);
    assert baseMaxHp >= 0 && level >= 1 ==> b * 1.0 <= b * s by {
      if baseMaxHp >= 0 && level >= 1 {
        ProductMonotone(b, 1.0, s);
      }
    }
    Trunc(baseMaxHp as real * HpScaling(level))
  }

  /** int(20 * damage_scaling): from level 1 up, the whole part of the
      scaled damage, never below 20. */
  function ScaledDamage(level: int): (d: int)
    ensures level >= 1 ==>
              BaseMissileDamage <= d && d as real <= 20.0 * DamageScaling(level) < d as real + 1.0
  {
    Trunc(BaseMissileDamage as real * DamageScaling(level))
  }

  /** At level 1 nothing is scaled: max_hp is the base and damage is 20. */
  lemma LevelOneUnscaled(baseMaxHp: int)
    ensures ScaledMaxHp(baseMaxHp, 1) == baseMaxHp
    ensures ScaledDamage(1) == BaseMissileDamage
  {
  }

  lemma ProductMonotone(a: real, b: real, c: real)
    requires 0.0 <= a && b <= c
    ensures a * b <= a * c
  {
  }

  /** From level 1 up, a higher level never lowers max_hp, and it never
      falls below its base. */
  lemma HpScalingMonotone(baseMaxHp: int, l1: int, l2: int)
    requires baseMaxHp >= 0 && 1 <= l1 <= l2
    ensures baseMaxHp <= ScaledMaxHp(baseMaxHp, l1) <= ScaledMaxHp(baseMaxHp, l2)
  {
    var b, s1, s2 := baseMaxHp as real, HpScaling(l1), HpScaling(l2);
    assert 1.0 <= s1 <= s2;
    ScaledTrunc(b, 1.0, s1);
    ScaledTrunc(b, s1, s2);
    assert ScaledMaxHp(baseMaxHp, l1) == Trunc(b * s1);
    assert ScaledMaxHp(baseMaxHp, l2) == Trunc(b * s2);
  }

  /** From level 1 up, a higher level never lowers the missile damage, and it
      never falls below 20. */
  lemma DamageScalingMonotone(l1: int, l2: int)
    requires 1 <= l1 <= l2
    ensures BaseMissileDamage <= ScaledDamage(l1) <= ScaledDamage(l2)
  {
    var s1, s2 := DamageScaling(l1), DamageScaling(l2);
    assert 1.0 <= s1 <= s2;
    ScaledTrunc(20.0, 1.0, s1);
    ScaledTrunc(20.0, s1, s2);
  }

  lemma ScaledTrunc(b: real, s1: real, s2: real)
    requires b >= 0.0 && s1 <= s2
    ensures Trunc(b * s1) <= Trunc(b * s2)
  {
    ProductMonotone(b, s1, s2);
    TruncMonotone(b * s1, b * s2);
  }

  // ---------------------------------------------------------------------
  // Behaviour choice
  // ---------------------------------------------------------------------

  datatype BehaviorMode = Aggressive | Defensive | Evasive

  const BehaviorChangeInterval := 3.0
  const CloseRange := 15.0
  const EvasiveDuration := 2.5
  const AiMissileCooldown := 1.5
  const AttackRange := 35.0

  /** The strategic choice of decide_behavior: own hp ratio first, then the
      distance and the player's hp, then the aggression draw. `close` is
      distance < 15 and `draw` the uniform draw in [0, 1). */
  function ChooseMode(hp: int, maxHp: int, playerHp: int, close: bool, draw: real, aggression: real): (m: BehaviorMode)
    requires maxHp != 0
    ensures m == Defensive ==> playerHp >= 30 && !(close && hp as real / maxHp as real >= 0.5)
    ensures hp as real / maxHp as real >= 0.5 && draw < aggression ==> m == Aggressive
  {
    var hpRatio := hp as real / maxHp as real;
    var playerHpRatio := playerHp as real / 100.0;
    if hpRatio < 0.25 then Evasive
    else if hpRatio < 0.5 then (if playerHpRatio < 0.3 then Aggressive else Defensive)
    else if close then Aggressive
    else if playerHpRatio < 0.5 then Aggressive
    else if draw < aggression then Aggressive
    else Defensive
  }

  lemma RatioBelow(n: int, d: int, k: int)
    requires d > 0 && k > 0
    ensures n as real / d as real < 1.0 / k as real <==> k * n < d
  {
  }

  /** decide_behavior's choice in integer terms, for a positive max_hp:
      below a quarter of max_hp the drone evades; below half it attacks
      only a player under 30 hp and otherwise defends; from half up it
      attacks a close player or one under 50 hp, and otherwise attacks
      exactly when the draw falls below its aggression. */
  lemma ChooseModeCases(hp: int, maxHp: int, playerHp: int, close: bool, draw: real, aggression: real)
    requires maxHp > 0
    ensures var m := ChooseMode(hp, maxHp, playerHp, close, draw, aggression);
            && (m == Evasive <==> 4 * hp < maxHp)
            && (4 * hp >= maxHp && 2 * hp < maxHp ==> (m == Aggressive <==> playerHp < 30) && m != Evasive)
            && (2 * hp >= maxHp && (close || playerHp < 50) ==> m == Aggressive)
            && (2 * hp >= maxHp && !close && playerHp >= 50 ==> (m == Aggressive <==> draw < aggression))
  {
    RatioBelow(hp, maxHp, 4);
    RatioBelow(hp, maxHp, 2);
  }

  /** The result of take_damage. */
  datatype DroneDamage =
    | AlreadyDead
    | Damaged(droneId: string, hp: int, maxHp: int, damageTaken: int, died: bool)

  /** The learning counters of `memory`. */
  datatype Memory = Memory(successfulAttacks: int, avoidedDamage: int, totalEncounters: int)

  /** The fire chance of should_fire_missile for each behaviour: never above
      1.2 times the accuracy, and below 1 for a defensive or evasive drone of
      any difficulty (accuracy below 1). */
  function FireChance(mode: BehaviorMode, aimAccuracy: real): (c: real)
    ensures aimAccuracy >= 0.0 ==> 0.0 <= c <= aimAccuracy * 1.2
    ensures 0.0 <= aimAccuracy < 1.0 && mode != Aggressive ==> c < 1.0
  {
    match mode
    case Aggressive => aimAccuracy * 1.2
    case Defensive => aimAccuracy * 0.8
    case Evasive => aimAccuracy * 0.3
  }

  /** An aggressive drone is the most trigger-happy and an evasive one the least. */
  lemma FireChanceOrder(aimAccuracy: real)
    requires aimAccuracy > 0.0
    ensures FireChance(Evasive, aimAccuracy) < FireChance(Defensive, aimAccuracy) < FireChance(Aggressive, aimAccuracy)
  {
  }

  /** The part of a drone that decide_behavior and the manoeuvre timer change. */
  datatype Behavior = Behavior(
    mode: BehaviorMode,
    lastChange: real,
    memory: Memory,
    evasiveActive: bool,
    evasiveTimer: real)

  /** decide_behavior on the behaviour state at time `now`, `chosen` being
      the ChooseMode result: nothing happens within 3 s of the last change;
      otherwise the mode becomes `chosen`, the time is stamped, the encounter
      counted, and choosing Evasive starts a manoeuvre unless one runs. */
  function Decided(b: Behavior, chosen: BehaviorMode, now: real): (r: Behavior)
    ensures now - b.lastChange < BehaviorChangeInterval ==> r == b
    ensures now - b.lastChange >= BehaviorChangeInterval ==>
              r.mode == chosen && r.lastChange == now
              && r.memory == b.memory.(totalEncounters := b.memory.totalEncounters + 1)
    ensures r.evasiveActive <==> b.evasiveActive || (now - b.lastChange >= BehaviorChangeInterval && chosen == Evasive)
    ensures r.evasiveTimer == if !b.evasiveActive && r.evasiveActive then EvasiveDuration else b.evasiveTimer
  {
    if now - b.lastChange < BehaviorChangeInterval then b
    else
      var started := chosen == Evasive && !b.evasiveActive;
      Behavior(chosen, now, b.memory.(totalEncounters := b.memory.totalEncounters + 1),
               b.evasiveActive || chosen == Evasive,
               if started then EvasiveDuration else b.evasiveTimer)
  }

  /** The manoeuvre countdown of update_position: a running manoeuvre loses
      `deltaTime` and ends once its timer is no longer positive; an inactive
      one is left alone. Nothing but the manoeuvre changes. */
  function Countdown(b: Behavior, deltaTime: real): (r: Behavior)
    ensures !b.evasiveActive ==> r == b
    ensures b.evasiveActive ==> r.evasiveTimer == b.evasiveTimer - deltaTime
    ensures r.evasiveActive <==> b.evasiveActive && r.evasiveTimer > 0.0
    ensures r.mode == b.mode && r.lastChange == b.lastChange && r.memory == b.memory
  {
    if !b.evasiveActive then b
    else
      var t := b.evasiveTimer - deltaTime;
      b.(evasiveActive := t > 0.0, evasiveTimer := t)
  }

  /** A due behaviour step on a drone under a quarter of its max_hp puts it
      in evasive mode with a manoeuvre running, a fresh one with 2.5 s. */
  lemma LowHpEvades(b: Behavior, hp: int, maxHp: int, playerHp: int, close: bool, draw: real, aggression: real, now: real)
    requires maxHp > 0 && 4 * hp < maxHp && now - b.lastChange >= BehaviorChangeInterval
    ensures var r := Decided(b, ChooseMode(hp, maxHp, playerHp, close, draw, aggression), now);
            r.mode == Evasive && r.evasiveActive && (!b.evasiveActive ==> r.evasiveTimer == EvasiveDuration)
  {
    ChooseModeCases(hp, maxHp, playerHp, close, draw, aggression);
  }

  /** `n` countdown steps of `deltaTime` each, as `n` frames of update_position apply them. */
  function CountdownSteps(b: Behavior, deltaTime: real, n: nat): Behavior {
    if n == 0 then b else Countdown(CountdownSteps(b, deltaTime, n - 1), deltaTime)
  }

  /** A manoeuvre counted down with steps of `deltaTime` > 0 has ended after
      `n` steps once n * deltaTime reaches its timer, and the mode is untouched. */
  lemma {:induction false} ManoeuvreEnds(b: Behavior, deltaTime: real, n: nat)
    requires b.evasiveActive ==> b.evasiveTimer > 0.0
    requires deltaTime > 0.0 && n as real * deltaTime >= b.evasiveTimer
    ensures !CountdownSteps(b, deltaTime, n).evasiveActive
    ensures CountdownSteps(b, deltaTime, n).mode == b.mode
  {
    if n > 0 {
      var prev := CountdownSteps(b, deltaTime, n - 1);
      ManoeuvreTimer(b, deltaTime, n - 1);
      ManoeuvreEndsMode(b, deltaTime, n - 1);
      if prev.evasiveActive {
        assert prev.evasiveTimer == b.evasiveTimer - (n - 1) as real * deltaTime;
        assert prev.evasiveTimer - deltaTime <= 0.0;
      }
    }
  }

  /** While a manoeuvre runs, each step takes `deltaTime` off its timer. */
  lemma {:induction false} ManoeuvreTimer(b: Behavior, deltaTime: real, n: nat)
    ensures CountdownSteps(b, deltaTime, n).evasiveActive ==>
              b.evasiveActive && CountdownSteps(b, deltaTime, n).evasiveTimer == b.evasiveTimer - n as real * deltaTime
  {
    if n > 0 {
      ManoeuvreTimer(b, deltaTime, n - 1);
    }
  }

  /** The countdown never changes the mode. */
  lemma {:induction false} ManoeuvreEndsMode(b: Behavior, deltaTime: real, n: nat)
    ensures CountdownSteps(b, deltaTime, n).mode == b.mode
  {
    if n > 0 {
      ManoeuvreEndsMode(b, deltaTime, n - 1);
    }
  }

  // ---------------------------------------------------------------------
  // The drone
  // ---------------------------------------------------------------------

  class AIDrone {
    const droneId: string
    const difficulty: string
    const playerLevel: int
    const profile: DifficultyProfile
    const baseMaxHp: int
    const maxHp: int
    const missileDamage: int
    var position: Vec3
    var velocity: Vec3
    var hp: int
    var isAlive: bool
    var lastMissileTime: real
    var kills: int
    var damageDealt: int
    var missilesFired: int
    var behaviorMode: BehaviorMode
    var lastBehaviorChange: real
    var evasiveActive: bool
    var evasiveTimer: real
    var memory: Memory

    /** A positive max_hp, no living drone at 0 hp, and an active manoeuvre
        always has time left. */
    predicate Valid()
      reads this
    {
      maxHp > 0 && hp >= 0 && (isAlive ==> hp > 0) && (evasiveActive ==> evasiveTimer > 0.0)
    }

    /** The behaviour part of the drone's state. */
    function BehaviorState(): Behavior
      reads this
    {
      Behavior(behaviorMode, lastBehaviorChange, memory, evasiveActive, evasiveTimer)
    }

    /** The mode decide_behavior would choose against this player now. */
    function ChosenMode(playerPosition: Vec3, playerHp: int, draw: real): BehaviorMode
      requires Valid()
      reads this
    {
      ChooseMode(hp, maxHp, playerHp, CloserThan(playerPosition, position, CloseRange), draw, profile.aggression)
    }

    /** A new drone at full health: the difficulty row, then level scaling. */
    constructor (id: string, initialPosition: Vec3, difficultyName: string, level: int)
      requires level >= 1
      ensures Valid()
      ensures droneId == id && difficulty == difficultyName && playerLevel == level
      ensures profile == ProfileFor(difficultyName) && baseMaxHp == BaseMaxHp(profile)
      ensures maxHp == ScaledMaxHp(baseMaxHp, level) && missileDamage == ScaledDamage(level)
      ensures hp == maxHp && isAlive
      ensures position == initialPosition && velocity == Origin
      ensures lastMissileTime == 0.0 && kills == 0 && damageDealt == 0 && missilesFired == 0
      ensures behaviorMode == Aggressive && lastBehaviorChange == 0.0
      ensures !evasiveActive && evasiveTimer == 0.0 && memory == Memory(0, 0, 0)
    {
      droneId, difficulty, playerLevel := id, difficultyName, level;
      position, velocity := initialPosition, Origin;
      var p := ProfileFor(difficultyName);
      profile := p;
      baseMaxHp := BaseMaxHp(p);
      HpScalingMonotone(BaseMaxHp(p), level, level);
      maxHp := ScaledMaxHp(BaseMaxHp(p), level);
      hp := ScaledMaxHp(BaseMaxHp(p), level);
      missileDamage := ScaledDamage(level);
      isAlive := true;
      lastMissileTime := 0.0;
      kills, damageDealt, missilesFired := 0, 0, 0;
      behaviorMode := Aggressive;
      lastBehaviorChange := 0.0;
      evasiveActive, evasiveTimer := false, 0.0;
      memory := Memory(0, 0, 0);
    }

    /** activate_evasive_maneuver: start a 2.5 s manoeuvre unless one is
        already running. */
    method ActivateEvasiveManeuver()
      requires Valid()
      modifies this
      ensures Valid()
      ensures evasiveActive
      ensures old(evasiveActive) ==> evasiveTimer == old(evasiveTimer)
      ensures !old(evasiveActive) ==> evasiveTimer == EvasiveDuration
      ensures hp == old(hp) && isAlive == old(isAlive) && behaviorMode == old(behaviorMode)
      ensures lastBehaviorChange == old(lastBehaviorChange) && memory == old(memory)
      ensures lastMissileTime == old(lastMissileTime) && missilesFired == old(missilesFired)
      ensures position == old(position) && velocity == old(velocity)
    {
      if !evasiveActive {
        evasiveActive := true;
        evasiveTimer := EvasiveDuration;
      }
    }

    /** decide_behavior: skipped entirely within 3 s of the last change;
        otherwise choose the mode (starting the manoeuvre when evading),
        stamp the time and count the encounter. */
    method DecideBehavior(playerPosition: Vec3, playerHp: int, now: real, draw: real)
      requires Valid()
      modifies this
      ensures Valid()
      ensures now - old(lastBehaviorChange) < BehaviorChangeInterval ==>
                behaviorMode == old(behaviorMode) && lastBehaviorChange == old(lastBehaviorChange)
                && memory == old(memory) && evasiveActive == old(evasiveActive) && evasiveTimer == old(evasiveTimer)
      ensures now - old(lastBehaviorChange) >= BehaviorChangeInterval ==>
                behaviorMode == ChooseMode(hp, maxHp, playerHp, CloserThan(playerPosition, position, CloseRange), draw, profile.aggression)
                && lastBehaviorChange == now
                && memory == old(memory).(totalEncounters := old(memory.totalEncounters) + 1)
                && (behaviorMode == Evasive ==> evasiveActive)
                && (behaviorMode == Evasive && !old(evasiveActive) ==> evasiveTimer == EvasiveDuration)
                && (behaviorMode != Evasive || old(evasiveActive) ==>
                      evasiveActive == old(evasiveActive) && evasiveTimer == old(evasiveTimer))
      ensures BehaviorState() == Decided(old(BehaviorState()), old(ChosenMode(playerPosition, playerHp, draw)), now)
      ensures hp == old(hp) && isAlive == old(isAlive) && position == old(position) && velocity == old(velocity)
      ensures lastMissileTime == old(lastMissileTime) && missilesFired == old(missilesFired)
    {
      if now - lastBehaviorChange < BehaviorChangeInterval {
        return;
      }
      var mode := ChooseMode(hp, maxHp, playerHp, CloserThan(playerPosition, position, CloseRange), draw, profile.aggression);
      behaviorMode := mode;
      if mode == Evasive {
        ActivateEvasiveManeuver();
      }
      lastBehaviorChange := now;
      memory := memory.(totalEncounters := memory.totalEncounters + 1);
    }

    /** The behaviour and timer part of update_position: a dead drone does
        nothing; a truthy `currentTime` (present and non-zero) runs
        decide_behavior; a running manoeuvre counts down by `deltaTime` and
        ends once its timer reaches 0. */
    method UpdatePosition(playerPosition: Vec3, playerHp: int, currentTime: Option<real>, deltaTime: real, draw: real)
      requires Valid()
      modifies this
      ensures Valid()
      ensures !old(isAlive) ==>
                behaviorMode == old(behaviorMode) && lastBehaviorChange == old(lastBehaviorChange)
                && memory == old(memory) && evasiveActive == old(evasiveActive) && evasiveTimer == old(evasiveTimer)
      ensures old(isAlive) && currentTime.Some? && currentTime.value != 0.0 ==>
                BehaviorState() == Countdown(Decided(old(BehaviorState()), old(ChosenMode(playerPosition, playerHp, draw)), currentTime.value), deltaTime)
      ensures old(isAlive) && (currentTime.None? || currentTime == Some(0.0)) ==>
                BehaviorState() == Countdown(old(BehaviorState()), deltaTime)
      ensures hp == old(hp) && isAlive == old(isAlive) && lastMissileTime == old(lastMissileTime)
      ensures missilesFired == old(missilesFired)
    {
      if !isAlive {
        return;
      }
      if currentTime.Some? && currentTime.value != 0.0 {
        DecideBehavior(playerPosition, playerHp, currentTime.value, draw);
      }
      if evasiveActive {
        evasiveTimer := evasiveTimer - deltaTime;
        if evasiveTimer <= 0.0 {
          evasiveActive := false;
        }
      }
    }

    /** can_fire_missile: the drone may fire again exactly from 1.5 s after
        its last shot on. */
    predicate CanFireMissile(now: real)
      reads this
      ensures now >= lastMissileTime + AiMissileCooldown ==> CanFireMissile(now)
      ensures now < lastMissileTime + AiMissileCooldown ==> !CanFireMissile(now)
    {
      now - lastMissileTime >= AiMissileCooldown
    }

    /** should_fire_missile: a living drone off cooldown, within 35 of the
        player, fires when the draw falls below its mode's fire chance, and
        then records the shot. */
    method ShouldFireMissile(playerPosition: Vec3, now: real, draw: real) returns (fire: bool)
      requires Valid()
      modifies this
      ensures Valid()
      ensures fire <==> old(isAlive) && old(CanFireMissile(now)) && WithinDistance(playerPosition, position, AttackRange)
                        && draw < FireChance(behaviorMode, profile.aimAccuracy)
      ensures fire ==> lastMissileTime == now && missilesFired == old(missilesFired) + 1
                       && memory == old(memory).(successfulAttacks := old(memory.successfulAttacks) + 1)
      ensures !fire ==> lastMissileTime == old(lastMissileTime) && missilesFired == old(missilesFired) && memory == old(memory)
      ensures hp == old(hp) && isAlive == old(isAlive) && behaviorMode == old(behaviorMode)
      ensures evasiveActive == old(evasiveActive) && evasiveTimer == old(evasiveTimer)
      ensures position == old(position) && velocity == old(velocity)
    {
      if !isAlive || !CanFireMissile(now) {
        return false;
      }
      fire := false;
      if WithinDistance(playerPosition, position, AttackRange) {
        var chance := FireChance(behaviorMode, profile.aimAccuracy);
        if draw < chance {
          lastMissileTime := now;
          missilesFired := missilesFired + 1;
          memory := memory.(successfulAttacks := memory.successfulAttacks + 1);
          fire := true;
        }
      }
    }

    /** take_damage: a dead drone reports `already_dead` and changes nothing;
        otherwise hp falls, floored at 0. A surviving drone starts a
        manoeuvre when the draw falls below 0.4; a drone at 0 hp dies. */
    method TakeDamage(damage: int, draw: real) returns (r: DroneDamage)
      requires Valid()
      modifies this
      ensures Valid()
      ensures !old(isAlive) ==> r == AlreadyDead && hp == old(hp) && !isAlive
                                && memory == old(memory) && evasiveActive == old(evasiveActive) && evasiveTimer == old(evasiveTimer)
      ensures old(isAlive) ==>
                hp == (if old(hp) - damage > 0 then old(hp) - damage else 0)
                && r == Damaged(droneId, hp, maxHp, damage, hp == 0)
                && (isAlive <==> hp > 0)
      ensures old(isAlive) && hp > 0 && draw < 0.4 ==>
                evasiveActive && memory == old(memory).(avoidedDamage := old(memory.avoidedDamage) + 1)
                && (!old(evasiveActive) ==> evasiveTimer == EvasiveDuration)
                && (old(evasiveActive) ==> evasiveTimer == old(evasiveTimer))
      ensures old(isAlive) && (hp == 0 || draw >= 0.4) ==>
                memory == old(memory) && evasiveActive == old(evasiveActive) && evasiveTimer == old(evasiveTimer)
      ensures behaviorMode == old(behaviorMode) && lastBehaviorChange == old(lastBehaviorChange)
      ensures lastMissileTime == old(lastMissileTime) && missilesFired == old(missilesFired)
      ensures position == old(position) && velocity == old(velocity)
    {
      if !isAlive {
        return AlreadyDead;
      }
      hp := if hp - damage > 0 then hp - damage else 0;
      if hp > 0 && draw < 0.4 {
        ActivateEvasiveManeuver();
        memory := memory.(avoidedDamage := memory.avoidedDamage + 1);
      }
      var died := false;
      if hp <= 0 {
        isAlive := false;
        died := true;
      }
      r := Damaged(droneId, hp, maxHp, damage, died);
    }

    /** respawn: full health, alive, aggressive, no manoeuvre, at rest; at the
        given spawn point, or else at `randomPoint` (the source's uniform
        draw over x, z in [-80, 80] and y in [10, 30]). */
    method Respawn(spawnPoint: Option<Vec3>, randomPoint: Vec3)
      requires Valid()
      modifies this
      ensures Valid()
      ensures hp == maxHp && isAlive && behaviorMode == Aggressive && !evasiveActive && velocity == Origin
      ensures position == spawnPoint.GetOr(randomPoint)
      ensures evasiveTimer == old(evasiveTimer) && lastBehaviorChange == old(lastBehaviorChange) && memory == old(memory)
      ensures lastMissileTime == old(lastMissileTime) && missilesFired == old(missilesFired)
    {
      hp := maxHp;
      isAlive := true;
      behaviorMode := Aggressive;
      evasiveActive := false;
      position := spawnPoint.GetOr(randomPoint);
      velocity := Origin;
    }
  }
}
