/** Player progression of the arena (backend/player.py): rating tiers,
    experience and level-ups, upgrade tracks, and the `Player` object whose
    fields the game server updates in place. */
module Players {
  import opened Base

  // ---------------------------------------------------------------------
  // Tiers
  // ---------------------------------------------------------------------

  /** One entry of the TIERS table (display names and colours are left out). */
  datatype Tier = Tier(name: string, minRating: int, maxRating: int)

  const Tiers: seq<Tier> := [
    Tier("Bronze", 0, 999),
    Tier("Silver", 1000, 1499),
    Tier("Gold", 1500, 1999),
    Tier("Platinum", 2000, 2499),
    Tier("Diamond", 2500, 2999),
    Tier("Master", 3000, 3499),
    Tier("Legend", 3500, 999999)
  ]

  /** The highest rating any band covers. */
  const TopRating := 999999

  predicate InBand(t: Tier, rating: int) {
    t.minRating <= rating <= t.maxRating
  }

  /** The index of the first band, from index `i` on, that contains `rating`. */
  function FirstBandFrom(i: nat, rating: int): (r: Option<nat>)
    requires i <= |Tiers|
    ensures r.Some? ==> i <= r.value < |Tiers| && InBand(Tiers[r.value], rating)
    ensures r.Some? ==> forall j :: i <= j < r.value ==> !InBand(Tiers[j], rating)
    ensures r.None? ==> forall j :: i <= j < |Tiers| ==> !InBand(Tiers[j], rating)
    decreases |Tiers| - i
  {
    if i == |Tiers| then None
    else if InBand(Tiers[i], rating) then Some(i)
    else FirstBandFrom(i + 1, rating)
  }

  /** get_tier: the first band containing the rating, Bronze when none does. */
  function TierIndex(rating: int): (k: nat)
    ensures k < |Tiers|
  {
    match FirstBandFrom(0, rating)
    case Some(k) => k
    case None => 0
  }

  function TierFor(rating: int): Tier {
    Tiers[TierIndex(rating)]
  }

  /** The bands start at 0, end at 999999, and each one begins right after
      the previous one ends. */
  lemma TiersContiguous()
    ensures Tiers[0].minRating == 0 && Tiers[|Tiers| - 1].maxRating == TopRating
    ensures forall i :: 0 <= i < |Tiers| ==> Tiers[i].minRating <= Tiers[i].maxRating
    ensures forall i :: 0 <= i < |Tiers| - 1 ==> Tiers[i].maxRating + 1 == Tiers[i + 1].minRating
  {
  }

  /** No two bands share a name, so comparing names compares bands. */
  lemma TierNamesDistinct()
    ensures forall i, j :: 0 <= i < j < |Tiers| ==> Tiers[i].name != Tiers[j].name
  {
  }

  /** The band index of a covered rating: the band whose range contains it. */
  function BandOf(rating: int): (k: nat)
    requires 0 <= rating <= TopRating
    ensures k < |Tiers| && InBand(Tiers[k], rating)
  {
    if rating < 1000 then 0
    else if rating < 1500 then 1
    else if rating < 2000 then 2
    else if rating < 2500 then 3
    else if rating < 3000 then 4
    else if rating < 3500 then 5
    else 6
  }

  /** Bands never overlap: a rating lies in at most one band. */
  lemma BandsDisjoint(rating: int, i: nat, j: nat)
    requires i < |Tiers| && j < |Tiers|
    requires InBand(Tiers[i], rating) && InBand(Tiers[j], rating)
    ensures i == j
  {
  }

  /** Every rating from 0 to 999999 gets the band that contains it, and that
      band is the only one containing it. */
  lemma TierCoversRange(rating: int)
    requires 0 <= rating <= TopRating
    ensures InBand(TierFor(rating), rating)
    ensures TierIndex(rating) == BandOf(rating)
    ensures forall t :: t in Tiers && InBand(t, rating) ==> t == TierFor(rating)
  {
    var k := BandOf(rating);
    var r := FirstBandFrom(0, rating);
    assert r.Some? by {
      if r.None? {
        assert false;
      }
    }
    BandsDisjoint(rating, r.value, k);
    forall t | t in Tiers && InBand(t, rating)
      ensures t == TierFor(rating)
    {
      var j :| 0 <= j < |Tiers| && Tiers[j] == t;
      BandsDisjoint(rating, j, k);
    }
  }

  /** A rating outside 0..999999 falls back to Bronze. */
  lemma TierFallback(rating: int)
    requires rating < 0 || rating > TopRating
    ensures TierFor(rating) == Tiers[0] && TierFor(rating).name == "Bronze"
  {
    var r := FirstBandFrom(0, rating);
    if r.Some? {
      assert false;
    }
  }

  /** Within 0..999999 a higher rating never lands in a lower band. */
  lemma TierMonotone(r1: int, r2: int)
    requires 0 <= r1 <= r2 <= TopRating
    ensures TierIndex(r1) <= TierIndex(r2)
    ensures TierFor(r1).minRating <= TierFor(r2).minRating
  {
    TierCoversRange(r1);
    TierCoversRange(r2);
  }

  /** The report of add_rating. */
  datatype TierChange = TierChange(tierChanged: bool, promoted: bool, oldTier: Tier, newTier: Tier, rating: int)

  /** The report add_rating builds for a move from `oldRating` to `newRating`. */
  function TierChangeOf(oldRating: int, newRating: int): (c: TierChange)
    ensures c.promoted ==> c.tierChanged && c.newTier.minRating > c.oldTier.minRating
  {
    var o, n := TierFor(oldRating), TierFor(newRating);
    var changed := o.name != n.name;
    TierChange(changed, changed && n.minRating > o.minRating, o, n, newRating)
  }

  /** Within 0..999999 the tier changes exactly when the band does, and a move
      is a promotion exactly when it reaches a higher band. */
  lemma TierChangeMeaning(r1: int, r2: int)
    requires 0 <= r1 <= TopRating && 0 <= r2 <= TopRating
    ensures TierChangeOf(r1, r2).tierChanged <==> BandOf(r1) != BandOf(r2)
    ensures TierChangeOf(r1, r2).promoted <==> BandOf(r1) < BandOf(r2)
  {
    TierCoversRange(r1);
    TierCoversRange(r2);
    TierNamesDistinct();
  }

  /** Within 0..999999 a rise that changes the tier is a promotion, and a
      fall is never one. */
  lemma RiseChangesOnlyUpward(r1: int, r2: int)
    requires 0 <= r1 <= TopRating && 0 <= r2 <= TopRating
    ensures r1 <= r2 ==> (TierChangeOf(r1, r2).tierChanged <==> TierChangeOf(r1, r2).promoted)
    ensures r2 <= r1 ==> !TierChangeOf(r1, r2).promoted
  {
    TierChangeMeaning(r1, r2);
    if r1 <= r2 {
      TierMonotone(r1, r2);
    } else {
      TierMonotone(r2, r1);
    }
  }

  /** Past the top of the Legend band the table falls back to Bronze, so a
      rise from 999999 to 1000000 reports a tier change that is not a promotion. */
  lemma LegendOverflow()
    ensures TierChangeOf(TopRating, TopRating + 1).tierChanged
    ensures !TierChangeOf(TopRating, TopRating + 1).promoted
  {
    TierCoversRange(TopRating);
    TierFallback(TopRating + 1);
  }

  // ---------------------------------------------------------------------
  // Experience and levels
  // ---------------------------------------------------------------------

  /** get_experience_to_next_level: 100 per level held, so from level 1 on
      every level costs something and each costs 100 more than the last. */
  function ExpToNext(level: int): (e: int)
    ensures level >= 1 ==> e >= 100
    ensures e + 100 == (level + 1) * 100
  {
    level * 100
  }

  /** Against a cooldown shortened by a fire-rate factor within 0.5..1, a
      gap of the full cooldown always suffices and one under half never does. */
  lemma ShortenedCooldown(cooldown: real, factor: real, gap: real)
    ensures cooldown >= 0.0 && 0.5 <= factor <= 1.0 && gap >= cooldown ==> gap >= cooldown * factor
    ensures cooldown >= 0.0 && 0.5 <= factor <= 1.0 && gap < cooldown * 0.5 ==> gap < cooldown * factor
  {
    if cooldown >= 0.0 && 0.5 <= factor <= 1.0 {
      assert cooldown * (factor - 0.5) >= 0.0;
      assert cooldown * (1.0 - factor) >= 0.0;
    }
  }

  /** The experience it takes to climb from level `a` to level `b`. */
  function ExpBetween(a: int, b: int): (e: int)
    requires a <= b
    ensures a >= 0 ==> e >= 0
    decreases b - a
  {
    if a == b then 0 else ExpToNext(a) + ExpBetween(a + 1, b)
  }

  /** The closed form of the climbing cost: the sum of 100 * l for l from a to b - 1. */
  lemma {:induction false} ExpBetweenClosedForm(a: int, b: int)
    requires a <= b
    ensures ExpBetween(a, b) == 50 * (b - a) * (a + b - 1)
    decreases b - a
  {
    if a < b {
      ExpBetweenClosedForm(a + 1, b);
      assert 50 * (b - a) * (a + b - 1) == 100 * a + 50 * (b - (a + 1)) * ((a + 1) + b - 1);
    }
  }

  /** Level and experience after add_experience's loop. */
  datatype Progress = Progress(level: int, exp: int)

  /** The level-up loop of add_experience, from level `level` holding `exp`
      experience: climb while the experience pays for the next level. */
  function Climb(level: int, exp: int): (r: Progress)
    requires level >= 1
    ensures r.level >= level
    ensures r.exp < ExpToNext(r.level)
    ensures exp >= 0 ==> r.exp >= 0
    ensures exp == r.exp + ExpBetween(level, r.level)
    decreases exp
  {
    if exp >= ExpToNext(level) then Climb(level + 1, exp - ExpToNext(level))
    else Progress(level, exp)
  }

  /** Climb is the only split of the experience into a paid climb and a
      remainder below the next threshold. */
  lemma {:induction false} ClimbUnique(level: int, exp: int, target: int, rest: int)
    requires 1 <= level <= target
    requires 0 <= rest < ExpToNext(target)
    requires exp == rest + ExpBetween(level, target)
    ensures Climb(level, exp) == Progress(target, rest)
    decreases target - level
  {
    if level < target {
      assert ExpBetween(level, target) == ExpToNext(level) + ExpBetween(level + 1, target);
      ClimbUnique(level + 1, exp - ExpToNext(level), target, rest);
    }
  }

  /** The coins granted on reaching `level`: 50 per level, and 500 more on
      every fifth level. */
  function LevelUpCoins(level: int): int {
    level * 50 + (if level % 5 == 0 then 500 else 0)
  }

  /** The messages add_experience appends on reaching `level`. */
  datatype LevelUpNote =
    | ReachedLevel(level: int)
    | CoinReward(coins: int)
    | MilestoneBonus(level: int, coins: int)

  function LevelUpNotes(level: int): seq<LevelUpNote> {
    [ReachedLevel(level), CoinReward(level * 50)]
      + (if level % 5 == 0 then [MilestoneBonus(level, 500)] else [])
  }

  /** The coins of all level-ups from `a` to `b`, reaching levels a+1 .. b. */
  function CoinsBetween(a: int, b: int): (c: int)
    requires 1 <= a <= b
    ensures c >= 0
    decreases b - a
  {
    if a == b then 0 else CoinsBetween(a, b - 1) + LevelUpCoins(b)
  }

  /** The messages of all level-ups from `a` to `b`, in order. */
  function NotesBetween(a: int, b: int): seq<LevelUpNote>
    requires a <= b
    decreases b - a
  {
    if a == b then [] else NotesBetween(a, b - 1) + LevelUpNotes(b)
  }

  /** The number of fifth levels among a+1 .. b. */
  function MilestonesBetween(a: int, b: int): (n: int)
    requires a <= b
    decreases b - a
  {
    if a == b then 0 else MilestonesBetween(a, b - 1) + (if b % 5 == 0 then 1 else 0)
  }

  /** Two messages per level-up, and one more per fifth level. */
  lemma {:induction false} NotesCount(a: int, b: int)
    requires a <= b
    ensures |NotesBetween(a, b)| == 2 * (b - a) + MilestonesBetween(a, b)
    ensures MilestonesBetween(a, b) <= b - a
    decreases b - a
  {
    if a < b {
      NotesCount(a, b - 1);
    }
  }

  /** The coins of a climb: 50 per level reached, plus 500 per fifth level. */
  lemma {:induction false} CoinsCount(a: int, b: int)
    requires 1 <= a <= b
    ensures CoinsBetween(a, b) == 25 * (b * (b + 1) - a * (a + 1)) + 500 * MilestonesBetween(a, b)
    decreases b - a
  {
    if a < b {
      CoinsCount(a, b - 1);
      assert b * (b + 1) == (b - 1) * b + 2 * b;
    }
  }

  /** The level-up loop of add_experience on plain values: from `level`
      holding `exp` experience and `coins` coins, level up while the
      experience pays for the next level, collecting the coins and the
      messages of every level reached. */
  method ClimbLevels(level: int, exp: int, coins: int) returns (lv: int, xp: int, purse: int, notes: seq<LevelUpNote>)
    requires level >= 1
    ensures Progress(lv, xp) == Climb(level, exp)
    ensures purse == coins + CoinsBetween(level, lv)
    ensures notes == NotesBetween(level, lv)
  {
    lv, xp, purse := level, exp, coins;
    notes := [];
    while xp >= ExpToNext(lv)
      invariant level <= lv
      invariant Climb(lv, xp) == Climb(level, exp)
      invariant purse == coins + CoinsBetween(level, lv)
      invariant notes == NotesBetween(level, lv)
      decreases xp
    {
      xp := xp - ExpToNext(lv);
      lv := lv + 1;
      var coinReward := lv * 50;
      purse := purse + coinReward;
      notes := notes + [ReachedLevel(lv), CoinReward(coinReward)];
      if lv % 5 == 0 {
        purse := purse + 500;
        notes := notes + [MilestoneBonus(lv, 500)];
      }
    }
  }

  // ---------------------------------------------------------------------
  // Upgrades
  // ---------------------------------------------------------------------

  const MaxUpgradeLevel := 10

  /** The four tracks the game offers; attribute `<track>_level`. */
  const Tracks: set<string> := {"speed", "armor", "damage", "fire_rate"}

  /** The cost of the next upgrade of a track at level `level`. */
  function CostAt(level: int): int {
    100 + level * 50
  }

  /** PlayerUpgrades. Each track's level is the attribute `<track>_level`;
      reading one that was never set yields 0 and upgrading any name sets it,
      so the levels are a map from track names. */
  class PlayerUpgrades {
    var levels: map<string, int>

    predicate Valid()
      reads this
    {
      (forall t :: t in Tracks ==> t in levels)
      && (forall t :: t in levels ==> 0 <= levels[t] <= MaxUpgradeLevel)
    }

    constructor ()
      ensures Valid()
      ensures levels == map["speed" := 0, "armor" := 0, "damage" := 0, "fire_rate" := 0]
    {
      levels := map["speed" := 0, "armor" := 0, "damage" := 0, "fire_rate" := 0];
    }

    /** getattr(self, f"{track}_level", 0). */
    function TrackLevel(track: string): (l: int)
      reads this
      ensures Valid() ==> 0 <= l <= MaxUpgradeLevel
      ensures track !in levels ==> l == 0
    {
      if track in levels then levels[track] else 0
    }

    /** get_speed_bonus: 5% faster per level. */
    function SpeedBonus(): (b: real)
      reads this
      ensures Valid() ==> 1.0 <= b <= 1.5
    {
      1.0 + TrackLevel("speed") as real * 0.05
    }

    /** get_max_hp_bonus: 10 hit points per armour level. */
    function MaxHpBonus(): (b: int)
      reads this
      ensures Valid() ==> 100 <= b <= 200
    {
      100 + TrackLevel("armor") * 10
    }

    /** get_damage_bonus: 5 damage per level. */
    function DamageBonus(): (b: int)
      reads this
      ensures Valid() ==> 20 <= b <= 70
    {
      20 + TrackLevel("damage") * 5
    }

    /** get_fire_rate_bonus: the cooldown factor, 5% shorter per level. */
    function FireRateBonus(): (b: real)
      reads this
      ensures Valid() ==> 0.5 <= b <= 1.0
    {
      1.0 - TrackLevel("fire_rate") as real * 0.05
    }

    /** can_upgrade: the track is below level 10. A track never upgraded
        (getattr's default 0) can always be upgraded, and an allowed upgrade
        costs at most 550. */
    predicate CanUpgrade(track: string)
      reads this
      ensures track !in levels ==> CanUpgrade(track)
      ensures Valid() ==> (CanUpgrade(track) <==> TrackLevel(track) != MaxUpgradeLevel)
      ensures CanUpgrade(track) && Valid() ==> UpgradeCost(track) <= 550
    {
      TrackLevel(track) < MaxUpgradeLevel
    }

    /** get_upgrade_cost. */
    function UpgradeCost(track: string): (c: int)
      reads this
      ensures Valid() ==> 100 <= c <= 600
      ensures c == CostAt(TrackLevel(track))
    {
      CostAt(TrackLevel(track))
    }

    /** upgrade: raise the track by one when below the maximum, otherwise
        refuse and change nothing. */
    method Upgrade(track: string) returns (ok: bool)
      requires Valid()
      modifies this
      ensures Valid()
      ensures ok <==> old(TrackLevel(track)) < MaxUpgradeLevel
      ensures ok <==> old(CanUpgrade(track))
      ensures ok ==> levels == old(levels)[track := old(TrackLevel(track)) + 1]
      ensures ok ==> UpgradeCost(track) == old(UpgradeCost(track)) + 50
      ensures !ok ==> levels == old(levels)
    {
      if CanUpgrade(track) {
        var current := TrackLevel(track);
        levels := levels[track := current + 1];
        ok := true;
      } else {
        ok := false;
      }
    }
  }

  /** The upgrade cost never falls as the level rises. */
  lemma CostMonotone(l1: int, l2: int)
    requires l1 <= l2
    ensures CostAt(l1) <= CostAt(l2)
    ensures CostAt(l1 + 1) == CostAt(l1) + 50
  {
  }

  // ---------------------------------------------------------------------
  // The player
  // ---------------------------------------------------------------------

  /** PlayerStats (the rounded display ratios are left out). */
  datatype PlayerStats = PlayerStats(
    kills: int,
    deaths: int,
    gamesPlayed: int,
    wins: int,
    totalDamageDealt: int,
    totalDamageTaken: int,
    missilesFired: int,
    missilesHit: int)

  const NoStats := PlayerStats(0, 0, 0, 0, 0, 0, 0, 0)

  /** Where a player (re)spawns. */
  const HomePosition := Vec3(0.0, 10.0, 30.0)

  /** The result of take_damage; `died` is set only on the alive-to-dead step. */
  datatype DamageResult = DamageResult(hp: int, isAlive: bool, damageTaken: int, died: bool)

  /** The result of record_kill. */
  datatype KillRecord = KillRecord(
    kills: int,
    sessionKills: int,
    scoreReward: int,
    expReward: int,
    coinReward: int,
    levelUpRewards: seq<LevelUpNote>)

  /** The result of end_game_session (the rounded display ratios are left out). */
  datatype SessionResult = SessionResult(
    sessionScore: int,
    sessionKills: int,
    ratingChange: int,
    tierResult: TierChange,
    coinsEarned: int,
    totalCoins: int)

  /** The rating change at the end of a session: +25 for a win, -15 for a
      loss, and 10 more with five kills or more. */
  function SessionRatingChange(won: bool, sessionKills: int): (c: int)
    ensures -15 <= c <= 35
    ensures sessionKills >= 5 ==> c == (if won then 35 else -5)
    ensures sessionKills < 5 ==> c == (if won then 25 else -15)
  {
    (if won then 25 else -15) + (if sessionKills >= 5 then 10 else 0)
  }

  class Player {
    const playerId: string
    const username: string
    var level: int
    var experience: int
    var rating: int
    var coins: int
    var hp: int
    var maxHp: int
    var isAlive: bool
    var position: Vec3
    var velocity: Vec3
    var lastMissileTime: real
    var missileCooldown: real
    var stats: PlayerStats
    const upgrades: PlayerUpgrades
    var sessionKills: int
    var sessionScore: int

    /** What every operation keeps: a level of at least 1, no negative
        rating, coins or session counters, and no living player at 0 hp.
        The upgrade levels keep their own invariant, `upgrades.Valid()`,
        which no method of the player touches. */
    predicate Valid()
      reads this
    {
      level >= 1 && rating >= 0 && coins >= 0
      && sessionKills >= 0 && sessionScore >= 0
      && hp >= 0 && maxHp > 0 && (hp == 0 ==> !isAlive)
    }

    /** A new player; `username or player_id` also replaces an empty name. */
    constructor (id: string, name: Option<string>)
      ensures Valid()
      ensures playerId == id && username == (if name.Some? && name.value != "" then name.value else id)
      ensures level == 1 && experience == 0 && rating == 1000 && coins == 0
      ensures hp == 100 && maxHp == 100 && isAlive
      ensures position == HomePosition && velocity == Origin
      ensures lastMissileTime == 0.0 && missileCooldown == 1.0
      ensures stats == NoStats && sessionKills == 0 && sessionScore == 0
      ensures fresh(upgrades) && upgrades.Valid() && upgrades.levels == map["speed" := 0, "armor" := 0, "damage" := 0, "fire_rate" := 0]
    {
      playerId := id;
      username := if name.Some? && name.value != "" then name.value else id;
      level, experience, rating, coins := 1, 0, 1000, 0;
      hp, maxHp, isAlive := 100, 100, true;
      position, velocity := HomePosition, Origin;
      lastMissileTime, missileCooldown := 0.0, 1.0;
      stats := NoStats;
      upgrades := new PlayerUpgrades();
      sessionKills, sessionScore := 0, 0;
    }

    /** get_tier: scan the table for the first band containing the rating. */
    method GetTier() returns (t: Tier)
      ensures t == TierFor(rating)
    {
      var i := 0;
      while i < |Tiers|
        invariant 0 <= i <= |Tiers|
        invariant FirstBandFrom(i, rating) == FirstBandFrom(0, rating)
      {
        if Tiers[i].minRating <= rating <= Tiers[i].maxRating {
          return Tiers[i];
        }
        i := i + 1;
      }
      return Tiers[0];
    }

    /** add_rating: move the rating, floored at 0, and report the tier change. */
    method AddRating(amount: int) returns (c: TierChange)
      requires Valid()
      modifies this
      ensures Valid()
      ensures rating == (if old(rating) + amount > 0 then old(rating) + amount else 0)
      ensures c == TierChangeOf(old(rating), rating)
      ensures level == old(level) && experience == old(experience) && coins == old(coins)
      ensures hp == old(hp) && maxHp == old(maxHp) && isAlive == old(isAlive)
      ensures position == old(position) && velocity == old(velocity)
      ensures lastMissileTime == old(lastMissileTime) && missileCooldown == old(missileCooldown)
      ensures stats == old(stats) && sessionKills == old(sessionKills) && sessionScore == old(sessionScore)
    {
      var oldTier := GetTier();
      rating := if rating + amount > 0 then rating + amount else 0;
      var newTier := GetTier();
      var changed := oldTier.name != newTier.name;
      c := TierChange(changed, changed && newTier.minRating > oldTier.minRating, oldTier, newTier, rating);
    }

    /** add_experience: add the amount, then level up while the experience
        pays for the next level, granting the level-up coins and messages. */
    method AddExperience(amount: int) returns (notes: seq<LevelUpNote>)
      requires Valid()
      modifies this
      ensures Valid()
      ensures Progress(level, experience) == Climb(old(level), old(experience) + amount)
      ensures coins == old(coins) + CoinsBetween(old(level), level)
      ensures notes == NotesBetween(old(level), level)
      ensures rating == old(rating)
      ensures hp == old(hp) && maxHp == old(maxHp) && isAlive == old(isAlive)
      ensures position == old(position) && velocity == old(velocity)
      ensures lastMissileTime == old(lastMissileTime) && missileCooldown == old(missileCooldown)
      ensures stats == old(stats) && sessionKills == old(sessionKills) && sessionScore == old(sessionScore)
    {
      var lv, xp, purse;
      lv, xp, purse, notes := ClimbLevels(level, experience + amount, coins);
      level, experience, coins := lv, xp, purse;
    }

    /** take_damage: hp falls by the damage, floored at 0; the player dies,
        and a death is counted, only on the step from alive to 0 hp. */
    method TakeDamage(damage: int) returns (r: DamageResult)
      requires Valid()
      modifies this
      ensures Valid()
      ensures hp == (if old(hp) - damage > 0 then old(hp) - damage else 0)
      ensures r.died <==> old(isAlive) && hp == 0
      ensures isAlive == (old(isAlive) && hp > 0)
      ensures stats == old(stats).(totalDamageTaken := old(stats.totalDamageTaken) + damage,
                                  deaths := old(stats.deaths) + (if r.died then 1 else 0))
      ensures r.hp == hp && r.isAlive == (hp > 0) && r.damageTaken == damage
      ensures level == old(level) && experience == old(experience) && rating == old(rating) && coins == old(coins)
      ensures maxHp == old(maxHp) && position == old(position) && velocity == old(velocity)
      ensures lastMissileTime == old(lastMissileTime) && missileCooldown == old(missileCooldown)
      ensures sessionKills == old(sessionKills) && sessionScore == old(sessionScore)
    {
      hp := if hp - damage > 0 then hp - damage else 0;
      stats := stats.(totalDamageTaken := stats.totalDamageTaken + damage);
      var died := false;
      if hp <= 0 && isAlive {
        isAlive := false;
        stats := stats.(deaths := stats.deaths + 1);
        died := true;
      }
      r := DamageResult(hp, hp > 0, damage, died);
    }

    /** deal_damage: only the damage-dealt statistic changes. */
    method DealDamage(damage: int)
      modifies this
      ensures stats == old(stats).(totalDamageDealt := old(stats.totalDamageDealt) + damage)
      ensures level == old(level) && experience == old(experience) && rating == old(rating) && coins == old(coins)
      ensures hp == old(hp) && maxHp == old(maxHp) && isAlive == old(isAlive)
      ensures position == old(position) && velocity == old(velocity)
      ensures lastMissileTime == old(lastMissileTime) && missileCooldown == old(missileCooldown)
      ensures sessionKills == old(sessionKills) && sessionScore == old(sessionScore)
    {
      stats := stats.(totalDamageDealt := stats.totalDamageDealt + damage);
    }

    /** record_kill: one kill, 100 session score and 10 coins, then exactly
        add_experience(50). */
    method RecordKill() returns (r: KillRecord)
      requires Valid()
      modifies this
      ensures Valid()
      ensures stats == old(stats).(kills := old(stats.kills) + 1)
      ensures sessionKills == old(sessionKills) + 1 && sessionScore == old(sessionScore) + 100
      ensures Progress(level, experience) == Climb(old(level), old(experience) + 50)
      ensures coins == old(coins) + 10 + CoinsBetween(old(level), level)
      ensures r == KillRecord(stats.kills, sessionKills, 100, 50, 10, NotesBetween(old(level), level))
      ensures rating == old(rating) && hp == old(hp) && maxHp == old(maxHp) && isAlive == old(isAlive)
      ensures position == old(position) && velocity == old(velocity)
      ensures lastMissileTime == old(lastMissileTime) && missileCooldown == old(missileCooldown)
    {
      stats := stats.(kills := stats.kills + 1);
      sessionKills := sessionKills + 1;
      sessionScore := sessionScore + 100;
      coins := coins + 10;
      var notes := AddExperience(50);
      r := KillRecord(stats.kills, sessionKills, 100, 50, 10, notes);
    }

    /** respawn: full health, alive, back at the home position and at rest. */
    method Respawn()
      requires Valid()
      modifies this
      ensures Valid()
      ensures hp == maxHp && isAlive && position == HomePosition && velocity == Origin
      ensures level == old(level) && experience == old(experience) && rating == old(rating) && coins == old(coins)
      ensures maxHp == old(maxHp) && stats == old(stats)
      ensures lastMissileTime == old(lastMissileTime) && missileCooldown == old(missileCooldown)
      ensures sessionKills == old(sessionKills) && sessionScore == old(sessionScore)
    {
      hp := maxHp;
      isAlive := true;
      position := HomePosition;
      velocity := Origin;
    }

    /** can_fire_missile: the cooldown, shortened by the fire-rate upgrade,
        has passed since the last shot. */
    predicate CanFireMissile(now: real)
      reads this, upgrades
      ensures upgrades.Valid() && missileCooldown >= 0.0 && now - lastMissileTime >= missileCooldown ==> CanFireMissile(now)
      ensures upgrades.Valid() && missileCooldown >= 0.0 && now - lastMissileTime < missileCooldown * 0.5 ==> !CanFireMissile(now)
    {
      ShortenedCooldown(missileCooldown, upgrades.FireRateBonus(), now - lastMissileTime);
      now - lastMissileTime >= missileCooldown * upgrades.FireRateBonus()
    }

    /** fire_missile: on success record the shot time and count the shot;
        otherwise change nothing. */
    method FireMissile(now: real) returns (ok: bool)
      modifies this
      ensures ok <==> old(CanFireMissile(now))
      ensures ok ==> lastMissileTime == now && stats == old(stats).(missilesFired := old(stats.missilesFired) + 1)
      ensures !ok ==> lastMissileTime == old(lastMissileTime) && stats == old(stats)
      ensures level == old(level) && experience == old(experience) && rating == old(rating) && coins == old(coins)
      ensures hp == old(hp) && maxHp == old(maxHp) && isAlive == old(isAlive)
      ensures position == old(position) && velocity == old(velocity) && missileCooldown == old(missileCooldown)
      ensures sessionKills == old(sessionKills) && sessionScore == old(sessionScore)
    {
      if CanFireMissile(now) {
        lastMissileTime := now;
        stats := stats.(missilesFired := stats.missilesFired + 1);
        ok := true;
      } else {
        ok := false;
      }
    }

    /** record_missile_hit: only the hit counter moves; no coins, no experience. */
    method RecordMissileHit()
      modifies this
      ensures stats == old(stats).(missilesHit := old(stats.missilesHit) + 1)
      ensures level == old(level) && experience == old(experience) && rating == old(rating) && coins == old(coins)
      ensures hp == old(hp) && maxHp == old(maxHp) && isAlive == old(isAlive)
      ensures position == old(position) && velocity == old(velocity)
      ensures lastMissileTime == old(lastMissileTime) && missileCooldown == old(missileCooldown)
      ensures sessionKills == old(sessionKills) && sessionScore == old(sessionScore)
    {
      stats := stats.(missilesHit := stats.missilesHit + 1);
    }

    /** end_game_session: count the game, apply the session's rating change,
        pay one coin per 10 session score, and reset the session. */
    method EndGameSession(won: bool) returns (r: SessionResult)
      requires Valid()
      modifies this
      ensures Valid()
      ensures stats == old(stats).(gamesPlayed := old(stats.gamesPlayed) + 1,
                                  wins := old(stats.wins) + (if won then 1 else 0))
      ensures r.ratingChange == SessionRatingChange(won, old(sessionKills))
      ensures rating == (if old(rating) + r.ratingChange > 0 then old(rating) + r.ratingChange else 0)
      ensures r.tierResult == TierChangeOf(old(rating), rating)
      ensures r.coinsEarned == old(sessionScore) / 10 && coins == old(coins) + r.coinsEarned
      ensures r.totalCoins == coins
      ensures r.sessionScore == old(sessionScore) && r.sessionKills == old(sessionKills)
      ensures sessionKills == 0 && sessionScore == 0
      ensures level == old(level) && experience == old(experience)
      ensures hp == old(hp) && maxHp == old(maxHp) && isAlive == old(isAlive)
      ensures position == old(position) && velocity == old(velocity)
      ensures lastMissileTime == old(lastMissileTime) && missileCooldown == old(missileCooldown)
    {
      var played := stats.(gamesPlayed := stats.gamesPlayed + 1);
      if won {
        played := played.(wins := played.wins + 1);
      }
      var ratingChange := if won then 25 else -15;
      if sessionKills >= 5 {
        ratingChange := ratingChange + 10;
      }
      // add_rating touches only the rating, so the session is settled first
      // and the rating step comes last.
      var score, kills := sessionScore, sessionKills;
      var finalCoins := score / 10;
      var total := coins + finalCoins;
      stats, coins, sessionKills, sessionScore := played, total, 0, 0;
      var tierResult := AddRating(ratingChange);
      r := SessionResult(score, kills, ratingChange, tierResult, finalCoins, total);
    }
  }
}
