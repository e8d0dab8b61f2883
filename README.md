# Steampunk 3D Drone AI Showdown — a verified model of the game core

This project models the rules of the drone-combat game server in Dafny. The
server keeps these rules in four backend files:

- `game_mechanics.py` holds the projectile table: missiles fly, expire and
  hit players. It also holds the kill and match rewards, the Elo rating
  arithmetic and the `GameMechanics` registry that runs a frame.
- `player.py` holds the player: rating tiers, experience and level-ups,
  upgrade tracks, damage, firing cooldown and end-of-session settlement.
- `ai_drone_advanced.py` holds the opponent drone: the difficulty table,
  level scaling, behaviour choice, the evasive manoeuvre, the firing
  decision, damage and respawn.
- `main.py` holds the websocket server's own rules: difficulty and opponent
  count by level, the opponent id scheme `ai_<client>_<index>` and its
  inverse, which opponents a tick and a disconnect select, the upgrade
  purchase and spawn-point selection.

The Dafny modules follow those files.

- `Base` holds shared vocabulary: optional values, vectors with exact real
  components, Python's `int()` as `Trunc`, and ordered-key filters.
- `Combat` models `Missile` and `CombatSystem`.
- `Rewards` models `RewardSystem` and `EloRatingSystem`.
- `Mechanics` models `GameMechanics`.
- `Players` models `player.py`.
- `Drones` models `ai_drone_advanced.py`.
- `Server` models `main.py`.

Objects whose fields the source updates in place are classes with
`modifies` frames: `CombatSystem`, `GameMechanics`, `PlayerUpgrades`,
`Player` and `AIDrone`. Everything else is datatypes, functions and lemmas.

A Python dictionary iterates in insertion order, so each dictionary the
source iterates is a `map` paired with a `seq` of its keys. Floats are exact
reals. Distances are compared on their squares, so no square root is taken.
The clock, random draws and `hash()` become parameters.

## Model

| member | source | states |
|---|---|---|
| Base.DistanceTestsMeaning | backend/game_mechanics.py:124-141 | the squared-distance tests agree with comparing the true distance: within reach is `<=`, closer than is `<` |
| Combat.Update | backend/game_mechanics.py:26-43 | a missile moves by velocity times delta time and nothing else about it changes; past its lifetime it dies |
| Combat.UpdateSurvival | backend/game_mechanics.py:26-43 | a missile survives an update exactly when it is within its lifetime and speed times elapsed time is within its range |
| Combat.TravelExceedsMeaning | backend/game_mechanics.py:38-41 | the square-root-free range test is equivalent to `speed * elapsed > max_distance` for the true speed |
| Combat.TravelExceeds | backend/game_mechanics.py:38-41 | a missile at rest, or checked at its launch time, never exceeds a non-negative range; any missile exceeds a negative one |
| Combat.InRange | backend/game_mechanics.py:124-141 | a target without a radius is reached exactly within distance 4, the hit radius plus the default radius 2 |
| Combat.StraightFlightOneSecond | backend/game_mechanics.py:26-43 | a missile flying at speed 2 along x is at (2,0,0) and alive one second after launch |
| Combat.LaunchSpeed | backend/game_mechanics.py:88-94 | a missile launched along a non-zero direction has squared speed `speed * speed`; one launched along the zero vector does not move |
| Combat.FirstHit | backend/game_mechanics.py:159-174 | the index returned is the first target in iteration order that is not the owner and is in reach; none means no target qualifies |
| Combat.FindTarget | backend/game_mechanics.py:159-174 | the inner scan with `continue` and `break` finds exactly `FirstHit` |
| Combat.CollideOne | backend/game_mechanics.py:159-173 | one missile's turn reports its collision with the first non-owner target in reach, and reports nothing exactly when no target qualifies |
| Combat.ScanCollisions | backend/game_mechanics.py:155-173 | the scan returns exactly the collisions of the missiles in iteration order, and the ids to delete are the missiles that hit, in the same order |
| Combat.CollisionsWellFormed | backend/game_mechanics.py:143-181 | every reported collision names a missile that hit, its first non-owner target in reach, the owner as attacker, and the missile's damage and position |
| Combat.CollisionsFollowHits | backend/game_mechanics.py:143-181 | the collisions name exactly the missiles that hit, once each, in iteration order |
| Combat.AtMostOneHitPerMissile | backend/game_mechanics.py:158-174 | no missile is reported twice in one scan |
| Combat.HitMissileNeverReportedAgain | backend/game_mechanics.py:176-179 | once the hit missiles are deleted, no later scan reports one of them |
| Combat.PastLifetimeRemoved | backend/game_mechanics.py:110-122 | a missile past its lifetime is removed by the next update |
| Combat.SweepComplete | backend/game_mechanics.py:110-122 | the deletion loop over a key snapshot removes, in order, exactly the expired missiles and keeps the survivors, moved |
| Combat.CombatSystem.constructor | backend/game_mechanics.py:59-61 | a new system holds no missiles |
| Combat.CombatSystem.CreateMissile | backend/game_mechanics.py:63-108 | the new missile has the normalised direction scaled by speed, range 100 and creation time `now`; it is stored under its id, and a new id joins the end of the iteration order |
| Combat.CombatSystem.UpdateMissiles | backend/game_mechanics.py:110-122 | returns the expired ids in iteration order; the table becomes the moved survivors and the order loses exactly the expired ids |
| Combat.CombatSystem.CheckAllCollisions | backend/game_mechanics.py:143-181 | returns the collisions of the scan; afterwards the table and the order have lost exactly the missiles that hit |
| Combat.CombatSystem.DeleteAll | backend/game_mechanics.py:176-179 | deleting each listed id that is still present removes exactly the listed ids |
| Combat.CombatSystem.AllMissiles | backend/game_mechanics.py:183-185 | lists every live missile and nothing else, one entry per key, in the dictionary's iteration order |
| Combat.CombatSystem.ClearMissiles | backend/game_mechanics.py:187-189 | the table becomes empty |
| Rewards.LevelMultiplier | backend/game_mechanics.py:220-227 | the level factor is never below one half |
| Rewards.CalculateKillReward | backend/game_mechanics.py:205-240 | the multiplier is the level factor times the streak factor; with a streak of zero or more the reward is at least half the base kill reward |
| Rewards.LevelMultiplierAboveOne | backend/game_mechanics.py:220-227 | the factor is above 1 exactly when the victim outlevels the killer, and is 1 exactly at equal levels |
| Rewards.LevelMultiplierMonotone | backend/game_mechanics.py:220-227 | a larger level gap never lowers the factor |
| Rewards.StreakBonusAtLeastOne | backend/game_mechanics.py:230 | a streak of zero or more never scales a kill down |
| Rewards.StreakBonus | backend/game_mechanics.py:230 | no streak leaves the kill unscaled, and each further kill of the streak adds 0.2 |
| Rewards.EqualLevelKillIsBase | backend/game_mechanics.py:205-240 | equal levels and no streak pay exactly 100 score, 50 experience and 10 coins at multiplier 1 |
| Rewards.CalculateMatchReward | backend/game_mechanics.py:243-304 | the no-death bonus applies exactly when there are no deaths and at least one kill; the minutes are the whole minutes of the duration; score, experience and coins are each the sum of the win, kill, minute and bonus parts, and the coins add one per full 100 damage; the breakdown echoes the inputs with the damage truncated |
| Rewards.WinAddsWinReward | backend/game_mechanics.py:264-269 | winning adds exactly 500 score, 200 experience and 50 coins, and changes only the `win` entry of the breakdown |
| Rewards.OneMoreKill | backend/game_mechanics.py:271-291 | one more kill adds 100 score, 50 experience and 10 coins, plus the no-death bonus (200, 100, 20) when it is the first kill without deaths |
| Rewards.DamageCoins | backend/game_mechanics.py:283-285 | for any match, the coins beyond the win, kill, minute and bonus parts are one per full 100 damage |
| Rewards.EffectiveK | backend/game_mechanics.py:346 | an absent or zero K factor falls back to 32, and any other K is used as given |
| Rewards.ExpectedScore | backend/game_mechanics.py:325 | the expected score lies strictly between 0 and 1 |
| Rewards.ExpectedScoresSumToOne | backend/game_mechanics.py:325 | the two players' expected scores add up to 1 |
| Rewards.EqualRatingsExpectHalf | backend/game_mechanics.py:325 | equal ratings expect one half |
| Rewards.NewRating | backend/game_mechanics.py:346-355 | the new rating is the old rating plus the change, floored at 0 |
| Rewards.RatingChangeBounds | backend/game_mechanics.py:346-355 | a win gains between 0 and K-1 points and a loss loses between 0 and K-1 |
| Rewards.GainBetween | backend/game_mechanics.py:351 | for 0 < d < 1, `int(k * d)` lies in 0..K-1 |
| Rewards.LossBetween | backend/game_mechanics.py:351 | for -1 < d < 0, `int(k * d)` lies in -(K-1)..0 |
| Rewards.EvenMatchIsSixteen | backend/game_mechanics.py:346-355 | between equal ratings with the default K, a win is +16 and a loss -16 |
| Rewards.PerformanceBonus | backend/game_mechanics.py:379-388 | kills / max(1, deaths) at 3 or more gives +5, at 2 or more +3, at 1 or more 0, and below 1 gives -3, stated in integer terms |
| Rewards.RatingWithPerformance | backend/game_mechanics.py:357-394 | the final rating is the default-K rating plus the bonus, floored at 0, and the change is measured from the current rating |
| Rewards.PerformanceWithinFive | backend/game_mechanics.py:357-394 | performance moves the rating at most 3 below and 5 above the plain step |
| Players.TiersContiguous | backend/player.py:13-21 | the bands start at 0, end at 999999 and each one starts right after the previous one ends |
| Players.TierNamesDistinct | backend/player.py:13-21 | no two tiers share a name |
| Players.BandsDisjoint | backend/player.py:13-21 | a rating lies in at most one band |
| Players.TierCoversRange | backend/player.py:147-152 | every rating from 0 to 999999 gets the unique band containing it |
| Players.TierFallback | backend/player.py:147-152 | a rating outside every band gets Bronze |
| Players.TierMonotone | backend/player.py:147-152 | within the covered range a higher rating never gets a lower tier |
| Players.TierChangeOf | backend/player.py:193-211 | a promotion is always a tier change to a higher band |
| Players.TierChangeMeaning | backend/player.py:193-211 | within the covered range the tier changes exactly when the band does, and a promotion is exactly a move to a higher band |
| Players.RiseChangesOnlyUpward | backend/player.py:193-211 | a rise that changes tier is a promotion, and a fall never is |
| Players.LegendOverflow | backend/player.py:193-211 | a rise from 999999 to 1000000 falls back to Bronze: a tier change that is not a promotion |
| Players.ExpBetweenClosedForm | backend/player.py:161-163 | climbing from level a to b costs 50(b-a)(a+b-1) experience |
| Players.ExpToNext | backend/player.py:161-163 | from level 1 every level costs at least 100 experience, and each level costs 100 more than the one before |
| Players.Climb | backend/player.py:165-191 | the level-up loop ends at a level no lower than the start, with experience below the next threshold and not negative, and the spent experience is exactly the cost of the climb |
| Players.ClimbUnique | backend/player.py:165-191 | any split into a paid climb and a remainder below the next threshold is the loop's result |
| Players.NotesCount | backend/player.py:174-189 | a climb appends two messages per level reached and one more per fifth level |
| Players.CoinsCount | backend/player.py:174-189 | a climb pays 50 coins per level reached and 500 more per fifth level |
| Players.CostMonotone | backend/player.py:101-105 | the upgrade cost rises by exactly 50 per level |
| Players.SessionRatingChange | backend/player.py:301-304 | a session changes the rating by +25 for a win or -15 for a loss, with 10 more for five kills or more |
| Players.PlayerUpgrades.constructor | backend/player.py:56-61 | all four tracks start at level 0 |
| Players.PlayerUpgrades.TrackLevel | backend/player.py:88-91 | a track's level is within 0..10, and an unknown track reads as 0 |
| Players.PlayerUpgrades.SpeedBonus | backend/player.py:72-74 | the speed factor lies within 1.0..1.5 |
| Players.PlayerUpgrades.MaxHpBonus | backend/player.py:76-78 | the hit-point bonus lies within 100..200 |
| Players.PlayerUpgrades.DamageBonus | backend/player.py:80-82 | the damage lies within 20..70 |
| Players.PlayerUpgrades.FireRateBonus | backend/player.py:84-86 | the cooldown factor lies within 0.5..1.0 |
| Players.PlayerUpgrades.UpgradeCost | backend/player.py:101-105 | the cost is 100 + 50 per level, within 100..600 |
| Players.PlayerUpgrades.Upgrade | backend/player.py:93-99 | succeeds exactly when `can_upgrade` holds, that is when the track is below 10; on success the track rises by one and its cost by 50, and on failure nothing changes |
| Players.PlayerUpgrades.CanUpgrade | backend/player.py:88-91 | a track never upgraded can be upgraded; for valid levels a track can be upgraded exactly when it is not at 10, and then costs at most 550 |
| Players.Player.constructor | backend/player.py:114-145 | a new player is at level 1 with rating 1000, 100 hp, alive and at the home position; an empty or missing name falls back to the id |
| Players.Player.GetTier | backend/player.py:147-152 | the scan returns the first band containing the rating, or Bronze |
| Players.Player.AddRating | backend/player.py:193-211 | the rating moves by the amount, floored at 0, and the report is the tier change between the old and new ratings |
| Players.Player.AddExperience | backend/player.py:165-191 | level and experience become the result of the level-up climb; coins and messages are those of the levels reached; nothing else changes |
| Players.ClimbLevels | backend/player.py:174-190 | the level-up loop ends at the level and experience of the climb, having added the coins of every level reached and their messages |
| Players.Player.TakeDamage | backend/player.py:213-233 | hp falls by the damage, floored at 0; a death is counted only on the step from alive to 0 hp |
| Players.Player.DealDamage | backend/player.py:235-237 | only the damage-dealt statistic grows |
| Players.Player.RecordKill | backend/player.py:239-265 | one kill, 100 session score and 10 coins, then the experience climb of 50 points with its coins and messages |
| Players.Player.Respawn | backend/player.py:267-273 | full health, alive, at the home position and at rest |
| Players.Player.FireMissile | backend/player.py:275-286 | fires exactly when the upgraded cooldown has passed, then records the shot time and counts the shot; otherwise nothing changes |
| Players.Player.CanFireMissile | backend/player.py:275-278 | with valid upgrades the full base cooldown always suffices, and less than half of it never does |
| Players.Player.RecordMissileHit | backend/player.py:288-290 | only the hit counter grows |
| Players.Player.EndGameSession | backend/player.py:292-330 | counts the game and any win, applies the session rating change with its tier report, pays one coin per 10 session score and resets the session |
| Drones.ProfileFor | backend/ai_drone_advanced.py:74-119 | an unknown difficulty gets the normal row; every row's accuracy, aggression and hp multiplier lie within their table ranges |
| Drones.BaseHitPoints | backend/ai_drone_advanced.py:74-119 | easy, normal, hard and extreme drones start with 80, 100, 130 and 160 hp |
| Drones.LevelOneUnscaled | backend/ai_drone_advanced.py:121-132 | at level 1 max hp is the base and damage is 20 |
| Drones.HpScalingMonotone | backend/ai_drone_advanced.py:121-132 | from level 1 up, max hp never falls below its base and never drops as the level rises |
| Drones.ScaledMaxHp | backend/ai_drone_advanced.py:125-127 | from level 1 up, max hp is the whole part of the base times the 8%-per-level scaling and never below the base |
| Drones.ScaledDamage | backend/ai_drone_advanced.py:130-132 | from level 1 up, the damage is the whole part of 20 times the 6%-per-level scaling and never below 20 |
| Drones.DamageScalingMonotone | backend/ai_drone_advanced.py:121-132 | from level 1 up, missile damage never falls below 20 and never drops as the level rises |
| Drones.ChooseModeCases | backend/ai_drone_advanced.py:155-196 | below a quarter of max hp the drone evades; below half it attacks only a player under 30 hp; from half up it attacks a close or weak player, and otherwise attacks exactly when the draw is below its aggression |
| Drones.ChooseMode | backend/ai_drone_advanced.py:155-196 | a defensive choice is only ever made against a player with at least 30 hp, and never at half hp or more against a close player; at half hp or more a draw below the aggression always attacks |
| Drones.FireChanceOrder | backend/ai_drone_advanced.py:315-326 | aggressive drones fire most readily and evasive ones least |
| Drones.FireChance | backend/ai_drone_advanced.py:315-326 | the chance is never above 1.2 times the accuracy, and below 1 for a defensive or evasive drone |
| Drones.AIDrone.constructor | backend/ai_drone_advanced.py:18-68 | a new drone has its difficulty row, level-scaled max hp and damage, full health, and aggressive mode |
| Drones.AIDrone.ActivateEvasiveManeuver | backend/ai_drone_advanced.py:198-209 | starts a 2.5 s manoeuvre unless one is already running, and then leaves its timer alone |
| Drones.AIDrone.DecideBehavior | backend/ai_drone_advanced.py:155-196 | within 3 s of the last change nothing changes; otherwise the mode is the choice, the time is stamped, the encounter is counted, and evading starts the manoeuvre; the behaviour state becomes `Decided` of the old one |
| Drones.Decided | backend/ai_drone_advanced.py:155-196 | within 3 s nothing changes; otherwise the mode is the choice, the time is stamped, the encounter counted, and a manoeuvre runs exactly when one ran or Evasive was chosen, a fresh one with 2.5 s |
| Drones.Countdown | backend/ai_drone_advanced.py:224-227 | an inactive manoeuvre is left alone; a running one loses delta time and stays active exactly while its timer is positive; nothing else changes |
| Drones.LowHpEvades | backend/ai_drone_advanced.py:168-171 | a due behaviour step under a quarter of max hp puts the drone in evasive mode with a manoeuvre running, a fresh one with 2.5 s |
| Drones.ManoeuvreEnds | backend/ai_drone_advanced.py:224-227 | with positive frame times, a manoeuvre has ended once the frames add up to its timer, and the mode is untouched |
| Drones.ManoeuvreTimer | backend/ai_drone_advanced.py:224-227 | while a manoeuvre runs, each frame takes delta time off its timer |
| Drones.AIDrone.UpdatePosition | backend/ai_drone_advanced.py:211-227 | a dead drone changes nothing; for a living drone the behaviour state becomes the countdown applied after the behaviour step, where the step is decide_behavior when the time is truthy and nothing when it is missing or zero |
| Drones.AIDrone.ShouldFireMissile | backend/ai_drone_advanced.py:307-333 | fires exactly when alive, off cooldown, within 35 of the player and the draw is below its mode's fire chance; a shot is recorded |
| Drones.AIDrone.CanFireMissile | backend/ai_drone_advanced.py:391-393 | the drone may fire again exactly from 1.5 s after its last shot on |
| Drones.AIDrone.TakeDamage | backend/ai_drone_advanced.py:364-389 | a dead drone reports already dead and changes nothing; otherwise hp falls, floored at 0; it dies at 0 hp and may evade when it survives |
| Drones.AIDrone.Respawn | backend/ai_drone_advanced.py:395-409 | full health, alive, aggressive, no manoeuvre and at rest, at the given point or else the random one |
| Server.DifficultyForLevel | backend/main.py:35-40 | the difficulty is one of the four names |
| Server.DifficultyMonotone | backend/main.py:35-40 | a higher level never gets an easier difficulty; levels up to 5 are easy and above 20 extreme |
| Server.AiCountForLevel | backend/main.py:42-48 | a client faces 1 to 5 opponents |
| Server.AiCountMonotone | backend/main.py:42-48 | a higher level never gets fewer opponents |
| Server.ParseNatToString | backend/main.py:92 | an opponent index written in decimal reads back as itself |
| Server.OwnerRoundTrip | backend/main.py:541-542 | the owner lookup recovers the client id from every opponent id, even a client id that contains underscores |
| Server.AiIdInjective | backend/main.py:92 | distinct client and index pairs never share an opponent id |
| Server.AiId | backend/main.py:92 | an opponent id is `ai_`, the client id, `_` and the index in decimal digits |
| Server.OwnerOf | backend/main.py:541-542 | the owner read back from an id is a prefix of the id after its first three characters, and empty for shorter ids |
| Server.NewAiIdsFresh | backend/main.py:415-416 | opponents added on a level-up get ids distinct from each other and from the existing ones |
| Server.TickSelectionMeaning | backend/main.py:171-172 | a client's tick selects its own opponents, and everything it selects is removed when that client disconnects |
| Server.DisconnectOverreaches | backend/main.py:313-315 | the disconnect prefix also takes the opponents of a client whose id extends this one without an underscore, which the tick never selects |
| Server.DisconnectOverreachExample | backend/main.py:313-315 | "player_1" disconnecting removes "ai_player_12_0", which belongs to "player_12" |
| Server.DisconnectExactForEqualLengths | backend/main.py:313-315 | among client ids of one length, a disconnect removes a client's own opponents and never another's |
| Server.AfterDisconnect | backend/main.py:313-315 | the opponents left are exactly those the prefix test does not select, unchanged |
| Server.RemoveOnDisconnect | backend/main.py:313-315 | the loop over a key snapshot leaves exactly `AfterDisconnect` |
| Server.HandleUpgrade | backend/main.py:272-276 | succeeds exactly when the player can pay and the track is below 10; then the cost is deducted and the track rises, otherwise nothing changes |
| Server.SpawnIndex | backend/main.py:527 | a hash taken modulo the spawn count is a valid index, even for a negative hash |
| Mechanics.AliveTargets | backend/game_mechanics.py:423-430 | the targets are the living registered players, in registration order, at their position (origin when missing) with radius 2 |
| Mechanics.UpdateHitsOnlyLivingPlayers | backend/game_mechanics.py:412-438 | every collision of an update hits a registered living player other than the owner, with the owner and damage of the missile |
| Mechanics.GameMechanics.constructor | backend/game_mechanics.py:403-410 | no missiles and no players, and the match starts now |
| Mechanics.GameMechanics.RegisterPlayer | backend/game_mechanics.py:440-442 | stores or replaces the player's data; a new player joins the end of the order |
| Mechanics.GameMechanics.UnregisterPlayer | backend/game_mechanics.py:444-447 | removes the player if registered, and nothing else |
| Mechanics.GameMechanics.UpdatePlayerPosition | backend/game_mechanics.py:449-452 | moves a registered player and ignores an unknown one |
| Mechanics.GameMechanics.ResetMatch | backend/game_mechanics.py:454-462 | no missiles and no players remain, and the match duration measured now is 0 |
| Mechanics.GameMechanics.MatchDuration | backend/game_mechanics.py:454-456 | the time since the match started, non-negative exactly when the clock is not behind the start |
| Mechanics.GameMechanics.Update | backend/game_mechanics.py:412-438 | reports the expired missiles, then the collisions of the survivors against the living players, and the missiles still flying; only living non-owners are hit |

## Left out

- Floats are exact reals. float32 positions, rounding and NaN are not modelled. `round(total_multiplier, 2)` is kept exact in `KillReward.multiplier`.
- Rewards.CalculateKillReward: exact reals can differ from Python's doubles by one unit after `int()`. For killer level 10, victim level 15 and streak 2 the model gives 210 score, 105 exp and 21 coins. Python computes 1.5 * 1.4 as 2.0999999999999996 and gives 209, 104 and 20.
- Drones.ScaledMaxHp: for the same reason `ScaledMaxHp(100, 3)` is 116 in the model, while Python's `int(100 * 1.16)` is 115.
- Rewards.RatingChangeBounds: with exact reals a win gains at most K-1. For an extreme rating gap Python's expected score rounds so that `1.0 - expected` is 1.0, and a win can gain the full K.
- Rewards.ExpectedScore: the power `10 ** ((b - a) / 400)` is a positive parameter, so the model does not prove which ratings give which power.
- Rewards.NewRating: takes the expected score as a parameter. `RatingWithPerformance` does too.
- Combat.CombatSystem.CreateMissile: the direction's length is a parameter whose square is the squared norm. The missile id, which the source draws with uuid4, is also a parameter.
- Combat.Update: `now` stands for the clock reading inside the call. Each missile is checked against the same `now`.
- Mechanics.GameMechanics.Update: uses one clock reading for the whole frame. The dictionary it builds for each missile (`to_dict`) is the missile itself.
- The time reading of `get_match_duration` is the parameter `now`.
- Mechanics.PlayerData: a player record carries only its optional position and `is_alive` entries. `update_player_position` writes the position into a copy held by the registry, so aliasing with the caller's dictionary is not modelled.
- Players.Player.TakeDamage: the `attacker_id` echo in the result is omitted. `Drones.AIDrone.TakeDamage` omits it too.
- The display ratios are not modelled: `get_kda`, `get_accuracy`, `get_win_rate`, `get_tier_progress`, tier display names and colours, and `to_dict`.
- Hit points and damage are integers, as the server passes them.
- Players.PlayerUpgrades.Upgrade: a missing track name (`None`) is not modelled. The server passes the track from the message.
- Drones.AIDrone.constructor: requires a level of at least 1. The server only creates drones for player levels, which start at 1 and only rise.
- Drones.AIDrone.UpdatePosition: models only the dead-drone guard, the behaviour call and the manoeuvre countdown. The float steering, obstacle avoidance, speed clamping, the move by the velocity and the clipping to the arena are not modelled, so the contract promises nothing about the drone's position and velocity after the call, although the source moves a living drone.
- Drones.AIDrone.ActivateEvasiveManeuver: the random escape direction (`evasive_direction`) is not modelled.
- `get_firing_direction` (float lead aiming) is not modelled. The torch network the drone builds but never uses for decisions is not modelled either.
- Random draws are parameters of the operations that use them: the behaviour draw, the fire draw, the evasion draw and the random respawn point.
- Server.SpawnIndex: `hash()` is a parameter. The spawn list is only indexed, not generated.
- The async websocket wiring, message parsing and broadcasting in `main.py` are not modelled. The respawn delays are not modelled either.
- physics_engine, guided_missile, ai_drone, map_generator and the backup server files are not part of this model.
