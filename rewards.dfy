/** The reward and rating arithmetic of the arena: `RewardSystem` and
    `EloRatingSystem` in backend/game_mechanics.py. Multipliers are exact
    reals and every `int(...)` of the source is `Trunc`. */
module Rewards {
  import opened Base

  /** One reward bundle: score, experience and coins. */
  datatype Bundle = Bundle(score: int, exp: int, coins: int)

  const KillBundle := Bundle(100, 50, 10)
  const SurviveMinuteBundle := Bundle(20, 10, 2)
  const WinBundle := Bundle(500, 200, 50)
  const NoDeathBundle := Bundle(200, 100, 20)

  function MaxReal(a: real, b: real): real {
    if a >= b then a else b
  }

  /** The level-difference factor of a kill: a bonus of 10% per level the
      victim has over the killer, otherwise a penalty of 5% per level below,
      never under one half. */
  function LevelMultiplier(levelDiff: int): (r: real)
    ensures r >= 0.5
  {
    if levelDiff > 0 then 1.0 + levelDiff as real * 0.1
    else MaxReal(0.5, 1.0 + levelDiff as real * 0.05)
  }

  /** The kill-streak factor: 20% more per kill of the streak, so no streak
      leaves a kill unscaled and each further kill adds 0.2. */
  function StreakBonus(streak: int): (b: real)
    ensures b == 1.0 <==> streak == 0
    ensures b + 0.2 == 1.0 + (streak + 1) as real * 0.2
  {
    1.0 + streak as real * 0.2
  }

  /** The result of calculate_kill_reward. `multiplier` is the exact
      product of the two factors (the source reports it rounded to two places). */
  datatype KillReward = KillReward(score: int, exp: int, coins: int, multiplier: real)

  function CalculateKillReward(killerLevel: int, victimLevel: int, streak: int): (r: KillReward)
    ensures r.multiplier == LevelMultiplier(victimLevel - killerLevel) * StreakBonus(streak)
    ensures streak >= 0 ==> r.score >= 50 && r.exp >= 25 && r.coins >= 5
  {
    var total := LevelMultiplier(victimLevel - killerLevel) * StreakBonus(streak);
    assert streak >= 0 ==> total >= 0.5 by {
      if streak >= 0 {
        MultiplyAtLeast(LevelMultiplier(victimLevel - killerLevel), 0.5, StreakBonus(streak));
      }
    }
    KillReward(Trunc(100.0 * total), Trunc(50.0 * total), Trunc(10.0 * total), total)
  }

  lemma MultiplyAtLeast(a: real, lower: real, b: real)
    requires a >= lower >= 0.0 && b >= 1.0
    ensures a * b >= lower
  {
    assert a * b >= a * 1.0;
  }

  /** The level multiplier exceeds 1 exactly when the victim outlevels the
      killer, and is exactly 1 for equal levels. */
  lemma LevelMultiplierAboveOne(levelDiff: int)
    ensures LevelMultiplier(levelDiff) > 1.0 <==> levelDiff > 0
    ensures LevelMultiplier(levelDiff) == 1.0 <==> levelDiff == 0
  {
  }

  /** A larger level gap never lowers the multiplier. */
  lemma LevelMultiplierMonotone(d1: int, d2: int)
    requires d1 <= d2
    ensures LevelMultiplier(d1) <= LevelMultiplier(d2)
  {
  }

  /** A streak of zero or more never scales a kill down. */
  lemma StreakBonusAtLeastOne(streak: int)
    requires streak >= 0
    ensures StreakBonus(streak) >= 1.0
  {
  }

  /** Equal levels and no streak pay exactly the base kill reward. */
  lemma EqualLevelKillIsBase(level: int)
    ensures var r := CalculateKillReward(level, level, 0);
            Bundle(r.score, r.exp, r.coins) == KillBundle && r.multiplier == 1.0
  {
  }

  /** The `breakdown` part of calculate_match_reward. */
  datatype Breakdown = Breakdown(
    win: bool,
    kills: int,
    deaths: int,
    damageDealt: int,
    minutesSurvived: int,
    noDeathBonus: bool)

  datatype MatchReward = MatchReward(totalScore: int, totalExp: int, totalCoins: int, breakdown: Breakdown)

  /** calculate_match_reward. */
  function CalculateMatchReward(won: bool, kills: int, deaths: int, damageDealt: real, matchDuration: real): (r: MatchReward)
    ensures r.breakdown.noDeathBonus <==> deaths == 0 && kills > 0
    ensures r.breakdown.win == won && r.breakdown.kills == kills && r.breakdown.deaths == deaths
    ensures matchDuration >= 0.0 ==>
              0 <= r.breakdown.minutesSurvived
              && r.breakdown.minutesSurvived as real * 60.0 <= matchDuration < (r.breakdown.minutesSurvived + 1) as real * 60.0
    ensures r.totalScore == (if won then 500 else 0) + 100 * kills + 20 * r.breakdown.minutesSurvived
                            + (if r.breakdown.noDeathBonus then 200 else 0)
    ensures r.totalExp == (if won then 200 else 0) + 50 * kills + 10 * r.breakdown.minutesSurvived
                          + (if r.breakdown.noDeathBonus then 100 else 0)
    ensures r.totalCoins == (if won then 50 else 0) + 10 * kills + 2 * r.breakdown.minutesSurvived
                            + Trunc(damageDealt / 100.0) + (if r.breakdown.noDeathBonus then 20 else 0)
    ensures r.breakdown.damageDealt == Trunc(damageDealt)
  {
    var minutes := Trunc(matchDuration / 60.0);
    var damageCoins := Trunc(damageDealt / 100.0);
    var bonus := deaths == 0 && kills > 0;
    var winPart := if won then WinBundle else Bundle(0, 0, 0);
    var bonusPart := if bonus then NoDeathBundle else Bundle(0, 0, 0);
    MatchReward(
      winPart.score + kills * KillBundle.score + minutes * SurviveMinuteBundle.score + bonusPart.score,
      winPart.exp + kills * KillBundle.exp + minutes * SurviveMinuteBundle.exp + bonusPart.exp,
      winPart.coins + kills * KillBundle.coins + minutes * SurviveMinuteBundle.coins + damageCoins + bonusPart.coins,
      Breakdown(won, kills, deaths, Trunc(damageDealt), minutes, bonus))
  }

  /** Winning adds exactly 500 score, 200 experience and 50 coins. */
  lemma WinAddsWinReward(kills: int, deaths: int, damageDealt: real, matchDuration: real)
    ensures var w, l := CalculateMatchReward(true, kills, deaths, damageDealt, matchDuration),
                        CalculateMatchReward(false, kills, deaths, damageDealt, matchDuration);
            w.totalScore == l.totalScore + 500 && w.totalExp == l.totalExp + 200
            && w.totalCoins == l.totalCoins + 50 && w.breakdown == l.breakdown.(win := true)
  {
  }

  /** One more kill, all else equal, adds at least the kill reward; from
      zero deaths and zero kills it also unlocks the no-death bonus. */
  lemma OneMoreKill(won: bool, kills: int, deaths: int, damageDealt: real, matchDuration: real)
    requires kills >= 0
    ensures var a, b := CalculateMatchReward(won, kills, deaths, damageDealt, matchDuration),
                        CalculateMatchReward(won, kills + 1, deaths, damageDealt, matchDuration);
            b.totalScore == a.totalScore + 100 + (if deaths == 0 && kills == 0 then 200 else 0)
            && b.totalExp == a.totalExp + 50 + (if deaths == 0 && kills == 0 then 100 else 0)
            && b.totalCoins == a.totalCoins + 10 + (if deaths == 0 && kills == 0 then 20 else 0)
  {
  }

  /** Whatever else the match held, the coins beyond the win, kill, minute
      and no-death parts are one per full 100 damage dealt. */
  lemma DamageCoins(won: bool, kills: int, deaths: int, damageDealt: real, matchDuration: real)
    requires damageDealt >= 0.0
    ensures var r := CalculateMatchReward(won, kills, deaths, damageDealt, matchDuration);
            var c := r.totalCoins - ((if won then 50 else 0) + 10 * kills + 2 * r.breakdown.minutesSurvived
                                     + (if r.breakdown.noDeathBonus then 20 else 0));
            0 <= c && c as real * 100.0 <= damageDealt < (c + 1) as real * 100.0
  {
    var q := damageDealt / 100.0;
    assert q * 100.0 == damageDealt;
  }

  /** The rating system's K factor. */
  const DefaultKFactor := 32

  /** `k_factor or K_FACTOR`: an absent or zero K falls back to 32. */
  function EffectiveK(kFactor: Option<int>): (k: int)
    ensures kFactor.Some? && kFactor.value != 0 ==> k == kFactor.value
    ensures kFactor.None? || kFactor == Some(0) ==> k == DefaultKFactor
  {
    match kFactor
    case Some(v) => if v != 0 then v else DefaultKFactor
    case None => DefaultKFactor
  }

  /** calculate_expected_score with the power term `power` =
      10 ** ((opponent - current) / 400) supplied by the caller. */
  function ExpectedScore(power: real): (e: real)
    requires power > 0.0
    ensures 0.0 < e < 1.0
  {
    1.0 / (1.0 + power)
  }

  /** The two sides' expected scores add up to one: swapping the ratings
      inverts the power term. */
  lemma ExpectedScoresSumToOne(power: real)
    requires power > 0.0
    ensures ExpectedScore(power) + ExpectedScore(1.0 / power) == 1.0
  {
    var q := 1.0 / power;
    assert q * power == 1.0;
    assert 1.0 / (1.0 + q) == power / (power + 1.0) by {
      assert (1.0 + q) * power == power + 1.0;
    }
  }

  /** Equal ratings (power 1) give an expected score of one half. */
  lemma EqualRatingsExpectHalf()
    ensures ExpectedScore(1.0) == 0.5
  {
  }

  datatype RatingUpdate = RatingUpdate(newRating: int, change: int)

  /** calculate_new_rating, for an expected score `expected` and K factor `k`. */
  function NewRating(current: int, won: bool, expected: real, k: int): (r: RatingUpdate)
    ensures r.newRating >= 0
    ensures r.newRating >= current + r.change
    ensures current + r.change >= 0 ==> r.newRating == current + r.change
  {
    var actual := if won then 1.0 else 0.0;
    var change := ChangeFor(k, actual - expected);
    RatingUpdate(if current + change > 0 then current + change else 0, change)
  }

  /** int(k * (actual - expected)): the rating change before flooring. */
  function ChangeFor(k: int, delta: real): int {
    Trunc(k as real * delta)
  }

  /** For an expected score strictly between 0 and 1 and a positive K, a win
      gains between 0 and K - 1 points and a loss loses between 0 and K - 1. */
  lemma RatingChangeBounds(current: int, expected: real, k: int)
    requires 0.0 < expected < 1.0 && k > 0
    ensures 0 <= NewRating(current, true, expected, k).change < k
    ensures -k < NewRating(current, false, expected, k).change <= 0
  {
    GainBetween(k, 1.0 - expected);
    LossBetween(k, 0.0 - expected);
    assert NewRating(current, true, expected, k).change == ChangeFor(k, 1.0 - expected);
    assert NewRating(current, false, expected, k).change == ChangeFor(k, 0.0 - expected);
  }

  lemma GainBetween(k: int, d: real)
    requires k > 0 && 0.0 < d < 1.0
    ensures 0 <= ChangeFor(k, d) < k
  {
    var p := k as real * d;
    assert 0.0 < p < k as real by {
      FractionOf(k as real, d);
    }
    assert 0 <= Trunc(p) < k by {
      TruncBelow(p, k);
    }
  }

  lemma LossBetween(k: int, d: real)
    requires k > 0 && -1.0 < d < 0.0
    ensures -k < ChangeFor(k, d) <= 0
  {
    var p := k as real * d;
    assert -(k as real) < p < 0.0 by {
      NegativeFractionOf(k as real, d);
    }
    assert -k < Trunc(p) <= 0 by {
      TruncAbove(p, k);
    }
  }

  lemma FractionOf(k: real, d: real)
    requires k > 0.0 && 0.0 < d < 1.0
    ensures 0.0 < k * d < k
  {
    assert k * (1.0 - d) > 0.0;
  }

  lemma NegativeFractionOf(k: real, d: real)
    requires k > 0.0 && -1.0 < d < 0.0
    ensures -k < k * d < 0.0
  {
    assert k * (1.0 + d) > 0.0;
  }

  lemma TruncBelow(x: real, k: int)
    requires 0.0 < x < k as real
    ensures 0 <= Trunc(x) < k
  {
  }

  lemma TruncAbove(x: real, k: int)
    requires -(k as real) < x < 0.0
    ensures -k < Trunc(x) <= 0
  {
  }

  /** Between equal ratings, with the default K, a win is worth +16 and a loss -16. */
  lemma EvenMatchIsSixteen(current: int)
    requires current >= 16
    ensures NewRating(current, true, ExpectedScore(1.0), DefaultKFactor) == RatingUpdate(current + 16, 16)
    ensures NewRating(current, false, ExpectedScore(1.0), DefaultKFactor) == RatingUpdate(current - 16, -16)
  {
  }

  /** The performance step of calculate_rating_with_performance, by
      kda = kills / max(1, deaths). */
  function PerformanceBonus(kills: int, deaths: int): (b: int)
    ensures var d := if deaths > 1 then deaths else 1;
            && (kills >= 3 * d ==> b == 5)
            && (2 * d <= kills < 3 * d ==> b == 3)
            && (d <= kills < 2 * d ==> b == 0)
            && (kills < d ==> b == -3)
  {
    var d := if deaths > 1 then deaths else 1;
    var kda := kills as real / d as real;
    QuotientAtLeast(kills, d, 3);
    QuotientAtLeast(kills, d, 2);
    QuotientAtLeast(kills, d, 1);
    if kda >= 3.0 then 5
    else if kda >= 2.0 then 3
    else if kda >= 1.0 then 0
    else -3
  }

  lemma QuotientAtLeast(k: int, d: int, c: int)
    requires d > 0
    ensures k as real / d as real >= c as real <==> k >= c * d
  {
  }

  /** calculate_rating_with_performance: the default-K rating step, then the
      performance bonus, floored at zero again. `change` is the total
      difference from the current rating. */
  function RatingWithPerformance(current: int, won: bool, kills: int, deaths: int, expected: real): (r: RatingUpdate)
    ensures r.newRating >= 0
    ensures r.change == r.newRating - current
    ensures var base := NewRating(current, won, expected, DefaultKFactor).newRating + PerformanceBonus(kills, deaths);
            r.newRating == if base > 0 then base else 0
  {
    var stepped := NewRating(current, won, expected, DefaultKFactor).newRating;
    var final := stepped + PerformanceBonus(kills, deaths);
    var floored := if final > 0 then final else 0;
    RatingUpdate(floored, floored - current)
  }

  /** Performance can move the rating by at most 5 beyond the plain step. */
  lemma PerformanceWithinFive(current: int, won: bool, kills: int, deaths: int, expected: real)
    ensures var plain := NewRating(current, won, expected, DefaultKFactor).newRating;
            plain - 3 <= RatingWithPerformance(current, won, kills, deaths, expected).newRating <= plain + 5
  {
  }
}
