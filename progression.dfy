/** Levels, experience and the derived stats damage and max HP (game/game.js:218-271). */
module Progression {

  /** CONFIG.playerDamage and CONFIG.playerMaxHP: the stats of a player with no STR or VIT. */
  const BaseDamage: int := 2
  const BaseMaxHP: int := 30
  /** Max HP granted by each point of VIT. */
  const HpPerVit: int := 6
  /** Stat points granted by each level-up. */
  const PointsPerLevel: int := 3

  /** `expNeededForLevel(lv) = floor(30 + 18(lv-1) + 6(lv-1)^2)`; on integers the floor is the identity. */
  function ExpNeededForLevel(lv: int): (r: int)
    ensures r > 0
    ensures lv >= 1 ==> r >= 30
  {
    CurvePositive(lv);
    30 + (lv - 1) * 18 + (lv - 1) * (lv - 1) * 6
  }

  /** 6t^2 + 18t + 30 = 6(t+1)(t+2) + 18, and (t+1)(t+2) is never negative on integers. */
  lemma CurvePositive(lv: int)
    ensures 30 + (lv - 1) * 18 + (lv - 1) * (lv - 1) * 6 >= 18
    ensures lv >= 1 ==> 30 + (lv - 1) * 18 + (lv - 1) * (lv - 1) * 6 >= 30
  {
    var t := lv - 1;
    var q := (t + 1) * (t + 2);
    assert q >= 0 by {
      if t < -1 {
        assert q == (-t - 1) * (-t - 2);
      }
    }
    assert 30 + t * 18 + t * t * 6 == 6 * q + 18;
    if t >= 0 {
      assert t * t >= 0;
    }
  }

  /** The anchors of the curve: 30 at level 1 and 198 at level 5. */
  lemma ExpCurveAnchors()
    ensures ExpNeededForLevel(1) == 30
    ensures ExpNeededForLevel(2) == 54
    ensures ExpNeededForLevel(5) == 198
  {
  }

  /** Each level from 1 upward needs 12(lv + 1) more experience than the one before. */
  lemma ExpCurveStep(lv: int)
    requires lv >= 1
    ensures ExpNeededForLevel(lv + 1) == ExpNeededForLevel(lv) + 12 * (lv + 1)
  {
    var t := lv - 1;
    assert (t + 1) * (t + 1) == t * t + 2 * t + 1;
  }

  /** From level 1 upward every level needs strictly more experience than the one before. */
  lemma {:induction false} ExpCurveStrictlyIncreasing(a: int, b: int)
    requires 1 <= a < b
    ensures ExpNeededForLevel(a) < ExpNeededForLevel(b)
    decreases b - a
  {
    ExpCurveStep(a);
    if a + 1 < b {
      ExpCurveStrictlyIncreasing(a + 1, b);
    }
  }

  /** The progression fields of `player`. */
  datatype Stats = Stats(
    exp: int, level: int, expToNext: int, statPoints: int,
    str: int, vit: int, damage: int, maxHP: int, hp: int)

  /** The relations the game keeps between the progression fields: the threshold is the
      curve at the current level, damage and max HP are derived from STR and VIT, and
      HP lies in [0, maxHP]. (Experience itself is not bounded here: a quest reward is
      added without the level-up loop.) */
  predicate Consistent(s: Stats)
  {
    && s.level >= 1
    && s.expToNext == ExpNeededForLevel(s.level)
    && s.statPoints >= 0 && s.str >= 0 && s.vit >= 0
    && s.damage == BaseDamage + s.str
    && s.maxHP == BaseMaxHP + HpPerVit * s.vit
    && 0 <= s.hp <= s.maxHP
  }

  function MinInt(a: int, b: int): int { if a <= b then a else b }

  /** `applyLevelStats`: recompute damage and max HP; a grown max HP heals by the growth,
      never past the new max; otherwise HP is only clamped to the new max. */
  function LevelStats(s: Stats): (r: Stats)
    ensures r.damage == BaseDamage + s.str && r.maxHP == BaseMaxHP + HpPerVit * s.vit
    ensures r == s.(damage := r.damage, maxHP := r.maxHP, hp := r.hp)
    ensures r.hp <= r.maxHP
    ensures 0 <= s.hp && 0 <= r.maxHP ==> 0 <= r.hp
    ensures s.hp <= s.maxHP < r.maxHP ==> s.hp <= r.hp && r.hp - s.hp <= r.maxHP - s.maxHP
    ensures r.maxHP <= s.maxHP ==> r.hp <= s.hp && (s.hp <= r.maxHP ==> r.hp == s.hp)
  {
    var maxHP := BaseMaxHP + HpPerVit * s.vit;
    var hp := if maxHP > s.maxHP then MinInt(s.hp + (maxHP - s.maxHP), maxHP) else MinInt(s.hp, maxHP);
    s.(damage := BaseDamage + s.str, maxHP := maxHP, hp := hp)
  }

  /** One pass of the level-up loop of `gainExp`. */
  function LevelUpOnce(s: Stats): Stats
  {
    LevelStats(s.(exp := s.exp - s.expToNext, level := s.level + 1,
                   statPoints := s.statPoints + PointsPerLevel,
                   expToNext := ExpNeededForLevel(s.level + 1)))
  }

  /** The `while (exp >= expToNext)` loop of `gainExp`, run to completion. */
  function LevelUps(s: Stats): (r: Stats)
    requires s.expToNext > 0
    ensures r.exp < r.expToNext && r.expToNext > 0
    ensures s.exp >= 0 ==> r.exp >= 0
    ensures r.level >= s.level
    ensures r.statPoints == s.statPoints + PointsPerLevel * (r.level - s.level)
    ensures r.str == s.str && r.vit == s.vit
    ensures r.level == s.level ==> r == s
    ensures r.level > s.level ==> r.expToNext == ExpNeededForLevel(r.level)
    ensures Consistent(s) ==> Consistent(r)
    decreases s.exp
  {
    if s.exp < s.expToNext then s else LevelUps(LevelUpOnce(s))
  }

  /** One pass of the loop keeps the relations between the fields and leaves the outcome
      of the whole loop unchanged. */
  lemma LevelUpStep(s: Stats)
    requires Consistent(s) && s.exp >= s.expToNext
    ensures Consistent(LevelUpOnce(s))
    ensures LevelUps(LevelUpOnce(s)) == LevelUps(s)
  {
  }

  /** `gainExp(amount)`: non-positive amounts are ignored, the rest is added and the
      level-up loop runs. (Non-finite amounts do not arise on integers.) */
  function GainExp(s: Stats, amount: int): (r: Stats)
    requires s.expToNext > 0
    ensures amount <= 0 ==> r == s
    ensures amount > 0 ==> r.exp < r.expToNext
    ensures r.expToNext > 0 && (Consistent(s) ==> Consistent(r))
  {
    if amount <= 0 then s else LevelUps(s.(exp := s.exp + amount))
  }

  /** Total experience needed to reach level `lv` from level 1. */
  function ExpToReachLevel(lv: int): int
    requires lv >= 1
    decreases lv
  {
    if lv == 1 then 0 else ExpToReachLevel(lv - 1) + ExpNeededForLevel(lv - 1)
  }

  /** The level-up loop converts experience into levels without losing or creating any:
      the total earned since level 1 is the same before and after. */
  lemma {:induction false} LevelUpsConservesTotal(s: Stats)
    requires s.level >= 1 && s.expToNext == ExpNeededForLevel(s.level)
    ensures LevelUps(s).level >= 1
    ensures ExpToReachLevel(LevelUps(s).level) + LevelUps(s).exp == ExpToReachLevel(s.level) + s.exp
    decreases s.exp
  {
    if s.exp >= s.expToNext {
      LevelUpsConservesTotal(LevelUpOnce(s));
    }
  }

  /** What `gainExp` promises: the experience is banked in full, and the player ends at
      the unique level whose threshold the remaining experience has not reached. */
  lemma GainExpBanksAll(s: Stats, amount: int)
    requires Consistent(s) && s.exp >= 0 && amount > 0
    ensures Consistent(GainExp(s, amount))
    ensures ExpToReachLevel(GainExp(s, amount).level) + GainExp(s, amount).exp
            == ExpToReachLevel(s.level) + s.exp + amount
    ensures 0 <= GainExp(s, amount).exp < ExpNeededForLevel(GainExp(s, amount).level)
  {
    LevelUpsConservesTotal(s.(exp := s.exp + amount));
  }

  /** From zero experience, gaining exactly the threshold levels up once, grants 3 points
      and leaves zero experience. */
  lemma GainExactThresholdLevelsOnce(s: Stats)
    requires Consistent(s) && s.exp == 0
    ensures GainExp(s, s.expToNext).level == s.level + 1
    ensures GainExp(s, s.expToNext).statPoints == s.statPoints + PointsPerLevel
    ensures GainExp(s, s.expToNext).exp == 0
  {
    var start := s.(exp := s.expToNext);
    var once := LevelUpOnce(start);
    assert once.exp == 0 < once.expToNext;
    assert LevelUps(start) == LevelUps(once) == once;
  }

  /** From zero experience, gaining twice the threshold still levels up only once: the
      next threshold is larger, so the leftover (one threshold) falls short of it. The
      same holds for any amount below the current plus the next threshold. */
  lemma GainBelowTwoThresholdsLevelsOnce(s: Stats, amount: int)
    requires Consistent(s) && s.exp == 0
    requires s.expToNext <= amount < s.expToNext + ExpNeededForLevel(s.level + 1)
    ensures GainExp(s, amount).level == s.level + 1
    ensures GainExp(s, amount).exp == amount - s.expToNext
  {
    var start := s.(exp := amount);
    var once := LevelUpOnce(start);
    assert once.exp < once.expToNext;
    assert LevelUps(start) == LevelUps(once) == once;
  }

  /** Corollary: twice the threshold yields exactly one level-up. */
  lemma GainTwiceThresholdLevelsOnce(s: Stats)
    requires Consistent(s) && s.exp == 0
    ensures GainExp(s, 2 * s.expToNext).level == s.level + 1
  {
    ExpCurveStrictlyIncreasing(s.level, s.level + 1);
    GainBelowTwoThresholdsLevelsOnce(s, 2 * s.expToNext);
  }

  /** The attribute a stat point is spent on. */
  datatype Attribute = Str | Vit

  /** `addSTR` / `addVIT`: with no points nothing happens; otherwise one point moves into
      the attribute and the derived stats are recomputed. */
  function SpendPoint(s: Stats, a: Attribute): (r: Stats)
    ensures s.statPoints <= 0 ==> r == s
  {
    if s.statPoints <= 0 then s
    else if a == Str then LevelStats(s.(statPoints := s.statPoints - 1, str := s.str + 1))
    else LevelStats(s.(statPoints := s.statPoints - 1, vit := s.vit + 1))
  }

  /** Spending on STR: one point leaves the pool, STR and damage rise by one, and VIT,
      max HP, HP and experience stay as they were. */
  lemma SpendOnStrRaisesDamage(s: Stats)
    requires Consistent(s) && s.statPoints > 0
    ensures var r := SpendPoint(s, Str);
      && Consistent(r)
      && r == s.(statPoints := s.statPoints - 1, str := s.str + 1, damage := s.damage + 1)
  {
  }

  /** Spending on VIT: one point leaves the pool, VIT rises by one, max HP by 6 and HP by
      exactly 6 (the heal never overshoots, since HP was at most the old max). */
  lemma SpendOnVitHealsByGrowth(s: Stats)
    requires Consistent(s) && s.statPoints > 0
    ensures var r := SpendPoint(s, Vit);
      && Consistent(r)
      && r == s.(statPoints := s.statPoints - 1, vit := s.vit + 1,
                 maxHP := s.maxHP + HpPerVit, hp := s.hp + HpPerVit)
  {
  }
}
