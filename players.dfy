/** The `player` object and the operations that update it in place: levelling, stat points,
    jumping, contact damage, starting a swing and the per-tick physics (game/game.js:218-270,
    692-728, 794-815, 832-847, 1092-1176). */
module Players {
  import opened Options
  import opened Geometry
  import opened Progression

  /** CONFIG.playerSpeed, CONFIG.gravity and CONFIG.jumpVel. */
  const PlayerSpeed: real := 240.0
  const Gravity: real := 1600.0
  const JumpVel: real := 620.0
  /** CONFIG.attackCooldownMs (also the length of the attack animation) and
      CONFIG.touchDamageCooldownMs. */
  const AttackCooldownMs: real := 220.0
  const TouchCooldownMs: real := 500.0
  /** The attack box is 34 px wide and 20 px shorter than the sprite. */
  const AttackReach: real := 34.0
  /** A standing player may have its feet up to 5 px below a platform top, and moving up
      at up to 10 px/s, and still be kept on it. */
  const SnapDepth: real := 5.0
  const RiseTolerance: real := 10.0

  /** The animation the player shows; `stand` until the first swing, then the swing's
      variant (rendering picks walk or jump once `animUntil` has passed). */
  datatype Anim = Stand | Attack1 | Attack2 | AttackF

  /** The three swing variants, used in rotation. */
  const AttackAnims: seq<Anim> := [Attack1, Attack2, AttackF]

  /** The vertical speed after `dt` seconds of gravity from `vy`. */
  function FallSpeed(vy: real, dt: real): real { vy + Gravity * dt }

  /** A coordinate `p` moved at speed `v` for `dt` seconds. */
  function Moved(p: real, v: real, dt: real): real { p + v * dt }

  /** The height after `dt` seconds of gravity from `y` at speed `vy`: the new speed is
      applied over the whole step, as the game's Euler step does. */
  function FallTo(y: real, vy: real, dt: real): real { Moved(y, FallSpeed(vy, dt), dt) }

  /** The y-coordinate of the hitbox's feet for a sprite at `y`. */
  function Feet(y: real): real { Bottom(PlayerBoxAt(0.0, y)) }

  /** The sprite y that puts the feet `FootPad` below the top `top` of a platform. */
  function StandOn(top: real): real { top - HitboxH - HitboxOffsetY + FootPad }

  /** The platform test of `updatePlayer` for a player at (x, y), moving vertically at `vy`,
      that was at height `prevY` before the move: either it fell through the platform's
      top line while over it, or its feet are within 5 px below the top and it is not
      rising faster than 10 px/s. */
  predicate LandsOn(p: Rect, x: real, y: real, vy: real, prevY: real)
  {
    var pb := PlayerBoxAt(x, y);
    var withinX := pb.x + pb.w > p.x && pb.x < p.x + p.w;
    var nowFeet := Bottom(pb);
    var prevFeet := Feet(prevY);
    || (withinX && vy > 0.0 && prevFeet <= p.y && nowFeet >= p.y)
    || (withinX && p.y <= nowFeet <= p.y + SnapDepth && vy >= -RiseTolerance)
  }

  /** The scan over `WORLD.platforms.slice(1)`, from index `from` on: the first platform the
      player lands on. */
  function FirstLanding(plats: seq<Rect>, from: nat, x: real, y: real, vy: real, prevY: real): (r: Option<nat>)
    ensures r.Some? ==> from <= r.value < |plats| && LandsOn(plats[r.value], x, y, vy, prevY)
    ensures r.Some? ==> forall j :: from <= j < r.value ==> !LandsOn(plats[j], x, y, vy, prevY)
    ensures r.None? ==> forall j :: from <= j < |plats| ==> !LandsOn(plats[j], x, y, vy, prevY)
    decreases |plats| - from
  {
    if from >= |plats| then None
    else if LandsOn(plats[from], x, y, vy, prevY) then Some(from)
    else FirstLanding(plats, from + 1, x, y, vy, prevY)
  }

  /** Where the collision pass leaves the player: its height, vertical speed and footing. */
  datatype Landing = Landing(y: real, vy: real, footing: Footing)

  /** The collision pass of `updatePlayer` for a player at (x, y) moving at `vy`, that was
      at height `prevY`: the first floating platform (index 1 on) it lands on catches it,
      feet `FootPad` below the top; failing that, feet at or below the ground line put it on
      the ground; otherwise it stays in the air, unchanged. */
  function Settle(stage: Stage, x: real, y: real, vy: real, prevY: real): (r: Landing)
    ensures r.footing.OnPlatform? ==>
      && 1 <= r.footing.index < |stage.platforms|
      && LandsOn(stage.platforms[r.footing.index], x, y, vy, prevY)
      && (forall j :: 1 <= j < r.footing.index ==> !LandsOn(stage.platforms[j], x, y, vy, prevY))
      && r.y == StandOn(stage.platforms[r.footing.index].y) && r.vy == 0.0
    ensures !r.footing.OnPlatform? ==> forall j :: 1 <= j < |stage.platforms| ==> !LandsOn(stage.platforms[j], x, y, vy, prevY)
    ensures r.footing == OnGround ==> Feet(y) >= stage.groundY && Feet(r.y) == stage.groundY && r.vy == 0.0
    ensures r.footing == Airborne ==> Feet(y) < stage.groundY && r.y == y && r.vy == vy
  {
    match FirstLanding(stage.platforms, 1, x, y, vy, prevY)
    case Some(k) => Landing(StandOn(stage.platforms[k].y), 0.0, OnPlatform(k))
    case None =>
      if Feet(y) >= stage.groundY then Landing(stage.groundY - HitboxH - HitboxOffsetY, 0.0, OnGround)
      else Landing(y, vy, Airborne)
  }

  /** A player falling onto a platform from above, horizontally over it, is caught by it
      or by an earlier platform of the list: it never falls through. */
  lemma FallingPlayerIsCaught(plats: seq<Rect>, k: nat, x: real, y: real, vy: real, prevY: real)
    requires 1 <= k < |plats|
    requires var pb := PlayerBoxAt(x, y);
      && pb.x + pb.w > plats[k].x && pb.x < plats[k].x + plats[k].w
      && vy > 0.0 && Feet(prevY) <= plats[k].y <= Feet(y)
    ensures FirstLanding(plats, 1, x, y, vy, prevY).Some?
    ensures FirstLanding(plats, 1, x, y, vy, prevY).value <= k
  {
    assert LandsOn(plats[k], x, y, vy, prevY);
  }

  /** Standing on a platform: the feet sit `FootPad` below its top, so the next tick's
      snap test (feet within 5 px below the top) holds again while the player stays over it. */
  lemma StandingSatisfiesSnap(p: Rect, x: real)
    requires var pb := PlayerBoxAt(x, StandOn(p.y)); pb.x + pb.w > p.x && pb.x < p.x + p.w
    ensures LandsOn(p, x, StandOn(p.y), 0.0, StandOn(p.y))
  {
  }

  class Player {
    var x: real
    var y: real
    var facing: int
    var anim: Anim
    var animUntil: real
    var attackVariant: int
    var vx: real
    var vy: real
    var onGround: bool
    /** `onPlatform`: undefined (in the air), null (the ground plane) or a platform. */
    var footing: Footing

    var exp: int
    var level: int
    var expToNext: int
    var statPoints: int
    var str: int
    var vit: int
    var damage: int
    var maxHP: int
    var hp: int

    var lastAttackAt: real
    var lastHurtAt: real

    /** The progression fields as one record. */
    function Snapshot(): Stats
      reads this`exp, this`level, this`expToNext, this`statPoints, this`str, this`vit, this`damage, this`maxHP, this`hp
    {
      Stats(exp, level, expToNext, statPoints, str, vit, damage, maxHP, hp)
    }

    predicate Valid()
      reads this`exp, this`level, this`expToNext, this`statPoints, this`str, this`vit, this`damage, this`maxHP, this`hp
      reads this`facing, this`attackVariant
    {
      && Consistent(Snapshot())
      && (facing == 1 || facing == -1)
      && 0 <= attackVariant < |AttackAnims|
    }

    /** The `player` literal, after `boot` has computed the threshold and applied the level
      stats: level 1, no experience, full health at 30 HP. */
    constructor ()
      ensures Valid()
      ensures x == 120.0 && y == 0.0 && facing == 1 && anim == Stand && attackVariant == 0
      ensures vx == 0.0 && vy == 0.0 && !onGround && footing == OnGround
      ensures Snapshot() == Stats(0, 1, 30, 0, 0, 0, BaseDamage, BaseMaxHP, BaseMaxHP)
      ensures lastAttackAt == 0.0 && lastHurtAt == -999999.0
    {
      x, y, facing := 120.0, 0.0, 1;
      anim, animUntil, attackVariant := Stand, 0.0, 0;
      vx, vy, onGround, footing := 0.0, 0.0, false, OnGround;
      exp, level, expToNext, statPoints := 0, 1, 30, 0;
      str, vit, damage, maxHP, hp := 0, 0, BaseDamage, BaseMaxHP, BaseMaxHP;
      lastAttackAt, lastHurtAt := 0.0, -999999.0;
    }

    /** `applyLevelStats()`. */
    method ApplyLevelStats()
      modifies this`damage, this`maxHP, this`hp
      ensures Snapshot() == LevelStats(old(Snapshot()))
    {
      damage := BaseDamage + str;
      var oldMax := maxHP;
      maxHP := BaseMaxHP + HpPerVit * vit;
      if maxHP > oldMax {
        hp := MinInt(hp + (maxHP - oldMax), maxHP);
      } else {
        hp := MinInt(hp, maxHP);
      }
    }

    /** `gainExp(amount)`: the experience is added and the level-up loop runs until the
      remainder is below the threshold. */
    method GainExp(amount: int)
      requires Valid()
      modifies this`exp, this`level, this`expToNext, this`statPoints, this`damage, this`maxHP, this`hp
      ensures Valid()
      ensures Snapshot() == Progression.GainExp(old(Snapshot()), amount)
    {
      if amount <= 0 {
        return;
      }
      exp := exp + amount;
      assert Snapshot() == old(Snapshot()).(exp := old(exp) + amount);
      while exp >= expToNext
        invariant Consistent(Snapshot())
        invariant LevelUps(Snapshot()) == LevelUps(old(Snapshot()).(exp := old(exp) + amount))
        decreases exp
      {
        LevelUp();
      }
      assert LevelUps(Snapshot()) == Snapshot();
    }

    /** One pass of the level-up loop: the threshold is paid, the level rises, 3 stat
      points are granted, the next threshold is computed and the level stats reapplied. */
    method LevelUp()
      requires Consistent(Snapshot()) && exp >= expToNext
      modifies this`exp, this`level, this`expToNext, this`statPoints, this`damage, this`maxHP, this`hp
      ensures Snapshot() == LevelUpOnce(old(Snapshot()))
      ensures Consistent(Snapshot()) && exp < old(exp)
      ensures LevelUps(Snapshot()) == LevelUps(old(Snapshot()))
    {
      LevelUpStep(Snapshot());
      exp := exp - expToNext;
      level := level + 1;
      statPoints := statPoints + PointsPerLevel;
      expToNext := ExpNeededForLevel(level);
      ApplyLevelStats();
    }

    /** `addSTR()`. */
    method AddStr()
      requires Valid()
      modifies this`statPoints, this`str, this`damage, this`maxHP, this`hp
      ensures Valid()
      ensures Snapshot() == SpendPoint(old(Snapshot()), Str)
    {
      if statPoints <= 0 {
        return;
      }
      statPoints := statPoints - 1;
      str := str + 1;
      ApplyLevelStats();
    }

    /** `addVIT()`. */
    method AddVit()
      requires Valid()
      modifies this`statPoints, this`vit, this`damage, this`maxHP, this`hp
      ensures Valid()
      ensures Snapshot() == SpendPoint(old(Snapshot()), Vit)
    {
      if statPoints <= 0 {
        return;
      }
      statPoints := statPoints - 1;
      vit := vit + 1;
      ApplyLevelStats();
    }

    /** `tryJump()`: only a grounded player jumps; it leaves the ground at 620 px/s upward.
      Its footing is left for the next physics step to clear. */
    method TryJump()
      modifies this`vy, this`onGround
      ensures old(onGround) ==> vy == -JumpVel && !onGround
      ensures !old(onGround) ==> vy == old(vy) && onGround == old(onGround)
    {
      if !onGround {
        return;
      }
      vy := -JumpVel;
      onGround := false;
    }

    /** `hurtPlayerFromMob(m)` at time `now`, with the mob's contact damage: within 500 ms
      of the last hurt nothing happens; otherwise HP drops by the damage, never below 0,
      and the cooldown restarts. */
    method HurtFromMob(dmg: nat, now: real)
      requires Valid()
      modifies this`hp, this`lastHurtAt
      ensures Valid()
      ensures now - old(lastHurtAt) < TouchCooldownMs ==> hp == old(hp) && lastHurtAt == old(lastHurtAt)
      ensures now - old(lastHurtAt) >= TouchCooldownMs ==>
                hp == (if old(hp) >= dmg then old(hp) - dmg else 0) && lastHurtAt == now
    {
      if now - lastHurtAt < TouchCooldownMs {
        return;
      }
      hp := if hp - dmg >= 0 then hp - dmg else 0;
      lastHurtAt := now;
    }

    /** The first half of `tryAttack()` at time `now`: within the 220 ms cooldown nothing
      happens and `swung` is false; otherwise the swing starts, plays the current variant
      for 220 ms and moves the rotation on. */
    method StartAttack(now: real) returns (swung: bool)
      requires Valid()
      modifies this`lastAttackAt, this`anim, this`animUntil, this`attackVariant
      ensures Valid()
      ensures swung <==> now - old(lastAttackAt) >= AttackCooldownMs
      ensures !swung ==> lastAttackAt == old(lastAttackAt) && anim == old(anim)
                         && animUntil == old(animUntil) && attackVariant == old(attackVariant)
      ensures swung ==> && lastAttackAt == now && anim == AttackAnims[old(attackVariant)]
                        && animUntil == now + AttackCooldownMs
                        && attackVariant == (old(attackVariant) + 1) % |AttackAnims|
    {
      if now - lastAttackAt < AttackCooldownMs {
        return false;
      }
      lastAttackAt := now;
      anim := AttackAnims[attackVariant];
      animUntil := now + AttackCooldownMs;
      attackVariant := (attackVariant + 1) % |AttackAnims|;
      return true;
    }

    /** The box a swing hits: a 34 px wide strip directly in front of the sprite (touching
      its right edge when facing right, its left edge otherwise), from 10 px below its top
      to 10 px above its bottom. */
    function AttackBox(): (r: Rect)
      reads this`x, this`y, this`facing
      ensures r.w == AttackReach && r.y == y + 10.0 && r.y + r.h == y + PlayerH - 10.0
      ensures facing == 1 ==> r.x == x + PlayerW
      ensures facing != 1 ==> r.x + r.w == x
    {
      Rect(if facing == 1 then x + PlayerW else x - AttackReach, y + 10.0, AttackReach, PlayerH - 20.0)
    }

    /** `updatePlayer(dt)` with the arrow keys held (`left`, `right`) on a map: horizontal
      input (right wins), gravity and motion, the playfield clamp, then the collision pass. */
    method Update(dt: real, left: bool, right: bool, stage: Stage)
      requires Valid()
      modifies this`x, this`y, this`vx, this`vy, this`facing, this`onGround, this`footing
      ensures Valid()
      ensures vx == (if right then PlayerSpeed else if left then -PlayerSpeed else 0.0)
      ensures facing == (if right then 1 else if left then -1 else old(facing))
      ensures x == Clamp(Moved(old(x), vx, dt), 0.0, WorldWidth - PlayerW) && 0.0 <= x <= WorldWidth - PlayerW
      ensures Landing(y, vy, footing) == Settle(stage, x, FallTo(old(y), old(vy), dt), FallSpeed(old(vy), dt), old(y))
      ensures onGround <==> footing != Airborne
    {
      var prevY := y;
      ghost var vy0 := vy;
      Integrate(dt, left, right);
      Collide(stage, prevY, FallTo(prevY, vy0, dt), FallSpeed(vy0, dt));
    }

    /** The input and motion half of `updatePlayer`: velocity from the keys, gravity,
      motion, the playfield clamp; the player is then provisionally airborne. */
    method Integrate(dt: real, left: bool, right: bool)
      requires Valid()
      modifies this`x, this`y, this`vx, this`vy, this`facing, this`onGround, this`footing
      ensures Valid()
      ensures vx == (if right then PlayerSpeed else if left then -PlayerSpeed else 0.0)
      ensures facing == (if right then 1 else if left then -1 else old(facing))
      ensures x == Clamp(Moved(old(x), vx, dt), 0.0, WorldWidth - PlayerW) && 0.0 <= x <= WorldWidth - PlayerW
      ensures vy == FallSpeed(old(vy), dt) && y == FallTo(old(y), old(vy), dt)
      ensures !onGround && footing == Airborne
    {
      var newVx, newFacing := 0.0, facing;
      if left {
        newVx, newFacing := -PlayerSpeed, -1;
      }
      if right {
        newVx, newFacing := PlayerSpeed, 1;
      }
      x, vx, facing := Clamp(Moved(x, newVx, dt), 0.0, WorldWidth - PlayerW), newVx, newFacing;
      y, vy := FallTo(y, vy, dt), FallSpeed(vy, dt);
      onGround, footing := false, Airborne;
    }

    /** The collision half of `updatePlayer`, entered airborne: the scan over the floating
      platforms stops at the first one the player lands on; failing that, the ground check. */
    method Collide(stage: Stage, prevY: real, ghost fallY: real, ghost fallVy: real)
      requires !onGround && footing == Airborne && y == fallY && vy == fallVy
      modifies this`y, this`vy, this`onGround, this`footing
      ensures Landing(y, vy, footing) == Settle(stage, x, fallY, fallVy, prevY)
      ensures onGround <==> footing != Airborne
    {
      var k := 1;
      while k < |stage.platforms|
        invariant 1 <= k
        invariant y == old(y) && vy == old(vy) && !onGround && footing == Airborne
        invariant FirstLanding(stage.platforms, 1, x, y, vy, prevY)
               == FirstLanding(stage.platforms, k, x, y, vy, prevY)
        decreases |stage.platforms| - k
      {
        var p := stage.platforms[k];
        if LandsOn(p, x, y, vy, prevY) {
          y := StandOn(p.y);
          vy := 0.0;
          onGround := true;
          footing := OnPlatform(k);
          return;
        }
        k := k + 1;
      }

      if Feet(y) >= stage.groundY {
        y := stage.groundY - HitboxH - HitboxOffsetY;
        vy := 0.0;
        onGround := true;
        footing := OnGround;
      }
    }
  }
}
