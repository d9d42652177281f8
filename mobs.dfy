/** Mobs: their stats with fallbacks, spawning, the per-tick AI, a melee strike and the
    removal of finished corpses (game/game.js:735-784, 849-903, 1179-1228). */
module Mobs {
  import opened Options
  import opened Geometry
  import opened Progression

  /** A mob's animation state: `stand` and `move` are recomputed every tick, `hit` and
      `die` are timed. */
  datatype MobState = Stand | Move | Hit | Die

  /** A mob of the `mobs` array. `platform` is the index of the platform it walks on, or
      None for a mob roaming the whole width; `y` is NaN once a roaming mob has been glued
      to the roaming strip, which has no top. Times are milliseconds. */
  datatype Mob = Mob(
    id: int, x: real, y: Num, w: real, h: real, platform: Option<nat>,
    maxHP: int, hp: int, exp: int,
    state: MobState, stateUntil: real, dead: bool,
    dir: int, speed: real, nextWanderSwitchAt: real, aggroUntil: real)

  /** One record of the stats registry; a field is None when it is missing or not a number. */
  datatype MobStats = MobStats(maxHP: Option<nat>, damage: Option<nat>, exp: Option<int>, speed: Option<real>)

  type StatsRegistry = map<int, MobStats>

  /** `getMobStat(id, "maxHP", 10)`. */
  function MobMaxHP(stats: StatsRegistry, id: int): nat
  {
    if id in stats && stats[id].maxHP.Some? then stats[id].maxHP.value else 10
  }

  /** `getMobStat(id, "damage", 1)`. */
  function MobDamage(stats: StatsRegistry, id: int): nat
  {
    if id in stats && stats[id].damage.Some? then stats[id].damage.value else 1
  }

  /** `getMobStat(id, "exp", 0)`. */
  function MobExp(stats: StatsRegistry, id: int): int
  {
    if id in stats && stats[id].exp.Some? then stats[id].exp.value else 0
  }

  /** `getMobStat(id, "speed", 0)`. */
  function MobSpeedStat(stats: StatsRegistry, id: int): real
  {
    if id in stats && stats[id].speed.Some? then stats[id].speed.value else 0.0
  }

  /** CONFIG.mobBaseSpeedPxPerSec. */
  const MobBaseSpeed: real := 40.0

  /** `computeMobSpeedPxPerSec(id)`: the base speed scaled by `1 + speed/200`, with the
      factor clamped to [0.6, 1.6]. */
  function ComputeMobSpeed(stats: StatsRegistry, id: int): (r: real)
    ensures 24.0 <= r <= 64.0
    ensures var raw := MobSpeedStat(stats, id);
      && (-80.0 <= raw <= 120.0 ==> r == MobBaseSpeed + raw / 5.0)
      && (raw < -80.0 ==> r == 24.0)
      && (raw > 120.0 ==> r == 64.0)
  {
    MobBaseSpeed * Clamp(1.0 + MobSpeedStat(stats, id) / 200.0, 0.6, 1.6)
  }

  /** Mobs are 20 by 20 pixels. */
  const MobSize: real := 20.0

  /** The mob's platform, if any, is one of the map's. */
  predicate OnMap(m: Mob, plats: seq<Rect>)
  {
    m.platform.Some? ==> m.platform.value < |plats|
  }

  /** Leftmost x allowed: the platform's left edge, or 0 for a roaming mob. */
  function LeftBound(m: Mob, plats: seq<Rect>): real
    requires OnMap(m, plats)
  {
    if m.platform.Some? then plats[m.platform.value].x else 0.0
  }

  /** Rightmost x allowed: the platform's right edge, or the playfield's, less the mob's width. */
  function RightBound(m: Mob, plats: seq<Rect>): real
    requires OnMap(m, plats)
  {
    (if m.platform.Some? then plats[m.platform.value].x + plats[m.platform.value].w else WorldWidth) - m.w
  }

  /** `mobYOnPlatform(p, h) = p.y - h`; the roaming strip `{x: 0, w: 960}` has no `y`, so
      a roaming mob gets `undefined - h`, which is NaN. */
  function GluedY(m: Mob, plats: seq<Rect>): Num
    requires OnMap(m, plats)
  {
    if m.platform.Some? then Finite(plats[m.platform.value].y - m.h) else NaN
  }

  /** The record-level facts every mob keeps: its platform exists, its HP lies in
      [0, maxHP], a dead mob has zero HP, exactly the dead mobs are in the `die` state, its
      size is fixed, and a mob with a platform stands on that platform's top. */
  predicate MobOk(m: Mob, plats: seq<Rect>)
  {
    && OnMap(m, plats)
    && 0 <= m.hp <= m.maxHP
    && (m.dead ==> m.hp == 0)
    && (m.dead <==> m.state == Die)
    && m.w == MobSize && m.h == MobSize
    && (m.platform.Some? ==> m.y == GluedY(m, plats))
  }

  /** The mob's box, when it has a number for y; a NaN y makes every comparison false. */
  predicate Touches(a: Rect, m: Mob)
  {
    m.y.Finite? && Intersects(a, Rect(m.x, m.y.v, m.w, m.h))
  }

  /** A roaming mob whose y has become NaN can no longer be touched by any box. */
  lemma NaNMobIsIntangible(a: Rect, m: Mob)
    requires m.y == NaN
    ensures !Touches(a, m)
  {
  }

  // ----- spawning -----

  /** Why `spawnMob` throws: the registry has no record for the id. */
  datatype SpawnError = MissingStats(mobId: int)

  /** CONFIG.mobWanderSwitchMsMin and CONFIG.mobWanderSwitchMsMax. */
  const WanderMinMs: real := 800.0
  const WanderMaxMs: real := 2200.0

  /** `spawnMob(id, x, platform)` at time `now`, with the two `Math.random()` draws it makes
      (facing, first wander delay). Fails when the registry has no record for the id. */
  function SpawnMob(stats: StatsRegistry, id: int, x: real, platform: Option<nat>, stage: Stage,
                    now: real, dirDraw: real, delayDraw: real): (r: Result<Mob, SpawnError>)
    requires platform.Some? ==> platform.value < |stage.platforms|
    ensures r.Failure? <==> id !in stats
    ensures r.Failure? ==> r.error == MissingStats(id)
    ensures r.Success? ==>
      var m := r.value;
      && MobOk(m, stage.platforms)
      && m.id == id && m.x == x && m.platform == platform && !m.dead
      && m.hp == m.maxHP == MobMaxHP(stats, id) && m.state == Stand
      && (platform.None? ==> m.y == Finite(stage.groundY - MobSize))
      && (m.dir == 1 || m.dir == -1)
      && (0.0 <= delayDraw < 1.0 ==> now + WanderMinMs <= m.nextWanderSwitchAt < now + WanderMaxMs)
  {
    if id !in stats then Failure(MissingStats(id))
    else
      var y := if platform.Some? then stage.platforms[platform.value].y - MobSize else stage.groundY - MobSize;
      var maxHP := MobMaxHP(stats, id);
      WanderDelayWithin(delayDraw);
      Success(Mob(id, x, Finite(y), MobSize, MobSize, platform,
                  maxHP, maxHP, MobExp(stats, id),
                  Stand, 0.0, false,
                  if dirDraw < 0.5 then -1 else 1,
                  ComputeMobSpeed(stats, id),
                  now + WanderMinMs + delayDraw * (WanderMaxMs - WanderMinMs),
                  0.0))
  }

  /** `randBetween(800, 2200)` lies in [800, 2200). */
  lemma WanderDelayWithin(u: real)
    ensures 0.0 <= u < 1.0 ==> 0.0 <= u * (WanderMaxMs - WanderMinMs) < WanderMaxMs - WanderMinMs
  {
  }

  // ----- the AI step of updateMobs -----

  /** The two `Math.random()` draws a wander decision makes: direction and next delay. */
  datatype WanderDraw = WanderDraw(dir: real, delay: real)

  /** A mob in `hit` state does nothing until its state timer runs out. */
  predicate Frozen(m: Mob, now: real)
  {
    m.state == Hit && now < m.stateUntil
  }

  /** `m.platform === player.onPlatform`: a platform mob matches a player standing on the
      same platform object; a roaming mob (`null`) matches a player on the ground (`null`);
      nothing matches an airborne player (`undefined`). */
  predicate SamePlatform(platform: Option<nat>, f: Footing)
  {
    match platform
    case None => f == OnGround
    case Some(k) => f == OnPlatform(k)
  }

  /** The aggro chase applies: the aggro window is open and the player stands where the mob does. */
  predicate Chasing(m: Mob, f: Footing, now: real)
  {
    now < m.aggroUntil && SamePlatform(m.platform, f)
  }

  /** The direction, next wander time and horizontal displacement chosen for one tick. */
  datatype Drive = Drive(dir: int, nextWanderSwitchAt: real, dx: real)

  /** Aggro chase multiplier. */
  const ChaseFactor: real := 1.25

  /** Chase: face the player's centre and move at 1.25 times the mob's speed. */
  function ChaseDrive(m: Mob, playerX: real, dt: real): (d: Drive)
    ensures d.dir == 1 || d.dir == -1
    ensures d.dir as real * ((playerX + PlayerW / 2.0) - (m.x + m.w / 2.0)) >= 0.0
    ensures d.nextWanderSwitchAt == m.nextWanderSwitchAt
    ensures d.dx == d.dir as real * (m.speed * ChaseFactor * dt)
  {
    var toPlayer := (playerX + PlayerW / 2.0) - (m.x + m.w / 2.0);
    var dir := if toPlayer >= 0.0 then 1 else -1;
    Drive(dir, m.nextWanderSwitchAt, dir as real * (m.speed * ChaseFactor * dt))
  }

  /** Wander: once the wander timer has elapsed, pick a random direction and a new delay in
      [800, 2200) ms; then move at the mob's speed. */
  function WanderDrive(m: Mob, dt: real, now: real, draw: WanderDraw): (d: Drive)
    ensures now < m.nextWanderSwitchAt ==> d.dir == m.dir && d.nextWanderSwitchAt == m.nextWanderSwitchAt
    ensures now >= m.nextWanderSwitchAt ==> (d.dir == 1 || d.dir == -1)
    ensures now >= m.nextWanderSwitchAt && 0.0 <= draw.delay < 1.0 ==>
              now + WanderMinMs <= d.nextWanderSwitchAt < now + WanderMaxMs
    ensures d.dx == d.dir as real * (m.speed * dt)
  {
    WanderDelayWithin(draw.delay);
    var dir := if now >= m.nextWanderSwitchAt then (if draw.dir < 0.5 then -1 else 1) else m.dir;
    var next := if now >= m.nextWanderSwitchAt
                then now + WanderMinMs + draw.delay * (WanderMaxMs - WanderMinMs)
                else m.nextWanderSwitchAt;
    Drive(dir, next, dir as real * (m.speed * dt))
  }

  function Steer(m: Mob, playerX: real, f: Footing, dt: real, now: real, draw: WanderDraw): Drive
  {
    if Chasing(m, f, now) then ChaseDrive(m, playerX, dt) else WanderDrive(m, dt, now, draw)
  }

  function Abs(r: real): real { if r < 0.0 then -r else r }

  /** Displacements above this count as moving. */
  const MoveThreshold: real := 0.01

  /** One mob's share of `updateMobs(dt)` at time `now`: dead and hit-frozen mobs are left
      alone; the others chase or wander, are clamped to their platform (or the playfield),
      turn around at a bound, are glued to the platform top, and show `move` or `stand`. */
  function StepMob(m: Mob, plats: seq<Rect>, playerX: real, f: Footing, dt: real, now: real, draw: WanderDraw): (r: Mob)
    requires OnMap(m, plats)
    ensures m.dead || Frozen(m, now) ==> r == m
    ensures r == m.(x := r.x, y := r.y, dir := r.dir, state := r.state, nextWanderSwitchAt := r.nextWanderSwitchAt)
    ensures !m.dead && !Frozen(m, now) ==>
      var d := Steer(m, playerX, f, dt, now, draw);
      var lo, hi := LeftBound(m, plats), RightBound(m, plats);
      && r.y == GluedY(m, plats)
      && r.state == (if Abs(d.dx) > MoveThreshold then Move else Stand)
      && r.nextWanderSwitchAt == d.nextWanderSwitchAt
      && (lo <= hi ==>
            && lo <= r.x <= hi
            && (m.x + d.dx < lo ==> r.x == lo && r.dir == 1)
            && (m.x + d.dx > hi ==> r.x == hi && r.dir == -1)
            && (lo <= m.x + d.dx <= hi ==> r.x == m.x + d.dx && r.dir == d.dir))
    ensures MobOk(m, plats) ==> MobOk(r, plats)
  {
    if m.dead || Frozen(m, now) then m
    else
      var d := Steer(m, playerX, f, dt, now, draw);
      var lo, hi := LeftBound(m, plats), RightBound(m, plats);
      var moved := m.x + d.dx;
      var x1 := if moved < lo then lo else moved;
      var dir1 := if moved < lo then 1 else d.dir;
      var x2 := if x1 > hi then hi else x1;
      var dir2 := if x1 > hi then -1 else dir1;
      m.(x := Clamp(x2, lo, hi), dir := dir2, nextWanderSwitchAt := d.nextWanderSwitchAt,
         y := GluedY(m, plats), state := if Abs(d.dx) > MoveThreshold then Move else Stand)
  }

  /** A mob walking the ground platform (the boss) never chases: the player's footing is
      never that platform, so it wanders even inside its aggro window. */
  lemma GroundPlatformMobNeverChases(m: Mob, playerX: real, f: Footing, dt: real, now: real, draw: WanderDraw)
    requires m.platform == Some(0) && f != OnPlatform(0)
    ensures Steer(m, playerX, f, dt, now, draw) == WanderDrive(m, dt, now, draw)
  {
  }

  /** A roaming mob shares the player's `null` footing: inside its aggro window it chases a
      player standing on the ground plane. */
  lemma RoamingMobChasesGroundedPlayer(m: Mob, playerX: real, dt: real, now: real, draw: WanderDraw)
    requires m.platform.None? && now < m.aggroUntil
    ensures Steer(m, playerX, OnGround, dt, now, draw) == ChaseDrive(m, playerX, dt)
  {
  }

  /** The AI loop of `updateMobs`, one wander draw per mob: every mob takes its step. */
  function StepAll(ms: seq<Mob>, plats: seq<Rect>, playerX: real, f: Footing, dt: real, now: real, draws: seq<WanderDraw>): (r: seq<Mob>)
    requires |draws| == |ms| && forall j :: 0 <= j < |ms| ==> OnMap(ms[j], plats)
    ensures |r| == |ms| && forall j :: 0 <= j < |ms| ==> r[j] == StepMob(ms[j], plats, playerX, f, dt, now, draws[j])
  {
    if ms == [] then []
    else [StepMob(ms[0], plats, playerX, f, dt, now, draws[0])] + StepAll(ms[1..], plats, playerX, f, dt, now, draws[1..])
  }

  // ----- the strike of tryAttack on one mob -----

  const KnockbackPx: real := 5.0
  const AggroMs: real := 2500.0
  /** CONFIG.hitStateMs and CONFIG.dieStateMs. */
  const HitStateMs: real := 250.0
  const DieStateMs: real := 900.0

  /** The damage a strike deals: never more than the mob has left. */
  function StrikeDamage(damage: int, m: Mob): int
  {
    MinInt(damage, m.hp)
  }

  /** One melee hit on a living mob at time `now`: damage without overkill, a 2.5 s aggro
      window, a 5 px knockback in the facing direction clamped to the mob's bounds, then
      death (`die` for 900 ms) at zero HP or the `hit` state for 250 ms. */
  function Strike(m: Mob, damage: int, facing: int, plats: seq<Rect>, now: real): (r: Mob)
    requires OnMap(m, plats) && !m.dead
    ensures r == m.(hp := r.hp, x := r.x, aggroUntil := r.aggroUntil, dead := r.dead, state := r.state, stateUntil := r.stateUntil)
    ensures r.hp >= 0 && (r.dead <==> r.hp == 0)
    ensures 0 <= m.hp && 0 <= damage ==> r.hp == m.hp - StrikeDamage(damage, m) && r.hp <= m.hp
    ensures r.aggroUntil == now + AggroMs
    ensures r.dead ==> r.state == Die && r.stateUntil == now + DieStateMs
    ensures !r.dead ==> r.state == Hit && r.stateUntil == now + HitStateMs
    ensures LeftBound(m, plats) <= RightBound(m, plats) ==> LeftBound(m, plats) <= r.x <= RightBound(m, plats)
    ensures var pushed := if facing == 1 then m.x + KnockbackPx else m.x - KnockbackPx;
      LeftBound(m, plats) <= pushed <= RightBound(m, plats) ==> r.x == pushed
    ensures MobOk(m, plats) && 0 <= damage ==> MobOk(r, plats)
  {
    var hp := m.hp - StrikeDamage(damage, m);
    var pushed := if facing == 1 then m.x + KnockbackPx else m.x - KnockbackPx;
    var x := Max(LeftBound(m, plats), Min(pushed, RightBound(m, plats)));
    var hit := m.(hp := hp, aggroUntil := now + AggroMs, x := x);
    if hp <= 0 then hit.(hp := 0, dead := true, state := Die, stateUntil := now + DieStateMs)
    else hit.(state := Hit, stateUntil := now + HitStateMs)
  }

  // ----- removal -----

  /** A corpse whose death animation has run out. */
  predicate Expired(m: Mob, now: real)
  {
    m.dead && m.state == Die && now >= m.stateUntil
  }

  /** The filter at the end of `updateMobs`: drop exactly the expired corpses, keep the
      rest in order. */
  function Prune(ms: seq<Mob>, now: real): (r: seq<Mob>)
    ensures |r| <= |ms|
    ensures forall m :: m in r <==> m in ms && !Expired(m, now)
  {
    if ms == [] then []
    else if Expired(ms[0], now) then Prune(ms[1..], now)
    else [ms[0]] + Prune(ms[1..], now)
  }

  /** The filter keeps order: pruning a list in two parts is pruning each part in turn. */
  lemma {:induction false} PruneAppend(a: seq<Mob>, b: seq<Mob>, now: real)
    ensures Prune(a + b, now) == Prune(a, now) + Prune(b, now)
    decreases |a|
  {
    if a != [] {
      PruneAppend(a[1..], b, now);
      assert (a + b)[0] == a[0] && (a + b)[1..] == a[1..] + b;
      if !Expired(a[0], now) {
        assert [a[0]] + (Prune(a[1..], now) + Prune(b, now)) == ([a[0]] + Prune(a[1..], now)) + Prune(b, now);
      }
    } else {
      assert a + b == b;
    }
  }

  /** A mob that counts against the spawn caps: neither dead nor dying. */
  predicate Alive(m: Mob)
  {
    !m.dead && m.state != Die
  }

  /** `mobs.filter(m => !m.dead && m.state !== "die").length`. */
  function AliveCount(ms: seq<Mob>): (n: nat)
    ensures n <= |ms|
  {
    if ms == [] then 0
    else AliveCount(ms[..|ms| - 1]) + (if Alive(ms[|ms| - 1]) then 1 else 0)
  }

  /** The count read from the front: the first mob's share, then the rest's. */
  lemma {:induction false} AliveCountCons(m: Mob, ms: seq<Mob>)
    ensures AliveCount([m] + ms) == (if Alive(m) then 1 else 0) + AliveCount(ms)
    decreases |ms|
  {
    if ms != [] {
      var init := ms[..|ms| - 1];
      AliveCountCons(m, init);
      assert ([m] + ms)[..|ms|] == [m] + init;
    }
  }

  /** Removing the finished corpses never changes how many mobs count as alive: every
      corpse removed is dead. */
  lemma {:induction false} PruneKeepsAlive(ms: seq<Mob>, now: real)
    ensures AliveCount(Prune(ms, now)) == AliveCount(ms)
    decreases |ms|
  {
    if ms != [] {
      PruneKeepsAlive(ms[1..], now);
      assert ms == [ms[0]] + ms[1..];
      AliveCountCons(ms[0], ms[1..]);
      if !Expired(ms[0], now) {
        AliveCountCons(ms[0], Prune(ms[1..], now));
      }
    }
  }

  /** The AI step never brings a mob to life nor kills one: on well-formed mobs the
      number that count against the spawn caps is unchanged. */
  lemma {:induction false} StepAllKeepsAlive(ms: seq<Mob>, plats: seq<Rect>, playerX: real, f: Footing,
                                             dt: real, now: real, draws: seq<WanderDraw>)
    requires |draws| == |ms| && forall j :: 0 <= j < |ms| ==> OnMap(ms[j], plats) && MobOk(ms[j], plats)
    ensures AliveCount(StepAll(ms, plats, playerX, f, dt, now, draws)) == AliveCount(ms)
    decreases |ms|
  {
    if ms != [] {
      StepAllKeepsAlive(ms[1..], plats, playerX, f, dt, now, draws[1..]);
      assert ms == [ms[0]] + ms[1..];
      AliveCountCons(ms[0], ms[1..]);
      var r := StepAll(ms, plats, playerX, f, dt, now, draws);
      assert r == [r[0]] + StepAll(ms[1..], plats, playerX, f, dt, now, draws[1..]);
      AliveCountCons(r[0], StepAll(ms[1..], plats, playerX, f, dt, now, draws[1..]));
      assert MobOk(ms[0], plats);
    }
  }
}
