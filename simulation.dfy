/** The game state as a whole and the rules that change it on each frame or input intent:
    buying, attacking, kills and quest completion, the mob, damage-number and coin updates,
    touch damage, spawning, the first batch of mobs of a quest and the frame loop
    (game/game.js:281-294, 482-537, 817-1013, 1062-1087, 1179-1272, 1529-1541, 1625-1660). */
module Simulation {
  import opened Options
  import opened Geometry
  import opened Progression
  import opened Economy
  import opened Quests
  import opened Mobs
  import opened Combat
  import opened Players

  /** CONFIG.spawnIntervalMs, CONFIG.spawnMaxOnScreen, and the cap of one on a boss quest. */
  const SpawnIntervalMs: real := 900.0
  const SpawnMax: nat := 6
  const BossSpawnMax: nat := 1
  /** A frame advances the simulation by at most 33 ms. */
  const MaxFrameSeconds: real := 0.033

  /** A boss quest is one whose id starts with "qBoss". */
  predicate IsBossQuest(id: string)
  {
    |id| >= 5 && id[..5] == "qBoss"
  }

  /** The alive-mob cap of the spawner: one on a boss quest, six otherwise. */
  function SpawnCap(active: Option<string>): nat
  {
    if active.Some? && IsBossQuest(active.value) then BossSpawnMax else SpawnMax
  }

  /** A mob the player's sprite box counts as touching: alive, and overlapping it. */
  predicate Toucher(box: Rect, m: Mob)
  {
    !m.dead && Touches(box, m)
  }

  /** The first mob from index `from` on that touches `box`. */
  function FirstToucher(ms: seq<Mob>, box: Rect, from: nat): (r: Option<nat>)
    ensures r.Some? ==> from <= r.value < |ms| && Toucher(box, ms[r.value])
    ensures r.Some? ==> forall j :: from <= j < r.value ==> !Toucher(box, ms[j])
    ensures r.None? ==> forall j :: from <= j < |ms| ==> !Toucher(box, ms[j])
    decreases |ms| - from
  {
    if from >= |ms| then None
    else if Toucher(box, ms[from]) then Some(from)
    else FirstToucher(ms, box, from + 1)
  }

  /** A whole swing on the round `r`, with the kills list left empty (it is a record of the
      swing, not game state). */
  function SwingRound(r: Round, sw: Swing, plats: seq<Rect>, draws: seq<MesoDraw>, index: QuestIndex): Round
    requires |r.arena.mobs| <= |draws| && ArenaOk(r.arena, plats) && sw.damage >= 0
    requires r.stats.expToNext > 0 && LogOk(index, r.log)
  {
    var x := SwingAndCredit(r.arena, r.stats, r.log, |r.arena.mobs|, sw, plats, draws, index);
    x.(arena := x.arena.(kills := []))
  }

  /** A boss quest is active: the spawner works on the ground platform with a cap of one. */
  predicate BossActive(active: Option<string>)
  {
    active.Some? && IsBossQuest(active.value)
  }

  /** The `Math.random()` draws of one spawn: which floating platform, where along the
      platform, then the two of `spawnMob` (facing, first wander delay). */
  datatype SpawnDraw = SpawnDraw(place: real, pos: real, dir: real, delay: real)

  /** Where a new mob goes: the index of its platform and its x. */
  datatype Site = Site(platform: nat, x: real)

  /** `Math.floor(u * n)` for a draw `u` of `Math.random()`: an index below `n`, and the
      index `k` is drawn exactly when `u` lies in [k/n, (k+1)/n). */
  function PickIndex(n: nat, u: real): (k: nat)
    requires n >= 1 && UnitDraw(u)
    ensures k < n && k as real <= u * n as real < k as real + 1.0
  {
    ScaledBelow(u, n as real);
    FloorWithin(u * n as real, 0, n);
    (u * n as real).Floor
  }

  /** `Math.random() * span`: a draw in [0, 1) puts it inside a non-negative span. */
  function Scaled(u: real, span: real): (r: real)
    ensures UnitDraw(u) && span >= 0.0 ==> 0.0 <= r <= span
  {
    if UnitDraw(u) && span > 0.0 then
      ScaledBelow(u, span);
      u * span
    else u * span
  }

  /** Where `spawnLogic` puts a new mob: on a boss quest, on the ground platform (index 0),
      at least 100 px in from either end of it; otherwise on one of the floating platforms
      (index 1 on), from 10 px in from its left end to 70 px short of its right end. */
  function SpawnSite(plats: seq<Rect>, boss: bool, d: SpawnDraw): (r: Site)
    requires |plats| >= 2 && UnitDraw(d.place)
    ensures r.platform < |plats| && (boss <==> r.platform == 0)
    ensures boss && UnitDraw(d.pos) && plats[0].w >= 200.0 ==>
              plats[0].x + 100.0 <= r.x <= plats[0].x + plats[0].w - 100.0
    ensures !boss && UnitDraw(d.pos) && plats[r.platform].w >= 80.0 ==>
              plats[r.platform].x + 10.0 <= r.x <= plats[r.platform].x + plats[r.platform].w - 70.0
  {
    if boss then Site(0, plats[0].x + 100.0 + Scaled(d.pos, plats[0].w - 200.0))
    else
      var k := 1 + PickIndex(|plats| - 1, d.place);
      Site(k, plats[k].x + 10.0 + Scaled(d.pos, plats[k].w - 80.0))
  }

  /** The `spawnMob` call of `spawnLogic` for species `id`: the mob, or why it throws. */
  function SpawnAt(registry: StatsRegistry, stage: Stage, boss: bool, id: int, now: real, d: SpawnDraw): Result<Mob, SpawnError>
    requires |stage.platforms| >= 2 && UnitDraw(d.place)
  {
    var site := SpawnSite(stage.platforms, boss, d);
    SpawnMob(registry, id, site.x, Some(site.platform), stage, now, d.dir, d.delay)
  }

  /** The time step of a frame at `t` whose predecessor ran at `last` (milliseconds): the
      elapsed time in seconds, capped at 33 ms. */
  function FrameSeconds(t: real, last: real): (dt: real)
    ensures dt <= MaxFrameSeconds
    ensures t - last <= 33.0 ==> dt == (t - last) / 1000.0
    ensures t - last >= 33.0 ==> dt == MaxFrameSeconds
  {
    Min(MaxFrameSeconds, (t - last) / 1000.0)
  }

  /** The player's HP and the time it was last hurt by a touch (milliseconds). */
  datatype Vitals = Vitals(hp: int, lastHurtAt: real)

  /** Touch damage at time `now` among the mobs `ms`, for a player whose sprite box is `box`:
      with HP left and the last hurt 500 ms old, the first living mob the box overlaps hurts
      by its species' damage, floored at zero HP, and restarts the hurt clock; otherwise
      nothing changes. HP never rises, and never drops below zero from a non-negative value. */
  function Touched(registry: StatsRegistry, ms: seq<Mob>, box: Rect, v: Vitals, now: real): (r: Vitals)
    ensures r.hp <= v.hp && (v.hp >= 0 ==> r.hp >= 0)
    ensures r != v ==> v.hp > 0 && now - v.lastHurtAt >= TouchCooldownMs && r.lastHurtAt == now
    ensures r != v ==> FirstToucher(ms, box, 0).Some?
    ensures v.hp > 0 && now - v.lastHurtAt >= TouchCooldownMs && FirstToucher(ms, box, 0).Some? ==>
              var dmg := MobDamage(registry, ms[FirstToucher(ms, box, 0).value].id);
              r.lastHurtAt == now && r.hp == (if v.hp >= dmg then v.hp - dmg else 0)
  {
    var hit := FirstToucher(ms, box, 0);
    if v.hp <= 0 || hit.None? || now - v.lastHurtAt < TouchCooldownMs then v
    else
      var dmg := MobDamage(registry, ms[hit.value].id);
      Vitals(if v.hp >= dmg then v.hp - dmg else 0, now)
  }

  /** Only the first toucher counts: mobs after it, or appended behind a list that already
      holds one, change nothing. */
  lemma {:induction false} TouchedIgnoresLaterMobs(registry: StatsRegistry, ms: seq<Mob>, rest: seq<Mob>, box: Rect, v: Vitals, now: real)
    requires FirstToucher(ms, box, 0).Some?
    ensures Touched(registry, ms + rest, box, v, now) == Touched(registry, ms, box, v, now)
  {
    FirstToucherAppend(ms, rest, box, 0);
  }

  /** The search for a toucher, in a list that already holds one, ignores what is appended. */
  lemma {:induction false} FirstToucherAppend(ms: seq<Mob>, rest: seq<Mob>, box: Rect, from: nat)
    requires FirstToucher(ms, box, from).Some?
    ensures FirstToucher(ms + rest, box, from) == FirstToucher(ms, box, from)
    decreases |ms| - from
  {
    assert (ms + rest)[from] == ms[from];
    if !Toucher(box, ms[from]) {
      FirstToucherAppend(ms, rest, box, from + 1);
    }
  }

  /** The spawner's part of the game: the mobs, the spawn clock, and why `spawnMob` threw. */
  datatype SpawnOutcome = SpawnOutcome(mobs: seq<Mob>, lastSpawnAt: real, failed: Option<SpawnError>)

  /** `spawnLogic()` at time `now` from the mobs `ms` and the spawn clock `last`, with the
      quest's target species `targets` and the draws `d`: with nothing to hunt, or within
      900 ms of the last spawn, nothing changes; otherwise the clock restarts and, below the
      alive cap, one mob of the first target species is appended where `SpawnSite` puts it,
      or `spawnMob` throws and no mob is added. */
  function Spawned(registry: StatsRegistry, stage: Stage, active: Option<string>, targets: seq<int>,
                   ms: seq<Mob>, last: real, now: real, d: SpawnDraw): (r: SpawnOutcome)
    requires |stage.platforms| >= 2 && UnitDraw(d.place)
    ensures AliveCount(r.mobs) <= if AliveCount(ms) >= SpawnCap(active) then AliveCount(ms) else SpawnCap(active)
    ensures |ms| <= |r.mobs| <= |ms| + 1 && r.mobs[..|ms|] == ms
    ensures |r.mobs| > |ms| ==>
              && targets != [] && r.failed.None? && r.lastSpawnAt == now && now - last >= SpawnIntervalMs
              && r.mobs[|ms|].id == targets[0] && MobOk(r.mobs[|ms|], stage.platforms)
    ensures r.failed.Some? ==> targets != [] && r.mobs == ms && r.lastSpawnAt == now && r.failed == Some(MissingStats(targets[0]))
    ensures targets == [] || now - last < SpawnIntervalMs ==> r == SpawnOutcome(ms, last, None)
  {
    if targets == [] || now - last < SpawnIntervalMs then SpawnOutcome(ms, last, None)
    else if AliveCount(ms) >= SpawnCap(active) then SpawnOutcome(ms, now, None)
    else
      match SpawnAt(registry, stage, BossActive(active), targets[0], now, d)
      case Success(m) =>
        assert (ms + [m])[..|ms|] == ms;
        SpawnOutcome(ms + [m], now, None)
      case Failure(e) => SpawnOutcome(ms, now, Some(e))
  }

  /** Over a whole frame the spawner still keeps to its cap measured against the mobs the
      frame started with: the AI step and the removal of corpses leave the alive count as it
      was. */
  lemma FrameKeepsCap(registry: StatsRegistry, stage: Stage, active: Option<string>, targets: seq<int>,
                      ms0: seq<Mob>, playerX: real, f: Footing, dt: real, t: real, wander: seq<WanderDraw>,
                      last: real, d: SpawnDraw)
    requires |stage.platforms| >= 2 && UnitDraw(d.place) && |wander| == |ms0|
    requires forall j :: 0 <= j < |ms0| ==> OnMap(ms0[j], stage.platforms) && MobOk(ms0[j], stage.platforms)
    ensures var ms := Prune(StepAll(ms0, stage.platforms, playerX, f, dt, t, wander), t);
      AliveCount(Spawned(registry, stage, active, targets, ms, last, t, d).mobs)
      <= if AliveCount(ms0) >= SpawnCap(active) then AliveCount(ms0) else SpawnCap(active)
  {
    var stepped := StepAll(ms0, stage.platforms, playerX, f, dt, t, wander);
    StepAllKeepsAlive(ms0, stage.platforms, playerX, f, dt, t, wander);
    PruneKeepsAlive(stepped, t);
    var ms := Prune(stepped, t);
    assert AliveCount(ms) == AliveCount(ms0);
    var r := Spawned(registry, stage, active, targets, ms, last, t, d);
    assert AliveCount(r.mobs) <= if AliveCount(ms) >= SpawnCap(active) then AliveCount(ms) else SpawnCap(active);
  }

  /** How many mobs the first batch of a quest holds: the boss alone, or ten on the
      floating platforms and three roaming. */
  function BatchSize(boss: bool): nat
  {
    if boss then 1 else 13
  }

  /** The `spawnMob` call for mob `i` of the first batch of species `id`, with the draws
      `d` (`place` unused). On a boss quest the mob stands on the ground platform (index 0)
      at least 100 px in from either end; otherwise the first ten go round-robin over the
      floating platforms (index 1 on), from 30 px in to 60 px short of the right end, and
      the rest roam the ground from 30 px in from either edge of the view, which is
      `viewWidth` wide (the canvas, not the 960 px world). */
  function BatchMob(registry: StatsRegistry, stage: Stage, boss: bool, id: int, i: nat, now: real,
                    viewWidth: real, d: SpawnDraw): (r: Result<Mob, SpawnError>)
    requires |stage.platforms| >= 2
    ensures r.Failure? <==> id !in registry
    ensures r.Failure? ==> r.error == MissingStats(id)
    ensures r.Success? ==>
      var m := r.value;
      var plats := stage.platforms;
      && MobOk(m, plats) && Alive(m) && m.id == id && m.hp == MobMaxHP(registry, id)
      && (boss ==> m.platform == Some(0))
      && (!boss && i < 10 ==> m.platform == Some(1 + i % (|plats| - 1)))
      && (!boss && i >= 10 ==> m.platform.None?)
      && (UnitDraw(d.pos) && boss && plats[0].w >= 200.0 ==>
            plats[0].x + 100.0 <= m.x <= plats[0].x + plats[0].w - 100.0)
      && (UnitDraw(d.pos) && m.platform.Some? && !boss && plats[m.platform.value].w >= 90.0 ==>
            plats[m.platform.value].x + 30.0 <= m.x <= plats[m.platform.value].x + plats[m.platform.value].w - 60.0)
      && (UnitDraw(d.pos) && m.platform.None? && viewWidth >= 60.0 ==> 30.0 <= m.x <= viewWidth - 30.0)
  {
    var plats := stage.platforms;
    if boss then
      SpawnMob(registry, id, plats[0].x + 100.0 + Scaled(d.pos, plats[0].w - 200.0), Some(0), stage, now, d.dir, d.delay)
    else if i < 10 then
      var k := 1 + i % (|plats| - 1);
      SpawnMob(registry, id, plats[k].x + 30.0 + Scaled(d.pos, plats[k].w - 90.0), Some(k), stage, now, d.dir, d.delay)
    else
      SpawnMob(registry, id, 30.0 + Scaled(d.pos, viewWidth - 60.0), None, stage, now, d.dir, d.delay)
  }

  /** The first `n` mobs of the batch, spawned in order with the draws `draws[..n]`: every
      one is the `BatchMob` of its position and alive, or, when the species has no stats,
      the first `spawnMob` throws. */
  function Batch(registry: StatsRegistry, stage: Stage, boss: bool, id: int, now: real, viewWidth: real,
                 draws: seq<SpawnDraw>, n: nat): (r: Result<seq<Mob>, SpawnError>)
    requires |stage.platforms| >= 2 && n <= |draws|
    ensures r.Failure? <==> n > 0 && id !in registry
    ensures r.Failure? ==> r.error == MissingStats(id)
    ensures r.Success? ==> |r.value| == n && AliveCount(r.value) == n
    ensures r.Success? ==> forall j :: 0 <= j < n ==>
              BatchMob(registry, stage, boss, id, j, now, viewWidth, draws[j]) == Success(r.value[j])
    decreases n
  {
    if n == 0 then Success([])
    else
      match Batch(registry, stage, boss, id, now, viewWidth, draws, n - 1)
      case Failure(e) => Failure(e)
      case Success(ms) =>
        match BatchMob(registry, stage, boss, id, n - 1, now, viewWidth, draws[n - 1])
        case Failure(e) => Failure(e)
        case Success(m) =>
          var r := ms + [m];
          assert r[..n - 1] == ms && r[n - 1] == m;
          assert forall j :: 0 <= j < n - 1 ==> r[j] == ms[j];
          Success(r)
  }

  /** The spawning half of `refreshNeededAssets()` at time `now`, for the quest's target
      species `targets`: the mobs are cleared and the spawn clock reset; with a target, a
      first batch of `targets[0]` takes their place, or the first `spawnMob` throws, leaving
      no mobs, when that species has no stats. */
  function Refreshed(registry: StatsRegistry, stage: Stage, active: Option<string>, targets: seq<int>,
                     now: real, viewWidth: real, draws: seq<SpawnDraw>): (r: SpawnOutcome)
    requires |stage.platforms| >= 2 && BatchSize(BossActive(active)) <= |draws|
    ensures r.lastSpawnAt == 0.0
    ensures r.failed.Some? <==> targets != [] && targets[0] !in registry
    ensures r.failed.Some? ==> r.mobs == [] && r.failed == Some(MissingStats(targets[0]))
    ensures r.failed.None? ==>
              && |r.mobs| == (if targets == [] then 0 else BatchSize(BossActive(active)))
              && AliveCount(r.mobs) == |r.mobs|
              && forall j :: 0 <= j < |r.mobs| ==> MobOk(r.mobs[j], stage.platforms) && r.mobs[j].id == targets[0]
  {
    if targets == [] then SpawnOutcome([], 0.0, None)
    else
      var boss := BossActive(active);
      match Batch(registry, stage, boss, targets[0], now, viewWidth, draws, BatchSize(boss))
      case Success(ms) =>
        assert forall j :: 0 <= j < |ms| ==> BatchMob(registry, stage, boss, targets[0], j, now, viewWidth, draws[j]) == Success(ms[j]);
        SpawnOutcome(ms, 0.0, None)
      case Failure(e) => SpawnOutcome([], 0.0, Some(e))
  }

  /** A fresh batch already holds as many living mobs as the spawner allows (one boss, or
      thirteen against a cap of six), so the spawner adds nothing until enough of them die. */
  lemma FirstBatchFillsCap(registry: StatsRegistry, stage: Stage, active: Option<string>, targets: seq<int>,
                           now: real, viewWidth: real, draws: seq<SpawnDraw>, later: real, d: SpawnDraw)
    requires |stage.platforms| >= 2 && BatchSize(BossActive(active)) <= |draws| && UnitDraw(d.place)
    requires targets != [] && Refreshed(registry, stage, active, targets, now, viewWidth, draws).failed.None?
    ensures var r := Refreshed(registry, stage, active, targets, now, viewWidth, draws);
      && AliveCount(r.mobs) >= SpawnCap(active)
      && Spawned(registry, stage, active, targets, r.mobs, r.lastSpawnAt, later, d).mobs == r.mobs
  {
  }

  /** The sprite box `intersects(player, m)` uses: the full 50 by 70 sprite, not the hitbox. */
  function SpriteBox(x: real, y: real): Rect { Rect(x, y, PlayerW, PlayerH) }

  /** Why `boot` stops: the start quest is not in the quest index, the map has no fourth
      platform to place the player on, or the start quest's species has no stats, so the
      first `spawnMob` of its batch throws. */
  datatype BootError = UnknownStartQuest(id: string) | TooFewPlatforms | MissingMobStats(mobId: int)

  /** The running game: the player, the current map and whether it is a boss map, the
      loaded mob stats and quest index, the quest state, the mobs, damage numbers and coins
      in the world, the player's purse, and the spawn and frame clocks (milliseconds). */
  class Game {
    const player: Player
    const stage: Stage
    const bossMap: bool
    const registry: StatsRegistry
    const index: QuestIndex
    /** The catalogue the shop sells from (POTIONS). */
    const shop: seq<Potion>

    var active: Option<string>
    var completed: set<string>
    var progress: Progress

    var mobs: seq<Mob>
    var damageTexts: seq<DamageText>
    var mesos: seq<Meso>

    var playerMesos: int
    var inv: map<string, int>

    var lastSpawnAt: real
    var lastFrameAt: real

    /** `questState` as one record. */
    function Log(): QuestLog
      reads this`active, this`completed, this`progress
    {
      QuestLog(active, completed, progress)
    }

    /** What a swing acts on: the mobs, damage numbers and coins, the player's stats and the
        quest log. */
    function Scene(): Round
      reads this`mobs, this`damageTexts, this`mesos, this`active, this`completed, this`progress
      reads player`exp, player`level, player`expToNext, player`statPoints, player`str, player`vit
      reads player`damage, player`maxHP, player`hp
    {
      Round(Arena(mobs, damageTexts, mesos, []), player.Snapshot(), Log())
    }

    /** `playerMesos` and `inv` as one record. */
    function Wallet(): Purse
      reads this`playerMesos, this`inv
    {
      Purse(playerMesos, inv)
    }

    /** The player is consistent and never stands on the ground platform (index 0, the
        boss's): the collision pass only lands on platforms from index 1 on. */
    predicate PlayerOk()
      reads player
    {
      && player.Valid()
      && (player.footing.OnPlatform? ==> 1 <= player.footing.index < |stage.platforms|)
    }

    /** The active quest, if any, is a quest of the index. */
    predicate QuestOk()
      reads this`active
    {
      active.Some? ==> active.value in index
    }

    /** Every potion of the shop has a count, and the mesos are not negative. */
    predicate PurseOk()
      reads this`playerMesos, this`inv
    {
      Stocked(shop, inv) && playerMesos >= 0
    }

    /** Every mob is well formed. */
    predicate MobsOk()
      reads this`mobs
    {
      forall j :: 0 <= j < |mobs| ==> MobOk(mobs[j], stage.platforms)
    }

    /** Every coin on the floor has a non-negative value. */
    predicate CoinsOk()
      reads this`mesos
    {
      forall j :: 0 <= j < |mesos| ==> mesos[j].value >= 0
    }

    /** What every rule keeps: the parts above, on a map with at least four platforms. */
    predicate Valid()
      reads this`active, this`playerMesos, this`inv, this`mobs, this`mesos, player
    {
      |stage.platforms| >= 4 && PlayerOk() && QuestOk() && PurseOk() && MobsOk() && CoinsOk()
    }

    /** The state `boot` reaches on a map with at least four platforms and a known start
        quest, just before `refreshNeededAssets` (see `RefreshMobs`): a fresh player with its
        feet on the top of the fourth platform (index 3), grounded but with the footing of
        the ground, the start quest active with no progress, no mobs, numbers or coins, an
        empty purse. */
    constructor (stage: Stage, bossMap: bool, registry: StatsRegistry, index: QuestIndex, start: string, now: real)
      requires start in index && |stage.platforms| >= 4
      ensures Valid() && fresh(player)
      ensures this.stage == stage && this.bossMap == bossMap && this.registry == registry && this.index == index
      ensures Log() == QuestLog(Some(start), {}, map[])
      ensures mobs == [] && damageTexts == [] && mesos == []
      ensures shop == Potions && playerMesos == 0 && forall i :: 0 <= i < |shop| ==> inv[shop[i].id] == 0
      ensures player.Snapshot() == Stats(0, 1, 30, 0, 0, 0, BaseDamage, BaseMaxHP, BaseMaxHP)
      ensures Feet(player.y) == stage.platforms[3].y && player.vy == 0.0
      ensures player.onGround && player.footing == OnGround
      ensures lastFrameAt == now
    {
      this.stage, this.bossMap, this.registry, this.index := stage, bossMap, registry, index;
      shop := Potions;
      player := new Player();
      active, completed, progress := Some(start), {}, map[];
      mobs, damageTexts, mesos := [], [], [];
      playerMesos := 0;
      inv := EmptyInventory();
      lastSpawnAt, lastFrameAt := 0.0, now;
      new;
      player.y := stage.platforms[3].y - HitboxOffsetY - HitboxH;
      player.vy := 0.0;
      player.onGround := true;
    }

    /** The spawning half of `refreshNeededAssets()` at time `now` (see `Refreshed`), on a
        view `viewWidth` wide, with the draws of each mob of the batch. */
    method RefreshMobs(now: real, viewWidth: real, draws: seq<SpawnDraw>) returns (failed: Option<SpawnError>)
      requires Valid() && BatchSize(BossActive(active)) <= |draws|
      modifies this`mobs, this`lastSpawnAt
      ensures Valid()
      ensures SpawnOutcome(mobs, lastSpawnAt, failed)
              == Refreshed(registry, stage, active, QuestTargetMobIds(index, Log()), now, viewWidth, draws)
    {
      mobs := [];
      lastSpawnAt := 0.0;
      var targets := QuestTargetMobIds(index, Log());
      if targets == [] {
        return None;
      }
      failed := SpawnBatch(targets[0], BossActive(active), now, viewWidth, draws);
    }

    /** The batch of species `id` pushed onto the empty mob list: on a boss quest one mob,
        otherwise the ten platform mobs, then the three roaming ones. The first `spawnMob`
        that throws ends it. */
    method SpawnBatch(id: int, boss: bool, now: real, viewWidth: real, draws: seq<SpawnDraw>)
      returns (failed: Option<SpawnError>)
      requires |stage.platforms| >= 2 && mobs == [] && BatchSize(boss) <= |draws|
      modifies this`mobs
      ensures MobsOk()
      ensures failed.None? ==> Batch(registry, stage, boss, id, now, viewWidth, draws, BatchSize(boss)) == Success(mobs)
      ensures failed.Some? ==> Batch(registry, stage, boss, id, now, viewWidth, draws, BatchSize(boss)) == Failure(failed.value)
      ensures failed.Some? ==> mobs == []
    {
      if boss {
        var spawned := BatchMob(registry, stage, true, id, 0, now, viewWidth, draws[0]);
        if spawned.Failure? {
          return Some(spawned.error);
        }
        mobs := [spawned.value];
        assert Batch(registry, stage, true, id, now, viewWidth, draws, 0) == Success([]);
        return None;
      }
      failed := SpawnOnPlatforms(id, now, viewWidth, draws);
      if failed.None? {
        SpawnRoaming(id, now, viewWidth, draws);
      }
    }

    /** The first loop of the batch: ten mobs round-robin over the floating platforms,
        pushed onto the empty mob list; the first `spawnMob` that throws ends it. */
    method SpawnOnPlatforms(id: int, now: real, viewWidth: real, draws: seq<SpawnDraw>)
      returns (failed: Option<SpawnError>)
      requires |stage.platforms| >= 2 && mobs == [] && BatchSize(false) <= |draws|
      modifies this`mobs
      ensures MobsOk()
      ensures failed.None? ==> Batch(registry, stage, false, id, now, viewWidth, draws, 10) == Success(mobs)
      ensures failed.Some? ==> failed == Some(MissingStats(id)) && id !in registry && mobs == []
    {
      var i := 0;
      while i < 10
        invariant 0 <= i <= 10 && MobsOk()
        invariant Batch(registry, stage, false, id, now, viewWidth, draws, i) == Success(mobs)
      {
        var spawned := BatchMob(registry, stage, false, id, i, now, viewWidth, draws[i]);
        if spawned.Failure? {
          assert i == 0;
          return Some(spawned.error);
        }
        mobs := mobs + [spawned.value];
        i := i + 1;
      }
      return None;
    }

    /** The second loop of the batch: the three roaming mobs, counted on from the ten
        platform mobs already pushed. Their species has stats by now, so no `spawnMob`
        here throws. */
    method SpawnRoaming(id: int, now: real, viewWidth: real, draws: seq<SpawnDraw>)
      requires |stage.platforms| >= 2 && BatchSize(false) <= |draws| && MobsOk()
      requires Batch(registry, stage, false, id, now, viewWidth, draws, 10) == Success(mobs)
      modifies this`mobs
      ensures MobsOk()
      ensures Batch(registry, stage, false, id, now, viewWidth, draws, 13) == Success(mobs)
    {
      var i := 10;
      while i < 13
        invariant 10 <= i <= 13 && MobsOk()
        invariant Batch(registry, stage, false, id, now, viewWidth, draws, i) == Success(mobs)
      {
        var spawned := BatchMob(registry, stage, false, id, i, now, viewWidth, draws[i]);
        if spawned.Failure? {
          assert false;
        }
        mobs := mobs + [spawned.value];
        i := i + 1;
      }
    }

    /** `boot` on loaded data, at time `now`, on a view `viewWidth` wide, with the draws of
        the first batch: it fails when the start quest is not in the index, when the map
        has no fourth platform for the player, or when the first `spawnMob` of the start
        quest's batch throws; otherwise the game is the constructor's, with that batch. */
    static method Boot(stage: Stage, bossMap: bool, registry: StatsRegistry, index: QuestIndex, start: string,
                       now: real, viewWidth: real, draws: seq<SpawnDraw>)
      returns (r: Result<Game, BootError>)
      requires BatchSize(false) <= |draws|
      ensures var targets := if start in index then KillTargets(index[start].requirements) else [];
        r.Failure? <==> start !in index || |stage.platforms| < 4 || (targets != [] && targets[0] !in registry)
      ensures r.Failure? && start !in index ==> r.error == UnknownStartQuest(start)
      ensures r.Failure? && start in index && |stage.platforms| >= 4 ==> r.error.MissingMobStats?
      ensures r.Success? ==>
        && fresh(r.value) && r.value.Valid() && r.value.Log() == QuestLog(Some(start), {}, map[])
        && SpawnOutcome(r.value.mobs, r.value.lastSpawnAt, None)
           == Refreshed(registry, stage, Some(start), KillTargets(index[start].requirements), now, viewWidth, draws)
    {
      if start !in index {
        return Failure(UnknownStartQuest(start));
      }
      if |stage.platforms| < 4 {
        return Failure(TooFewPlatforms);
      }
      var g := new Game(stage, bossMap, registry, index, start, now);
      var failed := g.RefreshMobs(now, viewWidth, draws);
      if failed.Some? {
        return Failure(MissingMobStats(failed.value.mobId));
      }
      return Success(g);
    }

    /** `buyPotion(id)`, all or nothing (see `Purchase`). */
    method BuyPotion(id: string)
      requires PurseOk()
      modifies this`playerMesos, this`inv
      ensures PurseOk()
      ensures Wallet() == Purchase(shop, old(Wallet()), id)
    {
      var found := FindPotion(shop, id);
      if found.None? {
        return;
      }
      var p := found.value;
      if playerMesos < p.price {
        return;
      }
      ghost var before := Wallet();
      playerMesos := playerMesos - p.price;
      inv := inv[id := inv[id] + 1];
      assert Wallet() == Purchase(shop, before, id) by {
        assert FindPotion(shop, id) == Some(p);
      }
      assert PurseOk() by {
        assert Stocked(shop, Purchase(shop, before, id).inv);
      }
    }

    /** The synchronous part of `completeQuest(q)`: the quest is marked done, its reward
        is added straight to the player's experience, and the chain moves on (see
        `Complete`). */
    method CompleteQuest(q: Quest)
      requires PlayerOk()
      modifies this`active, this`completed, this`progress, player`exp
      ensures PlayerOk() && QuestOk()
      ensures Log() == Complete(index, old(Log()), q)
      ensures player.Snapshot() == old(player.Snapshot()).(exp := old(player.exp) + Reward(q))
    {
      completed := completed + {q.id};
      if q.rewardExp.Some? {
        player.exp := player.exp + q.rewardExp.value;
      }
      var next := if |q.unlocks| > 0 then q.unlocks[0] else "";
      if next != "" && next in index {
        active := Some(next);
        progress := map[];
      } else {
        active := None;
      }
    }

    /** `onMobKilled(mobId)`: with an active quest, every kill requirement naming the mob
        bumps its count, and a quest that is then complete is completed. */
    method OnMobKilled(mobId: int)
      requires PlayerOk() && QuestOk()
      modifies this`active, this`completed, this`progress, player`exp
      ensures PlayerOk() && QuestOk()
      ensures (player.Snapshot(), Log()) == NoteKill(index, old(player.Snapshot()), old(Log()), mobId)
    {
      if active.None? {
        return;
      }
      var q := index[active.value];
      TallyKill(q.requirements, mobId);
      if IsQuestCompleted(q.requirements, progress) {
        CompleteQuest(q);
      }
    }

    /** The counting loop of `onMobKilled`: each kill requirement of `reqs` naming the mob,
        in order, adds one to its count. */
    method TallyKill(reqs: seq<Requirement>, mobId: int)
      modifies this`progress
      ensures progress == CountKill(reqs, old(progress), mobId)
    {
      var i := 0;
      while i < |reqs|
        invariant 0 <= i <= |reqs|
        invariant progress == CountKill(reqs[..i], old(progress), mobId)
      {
        assert reqs[..i + 1][..i] == reqs[..i];
        if reqs[i].Kill? && reqs[i].mobId == mobId {
          progress := progress[KillKey(mobId) := Count(progress, mobId) + 1];
        }
        i := i + 1;
      }
      assert reqs[..i] == reqs;
    }

    /** Where `updatePlayer(dt)` leaves a player who stood at `x0`, `y0`, falling at `vy0`
        and facing `facing0`, with the arrow keys `left` and `right`: the speed and facing
        the keys give (right wins), the move clamped to the playfield, and the landing
        `Settle` gives for the fall, grounded exactly when not airborne. */
    predicate Walked(x0: real, y0: real, vy0: real, facing0: int, dt: real, left: bool, right: bool)
      reads player`x, player`y, player`vx, player`vy, player`facing, player`footing, player`onGround
    {
      && player.vx == (if right then PlayerSpeed else if left then -PlayerSpeed else 0.0)
      && player.facing == (if right then 1 else if left then -1 else facing0)
      && player.x == Clamp(Moved(x0, player.vx, dt), 0.0, WorldWidth - PlayerW)
      && Landing(player.y, player.vy, player.footing) == Settle(stage, player.x, FallTo(y0, vy0, dt), FallSpeed(vy0, dt), y0)
      && player.onGround == !player.footing.Airborne?
    }

    /** `updatePlayer(dt)` on the current map (see `Player.Update`): the player stays
        consistent and off the ground platform. */
    method UpdatePlayer(dt: real, left: bool, right: bool)
      requires Valid()
      modifies player`x, player`y, player`vx, player`vy, player`facing, player`onGround, player`footing
      ensures Valid()
      ensures Walked(old(player.x), old(player.y), old(player.vy), old(player.facing), dt, left, right)
    {
      player.Update(dt, left, right, stage);
    }

    /** `updateMobs(dt)` at time `now`, with one wander draw per mob: every mob takes its AI
        step in place against the player's position and footing (see `StepMob`), then the
        finished corpses are filtered out. */
    method UpdateMobs(dt: real, now: real, draws: seq<WanderDraw>)
      requires Valid() && |draws| == |mobs|
      modifies this`mobs
      ensures Valid()
      ensures mobs == Prune(StepAll(old(mobs), stage.platforms, player.x, player.footing, dt, now, draws), now)
      ensures AliveCount(mobs) == AliveCount(old(mobs))
    {
      ghost var ms0 := mobs;
      assert forall j :: 0 <= j < |ms0| ==> OnMap(ms0[j], stage.platforms) && MobOk(ms0[j], stage.platforms);
      StepAllKeepsAlive(ms0, stage.platforms, player.x, player.footing, dt, now, draws);
      StepMobs(dt, now, draws);
      PruneKeepsAlive(mobs, now);
      PruneMobs(now);
    }

    /** The AI loop of `updateMobs`: each mob in turn takes its step, in place. */
    method StepMobs(dt: real, now: real, draws: seq<WanderDraw>)
      requires MobsOk() && |draws| == |mobs|
      modifies this`mobs
      ensures MobsOk()
      ensures mobs == StepAll(old(mobs), stage.platforms, player.x, player.footing, dt, now, draws)
    {
      ghost var ms0 := mobs;
      var i := 0;
      while i < |mobs|
        invariant i <= |mobs| == |ms0|
        invariant MobsOk()
        invariant forall j :: 0 <= j < i ==> mobs[j] == StepMob(ms0[j], stage.platforms, player.x, player.footing, dt, now, draws[j])
        invariant forall j :: i <= j < |mobs| ==> mobs[j] == ms0[j]
      {
        assert MobOk(mobs[i], stage.platforms);
        mobs := mobs[i := StepMob(mobs[i], stage.platforms, player.x, player.footing, dt, now, draws[i])];
        i := i + 1;
      }
    }

    /** The filter that ends `updateMobs`: the mobs that are not finished corpses, in order. */
    method PruneMobs(now: real)
      requires MobsOk()
      modifies this`mobs
      ensures MobsOk()
      ensures mobs == Prune(old(mobs), now)
    {
      var kept: seq<Mob> := [];
      var k := |mobs|;
      while k > 0
        invariant 0 <= k <= |mobs| && mobs == old(mobs)
        invariant kept == Prune(mobs[k..], now)
        invariant forall j :: 0 <= j < |kept| ==> MobOk(kept[j], stage.platforms)
      {
        k := k - 1;
        assert mobs[k..] == [mobs[k]] + mobs[k + 1..];
        if !Expired(mobs[k], now) {
          kept := [mobs[k]] + kept;
        }
      }
      assert mobs[0..] == mobs;
      mobs := kept;
    }

    /** `updateDamageTexts(dt)`: every number rises and ages in place, then the expired
        ones are filtered out. */
    method UpdateDamageTexts(dt: real)
      modifies this`damageTexts
      ensures damageTexts == AgeTexts(old(damageTexts), dt)
      ensures forall j :: 0 <= j < |damageTexts| ==> damageTexts[j].life > 0.0
    {
      AgeTextsInPlace(dt);
      DropExpiredTexts();
    }

    /** The loop of `updateDamageTexts`: each number rises 40 px/s and loses `dt` of life. */
    method AgeTextsInPlace(dt: real)
      modifies this`damageTexts
      ensures damageTexts == AgeAll(old(damageTexts), dt)
    {
      ghost var ts0 := damageTexts;
      var i := 0;
      while i < |damageTexts|
        invariant i <= |damageTexts| == |ts0|
        invariant forall j :: 0 <= j < i ==> damageTexts[j] == Age(ts0[j], dt)
        invariant forall j :: i <= j < |damageTexts| ==> damageTexts[j] == ts0[j]
      {
        damageTexts := damageTexts[i := Age(damageTexts[i], dt)];
        i := i + 1;
      }
    }

    /** The filter of `updateDamageTexts`: the numbers with life left, in order. */
    method DropExpiredTexts()
      modifies this`damageTexts
      ensures damageTexts == Survivors(old(damageTexts))
      ensures forall j :: 0 <= j < |damageTexts| ==> damageTexts[j].life > 0.0
    {
      var kept: seq<DamageText> := [];
      var k := |damageTexts|;
      while k > 0
        invariant 0 <= k <= |damageTexts| && damageTexts == old(damageTexts)
        invariant kept == Survivors(damageTexts[k..])
        invariant forall j :: 0 <= j < |kept| ==> kept[j].life > 0.0
      {
        k := k - 1;
        assert damageTexts[k..] == [damageTexts[k]] + damageTexts[k + 1..];
        if damageTexts[k].life > 0.0 {
          kept := [damageTexts[k]] + kept;
        }
      }
      assert damageTexts[0..] == damageTexts;
      damageTexts := kept;
    }

    /** What `updateMesos(dt)` leaves from the coins `cs0` and the purse `purse0`: the coins
        and the takings of `MesoPass` with the player's hitbox where it now stands. */
    predicate Collected(cs0: seq<Meso>, purse0: int, dt: real)
      reads this`mesos, this`playerMesos, player`x, player`y
    {
      var pass := MesoPass(cs0, dt, stage, PlayerBoxAt(player.x, player.y));
      mesos == pass.kept && playerMesos == purse0 + pass.gained
    }

    /** `updateMesos(dt)`: from the last coin to the first, each coin moves (see `MoveCoin`);
        an expired coin is removed; a coin touching the player's hitbox is removed and its
        value added to the purse; the others stay where they are in the list. */
    method UpdateMesos(dt: real)
      requires CoinsOk() && playerMesos >= 0
      modifies this`mesos, this`playerMesos
      ensures CoinsOk() && playerMesos >= old(playerMesos)
      ensures var pass := MesoPass(old(mesos), dt, stage, PlayerBoxAt(player.x, player.y));
        mesos == pass.kept && playerMesos == old(playerMesos) + pass.gained
    {
      ghost var cs := mesos;
      var pb := PlayerBoxAt(player.x, player.y);
      var i := |mesos|;
      while i > 0
        invariant 0 <= i <= |cs|
        invariant mesos == cs[..i] + MesoPass(cs[i..], dt, stage, pb).kept
        invariant playerMesos == old(playerMesos) + MesoPass(cs[i..], dt, stage, pb).gained
      {
        i := i - 1;
        MesoPassFrom(cs, i, dt, stage, pb);
        assert cs[..i + 1] == cs[..i] + [cs[i]];
        VisitCoin(i, dt, pb, cs[..i], MesoPass(cs[i + 1..], dt, stage, pb), old(playerMesos));
      }
      assert cs[0..] == cs;
    }

    /** One iteration of the `updateMesos` loop, on coin `i`, whose successors the loop has
        already left as `rest`: the coin moves (see `MoveCoin`); an expired coin is spliced
        out; a coin touching the box `pb` is spliced out and its value added to the purse. */
    method VisitCoin(i: nat, dt: real, pb: Rect, ghost head: seq<Meso>, ghost rest: Sweep, ghost base: int)
      requires |head| == i < |mesos| && mesos == head + [mesos[i]] + rest.kept && playerMesos == base + rest.gained
      modifies this`mesos, this`playerMesos
      ensures mesos == head + MesoVisit(old(mesos[i]), rest, dt, stage, pb).kept
      ensures playerMesos == base + MesoVisit(old(mesos[i]), rest, dt, stage, pb).gained
    {
      assert mesos[..i] == head && mesos[i + 1..] == rest.kept;
      var c := MoveCoin(mesos[i], dt, stage);
      if c.life <= 0.0 {
        mesos := mesos[..i] + mesos[i + 1..];
      } else if Intersects(pb, CoinBox(c)) {
        playerMesos := playerMesos + c.value;
        mesos := mesos[..i] + mesos[i + 1..];
      } else {
        mesos := mesos[..i] + [c] + mesos[i + 1..];
      }
    }

    /** `checkPlayerMobCollisions()` at time `now`: a player with HP left is hurt by each
        living mob its sprite box overlaps, in order; the touch cooldown lets only the first
        of them through, and only when the last hurt is 500 ms old. */
    method CheckPlayerMobCollisions(now: real)
      requires Valid()
      modifies player`hp, player`lastHurtAt
      ensures Valid()
      ensures Vitals(player.hp, player.lastHurtAt)
              == Touched(registry, mobs, SpriteBox(player.x, player.y), Vitals(old(player.hp), old(player.lastHurtAt)), now)
    {
      if player.hp <= 0 {
        return;
      }
      var box := SpriteBox(player.x, player.y);
      ghost var hit := FirstToucher(mobs, box, 0);
      var i := 0;
      while i < |mobs|
        invariant i <= |mobs| && PlayerOk()
        invariant hit.None? || i <= hit.value ==>
          && FirstToucher(mobs, box, i) == hit
          && player.hp == old(player.hp) && player.lastHurtAt == old(player.lastHurtAt)
        invariant hit.Some? && hit.value < i && now - old(player.lastHurtAt) < TouchCooldownMs ==>
          player.hp == old(player.hp) && player.lastHurtAt == old(player.lastHurtAt)
        invariant hit.Some? && hit.value < i && now - old(player.lastHurtAt) >= TouchCooldownMs ==>
          var dmg := MobDamage(registry, mobs[hit.value].id);
          && player.hp == (if old(player.hp) >= dmg then old(player.hp) - dmg else 0)
          && player.lastHurtAt == now
      {
        if Toucher(box, mobs[i]) {
          player.HurtFromMob(MobDamage(registry, mobs[i].id), now);
        }
        i := i + 1;
      }
    }

    /** `spawnLogic()` at time `now`: with nothing to hunt, or within 900 ms of the last
        spawn, nothing happens; otherwise the spawn clock restarts and, below the alive cap,
        one mob of the first target species is added where `SpawnSite` puts it. When the
        registry has no stats for it, `spawnMob` throws: `failed` names the error and no mob
        is added. */
    method SpawnLogic(now: real, d: SpawnDraw) returns (failed: Option<SpawnError>)
      requires Valid() && UnitDraw(d.place)
      modifies this`mobs, this`lastSpawnAt
      ensures Valid()
      ensures AliveCount(mobs) <= if AliveCount(old(mobs)) >= SpawnCap(active) then AliveCount(old(mobs)) else SpawnCap(active)
      ensures SpawnOutcome(mobs, lastSpawnAt, failed)
              == Spawned(registry, stage, active, QuestTargetMobIds(index, Log()), old(mobs), old(lastSpawnAt), now, d)
    {
      var targets := QuestTargetMobIds(index, Log());
      if targets == [] {
        return None;
      }
      if now - lastSpawnAt < SpawnIntervalMs {
        return None;
      }
      lastSpawnAt := now;
      var alive := AliveCount(mobs);
      if alive >= SpawnCap(active) {
        return None;
      }
      var spawned := SpawnAt(registry, stage, BossActive(active), targets[0], now, d);
      if spawned.Failure? {
        return Some(spawned.error);
      }
      var m := spawned.value;
      assert (mobs + [m])[..|mobs|] == mobs;
      mobs := mobs + [m];
      return None;
    }

    /** One pass of `loop()` at time `t` (milliseconds), with the arrow keys held (`left`,
        `right`), one wander draw per mob and the spawner's draws: the time step is the
        elapsed time capped at 33 ms; then, in order, the player, the mobs, the damage
        numbers, the coins, touch damage and the spawner are updated. When `spawnMob`
        throws, `failed` says why and no further frame is scheduled. */
    method Tick(t: real, left: bool, right: bool, wander: seq<WanderDraw>, spawn: SpawnDraw) returns (failed: Option<SpawnError>)
      requires Valid() && |wander| == |mobs| && UnitDraw(spawn.place)
      modifies this`mobs, this`damageTexts, this`mesos, this`playerMesos, this`lastSpawnAt, this`lastFrameAt
      modifies player`x, player`y, player`vx, player`vy, player`facing, player`onGround, player`footing
      modifies player`hp, player`lastHurtAt
      ensures Valid() && lastFrameAt == t
      ensures Walked(old(player.x), old(player.y), old(player.vy), old(player.facing), FrameSeconds(t, old(lastFrameAt)), left, right)
      ensures damageTexts == AgeTexts(old(damageTexts), FrameSeconds(t, old(lastFrameAt)))
      ensures Collected(old(mesos), old(playerMesos), FrameSeconds(t, old(lastFrameAt)))
      ensures var ms := Prune(StepAll(old(mobs), stage.platforms, player.x, player.footing, FrameSeconds(t, old(lastFrameAt)), t, wander), t);
        && Vitals(player.hp, player.lastHurtAt)
           == Touched(registry, ms, SpriteBox(player.x, player.y), Vitals(old(player.hp), old(player.lastHurtAt)), t)
        && SpawnOutcome(mobs, lastSpawnAt, failed)
           == Spawned(registry, stage, active, QuestTargetMobIds(index, Log()), ms, old(lastSpawnAt), t, spawn)
    {
      var dt := FrameSeconds(t, lastFrameAt);
      lastFrameAt := t;
      ghost var x0, y0, vy0, facing0, ms0 := player.x, player.y, player.vy, player.facing, mobs;
      StepMovers(dt, t, left, right, wander);
      failed := StepAfterMovers(dt, t, spawn, x0, y0, vy0, facing0, left, right, ms0, wander);
    }

    /** The four updates of `loop()` after the movers, on a player who has just moved from
        `x0`, `y0` (falling at `vy0`, facing `facing0`) with the keys `left` and `right`, and
        mobs that have just taken their step from `ms0` with the draws `wander`: the damage
        numbers, the coins, touch damage and the spawner. The player's move and the mobs'
        step are passed through, so that the frame's effects can be stated from its start. */
    method StepAfterMovers(dt: real, t: real, spawn: SpawnDraw,
                           ghost x0: real, ghost y0: real, ghost vy0: real, ghost facing0: int,
                           ghost left: bool, ghost right: bool, ghost ms0: seq<Mob>, ghost wander: seq<WanderDraw>)
      returns (failed: Option<SpawnError>)
      requires Valid() && UnitDraw(spawn.place)
      requires Walked(x0, y0, vy0, facing0, dt, left, right)
      requires |wander| == |ms0| && forall j :: 0 <= j < |ms0| ==> OnMap(ms0[j], stage.platforms)
      requires mobs == Prune(StepAll(ms0, stage.platforms, player.x, player.footing, dt, t, wander), t)
      modifies this`damageTexts, this`mesos, this`playerMesos, this`mobs, this`lastSpawnAt, player`hp, player`lastHurtAt
      ensures Valid()
      ensures Walked(x0, y0, vy0, facing0, dt, left, right)
      ensures damageTexts == AgeTexts(old(damageTexts), dt)
      ensures Collected(old(mesos), old(playerMesos), dt)
      ensures var ms := Prune(StepAll(ms0, stage.platforms, player.x, player.footing, dt, t, wander), t);
        && Vitals(player.hp, player.lastHurtAt)
           == Touched(registry, ms, SpriteBox(player.x, player.y), Vitals(old(player.hp), old(player.lastHurtAt)), t)
        && SpawnOutcome(mobs, lastSpawnAt, failed)
           == Spawned(registry, stage, active, QuestTargetMobIds(index, Log()), ms, old(lastSpawnAt), t, spawn)
    {
      StepEffects(dt);
      failed := StepEncounters(t, spawn);
    }

    /** The first two updates of `loop()`: `updatePlayer`, then `updateMobs` against the
        player's new position and footing; no mob comes to life or dies on the way. */
    method StepMovers(dt: real, t: real, left: bool, right: bool, wander: seq<WanderDraw>)
      requires Valid() && |wander| == |mobs|
      modifies this`mobs, player`x, player`y, player`vx, player`vy, player`facing, player`onGround, player`footing
      ensures Valid()
      ensures Walked(old(player.x), old(player.y), old(player.vy), old(player.facing), dt, left, right)
      ensures mobs == Prune(StepAll(old(mobs), stage.platforms, player.x, player.footing, dt, t, wander), t)
    {
      UpdatePlayer(dt, left, right);
      UpdateMobs(dt, t, wander);
    }

    /** The next two updates of `loop()`: `updateDamageTexts`, then `updateMesos`: the
        numbers age and the coins make one `MesoPass`. */
    method StepEffects(dt: real)
      requires Valid()
      modifies this`damageTexts, this`mesos, this`playerMesos
      ensures Valid()
      ensures damageTexts == AgeTexts(old(damageTexts), dt)
      ensures Collected(old(mesos), old(playerMesos), dt)
    {
      UpdateDamageTexts(dt);
      UpdateMesos(dt);
    }

    /** The last two updates of `loop()`: `checkPlayerMobCollisions`, then `spawnLogic`, both
        against the mobs as they stood before. */
    method StepEncounters(t: real, spawn: SpawnDraw) returns (failed: Option<SpawnError>)
      requires Valid() && UnitDraw(spawn.place)
      modifies this`mobs, this`lastSpawnAt, player`hp, player`lastHurtAt
      ensures Valid()
      ensures Vitals(player.hp, player.lastHurtAt)
              == Touched(registry, old(mobs), SpriteBox(player.x, player.y), Vitals(old(player.hp), old(player.lastHurtAt)), t)
      ensures SpawnOutcome(mobs, lastSpawnAt, failed)
              == Spawned(registry, stage, active, QuestTargetMobIds(index, Log()), old(mobs), old(lastSpawnAt), t, spawn)
    {
      CheckPlayerMobCollisions(t);
      failed := SpawnLogic(t, spawn);
    }

    /** `tryAttack()` at time `now`, with the coin draws of each mob: within the cooldown
        nothing happens; otherwise the swing starts and passes over every mob in order, each
        kill's experience and quest credit following it at once (see `SwingAndCredit`). */
    method TryAttack(now: real, draws: seq<MesoDraw>)
      requires Valid()
      requires |draws| == |mobs| && forall j :: 0 <= j < |draws| ==> UnitMesoDraw(draws[j])
      modifies this`mobs, this`damageTexts, this`mesos, this`active, this`completed, this`progress
      modifies player`lastAttackAt, player`anim, player`animUntil, player`attackVariant
      modifies player`exp, player`level, player`expToNext, player`statPoints, player`damage, player`maxHP, player`hp
      ensures Valid()
      ensures now - old(player.lastAttackAt) < AttackCooldownMs ==>
                Scene() == old(Scene()) && player.attackVariant == old(player.attackVariant)
      ensures now - old(player.lastAttackAt) >= AttackCooldownMs ==>
                && player.lastAttackAt == now
                && player.attackVariant == (old(player.attackVariant) + 1) % |AttackAnims|
                && Scene() == SwingRound(old(Scene()), Swing(old(player.AttackBox()), old(player.damage), old(player.facing), now, bossMap),
                                         stage.platforms, draws, index)
    {
      ghost var before := Scene();
      var swung := player.StartAttack(now);
      assert Scene() == before;
      if swung {
        var sw := Swing(player.AttackBox(), player.damage, player.facing, now, bossMap);
        Sweep(sw, draws);
      }
    }

    /** The swing `sw` after the cooldown test: every mob struck in order, and each kill
        credited to the player and the quest log, as one interleaved pass would. */
    method Sweep(sw: Swing, draws: seq<MesoDraw>)
      requires Valid() && sw.damage == player.damage
      requires |draws| == |mobs| && forall j :: 0 <= j < |draws| ==> UnitMesoDraw(draws[j])
      modifies this`mobs, this`damageTexts, this`mesos, this`active, this`completed, this`progress
      modifies player`exp, player`level, player`expToNext, player`statPoints, player`damage, player`maxHP, player`hp
      ensures Valid()
      ensures Scene() == SwingRound(old(Scene()), sw, stage.platforms, draws, index)
    {
      ghost var a0, st0, log0 := Arena(mobs, damageTexts, mesos, []), player.Snapshot(), Log();
      var kills := StrikeAll(sw, draws);
      CreditAll(kills);
      SwingAndCreditSplits(a0, st0, log0, |a0.mobs|, sw, stage.platforms, draws, index);
    }

    /** The loop of `tryAttack` over the mobs, for the swing `sw`: each mob is struck in turn and
        `kills` lists the mobs it killed, in order. */
    method StrikeAll(sw: Swing, draws: seq<MesoDraw>) returns (kills: seq<Mob>)
      requires |mobs| == |draws| && forall j :: 0 <= j < |draws| ==> UnitMesoDraw(draws[j])
      requires Valid() && sw.damage >= 0
      modifies this`mobs, this`damageTexts, this`mesos
      ensures Valid()
      ensures Arena(mobs, damageTexts, mesos, kills)
              == SwingUpTo(Arena(old(mobs), old(damageTexts), old(mesos), []), |old(mobs)|, sw, stage.platforms, draws)
    {
      ghost var a0 := Arena(mobs, damageTexts, mesos, []);
      assert ArenaOk(a0, stage.platforms);
      kills := [];
      var i := 0;
      while i < |mobs|
        invariant i <= |a0.mobs| == |mobs|
        invariant Valid()
        invariant Arena(mobs, damageTexts, mesos, kills) == SwingUpTo(a0, i, sw, stage.platforms, draws)
      {
        ghost var prev := Arena(mobs, damageTexts, mesos, kills);
        var killed := StrikeMob(i, sw, draws[i], kills);
        kills := kills + Listed(killed);
        assert Arena(mobs, damageTexts, mesos, kills) == StrikeAt(prev, i, sw, stage.platforms, draws[i]);
        i := i + 1;
      }
    }

    /** The kills of a swing credited in order: experience to the player, a tally to the quest. */
    method CreditAll(kills: seq<Mob>)
      requires Valid()
      modifies this`active, this`completed, this`progress
      modifies player`exp, player`level, player`expToNext, player`statPoints, player`damage, player`maxHP, player`hp
      ensures Valid() && player.damage == old(player.damage)
      ensures (player.Snapshot(), Log()) == Credit(old(player.Snapshot()), old(Log()), kills, index)
    {
      ghost var st0, log0 := player.Snapshot(), Log();
      var i := 0;
      while i < |kills|
        invariant i <= |kills|
        invariant Valid() && player.damage == old(player.damage)
        invariant (player.Snapshot(), Log()) == Credit(st0, log0, kills[..i], index)
      {
        CreditKill(kills[i]);
        assert kills[..i + 1] == kills[..i] + [kills[i]];
        CreditSnoc(st0, log0, kills[..i], kills[i], index);
        i := i + 1;
      }
      assert kills[..i] == kills;
    }

    /** One pass of the `tryAttack` loop on mob `i`, for the swing `sw`: a living mob the
        attack box meets takes the strike and shows its damage; a mob it kills drops a coin
        and is returned. `kills` stands for the swing's kills so far. */
    method StrikeMob(i: nat, sw: Swing, draw: MesoDraw, ghost kills: seq<Mob>) returns (killed: Option<Mob>)
      requires MobsOk() && CoinsOk() && i < |mobs| && UnitMesoDraw(draw) && sw.damage >= 0
      modifies this`mobs, this`damageTexts, this`mesos
      ensures MobsOk() && CoinsOk()
      ensures var r := StrikeAt(Arena(old(mobs), old(damageTexts), old(mesos), kills), i, sw, stage.platforms, draw);
        && mobs == r.mobs && damageTexts == r.texts && mesos == r.mesos
        && r.kills == kills + (if killed.Some? then [killed.value] else [])
    {
      var m := mobs[i];
      if m.dead || !Touches(sw.box, m) {
        return None;
      }
      var hit := Strike(m, sw.damage, sw.facing, stage.platforms, sw.now);
      assert MobOk(hit, stage.platforms) by {
        assert MobOk(m, stage.platforms);
      }
      mobs := mobs[i := hit];
      damageTexts := damageTexts + [DamageText(hit.x + hit.w / 2.0, m.y.v, StrikeDamage(sw.damage, m), TextLife)];
      if !hit.dead {
        return None;
      }
      var coin := SpawnMeso(hit.x + hit.w / 2.0, m.y.v + hit.h / 2.0, DropMin(sw.bossMap), DropMax(sw.bossMap), draw);
      mesos := mesos + [coin];
      return Some(hit);
    }

    /** What a kill in `tryAttack` credits: `gainExp(m.exp)`, then `onMobKilled(m.id)`. */
    method CreditKill(k: Mob)
      requires Valid()
      modifies this`active, this`completed, this`progress
      modifies player`exp, player`level, player`expToNext, player`statPoints, player`damage, player`maxHP, player`hp
      ensures Valid() && player.damage == old(player.damage)
      ensures (player.Snapshot(), Log()) == NoteKill(index, Progression.GainExp(old(player.Snapshot()), k.exp), old(Log()), k.id)
    {
      player.GainExp(k.exp);
      OnMobKilled(k.id);
    }
  }
}
