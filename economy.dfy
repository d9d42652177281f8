/** Mesos (the currency), the potion shop and the coins mobs drop (game/game.js:194-210,
    281-294, 425-537). */
module Economy {
  import opened Options
  import opened Geometry

  /** The resource a potion restores. */
  datatype Resource = HP | MP

  /** An entry of the fixed potion catalogue POTIONS. */
  datatype Potion = Potion(id: string, name: string, kind: Resource, heal: int, price: int)

  const Potions: seq<Potion> := [
    Potion("hp1", "Red Potion", HP, 50, 25),
    Potion("hp2", "Orange Potion", HP, 150, 80),
    Potion("hp3", "White Potion", HP, 300, 200),
    Potion("mp1", "Blue Potion", MP, 100, 40),
    Potion("mp2", "Mana Elixir", MP, 300, 120),
    Potion("mp3", "Sorcerer Elixir", MP, 600, 350)
  ]

  /** `POTIONS.find(x => x.id === id)` over a catalogue: the first entry with that id. */
  function FindPotion(catalogue: seq<Potion>, id: string): (r: Option<Potion>)
    ensures r.Some? ==> r.value in catalogue && r.value.id == id
    ensures r.None? ==> forall i :: 0 <= i < |catalogue| ==> catalogue[i].id != id
  {
    if catalogue == [] then None
    else if catalogue[0].id == id then Some(catalogue[0])
    else FindPotion(catalogue[1..], id)
  }

  /** Every potion of the catalogue costs something. */
  predicate Priced(catalogue: seq<Potion>)
  {
    forall i :: 0 <= i < |catalogue| ==> catalogue[i].price > 0
  }

  /** The player's purse: mesos and the owned count of every potion id. */
  datatype Purse = Purse(mesos: int, inv: map<string, int>)

  /** The inventory starts with a zero count for every catalogue id (`inv`), so every
      id the shop can sell has a count. */
  predicate Stocked(catalogue: seq<Potion>, inv: map<string, int>)
  {
    forall i :: 0 <= i < |catalogue| ==> catalogue[i].id in inv
  }

  /** The starting `inv`: a zero count for each of the six potions. */
  function EmptyInventory(): (inv: map<string, int>)
    ensures Stocked(Potions, inv) && forall i :: 0 <= i < |Potions| ==> inv[Potions[i].id] == 0
  {
    map["hp1" := 0, "hp2" := 0, "hp3" := 0, "mp1" := 0, "mp2" := 0, "mp3" := 0]
  }

  /** `buyPotion(id)`: all or nothing. An unknown id, or fewer mesos than the price, leaves
      the purse as it was; otherwise the price is paid and exactly that potion's count rises
      by one. */
  function Purchase(catalogue: seq<Potion>, purse: Purse, id: string): (r: Purse)
    requires Stocked(catalogue, purse.inv)
    ensures Stocked(catalogue, r.inv) && r.inv.Keys == purse.inv.Keys
    ensures FindPotion(catalogue, id).None? ==> r == purse
    ensures FindPotion(catalogue, id).Some? && purse.mesos < FindPotion(catalogue, id).value.price ==> r == purse
    ensures FindPotion(catalogue, id).Some? && purse.mesos >= FindPotion(catalogue, id).value.price ==>
              && r.mesos == purse.mesos - FindPotion(catalogue, id).value.price
              && r.inv[id] == purse.inv[id] + 1
              && forall k :: k in purse.inv && k != id ==> r.inv[k] == purse.inv[k]
    ensures Priced(catalogue) && r != purse ==> r.mesos < purse.mesos
    ensures purse.mesos >= 0 ==> r.mesos >= 0
  {
    match FindPotion(catalogue, id)
    case None => purse
    case Some(p) =>
      if purse.mesos < p.price then purse
      else Purse(purse.mesos - p.price, purse.inv[id := purse.inv[id] + 1])
  }

  /** A visual bucket of coins (MESO_TYPES): value range, frame count and size. */
  datatype MesoType = MesoType(name: string, min: int, max: int, frames: nat, w: real, h: real)

  const MesoTypes: seq<MesoType> := [
    MesoType("mesos1", 1, 49, 4, 22.0, 22.0),
    MesoType("mesos2", 50, 199, 4, 22.0, 22.0),
    MesoType("mesos3", 200, 600, 4, 24.0, 24.0),
    MesoType("mesos4", 601, 2000, 4, 30.0, 28.0)
  ]

  /** The scan of `pickMesoTypeByValue`: the first type whose range holds the value. */
  function FirstTypeHolding(types: seq<MesoType>, value: int): (r: Option<MesoType>)
    ensures r.Some? ==> r.value in types && r.value.min <= value <= r.value.max
    ensures r.None? ==> forall t :: t in types ==> !(t.min <= value <= t.max)
  {
    if types == [] then None
    else if types[0].min <= value <= types[0].max then Some(types[0])
    else FirstTypeHolding(types[1..], value)
  }

  /** `pickMesoTypeByValue(value)`: the bucket whose range holds the value, or the last
      bucket (the bag) for any value outside every range. */
  function PickMesoTypeByValue(value: int): (r: MesoType)
    ensures r in MesoTypes
  {
    match FirstTypeHolding(MesoTypes, value)
    case Some(t) => t
    case None => MesoTypes[|MesoTypes| - 1]
  }

  /** The buckets in closed form: 1..49, 50..199, 200..600, and everything else (601..2000,
      but also zero, negatives and values over 2000) is the bag. */
  lemma MesoTypeBuckets(value: int)
    ensures PickMesoTypeByValue(value).name ==
      if 1 <= value <= 49 then "mesos1"
      else if 50 <= value <= 199 then "mesos2"
      else if 200 <= value <= 600 then "mesos3"
      else "mesos4"
  {
    var ts := MesoTypes;
    assert ts[1..][1..][1..][1..] == [];
    assert FirstTypeHolding(ts, value) ==
      if 1 <= value <= 49 then Some(ts[0])
      else if 50 <= value <= 199 then Some(ts[1])
      else if 200 <= value <= 600 then Some(ts[2])
      else if 601 <= value <= 2000 then Some(ts[3])
      else None;
  }

  /** A coin lying in the world (an element of `mesos`). */
  datatype Meso = Meso(x: real, y: real, w: real, h: real, vx: real, vy: real,
                       value: int, kind: string, life: real)

  /** The three `Math.random()` draws `spawnMeso` makes: value, horizontal and vertical speed. */
  datatype MesoDraw = MesoDraw(value: real, vx: real, vy: real)

  predicate UnitDraw(u: real) { 0.0 <= u < 1.0 }

  predicate UnitMesoDraw(d: MesoDraw) { UnitDraw(d.value) && UnitDraw(d.vx) && UnitDraw(d.vy) }

  /** `randBetween(a, b)` for a draw `u` of `Math.random()`. */
  function RandBetween(a: real, b: real, u: real): real { a + u * (b - a) }

  /** Seconds a coin stays on the floor before it disappears. */
  const CoinLife: real := 20.0

  /** `spawnMeso(x, y, min, max)`: a coin whose value is uniform in [min, max], sized by its
      bucket, thrown upward with a random sideways speed. */
  function SpawnMeso(x: real, y: real, minValue: int, maxValue: int, d: MesoDraw): (c: Meso)
    ensures UnitMesoDraw(d) && minValue <= maxValue ==>
              && minValue <= c.value <= maxValue
              && -60.0 <= c.vx < 60.0 && -240.0 <= c.vy < -140.0
    ensures c.x == x && c.y == y && c.life == CoinLife
    ensures c.kind == PickMesoTypeByValue(c.value).name
  {
    var raw := RandBetween(minValue as real, (maxValue + 1) as real, d.value);
    var value := raw.Floor;
    if UnitMesoDraw(d) && minValue <= maxValue then
      DrawWithin(minValue, maxValue + 1, d.value);
      FloorWithin(raw, minValue, maxValue + 1);
      MesoOf(x, y, value, d)
    else
      MesoOf(x, y, value, d)
  }

  /** The coin `spawnMeso` builds once its value is drawn. */
  function MesoOf(x: real, y: real, value: int, d: MesoDraw): Meso
  {
    var t := PickMesoTypeByValue(value);
    Meso(x, y, t.w, t.h, RandBetween(-60.0, 60.0, d.vx), RandBetween(-240.0, -140.0, d.vy),
         value, t.name, CoinLife)
  }

  /** `randBetween(lo, hi)` lies in [lo, hi). */
  lemma DrawWithin(lo: int, hi: int, u: real)
    requires lo < hi && UnitDraw(u)
    ensures lo as real <= RandBetween(lo as real, hi as real, u) < hi as real
  {
    var span := hi as real - lo as real;
    ScaledBelow(u, span);
    assert RandBetween(lo as real, hi as real, u) == lo as real + u * span;
  }

  /** A draw in [0, 1) scales a positive span into [0, span). */
  lemma ScaledBelow(u: real, span: real)
    requires UnitDraw(u) && span > 0.0
    ensures 0.0 <= u * span < span
  {
    assert span - u * span == (1.0 - u) * span;
  }

  /** Flooring a value in [lo, hi) gives an integer in [lo, hi). */
  lemma FloorWithin(v: real, lo: int, hi: int)
    requires lo as real <= v < hi as real
    ensures lo <= v.Floor < hi
  {
  }


  /** A boss drop (800..2000) is always the bag; a normal drop (10..600) never is. */
  lemma DropBuckets(x: real, y: real, d: MesoDraw)
    requires UnitMesoDraw(d)
    ensures SpawnMeso(x, y, 800, 2000, d).kind == "mesos4"
    ensures SpawnMeso(x, y, 10, 600, d).kind != "mesos4"
  {
    MesoTypeBuckets(SpawnMeso(x, y, 800, 2000, d).value);
    MesoTypeBuckets(SpawnMeso(x, y, 10, 600, d).value);
  }

  /** CONFIG.gravity; coins fall at 0.6 of it and lose 15% of their sideways speed on landing. */
  const Gravity: real := 1600.0
  const CoinGravityScale: real := 0.6
  const CoinDamping: real := 0.85

  function CoinBox(c: Meso): Rect { Rect(c.x, c.y, c.w, c.h) }

  /** A falling coin lands on a floating platform when it overlaps the platform's span and
      its bottom edge crossed the platform's top since the previous position. */
  predicate CoinCrosses(p: Rect, c: Meso, prevY: real)
  {
    && c.x + c.w > p.x && c.x < p.x + p.w
    && prevY + c.h <= p.y && c.y + c.h >= p.y
  }

  /** The platform scan of `updateMesos` from index `from` on: the first platform crossed. */
  function FirstCoinLanding(platforms: seq<Rect>, from: nat, c: Meso, prevY: real): (r: Option<nat>)
    ensures r.Some? ==> from <= r.value < |platforms| && CoinCrosses(platforms[r.value], c, prevY)
    ensures r.Some? ==> forall j :: from <= j < r.value ==> !CoinCrosses(platforms[j], c, prevY)
    ensures r.None? ==> forall j :: from <= j < |platforms| ==> !CoinCrosses(platforms[j], c, prevY)
    decreases |platforms| - from
  {
    if from >= |platforms| then None
    else if CoinCrosses(platforms[from], c, prevY) then Some(from)
    else FirstCoinLanding(platforms, from + 1, c, prevY)
  }

  /** A coin set down at height `top` (bottom edge on it), stopped and damped. */
  function SetDown(c: Meso, top: real): Meso
  {
    c.(y := top - c.h, vy := 0.0, vx := c.vx * CoinDamping)
  }

  /** Gravity (scaled for coins) and motion over `dt` seconds. */
  function CoinFall(c: Meso, dt: real): Meso
  {
    var vy := c.vy + Gravity * CoinGravityScale * dt;
    c.(vy := vy, x := c.x + c.vx * dt, y := c.y + vy * dt)
  }

  /** A falling coin comes to rest on the first floating platform it crossed since `prevY`. */
  function CoinLand(c: Meso, platforms: seq<Rect>, prevY: real): Meso
  {
    if c.vy >= 0.0 then
      match FirstCoinLanding(platforms, 1, c, prevY)
      case Some(k) => SetDown(c, platforms[k].y)
      case None => c
    else c
  }

  /** The floating platform a coin moved by `CoinFall` comes to rest on: the first one
      crossed, and only while it is falling. */
  function CoinLanding(c: Meso, dt: real, platforms: seq<Rect>): (r: Option<nat>)
    ensures r.Some? ==> CoinFall(c, dt).vy >= 0.0 && 1 <= r.value < |platforms|
                        && CoinCrosses(platforms[r.value], CoinFall(c, dt), c.y)
    ensures r.Some? ==> forall j :: 1 <= j < r.value ==> !CoinCrosses(platforms[j], CoinFall(c, dt), c.y)
    ensures r.None? && CoinFall(c, dt).vy >= 0.0 ==>
              forall j :: 1 <= j < |platforms| ==> !CoinCrosses(platforms[j], CoinFall(c, dt), c.y)
  {
    if CoinFall(c, dt).vy >= 0.0 then FirstCoinLanding(platforms, 1, CoinFall(c, dt), c.y) else None
  }

  /** The ground check: a coin at or below the ground line is set down on it, stopped and
      damped; a coin above it is left alone. */
  function CoinGround(c: Meso, groundY: real): (r: Meso)
    ensures r.y + r.h <= groundY
    ensures c.y + c.h >= groundY ==>
              r == c.(y := groundY - c.h, vy := 0.0, vx := c.vx * CoinDamping)
    ensures c.y + c.h < groundY ==> r == c
  {
    if c.y + c.h >= groundY then SetDown(c, groundY) else c
  }

  /** One tick of coin physics: gravity, motion, landing on the first floating platform
      crossed while falling, then the ground check (which may damp a second time), then
      ageing. */
  function CoinStep(c: Meso, dt: real, stage: Stage): (r: Meso)
    ensures r.y + r.h <= stage.groundY
    ensures r.w == c.w && r.h == c.h && r.value == c.value && r.kind == c.kind
    ensures r.life == c.life - dt && r.x == CoinFall(c, dt).x
    ensures var f := CoinFall(c, dt);
      match CoinLanding(c, dt, stage.platforms)
      case Some(k) =>
        if stage.platforms[k].y < stage.groundY
        then r.y == stage.platforms[k].y - c.h && r.vy == 0.0 && r.vx == f.vx * CoinDamping
        else r.y == stage.groundY - c.h && r.vy == 0.0 && r.vx == f.vx * CoinDamping * CoinDamping
      case None =>
        if f.y + c.h >= stage.groundY
        then r.y == stage.groundY - c.h && r.vy == 0.0 && r.vx == f.vx * CoinDamping
        else r.y == f.y && r.vy == f.vy && r.vx == f.vx
  {
    var grounded := CoinGround(CoinLand(CoinFall(c, dt), stage.platforms, c.y), stage.groundY);
    grounded.(life := grounded.life - dt)
  }

  /** The physics block of `updateMesos` for one coin, in place: gravity and motion; while
      falling, the scan over the floating platforms stops at the first one crossed; then
      the ground check and ageing. */
  method MoveCoin(c: Meso, dt: real, stage: Stage) returns (r: Meso)
    ensures r == CoinStep(c, dt, stage)
  {
    var moved := CoinFall(c, dt);
    r := moved;
    if moved.vy >= 0.0 {
      var k := 1;
      while k < |stage.platforms|
        invariant 1 <= k && r == moved
        invariant FirstCoinLanding(stage.platforms, 1, moved, c.y) == FirstCoinLanding(stage.platforms, k, moved, c.y)
        decreases |stage.platforms| - k
      {
        if CoinCrosses(stage.platforms[k], moved, c.y) {
          assert FirstCoinLanding(stage.platforms, k, moved, c.y) == Some(k);
          r := SetDown(moved, stage.platforms[k].y);
          break;
        }
        k := k + 1;
      }
    }
    assert r == CoinLand(moved, stage.platforms, c.y);
    if r.y + r.h >= stage.groundY {
      r := SetDown(r, stage.groundY);
    }
    r := r.(life := r.life - dt);
  }

  /** What one pass over the coins leaves: the coins still in the world and the mesos picked up. */
  datatype Sweep = Sweep(kept: seq<Meso>, gained: int)

  /** One pass of `updateMesos` over `cs`: each coin moves; an expired coin disappears; a coin
      touching the player's hitbox is picked up and its value credited; the rest stay, in order. */
  function MesoPass(cs: seq<Meso>, dt: real, stage: Stage, pb: Rect): (r: Sweep)
    ensures |r.kept| <= |cs|
    ensures forall j :: 0 <= j < |r.kept| ==> r.kept[j].life > 0.0 && !Intersects(pb, CoinBox(r.kept[j]))
    ensures (forall j :: 0 <= j < |cs| ==> cs[j].value >= 0) ==>
              r.gained >= 0 && forall j :: 0 <= j < |r.kept| ==> r.kept[j].value >= 0
    decreases |cs|
  {
    if cs == [] then Sweep([], 0) else MesoVisit(cs[0], MesoPass(cs[1..], dt, stage, pb), dt, stage, pb)
  }

  /** The pass over a suffix of the coins: the work on its first coin after the rest. */
  lemma MesoPassFrom(cs: seq<Meso>, i: nat, dt: real, stage: Stage, pb: Rect)
    requires i < |cs|
    ensures MesoPass(cs[i..], dt, stage, pb) == MesoVisit(cs[i], MesoPass(cs[i + 1..], dt, stage, pb), dt, stage, pb)
  {
    assert cs[i..][1..] == cs[i + 1..];
  }

  /** The pass's work on one coin `c`, given what it left of the coins after it: the coin
      moves, then it expires, is picked up, or stays in front of the others. */
  function MesoVisit(c: Meso, rest: Sweep, dt: real, stage: Stage, pb: Rect): Sweep
  {
    var moved := CoinStep(c, dt, stage);
    if moved.life <= 0.0 then rest
    else if Intersects(pb, CoinBox(moved)) then rest.(gained := rest.gained + moved.value)
    else rest.(kept := [moved] + rest.kept)
  }

  function Values(cs: seq<Meso>): int
    decreases |cs|
  {
    if cs == [] then 0 else cs[0].value + Values(cs[1..])
  }

  /** The value of the coins that expire during the pass. */
  function ExpiredValue(cs: seq<Meso>, dt: real, stage: Stage): int
    decreases |cs|
  {
    if cs == [] then 0
    else (if CoinStep(cs[0], dt, stage).life <= 0.0 then cs[0].value else 0)
         + ExpiredValue(cs[1..], dt, stage)
  }

  /** No meso is created or duplicated by the pass: every coin's value ends up either still
      on the floor, credited to the player, or lost with an expired coin. */
  lemma {:induction false} MesoPassConservesValue(cs: seq<Meso>, dt: real, stage: Stage, pb: Rect)
    ensures Values(cs) == MesoPass(cs, dt, stage, pb).gained
                          + Values(MesoPass(cs, dt, stage, pb).kept)
                          + ExpiredValue(cs, dt, stage)
    decreases |cs|
  {
    if cs != [] {
      MesoPassConservesValue(cs[1..], dt, stage, pb);
      var rest := MesoPass(cs[1..], dt, stage, pb);
      var c := CoinStep(cs[0], dt, stage);
      if c.life > 0.0 && !Intersects(pb, CoinBox(c)) {
        assert ([c] + rest.kept)[1..] == rest.kept;
      }
    }
  }

  /** Every coin moved by one tick of physics, in order. */
  function Stepped(cs: seq<Meso>, dt: real, stage: Stage): (r: seq<Meso>)
    ensures |r| == |cs| && forall j :: 0 <= j < |cs| ==> r[j] == CoinStep(cs[j], dt, stage)
    decreases |cs|
  {
    if cs == [] then [] else [CoinStep(cs[0], dt, stage)] + Stepped(cs[1..], dt, stage)
  }

  /** The coins that stay in the world: those with life left that do not touch `pb`, in order. */
  function Resting(ms: seq<Meso>, pb: Rect): (r: seq<Meso>)
    ensures |r| <= |ms|
    ensures forall m :: m in r <==> m in ms && m.life > 0.0 && !Intersects(pb, CoinBox(m))
    decreases |ms|
  {
    if ms == [] then []
    else if ms[0].life > 0.0 && !Intersects(pb, CoinBox(ms[0])) then [ms[0]] + Resting(ms[1..], pb)
    else Resting(ms[1..], pb)
  }

  /** The value of the coins picked up: those with life left that touch `pb`. */
  function PickedValue(ms: seq<Meso>, pb: Rect): int
    decreases |ms|
  {
    if ms == [] then 0
    else (if ms[0].life > 0.0 && Intersects(pb, CoinBox(ms[0])) then ms[0].value else 0) + PickedValue(ms[1..], pb)
  }

  /** The pass is "move every coin, then filter": the coins kept are exactly the moved coins
      with life left that do not touch the hitbox, in their order, and the mesos gained are
      exactly the values of the moved coins with life left that touch it. */
  lemma {:induction false} MesoPassPicksUpTouching(cs: seq<Meso>, dt: real, stage: Stage, pb: Rect)
    ensures MesoPass(cs, dt, stage, pb).kept == Resting(Stepped(cs, dt, stage), pb)
    ensures MesoPass(cs, dt, stage, pb).gained == PickedValue(Stepped(cs, dt, stage), pb)
    decreases |cs|
  {
    if cs != [] {
      MesoPassPicksUpTouching(cs[1..], dt, stage, pb);
      var ms := Stepped(cs, dt, stage);
      assert ms[1..] == Stepped(cs[1..], dt, stage);
    }
  }
}
