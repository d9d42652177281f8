/** A swing of the player's weapon across the mobs (the loop of `tryAttack`, with the
    drops, experience and quest bookkeeping of each kill) and the floating damage numbers
    (game/game.js:272-279, 849-903). */
module Combat {
  import opened Options
  import opened Geometry
  import opened Progression
  import opened Economy
  import opened Quests
  import opened Mobs

  /** A floating damage number (an element of `damageTexts`); `life` is in seconds. */
  datatype DamageText = DamageText(x: real, y: real, value: int, life: real)

  /** A damage number lives 0.6 s and rises 40 px per second. */
  const TextLife: real := 0.6
  const TextRise: real := 40.0

  /** What the loop of a swing changes: the mobs, the damage numbers, the coins on the
      floor, and the mobs it has killed so far, in order (their experience and quest
      credit follow, see `Credit`). */
  datatype Arena = Arena(mobs: seq<Mob>, texts: seq<DamageText>, mesos: seq<Meso>, kills: seq<Mob>)

  /** One swing: the attack box, the player's damage and facing, the time, and whether the
      current map is a boss map (its name starts with "b"). The damage is read once: a
      kill's level-up recomputes damage from STR, which it does not change. */
  datatype Swing = Swing(box: Rect, damage: int, facing: int, now: real, bossMap: bool)

  /** Every mob is well formed. */
  predicate ArenaOk(a: Arena, plats: seq<Rect>)
  {
    forall j :: 0 <= j < |a.mobs| ==> MobOk(a.mobs[j], plats)
  }

  /** The swing reaches a mob when it is alive and its box meets the attack box. */
  predicate Struck(sw: Swing, m: Mob)
  {
    !m.dead && Touches(sw.box, m)
  }

  /** A boss map drops 800 to 2000 mesos, any other 10 to 600. */
  function DropMin(bossMap: bool): int { if bossMap then 800 else 10 }
  function DropMax(bossMap: bool): int { if bossMap then 2000 else 600 }

  /** The swing's effect on mob `i`, with the random draws of the coin it may drop: a mob
      the swing does not reach is skipped; otherwise it takes the strike and a damage
      number shows the damage dealt above it; a mob killed by the strike drops a coin from
      its centre and joins the kills. A mob with HP left at most the damage is killed. */
  function StrikeAt(a: Arena, i: nat, sw: Swing, plats: seq<Rect>, draw: MesoDraw): (r: Arena)
    requires i < |a.mobs| && ArenaOk(a, plats) && sw.damage >= 0
    ensures ArenaOk(r, plats) && |r.mobs| == |a.mobs|
  {
    var m := a.mobs[i];
    if !Struck(sw, m) then a
    else
      var hit := Strike(m, sw.damage, sw.facing, plats, sw.now);
      var text := DamageText(hit.x + hit.w / 2.0, m.y.v, StrikeDamage(sw.damage, m), TextLife);
      var struck := a.(mobs := a.mobs[i := hit], texts := a.texts + [text]);
      if !hit.dead then struck
      else
        var coin := SpawnMeso(hit.x + hit.w / 2.0, m.y.v + hit.h / 2.0, DropMin(sw.bossMap), DropMax(sw.bossMap), draw);
        struck.(mesos := a.mesos + [coin], kills := a.kills + [hit])
  }

  /** What one pass does: only mob `i` can change; a mob the swing reaches is struck and
      shows its damage; a kill is recorded and drops one coin worth between the map's drop
      bounds; a mob the swing does not reach leaves everything as it was. */
  lemma StrikeAtEffects(a: Arena, i: nat, sw: Swing, plats: seq<Rect>, draw: MesoDraw)
    requires i < |a.mobs| && ArenaOk(a, plats) && sw.damage >= 0
    ensures var r := StrikeAt(a, i, sw, plats, draw);
      && r.mobs == a.mobs[i := r.mobs[i]]
      && (!Struck(sw, a.mobs[i]) ==> r == a)
      && (Struck(sw, a.mobs[i]) ==>
         && r.mobs[i] == Strike(a.mobs[i], sw.damage, sw.facing, plats, sw.now)
         && r.texts == a.texts + [DamageText(r.mobs[i].x + r.mobs[i].w / 2.0, a.mobs[i].y.v,
                                              StrikeDamage(sw.damage, a.mobs[i]), TextLife)])
      && (Struck(sw, a.mobs[i]) && a.mobs[i].hp <= sw.damage ==>
         && r.kills == a.kills + [r.mobs[i]]
         && |r.mesos| == |a.mesos| + 1 && r.mesos[..|a.mesos|] == a.mesos
         && (UnitMesoDraw(draw) ==> DropMin(sw.bossMap) <= r.mesos[|a.mesos|].value <= DropMax(sw.bossMap)))
      && (!(Struck(sw, a.mobs[i]) && a.mobs[i].hp <= sw.damage) ==> r.mesos == a.mesos && r.kills == a.kills)
  {
  }

  /** The loop of `tryAttack` over the first `n` mobs, in order, with one coin draw per mob. */
  function SwingUpTo(a: Arena, n: nat, sw: Swing, plats: seq<Rect>, draws: seq<MesoDraw>): (r: Arena)
    requires n <= |a.mobs| && n <= |draws| && ArenaOk(a, plats) && sw.damage >= 0
    ensures ArenaOk(r, plats) && |r.mobs| == |a.mobs|
    decreases n
  {
    if n == 0 then a
    else StrikeAt(SwingUpTo(a, n - 1, sw, plats, draws), n - 1, sw, plats, draws[n - 1])
  }

  /** The experience and quest credit of the kills, in order: each kill's experience is
      gained (with the level-up loop), then the kill is reported to the quest log. The
      relations between the progression fields survive, and completed quests stay
      completed. */
  function Credit(st: Stats, log: QuestLog, kills: seq<Mob>, index: QuestIndex): (r: (Stats, QuestLog))
    requires st.expToNext > 0 && LogOk(index, log)
    ensures r.0.expToNext > 0 && LogOk(index, r.1)
    ensures Consistent(st) ==> Consistent(r.0)
    ensures r.0.str == st.str && r.0.vit == st.vit && r.0.level >= st.level
    ensures log.completed <= r.1.completed
    decreases |kills|
  {
    if kills == [] then (st, log)
    else
      var before := Credit(st, log, kills[..|kills| - 1], index);
      var k := kills[|kills| - 1];
      NoteKill(index, GainExp(before.0, k.exp), before.1, k.id)
  }

  /** The state a swing works on and credits: the arena, the player's progression and the
      quest log. */
  datatype Round = Round(arena: Arena, stats: Stats, log: QuestLog)

  /** The loop of `tryAttack` as it runs: pass `j` strikes mob `j`, and a kill is credited
      (experience, then quest progress) before pass `j + 1` begins. */
  function SwingAndCredit(a: Arena, st: Stats, log: QuestLog, n: nat, sw: Swing, plats: seq<Rect>, draws: seq<MesoDraw>,
                 index: QuestIndex): (r: Round)
    requires n <= |a.mobs| && n <= |draws| && ArenaOk(a, plats) && sw.damage >= 0
    requires st.expToNext > 0 && LogOk(index, log)
    ensures ArenaOk(r.arena, plats) && |r.arena.mobs| == |a.mobs|
    ensures r.stats.expToNext > 0 && LogOk(index, r.log)
    decreases n, 0
  {
    if n == 0 then Round(a, st, log) else SwingPass(a, st, log, n - 1, sw, plats, draws, index)
  }

  /** Pass `i` of the loop, after the passes before it: mob `i` is struck and its kill, if
      any, credited. */
  function SwingPass(a: Arena, st: Stats, log: QuestLog, i: nat, sw: Swing, plats: seq<Rect>, draws: seq<MesoDraw>,
                     index: QuestIndex): (r: Round)
    requires i < |a.mobs| && i < |draws| && ArenaOk(a, plats) && sw.damage >= 0
    requires st.expToNext > 0 && LogOk(index, log)
    ensures ArenaOk(r.arena, plats) && |r.arena.mobs| == |a.mobs|
    ensures r.stats.expToNext > 0 && LogOk(index, r.log)
    decreases i, 1
  {
    var before := SwingAndCredit(a, st, log, i, sw, plats, draws, index);
    CreditNewKill(before, StrikeAt(before.arena, i, sw, plats, draws[i]), index)
  }

  /** The arena `after` a strike, with the kill it added to those of `before`, if any,
      credited at once. */
  function CreditNewKill(before: Round, after: Arena, index: QuestIndex): (r: Round)
    requires before.stats.expToNext > 0 && LogOk(index, before.log)
    ensures r.arena == after && r.stats.expToNext > 0 && LogOk(index, r.log)
  {
    if |after.kills| <= |before.arena.kills| then Round(after, before.stats, before.log)
    else
      var k := after.kills[|after.kills| - 1];
      var credited := NoteKill(index, GainExp(before.stats, k.exp), before.log, k.id);
      Round(after, credited.0, credited.1)
  }

  /** Crediting the new kill of a strike at once keeps the credit that of all kills so far. */
  lemma CreditNewKillExtends(st: Stats, log: QuestLog, before: Round, after: Arena, index: QuestIndex)
    requires st.expToNext > 0 && LogOk(index, log)
    requires (before.stats, before.log) == Credit(st, log, before.arena.kills, index)
    requires after.kills == before.arena.kills || (|after.kills| > 0 && after.kills == before.arena.kills + [after.kills[|after.kills| - 1]])
    ensures var r := CreditNewKill(before, after, index);
      (r.stats, r.log) == Credit(st, log, after.kills, index)
  {
    if after.kills != before.arena.kills {
      CreditSnoc(st, log, before.arena.kills, after.kills[|after.kills| - 1], index);
    }
  }

  /** Crediting one more kill extends the credit of the earlier ones. */
  lemma CreditSnoc(st: Stats, log: QuestLog, kills: seq<Mob>, k: Mob, index: QuestIndex)
    requires st.expToNext > 0 && LogOk(index, log)
    ensures var c := Credit(st, log, kills, index);
      Credit(st, log, kills + [k], index) == NoteKill(index, GainExp(c.0, k.exp), c.1, k.id)
  {
    assert (kills + [k])[..|kills|] == kills;
  }

  /** Crediting each kill as it happens is the same as striking every mob first and then
      crediting the kills in order: the credit never changes what a later strike does. */
  lemma {:induction false} SwingAndCreditSplits(a: Arena, st: Stats, log: QuestLog, n: nat, sw: Swing, plats: seq<Rect>,
                                                draws: seq<MesoDraw>, index: QuestIndex)
    requires n <= |a.mobs| && n <= |draws| && ArenaOk(a, plats) && sw.damage >= 0
    requires st.expToNext > 0 && LogOk(index, log) && a.kills == []
    ensures var r := SwingAndCredit(a, st, log, n, sw, plats, draws, index);
      r.arena == SwingUpTo(a, n, sw, plats, draws) && (r.stats, r.log) == Credit(st, log, r.arena.kills, index)
    decreases n
  {
    if n > 0 {
      var before := SwingAndCredit(a, st, log, n - 1, sw, plats, draws, index);
      SwingAndCreditSplits(a, st, log, n - 1, sw, plats, draws, index);
      var s := StrikeAt(before.arena, n - 1, sw, plats, draws[n - 1]);
      assert s == SwingUpTo(a, n, sw, plats, draws);
      StrikeAtEffects(before.arena, n - 1, sw, plats, draws[n - 1]);
      CreditNewKillExtends(st, log, before, s, index);
    }
  }

  /** What a swing does to one mob on its own: strikes it if it reaches it. */
  function Outcome(sw: Swing, m: Mob, plats: seq<Rect>): Mob
    requires OnMap(m, plats)
  {
    if Struck(sw, m) then Strike(m, sw.damage, sw.facing, plats, sw.now) else m
  }

  /** Mob `j` after the swing has passed the first `n` mobs: its own outcome if `j < n`,
      untouched otherwise. */
  lemma {:induction false} SwingActsOnMob(a: Arena, n: nat, sw: Swing, plats: seq<Rect>, draws: seq<MesoDraw>, j: nat)
    requires n <= |a.mobs| && n <= |draws| && ArenaOk(a, plats) && sw.damage >= 0 && j < |a.mobs|
    ensures SwingUpTo(a, n, sw, plats, draws).mobs[j] == if j < n then Outcome(sw, a.mobs[j], plats) else a.mobs[j]
    decreases n
  {
    if n > 0 {
      var before := SwingUpTo(a, n - 1, sw, plats, draws);
      var r := StrikeAt(before, n - 1, sw, plats, draws[n - 1]);
      assert r == SwingUpTo(a, n, sw, plats, draws);
      StrikeAtEffects(before, n - 1, sw, plats, draws[n - 1]);
      if j == n - 1 {
        assert before.mobs[j] == a.mobs[j] by {
          SwingActsOnMob(a, n - 1, sw, plats, draws, j);
        }
      } else {
        assert before.mobs[j] == if j < n - 1 then Outcome(sw, a.mobs[j], plats) else a.mobs[j] by {
          SwingActsOnMob(a, n - 1, sw, plats, draws, j);
        }
        assert r.mobs[j] == before.mobs[j];
      }
    }
  }

  /** A swing acts on every mob on its own: each of the first `n` mobs ends up struck if the
      swing reached it and untouched otherwise, whatever happened to the others, and the
      mobs past `n` are not touched. */
  lemma SwingActsOnEachMob(a: Arena, n: nat, sw: Swing, plats: seq<Rect>, draws: seq<MesoDraw>)
    requires n <= |a.mobs| && n <= |draws| && ArenaOk(a, plats) && sw.damage >= 0
    ensures var r := SwingUpTo(a, n, sw, plats, draws);
      && (forall j :: n <= j < |a.mobs| ==> r.mobs[j] == a.mobs[j])
      && (forall j :: 0 <= j < n ==> r.mobs[j] == Outcome(sw, a.mobs[j], plats))
  {
    forall j | 0 <= j < |a.mobs| {
      SwingActsOnMob(a, n, sw, plats, draws, j);
    }
  }

  /** The coins a swing drops are worth between the map's drop bounds. */
  predicate DropsWithin(cs: seq<Meso>, bossMap: bool)
  {
    forall c :: c in cs ==> DropMin(bossMap) <= c.value <= DropMax(bossMap)
  }

  /** A swing only appends: the damage numbers, coins and kills already there stay, in
      order; it drops exactly one coin per kill, and every coin it drops is worth between
      the map's drop bounds. */
  lemma {:induction false} SwingAppendsDrops(a: Arena, n: nat, sw: Swing, plats: seq<Rect>, draws: seq<MesoDraw>)
    requires n <= |a.mobs| && n <= |draws| && ArenaOk(a, plats) && sw.damage >= 0
    requires forall j :: 0 <= j < n ==> UnitMesoDraw(draws[j])
    ensures var r := SwingUpTo(a, n, sw, plats, draws);
      && a.texts <= r.texts && a.mesos <= r.mesos && a.kills <= r.kills
      && |r.mesos| - |a.mesos| == |r.kills| - |a.kills|
      && DropsWithin(r.mesos[|a.mesos|..], sw.bossMap)
    decreases n
  {
    if n > 0 {
      var before := SwingUpTo(a, n - 1, sw, plats, draws);
      assert a.texts <= before.texts && a.mesos <= before.mesos && a.kills <= before.kills
          && |before.mesos| - |a.mesos| == |before.kills| - |a.kills|
          && DropsWithin(before.mesos[|a.mesos|..], sw.bossMap) by {
        SwingAppendsDrops(a, n - 1, sw, plats, draws);
      }
      var r := StrikeAt(before, n - 1, sw, plats, draws[n - 1]);
      assert r == SwingUpTo(a, n, sw, plats, draws);
      StrikeAtEffects(before, n - 1, sw, plats, draws[n - 1]);
      if Struck(sw, before.mobs[n - 1]) && before.mobs[n - 1].hp <= sw.damage {
        assert r.mesos[|a.mesos|..] == before.mesos[|a.mesos|..] + [r.mesos[|before.mesos|]];
      }
    }
  }

  /** The hit points of a group of mobs. */
  function TotalHP(ms: seq<Mob>): int
  {
    if ms == [] then 0 else TotalHP(ms[..|ms| - 1]) + ms[|ms| - 1].hp
  }

  /** The damage shown by a run of damage numbers. */
  function Shown(ts: seq<DamageText>): int
  {
    if ts == [] then 0 else Shown(ts[..|ts| - 1]) + ts[|ts| - 1].value
  }

  lemma {:induction false} ShownAppend(ts: seq<DamageText>, t: DamageText)
    ensures Shown(ts + [t]) == Shown(ts) + t.value
  {
    assert (ts + [t])[..|ts + [t]| - 1] == ts;
  }

  /** Replacing one mob changes the group's hit points by the difference. */
  lemma {:induction false} TotalHPUpdate(ms: seq<Mob>, i: nat, m: Mob)
    requires i < |ms|
    ensures TotalHP(ms[i := m]) == TotalHP(ms) - ms[i].hp + m.hp
    decreases |ms|
  {
    var last := |ms| - 1;
    assert ms[i := m][..last] == if i < last then ms[..last][i := m] else ms[..last];
    if i < last {
      TotalHPUpdate(ms[..last], i, m);
    }
  }

  /** One step of the swing shows exactly the hit points it takes. */
  lemma StrikeAtShowsHPLost(a: Arena, i: nat, sw: Swing, plats: seq<Rect>, draw: MesoDraw)
    requires i < |a.mobs| && ArenaOk(a, plats) && sw.damage >= 0
    ensures var r := StrikeAt(a, i, sw, plats, draw);
      Shown(r.texts) - Shown(a.texts) == TotalHP(a.mobs) - TotalHP(r.mobs)
  {
    var r := StrikeAt(a, i, sw, plats, draw);
    StrikeAtEffects(a, i, sw, plats, draw);
    var m := a.mobs[i];
    if Struck(sw, m) {
      assert MobOk(m, plats);
      TotalHPUpdate(a.mobs, i, r.mobs[i]);
      ShownAppend(a.texts, r.texts[|r.texts| - 1]);
      assert r.texts == a.texts + [r.texts[|r.texts| - 1]];
    }
  }

  /** The damage numbers of a swing add up to exactly the hit points the mobs lost: every
      point of damage is shown once, and a kill shows only the hit points the mob had left. */
  lemma {:induction false} SwingShowsHPLost(a: Arena, n: nat, sw: Swing, plats: seq<Rect>, draws: seq<MesoDraw>)
    requires n <= |a.mobs| && n <= |draws| && ArenaOk(a, plats) && sw.damage >= 0
    ensures var r := SwingUpTo(a, n, sw, plats, draws);
      Shown(r.texts) - Shown(a.texts) == TotalHP(a.mobs) - TotalHP(r.mobs)
    decreases n
  {
    if n > 0 {
      var before := SwingUpTo(a, n - 1, sw, plats, draws);
      assert Shown(before.texts) - Shown(a.texts) == TotalHP(a.mobs) - TotalHP(before.mobs) by {
        SwingShowsHPLost(a, n - 1, sw, plats, draws);
      }
      var r := StrikeAt(before, n - 1, sw, plats, draws[n - 1]);
      assert Shown(r.texts) - Shown(before.texts) == TotalHP(before.mobs) - TotalHP(r.mobs) by {
        StrikeAtShowsHPLost(before, n - 1, sw, plats, draws[n - 1]);
      }
      assert SwingUpTo(a, n, sw, plats, draws) == r;
    }
  }

  /** The ageing of one damage number over `dt` seconds. */
  function Age(d: DamageText, dt: real): DamageText
  {
    d.(y := d.y - TextRise * dt, life := d.life - dt)
  }

  /** The in-place loop of `updateDamageTexts`: every number rises and ages. */
  function AgeAll(ts: seq<DamageText>, dt: real): (r: seq<DamageText>)
    ensures |r| == |ts| && forall i :: 0 <= i < |ts| ==> r[i] == Age(ts[i], dt)
  {
    if ts == [] then [] else [Age(ts[0], dt)] + AgeAll(ts[1..], dt)
  }

  /** The filter of `updateDamageTexts`: the numbers with life left, in order. */
  function Survivors(ts: seq<DamageText>): (r: seq<DamageText>)
    ensures |r| <= |ts|
    ensures forall d :: d in r <==> d in ts && d.life > 0.0
  {
    if ts == [] then [] else if ts[0].life > 0.0 then [ts[0]] + Survivors(ts[1..]) else Survivors(ts[1..])
  }

  /** `updateDamageTexts(dt)` as a whole. */
  function AgeTexts(ts: seq<DamageText>, dt: real): seq<DamageText>
  {
    Survivors(AgeAll(ts, dt))
  }

  lemma AgeTextsCons(d: DamageText, ts: seq<DamageText>, dt: real)
    ensures AgeTexts([d] + ts, dt) == if Age(d, dt).life > 0.0 then [Age(d, dt)] + AgeTexts(ts, dt) else AgeTexts(ts, dt)
  {
    assert ([d] + ts)[1..] == ts;
    var aged := AgeAll([d] + ts, dt);
    assert aged == [Age(d, dt)] + AgeAll(ts, dt);
    assert aged[1..] == AgeAll(ts, dt);
  }

  /** Two frames of ageing are one frame of their combined length: a number that survives
      both is where one longer step would put it, and none that one longer step keeps is
      dropped early. */
  lemma {:induction false} AgeTextsCompose(ts: seq<DamageText>, dt1: real, dt2: real)
    requires dt1 >= 0.0 && dt2 >= 0.0
    ensures AgeTexts(AgeTexts(ts, dt1), dt2) == AgeTexts(ts, dt1 + dt2)
    decreases |ts|
  {
    if ts != [] {
      var d, rest := ts[0], ts[1..];
      assert ts == [d] + rest;
      AgeTextsCompose(rest, dt1, dt2);
      AgeTextsCons(d, rest, dt1);
      AgeTextsCons(d, rest, dt1 + dt2);
      var once := Age(d, dt1);
      assert Age(once, dt2) == Age(d, dt1 + dt2);
      if once.life > 0.0 {
        AgeTextsCons(once, AgeTexts(rest, dt1), dt2);
      }
    }
  }
}
