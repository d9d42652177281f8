# MapleStory mini game: the game rules in Dafny

This project models the rules of the browser mini game in `game/game.js`: a player runs,
jumps and swings a weapon across a side-on map of platforms; mobs spawn for the active
quest, wander or chase the player, take damage, die and drop mesos (coins); kills give
experience and quest progress; levels grant stat points; mesos buy potions. Everything
the browser draws, loads or listens to is outside the model. The clock (`nowMs()`) and
every `Math.random()` draw are parameters of the operations that use them: a time `now`
in milliseconds, and draws given as reals in [0, 1).

The model is split by concern, one module per file:

- `geometry.dfy` (Geometry): boxes, the strict overlap test, `clamp`, the player's
  hitbox and the map (ground level and platforms). A JavaScript NaN position is the `NaN`
  case of `Num`.
- `progression.dfy` (Progression): the experience curve, the level-up loop, derived damage
  and max HP, and stat points. These are pure functions on a `Stats` record.
- `economy.dfy` (Economy): the potion shop, coin value buckets, coin spawning and the
  per-tick coin physics, pickup and expiry.
- `quests.dfy` (Quests): kill counting, the completion test, the target species, and the
  move along the quest chain.
- `mobs.dfy` (Mobs): stat lookups with fallbacks, the speed formula, spawning, the per-tick
  AI step, a melee strike, and the removal of finished corpses.
- `combat.dfy` (Combat): the loop of `tryAttack` over the mobs as a fold, the credit of its
  kills, and the ageing of damage numbers.
- `players.dfy` (Players): the `player` object as a class whose methods update its fields
  in place (levelling, stat points, jump, contact damage, attack start, physics).
- `simulation.dfy` (Simulation): the whole game as a class `Game`. The mobs, damage numbers,
  coins, purse and quest state are fields that its methods update. This module also holds
  the frame loop, `boot`, and the first batch of mobs that `refreshNeededAssets` spawns
  for a quest (the roaming ones across the canvas width, a parameter, rather than the
  960 px world).

Platform identity (the source compares platform objects by reference) is the index of the
platform in the map's list. The player's `onPlatform` is `Footing`: `Airborne` for
`undefined`, `OnGround` for `null`, and `OnPlatform(i)` for a platform object. Each
imperative method is stated against a pure function that specifies it. The properties
the game relies on are proved about those functions.

Two behaviours of the code worth noting, which the model keeps:

- Gaining twice the experience threshold from zero does not give two level-ups: the
  threshold grows with the level, so the remainder falls short of the next one
  (`Progression.GainTwiceThresholdLevelsOnce`).
- Completing the last quest of the chain does not reset kill progress: only a move to a
  next quest clears it (`Quests.Complete`).

## Model

| member | source | states |
|---|---|---|
| Geometry.Clamp | game/game.js:215 | the result lies in [lo, hi] when lo <= hi; values inside are kept; values below give lo, values above give hi; an empty range gives lo |
| Geometry.IntersectsIffSharedPoint | game/game.js:786-793 | for boxes of positive size, the strict overlap test holds exactly when the boxes share an interior point (touching edges are no contact) |
| Geometry.IntersectsSymmetric | game/game.js:786-793 | the overlap test does not depend on argument order |
| Geometry.PlayerBoxAt | game/game.js:794-801 | the collision box lies strictly inside the 50 by 70 sprite and has positive size |
| Progression.ExpNeededForLevel | game/game.js:218-221 | every threshold is positive, and at least 30 from level 1 on |
| Progression.CurvePositive | game/game.js:218-221 | the curve polynomial is at least 18 everywhere and at least 30 from level 1 on |
| Progression.ExpCurveAnchors | game/game.js:218-221 | the thresholds of levels 1, 2 and 5 are 30, 54 and 198 |
| Progression.ExpCurveStep | game/game.js:218-221 | each level from 1 on needs 12(lv + 1) more than the one before |
| Progression.ExpCurveStrictlyIncreasing | game/game.js:218-221 | from level 1 on, a higher level always has a higher threshold |
| Progression.LevelStats | game/game.js:223-239 | damage is 2 + STR and max HP is 30 + 6 VIT; nothing else but HP changes; a grown max HP heals by at most the growth and never past the max; a shrunk max HP only clamps HP |
| Progression.LevelUps | game/game.js:246-257 | the loop ends below the threshold; 3 stat points per level gained; STR and VIT unchanged; no level gained means no change; the field relations are kept |
| Progression.LevelUpStep | game/game.js:246-257 | one pass keeps the field relations and does not change where the loop ends |
| Progression.GainExp | game/game.js:241-258 | a non-positive amount changes nothing; a positive one leaves exp below the threshold; the field relations are kept |
| Progression.LevelUpsConservesTotal | game/game.js:246-257 | the total experience earned since level 1 is the same before and after the loop |
| Progression.GainExpBanksAll | game/game.js:241-258 | a gain adds its whole amount to the total since level 1, and the player ends at the level whose threshold the remainder has not reached |
| Progression.GainExactThresholdLevelsOnce | game/game.js:241-258 | from zero exp, gaining exactly the threshold gives one level, 3 points and zero exp |
| Progression.GainBelowTwoThresholdsLevelsOnce | game/game.js:241-258 | from zero exp, any gain below this threshold plus the next gives exactly one level and keeps the excess |
| Progression.GainTwiceThresholdLevelsOnce | game/game.js:241-258 | from zero exp, gaining twice the threshold gives exactly one level |
| Progression.SpendPoint | game/game.js:259-271 | with no stat points nothing changes |
| Progression.SpendOnStrRaisesDamage | game/game.js:259-264 | spending on STR moves one point into STR, raises damage by one, and changes nothing else |
| Progression.SpendOnVitHealsByGrowth | game/game.js:266-271 | spending on VIT moves one point into VIT and raises max HP and HP by exactly 6, changing nothing else |
| Economy.FindPotion | game/game.js:282 | a found potion is in the catalogue with the requested id; not found means no entry has that id |
| Economy.EmptyInventory | game/game.js:429-436 | every potion of the catalogue has a count, and it is zero |
| Economy.Purchase | game/game.js:281-294 | an unknown id or too few mesos leaves the purse unchanged; otherwise the price is paid, exactly that potion's count rises by one, every other count is kept, and mesos never go negative |
| Economy.FirstTypeHolding | game/game.js:458-463 | a found bucket holds the value; none found means no bucket holds it |
| Economy.PickMesoTypeByValue | game/game.js:458-463 | the result is one of the four buckets |
| Economy.MesoTypeBuckets | game/game.js:439-463 | values 1..49, 50..199 and 200..600 get the first three buckets; every other value, including zero, negatives and values over 2000, gets the bag |
| Economy.SpawnMeso | game/game.js:465-479 | the value lies in [min, max]; the sideways speed is in [-60, 60) and the upward speed in [-240, -140); the coin starts at the drop point with 20 s of life, drawn as its value's bucket |
| Economy.DrawWithin | game/game.js:216 | `randBetween(lo, hi)` lies in [lo, hi) |
| Economy.ScaledBelow | game/game.js:216 | a draw in [0, 1) scales a positive span into [0, span) |
| Economy.FloorWithin | game/game.js:466 | flooring a value in [lo, hi) gives an integer in [lo, hi) |
| Economy.DropBuckets | game/game.js:458-480 | a boss drop (800..2000) is always the bag; a normal drop (10..600) never is |
| Economy.FirstCoinLanding | game/game.js:496-511 | the result is the first floating platform crossed; none means none was crossed |
| Economy.CoinLanding | game/game.js:496-511 | only a falling coin lands; it lands on the first floating platform (index 1 on) whose top its bottom crossed within the platform's width, and none crossed means no landing |
| Economy.CoinGround | game/game.js:514-519 | a coin at or below the ground line is set down on it with no vertical speed and its sideways speed damped by 0.85; a coin above it is left unchanged; afterwards no coin is below the ground |
| Economy.CoinStep | game/game.js:488-522 | gravity at 0.6 scale, then motion; a coin landing on a floating platform above the ground sits on its top, stopped and damped by 0.85 (one at or below the ground line leaves it on the ground, damped twice); a coin with no landing at or below the ground sits on it, stopped and damped; any other coin keeps its fall; it loses dt of life and keeps its size, value and kind |
| Economy.MoveCoin | game/game.js:488-522 | the in-place physics of one coin equals `CoinStep` |
| Economy.MesoPass | game/game.js:482-537 | no more coins are kept than there were; every kept coin has life left and does not touch the player's hitbox; non-negative coins give a non-negative gain |
| Economy.MesoPassFrom | game/game.js:484-536 | the pass over a suffix is the pass over its tail, followed by the work on its first coin |
| Economy.MesoPassConservesValue | game/game.js:482-537 | no meso is created or lost: the coins' total value is what is picked up, plus what stays on the floor, plus what expires |
| Economy.Stepped | game/game.js:485-522 | every coin takes one `CoinStep`, in order |
| Economy.Resting | game/game.js:523-535 | exactly the coins with life left that do not touch the hitbox stay |
| Economy.MesoPassPicksUpTouching | game/game.js:482-537 | the pass keeps exactly the moved coins with life left that are off the hitbox, in their order, and gains exactly the values of the moved coins with life left that touch it |
| Quests.CountKill | game/game.js:817-827 | each mob's count rises by the number of kill requirements naming the killed mob (others unchanged); a key is added only when some requirement names the mob |
| Quests.IsQuestCompleted | game/game.js:925-934 | true exactly when every kill requirement's count has reached its target |
| Quests.KillTargets | game/game.js:1005-1013 | every kill requirement's mob is in the list, and every listed mob comes from a kill requirement |
| Quests.KillTargetsHead | game/game.js:1005-1013 | the first target, the species the spawner uses, is the mob of the first kill requirement |
| Quests.KillTargetsAppend | game/game.js:1005-1013 | the targets of joined requirement lists are the targets of each part, in order |
| Quests.QuestTargetMobIds | game/game.js:1005-1013 | no targets once the campaign is over; otherwise the kill targets of the active quest |
| Quests.NextQuest | game/game.js:971-972 | the next quest is the first unlock if that is a non-empty id of the index, and none otherwise |
| Quests.Complete | game/game.js:964-979 | the quest is marked done; the chain moves to the next quest with empty progress, or ends with the progress kept |
| Quests.NoteKill | game/game.js:817-830 | the active quest stays in the index; only exp changes in the stats; completed quests stay completed; with no active quest nothing changes |
| Quests.FinalKillAdvancesChain | game/game.js:817-830 | the kill that meets the last count completes the quest, banks its reward and moves the chain on with empty progress |
| Quests.ShortKillOnlyCounts | game/game.js:817-830 | a kill that leaves a count short only bumps the matching counts |
| Mobs.ComputeMobSpeed | game/game.js:743-747 | the speed lies in [24, 64]: 40 + stat/5 when the stat is in [-80, 120], else the nearer end |
| Mobs.NaNMobIsIntangible | game/game.js:749-751 | a mob whose y is NaN touches no box |
| Mobs.SpawnMob | game/game.js:753-779 | fails exactly when the registry has no stats for the id; otherwise the mob is well formed, alive, at full HP from the registry, standing, facing left or right, and due to switch wander direction 800 to 2200 ms later |
| Mobs.WanderDelayWithin | game/game.js:1203-1204 | a draw in [0, 1) gives a wander delay in [0, 1400) |
| Mobs.ChaseDrive | game/game.js:1191-1197 | a chasing mob faces the player's centre, moves by its direction times 1.25 times its speed times dt, and keeps its wander timer |
| Mobs.WanderDrive | game/game.js:1200-1209 | before the timer runs out, the direction and timer are kept; after it, the direction is left or right and the new delay is 800 to 2200 ms; the mob moves by its direction times its speed times dt |
| Mobs.StepMob | game/game.js:1182-1225 | dead and hit-frozen mobs are unchanged; any other mob takes the chase or wander drive, shows move exactly when it moved more than 0.01 px and stand otherwise, takes the drive's wander timer, and is glued to its platform top; within non-empty bounds, an overshoot puts it on the bound it crossed, facing back inward, and any other move is taken as driven; only position, direction, state and timer change; mobs stay well formed |
| Mobs.GroundPlatformMobNeverChases | game/game.js:1187-1198 | a mob on the ground platform wanders even inside its aggro window |
| Mobs.RoamingMobChasesGroundedPlayer | game/game.js:1187-1198 | a roaming mob in its aggro window chases a player standing on the ground plane |
| Mobs.StepAll | game/game.js:1182-1225 | every mob takes its own step, in order |
| Mobs.Strike | game/game.js:854-902 | HP falls by the damage without overkill; it dies exactly at zero HP (die for 900 ms), otherwise it is hit for 250 ms; aggro lasts 2.5 s; a 5 px knockback stays in bounds; nothing else changes |
| Mobs.Prune | game/game.js:1227 | exactly the expired corpses are removed |
| Mobs.PruneAppend | game/game.js:1227 | pruning a joined list prunes each part in turn, so the mobs kept keep their order |
| Mobs.AliveCount | game/game.js:1250 | the count is at most the number of mobs |
| Mobs.AliveCountCons | game/game.js:1250 | the count read from the front: the first mob's share plus the rest |
| Mobs.PruneKeepsAlive | game/game.js:1227 | removing corpses never changes the alive count |
| Mobs.StepAllKeepsAlive | game/game.js:1182-1225 | the AI step never changes the alive count |
| Combat.StrikeAt | game/game.js:849-903 | the mobs stay well formed and none is added or removed |
| Combat.StrikeAtEffects | game/game.js:849-903 | only mob i can change; a mob reached is struck and shows its damage; a kill is recorded and drops one coin within the map's drop bounds; a mob not reached changes nothing |
| Combat.SwingUpTo | game/game.js:849-903 | the mobs stay well formed and none is added or removed |
| Combat.Credit | game/game.js:898-899 | the field relations are kept; STR and VIT are unchanged; the level never falls; completed quests stay completed |
| Combat.SwingAndCredit | game/game.js:849-903 | the mobs stay well formed, and the active quest stays in the index |
| Combat.SwingPass | game/game.js:849-903 | the same, for one pass |
| Combat.CreditNewKill | game/game.js:898-899 | the arena is the one given, and the active quest stays in the index |
| Combat.CreditNewKillExtends | game/game.js:898-899 | crediting a strike's new kill at once extends the credit of all kills so far |
| Combat.CreditSnoc | game/game.js:898-899 | crediting one more kill extends the credit of the earlier ones |
| Combat.SwingAndCreditSplits | game/game.js:849-903 | crediting each kill as it happens equals striking every mob first and then crediting the kills in order |
| Combat.SwingActsOnMob | game/game.js:849-903 | a mob's fate depends only on itself: struck if reached, untouched otherwise |
| Combat.SwingActsOnEachMob | game/game.js:849-903 | every mob ends up struck if reached and untouched otherwise; mobs past the range are untouched |
| Combat.SwingAppendsDrops | game/game.js:849-903 | a swing only appends damage numbers, coins and kills; one coin per kill; every coin is within the map's drop bounds |
| Combat.ShownAppend | game/game.js:873-878 | adding a number adds its value to the total shown |
| Combat.TotalHPUpdate | game/game.js:854-856 | replacing one mob changes the group's HP by the difference |
| Combat.StrikeAtShowsHPLost | game/game.js:854-878 | one strike shows exactly the HP it takes |
| Combat.SwingShowsHPLost | game/game.js:849-903 | a swing's damage numbers add up to exactly the HP its mobs lost |
| Combat.AgeAll | game/game.js:273-276 | every number ages, and none is added or removed |
| Combat.Survivors | game/game.js:278 | exactly the numbers with life left are kept |
| Combat.AgeTextsCons | game/game.js:272-279 | ageing a list ages its first number, which stays exactly when it has life left |
| Combat.AgeTextsCompose | game/game.js:272-279 | two frames of ageing are one frame of their combined length |
| Players.FirstLanding | game/game.js:1127-1163 | the result is the first floating platform that catches the player; none means none does |
| Players.Settle | game/game.js:1123-1174 | on a platform the player was caught by it and by none before; off platforms, none caught it; on the ground the feet sit on the ground line with no vertical speed; airborne, height and speed are unchanged |
| Players.FallingPlayerIsCaught | game/game.js:1127-1163 | a player falling onto a platform from above, over it, is caught by it or an earlier one |
| Players.StandingSatisfiesSnap | game/game.js:1127-1163 | a player standing on a platform is caught by it again next tick |
| Players.Player.constructor | game/game.js:692-728 | the literal after boot's level setup: level 1, threshold 30, damage 2, 30 of 30 HP, at x 120 |
| Players.Player.ApplyLevelStats | game/game.js:223-239 | the stats become `LevelStats` of the old stats |
| Players.Player.GainExp | game/game.js:241-257 | the stats become `Progression.GainExp` of the old stats, and stay consistent |
| Players.Player.LevelUp | game/game.js:247-255 | one pass of the loop: `LevelUpOnce`, consistent, with less exp and the same end state |
| Players.Player.AddStr | game/game.js:259-264 | the stats become `SpendPoint(Str)` of the old stats |
| Players.Player.AddVit | game/game.js:266-271 | the stats become `SpendPoint(Vit)` of the old stats |
| Players.Player.TryJump | game/game.js:1092-1096 | only a grounded player jumps, leaving the ground at 620 px/s upward |
| Players.Player.HurtFromMob | game/game.js:807-815 | within 500 ms of the last hurt nothing changes; otherwise HP drops by the damage, not below 0, and the cooldown restarts |
| Players.Player.StartAttack | game/game.js:832-840 | it swings exactly when 220 ms have passed; it then plays the current variant for 220 ms and moves the rotation on; otherwise nothing changes |
| Players.Player.AttackBox | game/game.js:842-847 | a 34 px strip directly in front of the sprite, 10 px in from its top and bottom |
| Players.Player.Update | game/game.js:1098-1175 | speed and facing follow the keys; x is clamped into the playfield; height, speed and footing are `Settle` after gravity; grounded exactly when not airborne |
| Players.Player.Integrate | game/game.js:1100-1124 | the motion half: keys, gravity, clamp, and the player becomes airborne |
| Players.Player.Collide | game/game.js:1127-1174 | the collision half gives `Settle` of the fallen position |
| Simulation.FirstToucher | game/game.js:1234-1239 | the first living mob whose box overlaps the sprite; none means none does |
| Simulation.Touched | game/game.js:1231-1240 | with HP left, 500 ms since the last hurt and a touching mob, the first toucher hurts by its species' damage, floored at zero HP, and the hurt clock restarts; no change happens otherwise; HP never rises, and never drops below zero from a non-negative value |
| Simulation.TouchedIgnoresLaterMobs | game/game.js:1234-1239 | once the mobs hold a touching one, mobs behind it change nothing |
| Simulation.FirstToucherAppend | game/game.js:1234-1239 | the search stops at the first touching mob, whatever follows it |
| Simulation.PickIndex | game/game.js:1267 | `floor(u n)` is an index below n, drawn exactly when u lies in [k/n, (k+1)/n) |
| Simulation.Scaled | game/game.js:1259 | a draw in [0, 1) times a non-negative span lies in [0, span] |
| Simulation.SpawnSite | game/game.js:1254-1271 | a boss spawn is on the ground platform, at least 100 px in from either end; any other is on a floating platform, from 10 px in to 70 px short of its right end |
| Simulation.Spawned | game/game.js:1242-1272 | with no targets or within 900 ms nothing changes; at most one mob is appended and the others are kept; a new mob is of the first target species, well formed, and restarts the clock; a spawn that throws adds nothing and names the first target; the alive count never rises past the cap |
| Simulation.FrameKeepsCap | game/game.js:1534-1539 | over a whole frame the spawner keeps to its cap measured against the mobs the frame started with |
| Simulation.BatchMob | game/game.js:1066-1085 | fails exactly when the species has no stats; a boss-quest mob stands on the ground platform at least 100 px in from either end; otherwise mob i < 10 stands on floating platform 1 + i mod (platforms - 1), 30 px in to 60 px short of its right end, and the rest roam 30 px in from either edge of the view; every mob is well formed and alive |
| Simulation.Batch | game/game.js:1077-1085 | the batch fails exactly when the species has no stats; otherwise it holds n living mobs, each the `BatchMob` of its position |
| Simulation.Refreshed | game/game.js:1062-1087 | the spawn clock is reset; the spawn throws exactly when there is a target without stats, leaving no mobs; otherwise there are no mobs without a target, and one boss or thirteen mobs with one, all alive, well formed and of the first target species |
| Simulation.FirstBatchFillsCap | game/game.js:1062-1087 | a fresh batch already reaches the spawner's cap, so the spawner adds nothing to it |
| Simulation.FrameSeconds | game/game.js:1531 | the step is the elapsed time in seconds, capped at 33 ms |
| Simulation.Game.constructor | game/game.js:1625-1657 | the state boot reaches before `refreshNeededAssets`: start quest active with no progress, no mobs, numbers or coins, empty purse, fresh player with feet on platform 3 |
| Simulation.Game.Boot | game/game.js:1625-1660 | fails exactly when the start quest is unknown (initQuestState), the map has no fourth platform, or the first spawn of the start quest's batch throws for want of stats; otherwise a valid game with the start quest active and the mobs of `Refreshed` |
| Simulation.Game.RefreshMobs | game/game.js:1062-1087 | mobs, spawn clock and spawn error become `Refreshed` for the active quest |
| Simulation.Game.SpawnBatch | game/game.js:1066-1087 | the mobs become `Batch` of the first target, or stay empty with its error |
| Simulation.Game.SpawnOnPlatforms | game/game.js:1077-1081 | the first loop: the mobs become the first ten of `Batch`, or stay empty when the species has no stats |
| Simulation.Game.SpawnRoaming | game/game.js:1082-1085 | the second loop: the mobs go from the first ten of `Batch` to all thirteen |
| Simulation.Game.BuyPotion | game/game.js:281-294 | the purse becomes `Purchase` of the old purse |
| Simulation.Game.CompleteQuest | game/game.js:964-979 | the log becomes `Complete` of the old log; the reward is added straight to exp |
| Simulation.Game.OnMobKilled | game/game.js:817-830 | the stats and log become `NoteKill` of the old ones |
| Simulation.Game.TallyKill | game/game.js:820-825 | progress becomes `CountKill` of the old progress |
| Simulation.Game.TryAttack | game/game.js:832-904 | within the cooldown nothing changes; otherwise the swing starts and the scene becomes the interleaved swing of `SwingAndCredit` over every mob |
| Simulation.Game.Sweep | game/game.js:849-903 | the scene becomes the interleaved swing, although strikes and credits run as two loops |
| Simulation.Game.StrikeAll | game/game.js:849-903 | mobs, numbers, coins and kills become `SwingUpTo` of the old arena |
| Simulation.Game.CreditAll | game/game.js:898-899 | stats and log become `Credit` of the kills |
| Simulation.Game.StrikeMob | game/game.js:850-897 | one pass: mobs, numbers, coins and kills become `StrikeAt` |
| Simulation.Game.CreditKill | game/game.js:898-899 | a kill's credit: `GainExp`, then `NoteKill` |
| Simulation.Game.UpdatePlayer | game/game.js:1098-1175 | the game stays valid and the player moves as the keys say: speed and facing from the keys, x clamped into the playfield, landing `Settle` after gravity, grounded exactly when not airborne |
| Simulation.Game.UpdateMobs | game/game.js:1179-1228 | mobs become `Prune(StepAll(...))`; the game stays valid and the alive count is unchanged |
| Simulation.Game.StepMobs | game/game.js:1182-1225 | mobs become `StepAll` of the old mobs, stepped in place |
| Simulation.Game.PruneMobs | game/game.js:1227 | mobs become `Prune` of the old mobs |
| Simulation.Game.UpdateDamageTexts | game/game.js:272-279 | numbers become `AgeTexts` of the old numbers, all with life left |
| Simulation.Game.AgeTextsInPlace | game/game.js:273-276 | numbers become `AgeAll` of the old numbers |
| Simulation.Game.DropExpiredTexts | game/game.js:278 | numbers become `Survivors` of the old numbers |
| Simulation.Game.UpdateMesos | game/game.js:482-537 | coins and purse become `MesoPass` of the old coins; mesos never fall |
| Simulation.Game.VisitCoin | game/game.js:485-536 | one iteration does `MesoVisit` on coin i |
| Simulation.Game.CheckPlayerMobCollisions | game/game.js:1231-1240 | HP and the hurt clock become `Touched` of the old ones: only the first touching mob hurts, and only when the player has HP left and the cooldown has passed |
| Simulation.Game.SpawnLogic | game/game.js:1242-1272 | mobs, spawn clock and spawn error become `Spawned` of the old mobs and clock; the alive count never rises past the cap |
| Simulation.Game.Tick | game/game.js:1529-1540 | the step is `FrameSeconds` of the elapsed time; the player moves as the keys say; numbers age by the step; coins and purse make one `MesoPass` against the moved player; HP and hurt clock become `Touched`, and mobs, spawn clock and error `Spawned`, over the old mobs stepped and pruned against the moved player |
| Simulation.Game.StepMovers | game/game.js:1534-1535 | the player moves as the keys say, then the mobs become `Prune(StepAll(...))` of the old mobs against the moved player |
| Simulation.Game.StepEffects | game/game.js:1536-1537 | numbers become `AgeTexts` of the old ones; coins and purse make one `MesoPass` of the old coins |
| Simulation.Game.StepEncounters | game/game.js:1538-1539 | HP and hurt clock become `Touched`, and mobs, spawn clock and error `Spawned`, both over the mobs as they were |
| Simulation.Game.StepAfterMovers | game/game.js:1536-1539 | the last four updates, stated from the start of the frame: numbers age, coins and purse make one `MesoPass`, and touch damage and spawning act on the stepped and pruned mobs |

## Left out

- Rendering, the canvas, sprites, animations frames, the shop and stats panels, and every
  DOM or keyboard handler: nothing in them is a game rule. The held arrow keys are the
  `left`/`right` parameters.
- Loading of the stats file, quest file, map data and images (`fetchJson`, the image half
  of `loadMapForQuest`, the frame loading and error messages of `refreshNeededAssets` at
  game/game.js:1044-1060, and the frame probes): the stats registry, quest index and map
  are parameters of `Game`.
- The rest of `completeQuest` (game/game.js:981-1001): when the chain moves on, the map
  swap and the move of the player onto the new map; and, on every completion, the
  `refreshNeededAssets` that clears the mobs and resets the spawn clock, then spawns the
  next quest's batch. At the end of the campaign it only clears the field, since there is
  no target left. The model's `CompleteQuest` keeps the mobs as they are. The map and the
  boss flag of a `Game` are fixed for its life.
- The map swap takes effect in mid-swing in the source: `loadMapForQuest` assigns `WORLD`
  and `currentMapName` (game/game.js:950-956) before its first `await` (959), and it runs
  inside the un-awaited `completeQuest` call of `onMobKilled` (828). When a kill completes
  a quest, the later kills of the same swing read the new map's boss flag (886); the model
  keeps the flag of the map the swing started on.
- `nowMs()` and `Math.random()`: the time and each draw are parameters. The source reads
  the clock again inside `updateMobs` (1180, 1227), `tryAttack` (833, 859),
  `hurtPlayerFromMob` (808), `spawnMob` (775), `setMobState` (783) and `spawnLogic` (1246);
  the model uses the one time of the call for all of them.
- IEEE doubles: positions and times are reals, with NaN kept only where a roaming mob's
  y becomes NaN. Experience and mesos are integers, so `gainExp`'s non-finite guard never
  applies. A mob's max HP and touch damage in the stats registry are natural numbers,
  while `getMobStat` (game/game.js:735-741) passes on any number. So a negative damage,
  which would heal the player at 813, and fractional HP or damage are not modelled.
- The frame-scheduling call `requestAnimationFrame` and `render()`: `Tick` is one pass.
  When `spawnMob` throws, the source's loop stops; the model returns the error as `failed`.
- Simulation.Game.Sweep: strikes every mob first and then credits the kills, where the
  source credits each kill inside the loop; `SwingAndCreditSplits` proves the two orders
  equal, and its contract is the interleaved order.
- Simulation.Game.constructor: the player keeps the footing of the ground plane while
  standing on platform 3, as `boot` leaves it.
- Economy.PickMesoTypeByValue: a value outside every bucket gets the last one, the bag;
  the image and frame data of a bucket are not modelled.
- The Python frame downloader under `tools/`: it is not part of the game.
- Mana: potions have an MP kind, but the game has no MP pool and nothing consumes potions.
