# Browser mini-games: simulation rules in Dafny

This project models the per-tick rules of two small canvas games. It proves what those
rules guarantee.

- **The vertical shooter** (`vibe26/game.js`, class `Game`). Each animation frame does four
  things in order:
  - it moves the player by the held keys, clamps it to the 800 × 600 playfield, and fires a
    fan of `powerLevel` bullets when the cooldown has elapsed;
  - it moves bullets, enemies, particles and power-ups, and drops those that left the
    screen or died;
  - it spawns an enemy on a timer and raises the difficulty;
  - it resolves collisions: bullet against enemy, player against enemy, player against
    power-up.

  The collision passes remove elements with `splice` while walking the same arrays with
  `forEach`. The model walks them the same way: index `k` is visited while it is below the
  current length, and the element now at `k` is read. So an element that slides into a
  removed slot is skipped. In the bullet pass, a bullet that already hit keeps hitting, and
  each later hit splices whatever bullet now sits at its old index, or nothing.
- **The tile walker** (`vibe25/map.js`, class `GameMap`, and `vibe25/game.js`). The map is a
  grid of 32-pixel tiles with a set of wall tiles. The player is a 24 × 24 box that moves
  2 pixels per frame. Movement is checked one axis at a time: a step on an axis is taken
  only if all four corners of the box would be on walkable pixels.

Modules:

- `Seqs` (`seqs.dfy`) holds the array operations:
  - `RemoveAt` is `splice(i, 1)`;
  - `Filter` and `Map` are `filter` and the per-element update;
  - `ForEach` is the in-place `forEach` loop;
  - `IsSubseq` means "obtained by deleting elements";
  - `WalkKept` and `WalkRemoved` are the reference rule for a `forEach` that splices out the
    elements it hits. The player-enemy and player-power-up loops are proved equal to this
    rule.
- `ShooterEntities` (`shooter_entities.dfy`) holds the entity records and the overlap test.
  It also specifies the bullet fan and the enemy table.
- `Shooter` (`shooter.dfy`) holds the `Game` class. Its fields are the state record, the
  player, and the four entity lists (as `seq` fields that the methods reassign). Its methods
  are the tick and its parts. The tick and the collision passes also return, as ghost
  results, the enemies destroyed by bullets (`shot`), the enemies that hit the player
  (`crashed`) and the power-ups dropped (`dropped`), so that their contracts can name them.
  `BulletPass` is the reference rule for the nested bullet-enemy loop. The loop is proved
  equal to it, so the bullets left, the enemies left and the enemies destroyed, in order,
  are all determined by the lists the pass starts from.
- `TileMap` (`tilemap.dfy`) holds the `GameMap` class.
- `TileWalker` (`tilewalker.dfy`) holds the spawn search and the walker's frame update.

The following are parameters of a tick:

- the clock (`now`, in seconds);
- the frame length (`dt`);
- the held keys;
- every random draw: the enemy kind, its column roll, the power-up drop of each hit, and the
  particle velocities.

The game's own `Game.Valid` holds from the constructor and is kept by every tick:

- the player keeps its size and speed and stays on the playfield;
- the power level stays in 1..3 and the cooldown stays at least 0.1 s;
- the difficulty stays at least 1;
- the spawn interval stays between the one the difficulty calls for and 1.5 s;
- the score stays non-negative;
- `gameOver` holds exactly when no lives are left.

## Model

| member | source | states |
|---|---|---|
| Seqs.RemoveAt | vibe26/game.js:175-176 | `splice(i, 1)`. An index inside the list removes that element and shifts the rest down by one. An index at or past the end leaves the list as it was. |
| Seqs.RemoveAtIsSubseq | vibe26/game.js:175-176 | A splice only deletes: what remains keeps its order and nothing is added. |
| Seqs.SubseqTrans | vibe26/game.js:171-218 | Successive deletions compose into one deletion. This is what lets the passes chain their splices. |
| Seqs.SubseqBounds | vibe26/game.js:171-218 | A deletion is never longer than the original and contains no new element. |
| Seqs.Filter | vibe26/game.js:134 | `filter` returns no more elements than it was given, and every element it returns satisfies the predicate. |
| Seqs.FilterKeeps | vibe26/game.js:134 | An element is in the filtered list exactly when it was in the input and satisfies the predicate. |
| Seqs.FilterIsSubseq | vibe26/game.js:134 | `filter` keeps the survivors in their original order and adds nothing. |
| Seqs.FilterCount | vibe26/game.js:134 | `filter` keeps every copy of an element that satisfies the predicate and no copy of one that does not. So duplicates are neither dropped nor added. |
| Seqs.SubseqMultiset | vibe26/game.js:171-218 | A list obtained by deleting elements holds no element more often than the original. |
| Seqs.RemoveAtMultiset | vibe26/game.js:175-176 | Splicing out index i removes exactly one copy of the element at i and nothing else. |
| Seqs.WalkKept | vibe26/game.js:193-207 | The reference rule for walking a list by index while splicing out hits. An element that misses is kept and the walk moves on. An element that hits is removed, the element that slides into its slot is kept unvisited, and the walk resumes after it. |
| Seqs.WalkRemoved | vibe26/game.js:193-207 | The elements the same walk splices out, in the order they are removed. |
| Seqs.WalkPartition | vibe26/game.js:193-207 | The survivors and the removed elements of a walk are, together, exactly the original elements with their multiplicities. |
| Seqs.WalkLength | vibe26/game.js:193-207 | The survivors and the removed elements of a walk have as many elements, together, as the original list. |
| Seqs.WalkKeptSubseq | vibe26/game.js:193-207 | The survivors of a walk keep their original order. |
| Seqs.WalkRemovedHit | vibe26/game.js:194-196 | Every element a walk removes hits. |
| Seqs.WalkKeepsMisses | vibe26/game.js:194-196 | Every copy of an element that does not hit survives the walk. |
| Seqs.WalkRemovesSomeHit | vibe26/game.js:193-207 | If some element of the list hits, the walk removes at least one element. It need not remove that one, since a hit that slides into a removed slot is skipped. |
| Seqs.WalkShrinks | vibe26/game.js:193-207 | If some element of the list hits, the walk ends with a shorter list. |
| Seqs.WalkStep | vibe26/game.js:193-196 | One iteration of the index loop agrees with the walk. Visiting index i, and splicing it out on a hit, changes neither the eventual survivors nor the removals still to come, except for the one element removed now. |
| Seqs.WalkAtStep | vibe26/game.js:193-196 | The loop state "the walk of what is left finishes the walk of the original" survives one iteration, with the removed element appended on a hit. |
| Seqs.WalkAtEnd | vibe26/game.js:193-207 | When the index passes the end, the list is exactly the walk's survivors and the removed elements are exactly its removals. |
| Seqs.ForEach | vibe26/game.js:129-131 | The index loop that updates each element in place leaves exactly the element-wise image of the list. |
| ShooterEntities.CollidingSymmetric | vibe26/game.js:221-226 | The overlap test does not depend on argument order. |
| ShooterEntities.CollidingIffSharedPoint | vibe26/game.js:221-226 | For boxes of positive size, the strict overlap test holds exactly when some point lies strictly inside both boxes. So touching edges do not collide. |
| ShooterEntities.IsColliding | vibe26/game.js:221-226 | The overlap test: each box starts strictly before the other ends, on both axes. |
| ShooterEntities.FanAngle | vibe26/game.js:230-233 | Bullet i of n flies at angle (i − (n − 1)/2)·0.2. |
| ShooterEntities.Fan | vibe26/game.js:228-244 | A volley is `powerLevel` bullets, all leaving from the middle of the player's top edge at bullet size and speed, bullet i at `FanAngle(i, n)`. |
| ShooterEntities.NewEnemy | vibe26/game.js:246-272 | A new enemy is 30 × 30, just above the top edge, at the given column, with its kind's base speed plus the difficulty and its kind's health. |
| ShooterEntities.NewPowerUp | vibe26/game.js:277-290 | A dropped power-up is 20 × 20, at the point where the enemy was destroyed, falls at speed 2, and has the drawn kind. |
| ShooterEntities.SpawnIntervalFor | vibe26/game.js:98 | The recomputed spawn interval is 1.5 − 0.1·difficulty, floored at 0.5. It is at least 0.5 s, exactly 0.5 s once the difficulty reaches 10, and at most 1.4 s once the difficulty is at least 1. |
| ShooterEntities.FanShape | vibe26/game.js:228-244 | A volley holds exactly `powerLevel` bullets. Bullet i is at angle (i − (n−1)/2)·0.2 and leaves from the middle of the player's top edge. |
| ShooterEntities.FanMirrored | vibe26/game.js:232-233 | Bullet i and bullet n−1−i have opposite angles. |
| ShooterEntities.FanOfOne | vibe26/game.js:229-233 | Power level one fires a single bullet at angle 0. |
| ShooterEntities.FanPrefixSum | vibe26/game.js:232-233 | The first k angles of a fan of n sum to 0.2·(k(k−1)/2 − k(n−1)/2). |
| ShooterEntities.FanBalanced | vibe26/game.js:228-244 | The angles of a volley sum to zero. |
| ShooterEntities.EnemyTable | vibe26/game.js:259-272 | At any difficulty, fast enemies are faster than normal ones and normal ones are faster than tanks. Tanks have 3 health, the others 1. Every enemy is faster than the difficulty. |
| ShooterEntities.SpawnIntervalMonotone | vibe26/game.js:97-98 | The recomputed spawn interval never drops below 0.5 s and never grows as the difficulty rises. |
| Shooter.SteeredInBounds | vibe26/game.js:108-117 | Whatever keys are held, the stepped player lies in [0, 800 − width] × [0, 600 − height], and only its position changes. |
| Shooter.SteeredOppositeKeysCancel | vibe26/game.js:110-113 | With both keys of each axis held, a player already on the playfield does not move. |
| Shooter.Steered | vibe26/game.js:108-117 | The player moves one fixed step per held direction, not scaled by `dt`. Opposite keys cancel. The result is clamped to the playfield. |
| Shooter.ShotDue | vibe26/game.js:120-121 | A volley is due when fire is held or `shooting` is set, and at least `shotInterval` seconds have passed since `lastShot`. |
| Shooter.BulletStep | vibe26/game.js:129-131 | A bullet rises by speed·dt. |
| Shooter.EnemyStep | vibe26/game.js:139-141 | An enemy falls by speed·dt. |
| Shooter.ParticleStep | vibe26/game.js:149-153 | A particle moves by its velocity, once per frame, and loses dt of life. |
| Shooter.PowerUpStep | vibe26/game.js:161-163 | A power-up falls by speed·dt. |
| Shooter.Boosted | vibe26/game.js:292-306 | Double shot raises the power level by one, to at most 3. Rapid fire halves the cooldown, to at least 0.1 s. Shield changes nothing. |
| Shooter.Burst | vibe26/game.js:309-322 | An explosion is exactly 10 particles. Each starts at the explosion point with one second of life. |
| Shooter.BoostedBounds | vibe26/game.js:292-306 | Double shot raises the power level by one and caps it at 3. Rapid fire halves the cooldown with a floor of 0.1 s (0.25 s becomes 0.125 s). Shield changes nothing. No pickup touches anything but these two fields, and the bounds 1..3 and ≥ 0.1 are kept. |
| Shooter.BoostedByBounds | vibe26/game.js:209-218 | Any run of pickups, applied in order, keeps the power level in 1..3 and never lowers it, keeps the cooldown at least 0.1 s and never raises it, and changes no other player field. |
| Shooter.Explosions | vibe26/game.js:182 | The explosions of n destroyed enemies, one after another, are 10·n particles. |
| Shooter.Drops | vibe26/game.js:184-187 | The bullet pass drops at most one power-up per destroyed enemy. |
| Shooter.Stepped | vibe26/game.js:108-124 | The player step moves the player within the playfield, when its size fits, and sets `lastShot` to `now` exactly when a shot is due. Nothing else about the player changes. |
| Shooter.Volley | vibe26/game.js:119-124 | The bullets the player step appends: `powerLevel` of them, all at the stepped player's top edge, when a shot is due, and none otherwise. |
| Shooter.BoostedBy | vibe26/game.js:209-218 | The player after the pickups of the power-up pass, applied in the order picked. Only the power level and the cooldown can change. A run of shields changes nothing. |
| Shooter.SweepFrom | vibe26/game.js:172-189 | The reference rule for one bullet's inner loop, from enemy index k on. On an overlap, the bullet list is spliced at the bullet's index, the enemy list at k, and the enemy joins the destroyed ones. Either way the walk moves to k + 1, so the enemy that slid into slot k is skipped. The bullet list never grows. |
| Shooter.BulletPass | vibe26/game.js:171-190 | The reference rule for the whole bullet-enemy loop: each bullet index in turn, while it is below the current length, sweeps the enemies with the bullet now at that index. |
| Shooter.BulletPassSkipsSlidIn | vibe26/game.js:171-189 | A concrete run of the splice-while-walking rule. Take bullets b0, b1, b2 and enemies eA, eB, eC, where b0 hits eA but not eC, and b2 hits eC but not eB. The pass destroys eA and then eC, and leaves bullet b1 and enemy eB, whatever else overlaps. Bullet b1 slid into slot 0 and is never compared with any enemy. Enemy eB slid into slot 0 and is never compared with b0. |
| Shooter.ShotRecordStep | vibe26/game.js:173-187 | One more hit of an original bullet extends the pass's record. The enemy joins the destroyed ones, and all its copies but one remain. The bullets and the enemies still only lose elements, and at most one more bullet is gone. |
| Shooter.SweepRecord | vibe26/game.js:172-189 | One bullet's sweep keeps the record. If it destroys nothing, it leaves the lists as they were, and the bullet overlaps none of the enemies it was yet to visit. |
| Shooter.PassRecord | vibe26/game.js:171-190 | The rest of the bullet pass keeps the record. If it destroys nothing, no bullet still to visit overlaps any enemy left. |
| Shooter.BulletPassRecord | vibe26/game.js:171-190 | The bullet pass only deletes from both lists. The enemies gone are exactly the destroyed ones, and each overlapped some original bullet. Every copy of an enemy that overlaps no bullet survives. If some bullet overlaps some enemy, at least one enemy is destroyed and the enemy list gets shorter. |
| Shooter.TallyStep | vibe26/game.js:178-187 | One more hit adds 100 to the score, appends its explosion numbered after the earlier particles, and appends the power-up drawn for this hit, if any. |
| Shooter.EnemyPassesCompose | vibe26/game.js:171-207 | After the bullet pass and the player pass, the lists are `ListsResolved`. The bullets, the destroyed enemies and the enemies the player walks are those of `BulletPass`. The crashed enemies and the survivors are the walk's. An enemy is gone only if a bullet hit it (`shot`) or it hit the player (`crashed`). All copies of an enemy that met neither survive, in order. Some bullet overlapping some enemy means some enemy was shot. Some enemy overlapping the player, and no bullet, means some enemy crashed. |
| Shooter.ExplosionsCompose | vibe26/game.js:182-200 | The crash explosions are numbered on from the bullet-pass explosions, so the particles gained are the explosions of `shot` followed by those of `crashed`. |
| Shooter.PassesCompose | vibe26/game.js:169-219 | The three passes in order give `Resolved`. The bullets and the enemies are as above. The score rises by 100 per shot enemy. One life is lost per crash, and game over is set once lives run out. The explosions come in hit order. The drops are appended to the power-ups, which are then walked against the player, and the picked ones are applied in order. |
| Shooter.ResolvedDetermined | vibe26/game.js:169-219 | `Resolved` pins down the whole outcome. From the same lists, player, counters and draws, any two outcomes it admits are equal, down to `shot`, `crashed` and `dropped`. |
| Shooter.Resolved | vibe26/game.js:169-219 | The outcome of the three collision passes: the lists are `ListsResolved`; the score rises by 100 per shot enemy; one life is lost per crash, and game over is set once lives run out; the explosions of `shot` and then of `crashed` are appended; `dropped` is the drops of `shot`; and the power-ups with the drops appended are walked against the player, which is boosted by the picked ones in order. |
| Shooter.ListsResolved | vibe26/game.js:171-207 | The lists after the bullet pass and the player-enemy pass: the bullets and `shot` are `BulletPass`'s, the player walks what it leaves of the enemies, and the enemy outcome is as stated for `EnemyPassesCompose`. |
| Shooter.Spawned | vibe26/game.js:91-99 | The spawn timer adds one enemy of the drawn kind, above the top edge and faster than the difficulty, when it is due, and none otherwise. |
| Shooter.ResolvedMonotone | vibe26/game.js:169-219 | Resolving collisions never lowers the score, raises the lives or clears game over. It leaves the player in place, only raises its power level (within 1..3) and only shortens its cooldown (to at least 0.1 s). |
| Shooter.Game.constructor | vibe26/game.js:2-54 | The initial state: score 0, 3 lives, not over, not paused, timer 0, interval 1.5 s, difficulty 1, no entities, and the player at (400, 550) with power level 1 and a 0.25 s cooldown. `Valid` holds. |
| Shooter.Game.Update | vibe26/game.js:73-106 | A paused game changes nothing at all. Otherwise the tick is `TickTaken`. The spawn fields follow the two cases of the spawn timer. The lists, the player and the counters are `CollisionsResolved` from the state the earlier steps leave. Those steps are the stepped player; each list moved and filtered; the volley appended to the bullets first; and the spawned enemy, if due, appended to the enemies last. `Valid` is kept. Game over does not stop the tick. |
| Shooter.Game.Tick | vibe26/game.js:76-102 | An unpaused tick is `TickTaken`: the steps before the collisions followed by the collisions, as stated for `Update`. `Valid` is kept. |
| Shooter.Game.TickTaken | vibe26/game.js:73-106 | The outcome of an unpaused tick. The spawn fields are `SpawnTaken`. The lists, the player and the counters are `CollisionsResolved` from the stepped player, the bullets with the volley appended and then moved and pruned, the enemies moved and pruned with the spawned enemy appended, and the power-ups and particles moved and pruned. |
| Shooter.Game.SpawnTaken | vibe26/game.js:91-99 | When the advanced timer reaches the interval, the timer is reset to 0, the difficulty rises by 0.1 and the interval is recomputed for the new difficulty. Otherwise only the timer advances. |
| Shooter.Game.AdvanceWorld | vibe26/game.js:76-99 | The player steps (`Stepped`), the volley (`Volley`) is appended and every list is moved and filtered. The spawn timer advances. When it reaches the interval, one enemy built at the old difficulty is appended, the timer resets, the difficulty rises by 0.1 and the interval is recomputed. |
| Shooter.Game.UpdatePlayer | vibe26/game.js:108-125 | The player becomes its key-stepped, clamped self. A volley (the fan of that player) is appended, and `lastShot` set to `now`, exactly when `ShotDue` holds. Otherwise no bullet is added. |
| Shooter.Game.Shoot | vibe26/game.js:228-244 | The bullet list becomes the old list followed by the fan for the current player. |
| Shooter.Game.MoveEntities | vibe26/game.js:79-89 | The four move-and-prune passes, in order. Each list becomes the filter of its moved image. |
| Shooter.Game.UpdateBullets | vibe26/game.js:127-135 | Bullets rise by speed·dt. Those with y ≤ 0 are dropped. The survivors keep their order and all have y > 0. |
| Shooter.Game.UpdateEnemies | vibe26/game.js:137-145 | Enemies fall by speed·dt. Those with y ≥ 600 are dropped. The survivors keep their order and all have y < 600. |
| Shooter.Game.UpdateParticles | vibe26/game.js:147-157 | Particles move by their velocity and lose dt of life. Those with life ≤ 0 are dropped. The survivors keep their order and all have life > 0. |
| Shooter.Game.UpdatePowerUps | vibe26/game.js:159-167 | Power-ups fall by speed·dt. Those with y ≥ 600 are dropped. The survivors keep their order and all have y < 600. |
| Shooter.Game.AdvanceSpawnTimer | vibe26/game.js:91-99 | Once the advanced timer reaches the interval: exactly one enemy is appended, built at the old difficulty; the timer resets to 0; difficulty rises by 0.1; the interval becomes max(0.5, 1.5 − 0.1·difficulty). Otherwise only the timer advances. The interval never rises and stays ≥ 0.5. |
| Shooter.Game.SpawnEnemy | vibe26/game.js:246-275 | Appends one enemy of the drawn kind, 30 × 30, just above the top edge, at column roll·770, with the speed and health of its kind. |
| Shooter.Game.SpawnPowerUp | vibe26/game.js:277-290 | Appends one 20 × 20 power-up of the drawn kind, falling at speed 2, at the given point. |
| Shooter.Game.CreateExplosion | vibe26/game.js:309-322 | Appends exactly the 10 burst particles at the given point and nothing else. |
| Shooter.Game.ApplyPowerUp | vibe26/game.js:292-306 | The player becomes its boosted self, and `Valid` is kept. |
| Shooter.Game.ExpireRapidFire | vibe26/game.js:302-304 | The deferred callback sets the cooldown back to 0.25 s and changes nothing else. |
| Shooter.Game.CheckCollisions | vibe26/game.js:169-219 | `CollisionsResolved` from the state before the passes, that is `Resolved` with `shot`, `crashed` and `dropped` as the enemies destroyed by bullets, the enemies that hit the player, and the drops. The bullets and enemies left are those of `BulletPass` and the player walk. Every removed enemy collided with an original bullet or with the player. Every enemy that met neither survives. Any collision removes at least one enemy. The score, lives, game over and explosions are exact. The power-ups and the player are those of the walk. The score never falls, the lives never rise, game over is never cleared, and the player only gains power level and loses cooldown. `Valid` is kept. |
| Shooter.Game.BulletEnemyPass | vibe26/game.js:171-190 | The bullets left, the enemies left and the enemies destroyed (`shot`, in hit order) are exactly those of `BulletPass` on the old lists. The enemies gone are exactly `shot`, each of which overlapped some original bullet. Every copy of an enemy that overlaps no original bullet survives. If some original bullet overlaps some original enemy, the enemy list gets shorter. Survivors keep their order. At most one bullet goes per hit. The score rises by 100 per hit. The particles and power-ups gain exactly the explosions and drops of `shot`, in hit order. |
| Shooter.Game.BulletSweep | vibe26/game.js:172-189 | One bullet against every enemy by index. The lists and the destroyed enemies become exactly `SweepFrom` from enemy index 0. The score, particles and power-ups keep the tally of every hit so far. |
| Shooter.Game.BulletHitsEnemy | vibe26/game.js:173-187 | One hit splices the bullet list at the bullet's index (which may now be past the end) and the enemy list at the enemy's index. The enemy joins the destroyed ones. The hit adds 100, appends the explosion at the enemy, and appends the power-up drawn for this hit, if any, so the tally covers it too. |
| Shooter.Game.PlayerEnemyPass | vibe26/game.js:192-207 | The enemies become exactly the survivors of the walk with "overlaps the player" as the hit. One life is lost and one explosion appended, in order, per removed enemy. Game over is true afterwards exactly when it was already true or no lives are left. |
| Shooter.Game.PlayerCrashes | vibe26/game.js:194-205 | One crash splices out the enemy, appends its explosion, costs one life, and sets game over when no lives are left. `Valid` is kept. |
| Shooter.Game.PlayerPowerUpPass | vibe26/game.js:209-218 | The power-ups become exactly the survivors of the walk with "overlaps the player" as the hit. The player becomes the old player boosted by the removed power-ups, in the order removed. Only its power level (never lower) and cooldown (never higher) change. `Valid` is kept. |
| TileMap.SampleLayout | vibe25/map.js:9-30 | The sample layout is exactly the border, (x, 5) and (x, 10) for 5 ≤ x < 10, and (7, y) for 5 ≤ y < 10, clipped to the grid. |
| TileMap.SampleLayoutWalledIn | vibe25/map.js:12-20 | Every border tile of the grid is a wall of the sample layout. |
| TileMap.SampleLayoutFirstSpotOpen | vibe25/map.js:22-29 | Tile (3, 3) is not a wall of the 25 × 15 sample layout. |
| TileMap.TileOfPixel | vibe25/map.js:38-41 | Flooring division by 32 names the one tile whose 32 × 32 square holds the pixel. |
| TileMap.GameMap.constructor | vibe25/map.js:2-7 | A new map has the given size and no walls. |
| TileMap.GameMap.AddWall | vibe25/map.js:32-36 | A tile on the grid is added to the walls. A tile off the grid is ignored, so the walls stay on the grid. Adding a wall twice changes nothing. |
| TileMap.GameMap.GenerateSampleMap | vibe25/map.js:9-30 | Afterwards the walls are exactly the sample layout for the map's size, whatever walls were there before. So calling it twice gives the same set as calling it once. |
| TileMap.GameMap.IsWalkable | vibe25/map.js:38-42 | A pixel is walkable exactly when no wall tile covers it. On a map whose walls are on the grid, every pixel off the grid is walkable. |
| TileWalker.GetSafeSpawn | vibe25/game.js:29-47 | The spawn is the centre (32·x + 16, 32·y + 16) of the first candidate tile, in list order, that is not a wall, with that tile as `tileX`/`tileY`. With all six candidates blocked it is (32, 32) with tile (1, 1). |
| TileWalker.CentreOf | vibe25/game.js:38-43 | The spawn point for a tile is its centre: a pixel inside the tile, 16 pixels from its top-left corner on each axis, with the tile recorded as `tileX`/`tileY`. |
| TileWalker.WantedAxes | vibe25/game.js:77-80 | Each axis of the requested position moves by −speed, 0 or +speed. It stays put exactly when both or neither of its keys are held. |
| TileWalker.Wanted | vibe25/game.js:74-80 | The requested position moves by `speed` per held direction. Opposite keys cancel. No wall is consulted. |
| TileWalker.BoxFits | vibe25/game.js:83-93 | A box fits when all four of its corners are walkable. |
| TileWalker.TileGame.constructor | vibe25/game.js:14-27 | A 25 × 15 map with exactly the sample walls. The player is a 24 × 24 box of speed 2 at (112, 112), the centre of tile (3, 3). |
| TileWalker.TileGame.Update | vibe25/game.js:72-96 | x takes the requested value only if all four corners fit at the new x and the old y. Then y takes its requested value only if all four corners fit at the resulting x and the new y. Size and speed are unchanged. A box whose corners were all walkable still has walkable corners. |
| TileWalker.SpawnBoxFits | vibe25/game.js:14-27 | On the 25 × 15 sample map, all four corners of the spawned 24 × 24 box at (112, 112) are walkable. |

## Left out

- Drawing is not modelled: `render`, `GameMap.draw`, the debug overlay, canvas set-up, and colours and text. These are calls on a drawing API that is not part of this model.
- The DOM and event wiring are not modelled: `updateUI`, the key listeners, and the pause and debug toggles. Held keys are an input record. The shooter's `init` is modelled only for the player record it creates, folded into `Shooter.Game.constructor`.
- The fire key never registers in the shooter as written. `handleKeyDown` (vibe26/game.js:64-66) sets `keys[e.key]` only for names already in the `keys` record, which holds `Space`, while the space bar's `e.key` is `" "`. The `shooting` flag is never set either. So the test at vibe26/game.js:120 is never true, and the shooter never fires. The model's `space` input stands for the intended fire key: `ShotDue` fires when it is held.
- The frame loop and clock are not modelled: `gameLoop`, `requestAnimationFrame` and `performance.now`. The frame length and the clock time are parameters.
- Shooter.Game.UpdatePlayer: the clock is read twice in the source, once for the cooldown test and once for `lastShot`. The model uses one `now` value for both.
- Randomness (`Math.random`) is not modelled. The enemy kind and column roll, the 10% power-up drop and its kind, and the particle velocities are supplied by the `Rng` record. The model does not restrict the column roll to [0, 1).
- Trigonometry in `createExplosion` is not modelled. Particle velocities are opaque draws. The model states only that 10 particles with life 1 appear at the explosion point.
- Shooter.Game.ApplyPowerUp: only the immediate effect is modelled. The 5-second `setTimeout` revert is the separate method `ExpireRapidFire`. When it runs relative to the ticks is not modelled.
- Arithmetic is not IEEE doubles: positions and times are exact reals. Rounding, and what rounding would do to `difficulty += 0.1`, is not captured.
- Tile coordinates are integer pairs, not the source's `"x,y"` string keys. The two encodings match for integer coordinates. Walker positions are integers: they start at a tile centre and move by 2.
- Shooter.Game.Update: a game that is over keeps ticking. The code checks only `paused`, so the model follows the code and not the description of the game.
