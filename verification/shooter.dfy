/** The vertical shooter's simulation: one `Game` object whose `Update` advances every
    entity by one animation frame, spawns enemies on a timer and resolves collisions.
    The clock, the held keys and every random draw are parameters of the tick. */
module Shooter {
  import opened Seqs
  import opened ShooterEntities

  /** The random draws one tick may make, fixed in advance.
      `enemyKind` and `enemyRoll` (drawn from [0, 1) by the source, unconstrained here) are
      the draws of `spawnEnemy`;
      `drop(h)` says whether the h-th bullet hit of the tick drops a power-up, and of
      which kind; `spark(i)` is the velocity of the explosion particle that is appended
      at index `i` of the particle list. */
  datatype Rng = Rng(enemyKind: EnemyKind, enemyRoll: real,
                     drop: nat -> Option<PowerUpKind>, spark: nat -> (real, real))

  datatype Option<T> = None | Some(value: T)

  /** The player after the held direction keys moved it one fixed step (not scaled by the
      elapsed time) and the result was clamped to the playfield. */
  function Steered(p: Player, keys: Keys): (q: Player)
  {
    var y1 := if keys.w || keys.arrowUp then p.y - p.speed else p.y;
    var y2 := if keys.s || keys.arrowDown then y1 + p.speed else y1;
    var x1 := if keys.a || keys.arrowLeft then p.x - p.speed else p.x;
    var x2 := if keys.d || keys.arrowRight then x1 + p.speed else x1;
    p.(x := Max(0.0, Min(CanvasWidth - p.width, x2)),
       y := Max(0.0, Min(CanvasHeight - p.height, y2)))
  }

  /** Whatever keys are held, the player ends inside the playfield, and nothing but its
      position changes. */
  lemma SteeredInBounds(p: Player, keys: Keys)
    requires 0.0 <= p.width <= CanvasWidth && 0.0 <= p.height <= CanvasHeight
    ensures 0.0 <= Steered(p, keys).x <= CanvasWidth - p.width
    ensures 0.0 <= Steered(p, keys).y <= CanvasHeight - p.height
    ensures Steered(p, keys) == p.(x := Steered(p, keys).x, y := Steered(p, keys).y)
  {
  }

  /** Opposite keys held together cancel: the player only gets clamped. */
  lemma SteeredOppositeKeysCancel(p: Player, keys: Keys)
    requires (keys.w || keys.arrowUp) && (keys.s || keys.arrowDown)
    requires (keys.a || keys.arrowLeft) && (keys.d || keys.arrowRight)
    requires 0.0 <= p.x <= CanvasWidth - p.width && 0.0 <= p.y <= CanvasHeight - p.height
    ensures Steered(p, keys) == p
  {
  }

  /** A volley is due when the fire key is held (or the never-set `shooting` flag is on)
      and the cooldown has elapsed since the last volley. */
  predicate ShotDue(p: Player, keys: Keys, now: real)
  {
    (keys.space || p.shooting) && now - p.lastShot >= p.shotInterval
  }

  predicate BulletOnScreen(b: Bullet) { b.y > 0.0 }
  predicate EnemyOnScreen(e: Enemy) { e.y < CanvasHeight }
  predicate ParticleAlive(pt: Particle) { pt.life > 0.0 }
  predicate PowerUpOnScreen(u: PowerUp) { u.y < CanvasHeight }

  /** Per-frame motion of each kind of entity over `dt` seconds. Bullets rise, enemies and
      power-ups fall, particles move a fixed step per frame and lose `dt` of life. */
  function BulletStep(dt: real): Bullet -> Bullet
  {
    (b: Bullet) => b.(y := b.y - b.speed * dt)
  }

  function EnemyStep(dt: real): Enemy -> Enemy
  {
    (e: Enemy) => e.(y := e.y + e.speed * dt)
  }

  function ParticleStep(dt: real): Particle -> Particle
  {
    (pt: Particle) => pt.(x := pt.x + pt.vx, y := pt.y + pt.vy, life := pt.life - dt)
  }

  function PowerUpStep(dt: real): PowerUp -> PowerUp
  {
    (u: PowerUp) => u.(y := u.y + u.speed * dt)
  }

  /** The ten particles of one explosion at (x, y), appended after `base` particles. */
  function Burst(x: real, y: real, base: nat, spark: nat -> (real, real)): (r: seq<Particle>)
    ensures |r| == ParticlesPerExplosion
    ensures forall i :: 0 <= i < |r| ==> r[i].life == 1.0 && r[i].x == x && r[i].y == y
  {
    seq(ParticlesPerExplosion, i requires 0 <= i => Particle(x, y, spark(base + i).0, spark(base + i).1, 1.0))
  }

  /** The player a power-up pickup leaves, before any deferred revert. */
  function Boosted(p: Player, kind: PowerUpKind): Player
  {
    match kind
    case DoubleShot => p.(powerLevel := if p.powerLevel + 1 < MaxPowerLevel then p.powerLevel + 1 else MaxPowerLevel)
    case Shield => p
    case RapidFire => p.(shotInterval := Max(MinShotInterval, p.shotInterval * 0.5))
  }

  /** Double shot raises the power level by one up to three, rapid fire halves the
      cooldown down to 0.1 s, shield changes nothing; no pickup moves the player. */
  lemma BoostedBounds(p: Player, kind: PowerUpKind)
    requires 1 <= p.powerLevel <= MaxPowerLevel && p.shotInterval >= MinShotInterval
    ensures var q := Boosted(p, kind);
      && 1 <= q.powerLevel <= MaxPowerLevel && q.powerLevel >= p.powerLevel
      && MinShotInterval <= q.shotInterval <= p.shotInterval
      && q == p.(powerLevel := q.powerLevel, shotInterval := q.shotInterval)
    ensures kind == Shield ==> Boosted(p, kind) == p
    ensures kind == DoubleShot && p.powerLevel < MaxPowerLevel ==>
      Boosted(p, kind).powerLevel == p.powerLevel + 1
    ensures kind == RapidFire && p.shotInterval == DefaultShotInterval ==>
      Boosted(p, kind).shotInterval == 0.125
  {
  }

  /** The collision tests of the three passes: an enemy or a power-up overlapping the
      player, and an enemy overlapping some bullet of a list. */
  predicate EnemyTouches(p: Player, e: Enemy)
  {
    IsColliding(p.Bounds(), e.Bounds())
  }

  predicate PowerUpTouches(p: Player, u: PowerUp)
  {
    IsColliding(p.Bounds(), u.Bounds())
  }

  predicate ShotBy(bullets: seq<Bullet>, e: Enemy)
  {
    exists b :: b in bullets && IsColliding(b.Bounds(), e.Bounds())
  }

  function EnemyHit(p: Player): Enemy -> bool
  {
    (e: Enemy) => EnemyTouches(p, e)
  }

  function PowerUpHit(p: Player): PowerUp -> bool
  {
    (u: PowerUp) => PowerUpTouches(p, u)
  }

  /** The particles of one explosion per destroyed enemy, in the order they were destroyed,
      appended after `base` particles. */
  function Explosions(destroyed: seq<Enemy>, base: nat, spark: nat -> (real, real)): (r: seq<Particle>)
    ensures |r| == ParticlesPerExplosion * |destroyed|
  {
    if destroyed == [] then []
    else
      var n := |destroyed| - 1;
      Explosions(destroyed[..n], base, spark)
        + Burst(destroyed[n].x, destroyed[n].y, base + ParticlesPerExplosion * n, spark)
  }

  /** The power-ups dropped by the enemies that bullets destroyed: the h-th destroyed enemy
      drops one where it was when `drop(h)` names a kind. */
  function Drops(shot: seq<Enemy>, drop: nat -> Option<PowerUpKind>): (r: seq<PowerUp>)
    ensures |r| <= |shot|
  {
    if shot == [] then []
    else
      var n := |shot| - 1;
      Drops(shot[..n], drop)
        + (if drop(n).Some? then [NewPowerUp(shot[n].x, shot[n].y, drop(n).value)] else [])
  }

  /** The player after picking up `picked`, in order: only the power level and the cooldown
      can change, and shields alone change nothing. */
  function BoostedBy(p: Player, picked: seq<PowerUp>): (r: Player)
    ensures r == p.(powerLevel := r.powerLevel, shotInterval := r.shotInterval)
    ensures (forall u :: u in picked ==> u.kind == Shield) ==> r == p
  {
    if picked == [] then p
    else Boosted(BoostedBy(p, picked[..|picked| - 1]), picked[|picked| - 1].kind)
  }

  /** Any run of pickups keeps the power level in 1..3 and never lowers it, keeps the
      cooldown at or above 0.1 s and never raises it, and changes nothing else. */
  lemma {:induction false} BoostedByBounds(p: Player, picked: seq<PowerUp>)
    requires 1 <= p.powerLevel <= MaxPowerLevel && p.shotInterval >= MinShotInterval
    ensures var q := BoostedBy(p, picked);
      && p.powerLevel <= q.powerLevel <= MaxPowerLevel
      && MinShotInterval <= q.shotInterval <= p.shotInterval
      && q == p.(powerLevel := q.powerLevel, shotInterval := q.shotInterval)
    decreases |picked|
  {
    if picked != [] {
      var n := |picked| - 1;
      BoostedByBounds(p, picked[..n]);
      BoostedBounds(BoostedBy(p, picked[..n]), picked[n].kind);
    }
  }

  /** The bullets the player step appends: `powerLevel` of them, leaving from the stepped
      player's top edge, when a shot is due, and none otherwise. */
  function Volley(p: Player, keys: Keys, now: real): (r: seq<Bullet>)
    ensures |r| == if ShotDue(Steered(p, keys), keys, now) && p.powerLevel > 0 then p.powerLevel else 0
    ensures forall b :: b in r ==> b.y == Steered(p, keys).y
  {
    var q := Steered(p, keys);
    if ShotDue(q, keys, now) then Fan(q) else []
  }

  /** The player the player step leaves: moved within the playfield, and with `lastShot`
      set to `now` exactly when a shot is due; nothing else changes. */
  function Stepped(p: Player, keys: Keys, now: real): (r: Player)
    ensures r == p.(x := r.x, y := r.y, lastShot := r.lastShot)
    ensures 0.0 <= p.width <= CanvasWidth && 0.0 <= p.height <= CanvasHeight ==>
              0.0 <= r.x <= CanvasWidth - p.width && 0.0 <= r.y <= CanvasHeight - p.height
    ensures r.lastShot == if ShotDue(Steered(p, keys), keys, now) then now else p.lastShot
  {
    var q := Steered(p, keys);
    if ShotDue(q, keys, now) then q.(lastShot := now) else q
  }

  /** Appending one destroyed enemy appends its explosion. */
  lemma ExplosionsAppend(destroyed: seq<Enemy>, e: Enemy, base: nat, spark: nat -> (real, real))
    ensures Explosions(destroyed + [e], base, spark)
         == Explosions(destroyed, base, spark) + Burst(e.x, e.y, base + ParticlesPerExplosion * |destroyed|, spark)
  {
    assert (destroyed + [e])[..|destroyed|] == destroyed;
  }

  /** Appending one destroyed enemy appends its drop, if `drop` names one for it. */
  lemma DropsAppend(shot: seq<Enemy>, e: Enemy, drop: nat -> Option<PowerUpKind>)
    ensures Drops(shot + [e], drop)
         == Drops(shot, drop) + (if drop(|shot|).Some? then [NewPowerUp(e.x, e.y, drop(|shot|).value)] else [])
  {
    assert (shot + [e])[..|shot|] == shot;
  }

  /** Appending one pickup applies it after the earlier ones. */
  lemma BoostedByAppend(p: Player, picked: seq<PowerUp>, u: PowerUp)
    ensures BoostedBy(p, picked + [u]) == Boosted(BoostedBy(p, picked), u.kind)
  {
    assert (picked + [u])[..|picked|] == picked;
  }

  /** Where the bullet pass stands: the two lists as they are now, and the enemies
      destroyed so far, in the order they were hit. */
  datatype BulletPassState = BulletPassState(bullets: seq<Bullet>, enemies: seq<Enemy>, shot: seq<Enemy>)

  /** The inner walk of the bullet pass, from enemy index `enemyIndex` on: `bullet`, read at
      `bulletIndex` when the walk began, against the enemy now at the index, for as long as
      the index is below the current length. A hit splices the bullet list at `bulletIndex`
      (which may by now hold another bullet, or lie past the end) and the enemy list at the
      index, records the enemy, and the walk goes on at the next index. */
  function SweepFrom(bullet: Bullet, bulletIndex: nat, s: BulletPassState, enemyIndex: nat): (r: BulletPassState)
    ensures |r.bullets| <= |s.bullets|
    decreases |s.enemies| - enemyIndex
  {
    if enemyIndex >= |s.enemies| then s
    else
      var e := s.enemies[enemyIndex];
      if IsColliding(bullet.Bounds(), e.Bounds()) then
        SweepFrom(bullet, bulletIndex,
                  BulletPassState(RemoveAt(s.bullets, bulletIndex), RemoveAt(s.enemies, enemyIndex), s.shot + [e]),
                  enemyIndex + 1)
      else SweepFrom(bullet, bulletIndex, s, enemyIndex + 1)
  }

  /** The outer walk of the bullet pass, from bullet index `bulletIndex` on: the bullet now
      at the index sweeps the enemies, for as long as the index is below the current
      length of the bullet list. */
  function BulletPassFrom(s: BulletPassState, bulletIndex: nat): BulletPassState
    decreases |s.bullets| - bulletIndex
  {
    if bulletIndex >= |s.bullets| then s
    else BulletPassFrom(SweepFrom(s.bullets[bulletIndex], bulletIndex, s, 0), bulletIndex + 1)
  }

  /** The whole bullet pass over `bullets` and `enemies`: the lists it leaves and the enemies
      it destroys, in order. */
  function BulletPass(bullets: seq<Bullet>, enemies: seq<Enemy>): BulletPassState
  {
    BulletPassFrom(BulletPassState(bullets, enemies, []), 0)
  }

  /** The pass skips whatever slides into a spliced slot. With bullets [b0, b1, b2] and
      enemies [eA, eB, eC], where b0 hits eA but not eC and b2 hits eC but not eB: b0
      destroys eA, then b2, slid to index 1, destroys eC; b1, slid to index 0, is never
      looked at, and eB survives even if b1 overlaps it. */
  lemma BulletPassSkipsSlidIn(b0: Bullet, b1: Bullet, b2: Bullet, eA: Enemy, eB: Enemy, eC: Enemy)
    requires IsColliding(b0.Bounds(), eA.Bounds()) && !IsColliding(b0.Bounds(), eC.Bounds())
    requires IsColliding(b2.Bounds(), eC.Bounds()) && !IsColliding(b2.Bounds(), eB.Bounds())
    ensures BulletPass([b0, b1, b2], [eA, eB, eC]) == BulletPassState([b1], [eB], [eA, eC])
  {
    var s0 := BulletPassState([b0, b1, b2], [eA, eB, eC], []);
    var s1 := BulletPassState([b1, b2], [eB, eC], [eA]);
    var s2 := BulletPassState([b1], [eB], [eA, eC]);
    assert RemoveAt(s0.bullets, 0) == s1.bullets && RemoveAt(s0.enemies, 0) == s1.enemies;
    assert s0.shot + [eA] == s1.shot;
    assert SweepFrom(b0, 0, s1, 1) == SweepFrom(b0, 0, s1, 2) == s1;
    assert SweepFrom(b0, 0, s0, 0) == s1;
    assert RemoveAt(s1.bullets, 1) == s2.bullets && RemoveAt(s1.enemies, 1) == s2.enemies;
    assert SweepFrom(b2, 1, s1, 1) == SweepFrom(b2, 1, s2, 2) == s2;
    assert SweepFrom(b2, 1, s1, 0) == s2;
    assert BulletPassFrom(s1, 1) == BulletPassFrom(s2, 2) == s2;
  }

  /** What a bullet pass that started from `bullets0` and `enemies0` has done so far: both
      lists only lost elements, the enemies exactly those in `shot` and the bullets at most
      one per hit, and each destroyed enemy overlapped an original bullet. */
  ghost predicate ShotRecord(bullets0: seq<Bullet>, enemies0: seq<Enemy>, s: BulletPassState)
  {
    && IsSubseq(s.enemies, enemies0) && IsSubseq(s.bullets, bullets0)
    && multiset(s.enemies) + multiset(s.shot) == multiset(enemies0)
    && |s.enemies| + |s.shot| == |enemies0|
    && (forall e :: e in s.shot ==> ShotBy(bullets0, e))
    && |bullets0| - |s.bullets| <= |s.shot|
  }

  /** One more hit, of an original bullet on the enemy at `enemyIndex`, with the bullet list
      spliced at `bulletIndex`, extends the record by that enemy. */
  lemma ShotRecordStep(bullets0: seq<Bullet>, enemies0: seq<Enemy>, s: BulletPassState,
                       bulletIndex: nat, enemyIndex: nat, bullet: Bullet)
    requires ShotRecord(bullets0, enemies0, s)
    requires enemyIndex < |s.enemies| && bullet in bullets0
    requires IsColliding(bullet.Bounds(), s.enemies[enemyIndex].Bounds())
    ensures var e := s.enemies[enemyIndex];
      ShotRecord(bullets0, enemies0,
                 BulletPassState(RemoveAt(s.bullets, bulletIndex), RemoveAt(s.enemies, enemyIndex), s.shot + [e]))
  {
    var e := s.enemies[enemyIndex];
    RemoveAtKeepsSubseq(s.bullets, bulletIndex, bullets0);
    RemoveAtKeepsSubseq(s.enemies, enemyIndex, enemies0);
    RemoveAtMultiset(s.enemies, enemyIndex);
    assert multiset(s.shot + [e]) == multiset(s.shot) + multiset{e};
    assert ShotBy(bullets0, e);
  }

  /** A sweep by an original bullet keeps the record, never forgets a hit, and when it hits
      nothing it changes nothing: the bullet overlaps none of the enemies it visited. */
  lemma {:induction false} SweepRecord(bullets0: seq<Bullet>, enemies0: seq<Enemy>, bullet: Bullet,
                                       bulletIndex: nat, s: BulletPassState, enemyIndex: nat)
    requires ShotRecord(bullets0, enemies0, s) && bullet in bullets0
    ensures var r := SweepFrom(bullet, bulletIndex, s, enemyIndex);
      && ShotRecord(bullets0, enemies0, r)
      && |r.shot| >= |s.shot|
      && (|r.shot| == |s.shot| ==>
            && r == s
            && forall k :: enemyIndex <= k < |s.enemies| ==> !IsColliding(bullet.Bounds(), s.enemies[k].Bounds()))
    decreases |s.enemies| - enemyIndex
  {
    if enemyIndex < |s.enemies| {
      var e := s.enemies[enemyIndex];
      if IsColliding(bullet.Bounds(), e.Bounds()) {
        var t := BulletPassState(RemoveAt(s.bullets, bulletIndex), RemoveAt(s.enemies, enemyIndex), s.shot + [e]);
        ShotRecordStep(bullets0, enemies0, s, bulletIndex, enemyIndex, bullet);
        SweepRecord(bullets0, enemies0, bullet, bulletIndex, t, enemyIndex + 1);
      } else {
        SweepRecord(bullets0, enemies0, bullet, bulletIndex, s, enemyIndex + 1);
      }
    }
  }

  /** The outer walk keeps the record, never forgets a hit, and when it hits nothing it
      changes nothing: no bullet it visited overlaps any enemy. */
  lemma {:induction false} PassRecord(bullets0: seq<Bullet>, enemies0: seq<Enemy>,
                                      s: BulletPassState, bulletIndex: nat)
    requires ShotRecord(bullets0, enemies0, s)
    ensures var r := BulletPassFrom(s, bulletIndex);
      && ShotRecord(bullets0, enemies0, r)
      && |r.shot| >= |s.shot|
      && (|r.shot| == |s.shot| ==>
            && r == s
            && forall j, k :: bulletIndex <= j < |s.bullets| && 0 <= k < |s.enemies| ==>
                 !IsColliding(s.bullets[j].Bounds(), s.enemies[k].Bounds()))
    decreases |s.bullets| - bulletIndex
  {
    if bulletIndex < |s.bullets| {
      var bullet := s.bullets[bulletIndex];
      SubseqBounds(s.bullets, bullets0);
      SweepRecord(bullets0, enemies0, bullet, bulletIndex, s, 0);
      PassRecord(bullets0, enemies0, SweepFrom(bullet, bulletIndex, s, 0), bulletIndex + 1);
    }
  }

  /** What the bullet pass promises: the record above; an enemy that no bullet overlaps
      keeps all its copies; and some bullet overlapping some enemy destroys at least one
      enemy. */
  lemma BulletPassRecord(bullets0: seq<Bullet>, enemies0: seq<Enemy>)
    ensures var r := BulletPass(bullets0, enemies0);
      && ShotRecord(bullets0, enemies0, r)
      && (forall e :: !ShotBy(bullets0, e) ==> multiset(r.enemies)[e] == multiset(enemies0)[e])
      && ((exists e :: e in enemies0 && ShotBy(bullets0, e)) ==> r.shot != [] && |r.enemies| < |enemies0|)
  {
    var s := BulletPassState(bullets0, enemies0, []);
    var r := BulletPass(bullets0, enemies0);
    SubseqRefl(bullets0);
    SubseqRefl(enemies0);
    PassRecord(bullets0, enemies0, s, 0);
    forall e | !ShotBy(bullets0, e)
      ensures multiset(r.enemies)[e] == multiset(enemies0)[e]
    {
      assert e !in r.shot;
    }
  }

  /** The score, particles and power-ups after the hits in `shot`: 100 points, one
      explosion and the drop `drop` draws for each hit, in order. */
  ghost predicate Tally(score0: int, particles0: seq<Particle>, powerUps0: seq<PowerUp>,
                        drop: nat -> Option<PowerUpKind>, spark: nat -> (real, real), shot: seq<Enemy>,
                        score: int, particles: seq<Particle>, powerUps: seq<PowerUp>)
  {
    && score == score0 + 100 * |shot|
    && particles == particles0 + Explosions(shot, |particles0|, spark)
    && powerUps == powerUps0 + Drops(shot, drop)
  }

  /** One more hit, on `e`, scores 100, adds its explosion and the drop drawn for it. */
  lemma TallyStep(score0: int, particles0: seq<Particle>, powerUps0: seq<PowerUp>,
                  drop: nat -> Option<PowerUpKind>, spark: nat -> (real, real), shot: seq<Enemy>,
                  score: int, particles: seq<Particle>, powerUps: seq<PowerUp>, e: Enemy)
    requires Tally(score0, particles0, powerUps0, drop, spark, shot, score, particles, powerUps)
    ensures var kind := drop(|shot|);
      Tally(score0, particles0, powerUps0, drop, spark, shot + [e],
            score + 100, particles + Burst(e.x, e.y, |particles|, spark),
            powerUps + (if kind.Some? then [NewPowerUp(e.x, e.y, kind.value)] else []))
  {
    var kind := drop(|shot|);
    ExplosionsAppend(shot, e, |particles0|, spark);
    AppendAssoc(particles0, Explosions(shot, |particles0|, spark), Burst(e.x, e.y, |particles|, spark));
    DropsAppend(shot, e, drop);
    AppendAssoc(powerUps0, Drops(shot, drop), if kind.Some? then [NewPowerUp(e.x, e.y, kind.value)] else []);
  }

  /** The enemy outcome of the collision passes: `enemies` is what is left of `enemies0`,
      in order; the enemies gone are exactly `shot` (each overlapped a bullet of `bullets0`)
      and `crashed` (each overlapped the player); an enemy that meets neither keeps all its
      copies; some enemy overlapping a bullet means some enemy was shot, and some enemy
      overlapping the player and no bullet means some enemy crashed. */
  ghost predicate EnemiesResolved(bullets0: seq<Bullet>, enemies0: seq<Enemy>, player0: Player,
                                  shot: seq<Enemy>, crashed: seq<Enemy>, enemies: seq<Enemy>)
  {
    && IsSubseq(enemies, enemies0)
    && multiset(enemies) + multiset(shot) + multiset(crashed) == multiset(enemies0)
    && (forall e :: e in shot ==> ShotBy(bullets0, e))
    && (forall e :: e in crashed ==> EnemyTouches(player0, e))
    && (forall e :: !ShotBy(bullets0, e) && !EnemyTouches(player0, e) ==>
          multiset(enemies)[e] == multiset(enemies0)[e])
    && ((exists e :: e in enemies0 && ShotBy(bullets0, e)) ==> shot != [])
    && ((exists e :: e in enemies0 && EnemyTouches(player0, e) && !ShotBy(bullets0, e)) ==> crashed != [])
  }

  /** The lists after the bullet pass and the player-enemy pass: the bullet pass is
      `BulletPass`, which leaves the bullets and destroys `shot`, and the player walks what it
      leaves of the enemies, removing `crashed`; bullets only lose elements, at most one per
      destroyed enemy; and the enemies are resolved as above. */
  ghost predicate ListsResolved(bullets0: seq<Bullet>, enemies0: seq<Enemy>, player0: Player,
                                shot: seq<Enemy>, crashed: seq<Enemy>, bullets: seq<Bullet>, enemies: seq<Enemy>)
  {
    var pass := BulletPass(bullets0, enemies0);
    && shot == pass.shot && bullets == pass.bullets
    && crashed == WalkRemoved(pass.enemies, EnemyHit(player0))
    && enemies == WalkKept(pass.enemies, EnemyHit(player0))
    && IsSubseq(bullets, bullets0) && |bullets0| - |bullets| <= |shot|
    && EnemiesResolved(bullets0, enemies0, player0, shot, crashed, enemies)
  }

  /** The bullet pass followed by the player pass: walking what `BulletPass` leaves of the
      enemies against the player resolves the lists as above. */
  lemma EnemyPassesCompose(bullets0: seq<Bullet>, enemies0: seq<Enemy>, bullets1: seq<Bullet>,
                           enemies1: seq<Enemy>, player0: Player, shot: seq<Enemy>)
    requires BulletPass(bullets0, enemies0) == BulletPassState(bullets1, enemies1, shot)
    ensures ListsResolved(bullets0, enemies0, player0, shot, WalkRemoved(enemies1, EnemyHit(player0)),
                          bullets1, WalkKept(enemies1, EnemyHit(player0)))
  {
    BulletPassRecord(bullets0, enemies0);
    assert ShotRecord(bullets0, enemies0, BulletPassState(bullets1, enemies1, shot));
    var hit := EnemyHit(player0);
    var enemies, crashed := WalkKept(enemies1, hit), WalkRemoved(enemies1, hit);
    WalkPartition(enemies1, hit);
    WalkRemovedHit(enemies1, hit);
    WalkKeptSubseq(enemies1, hit);
    SubseqTrans(enemies, enemies1, enemies0);
    assert multiset(enemies) + multiset(shot) + multiset(crashed) == multiset(enemies0);
    forall e | !ShotBy(bullets0, e) && !EnemyTouches(player0, e)
      ensures multiset(enemies)[e] == multiset(enemies0)[e]
    {
      assert e !in shot && e !in crashed;
    }
    if e :| e in enemies0 && EnemyTouches(player0, e) && !ShotBy(bullets0, e) {
      assert e !in shot;
      assert multiset(enemies1)[e] == multiset(enemies0)[e];
      WalkRemovesSomeHit(enemies1, hit, e);
    }
  }

  /** What the collision passes do, starting from the given lists, player and counters, and
      ending with the last nine arguments.
      - The bullet pass is `BulletPass`: it leaves the bullets and destroys `shot`, and the
        player walks what it leaves of the enemies, removing `crashed`.
      - Bullets only lose elements, and at most one per destroyed enemy.
      - Every enemy that is gone was either destroyed by a bullet of `bullets0` (the ones
        in `shot`, in order) or hit the player (the ones in `crashed`); enemies that meet
        neither are all still there, and the survivors keep their order.
      - Some bullet overlapping some enemy destroys at least one enemy; some enemy
        overlapping the player, and no bullet, costs at least one life.
      - Each destroyed enemy scores 100, each crash costs a life, and game over is set
        once no lives are left and never cleared.
      - Each destroyed or crashed enemy explodes, in that order; destroyed enemies drop
        `dropped` as `drop` decides.
      - The power-ups, with the drops appended, are walked against the player: the ones
        it touches (by the splice-while-walking rule) are removed and applied in order. */
  ghost predicate Resolved(
    bullets0: seq<Bullet>, enemies0: seq<Enemy>, powerUps0: seq<PowerUp>, particles0: seq<Particle>,
    player0: Player, score0: int, lives0: int, gameOver0: bool,
    drop: nat -> Option<PowerUpKind>, spark: nat -> (real, real),
    shot: seq<Enemy>, crashed: seq<Enemy>, dropped: seq<PowerUp>,
    bullets: seq<Bullet>, enemies: seq<Enemy>, powerUps: seq<PowerUp>, particles: seq<Particle>,
    player: Player, score: int, lives: int, gameOver: bool)
  {
    && ListsResolved(bullets0, enemies0, player0, shot, crashed, bullets, enemies)
    && score == score0 + 100 * |shot|
    && lives == lives0 - |crashed|
    && gameOver == (gameOver0 || lives <= 0)
    && particles == particles0 + Explosions(shot, |particles0|, spark)
                    + Explosions(crashed, |particles0| + ParticlesPerExplosion * |shot|, spark)
    && dropped == Drops(shot, drop)
    && powerUps == WalkKept(powerUps0 + dropped, PowerUpHit(player0))
    && player == BoostedBy(player0, WalkRemoved(powerUps0 + dropped, PowerUpHit(player0)))
  }

  /** Resolving collisions never lowers the score, never raises the lives, never clears game
      over, keeps the player where it was, and only ever raises its power level and
      shortens its cooldown, within their bounds. */
  lemma ResolvedMonotone(
    bullets0: seq<Bullet>, enemies0: seq<Enemy>, powerUps0: seq<PowerUp>, particles0: seq<Particle>,
    player0: Player, score0: int, lives0: int, gameOver0: bool,
    drop: nat -> Option<PowerUpKind>, spark: nat -> (real, real),
    shot: seq<Enemy>, crashed: seq<Enemy>, dropped: seq<PowerUp>,
    bullets: seq<Bullet>, enemies: seq<Enemy>, powerUps: seq<PowerUp>, particles: seq<Particle>,
    player: Player, score: int, lives: int, gameOver: bool)
    requires Resolved(bullets0, enemies0, powerUps0, particles0, player0, score0, lives0, gameOver0,
                      drop, spark, shot, crashed, dropped,
                      bullets, enemies, powerUps, particles, player, score, lives, gameOver)
    requires 1 <= player0.powerLevel <= MaxPowerLevel && player0.shotInterval >= MinShotInterval
    ensures score >= score0 && lives <= lives0 && (gameOver0 ==> gameOver)
    ensures player0.powerLevel <= player.powerLevel <= MaxPowerLevel
    ensures MinShotInterval <= player.shotInterval <= player0.shotInterval
    ensures player == player0.(powerLevel := player.powerLevel, shotInterval := player.shotInterval)
  {
    BoostedByBounds(player0, WalkRemoved(powerUps0 + dropped, PowerUpHit(player0)));
  }

  /** `Resolved` pins down the whole outcome: from the same lists, player, counters and
      draws, any two outcomes it admits are equal, down to `shot`, `crashed` and `dropped`. */
  lemma ResolvedDetermined(
    bullets0: seq<Bullet>, enemies0: seq<Enemy>, powerUps0: seq<PowerUp>, particles0: seq<Particle>,
    player0: Player, score0: int, lives0: int, gameOver0: bool,
    drop: nat -> Option<PowerUpKind>, spark: nat -> (real, real),
    shot: seq<Enemy>, crashed: seq<Enemy>, dropped: seq<PowerUp>,
    bullets: seq<Bullet>, enemies: seq<Enemy>, powerUps: seq<PowerUp>, particles: seq<Particle>,
    player: Player, score: int, lives: int, gameOver: bool,
    shot': seq<Enemy>, crashed': seq<Enemy>, dropped': seq<PowerUp>,
    bullets': seq<Bullet>, enemies': seq<Enemy>, powerUps': seq<PowerUp>, particles': seq<Particle>,
    player': Player, score': int, lives': int, gameOver': bool)
    requires Resolved(bullets0, enemies0, powerUps0, particles0, player0, score0, lives0, gameOver0,
                      drop, spark, shot, crashed, dropped,
                      bullets, enemies, powerUps, particles, player, score, lives, gameOver)
    requires Resolved(bullets0, enemies0, powerUps0, particles0, player0, score0, lives0, gameOver0,
                      drop, spark, shot', crashed', dropped',
                      bullets', enemies', powerUps', particles', player', score', lives', gameOver')
    ensures shot == shot' && crashed == crashed' && dropped == dropped'
    ensures bullets == bullets' && enemies == enemies' && powerUps == powerUps' && particles == particles'
    ensures player == player' && score == score' && lives == lives' && gameOver == gameOver'
  {
  }

  /** The shot enemies' explosions, then the crashed enemies' explosions numbered on from
      there. */
  lemma ExplosionsCompose(particles0: seq<Particle>, shot: seq<Enemy>, crashed: seq<Enemy>,
                          spark: nat -> (real, real))
    ensures var particles1 := particles0 + Explosions(shot, |particles0|, spark);
      particles1 + Explosions(crashed, |particles1|, spark)
        == particles0 + Explosions(shot, |particles0|, spark)
           + Explosions(crashed, |particles0| + ParticlesPerExplosion * |shot|, spark)
  {
    ExplosionsFrom(crashed, |particles0 + Explosions(shot, |particles0|, spark)|,
                   |particles0| + ParticlesPerExplosion * |shot|, spark);
  }

  /** Explosions numbered from equal bases are equal. */
  lemma ExplosionsFrom(destroyed: seq<Enemy>, base: nat, base': nat, spark: nat -> (real, real))
    requires base == base'
    ensures Explosions(destroyed, base, spark) == Explosions(destroyed, base', spark)
  {
  }

  /** The three passes in order resolve the collisions: given what the bullet pass promises
      (state 1), what the player-enemy pass promises from there (state 2) and what the
      player-power-up pass promises from there (the final lists and player), the outcome is
      `Resolved`. */
  lemma PassesCompose(
    bullets0: seq<Bullet>, enemies0: seq<Enemy>, powerUps0: seq<PowerUp>, particles0: seq<Particle>,
    player0: Player, score0: int, lives0: int, gameOver0: bool,
    drop: nat -> Option<PowerUpKind>, spark: nat -> (real, real), shot: seq<Enemy>,
    bullets1: seq<Bullet>, enemies1: seq<Enemy>, score1: int, particles1: seq<Particle>, powerUps1: seq<PowerUp>,
    enemies2: seq<Enemy>, particles2: seq<Particle>, lives2: int, gameOver2: bool,
    powerUps3: seq<PowerUp>, player3: Player)
    requires BulletPass(bullets0, enemies0) == BulletPassState(bullets1, enemies1, shot)
    requires Tally(score0, particles0, powerUps0, drop, spark, shot, score1, particles1, powerUps1)
    requires enemies2 == WalkKept(enemies1, EnemyHit(player0))
    requires lives2 == lives0 - |WalkRemoved(enemies1, EnemyHit(player0))|
    requires gameOver2 == (gameOver0 || lives2 <= 0)
    requires particles2 == particles1 + Explosions(WalkRemoved(enemies1, EnemyHit(player0)), |particles1|, spark)
    requires powerUps3 == WalkKept(powerUps1, PowerUpHit(player0))
    requires player3 == BoostedBy(player0, WalkRemoved(powerUps1, PowerUpHit(player0)))
    ensures Resolved(bullets0, enemies0, powerUps0, particles0, player0, score0, lives0, gameOver0,
                     drop, spark, shot, WalkRemoved(enemies1, EnemyHit(player0)), Drops(shot, drop),
                     bullets1, enemies2, powerUps3, particles2, player3, score1, lives2, gameOver2)
  {
    EnemyPassesCompose(bullets0, enemies0, bullets1, enemies1, player0, shot);
    ExplosionsCompose(particles0, shot, WalkRemoved(enemies1, EnemyHit(player0)), spark);
  }

  /** The enemies the spawn timer adds in one tick: one of the drawn kind at column
      roll·(800 - 30) when it is due, and none otherwise. */
  function Spawned(due: bool, kind: EnemyKind, roll: real, difficulty: real): (r: seq<Enemy>)
    ensures |r| == if due then 1 else 0
    ensures due ==> r[0].kind == kind && r[0].y < 0.0 && r[0].speed > difficulty
  {
    EnemyTable(roll * (CanvasWidth - EnemySize), difficulty);
    if due then [NewEnemy(kind, roll * (CanvasWidth - EnemySize), difficulty)] else []
  }

  class Game {
    var score: int
    var lives: int
    var gameOver: bool
    var paused: bool
    var spawnTimer: real
    var spawnInterval: real
    var difficulty: real
    var player: Player
    var bullets: seq<Bullet>
    var enemies: seq<Enemy>
    var particles: seq<Particle>
    var powerUps: seq<PowerUp>

    /** What every tick keeps: the player's fixed size and speed, a power level in 1..3, a
        cooldown of at least 0.1 s, a difficulty that started at 1 and a spawn interval
        between 1.5 s and the one the difficulty calls for (never below 0.5 s), a
        non-negative score, and game over exactly when no lives are left. */
    ghost predicate Valid()
      reads this`player, this`difficulty, this`spawnInterval, this`score, this`gameOver, this`lives
    {
      && player.width == PlayerSize && player.height == PlayerSize && player.speed == PlayerSpeed
      && 1 <= player.powerLevel <= MaxPowerLevel
      && player.shotInterval >= MinShotInterval
      && 0.0 <= player.x <= CanvasWidth - PlayerSize && 0.0 <= player.y <= CanvasHeight - PlayerSize
      && difficulty >= 1.0
      && SpawnIntervalFor(difficulty) <= spawnInterval <= 1.5
      && score >= 0
      && (gameOver <==> lives <= 0)
    }

    /** The state after `new Game()` and `init()`: three lives, no entities, and the player
        at the bottom centre with power level one and a 0.25 s cooldown. */
    constructor ()
      ensures Valid()
      ensures score == 0 && lives == 3 && !gameOver && !paused
      ensures spawnTimer == 0.0 && spawnInterval == 1.5 && difficulty == 1.0
      ensures player == Player(400.0, 550.0, PlayerSize, PlayerSize, PlayerSpeed, false, 0.0,
                               DefaultShotInterval, 1)
      ensures bullets == [] && enemies == [] && particles == [] && powerUps == []
    {
      score, lives, gameOver, paused := 0, 3, false, false;
      spawnTimer, spawnInterval, difficulty := 0.0, 1.5, 1.0;
      player := Player(CanvasWidth / 2.0, CanvasHeight - 50.0, PlayerSize, PlayerSize, PlayerSpeed,
                       false, 0.0, DefaultShotInterval, 1);
      bullets, enemies, particles, powerUps := [], [], [], [];
    }

    /** One animation frame of `dt` seconds, at clock time `now`, with `keys` held. A paused
        game does nothing; game over does not stop the tick. Otherwise the player steps,
        the four lists move and prune, the spawn timer advances, and the collisions are
        resolved on the lists and the player as those steps left them. `shot`, `crashed`
        and `dropped` name the enemies destroyed by bullets, the enemies that hit the
        player, and the power-ups dropped, during this tick. */
    method Update(dt: real, keys: Keys, now: real, rng: Rng)
      returns (ghost shot: seq<Enemy>, ghost crashed: seq<Enemy>, ghost dropped: seq<PowerUp>)
      requires Valid()
      modifies this`player, this`bullets, this`enemies, this`particles, this`powerUps,
               this`spawnTimer, this`difficulty, this`spawnInterval, this`score, this`lives, this`gameOver
      ensures Valid()
      ensures old(paused) ==> unchanged(this)
      ensures !old(paused) ==> TickTaken(old(spawnTimer), old(spawnInterval), old(difficulty), old(bullets),
                                         old(enemies), old(powerUps), old(particles), old(player), old(score),
                                         old(lives), old(gameOver), dt, keys, now, rng, shot, crashed, dropped)
    {
      if paused {
        return [], [], [];
      }
      shot, crashed, dropped := Tick(dt, keys, now, rng);
    }

    /** An unpaused tick: the steps before the collisions, then the collisions. */
    method Tick(dt: real, keys: Keys, now: real, rng: Rng)
      returns (ghost shot: seq<Enemy>, ghost crashed: seq<Enemy>, ghost dropped: seq<PowerUp>)
      requires Valid()
      modifies this`player, this`bullets, this`enemies, this`particles, this`powerUps,
               this`spawnTimer, this`difficulty, this`spawnInterval, this`score, this`lives, this`gameOver
      ensures Valid()
      ensures TickTaken(old(spawnTimer), old(spawnInterval), old(difficulty), old(bullets),
                        old(enemies), old(powerUps), old(particles), old(player), old(score),
                        old(lives), old(gameOver), dt, keys, now, rng, shot, crashed, dropped)
    {
      AdvanceWorld(dt, keys, now, rng.enemyKind, rng.enemyRoll);
      assert SpawnTaken(old(spawnTimer), old(spawnInterval), old(difficulty), dt);
      shot, crashed, dropped := CheckCollisions(rng.drop, rng.spark);
    }

    /** The new state after an unpaused tick from the given old state. The spawn fields
        follow the two cases of the spawn timer. The lists, the player and the counters are
        `CollisionsResolved` from the state the steps before the collisions leave: the
        stepped player, each list moved and pruned, the bullet list with the volley
        appended first, and the enemy list with the spawned enemy appended after. */
    ghost predicate TickTaken(spawnTimer0: real, spawnInterval0: real, difficulty0: real, bullets0: seq<Bullet>,
                              enemies0: seq<Enemy>, powerUps0: seq<PowerUp>, particles0: seq<Particle>,
                              player0: Player, score0: int, lives0: int, gameOver0: bool,
                              dt: real, keys: Keys, now: real, rng: Rng,
                              shot: seq<Enemy>, crashed: seq<Enemy>, dropped: seq<PowerUp>)
      reads this
    {
      var due := spawnTimer0 + dt >= spawnInterval0;
      && SpawnTaken(spawnTimer0, spawnInterval0, difficulty0, dt)
      && CollisionsResolved(
           Filter(Map(bullets0 + Volley(player0, keys, now), BulletStep(dt)), BulletOnScreen),
           Filter(Map(enemies0, EnemyStep(dt)), EnemyOnScreen)
             + Spawned(due, rng.enemyKind, rng.enemyRoll, difficulty0),
           Filter(Map(powerUps0, PowerUpStep(dt)), PowerUpOnScreen),
           Filter(Map(particles0, ParticleStep(dt)), ParticleAlive),
           Stepped(player0, keys, now), score0, lives0, gameOver0,
           rng.drop, rng.spark, shot, crashed, dropped)
    }

    /** The spawn fields after the spawn timer advanced by `dt` from the given ones. */
    ghost predicate SpawnTaken(spawnTimer0: real, spawnInterval0: real, difficulty0: real, dt: real)
      reads this`spawnTimer, this`difficulty, this`spawnInterval
    {
      if spawnTimer0 + dt >= spawnInterval0 then
        spawnTimer == 0.0 && difficulty == difficulty0 + 0.1 && spawnInterval == SpawnIntervalFor(difficulty)
      else spawnTimer == spawnTimer0 + dt && difficulty == difficulty0 && spawnInterval == spawnInterval0
    }

    /** The part of a tick before the collisions: the player steps, the four lists move and
        prune, and the spawn timer advances, spawning one enemy when it is due. */
    method AdvanceWorld(dt: real, keys: Keys, now: real, kind: EnemyKind, roll: real)
      requires Valid()
      modifies this`player, this`bullets, this`enemies, this`particles, this`powerUps,
               this`spawnTimer, this`difficulty, this`spawnInterval
      ensures Valid()
      ensures player == Stepped(old(player), keys, now)
      ensures bullets == Filter(Map(old(bullets) + Volley(old(player), keys, now), BulletStep(dt)), BulletOnScreen)
      ensures particles == Filter(Map(old(particles), ParticleStep(dt)), ParticleAlive)
      ensures powerUps == Filter(Map(old(powerUps), PowerUpStep(dt)), PowerUpOnScreen)
      ensures var due := old(spawnTimer) + dt >= old(spawnInterval);
        && enemies == Filter(Map(old(enemies), EnemyStep(dt)), EnemyOnScreen)
                      + Spawned(due, kind, roll, old(difficulty))
        && if due then spawnTimer == 0.0 && difficulty == old(difficulty) + 0.1
                       && spawnInterval == SpawnIntervalFor(difficulty)
           else spawnTimer == old(spawnTimer) + dt && difficulty == old(difficulty)
                && spawnInterval == old(spawnInterval)
    {
      UpdatePlayer(keys, now);
      MoveEntities(dt);
      AdvanceSpawnTimer(dt, kind, roll);
    }

    /** Moves the player by the held keys, clamps it to the playfield and fires at most one
        volley, stamping the clock time when it does. */
    method UpdatePlayer(keys: Keys, now: real)
      requires Valid()
      modifies this`player, this`bullets
      ensures Valid()
      ensures player.powerLevel == old(player.powerLevel)
      ensures bullets == old(bullets) + Volley(old(player), keys, now)
      ensures player == Stepped(old(player), keys, now)
    {
      SteeredInBounds(player, keys);
      player := Steered(player, keys);
      if ShotDue(player, keys, now) {
        Shoot();
        player := player.(lastShot := now);
      }
    }

    /** Appends one bullet per power level, fanned out symmetrically about straight up. */
    method Shoot()
      modifies this`bullets
      ensures bullets == old(bullets) + Fan(player)
    {
      var bulletCount := player.powerLevel;
      var i := 0;
      while i < bulletCount
        invariant 0 <= i && (i <= bulletCount || i == 0)
        invariant bullets == old(bullets) + Fan(player)[..i]
      {
        var angle := (i as real - (bulletCount - 1) as real / 2.0) * Spread;
        bullets := bullets + [Bullet(player.x + player.width / 2.0, player.y,
                                     BulletWidth, BulletHeight, BulletSpeed, angle)];
        i := i + 1;
      }
      assert Fan(player)[..i] == Fan(player);
    }

    /** The four move-and-prune passes of a tick, in order. */
    method MoveEntities(dt: real)
      modifies this`bullets, this`enemies, this`particles, this`powerUps
      ensures bullets == Filter(Map(old(bullets), BulletStep(dt)), BulletOnScreen)
      ensures enemies == Filter(Map(old(enemies), EnemyStep(dt)), EnemyOnScreen)
      ensures particles == Filter(Map(old(particles), ParticleStep(dt)), ParticleAlive)
      ensures powerUps == Filter(Map(old(powerUps), PowerUpStep(dt)), PowerUpOnScreen)
    {
      UpdateBullets(dt);
      UpdateEnemies(dt);
      UpdateParticles(dt);
      UpdatePowerUps(dt);
    }

    /** Moves every bullet up by speed·dt, then drops those at or above the top edge. */
    method UpdateBullets(dt: real)
      modifies this`bullets
      ensures bullets == Filter(Map(old(bullets), BulletStep(dt)), BulletOnScreen)
      ensures IsSubseq(bullets, Map(old(bullets), BulletStep(dt)))
      ensures forall i :: 0 <= i < |bullets| ==> bullets[i].y > 0.0
    {
      var moved := ForEach(bullets, BulletStep(dt));
      bullets := Filter(moved, BulletOnScreen);
      FilterIsSubseq(moved, BulletOnScreen);
    }

    /** Moves every enemy down by speed·dt, then drops those at or below the bottom edge. */
    method UpdateEnemies(dt: real)
      modifies this`enemies
      ensures enemies == Filter(Map(old(enemies), EnemyStep(dt)), EnemyOnScreen)
      ensures IsSubseq(enemies, Map(old(enemies), EnemyStep(dt)))
      ensures forall i :: 0 <= i < |enemies| ==> enemies[i].y < CanvasHeight
    {
      var moved := ForEach(enemies, EnemyStep(dt));
      enemies := Filter(moved, EnemyOnScreen);
      FilterIsSubseq(moved, EnemyOnScreen);
    }

    /** Moves every particle by its per-frame velocity and ages it by dt, then drops the
        dead ones. */
    method UpdateParticles(dt: real)
      modifies this`particles
      ensures particles == Filter(Map(old(particles), ParticleStep(dt)), ParticleAlive)
      ensures IsSubseq(particles, Map(old(particles), ParticleStep(dt)))
      ensures forall i :: 0 <= i < |particles| ==> particles[i].life > 0.0
    {
      var moved := ForEach(particles, ParticleStep(dt));
      particles := Filter(moved, ParticleAlive);
      FilterIsSubseq(moved, ParticleAlive);
    }

    /** Moves every power-up down by speed·dt, then drops those at or below the bottom
        edge. */
    method UpdatePowerUps(dt: real)
      modifies this`powerUps
      ensures powerUps == Filter(Map(old(powerUps), PowerUpStep(dt)), PowerUpOnScreen)
      ensures IsSubseq(powerUps, Map(old(powerUps), PowerUpStep(dt)))
      ensures forall i :: 0 <= i < |powerUps| ==> powerUps[i].y < CanvasHeight
    {
      var moved := ForEach(powerUps, PowerUpStep(dt));
      powerUps := Filter(moved, PowerUpOnScreen);
      FilterIsSubseq(moved, PowerUpOnScreen);
    }

    /** The spawn timer step of a tick: once the timer reaches the interval, one enemy is
        spawned at the current difficulty, the timer restarts, the difficulty rises by 0.1
        and the interval is recomputed from it. */
    method AdvanceSpawnTimer(dt: real, kind: EnemyKind, roll: real)
      requires Valid()
      modifies this`spawnTimer, this`enemies, this`difficulty, this`spawnInterval
      ensures Valid()
      ensures if old(spawnTimer) + dt >= old(spawnInterval) then
          && enemies == old(enemies) + [NewEnemy(kind, roll * (CanvasWidth - EnemySize), old(difficulty))]
          && spawnTimer == 0.0
          && difficulty == old(difficulty) + 0.1
          && spawnInterval == Max(0.5, 1.5 - difficulty * 0.1)
        else
          && enemies == old(enemies)
          && spawnTimer == old(spawnTimer) + dt
          && difficulty == old(difficulty)
          && spawnInterval == old(spawnInterval)
      ensures 0.5 <= spawnInterval <= old(spawnInterval)
    {
      spawnTimer := spawnTimer + dt;
      if spawnTimer >= spawnInterval {
        SpawnEnemy(kind, roll);
        spawnTimer := 0.0;
        SpawnIntervalMonotone(difficulty, difficulty + 0.1);
        difficulty := difficulty + 0.1;
        spawnInterval := Max(0.5, 1.5 - difficulty * 0.1);
      }
    }

    /** Appends one enemy of the drawn kind at column roll·(800 - 30), just above the top. */
    method SpawnEnemy(kind: EnemyKind, roll: real)
      modifies this`enemies
      ensures enemies == old(enemies) + [NewEnemy(kind, roll * (CanvasWidth - EnemySize), difficulty)]
    {
      enemies := enemies + [NewEnemy(kind, roll * (CanvasWidth - EnemySize), difficulty)];
    }

    /** Appends a power-up of the drawn kind at (x, y). */
    method SpawnPowerUp(x: real, y: real, kind: PowerUpKind)
      modifies this`powerUps
      ensures powerUps == old(powerUps) + [NewPowerUp(x, y, kind)]
    {
      powerUps := powerUps + [NewPowerUp(x, y, kind)];
    }

    /** Appends the ten particles of an explosion at (x, y), each with one second of life. */
    method CreateExplosion(x: real, y: real, spark: nat -> (real, real))
      modifies this`particles
      ensures particles == old(particles) + Burst(x, y, |old(particles)|, spark)
    {
      ghost var base := |particles|;
      var i := 0;
      while i < ParticlesPerExplosion
        invariant 0 <= i <= ParticlesPerExplosion
        invariant particles == old(particles) + Burst(x, y, base, spark)[..i]
      {
        var v := spark(|particles|);
        particles := particles + [Particle(x, y, v.0, v.1, 1.0)];
        i := i + 1;
      }
      assert Burst(x, y, base, spark)[..i] == Burst(x, y, base, spark);
    }

    /** Applies a picked-up power-up at once; the later revert of rapid fire is
        `ExpireRapidFire`. */
    method ApplyPowerUp(kind: PowerUpKind)
      requires Valid()
      modifies this`player
      ensures Valid()
      ensures player == Boosted(old(player), kind)
    {
      BoostedBounds(player, kind);
      match kind {
        case DoubleShot =>
          player := player.(powerLevel := if player.powerLevel + 1 < MaxPowerLevel then player.powerLevel + 1 else MaxPowerLevel);
        case Shield =>
        case RapidFire =>
          player := player.(shotInterval := Max(MinShotInterval, player.shotInterval * 0.5));
      }
    }

    /** The deferred callback that rapid fire schedules: five seconds after a pickup the
        cooldown goes back to 0.25 s, whatever pickups happened in between. */
    method ExpireRapidFire()
      requires Valid()
      modifies this`player
      ensures Valid()
      ensures player == old(player).(shotInterval := DefaultShotInterval)
    {
      player := player.(shotInterval := DefaultShotInterval);
    }

    /** The three collision passes of a tick, in order. */
    method CheckCollisions(drop: nat -> Option<PowerUpKind>, spark: nat -> (real, real))
      returns (ghost shot: seq<Enemy>, ghost crashed: seq<Enemy>, ghost dropped: seq<PowerUp>)
      requires Valid()
      modifies this`bullets, this`enemies, this`score, this`particles, this`powerUps,
               this`lives, this`gameOver, this`player
      ensures Valid()
      ensures CollisionsResolved(old(bullets), old(enemies), old(powerUps), old(particles), old(player),
                                 old(score), old(lives), old(gameOver), drop, spark, shot, crashed, dropped)
      ensures score >= old(score) && lives <= old(lives)
      ensures old(gameOver) ==> gameOver
      ensures player == old(player).(powerLevel := player.powerLevel, shotInterval := player.shotInterval)
      ensures player.powerLevel >= old(player.powerLevel)
    {
      shot := BulletEnemyPass(drop, spark);
      ghost var bullets1, enemies1, score1, particles1, powerUps1 := bullets, enemies, score, particles, powerUps;
      PlayerEnemyPass(spark);
      ghost var enemies2, particles2, lives2, gameOver2 := enemies, particles, lives, gameOver;
      PlayerPowerUpPass();
      crashed := WalkRemoved(enemies1, EnemyHit(old(player)));
      dropped := Drops(shot, drop);
      PassesCompose(old(bullets), old(enemies), old(powerUps), old(particles), old(player),
                    old(score), old(lives), old(gameOver), drop, spark, shot,
                    bullets1, enemies1, score1, particles1, powerUps1,
                    enemies2, particles2, lives2, gameOver2, powerUps, player);
    }

    /** `Resolved` on the current fields. */
    ghost predicate CollisionsResolved(
      bullets0: seq<Bullet>, enemies0: seq<Enemy>, powerUps0: seq<PowerUp>, particles0: seq<Particle>,
      player0: Player, score0: int, lives0: int, gameOver0: bool,
      drop: nat -> Option<PowerUpKind>, spark: nat -> (real, real),
      shot: seq<Enemy>, crashed: seq<Enemy>, dropped: seq<PowerUp>)
      reads this`bullets, this`enemies, this`powerUps, this`particles, this`player,
            this`score, this`lives, this`gameOver
    {
      Resolved(bullets0, enemies0, powerUps0, particles0, player0, score0, lives0, gameOver0,
               drop, spark, shot, crashed, dropped,
               bullets, enemies, powerUps, particles, player, score, lives, gameOver)
    }

    /** Every bullet against every enemy. Both lists are walked by index while the index is
        below the list's current length, reading the element now at that index, and a hit
        splices both lists at the current indices. So the element that slides into a
        removed slot is skipped, a bullet that already hit goes on hitting, and each later
        hit of it splices whatever bullet is now at its old index, or nothing. Each hit
        scores 100, explodes at the enemy, and may drop a power-up. The lists left and the
        enemies destroyed, `shot`, in the order they were hit, are those of `BulletPass`. */
    method BulletEnemyPass(drop: nat -> Option<PowerUpKind>, spark: nat -> (real, real))
      returns (ghost shot: seq<Enemy>)
      requires Valid()
      modifies this`bullets, this`enemies, this`score, this`particles, this`powerUps
      ensures Valid()
      ensures BulletPassState(bullets, enemies, shot) == BulletPass(old(bullets), old(enemies))
      ensures IsSubseq(enemies, old(enemies)) && IsSubseq(bullets, old(bullets))
      ensures multiset(enemies) + multiset(shot) == multiset(old(enemies))
      ensures forall e :: e in shot ==> ShotBy(old(bullets), e)
      ensures forall e :: !ShotBy(old(bullets), e) ==> multiset(enemies)[e] == multiset(old(enemies))[e]
      ensures (exists e :: e in old(enemies) && ShotBy(old(bullets), e)) ==>
                shot != [] && |enemies| < |old(enemies)|
      ensures |old(bullets)| - |bullets| <= |shot|
      ensures BulletHitsSoFar(old(score), old(particles), old(powerUps), drop, spark, shot)
    {
      var bulletIndex, hits := 0, 0;
      shot := [];
      while bulletIndex < |bullets|
        invariant BulletPassFrom(BulletPassState(bullets, enemies, shot), bulletIndex)
                  == BulletPass(old(bullets), old(enemies))
        invariant BulletHitsSoFar(old(score), old(particles), old(powerUps), drop, spark, shot)
        invariant hits == |shot|
        decreases |bullets| - bulletIndex
      {
        hits, shot := BulletSweep(bulletIndex, bullets[bulletIndex], drop, hits, spark,
                                  old(score), old(particles), old(powerUps), shot);
        bulletIndex := bulletIndex + 1;
      }
      BulletPassRecord(old(bullets), old(enemies));
    }

    /** The inner walk of the bullet pass: `bullet`, the one at `bulletIndex`, against every
        enemy, by index; it is the `SweepFrom` step of `BulletPass`, and every hit is
        tallied. */
    method BulletSweep(bulletIndex: nat, bullet: Bullet, drop: nat -> Option<PowerUpKind>, hits: nat,
                       spark: nat -> (real, real), ghost score0: int, ghost particles0: seq<Particle>,
                       ghost powerUps0: seq<PowerUp>, ghost shot: seq<Enemy>)
      returns (hits': nat, ghost shot': seq<Enemy>)
      requires bulletIndex < |bullets| && bullet == bullets[bulletIndex]
      requires BulletHitsSoFar(score0, particles0, powerUps0, drop, spark, shot) && hits == |shot|
      modifies this`bullets, this`enemies, this`score, this`particles, this`powerUps
      ensures BulletPassState(bullets, enemies, shot')
              == SweepFrom(bullet, bulletIndex, BulletPassState(old(bullets), old(enemies), shot), 0)
      ensures BulletHitsSoFar(score0, particles0, powerUps0, drop, spark, shot') && hits' == |shot'|
    {
      hits', shot' := hits, shot;
      var enemyIndex := 0;
      while enemyIndex < |enemies|
        invariant SweepFrom(bullet, bulletIndex, BulletPassState(bullets, enemies, shot'), enemyIndex)
                  == SweepFrom(bullet, bulletIndex, BulletPassState(old(bullets), old(enemies), shot), 0)
        invariant BulletHitsSoFar(score0, particles0, powerUps0, drop, spark, shot') && hits' == |shot'|
        decreases |enemies| - enemyIndex
      {
        if IsColliding(bullet.Bounds(), enemies[enemyIndex].Bounds()) {
          var enemy := enemies[enemyIndex];
          BulletHitsEnemy(bulletIndex, enemyIndex, drop, hits', spark, score0, particles0, powerUps0, shot');
          hits', shot' := hits' + 1, shot' + [enemy];
        }
        enemyIndex := enemyIndex + 1;
      }
    }

    /** The score, particles and power-ups after the hits in `shot`, on the current fields. */
    ghost predicate BulletHitsSoFar(score0: int, particles0: seq<Particle>, powerUps0: seq<PowerUp>,
                                    drop: nat -> Option<PowerUpKind>, spark: nat -> (real, real),
                                    shot: seq<Enemy>)
      reads this`score, this`particles, this`powerUps
    {
      Tally(score0, particles0, powerUps0, drop, spark, shot, score, particles, powerUps)
    }

    /** One bullet hit: splice the bullet list at the bullet's original index (which may now
        hold another bullet, or be past the end) and the enemy list at the enemy's index,
        score 100, explode at the enemy and drop the power-up drawn for hit number `hits`,
        if any, there. The tally grows by the enemy destroyed. */
    method BulletHitsEnemy(bulletIndex: nat, enemyIndex: nat, drop: nat -> Option<PowerUpKind>, hits: nat,
                           spark: nat -> (real, real), ghost score0: int, ghost particles0: seq<Particle>,
                           ghost powerUps0: seq<PowerUp>, ghost shot: seq<Enemy>)
      requires enemyIndex < |enemies| && hits == |shot|
      requires BulletHitsSoFar(score0, particles0, powerUps0, drop, spark, shot)
      modifies this`bullets, this`enemies, this`score, this`particles, this`powerUps
      ensures bullets == RemoveAt(old(bullets), bulletIndex)
      ensures enemies == RemoveAt(old(enemies), enemyIndex)
      ensures score == old(score) + 100
      ensures var enemy := old(enemies)[enemyIndex];
        && particles == old(particles) + Burst(enemy.x, enemy.y, |old(particles)|, spark)
        && powerUps == old(powerUps)
                       + (if drop(hits).Some? then [NewPowerUp(enemy.x, enemy.y, drop(hits).value)] else [])
      ensures BulletHitsSoFar(score0, particles0, powerUps0, drop, spark, shot + [old(enemies)[enemyIndex]])
    {
      var enemy := enemies[enemyIndex];
      TallyStep(score0, particles0, powerUps0, drop, spark, shot, score, particles, powerUps, enemy);
      bullets := RemoveAt(bullets, bulletIndex);
      enemies := RemoveAt(enemies, enemyIndex);
      score := score + 100;
      CreateExplosion(enemy.x, enemy.y, spark);
      var kind := drop(hits);
      if kind.Some? {
        SpawnPowerUp(enemy.x, enemy.y, kind.value);
      }
    }

    /** The player against every enemy, walked by index as above: each hit removes the
        enemy, explodes at it and costs a life, and game over is set once no lives are
        left; nothing here resets it. The survivors and the removed enemies are exactly
        those of the splice-while-walking rule for "touches the player". */
    method PlayerEnemyPass(spark: nat -> (real, real))
      requires Valid()
      modifies this`enemies, this`particles, this`lives, this`gameOver
      ensures Valid()
      ensures enemies == WalkKept(old(enemies), EnemyHit(player))
      ensures lives == old(lives) - |WalkRemoved(old(enemies), EnemyHit(player))|
      ensures gameOver == (old(gameOver) || lives <= 0)
      ensures particles == old(particles) + Explosions(WalkRemoved(old(enemies), EnemyHit(player)),
                                                       |old(particles)|, spark)
    {
      var index := 0;
      ghost var hit := EnemyHit(player);
      ghost var crashed: seq<Enemy> := [];
      WalkAtStart(enemies, hit);
      while index < |enemies|
        invariant Valid()
        invariant WalkAt(old(enemies), hit, enemies, index, crashed)
        invariant CrashesSoFar(old(particles), old(lives), old(gameOver), spark, crashed)
        decreases |enemies| - index
      {
        var enemy := enemies[index];
        WalkAtStep(old(enemies), hit, enemies, index, crashed);
        if IsColliding(player.Bounds(), enemy.Bounds()) {
          PlayerCrashes(index, spark, old(particles), old(lives), old(gameOver), crashed);
          crashed := crashed + [enemy];
        }
        index := index + 1;
      }
      WalkAtEnd(old(enemies), hit, enemies, index, crashed);
    }

    /** What the player pass has done after the crashes in `crashed`: one life and one
        explosion each, in order, and game over once no lives are left. */
    ghost predicate CrashesSoFar(particles0: seq<Particle>, lives0: int, gameOver0: bool,
                                 spark: nat -> (real, real), crashed: seq<Enemy>)
      reads this`particles, this`lives, this`gameOver
    {
      && lives == lives0 - |crashed|
      && gameOver == (gameOver0 || lives <= 0)
      && particles == particles0 + Explosions(crashed, |particles0|, spark)
    }

    /** The enemy at `index` hits the player: splice it out, explode at it, lose a life, and
        end the game when no lives are left. */
    method PlayerCrashes(index: nat, spark: nat -> (real, real), ghost particles0: seq<Particle>,
                         ghost lives0: int, ghost gameOver0: bool, ghost crashed: seq<Enemy>)
      requires Valid() && index < |enemies|
      requires CrashesSoFar(particles0, lives0, gameOver0, spark, crashed)
      modifies this`enemies, this`particles, this`lives, this`gameOver
      ensures Valid()
      ensures enemies == RemoveAt(old(enemies), index)
      ensures CrashesSoFar(particles0, lives0, gameOver0, spark, crashed + [old(enemies)[index]])
    {
      var enemy := enemies[index];
      enemies := RemoveAt(enemies, index);
      ghost var before := particles;
      CreateExplosion(enemy.x, enemy.y, spark);
      ExplosionsAppend(crashed, enemy, |particles0|, spark);
      AppendAssoc(particles0, Explosions(crashed, |particles0|, spark), Burst(enemy.x, enemy.y, |before|, spark));
      lives := lives - 1;
      if lives <= 0 {
        gameOver := true;
      }
    }

    /** The player against every power-up, walked by index as above: each pickup removes
        the power-up and applies its effect at once, in order. */
    method PlayerPowerUpPass()
      requires Valid()
      modifies this`powerUps, this`player
      ensures Valid()
      ensures powerUps == WalkKept(old(powerUps), PowerUpHit(old(player)))
      ensures player == BoostedBy(old(player), WalkRemoved(old(powerUps), PowerUpHit(old(player))))
      ensures player == old(player).(powerLevel := player.powerLevel, shotInterval := player.shotInterval)
      ensures old(player).powerLevel <= player.powerLevel
      ensures player.shotInterval <= old(player).shotInterval
    {
      var index := 0;
      ghost var hit := PowerUpHit(player);
      ghost var picked: seq<PowerUp> := [];
      WalkAtStart(powerUps, hit);
      while index < |powerUps|
        invariant Valid()
        invariant WalkAt(old(powerUps), hit, powerUps, index, picked)
        invariant player == BoostedBy(old(player), picked)
        invariant player.Bounds() == old(player).Bounds()
        decreases |powerUps| - index
      {
        var powerUp := powerUps[index];
        WalkAtStep(old(powerUps), hit, powerUps, index, picked);
        if IsColliding(player.Bounds(), powerUp.Bounds()) {
          powerUps := RemoveAt(powerUps, index);
          ApplyPowerUp(powerUp.kind);
          BoostedByAppend(old(player), picked, powerUp);
          BoostedByBounds(old(player), picked + [powerUp]);
          picked := picked + [powerUp];
        }
        index := index + 1;
      }
      WalkAtEnd(old(powerUps), hit, powerUps, index, picked);
      BoostedByBounds(old(player), picked);
    }
  }
}
