/** The entities of the vertical shooter and the pure rules about them: the bounding-box
    overlap test, the bullet fan fired by one shot, and the tables that build enemies,
    power-ups and explosion particles. Colours are cosmetic and are not modelled. */
module ShooterEntities {

  const CanvasWidth: real := 800.0
  const CanvasHeight: real := 600.0

  const PlayerSize: real := 40.0
  const PlayerSpeed: real := 5.0
  /** Cooldown between volleys that a player starts with and that rapid fire reverts to. */
  const DefaultShotInterval: real := 0.25
  /** Floor of the cooldown under rapid fire. */
  const MinShotInterval: real := 0.1
  const MaxPowerLevel: int := 3

  const BulletWidth: real := 4.0
  const BulletHeight: real := 8.0
  const BulletSpeed: real := 10.0
  /** Angle between neighbouring bullets of one volley, in radians. */
  const Spread: real := 0.2

  const EnemySize: real := 30.0
  const PowerUpSize: real := 20.0
  const PowerUpSpeed: real := 2.0

  const ParticlesPerExplosion: nat := 10

  function Max(a: real, b: real): real { if a >= b then a else b }
  function Min(a: real, b: real): real { if a <= b then a else b }

  /** An axis-aligned rectangle: top-left corner and size. */
  datatype Box = Box(x: real, y: real, width: real, height: real)

  /** The keys the shooter reads; each direction has a letter key and an arrow key. */
  datatype Keys = Keys(w: bool, a: bool, s: bool, d: bool,
                       arrowUp: bool, arrowDown: bool, arrowLeft: bool, arrowRight: bool,
                       space: bool)

  datatype Player = Player(x: real, y: real, width: real, height: real, speed: real,
                           shooting: bool, lastShot: real, shotInterval: real, powerLevel: int)
  {
    function Bounds(): Box { Box(x, y, width, height) }
  }

  datatype Bullet = Bullet(x: real, y: real, width: real, height: real, speed: real, angle: real)
  {
    function Bounds(): Box { Box(x, y, width, height) }
  }

  datatype EnemyKind = Normal | Fast | Tank

  datatype Enemy = Enemy(x: real, y: real, width: real, height: real, kind: EnemyKind,
                         speed: real, health: int)
  {
    function Bounds(): Box { Box(x, y, width, height) }
  }

  datatype Particle = Particle(x: real, y: real, vx: real, vy: real, life: real)

  datatype PowerUpKind = DoubleShot | Shield | RapidFire

  datatype PowerUp = PowerUp(x: real, y: real, width: real, height: real, speed: real,
                             kind: PowerUpKind)
  {
    function Bounds(): Box { Box(x, y, width, height) }
  }

  /** Strict overlap of two rectangles: touching edges do not collide. */
  predicate IsColliding(r1: Box, r2: Box)
  {
    && r1.x < r2.x + r2.width
    && r1.x + r1.width > r2.x
    && r1.y < r2.y + r2.height
    && r1.y + r1.height > r2.y
  }

  /** The point lies strictly inside the rectangle. */
  predicate Inside(r: Box, px: real, py: real)
  {
    r.x < px < r.x + r.width && r.y < py < r.y + r.height
  }

  lemma CollidingSymmetric(r1: Box, r2: Box)
    ensures IsColliding(r1, r2) == IsColliding(r2, r1)
  {
  }

  /** For rectangles of positive size, the overlap test holds exactly when some point lies
      strictly inside both rectangles. */
  lemma CollidingIffSharedPoint(r1: Box, r2: Box)
    requires r1.width > 0.0 && r1.height > 0.0 && r2.width > 0.0 && r2.height > 0.0
    ensures IsColliding(r1, r2) <==> exists px, py :: Inside(r1, px, py) && Inside(r2, px, py)
  {
    if IsColliding(r1, r2) {
      var px := (Max(r1.x, r2.x) + Min(r1.x + r1.width, r2.x + r2.width)) / 2.0;
      var py := (Max(r1.y, r2.y) + Min(r1.y + r1.height, r2.y + r2.height)) / 2.0;
      assert Inside(r1, px, py) && Inside(r2, px, py);
    }
  }

  /** The angle of bullet `i` in a volley of `n`: the fan is centred on straight up. */
  function FanAngle(i: int, n: int): real
  {
    (i as real - (n - 1) as real / 2.0) * Spread
  }

  /** The bullets one shot appends, in order: `powerLevel` of them (none when it is not
      positive), all leaving from the middle of the player's top edge. */
  function Fan(p: Player): seq<Bullet>
  {
    var n := if p.powerLevel > 0 then p.powerLevel else 0;
    seq(n, i => Bullet(p.x + p.width / 2.0, p.y, BulletWidth, BulletHeight, BulletSpeed,
                       FanAngle(i, p.powerLevel)))
  }

  /** A volley holds exactly `powerLevel` bullets and the i-th is at the i-th fan angle. */
  lemma FanShape(p: Player)
    requires p.powerLevel >= 0
    ensures |Fan(p)| == p.powerLevel
    ensures forall i :: 0 <= i < |Fan(p)| ==>
      Fan(p)[i].angle == (i as real - (p.powerLevel - 1) as real / 2.0) * 0.2
      && Fan(p)[i].x == p.x + p.width / 2.0 && Fan(p)[i].y == p.y
  {
  }

  /** The fan is mirror-symmetric about straight up. */
  lemma FanMirrored(p: Player)
    ensures forall i :: 0 <= i < |Fan(p)| ==> Fan(p)[i].angle == - Fan(p)[|Fan(p)| - 1 - i].angle
  {
  }

  /** Power level one fires a single bullet straight up. */
  lemma FanOfOne(p: Player)
    requires p.powerLevel == 1
    ensures |Fan(p)| == 1 && Fan(p)[0].angle == 0.0
  {
  }

  function SumAngles(bs: seq<Bullet>): real
  {
    if bs == [] then 0.0 else SumAngles(bs[..|bs| - 1]) + bs[|bs| - 1].angle
  }

  /** The first `k` angles of a fan of `n` sum to Spread·(k(k-1)/2 - k(n-1)/2). */
  lemma {:induction false} FanPrefixSum(p: Player, k: nat)
    requires k <= |Fan(p)|
    ensures SumAngles(Fan(p)[..k])
         == Spread * ((k * (k - 1)) as real / 2.0 - (k * (p.powerLevel - 1)) as real / 2.0)
  {
    if k > 0 {
      var f := Fan(p);
      assert f[..k][..k - 1] == f[..k - 1];
      FanPrefixSum(p, k - 1);
      var n := p.powerLevel;
      assert (k * (k - 1)) as real == ((k - 1) * (k - 2)) as real + 2.0 * (k - 1) as real;
      assert (k * (n - 1)) as real == ((k - 1) * (n - 1)) as real + (n - 1) as real;
    }
  }

  /** The angles of a volley sum to zero: the fan is balanced. */
  lemma FanBalanced(p: Player)
    ensures SumAngles(Fan(p)) == 0.0
  {
    var f := Fan(p);
    FanPrefixSum(p, |f|);
    assert f[..|f|] == f;
    if p.powerLevel > 0 {
      assert |f| == p.powerLevel;
    }
  }

  /** Speed and health by enemy kind, before the current difficulty is added to the speed. */
  function BaseSpeed(kind: EnemyKind): real
  {
    match kind
    case Normal => 2.0
    case Fast => 4.0
    case Tank => 1.0
  }

  function Health(kind: EnemyKind): int
  {
    match kind
    case Normal => 1
    case Fast => 1
    case Tank => 3
  }

  /** The enemy `spawnEnemy` creates: just above the top edge at column `x`. */
  function NewEnemy(kind: EnemyKind, x: real, difficulty: real): Enemy
  {
    Enemy(x, -EnemySize, EnemySize, EnemySize, kind, BaseSpeed(kind) + difficulty, Health(kind))
  }

  /** At any difficulty, fast enemies outrun normal ones, which outrun tanks; only tanks
      have more than one hit point. */
  lemma EnemyTable(x: real, difficulty: real)
    ensures NewEnemy(Tank, x, difficulty).speed < NewEnemy(Normal, x, difficulty).speed
                                                < NewEnemy(Fast, x, difficulty).speed
    ensures NewEnemy(Tank, x, difficulty).health == 3
    ensures NewEnemy(Normal, x, difficulty).health == 1 && NewEnemy(Fast, x, difficulty).health == 1
    ensures forall k: EnemyKind :: NewEnemy(k, x, difficulty).speed > difficulty
  {
  }

  /** The power-up `spawnPowerUp` drops where an enemy was destroyed. */
  function NewPowerUp(x: real, y: real, kind: PowerUpKind): (u: PowerUp)
    ensures u.x == x && u.y == y && u.kind == kind
    ensures u.width == u.height == 20.0 && u.speed == 2.0
  {
    PowerUp(x, y, PowerUpSize, PowerUpSize, PowerUpSpeed, kind)
  }

  /** The spawn interval the spawn timer recomputes after raising the difficulty. */
  function SpawnIntervalFor(difficulty: real): (r: real)
    ensures r >= 0.5
    ensures r == 0.5 <==> difficulty >= 10.0
    ensures difficulty >= 1.0 ==> r <= 1.4
  {
    Max(0.5, 1.5 - difficulty * 0.1)
  }

  /** Raising the difficulty never lengthens the interval, and it never drops below half a
      second. */
  lemma SpawnIntervalMonotone(d1: real, d2: real)
    requires d1 <= d2
    ensures 0.5 <= SpawnIntervalFor(d2) <= SpawnIntervalFor(d1)
  {
  }
}
