/** The top-down walker: choosing a spawn point on the tile map and moving the player box
    one step per frame without letting any of its corners onto a wall. */
module TileWalker {
  import opened TileMap

  /** A spawn point: pixel position and the tile it was chosen from. */
  datatype Spawn = Spawn(x: int, y: int, tileX: int, tileY: int)

  /** The keys the walker reads; each direction has a letter key and an arrow key. */
  datatype Keys = Keys(w: bool, a: bool, s: bool, d: bool,
                       arrowUp: bool, arrowDown: bool, arrowLeft: bool, arrowRight: bool)

  /** The player box: top-left corner, size and pixels moved per frame. */
  datatype Walker = Walker(x: int, y: int, width: int, height: int, speed: int)

  const WalkerSize: int := 24
  const WalkerSpeed: int := 2

  /** Spawn candidates, in the order they are tried. */
  const SafeSpots: seq<Tile> := [(3, 3), (4, 3), (3, 4), (20, 10), (21, 10), (12, 2)]

  /** Candidate `k` is the first open one on `m`. */
  predicate FirstOpenSpot(m: GameMap, k: int)
    reads m
  {
    && 0 <= k < |SafeSpots|
    && SafeSpots[k] !in m.blockedTiles
    && forall j :: 0 <= j < k ==> SafeSpots[j] in m.blockedTiles
  }

  /** The centre of tile `t`, as a spawn point. */
  function CentreOf(t: Tile): (s: Spawn)
    ensures Covers(t, s.x, s.y) && (s.tileX, s.tileY) == t
    ensures Covers(t, s.x - TileSize / 2, s.y - TileSize / 2) && Covers(t, s.x + TileSize / 2 - 1, s.y + TileSize / 2 - 1)
  {
    Spawn(t.0 * TileSize + TileSize / 2, t.1 * TileSize + TileSize / 2, t.0, t.1)
  }

  /** The spawn point is the centre of the first open candidate; when every candidate is
      blocked it is the top-left corner of tile (1, 1), which is not checked. */
  method GetSafeSpawn(m: GameMap) returns (s: Spawn)
    ensures forall k :: FirstOpenSpot(m, k) ==> s == CentreOf(SafeSpots[k])
    ensures (forall k :: 0 <= k < |SafeSpots| ==> SafeSpots[k] in m.blockedTiles) ==>
              s == Spawn(TileSize, TileSize, 1, 1)
  {
    var i := 0;
    while i < |SafeSpots|
      invariant 0 <= i <= |SafeSpots|
      invariant forall j :: 0 <= j < i ==> SafeSpots[j] in m.blockedTiles
    {
      var (x, y) := SafeSpots[i];
      if (x, y) !in m.blockedTiles {
        return CentreOf((x, y));
      }
      i := i + 1;
    }
    return Spawn(TileSize, TileSize, 1, 1);
  }

  /** All four corners of a `width` × `height` box at (x, y) are walkable. */
  predicate BoxFits(m: GameMap, x: int, y: int, width: int, height: int)
    reads m
  {
    && m.IsWalkable(x, y)
    && m.IsWalkable(x + width, y)
    && m.IsWalkable(x, y + height)
    && m.IsWalkable(x + width, y + height)
  }

  /** The position the keys ask for, before any wall is consulted: each held direction
      moves `speed` pixels, and opposite directions cancel. */
  function Wanted(p: Walker, keys: Keys): (int, int)
  {
    var y := p.y;
    var y := if keys.w || keys.arrowUp then y - p.speed else y;
    var y := if keys.s || keys.arrowDown then y + p.speed else y;
    var x := p.x;
    var x := if keys.a || keys.arrowLeft then x - p.speed else x;
    var x := if keys.d || keys.arrowRight then x + p.speed else x;
    (x, y)
  }

  /** Each axis of the wanted position is one of: back by `speed`, unchanged, forward by
      `speed`; it is unchanged exactly when both or neither of that axis's keys are held. */
  lemma WantedAxes(p: Walker, keys: Keys)
    requires p.speed > 0
    ensures var (x, y) := Wanted(p, keys);
            && x - p.x in {-p.speed, 0, p.speed}
            && y - p.y in {-p.speed, 0, p.speed}
            && (x == p.x <==> (keys.a || keys.arrowLeft) == (keys.d || keys.arrowRight))
            && (y == p.y <==> (keys.w || keys.arrowUp) == (keys.s || keys.arrowDown))
  {
  }

  /** The walker game: the map it walks on and the player box. */
  class TileGame {
    const gameMap: GameMap
    var player: Walker

    /** A 25 × 15 map with the sample walls, and the player spawned at the centre of the
        first open candidate, which on that map is tile (3, 3). */
    constructor ()
      ensures fresh(gameMap)
      ensures gameMap.width == 25 && gameMap.height == 15
      ensures gameMap.blockedTiles == SampleLayout(25, 15)
      ensures gameMap.Valid()
      ensures player == Walker(3 * TileSize + TileSize / 2, 3 * TileSize + TileSize / 2,
                               WalkerSize, WalkerSize, WalkerSpeed)
    {
      var m := new GameMap(25, 15);
      m.GenerateSampleMap();
      SampleLayoutFirstSpotOpen();
      assert FirstOpenSpot(m, 0);
      var spawn := GetSafeSpawn(m);
      gameMap := m;
      player := Walker(spawn.x, spawn.y, WalkerSize, WalkerSize, WalkerSpeed);
    }

    /** One frame of movement. The horizontal step is taken when the box fits at the new x
        and the old y; then the vertical step is taken when it fits at the resulting x and
        the new y. A box whose corners were all walkable stays that way. */
    method Update(keys: Keys)
      modifies this`player
      ensures var p := old(player);
              var (wx, wy) := Wanted(p, keys);
              && player.x == (if BoxFits(gameMap, wx, p.y, p.width, p.height) then wx else p.x)
              && player.y == (if BoxFits(gameMap, player.x, wy, p.width, p.height) then wy else p.y)
              && player.width == p.width && player.height == p.height && player.speed == p.speed
      ensures BoxFits(gameMap, old(player.x), old(player.y), player.width, player.height) ==>
                BoxFits(gameMap, player.x, player.y, player.width, player.height)
    {
      var (newX, newY) := Wanted(player, keys);
      if BoxFits(gameMap, newX, player.y, player.width, player.height) {
        player := player.(x := newX);
      }
      if BoxFits(gameMap, player.x, newY, player.width, player.height) {
        player := player.(y := newY);
      }
    }
  }

  /** On the 25 × 15 sample map the spawned 24 × 24 box sits wholly on open ground. */
  lemma SpawnBoxFits(m: GameMap)
    requires m.width == 25 && m.height == 15
    requires m.blockedTiles == SampleLayout(25, 15)
    ensures BoxFits(m, 3 * TileSize + TileSize / 2, 3 * TileSize + TileSize / 2,
                    WalkerSize, WalkerSize)
  {
    forall t | t in m.blockedTiles
      ensures !Covers(t, 112, 112) && !Covers(t, 136, 112)
           && !Covers(t, 112, 136) && !Covers(t, 136, 136)
    {
      TileOfPixel(t, 112, 112);
      TileOfPixel(t, 136, 112);
      TileOfPixel(t, 112, 136);
      TileOfPixel(t, 136, 136);
    }
  }
}
