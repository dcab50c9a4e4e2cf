/** The tile map of the top-down walker: a grid of `width` × `height` square tiles of 32
    pixels, some of which are walls. A wall is stored by its tile coordinates. */
module TileMap {

  /** A tile, as (column, row). */
  type Tile = (int, int)

  const TileSize: int := 32

  /** Whether `t` is a wall of the sample layout on a `width` × `height` grid: the border,
      two short horizontal walls on rows 5 and 10 from column 5 to 9, and a vertical wall
      on column 7 from row 5 to 9, all clipped to the grid. */
  predicate IsSampleWall(width: int, height: int, t: Tile)
  {
    SampleWallSoFar(width, height, t, width, height, 10, 10)
  }

  /** The walls the sample-map generator has placed on a `width` × `height` grid once its
      loops have reached column `rows` of the top and bottom rows, row `columns` of the side
      columns, column `bars` of the horizontal interior walls and row `post` of the vertical
      one. */
  predicate SampleWallSoFar(width: int, height: int, t: Tile, rows: int, columns: int, bars: int, post: int)
  {
    && 0 <= t.0 < width && 0 <= t.1 < height
    && (|| (t.0 < rows && (t.1 == 0 || t.1 == height - 1))
        || (t.1 < columns && (t.0 == 0 || t.0 == width - 1))
        || (5 <= t.0 < bars && (t.1 == 5 || t.1 == 10))
        || (t.0 == 7 && 5 <= t.1 < post))
  }

  /** The set of walls of the sample layout. */
  function SampleLayout(width: int, height: int): (walls: set<Tile>)
    ensures forall t :: t in walls <==> IsSampleWall(width, height, t)
  {
    set x, y | 0 <= x < width && 0 <= y < height && IsSampleWall(width, height, (x, y)) :: (x, y)
  }

  /** Every border tile of a non-empty grid is a wall of the sample layout. */
  lemma SampleLayoutWalledIn(width: int, height: int, t: Tile)
    requires 0 <= t.0 < width && 0 <= t.1 < height
    requires t.0 == 0 || t.0 == width - 1 || t.1 == 0 || t.1 == height - 1
    ensures t in SampleLayout(width, height)
  {
  }

  /** Tile (3, 3), the first spawn candidate, is open in the 25 × 15 sample map. */
  lemma SampleLayoutFirstSpotOpen()
    ensures (3, 3) !in SampleLayout(25, 15)
  {
  }

  /** The pixel (x, y) lies in tile `t`. */
  predicate Covers(t: Tile, x: int, y: int)
  {
    t.0 * TileSize <= x < t.0 * TileSize + TileSize && t.1 * TileSize <= y < t.1 * TileSize + TileSize
  }

  /** Flooring division by the tile size picks the one tile that holds a pixel. */
  lemma TileOfPixel(t: Tile, x: int, y: int)
    ensures Covers(t, x, y) <==> t == (x / TileSize, y / TileSize)
  {
  }

  class GameMap {
    const width: int
    const height: int
    var blockedTiles: set<Tile>

    predicate InGrid(t: Tile)
    {
      0 <= t.0 < width && 0 <= t.1 < height
    }

    /** Every wall lies on the grid. */
    ghost predicate Valid()
      reads this
    {
      forall t :: t in blockedTiles ==> InGrid(t)
    }

    /** A `width` × `height` map with no walls. */
    constructor (width: int, height: int)
      ensures this.width == width && this.height == height
      ensures blockedTiles == {}
      ensures Valid()
    {
      this.width := width;
      this.height := height;
      blockedTiles := {};
    }

    /** Replaces all walls by the sample layout. Earlier walls are discarded first, so the
        result depends only on the size of the map. */
    method GenerateSampleMap()
      modifies this
      ensures Valid()
      ensures blockedTiles == SampleLayout(width, height)
    {
      blockedTiles := {};

      // Border walls: top and bottom rows, then left and right columns.
      var x := 0;
      while x < width
        invariant 0 <= x && (x <= width || x == 0)
        invariant forall t :: t in blockedTiles <==> SampleWallSoFar(width, height, t, x, 0, 5, 5)
      {
        AddWall(x, 0);
        AddWall(x, height - 1);
        x := x + 1;
      }
      var y := 0;
      while y < height
        invariant 0 <= y && (y <= height || y == 0)
        invariant forall t :: t in blockedTiles <==> SampleWallSoFar(width, height, t, width, y, 5, 5)
      {
        AddWall(0, y);
        AddWall(width - 1, y);
        y := y + 1;
      }

      // Interior walls.
      x := 5;
      while x < 10
        invariant 5 <= x <= 10
        invariant forall t :: t in blockedTiles <==> SampleWallSoFar(width, height, t, width, height, x, 5)
      {
        AddWall(x, 5);
        AddWall(x, 10);
        x := x + 1;
      }
      y := 5;
      while y < 10
        invariant 5 <= y <= 10
        invariant forall t :: t in blockedTiles <==> SampleWallSoFar(width, height, t, width, height, 10, y)
      {
        AddWall(7, y);
        y := y + 1;
      }
    }

    /** Blocks tile (x, y) if it lies on the grid; a tile off the grid is ignored. Adding a
        wall that is already there changes nothing. */
    method AddWall(x: int, y: int)
      modifies this
      ensures blockedTiles == if InGrid((x, y)) then old(blockedTiles) + {(x, y)} else old(blockedTiles)
      ensures (x, y) in old(blockedTiles) ==> blockedTiles == old(blockedTiles)
    {
      if x >= 0 && x < width && y >= 0 && y < height {
        blockedTiles := blockedTiles + {(x, y)};
      }
    }

    /** Whether the pixel (x, y) may be walked on: it is, exactly when no wall covers it.
        On a valid map every pixel off the grid is walkable. */
    function IsWalkable(x: int, y: int): (r: bool)
      reads this
      ensures r <==> forall t :: t in blockedTiles ==> !Covers(t, x, y)
      ensures Valid() && (x < 0 || y < 0 || x >= width * TileSize || y >= height * TileSize) ==> r
    {
      var tileX := x / TileSize;
      var tileY := y / TileSize;
      assert forall t :: Covers(t, x, y) <==> t == (tileX, tileY) by {
        forall t ensures Covers(t, x, y) <==> t == (tileX, tileY) {
          TileOfPixel(t, x, y);
        }
      }
      (tileX, tileY) !in blockedTiles
    }
  }
}
