/** Overlap tiling of an image (`create_tiles` in the Sentinel-1 raw script
    and `create_training_tiles` in the live script: the two are the same
    code). Tiles are 640-by-640 windows whose origins step by 640 - 64 = 576
    pixels along each axis, emitted row-major; a window that would cross the
    bottom or right border is never produced. Pixels are of any type: the
    tiler never looks at them. */
module Tiler {
  import opened Text

  const TileSize: nat := 640
  const Overlap: nat := 64
  const Step: nat := TileSize - Overlap

  /** A row-major 2-D array (numpy's `image`); all rows have one width. */
  type Grid<T> = seq<seq<T>>

  predicate IsRect<T>(g: Grid<T>) {
    forall r :: 0 <= r < |g| ==> |g[r]| == Width(g)
  }

  function Height<T>(g: Grid<T>): nat { |g| }

  function Width<T>(g: Grid<T>): nat { if g == [] then 0 else |g[0]| }

  /** The number of tile origins along an axis of length d:
      `len(range(0, d - 640 + 1, 576))`. */
  function Count(d: nat): nat {
    if d >= TileSize then (d - TileSize) / Step + 1 else 0
  }

  /** Origin j (at 576*j) is used iff its tile fits: the origins are exactly
      the multiples of the step whose window ends inside the axis. */
  lemma CountSpec(d: nat, j: nat)
    ensures j < Count(d) <==> Step * j + TileSize <= d
  {
  }

  /** `image[y:y+640, x:x+640]`, for a window inside the image. */
  function Window<T>(g: Grid<T>, y: nat, x: nat): (t: Grid<T>)
    requires IsRect(g) && y + TileSize <= Height(g) && x + TileSize <= Width(g)
    ensures |t| == TileSize && IsRect(t) && Width(t) == TileSize
    ensures forall a, b :: 0 <= a < TileSize && 0 <= b < TileSize ==> t[a][b] == g[y + a][x + b]
  {
    seq(TileSize, a requires 0 <= a < TileSize => g[y + a][x..x + TileSize])
  }

  /** The tiles of one row band, left to right. */
  function RowTiles<T>(g: Grid<T>, i: nat): (row: seq<Grid<T>>)
    requires IsRect(g) && i < Count(Height(g))
    ensures |row| == Count(Width(g))
  {
    CountSpec(Height(g), i);
    seq(Count(Width(g)), j requires 0 <= j < Count(Width(g)) =>
      CountSpec(Width(g), j);
      Window(g, Step * i, Step * j))
  }

  /** The tiles of the first `rows` row bands, row-major. */
  function TilesUpTo<T>(g: Grid<T>, rows: nat): seq<Grid<T>>
    requires IsRect(g) && rows <= Count(Height(g))
  {
    if rows == 0 then [] else TilesUpTo(g, rows - 1) + RowTiles(g, rows - 1)
  }

  /** All the tiles of an image, in the order `create_tiles` emits them. */
  function Tiles<T>(g: Grid<T>): seq<Grid<T>>
    requires IsRect(g)
  {
    TilesUpTo(g, Count(Height(g)))
  }

  lemma {:induction false} TilesUpToAt<T>(g: Grid<T>, rows: nat, i: nat, j: nat)
    requires IsRect(g) && rows <= Count(Height(g))
    requires i < rows && j < Count(Width(g))
    ensures |TilesUpTo(g, rows)| == rows * Count(Width(g))
    ensures i * Count(Width(g)) + j < |TilesUpTo(g, rows)|
    ensures Step * i + TileSize <= Height(g) && Step * j + TileSize <= Width(g)
    ensures TilesUpTo(g, rows)[i * Count(Width(g)) + j] == Window(g, Step * i, Step * j)
  {
    var cw := Count(Width(g));
    CountSpec(Height(g), i);
    CountSpec(Width(g), j);
    TilesUpToLength(g, rows - 1);
    if i < rows - 1 {
      TilesUpToAt(g, rows - 1, i, j);
      assert i * cw + j < (rows - 1) * cw by { MulStep(i, rows - 1, cw, j); }
    } else {
      assert i * cw == (rows - 1) * cw;
    }
  }

  lemma {:induction false} TilesUpToLength<T>(g: Grid<T>, rows: nat)
    requires IsRect(g) && rows <= Count(Height(g))
    ensures |TilesUpTo(g, rows)| == rows * Count(Width(g))
  {
    if rows > 0 {
      TilesUpToLength(g, rows - 1);
    }
  }

  /** What `create_tiles` promises: Count(h) * Count(w) tiles, tile
      i*Count(w) + j being the 640-by-640 window at (576*i, 576*j); every
      tile therefore has the full tile shape and lies inside the image. */
  lemma TilesSpec<T>(g: Grid<T>, i: nat, j: nat)
    requires IsRect(g)
    requires i < Count(Height(g)) && j < Count(Width(g))
    ensures |Tiles(g)| == Count(Height(g)) * Count(Width(g))
    ensures i * Count(Width(g)) + j < |Tiles(g)|
    ensures Step * i + TileSize <= Height(g) && Step * j + TileSize <= Width(g)
    ensures Tiles(g)[i * Count(Width(g)) + j] == Window(g, Step * i, Step * j)
  {
    TilesUpToAt(g, Count(Height(g)), i, j);
  }

  /** The number of tiles is the product of the per-axis counts, and zero
      when either side is shorter than a tile. */
  lemma TileCount<T>(g: Grid<T>)
    requires IsRect(g)
    ensures |Tiles(g)| == Count(Height(g)) * Count(Width(g))
    ensures Height(g) < TileSize || Width(g) < TileSize ==> Tiles(g) == []
  {
    TilesUpToLength(g, Count(Height(g)));
  }

  /** Worked examples: a 1280-by-1280 image yields 2-by-2 = 4 tiles; a
      100-by-100 image yields none. */
  lemma TileCountExamples()
    ensures Count(1280) == 2 && Count(1280) * Count(1280) == 4
    ensures Count(100) == 0
    ensures Count(1216) == 2 && Count(1215) == 1
  {
  }

  /** `create_tiles` (and `create_training_tiles`): nested loops over the row
      and column origins, slicing each window, keeping it when its shape is
      640-by-640 (always), and appending it. */
  method CreateTiles<T>(image: Grid<T>) returns (tiles: seq<Grid<T>>)
    requires IsRect(image)
    ensures tiles == Tiles(image)
  {
    tiles := [];
    var h := Height(image);
    var y := 0;
    ghost var i: nat := 0;
    while y < h - TileSize + 1
      invariant i <= Count(h) && y == Step * i
      invariant tiles == TilesUpTo(image, i)
      decreases h - y
    {
      CountSpec(h, i);
      tiles := AppendRowTiles(image, y, i, tiles);
      y := y + Step;
      i := i + 1;
    }
    CountSpec(h, i);
  }

  /** The inner loop of `create_tiles`: the windows of the row band at `y`,
      left to right, appended to `tiles`. */
  method AppendRowTiles<T>(image: Grid<T>, y: nat, ghost i: nat, tiles: seq<Grid<T>>) returns (out: seq<Grid<T>>)
    requires IsRect(image) && i < Count(Height(image)) && y == Step * i
    ensures out == tiles + RowTiles(image, i)
  {
    out := tiles;
    var w := Width(image);
    CountSpec(Height(image), i);
    var x := 0;
    ghost var j: nat := 0;
    while x < w - TileSize + 1
      invariant j <= Count(w) && x == Step * j
      invariant out == tiles + RowTiles(image, i)[..j]
      decreases w - x
    {
      CountSpec(w, j);
      var tile := Window(image, y, x);
      if |tile| == TileSize && Width(tile) == TileSize {
        out := out + [tile];
      }
      assert RowTiles(image, i)[..j + 1] == RowTiles(image, i)[..j] + [tile];
      x := x + Step;
      j := j + 1;
    }
    CountSpec(w, j);
    assert RowTiles(image, i)[..j] == RowTiles(image, i);
  }
}
