/**
 A kernel launch over its whole grid: blocks of threads in any order, with the tiled
 variant's cooperative load before its barrier (src/backend/cuda/codegen.cpp,
 emit_tile_load, emit_fetch, emit_stage; src/backend/cuda/cuda_backend.cpp, grid_dim).

 A schedule fixes the order in which threads store and, per block, the order in which
 the cells of its tile are loaded. Every result below is for every schedule.
 */
module Launches {
  import opened Arith
  import opened Samples
  import opened Chains
  import opened Images
  import opened Oracle
  import opened Kernels

  datatype Thread = Thread(gx: nat, gy: nat, tx: nat, ty: nat)

  /** Blocks along one axis: the extent divided by the block edge, rounded up. */
  function GridDim(extent: nat, block: nat): nat
    requires block > 0
  {
    Quot(extent + block - 1, block)
  }

  predicate InGrid(t: Thread, block: nat, width: nat, height: nat)
    requires block > 0
  {
    t.gx < GridDim(width, block) && t.gy < GridDim(height, block) && t.tx < block && t.ty < block
  }

  function PixelX(t: Thread, block: nat): nat {
    Times(t.gx, block) + t.tx
  }

  function PixelY(t: Thread, block: nat): nat {
    Times(t.gy, block) + t.ty
  }

  function ThreadOf(x: nat, y: nat, block: nat): Thread
    requires block > 0
  {
    Thread(Quot(x, block), Quot(y, block), Rem(x, block), Rem(y, block))
  }

  lemma GridCovers(extent: nat, block: nat, x: nat)
    requires block > 0 && x < extent
    ensures Quot(x, block) < GridDim(extent, block)
  {
    var n := extent + block - 1;
    QuotRem(n, block);
    QuotRem(x, block);
    if Quot(n, block) <= Quot(x, block) {
      TimesMono(Quot(n, block), Quot(x, block), block);
    }
  }

  /** Exactly one thread of the grid has a given pixel of the image as its own. */
  lemma OneThreadPerPixel(width: nat, height: nat, block: nat, x: nat, y: nat)
    requires block > 0 && x < width && y < height
    ensures InGrid(ThreadOf(x, y, block), block, width, height)
    ensures PixelX(ThreadOf(x, y, block), block) == x && PixelY(ThreadOf(x, y, block), block) == y
    ensures forall t :: InGrid(t, block, width, height) && PixelX(t, block) == x && PixelY(t, block) == y
              ==> t == ThreadOf(x, y, block)
  {
    GridCovers(width, block, x);
    GridCovers(height, block, y);
    QuotRem(x, block);
    QuotRem(y, block);
    forall t | InGrid(t, block, width, height) && PixelX(t, block) == x && PixelY(t, block) == y
      ensures t == ThreadOf(x, y, block)
    {
      QuotUnique(t.gx, block, t.tx);
      QuotUnique(t.gy, block, t.ty);
    }
  }

  // ------------------------------------------------------- the tile of one block

  /** Thread (tx, ty) loads cell number lin + round * T^2, lin its number in the block. */
  datatype LoadEvent = LoadEvent(tx: nat, ty: nat, round: nat)

  function TileEdge(kernel: Kernel): nat {
    kernel.blockDim + 2 * BakedRadius(kernel.stencil)
  }

  function TileCells(kernel: Kernel): nat {
    Times(TileEdge(kernel), TileEdge(kernel))
  }

  function CellOf(e: LoadEvent, block: nat): nat {
    Times(e.round, Times(block, block)) + (Times(e.ty, block) + e.tx)
  }

  predicate IsLoad(e: LoadEvent, block: nat, cells: nat) {
    e.tx < block && e.ty < block && CellOf(e, block) < cells
  }

  function LoadOf(k: nat, block: nat): LoadEvent
    requires Times(block, block) > 0 && block > 0
  {
    var lin := Rem(k, Times(block, block));
    LoadEvent(Rem(lin, block), Quot(lin, block), Quot(k, Times(block, block)))
  }

  /** The strided loop gives every cell of the tile to exactly one thread and round. */
  lemma EachCellLoadedOnce(block: nat, cells: nat, k: nat)
    requires block > 0 && k < cells
    ensures Times(block, block) > 0
    ensures IsLoad(LoadOf(k, block), block, cells) && CellOf(LoadOf(k, block), block) == k
    ensures forall e :: IsLoad(e, block, cells) && CellOf(e, block) == k ==> e == LoadOf(k, block)
  {
    TimesMono(1, block, block);
    var square := Times(block, block);
    var lin := Rem(k, square);
    QuotRem(k, square);
    QuotRem(lin, block);
    QuotBound(lin, block, block);
    forall e | IsLoad(e, block, cells) && CellOf(e, block) == k ensures e == LoadOf(k, block) {
      TimesStep(e.ty, block, block);
      QuotUnique(e.round, square, Times(e.ty, block) + e.tx);
      QuotUnique(e.ty, block, e.tx);
    }
  }

  type Tile = seq<seq<real>>

  /** The column of the image a tile's column stands for, as the text computes it. */
  function TileOrigin(g: nat, block: nat, r: nat, offset: nat): int {
    ToInt32(Times(g, block) - r + offset)
  }

  /** What the load of cell k stages: the tap helper at the cell's place in the image. */
  function StagedCell(kernel: Kernel, env: Env, img: Image, gx: nat, gy: nat, k: nat): seq<real>
    requires WellFormed(img) && TileEdge(kernel) > 0
  {
    var r := BakedRadius(kernel.stencil);
    Tap(kernel, env, img,
      TileOrigin(gx, kernel.blockDim, r, Rem(k, TileEdge(kernel))),
      TileOrigin(gy, kernel.blockDim, r, Quot(k, TileEdge(kernel))))
  }

  function RunLoads(kernel: Kernel, env: Env, img: Image, gx: nat, gy: nat, loads: seq<LoadEvent>, tile: Tile): (r: Tile)
    requires WellFormed(img) && TileEdge(kernel) > 0
    ensures |r| == |tile|
  {
    if loads == [] then tile
    else
      var before := RunLoads(kernel, env, img, gx, gy, loads[..|loads| - 1], tile);
      var k := CellOf(loads[|loads| - 1], kernel.blockDim);
      if k < |tile| then before[k := StagedCell(kernel, env, img, gx, gy, k)] else before
  }

  /** A cell that was loaded holds its staged value, whatever was loaded before or after. */
  lemma {:induction false} LoadedCell(kernel: Kernel, env: Env, img: Image, gx: nat, gy: nat, loads: seq<LoadEvent>, tile: Tile, e: LoadEvent)
    requires WellFormed(img) && TileEdge(kernel) > 0
    requires e in loads && CellOf(e, kernel.blockDim) < |tile|
    ensures var k := CellOf(e, kernel.blockDim);
            RunLoads(kernel, env, img, gx, gy, loads, tile)[k] == StagedCell(kernel, env, img, gx, gy, k)
    decreases |loads|
  {
    var init, last := loads[..|loads| - 1], loads[|loads| - 1];
    if CellOf(last, kernel.blockDim) != CellOf(e, kernel.blockDim) {
      assert e in init by {
        var i :| 0 <= i < |loads| && loads[i] == e;
        assert init[i] == e;
      }
      LoadedCell(kernel, env, img, gx, gy, init, tile, e);
    }
  }

  /** Every thread of the block reached the barrier: each load of the strided loop ran. */
  ghost predicate LoadsComplete(kernel: Kernel, loads: seq<LoadEvent>) {
    forall e :: IsLoad(e, kernel.blockDim, TileCells(kernel)) ==> e in loads
  }

  function CellAt(tile: Tile, edge: nat, row: int, column: int): seq<real> {
    if 0 <= row < edge && 0 <= column < edge && Times(row, edge) + column < |tile|
    then tile[Times(row, edge) + column] else []
  }

  /** The tiled variant's fetch: a read out of the staged tile, with no clamping. */
  function TiledFetch(kernel: Kernel, tile: Tile, tx: nat, ty: nat): Fetch {
    var r := BakedRadius(kernel.stencil);
    (dy, dx) => CellAt(tile, TileEdge(kernel), ty + r + dy, tx + r + dx)
  }

  /** Every tap of a thread stays inside the tile and reads what the clamped tap would. */
  lemma TapInTile(kernel: Kernel, env: Env, img: Image, t: Thread, loads: seq<LoadEvent>, garbage: Tile, dy: int, dx: int)
    requires WellFormed(img) && kernel.blockDim > 0 && t.tx < kernel.blockDim && t.ty < kernel.blockDim
    requires LoadsComplete(kernel, loads) && |garbage| == TileCells(kernel)
    requires var r: int := BakedRadius(kernel.stencil); -r <= dy <= r && -r <= dx <= r
    ensures TiledFetch(kernel, RunLoads(kernel, env, img, t.gx, t.gy, loads, garbage), t.tx, t.ty)(dy, dx)
            == Tap(kernel, env, img, ToInt32(PixelX(t, kernel.blockDim) + dx), ToInt32(PixelY(t, kernel.blockDim) + dy))
  {
    var r, edge := BakedRadius(kernel.stencil), TileEdge(kernel);
    var row, column: nat := t.ty + r + dy, t.tx + r + dx;
    var tile := RunLoads(kernel, env, img, t.gx, t.gy, loads, garbage);
    StagedAt(kernel, env, img, t.gx, t.gy, loads, garbage, row, column);
    assert TiledFetch(kernel, tile, t.tx, t.ty)(dy, dx) == CellAt(tile, edge, row, column);
    SamePlace(t.gx, t.tx, kernel.blockDim, r, dx);
    SamePlace(t.gy, t.ty, kernel.blockDim, r, dy);
  }

  /** A tap's cell stands for the tap's coordinate, wrapped or not. */
  lemma SamePlace(g: nat, t: nat, block: nat, r: nat, d: int)
    requires -(r as int) <= d <= r
    ensures TileOrigin(g, block, r, t + r + d) == ToInt32(Times(g, block) + t + d)
  {
    assert Times(g, block) - r + (t + r + d) == Times(g, block) + t + d;
  }

  lemma SomeLoad(block: nat, cells: nat, k: nat) returns (e: LoadEvent)
    requires block > 0 && k < cells
    ensures IsLoad(e, block, cells) && CellOf(e, block) == k
  {
    EachCellLoadedOnce(block, cells, k);
    e := LoadOf(k, block);
  }

  /** A complete tile holds at (row, column) what the load of that cell staged. */
  lemma CellHolds(kernel: Kernel, env: Env, img: Image, gx: nat, gy: nat, loads: seq<LoadEvent>, garbage: Tile,
                  row: nat, column: nat, edge: nat, k: nat)
    requires WellFormed(img) && kernel.blockDim > 0 && edge == TileEdge(kernel) && k == Times(row, edge) + column
    requires LoadsComplete(kernel, loads) && |garbage| == TileCells(kernel) && row < edge && column < edge
    ensures CellAt(RunLoads(kernel, env, img, gx, gy, loads, garbage), edge, row, column)
            == StagedCell(kernel, env, img, gx, gy, k)
  {
    PixelBounds(edge, edge, column, row);
    var e := SomeLoad(kernel.blockDim, TileCells(kernel), k);
    LoadedCell(kernel, env, img, gx, gy, loads, garbage, e);
  }

  /** The staged cell at (row, column) of a complete tile. */
  lemma StagedAt(kernel: Kernel, env: Env, img: Image, gx: nat, gy: nat, loads: seq<LoadEvent>, garbage: Tile,
                 row: nat, column: nat)
    requires WellFormed(img) && kernel.blockDim > 0
    requires LoadsComplete(kernel, loads) && |garbage| == TileCells(kernel)
    requires row < TileEdge(kernel) && column < TileEdge(kernel)
    ensures var r := BakedRadius(kernel.stencil);
            CellAt(RunLoads(kernel, env, img, gx, gy, loads, garbage), TileEdge(kernel), row, column)
            == Tap(kernel, env, img, TileOrigin(gx, kernel.blockDim, r, column), TileOrigin(gy, kernel.blockDim, r, row))
  {
    var edge := TileEdge(kernel);
    CellHolds(kernel, env, img, gx, gy, loads, garbage, row, column, edge, Times(row, edge) + column);
    QuotUnique(row, edge, column);
  }

  /** Any tile codegen accepts fits 48 KiB of shared memory at any table-bounded radius. */
  lemma TileFitsShared(channels: nat, tileSize: nat, radius: nat)
    requires SupportedChannels(channels) && tileSize <= MAX_TILE_SIZE && radius <= 12
    ensures SharedBytes(ColorChannels(channels), tileSize, radius) <= MAX_STATIC_SHARED_BYTES
  {
    var colors: nat, edge := ColorChannels(channels), tileSize + 2 * radius;
    TimesMono(colors, 3, edge);
    TimesIsProduct(3, edge);
    TimesMono(Times(colors, edge), 168, edge);
    TimesIsProduct(168, edge);
  }

  // ---------------------------------------------------------------- whole launches

  datatype Schedule = Schedule(
    order: seq<Thread>, loads: map<(nat, nat), seq<LoadEvent>>, garbage: map<(nat, nat), Tile>)

  /** Every block of the grid has its tile loaded completely, over some old contents. */
  ghost predicate TilesLoaded(kernel: Kernel, width: nat, height: nat, sched: Schedule)
    requires kernel.blockDim > 0
  {
    forall gx: nat, gy: nat {:trigger (gx, gy) in sched.loads} ::
      gx < GridDim(width, kernel.blockDim) && gy < GridDim(height, kernel.blockDim) ==>
        && (gx, gy) in sched.loads && (gx, gy) in sched.garbage
        && LoadsComplete(kernel, sched.loads[(gx, gy)])
        && |sched.garbage[(gx, gy)]| == TileCells(kernel)
  }

  /** Each thread of the grid stores once, in any order; tiles are complete before that. */
  ghost predicate ValidSchedule(kernel: Kernel, width: nat, height: nat, sched: Schedule)
    requires kernel.blockDim > 0
  {
    && (forall i, j :: 0 <= i < j < |sched.order| ==> sched.order[i] != sched.order[j])
    && (forall t :: t in sched.order <==> InGrid(t, kernel.blockDim, width, height))
    && (kernel.tiled ==> TilesLoaded(kernel, width, height, sched))
  }

  /** The frame a kernel sees in a device buffer. */
  function View(buffer: seq<Byte>, width: nat, height: nat, channels: nat): (img: Image)
    requires GoodDimensions(width, height, channels) && ByteCount(width, height, channels) <= |buffer|
    ensures WellFormed(img)
  {
    Image(width, height, channels, buffer[..ByteCount(width, height, channels)])
  }

  /** The column a thread computes, as the 32-bit integer the text keeps it in. */
  function ThreadX(t: Thread, block: nat): int {
    ToInt32(PixelX(t, block))
  }

  function ThreadY(t: Thread, block: nat): int {
    ToInt32(PixelY(t, block))
  }

  function ThreadFetch(kernel: Kernel, env: Env, img: Image, sched: Schedule, t: Thread): Fetch
    requires WellFormed(img) && kernel.blockDim > 0
  {
    if kernel.tiled && (t.gx, t.gy) in sched.loads && (t.gx, t.gy) in sched.garbage
    then TiledFetch(kernel,
           RunLoads(kernel, env, img, t.gx, t.gy, sched.loads[(t.gx, t.gy)], sched.garbage[(t.gx, t.gy)]), t.tx, t.ty)
    else NaiveFetch(kernel, env, img, ThreadX(t, kernel.blockDim), ThreadY(t, kernel.blockDim))
  }

  /** The bounds check after the barrier, then the stores of one thread at the positions it computes. */
  function RunThread(nm: Numerics, kernel: Kernel, env: Env, img: Image, sched: Schedule, t: Thread, dst: seq<Byte>)
    : (r: seq<Byte>)
    requires WellFormed(img) && kernel.blockDim > 0 && |img.pixels| <= |dst|
    ensures |r| == |dst|
  {
    var x, y := ThreadX(t, kernel.blockDim), ThreadY(t, kernel.blockDim);
    if x >= img.width || y >= img.height then dst
    else
      Stored(dst, KernelIndex(img.width, img.channels, x, y, 0),
        PixelBytes(nm, kernel, env, img, ThreadFetch(kernel, env, img, sched, t), x, y))
  }

  /** Bytes stored from position i on. A store outside has no meaning here; launches in bounds make none. */
  function Stored(dst: seq<Byte>, i: int, out: seq<Byte>): (r: seq<Byte>)
    ensures |r| == |dst|
  {
    if 0 <= i && i + |out| <= |dst| && i + |out| <= INT32_LIMIT then dst[..i] + out + dst[i + |out|..] else dst
  }

  function RunThreads(nm: Numerics, kernel: Kernel, env: Env, img: Image, sched: Schedule, order: seq<Thread>, dst: seq<Byte>)
    : (r: seq<Byte>)
    requires WellFormed(img) && kernel.blockDim > 0 && |img.pixels| <= |dst|
    ensures |r| == |dst|
  {
    if order == [] then dst
    else RunThread(nm, kernel, env, img, sched, order[|order| - 1],
           RunThreads(nm, kernel, env, img, sched, order[..|order| - 1], dst))
  }

  // -------------------------------------------------------- launches in 32 bits

  /** The extent rounded up to whole blocks: one past the largest coordinate of the grid. */
  function Padded(extent: nat, block: nat): nat
    requires block > 0
  {
    Times(GridDim(extent, block), block)
  }

  lemma PaddedBounds(extent: nat, block: nat)
    requires block > 0
    ensures extent <= Padded(extent, block) < extent + block
  {
    var n := extent + block - 1;
    QuotRem(n, block);
  }

  /** The first multiple of the block at or past the extent. */
  lemma PaddedIsMultiple(extent: nat, block: nat)
    requires block > 0
    ensures extent <= Padded(extent, block) < extent + block && Padded(extent, block) == GridDim(extent, block) * block
  {
    PaddedBounds(extent, block);
    TimesIsProduct(GridDim(extent, block), block);
  }

  /** Every coordinate of the grid, and every neighbour of a pixel, is a 32-bit integer. */
  predicate AxisFits(extent: nat, block: nat, r: nat)
    requires block > 0
  {
    Padded(extent, block) <= INT32_LIMIT && extent + r <= INT32_LIMIT
  }

  /** What a launch needs so that all its 32-bit arithmetic is exact. */
  predicate LaunchFits(kernel: Kernel, r: nat, width: nat, height: nat)
    requires kernel.blockDim > 0
  {
    && ByteCount(width, height, kernel.channels) <= INT32_LIMIT
    && AxisFits(width, kernel.blockDim, r) && AxisFits(height, kernel.blockDim, r)
  }

  lemma CoordinateInGrid(g: nat, t: nat, extent: nat, block: nat)
    requires block > 0 && g < GridDim(extent, block) && t < block
    ensures Times(g, block) + t < Padded(extent, block)
  {
    TimesStep(g, GridDim(extent, block), block);
  }

  /** Every thread computes its own pixel right when the padded extents are 32-bit. */
  lemma ThreadKnowsPixel(t: Thread, block: nat, width: nat, height: nat)
    requires block > 0 && InGrid(t, block, width, height)
    requires Padded(width, block) <= INT32_LIMIT && Padded(height, block) <= INT32_LIMIT
    ensures ThreadX(t, block) == PixelX(t, block) && ThreadY(t, block) == PixelY(t, block)
  {
    CoordinateInGrid(t.gx, t.tx, width, block);
    CoordinateInGrid(t.gy, t.ty, height, block);
  }

  /**
   Every position a launch computes lies inside the frame: those of all samples, which the
   clamped taps read, and those of every thread that passes the bounds check.
   */
  ghost predicate StaysInside(kernel: Kernel, width: nat, height: nat)
    requires kernel.blockDim > 0
  {
    && IndexedInside(width, height, kernel.channels)
    && forall t, c: nat {:trigger StoresAt(t, c)} ::
         StoresAt(t, c) && InGrid(t, kernel.blockDim, width, height) && c < kernel.channels
         && ThreadX(t, kernel.blockDim) < width && ThreadY(t, kernel.blockDim) < height ==>
           0 <= KernelIndex(width, kernel.channels, ThreadX(t, kernel.blockDim), ThreadY(t, kernel.blockDim), c)
             < ByteCount(width, height, kernel.channels)
  }

  /** A launch whose frame and padded extents are 32-bit touches no byte outside the frame. */
  lemma FittingStaysInside(kernel: Kernel, width: nat, height: nat)
    requires kernel.blockDim > 0 && width > 0 && kernel.channels > 0
    requires ByteCount(width, height, kernel.channels) <= INT32_LIMIT
    requires Padded(width, kernel.blockDim) <= INT32_LIMIT && Padded(height, kernel.blockDim) <= INT32_LIMIT
    ensures StaysInside(kernel, width, height)
  {
    IndexedRightIff(width, height, kernel.channels);
    forall t, c: nat | StoresAt(t, c) && InGrid(t, kernel.blockDim, width, height) && c < kernel.channels
        && ThreadX(t, kernel.blockDim) < width && ThreadY(t, kernel.blockDim) < height
      ensures 0 <= KernelIndex(width, kernel.channels, ThreadX(t, kernel.blockDim), ThreadY(t, kernel.blockDim), c)
                < ByteCount(width, height, kernel.channels)
    {
      ThreadKnowsPixel(t, kernel.blockDim, width, height);
      IndexFits(width, height, kernel.channels, PixelX(t, kernel.blockDim), PixelY(t, kernel.blockDim), c);
    }
  }

  lemma Doubles(a: nat, b: nat)
    ensures b >= 1 ==> a * b >= a
    ensures b >= 2 ==> a * b >= 2 * a
  {
    if b >= 2 {
      assert a * b == 2 * a + a * (b - 2);
    }
  }

  /** A frame of at most 2^31 bytes whose one axis pads past 2^31 is a single line of samples. */
  lemma LongAxisIsLine(extent: nat, other: nat, channels: nat, block: nat)
    requires 0 < block <= MAX_TILE_SIZE && extent > 0 && other > 0 && SupportedChannels(channels)
    requires extent * other * channels <= INT32_LIMIT && Padded(extent, block) > INT32_LIMIT
    ensures other == 1 && channels == 1
  {
    PaddedBounds(extent, block);
    Doubles(extent, other);
    Doubles(extent * other, channels);
  }

  /** The thread one past the last 32-bit coordinate exists, and its coordinate wraps. */
  lemma SomeThreadWraps(extent: nat, block: nat)
    requires block > 0 && Padded(extent, block) > INT32_LIMIT
    ensures var g, t := Quot(INT32_LIMIT, block), Rem(INT32_LIMIT, block);
            g < GridDim(extent, block) && t < block && ToInt32(Times(g, block) + t) == INT32_MIN
  {
    QuotRem(INT32_LIMIT, block);
    QuotBound(INT32_LIMIT, block, GridDim(extent, block));
  }

  lemma MostNegative(width: nat, channels: nat)
    requires channels == 1
    ensures KernelIndex(width, channels, INT32_MIN, 0, 0) == INT32_MIN
    ensures width == 1 ==> KernelIndex(width, channels, 0, INT32_MIN, 0) == INT32_MIN
  {
    TimesIsProduct(INT32_LIMIT, 1);
  }

  lemma GridNotEmpty(extent: nat, block: nat)
    requires extent > 0 && block > 0
    ensures GridDim(extent, block) > 0
  {
    PaddedBounds(extent, block);
  }

  lemma WideLeaves(kernel: Kernel, width: nat, height: nat)
    requires 0 < kernel.blockDim <= MAX_TILE_SIZE && GoodDimensions(width, height, kernel.channels)
    requires ByteCount(width, height, kernel.channels) <= INT32_LIMIT && Padded(width, kernel.blockDim) > INT32_LIMIT
    ensures !StaysInside(kernel, width, height)
  {
    var block := kernel.blockDim;
    ByteCountIsProduct(width, height, kernel.channels);
    LongAxisIsLine(width, height, kernel.channels, block);
    SomeThreadWraps(width, block);
    GridNotEmpty(height, block);
    var t := Thread(Quot(INT32_LIMIT, block), 0, Rem(INT32_LIMIT, block), 0);
    assert StoresAt(t, 0) && InGrid(t, block, width, height) && ThreadX(t, block) == INT32_MIN && ThreadY(t, block) == 0;
    MostNegative(width, kernel.channels);
  }

  lemma TallLeaves(kernel: Kernel, width: nat, height: nat)
    requires 0 < kernel.blockDim <= MAX_TILE_SIZE && GoodDimensions(width, height, kernel.channels)
    requires ByteCount(width, height, kernel.channels) <= INT32_LIMIT && Padded(height, kernel.blockDim) > INT32_LIMIT
    ensures !StaysInside(kernel, width, height)
  {
    var block := kernel.blockDim;
    ByteCountIsProduct(width, height, kernel.channels);
    assert height * width * kernel.channels == width * height * kernel.channels;
    LongAxisIsLine(height, width, kernel.channels, block);
    SomeThreadWraps(height, block);
    GridNotEmpty(width, block);
    var t := Thread(0, Quot(INT32_LIMIT, block), 0, Rem(INT32_LIMIT, block));
    assert StoresAt(t, 0) && InGrid(t, block, width, height) && ThreadX(t, block) == 0 && ThreadY(t, block) == INT32_MIN;
    MostNegative(width, kernel.channels);
  }

  /**
   A launch touches only its frame's bytes exactly when the frame has at most 2^31 bytes and
   both extents, rounded up to whole blocks, are at most 2^31.
   */
  lemma StaysInsideIff(kernel: Kernel, width: nat, height: nat)
    requires 0 < kernel.blockDim <= MAX_TILE_SIZE && GoodDimensions(width, height, kernel.channels)
    ensures StaysInside(kernel, width, height) <==>
              && ByteCount(width, height, kernel.channels) <= INT32_LIMIT
              && Padded(width, kernel.blockDim) <= INT32_LIMIT && Padded(height, kernel.blockDim) <= INT32_LIMIT
  {
    IndexedRightIff(width, height, kernel.channels);
    if ByteCount(width, height, kernel.channels) <= INT32_LIMIT {
      if Padded(width, kernel.blockDim) > INT32_LIMIT {
        WideLeaves(kernel, width, height);
      } else if Padded(height, kernel.blockDim) > INT32_LIMIT {
        TallLeaves(kernel, width, height);
      } else {
        FittingStaysInside(kernel, width, height);
      }
    }
  }

  lemma LongRowPadded()
    ensures Padded(INT32_MAX, 3) == INT32_LIMIT + 1 && Padded(INT32_MAX, 16) == INT32_LIMIT && Padded(1, 16) == 16
  {
    PaddedIsMultiple(INT32_MAX, 3);
    PaddedIsMultiple(INT32_MAX, 16);
    PaddedIsMultiple(1, 16);
  }

  /**
   One row of 2^31 - 1 samples, in blocks of 3: the padded row is 2^31 + 1 wide, and a thread
   past its end takes itself for a pixel. In blocks of 16 the same row is left by no thread.
   */
  lemma LongRowLeaves(kernel: Kernel)
    requires kernel.channels == 1
    ensures kernel.blockDim == 3 ==> !StaysInside(kernel, INT32_MAX, 1)
    ensures kernel.blockDim == 16 ==> StaysInside(kernel, INT32_MAX, 1)
  {
    LongRowPadded();
    ByteCountIsProduct(INT32_MAX, 1, 1);
    if kernel.blockDim == 3 || kernel.blockDim == 16 {
      StaysInsideIff(kernel, INT32_MAX, 1);
    }
  }

  /** Neighbours of every pixel of an axis are computed right exactly when the last one's are. */
  lemma NeighboursRightIff(extent: nat, r: nat)
    requires 0 < extent <= INT32_LIMIT && r <= INT32_LIMIT
    ensures (forall x: nat, d: int {:trigger NeighbourOf(x, d)} ::
               x < extent && -(r as int) <= d <= r ==> NeighbourOf(x, d) == x + d)
            <==> extent + r <= INT32_LIMIT
  {
    if extent + r > INT32_LIMIT {
      assert NeighbourOf(extent - 1, r) != extent - 1 + r;
    }
  }

  /** The 32-bit sum a tap's coordinate is. */
  function NeighbourOf(x: nat, d: int): int {
    ToInt32(x + d)
  }

  /** `goal` is what each thread stores at its own pixel. */
  ghost predicate ThreadsProduce(nm: Numerics, kernel: Kernel, env: Env, img: Image, sched: Schedule, goal: Image)
    requires WellFormed(img) && kernel.blockDim > 0 && WellFormed(goal)
    requires goal.width == img.width && goal.height == img.height && goal.channels == img.channels
  {
    forall t, c: nat {:trigger StoresAt(t, c)} ::
      StoresAt(t, c) && InGrid(t, kernel.blockDim, img.width, img.height) && c < img.channels
      && PixelX(t, kernel.blockDim) < img.width && PixelY(t, kernel.blockDim) < img.height ==>
        PixelBytes(nm, kernel, env, img, ThreadFetch(kernel, env, img, sched, t),
          PixelX(t, kernel.blockDim), PixelY(t, kernel.blockDim))[c]
        == At(goal, PixelX(t, kernel.blockDim), PixelY(t, kernel.blockDim), c)
  }

  /** Names a thread and a channel, so that facts about stores are found by them. */
  predicate StoresAt(t: Thread, c: nat) {
    c < 4
  }

  /** The frame's positions and its grid's coordinates are 32-bit. */
  predicate PositionsFit(img: Image, block: nat)
    requires block > 0
  {
    |img.pixels| <= INT32_LIMIT && Padded(img.width, block) <= INT32_LIMIT && Padded(img.height, block) <= INT32_LIMIT
  }

  /** What one thread of the grid does, when positions fit: nothing, or its pixel at its place. */
  lemma ThreadRuns(nm: Numerics, kernel: Kernel, env: Env, img: Image, sched: Schedule, t: Thread, dst: seq<Byte>)
    requires WellFormed(img) && kernel.blockDim > 0 && |img.pixels| <= |dst| && PositionsFit(img, kernel.blockDim)
    requires InGrid(t, kernel.blockDim, img.width, img.height)
    ensures var x, y := PixelX(t, kernel.blockDim), PixelY(t, kernel.blockDim);
            if x >= img.width || y >= img.height then RunThread(nm, kernel, env, img, sched, t, dst) == dst
            else
              var i := Index(img.width, img.channels, x, y, 0);
              && i + img.channels <= |img.pixels|
              && RunThread(nm, kernel, env, img, sched, t, dst)
                 == dst[..i] + PixelBytes(nm, kernel, env, img, ThreadFetch(kernel, env, img, sched, t), x, y)
                    + dst[i + img.channels..]
  {
    var x, y := PixelX(t, kernel.blockDim), PixelY(t, kernel.blockDim);
    ThreadKnowsPixel(t, kernel.blockDim, img.width, img.height);
    if x < img.width && y < img.height {
      IndexBounds(img.width, img.height, img.channels, x, y);
      IndexFits(img.width, img.height, img.channels, x, y, 0);
    }
  }

  /** Different pixels occupy different bytes. */
  lemma PixelsApart(width: nat, channels: nat, x: nat, y: nat, x': nat, y': nat)
    requires x < width && x' < width && (x, y) != (x', y')
    ensures || Index(width, channels, x, y, 0) + channels <= Index(width, channels, x', y', 0)
            || Index(width, channels, x', y', 0) + channels <= Index(width, channels, x, y, 0)
  {
    var p, p' := Times(y, width) + x, Times(y', width) + x';
    if p == p' {
      QuotUnique(y, width, x);
      QuotUnique(y', width, x');
    } else if p < p' {
      TimesStep(p, p', channels);
    } else {
      TimesStep(p', p, channels);
    }
  }

  lemma SplicedByte(dst: seq<Byte>, i: nat, out: seq<Byte>, k: nat)
    requires i + |out| <= |dst| && k < |dst|
    ensures (dst[..i] + out + dst[i + |out|..])[k] == if i <= k < i + |out| then out[k - i] else dst[k]
  {
  }

  /** After any part of the grid has run, the pixels of the threads that ran are in place. */
  lemma {:induction false} ThreadStored(nm: Numerics, kernel: Kernel, env: Env, img: Image, sched: Schedule,
                                        order: seq<Thread>, dst: seq<Byte>, goal: Image, t: Thread, c: nat)
    requires WellFormed(img) && kernel.blockDim > 0 && |img.pixels| <= |dst| && WellFormed(goal)
    requires goal.width == img.width && goal.height == img.height && goal.channels == img.channels
    requires PositionsFit(img, kernel.blockDim)
    requires ThreadsProduce(nm, kernel, env, img, sched, goal) && t in order && c < img.channels
    requires forall u :: u in order ==> InGrid(u, kernel.blockDim, img.width, img.height)
    requires PixelX(t, kernel.blockDim) < img.width && PixelY(t, kernel.blockDim) < img.height
    ensures var x, y := PixelX(t, kernel.blockDim), PixelY(t, kernel.blockDim);
            && Index(img.width, img.channels, x, y, c) < |dst|
            && RunThreads(nm, kernel, env, img, sched, order, dst)[Index(img.width, img.channels, x, y, c)]
               == At(goal, x, y, c)
    decreases |order|
  {
    var init, u := order[..|order| - 1], order[|order| - 1];
    assert order == init + [u];
    var block := kernel.blockDim;
    var x, y, ux, uy := PixelX(t, block), PixelY(t, block), PixelX(u, block), PixelY(u, block);
    IndexBounds(img.width, img.height, img.channels, x, y);
    var before := RunThreads(nm, kernel, env, img, sched, init, dst);
    ThreadRuns(nm, kernel, env, img, sched, u, before);
    if ux >= img.width || uy >= img.height {
      ThreadStored(nm, kernel, env, img, sched, init, dst, goal, t, c);
    } else {
      IndexBounds(img.width, img.height, img.channels, ux, uy);
      var out := PixelBytes(nm, kernel, env, img, ThreadFetch(kernel, env, img, sched, u), ux, uy);
      SplicedByte(before, Index(img.width, img.channels, ux, uy, 0), out, Index(img.width, img.channels, x, y, c));
      if (x, y) == (ux, uy) {
        assert StoresAt(u, c);
      } else {
        PixelsApart(img.width, img.channels, x, y, ux, uy);
        ThreadStored(nm, kernel, env, img, sched, init, dst, goal, t, c);
      }
    }
  }

  lemma ThreadKeepsTail(nm: Numerics, kernel: Kernel, env: Env, img: Image, sched: Schedule, t: Thread, dst: seq<Byte>)
    requires WellFormed(img) && kernel.blockDim > 0 && |img.pixels| <= |dst| && PositionsFit(img, kernel.blockDim)
    requires InGrid(t, kernel.blockDim, img.width, img.height)
    ensures RunThread(nm, kernel, env, img, sched, t, dst)[|img.pixels|..] == dst[|img.pixels|..]
  {
    ThreadRuns(nm, kernel, env, img, sched, t, dst);
  }

  /** No thread stores past the frame. */
  lemma {:induction false} TailKept(nm: Numerics, kernel: Kernel, env: Env, img: Image, sched: Schedule, order: seq<Thread>, dst: seq<Byte>)
    requires WellFormed(img) && kernel.blockDim > 0 && |img.pixels| <= |dst| && PositionsFit(img, kernel.blockDim)
    requires forall u :: u in order ==> InGrid(u, kernel.blockDim, img.width, img.height)
    ensures RunThreads(nm, kernel, env, img, sched, order, dst)[|img.pixels|..] == dst[|img.pixels|..]
    decreases |order|
  {
    if order != [] {
      var init, u := order[..|order| - 1], order[|order| - 1];
      assert order == init + [u];
      TailKept(nm, kernel, env, img, sched, init, dst);
      ThreadKeepsTail(nm, kernel, env, img, sched, u, RunThreads(nm, kernel, env, img, sched, init, dst));
    }
  }

  /** The whole grid stores exactly `goal`, under every valid schedule. */
  lemma GridStores(nm: Numerics, kernel: Kernel, env: Env, img: Image, sched: Schedule, dst: seq<Byte>, goal: Image)
    requires WellFormed(img) && kernel.blockDim > 0 && |img.pixels| <= |dst| && WellFormed(goal)
    requires goal.width == img.width && goal.height == img.height && goal.channels == img.channels
    requires PositionsFit(img, kernel.blockDim)
    requires ValidSchedule(kernel, img.width, img.height, sched)
    requires ThreadsProduce(nm, kernel, env, img, sched, goal)
    ensures View(RunThreads(nm, kernel, env, img, sched, sched.order, dst), img.width, img.height, img.channels) == goal
  {
    var r := View(RunThreads(nm, kernel, env, img, sched, sched.order, dst), img.width, img.height, img.channels);
    forall x: nat, y: nat, c: nat | x < img.width && y < img.height && c < img.channels
      ensures At(r, x, y, c) == At(goal, x, y, c)
    {
      OneThreadPerPixel(img.width, img.height, kernel.blockDim, x, y);
      IndexBounds(img.width, img.height, img.channels, x, y);
      ThreadStored(nm, kernel, env, img, sched, sched.order, dst, goal, ThreadOf(x, y, kernel.blockDim), c);
    }
    SameSamples(r, goal);
  }
}
