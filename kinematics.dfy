/** Pure side of the tile-kinematics ("man") movement model: the helpers of the
    world module, one fixed step of an entity as a function of its state, and
    the arithmetic of the fixed-step accumulator. Coordinates grow to the right
    and DOWNWARD (gravity is added to ddy; landing is tested on dy > 0). */
module Kinematics {

  /** Width and height of the tile map, in tiles. */
  const MapWidth: int := 64
  const MapHeight: int := 48

  /** The length of one fixed step: one sixtieth of a second. */
  const StepSize: real := 1.0 / 60.0

  function Min(a: real, b: real): real { if a <= b then a else b }
  function Max(a: real, b: real): real { if a >= b then a else b }
  function Abs(a: real): real { if a < 0.0 then -a else a }

  /** Clamp x into [lo, hi] by max(lo, min(hi, x)). */
  function Bound(x: real, lo: real, hi: real): (r: real)
    ensures lo <= hi ==> lo <= r <= hi
    ensures lo <= x <= hi ==> r == x
    ensures x < lo ==> r == lo
    ensures lo <= hi && hi < x ==> r == hi
    ensures hi < lo ==> r == lo
  {
    Max(lo, Min(hi, x))
  }

  // ---------------------------------------------------------------- tile grid

  /** Row-major flat index of a tile; a column of 64 spills into the next row. */
  function FlatIndex(tx: int, ty: int): int { tx + ty * MapWidth }

  /** The tile at (tx, ty). A flat index outside the array reads as JavaScript's
      `undefined`, which every test of the step treats like the empty tile 0, so a
      non-empty read always comes from the grid at the row-major index. */
  function TCell(cells: seq<int>, tx: int, ty: int): (r: int)
    ensures r != 0 ==> 0 <= FlatIndex(tx, ty) < |cells| && cells[FlatIndex(tx, ty)] == r
  {
    var i := FlatIndex(tx, ty);
    if 0 <= i < |cells| then cells[i] else 0
  }

  /** On a grid of the map's size, a tile of an in-range column and row is the grid
      element at tx + 64 * ty, and a row above or below the map reads as empty. */
  lemma MapTiles(cells: seq<int>, tx: int, ty: int)
    requires |cells| == MapWidth * MapHeight
    requires 0 <= tx < MapWidth
    ensures 0 <= ty < MapHeight ==>
              0 <= tx + 64 * ty < |cells| && TCell(cells, tx, ty) == cells[tx + 64 * ty]
    ensures ty < 0 || ty >= MapHeight ==> TCell(cells, tx, ty) == 0 && !Solid(cells, tx, ty)
  {
    assert |cells| == 3072;
    if ty < 0 {
      assert ty * 64 <= -64;
    } else if ty >= MapHeight {
      assert ty * 64 >= 3072;
    } else {
      assert ty * 64 <= 47 * 64;
    }
  }

  /** A tile blocks movement when its value is truthy, i.e. non-zero: targets (2) block like walls (1). */
  predicate Solid(cells: seq<int>, tx: int, ty: int)
  {
    TCell(cells, tx, ty) != 0
  }

  /** Column index 64 is the first column of the next row: there is no 2-D bounds check. */
  lemma ColumnWraps(cells: seq<int>, ty: int)
    ensures Solid(cells, MapWidth, ty) == Solid(cells, 0, ty + 1)
    ensures TCell(cells, MapWidth, ty) == TCell(cells, 0, ty + 1)
  {
  }

  /** Every tile of a grid that holds only empty, wall and target tiles is solid exactly when it is a wall or target. */
  lemma SolidIsWallOrTarget(cells: seq<int>, tx: int, ty: int)
    requires forall i :: 0 <= i < |cells| ==> cells[i] in {0, 1, 2}
    ensures Solid(cells, tx, ty) <==> TCell(cells, tx, ty) == 1 || TCell(cells, tx, ty) == 2
  {
  }

  // ---------------------------------------------------------------- overlap

  /** Inclusive-pixel rectangle test: the rectangles [x, x+w-1] x [y, y+h-1] share a pixel.
      For boxes at least one pixel wide and high one candidate decides it: the pixel on
      the later of the two left edges and the later of the two top edges. */
  predicate Overlap(x1: int, y1: int, w1: int, h1: int, x2: int, y2: int, w2: int, h2: int): (b: bool)
    ensures w1 >= 1 && h1 >= 1 && w2 >= 1 && h2 >= 1 ==>
              (b <==> InBox(MaxInt(x1, x2), MaxInt(y1, y2), x1, y1, w1, h1) &&
                      InBox(MaxInt(x1, x2), MaxInt(y1, y2), x2, y2, w2, h2))
  {
    !((x1 + w1 - 1 < x2) ||
      (x2 + w2 - 1 < x1) ||
      (y1 + h1 - 1 < y2) ||
      (y2 + h2 - 1 < y1))
  }

  function MaxInt(a: int, b: int): int { if a >= b then a else b }

  /** Pixel (px, py) lies in the w x h rectangle whose top-left pixel is (x, y). */
  predicate InBox(px: int, py: int, x: int, y: int, w: int, h: int)
  {
    x <= px < x + w && y <= py < y + h
  }

  lemma OverlapSymmetric(x1: int, y1: int, w1: int, h1: int, x2: int, y2: int, w2: int, h2: int)
    ensures Overlap(x1, y1, w1, h1, x2, y2, w2, h2) == Overlap(x2, y2, w2, h2, x1, y1, w1, h1)
  {
  }

  lemma OverlapExamples()
    ensures Overlap(0, 0, 2, 2, 1, 1, 2, 2)
    ensures !Overlap(0, 0, 2, 2, 3, 3, 2, 2)
  {
  }

  /** For rectangles at least one pixel wide and high, the test holds exactly when some pixel lies in both. */
  lemma OverlapIffSharedPixel(x1: int, y1: int, w1: int, h1: int, x2: int, y2: int, w2: int, h2: int)
    requires w1 >= 1 && h1 >= 1 && w2 >= 1 && h2 >= 1
    ensures Overlap(x1, y1, w1, h1, x2, y2, w2, h2) <==>
            exists px: int, py: int :: InBox(px, py, x1, y1, w1, h1) && InBox(px, py, x2, y2, w2, h2)
  {
    if Overlap(x1, y1, w1, h1, x2, y2, w2, h2) {
      var px := if x1 >= x2 then x1 else x2;
      var py := if y1 >= y2 then y1 else y2;
      assert InBox(px, py, x1, y1, w1, h1) && InBox(px, py, x2, y2, w2, h2);
    }
  }

  // ---------------------------------------------------------------- one fixed step

  /** The state an entity step changes. */
  datatype Motion = Motion(x: real, y: real, dx: real, dy: real, ddx: real, ddy: real,
                           falling: bool, jumping: bool)

  /** The control flags an entity step reads. */
  datatype Controls = Controls(left: bool, right: bool, jump: bool)

  /** The per-entity constants an entity step reads. */
  datatype Tuning = Tuning(accel: real, friction: real, gravity: real,
                           maxdx: real, maxdy: real, impulse: real)

  /** Solidity of the four tiles sampled around floor(x), floor(y). */
  datatype Neighbourhood = Neighbourhood(cell: bool, right: bool, down: bool, diag: bool)

  /** JavaScript's integer truncation toward zero. */
  function Trunc(v: real): int
  {
    if v >= 0.0 then v.Floor else -((-v).Floor)
  }

  /** JavaScript's `v % 1`: the fractional part with the sign of v. */
  function JsRem1(v: real): real
  {
    v - Trunc(v) as real
  }

  /** Not a whole number. */
  predicate Fractional(v: real)
  {
    v != v.Floor as real
  }

  /** `v % 1` is truthy exactly when v is not a whole number. */
  lemma JsRem1NonZero(v: real)
    ensures JsRem1(v) != 0.0 <==> Fractional(v)
  {
    if v < 0.0 {
      var k := (-v).Floor;
      assert Trunc(v) == -k;
      if v == v.Floor as real {
        var j := v.Floor;
        assert -v == (-j) as real;
        assert k == -j;
      }
      if JsRem1(v) == 0.0 {
        assert v == (-k) as real;
        assert v.Floor == -k;
      }
    }
  }

  /** Acceleration and friction are halved while airborne. */
  function AirFactor(falling: bool): real { if falling then 0.5 else 1.0 }

  /** The jump impulse fires only when jump is held and the entity is neither jumping nor falling. */
  predicate JumpTriggered(m: Motion, c: Controls)
  {
    c.jump && !m.jumping && !m.falling
  }

  /** Horizontal acceleration: a held key accelerates; a released key lets friction act
      against the motion it was opposing. */
  function HorizontalAccel(m: Motion, c: Controls, t: Tuning): (r: real)
    ensures c.left && c.right ==> r == 0.0
    ensures 0.0 < t.accel && 0.0 <= t.friction ==>
              (c.right && !c.left ==> r > 0.0) && (c.left && !c.right ==> r < 0.0)
    ensures !c.left && !c.right ==>
              (m.dx == 0.0 ==> r == 0.0) &&
              (0.0 < t.friction ==> (m.dx > 0.0 ==> r < 0.0) && (m.dx < 0.0 ==> r > 0.0))
  {
    var accel := t.accel * AirFactor(m.falling);
    var friction := t.friction * AirFactor(m.falling);
    var fromLeft := if c.left then 0.0 - accel else if m.dx < 0.0 then 0.0 + friction else 0.0;
    if c.right then fromLeft + accel else if m.dx > 0.0 then fromLeft - friction else fromLeft
  }

  /** The accelerations of a step and the jump flag the impulse sets; position,
      velocity and the falling flag are left to the integration. */
  function Accelerations(m: Motion, c: Controls, t: Tuning): (r: Motion)
    ensures r.x == m.x && r.y == m.y && r.dx == m.dx && r.dy == m.dy && r.falling == m.falling
    ensures m.jumping ==> r.jumping
  {
    m.(ddx := HorizontalAccel(m, c, t),
       ddy := if JumpTriggered(m, c) then t.gravity - t.impulse else t.gravity,
       jumping := m.jumping || JumpTriggered(m, c))
  }

  /** Euler integration (position from the old velocity, then velocity from the
      acceleration), the velocity clamps and the zero clamp against friction jiggle. */
  // The literal 1.0 / 60.0 is StepSize, written out so that the products stay linear.
  function Euler(m: Motion, t: Tuning): (r: Motion)
    ensures 0.0 <= t.maxdx ==> -t.maxdx <= r.dx <= t.maxdx
    ensures 0.0 <= t.maxdy ==> -t.maxdy <= r.dy <= t.maxdy
    ensures m.dx < 0.0 ==> r.dx <= 0.0
    ensures m.dx > 0.0 ==> r.dx >= 0.0
    ensures r.falling == m.falling && r.jumping == m.jumping
  {
    var dx := Bound(m.dx + (1.0 / 60.0) * m.ddx, -t.maxdx, t.maxdx);
    var dy := Bound(m.dy + (1.0 / 60.0) * m.ddy, -t.maxdy, t.maxdy);
    var dx' := if (m.dx < 0.0 && dx > 0.0) || (m.dx > 0.0 && dx < 0.0) then 0.0 else dx;
    m.(x := m.x + (1.0 / 60.0) * m.dx, y := m.y + (1.0 / 60.0) * m.dy, dx := dx', dy := dy)
  }

  /** Everything a step does before collision resolution. */
  function Integrate(m: Motion, c: Controls, t: Tuning): Motion
  {
    Euler(Accelerations(m, c, t), t)
  }

  /** The tiles at (tx, ty), (tx+1, ty), (tx, ty+1), (tx+1, ty+1) for the floor of a position. */
  function Sample(cells: seq<int>, x: real, y: real): Neighbourhood
  {
    var tx := x.Floor;
    var ty := y.Floor;
    Neighbourhood(Solid(cells, tx, ty), Solid(cells, tx + 1, ty),
                  Solid(cells, tx, ty + 1), Solid(cells, tx + 1, ty + 1))
  }

  /** Moving down onto a solid tile below, or onto the diagonal one when offset horizontally. */
  predicate Lands(m: Motion, n: Neighbourhood)
  {
    m.dy > 0.0 && ((n.down && !n.cell) || (n.diag && !n.right && Fractional(m.x)))
  }

  /** Moving up into a solid tile, or into the one to the right when offset horizontally. */
  predicate HitsCeiling(m: Motion, n: Neighbourhood)
  {
    m.dy < 0.0 && ((n.cell && !n.down) || (n.right && !n.diag && Fractional(m.x)))
  }

  /** The row of tiles the horizontal test sees: after a ceiling bump it is the row below. */
  function RowAfterVertical(m: Motion, n: Neighbourhood): (bool, bool)
  {
    if HitsCeiling(m, n) then (n.down, n.diag) else (n.cell, n.right)
  }

  /** The vertical offset is truthy only when y was not snapped and is not whole. */
  predicate OffsetY(m: Motion, n: Neighbourhood)
  {
    !Lands(m, n) && !HitsCeiling(m, n) && Fractional(m.y)
  }

  /** Vertical snapping: landing puts y on the tile row and stops the fall; a ceiling
      bump puts y on the row below. */
  function SnapY(m: Motion, n: Neighbourhood): (r: Motion)
    ensures r.x == m.x && r.dx == m.dx
    ensures r == m || (r.dy == 0.0 && (r.y == m.y.Floor as real || r.y == m.y.Floor as real + 1.0))
  {
    var ty := m.y.Floor as real;
    if Lands(m, n) then m.(y := ty, dy := 0.0, falling := false, jumping := false)
    else if HitsCeiling(m, n) then m.(y := ty + 1.0, dy := 0.0)
    else m
  }

  /** Moving right into a solid tile of the row (cell, right), or into the lower
      diagonal one when offset vertically. */
  predicate WallRight(dx: real, cell: bool, right: bool, down: bool, diag: bool, offY: bool)
  {
    dx > 0.0 && ((right && !cell) || (diag && !down && offY))
  }

  /** Moving left into a solid tile of the row (cell, right), or into the lower one
      when offset vertically. */
  predicate WallLeft(dx: real, cell: bool, right: bool, down: bool, diag: bool, offY: bool)
  {
    dx < 0.0 && ((cell && !right) || (down && !diag && offY))
  }

  /** Horizontal snapping against the row of tiles the vertical pass left. */
  function SnapX(m: Motion, cell: bool, right: bool, down: bool, diag: bool, offY: bool): (r: Motion)
    ensures r.y == m.y && r.dy == m.dy && r.falling == m.falling && r.jumping == m.jumping
    ensures r == m || (r.dx == 0.0 && (r.x == m.x.Floor as real || r.x == m.x.Floor as real + 1.0))
  {
    var tx := m.x.Floor as real;
    if WallRight(m.dx, cell, right, down, diag, offY) then m.(x := tx, dx := 0.0)
    else if WallLeft(m.dx, cell, right, down, diag, offY) then m.(x := tx + 1.0, dx := 0.0)
    else m
  }

  predicate BlockedRight(m: Motion, n: Neighbourhood)
  {
    var (cell, right) := RowAfterVertical(m, n);
    WallRight(m.dx, cell, right, n.down, n.diag, OffsetY(m, n))
  }

  predicate BlockedLeft(m: Motion, n: Neighbourhood)
  {
    var (cell, right) := RowAfterVertical(m, n);
    WallLeft(m.dx, cell, right, n.down, n.diag, OffsetY(m, n))
  }

  /** Falling at step exit: no solid tile below, directly or diagonally when offset horizontally. */
  predicate Unsupported(m: Motion, n: Neighbourhood)
  {
    !(n.down || (Fractional(m.x) && n.diag))
  }

  /** Collision resolution against the sampled tiles, then `falling` recomputed. It
      only ever stops motion, and moves the entity by at most one tile on each axis. */
  function Resolve(m: Motion, n: Neighbourhood): (r: Motion)
    ensures r.dx == m.dx || r.dx == 0.0
    ensures r.dy == m.dy || r.dy == 0.0
    ensures Abs(r.x - m.x) <= 1.0 && Abs(r.y - m.y) <= 1.0
  {
    var (cell, right) := RowAfterVertical(m, n);
    SnapX(SnapY(m, n), cell, right, n.down, n.diag, OffsetY(m, n)).(falling := Unsupported(m, n))
  }

  /** One fixed step (of length StepSize) of an entity over the tile grid. Both
      velocity components end within their limits, since the clamps are followed only
      by assignments of zero, and the horizontal velocity never changes sign. */
  function Step(m: Motion, c: Controls, t: Tuning, cells: seq<int>): (r: Motion)
    ensures 0.0 <= t.maxdx ==> -t.maxdx <= r.dx <= t.maxdx
    ensures 0.0 <= t.maxdy ==> -t.maxdy <= r.dy <= t.maxdy
    ensures m.dx < 0.0 ==> r.dx <= 0.0
    ensures m.dx > 0.0 ==> r.dx >= 0.0
  {
    var i := Integrate(m, c, t);
    Resolve(i, Sample(cells, i.x, i.y))
  }

  /** n fixed steps with unchanging controls. */
  function Run(m: Motion, c: Controls, t: Tuning, cells: seq<int>, n: nat): Motion
  {
    if n == 0 then m else Step(Run(m, c, t, cells, n - 1), c, t, cells)
  }

  /** Velocities within their limits stay there over any number of steps. */
  lemma {:induction false} RunVelocityBounded(m: Motion, c: Controls, t: Tuning, cells: seq<int>, n: nat)
    requires 0.0 <= t.maxdx && 0.0 <= t.maxdy
    requires -t.maxdx <= m.dx <= t.maxdx && -t.maxdy <= m.dy <= t.maxdy
    ensures -t.maxdx <= Run(m, c, t, cells, n).dx <= t.maxdx
    ensures -t.maxdy <= Run(m, c, t, cells, n).dy <= t.maxdy
  {
    if n > 0 {
      RunVelocityBounded(m, c, t, cells, n - 1);
    }
  }

  // ---------------------------------------------------------------- properties of a step

  /** The jump impulse is applied exactly when triggered, and the step then leaves the
      entity jumping unless it lands in the same step. */
  lemma StepJump(m: Motion, c: Controls, t: Tuning, cells: seq<int>)
    ensures Step(m, c, t, cells).ddy == if JumpTriggered(m, c) then t.gravity - t.impulse else t.gravity
    ensures var i := Integrate(m, c, t);
            Step(m, c, t, cells).jumping ==
              (!Lands(i, Sample(cells, i.x, i.y)) && (m.jumping || JumpTriggered(m, c)))
  {
  }

  /** Vertical resolution: landing snaps y down onto the tile row and stops the fall,
      a ceiling bump snaps y to the row below, and otherwise y and dy are the integrated ones. */
  lemma StepSnapsVertically(m: Motion, c: Controls, t: Tuning, cells: seq<int>)
    ensures var i := Integrate(m, c, t);
            var n := Sample(cells, i.x, i.y);
            var r := Step(m, c, t, cells);
            (Lands(i, n) ==> r.y == i.y.Floor as real && r.dy == 0.0 && !r.jumping) &&
            (HitsCeiling(i, n) ==> r.y == i.y.Floor as real + 1.0 && r.dy == 0.0) &&
            (!Lands(i, n) && !HitsCeiling(i, n) ==> r.y == i.y && r.dy == i.dy)
  {
  }

  /** Horizontal resolution: a wall snaps x to floor(x) or floor(x)+1 and stops horizontal motion. */
  lemma StepSnapsHorizontally(m: Motion, c: Controls, t: Tuning, cells: seq<int>)
    ensures var i := Integrate(m, c, t);
            var n := Sample(cells, i.x, i.y);
            var r := Step(m, c, t, cells);
            (BlockedRight(i, n) ==> r.x == i.x.Floor as real && r.dx == 0.0) &&
            (BlockedLeft(i, n) ==> r.x == i.x.Floor as real + 1.0 && r.dx == 0.0) &&
            (!BlockedRight(i, n) && !BlockedLeft(i, n) ==> r.x == i.x && r.dx == i.dx)
  {
  }

  /** At step exit the entity is falling exactly when neither the tile below nor, when
      offset horizontally, the diagonal tile is solid, sampled at the integrated position. */
  lemma StepFalling(m: Motion, c: Controls, t: Tuning, cells: seq<int>)
    ensures var i := Integrate(m, c, t);
            Step(m, c, t, cells).falling <==>
              !(Solid(cells, i.x.Floor, i.y.Floor + 1) ||
                (JsRem1(i.x) != 0.0 && Solid(cells, i.x.Floor + 1, i.y.Floor + 1)))
  {
    var i := Integrate(m, c, t);
    JsRem1NonZero(i.x);
  }

  /** An entity standing still on a solid tile with an empty tile around it and no keys
      held stays where it is, at rest and not falling. */
  lemma StandingIsStable(m: Motion, t: Tuning, cells: seq<int>)
    requires m.dx == 0.0 && m.dy == 0.0 && !m.falling
    requires m.y == m.y.Floor as real
    requires Solid(cells, m.x.Floor, m.y.Floor + 1) && !Solid(cells, m.x.Floor, m.y.Floor)
    requires 0.0 < t.gravity && 0.0 < t.maxdy && 0.0 <= t.maxdx
    ensures var r := Step(m, Controls(false, false, false), t, cells);
            r.x == m.x && r.y == m.y && r.dx == 0.0 && r.dy == 0.0 && !r.falling && !r.jumping
  {
  }

  /** The integrated motion of the wall example below: friction has stopped the entity
      while its old velocity carried x across the tile edge at 1. */
  lemma FrictionStopIntegrates(m: Motion, c: Controls, t: Tuning)
    requires m == Motion(1.005, 0.0, -0.5, 0.0, 0.0, 0.0, false, false)
    requires c == Controls(false, false, false) && t == Tuning(10.0, 60.0, 10.0, 10.0, 10.0, 0.0)
    ensures Integrate(m, c, t) == Motion(1.005 - 0.5 / 60.0, 0.0, 0.0, 10.0 / 60.0, 60.0, 10.0, false, false)
  {
    var a := Accelerations(m, c, t);
    assert HorizontalAccel(m, c, t) == 60.0;
    assert a == Motion(1.005, 0.0, -0.5, 0.0, 60.0, 10.0, false, false);
    assert Bound(-0.5 + (1.0 / 60.0) * 60.0, -10.0, 10.0) == 0.5;
    assert Bound(0.0 + (1.0 / 60.0) * 10.0, -10.0, 10.0) == 10.0 / 60.0;
  }

  /** Around the integrated position of the wall example the entity's own tile and the
      diagonal one below right are solid, the others empty. */
  lemma FrictionStopSamples(cells: seq<int>)
    requires |cells| >= 66 && cells[0] != 0 && cells[1] == 0 && cells[64] == 0 && cells[65] != 0
    ensures Sample(cells, 1.005 - 0.5 / 60.0, 0.0) == Neighbourhood(true, false, false, true)
  {
    assert (1.005 - 0.5 / 60.0).Floor == 0;
    assert (0.0).Floor == 0;
  }

  /** Against those tiles, resolution lands the entity and runs no wall test. */
  lemma FrictionStopResolves()
    ensures var i := Motion(1.005 - 0.5 / 60.0, 0.0, 0.0, 10.0 / 60.0, 60.0, 10.0, false, false);
            var r := Resolve(i, Neighbourhood(true, false, false, true));
            r.x == i.x && r.y == 0.0 && r.dx == 0.0
  {
    var i := Motion(1.005 - 0.5 / 60.0, 0.0, 0.0, 10.0 / 60.0, 60.0, 10.0, false, false);
    assert i.x.Floor == 0 && i.y.Floor == 0 && Fractional(i.x);
  }

  /** A step can end with the entity's own tile solid. x moves by the velocity at entry,
      but the wall tests read the velocity left after the zero clamp, so when friction
      stops the entity in the step that carries it across a tile edge into a wall,
      neither wall test runs. Here the entity moves left from the empty tile (1, 0)
      into the wall at (0, 0), standing on the floor tile (1, 1). */
  lemma FrictionStopEntersWall(cells: seq<int>, m: Motion, c: Controls, t: Tuning)
    requires |cells| >= 66 && cells[0] != 0 && cells[1] == 0 && cells[64] == 0 && cells[65] != 0
    requires m == Motion(1.005, 0.0, -0.5, 0.0, 0.0, 0.0, false, false)
    requires c == Controls(false, false, false) && t == Tuning(10.0, 60.0, 10.0, 10.0, 10.0, 0.0)
    ensures !Solid(cells, m.x.Floor, m.y.Floor)
    ensures var r := Step(m, c, t, cells);
            r.dx == 0.0 && r.x.Floor == 0 && r.y.Floor == 0 && Solid(cells, r.x.Floor, r.y.Floor)
  {
    assert m.x.Floor == 1 && m.y.Floor == 0;
    FrictionStopIntegrates(m, c, t);
    var i := Integrate(m, c, t);
    FrictionStopSamples(cells);
    var n := Sample(cells, i.x, i.y);
    assert n == Neighbourhood(true, false, false, true);
    FrictionStopResolves();
    var r := Resolve(i, n);
    assert r.x == i.x && r.y == 0.0 && r.dx == 0.0;
    assert r.x.Floor == 0;
  }

  // ---------------------------------------------------------------- fixed-step accumulator

  /** Wall time added in one frame: the elapsed milliseconds in seconds, capped at one second. */
  function FrameTime(now: real, last: real): (r: real)
    ensures r <= 1.0
    ensures r == 1.0 || r == (now - last) / 1000.0
    ensures now - last <= 1000.0 ==> r == (now - last) / 1000.0
  {
    Min(1.0, (now - last) / 1000.0)
  }

  /** Termination measure of the accumulator loop: the whole number of steps in acc. */
  function StepsIn(acc: real): int
  {
    if acc <= StepSize then 0 else (acc * 60.0).Floor
  }

  /** Draining an accumulator one step at a time while it holds more than one step: the
      number of whole steps run and the remainder left for interpolation. */
  function Drain(acc: real): (r: (nat, real))
    ensures r.1 <= StepSize
    ensures acc == r.1 + r.0 as real * StepSize
    ensures 0.0 <= acc ==> 0.0 <= r.1
    ensures r.0 > 0 ==> 0.0 < r.1
    ensures r.0 == 0 <==> acc <= StepSize
    decreases StepsIn(acc)
  {
    if acc > StepSize then
      var (n, rem) := Drain(acc - StepSize);
      (n + 1, rem)
    else
      (0, acc)
  }

  /** Each turn of the accumulator loop lowers the whole number of steps left. */
  lemma StepsInDecreases(acc: real)
    requires acc > StepSize
    ensures StepsIn(acc - StepSize) < StepsIn(acc)
  {
  }

  /** A count and a remainder that account for all of acc, with the remainder at most
      one step and positive once a step was taken, are exactly what Drain returns. */
  lemma {:induction false} DrainExact(acc: real, n: nat, rem: real)
    requires acc == rem + n as real * StepSize
    requires rem <= StepSize && (n > 0 ==> 0.0 < rem)
    ensures Drain(acc) == (n, rem)
    decreases n
  {
    if n > 0 {
      DrainExact(acc - StepSize, n - 1, rem);
    }
  }
}
