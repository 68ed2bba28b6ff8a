/** The stateful side of the world module: entities whose fields one fixed step
    overwrites in place, and the world that owns the tile grid, the player list,
    the tick counter and the fixed-step time accumulator. Each mutating method is
    proved against the pure step of module Kinematics. */
module World {
  import opened Kinematics

  /** A player as the world sees it: position, velocity, acceleration, control
      flags, airborne flags, tuning constants and the start position. */
  class Entity {
    var x: real
    var y: real
    var dx: real
    var dy: real
    var ddx: real
    var ddy: real
    var left: bool
    var right: bool
    var jump: bool
    var falling: bool
    var jumping: bool
    const accel: real
    const friction: real
    const gravity: real
    const maxdx: real
    const maxdy: real
    const impulse: real
    const startX: real
    const startY: real

    function State(): Motion
      reads this`x, this`y, this`dx, this`dy, this`ddx, this`ddy, this`falling, this`jumping
    {
      Motion(x, y, dx, dy, ddx, ddy, falling, jumping)
    }

    function Controls(): Controls
      reads this`left, this`right, this`jump
    {
      Kinematics.Controls(left, right, jump)
    }

    function Tuning(): Tuning
    {
      Kinematics.Tuning(accel, friction, gravity, maxdx, maxdy, impulse)
    }

    /** At its start position with zero velocity. */
    predicate AtStart()
      reads this`x, this`y, this`dx, this`dy
    {
      x == startX && y == startY && dx == 0.0 && dy == 0.0
    }

    /** A player at rest at its start position with no key held. */
    constructor (sx: real, sy: real, t: Tuning)
      ensures x == sx && y == sy && startX == sx && startY == sy
      ensures dx == 0.0 && dy == 0.0 && ddx == 0.0 && ddy == 0.0
      ensures Controls() == Kinematics.Controls(false, false, false)
      ensures !falling && !jumping
      ensures Tuning() == t
    {
      x, y, startX, startY := sx, sy, sx, sy;
      dx, dy, ddx, ddy := 0.0, 0.0, 0.0, 0.0;
      left, right, jump := false, false, false;
      falling, jumping := false, false;
      accel, friction, gravity := t.accel, t.friction, t.gravity;
      maxdx, maxdy, impulse := t.maxdx, t.maxdy, t.impulse;
    }
  }

  class World {
    /** The flat row-major tile grid. */
    var cells: seq<int>
    var players: seq<Entity>
    var ticks: int
    /** Accumulated wall time not yet consumed by fixed steps, in seconds. */
    var dt: real
    /** Timestamp of the previous render frame, in milliseconds. */
    var last: real

    /** Each player object is in the list once. */
    ghost predicate Valid()
      reads this
    {
      forall i, j :: 0 <= i < j < |players| ==> players[i] != players[j]
    }

    constructor (now: real)
      ensures Valid()
      ensures cells == [] && players == [] && ticks == 0 && dt == 0.0 && last == now
    {
      cells, players, ticks, dt, last := [], [], 0, 0.0, now;
    }

    /** Installs a level's tile grid (its cube meshes are not modelled). */
    method AddBlocks(blocks: seq<int>)
      modifies this`cells
      ensures cells == blocks
    {
      cells := blocks;
    }

    /** Appends a player (its avatar mesh is not modelled). */
    method AddPlayer(p: Entity)
      requires Valid() && p !in players
      modifies this`players
      ensures Valid()
      ensures players == old(players) + [p]
    {
      players := players + [p];
    }

    /** One fixed step of one entity, in the order of the source's statements:
        forces and integration, then collision resolution. */
    method UpdateEntity(e: Entity)
      modifies e`x, e`y, e`dx, e`dy, e`ddx, e`ddy, e`falling, e`jumping
      ensures e.State() == Step(old(e.State()), e.Controls(), e.Tuning(), cells)
    {
      Accelerate(e);
      ResolveCollisions(e);
    }

    /** Acceleration, jump impulse, Euler integration and velocity clamps. */
    method Accelerate(e: Entity)
      modifies e`x, e`y, e`dx, e`dy, e`ddx, e`ddy, e`jumping
      ensures e.State() == Integrate(old(e.State()), e.Controls(), e.Tuning())
    {
      ApplyForces(e);
      EulerStep(e);
    }

    /** Picks the accelerations (halved while airborne) and fires the jump impulse. */
    method ApplyForces(e: Entity)
      modifies e`ddx, e`ddy, e`jumping
      ensures e.State() == Accelerations(old(e.State()), e.Controls(), e.Tuning())
    {
      HorizontalForces(e);
      VerticalForces(e);
    }

    /** The horizontal acceleration: the held keys, or friction against the motion. */
    method HorizontalForces(e: Entity)
      modifies e`ddx
      ensures e.ddx == HorizontalAccel(old(e.State()), e.Controls(), e.Tuning())
    {
      var wasleft := e.dx < 0.0;
      var wasright := e.dx > 0.0;
      var falling := e.falling;
      var friction := e.friction * AirFactor(falling);
      var accel := e.accel * AirFactor(falling);

      e.ddx := 0.0;
      if e.left {
        e.ddx := e.ddx - accel;
      } else if wasleft {
        e.ddx := e.ddx + friction;
      }

      if e.right {
        e.ddx := e.ddx + accel;
      } else if wasright {
        e.ddx := e.ddx - friction;
      }
    }

    /** Gravity, and the jump impulse when jump is held on the ground. */
    method VerticalForces(e: Entity)
      modifies e`ddy, e`jumping
      ensures e.ddy == (if JumpTriggered(old(e.State()), e.Controls()) then e.gravity - e.impulse else e.gravity)
      ensures e.jumping == (old(e.jumping) || JumpTriggered(old(e.State()), e.Controls()))
    {
      e.ddy := e.gravity;
      if e.jump && !e.jumping && !e.falling {
        e.ddy := e.ddy - e.impulse;
        e.jumping := true;
      }
    }

    /** Position from the old velocity, velocity from the acceleration, the clamps,
        and the zero clamp when friction would flip the direction. The literal
        1.0 / 60.0 is StepSize, written out so that the products stay linear. */
    method EulerStep(e: Entity)
      modifies e`x, e`y, e`dx, e`dy
      ensures e.State() == Euler(old(e.State()), e.Tuning())
    {
      var wasleft := e.dx < 0.0;
      var wasright := e.dx > 0.0;
      e.x := e.x + ((1.0 / 60.0) * e.dx);
      e.y := e.y + ((1.0 / 60.0) * e.dy);
      e.dx := Bound(e.dx + ((1.0 / 60.0) * e.ddx), -e.maxdx, e.maxdx);
      e.dy := Bound(e.dy + ((1.0 / 60.0) * e.ddy), -e.maxdy, e.maxdy);

      if (wasleft && e.dx > 0.0) || (wasright && e.dx < 0.0) {
        e.dx := 0.0;
      }
    }

    /** Samples the four tiles around the integrated position, snaps on each axis and
        recomputes falling. */
    method ResolveCollisions(e: Entity)
      modifies e`x, e`y, e`dx, e`dy, e`falling, e`jumping
      ensures e.State() == Resolve(old(e.State()), Sample(cells, old(e.x), old(e.y)))
    {
      var tx := e.x.Floor;
      var ty := e.y.Floor;
      var nx := JsRem1(e.x);
      JsRem1NonZero(e.x);
      var cell := TCell(cells, tx, ty);
      var cellright := TCell(cells, tx + 1, ty);
      var celldown := TCell(cells, tx, ty + 1);
      var celldiag := TCell(cells, tx + 1, ty + 1);

      ghost var n := Neighbourhood(cell != 0, cellright != 0, celldown != 0, celldiag != 0);
      assert n == Sample(cells, e.x, e.y);
      var ny;
      cell, cellright, ny := SnapVertical(e, cell, cellright, celldown, celldiag);
      SnapHorizontal(e, cell, cellright, celldown, celldiag, ny);
      e.falling := !(celldown != 0 || (nx != 0.0 && celldiag != 0));
    }

    /** The vertical half of collision resolution. Returns the row of tiles the
        horizontal half tests (the row below after a ceiling bump) and `y % 1`,
        zeroed when y was snapped. */
    method SnapVertical(e: Entity, cell: int, cellright: int, celldown: int, celldiag: int)
      returns (cell': int, cellright': int, ny: real)
      modifies e`y, e`dy, e`falling, e`jumping
      ensures var n := Neighbourhood(cell != 0, cellright != 0, celldown != 0, celldiag != 0);
              e.State() == SnapY(old(e.State()), n) &&
              (cell' != 0, cellright' != 0) == RowAfterVertical(old(e.State()), n) &&
              (ny != 0.0) == OffsetY(old(e.State()), n)
    {
      JsRem1NonZero(e.x);
      JsRem1NonZero(e.y);
      var ty := e.y.Floor;
      var nx := JsRem1(e.x);
      cell', cellright', ny := cell, cellright, JsRem1(e.y);
      if e.dy > 0.0 {
        if (celldown != 0 && cell == 0) || (celldiag != 0 && cellright == 0 && nx != 0.0) {
          e.y := ty as real;
          e.dy := 0.0;
          e.falling := false;
          e.jumping := false;
          ny := 0.0;
        }
      } else if e.dy < 0.0 {
        if (cell != 0 && celldown == 0) || (cellright != 0 && celldiag == 0 && nx != 0.0) {
          e.y := ty as real + 1.0;
          e.dy := 0.0;
          cell' := celldown;
          cellright' := celldiag;
          ny := 0.0;
        }
      }
    }

    /** The horizontal half of collision resolution, against the row (cell, cellright). */
    method SnapHorizontal(e: Entity, cell: int, cellright: int, celldown: int, celldiag: int, ny: real)
      modifies e`x, e`dx
      ensures e.State() == SnapX(old(e.State()), cell != 0, cellright != 0, celldown != 0, celldiag != 0, ny != 0.0)
    {
      var tx := e.x.Floor;
      if e.dx > 0.0 {
        if (cellright != 0 && cell == 0) || (celldiag != 0 && celldown == 0 && ny != 0.0) {
          e.x := tx as real;
          e.dx := 0.0;
        }
      } else if e.dx < 0.0 {
        if (cell != 0 && cellright == 0) || (celldown != 0 && celldiag == 0 && ny != 0.0) {
          e.x := tx as real + 1.0;
          e.dx := 0.0;
        }
      }
    }

    /** The players' motions, in list order. */
    ghost function Motions(): (r: seq<Motion>)
      reads this, players
      ensures |r| == |players| && forall k :: 0 <= k < |players| ==> r[k] == players[k].State()
    {
      seq(|players|, k requires 0 <= k < |players| reads this, players => players[k].State())
    }

    /** Every player has run n steps, with its current controls, from its motion in start. */
    ghost predicate Advanced(start: seq<Motion>, n: nat)
      reads this, players
    {
      |start| == |players| &&
      forall k :: 0 <= k < |players| ==>
        players[k].State() == Run(start[k], players[k].Controls(), players[k].Tuning(), cells, n)
    }

    /** One fixed step of the world: bump the tick counter, then step every player in
        list order. A player that had run n steps from its motion in `start` has then
        run n + 1. */
    method Update(ghost start: seq<Motion>, ghost n: nat)
      requires Valid() && |start| == |players|
      requires forall k :: 0 <= k < |players| ==>
                 players[k].State() == Run(start[k], players[k].Controls(), players[k].Tuning(), cells, n)
      modifies this`ticks, players`x, players`y, players`dx, players`dy
      modifies players`ddx, players`ddy, players`falling, players`jumping
      ensures ticks == old(ticks) + 1
      ensures forall k :: 0 <= k < |players| ==>
                players[k].State() == Run(start[k], players[k].Controls(), players[k].Tuning(), cells, n + 1)
    {
      ticks := ticks + 1;
      var i := 0;
      while i < |players|
        invariant 0 <= i <= |players| && ticks == old(ticks) + 1
        invariant forall k :: 0 <= k < i ==>
                    players[k].State() == Run(start[k], players[k].Controls(), players[k].Tuning(), cells, n + 1)
        invariant forall k :: i <= k < |players| ==>
                    players[k].State() == Run(start[k], players[k].Controls(), players[k].Tuning(), cells, n)
      {
        StepPlayer(start, n, i, players[i]);
        i := i + 1;
      }
    }

    /** One turn of the loop over the players: player i takes its step and the
        others keep their motions. */
    method StepPlayer(ghost start: seq<Motion>, ghost n: nat, i: nat, e: Entity)
      requires Valid() && i < |players| == |start| && e == players[i]
      requires forall k :: 0 <= k < i ==>
                 players[k].State() == Run(start[k], players[k].Controls(), players[k].Tuning(), cells, n + 1)
      requires forall k :: i <= k < |players| ==>
                 players[k].State() == Run(start[k], players[k].Controls(), players[k].Tuning(), cells, n)
      modifies e`x, e`y, e`dx, e`dy, e`ddx, e`ddy, e`falling, e`jumping
      ensures forall k :: 0 <= k <= i ==>
                players[k].State() == Run(start[k], players[k].Controls(), players[k].Tuning(), cells, n + 1)
      ensures forall k :: i < k < |players| ==>
                players[k].State() == Run(start[k], players[k].Controls(), players[k].Tuning(), cells, n)
    {
      UpdateEntity(e);
    }

    /** The render-frame callback's simulation part: add the capped wall time since the
        previous frame, run the banked whole steps and remember the frame time. */
    method OnRender(now: real) returns (ghost steps: nat, ghost before: seq<Motion>)
      requires Valid()
      modifies this`dt, this`ticks, this`last, players`x, players`y, players`dx, players`dy
      modifies players`ddx, players`ddy, players`falling, players`jumping
      ensures before == old(Motions()) && last == now
      ensures (steps, dt) == Drain(old(dt) + FrameTime(now, old(last))) && ticks == old(ticks) + steps
      ensures forall k :: 0 <= k < |players| ==>
                players[k].State() == Run(before[k], players[k].Controls(), players[k].Tuning(), cells, steps)
    {
      dt := dt + Min(1.0, (now - last) / 1000.0);
      steps, before := RunBankedSteps();
      last := now;
    }

    /** While more than one step is banked in dt, takes one step out of it and steps
        the world: the whole steps banked are run and the remainder is kept. */
    method RunBankedSteps() returns (ghost steps: nat, ghost before: seq<Motion>)
      requires Valid()
      modifies this`dt, this`ticks, players`x, players`y, players`dx, players`dy
      modifies players`ddx, players`ddy, players`falling, players`jumping
      ensures before == old(Motions())
      ensures (steps, dt) == Drain(old(dt)) && ticks == old(ticks) + steps
      ensures forall k :: 0 <= k < |players| ==>
                players[k].State() == Run(before[k], players[k].Controls(), players[k].Tuning(), cells, steps)
    {
      before := Motions();
      steps := 0;
      while dt > StepSize
        invariant old(dt) == dt + steps as real * StepSize && (steps > 0 ==> 0.0 < dt)
        invariant ticks == old(ticks) + steps
        invariant Advanced(before, steps)
        decreases StepsIn(dt)
      {
        StepsInDecreases(dt);
        Tick(before, steps);
        steps := steps + 1;
      }
      DrainExact(old(dt), steps, dt);
    }

    /** One turn of the accumulator loop: one step is taken out of dt and the world steps once. */
    method Tick(ghost start: seq<Motion>, ghost n: nat)
      requires Valid() && Advanced(start, n)
      modifies this`dt, this`ticks, players`x, players`y, players`dx, players`dy
      modifies players`ddx, players`ddy, players`falling, players`jumping
      ensures dt == old(dt) - StepSize && ticks == old(ticks) + 1
      ensures Advanced(start, n + 1)
    {
      dt := dt - StepSize;
      Update(start, n);
    }

    /** Puts every player back at its start position with zero velocity. */
    method KillPlayers()
      requires Valid()
      modifies players`x, players`y, players`dx, players`dy
      ensures forall k :: 0 <= k < |players| ==> players[k].AtStart()
    {
      var i := 0;
      while i < |players|
        invariant 0 <= i <= |players|
        invariant forall k :: 0 <= k < i ==> players[k].AtStart()
      {
        var p := players[i];
        p.x := p.startX;
        p.y := p.startY;
        p.dx := 0.0;
        p.dy := 0.0;
        i := i + 1;
      }
    }

    /** Resets the tick counter and every player; the time accumulator is left as it is. */
    method Clear()
      requires Valid()
      modifies this`ticks, players`x, players`y, players`dx, players`dy
      ensures ticks == 0
      ensures forall k :: 0 <= k < |players| ==> players[k].AtStart()
    {
      ticks := 0;
      KillPlayers();
    }
  }
}
