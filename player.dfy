/** The player controller: the held-key record, the morph trigger on the rising
    edge of the morph key, and the man-form forces and velocity limit and the
    missile-form steering torque it hands to the physics entity. */
module Player {

  import Kinematics

  const Pi: real := 3.141592653589793
  /** Five degrees, in radians: a thirty-sixth of Pi. */
  const MissileTorque: real := 5.0 * (Pi / 180.0)
  /** Declared by the controller, but its limit uses ManMaxYSpeed on both axes. */
  const ManMaxXSpeed: real := 10.0
  const ManMaxYSpeed: real := 10.0
  const RunForce: real := 50.0
  const JumpForce: real := 1500.0
  const Gravity: real := 100.0

  // ---------------------------------------------------------------- forces and torque

  /** Change of force.x in man form: toward the held key, left winning when both are
      held, of size RunForce, and none when no direction key is held. */
  function RunForceX(left: bool, right: bool): (r: real)
    ensures r < 0.0 <==> left
    ensures r > 0.0 <==> !left && right
    ensures r == 0.0 <==> !left && !right
    ensures r != 0.0 ==> Kinematics.Abs(r) == RunForce
  {
    if left then -RunForce else if right then RunForce else 0.0
  }

  /** Change of force.y in man form: the jump force pushes upward while jump is held,
      gravity pulls otherwise, so y grows upward in this part of the game. */
  function JumpForceY(jump: bool): (r: real)
    ensures r > 0.0 <==> jump
    ensures r < 0.0 <==> !jump
  {
    if jump then JumpForce else -Gravity
  }

  /** Change of rotation.z in missile form: left turns one way, right the other, by
      five degrees, left winning when both are held. */
  function TorqueZ(left: bool, right: bool): (r: real)
    ensures r > 0.0 <==> left
    ensures r < 0.0 <==> !left && right
    ensures r in {0.0, MissileTorque, -MissileTorque}
  {
    if left then MissileTorque else if right then -MissileTorque else 0.0
  }

  /** The total change of rotation.z in missile form over a run of ticks, each given by
      its held (left, right) keys. */
  function Steering(ticks: seq<(bool, bool)>): real
  {
    if ticks == [] then 0.0
    else Steering(ticks[..|ticks| - 1]) + TorqueZ(ticks[|ticks| - 1].0, ticks[|ticks| - 1].1)
  }

  /** The number of ticks with the left key held. */
  function LeftTicks(ticks: seq<(bool, bool)>): nat
  {
    if ticks == [] then 0
    else LeftTicks(ticks[..|ticks| - 1]) + (if ticks[|ticks| - 1].0 then 1 else 0)
  }

  /** The number of ticks with the right key held and the left one released. */
  function RightOnlyTicks(ticks: seq<(bool, bool)>): nat
  {
    if ticks == [] then 0
    else RightOnlyTicks(ticks[..|ticks| - 1]) + (if !ticks[|ticks| - 1].0 && ticks[|ticks| - 1].1 then 1 else 0)
  }

  /** Over any run of ticks the missile turns by five degrees for each tick with left
      held, less five degrees for each tick with only right held: as many of one as of
      the other give back the starting rotation, whatever their order. */
  lemma {:induction false} SteeringCounts(ticks: seq<(bool, bool)>)
    ensures Steering(ticks) == MissileTorque * (LeftTicks(ticks) as real - RightOnlyTicks(ticks) as real)
    decreases |ticks|
  {
    if ticks != [] {
      var p := ticks[..|ticks| - 1];
      SteeringCounts(p);
      var l, r := LeftTicks(p) as real, RightOnlyTicks(p) as real;
      assert MissileTorque * (l + 1.0 - r) == MissileTorque * (l - r) + MissileTorque;
      assert MissileTorque * (l - (r + 1.0)) == MissileTorque * (l - r) - MissileTorque;
    }
  }

  // ---------------------------------------------------------------- velocity limit

  /** Clamps a negative speed from below at -max and any other speed from above at max. */
  function ClampSpeed(v: real, max: real): (r: real)
    requires 0.0 <= max
    ensures -max <= r <= max
    ensures -max <= v <= max ==> r == v
    ensures (v < 0.0 ==> r <= 0.0) && (v >= 0.0 ==> r >= 0.0)
    ensures Kinematics.Abs(r) <= Kinematics.Abs(v)
  {
    if v < 0.0 then (if v >= -max then v else -max) else (if v <= max then v else max)
  }

  /** Horizontal damping after the clamp: a released stick brakes by a fifth, a key
      held against the motion by a quarter, and a key held along it leaves it alone. */
  function Damp(vx: real, left: bool, right: bool): (r: real)
    ensures Kinematics.Abs(r) <= Kinematics.Abs(vx)
    ensures (vx > 0.0 ==> r > 0.0) && (vx < 0.0 ==> r < 0.0) && (vx == 0.0 ==> r == 0.0)
    ensures vx != 0.0 && ((!left && !right) || (left && vx > 0.0) || (right && vx < 0.0)) ==>
              Kinematics.Abs(r) < Kinematics.Abs(vx)
    ensures (left || right) && !(left && vx > 0.0) && !(right && vx < 0.0) ==> r == vx
  {
    if !left && !right then vx * 0.8
    else if (left && vx > 0.0) || (right && vx < 0.0) then vx * 0.75
    else vx
  }

  /** The man-form horizontal speed limit, which uses the vertical limit constant: the
      result is within bounds, keeps its direction and never grows; it shrinks strictly
      when no key is held or the held key opposes it, and is unchanged otherwise when
      within the limit. */
  function LimitX(vx: real, left: bool, right: bool): (r: real)
    ensures -ManMaxYSpeed <= r <= ManMaxYSpeed
    ensures Kinematics.Abs(r) <= Kinematics.Abs(vx)
    ensures (vx > 0.0 ==> r >= 0.0) && (vx < 0.0 ==> r <= 0.0)
    ensures vx != 0.0 && ((!left && !right) || (left && vx > 0.0) || (right && vx < 0.0)) ==>
              Kinematics.Abs(r) < Kinematics.Abs(vx)
    ensures (-ManMaxYSpeed <= vx <= ManMaxYSpeed && (left || right) &&
             !(left && vx > 0.0) && !(right && vx < 0.0)) ==> r == vx
  {
    Damp(ClampSpeed(vx, ManMaxYSpeed), left, right)
  }

  // ---------------------------------------------------------------- morph trigger

  /** The morph transition fires when the key goes from released to pressed. */
  predicate RisingEdge(held: bool, m: bool)
  {
    !held && m
  }

  /** The number of transitions fired by a run of morph-key values, starting from
      the stored value held. */
  function Presses(held: bool, ms: seq<bool>): (r: nat)
    ensures r <= |ms|
    decreases |ms|
  {
    if ms == [] then 0
    else (if RisingEdge(held, ms[0]) then 1 else 0) + Presses(ms[0], ms[1..])
  }

  /** The stored morph key after a run of values. */
  function LastHeld(held: bool, ms: seq<bool>): bool
  {
    if ms == [] then held else ms[|ms| - 1]
  }

  /** One more value adds one transition exactly on a rising edge. */
  lemma {:induction false} PressesAppend(held: bool, ms: seq<bool>, m: bool)
    ensures Presses(held, ms + [m]) ==
              Presses(held, ms) + (if RisingEdge(LastHeld(held, ms), m) then 1 else 0)
    decreases |ms|
  {
    if ms != [] {
      assert (ms + [m])[1..] == ms[1..] + [m];
      PressesAppend(ms[0], ms[1..], m);
    }
  }

  /** Holding the morph key over any number of ticks after a release fires once. */
  lemma {:induction false} HoldingFiresOnce(n: nat)
    requires n >= 1
    ensures Presses(false, seq(n, _ => true)) == 1
  {
    var ms := seq(n, _ => true);
    assert ms[1..] == seq(n - 1, _ => true);
    HeldStaysQuiet(n - 1);
  }

  /** With the key already held, holding it longer fires nothing. */
  lemma {:induction false} HeldStaysQuiet(n: nat)
    ensures Presses(true, seq(n, _ => true)) == 0
  {
    if n > 0 {
      assert seq(n, _ => true)[1..] == seq(n - 1, _ => true);
      HeldStaysQuiet(n - 1);
    }
  }

  /** Two runs of values: the second starts from the key the first one left stored. */
  lemma {:induction false} PressesConcat(held: bool, a: seq<bool>, b: seq<bool>)
    ensures Presses(held, a + b) == Presses(held, a) + Presses(LastHeld(held, a), b)
    decreases |a|
  {
    if a == [] {
      assert a + b == b;
    } else {
      assert (a + b)[0] == a[0] && (a + b)[1..] == a[1..] + b;
      PressesConcat(a[0], a[1..], b);
      assert LastHeld(a[0], a[1..]) == LastHeld(held, a);
    }
  }

  /** The player's reset releases the stored morph key, so a key still held across it
      fires one transition more than the same values would fire without the reset. */
  lemma ResetRearmsMorph(before: seq<bool>, n: nat)
    requires n >= 1 && LastHeld(false, before)
    ensures Presses(false, before) + Presses(false, seq(n, _ => true)) ==
            Presses(false, before + seq(n, _ => true)) + 1
  {
    HoldingFiresOnce(n);
    HeldStaysQuiet(n);
    PressesConcat(false, before, seq(n, _ => true));
  }

  /** Every transition needs a release before it: a run of k values fires at most
      (k + 1) / 2 transitions, and at most k / 2 when the key starts held. */
  lemma {:induction false} PressesNeedReleases(held: bool, ms: seq<bool>)
    ensures 2 * Presses(held, ms) <= |ms| + (if held then 0 else 1)
    decreases |ms|
  {
    if ms != [] {
      PressesNeedReleases(ms[0], ms[1..]);
    }
  }

  // ---------------------------------------------------------------- objects

  /** The held-key record. */
  class Keys {
    var left: bool
    var right: bool
    var jump: bool
    var morph: bool

    constructor ()
      ensures !left && !right && !jump && !morph
    {
      left, right, jump, morph := false, false, false, false;
    }

    /** Releases every key. */
    method Reset()
      modifies this
      ensures !left && !right && !jump && !morph
    {
      left, right, jump, morph := false, false, false, false;
    }
  }

  /** The man/missile form switch. Only whether the current form is the man and the
      number of transitions requested are modelled. */
  class Morph {
    var isMan: bool
    ghost var goCalls: nat

    constructor (man: bool)
      ensures isMan == man && goCalls == 0
    {
      isMan := man;
      goCalls := 0;
    }

    /** Requests a transition to the other form. */
    method Go()
      modifies this`goCalls
      ensures goCalls == old(goCalls) + 1
    {
      goCalls := goCalls + 1;
    }
  }

  /** A three-component vector the physics entity passes in to be updated in place. */
  class Vector3 {
    var x: real
    var y: real
    var z: real

    constructor (x0: real, y0: real, z0: real)
      ensures x == x0 && y == y0 && z == z0
    {
      x, y, z := x0, y0, z0;
    }
  }

  /** An input message: the four key states. */
  datatype InputMessage = InputMessage(left: bool, right: bool, jump: bool, morph: bool)

  /** The controller wiring input to the physics entity. `morphInputs` records the
      morph-key values handed to it since the keys were last reset, and
      `earlierGoCalls` the transitions requested before that reset. */
  class Controller {
    const keys: Keys
    const morph: Morph
    ghost var morphInputs: seq<bool>
    ghost var earlierGoCalls: nat

    /** Every transition requested since the last reset was a rising edge of the morph
        key, and the stored morph key is the last value seen since then. */
    ghost predicate Valid()
      reads this, keys, morph
    {
      morph.goCalls == earlierGoCalls + Presses(false, morphInputs) &&
      keys.morph == LastHeld(false, morphInputs)
    }

    constructor (man: bool)
      ensures Valid() && fresh(keys) && fresh(morph)
      ensures morphInputs == [] && earlierGoCalls == 0 && morph.isMan == man
      ensures !keys.left && !keys.right && !keys.jump && !keys.morph
    {
      keys := new Keys();
      morph := new Morph(man);
      morphInputs := [];
      earlierGoCalls := 0;
    }

    /** The key part of the player's reset: every key is released, no transition is
        requested, and the morph key starts a fresh run of values. */
    method ResetKeys()
      requires Valid()
      modifies keys, this`morphInputs, this`earlierGoCalls
      ensures Valid() && morphInputs == [] && earlierGoCalls == morph.goCalls
      ensures morph.goCalls == old(morph.goCalls)
      ensures !keys.left && !keys.right && !keys.jump && !keys.morph
    {
      keys.Reset();
      earlierGoCalls := morph.goCalls;
      morphInputs := [];
    }

    /** Fires a transition only on the rising edge of the morph key, then stores it. */
    method HandleMorph(m: bool)
      requires Valid()
      modifies keys`morph, morph`goCalls, this`morphInputs
      ensures Valid() && morphInputs == old(morphInputs) + [m]
      ensures keys.morph == m
      ensures morph.goCalls == old(morph.goCalls) + (if RisingEdge(old(keys.morph), m) then 1 else 0)
    {
      PressesAppend(false, morphInputs, m);
      if !keys.morph && m {
        morph.Go();
      }
      keys.morph := m;
      morphInputs := morphInputs + [m];
    }

    /** Copies the direction and jump keys from the message, then handles the morph key. */
    method HandleInput(msg: InputMessage)
      requires Valid()
      modifies keys`left, keys`right, keys`jump, keys`morph, morph`goCalls, this`morphInputs
      ensures Valid() && morphInputs == old(morphInputs) + [msg.morph]
      ensures keys.left == msg.left && keys.right == msg.right && keys.jump == msg.jump
      ensures keys.morph == msg.morph
      ensures morph.goCalls == old(morph.goCalls) + (if RisingEdge(old(keys.morph), msg.morph) then 1 else 0)
    {
      keys.left := msg.left;
      keys.right := msg.right;
      keys.jump := msg.jump;
      HandleMorph(msg.morph);
    }

    /** The entity's force hook: in man form the run and jump/gravity forces are added
      into force; in missile form the rotation turns by the steering torque. */
    method Forces(rotation: Vector3, force: Vector3)
      modifies rotation`z, force`x, force`y
      ensures morph.isMan ==>
                force.x == old(force.x) + RunForceX(keys.left, keys.right) &&
                force.y == old(force.y) + JumpForceY(keys.jump) &&
                rotation.z == old(rotation.z)
      ensures !morph.isMan ==>
                rotation.z == old(rotation.z) + TorqueZ(keys.left, keys.right)
    {
      if morph.isMan {
        if keys.left {
          force.x := force.x - RunForce;
        } else if keys.right {
          force.x := force.x + RunForce;
        }
        if keys.jump {
          force.y := force.y + JumpForce;
        } else {
          force.y := force.y - Gravity;
        }
      } else {
        if keys.left {
          rotation.z := rotation.z + MissileTorque;
        } else if keys.right {
          rotation.z := rotation.z - MissileTorque;
        }
      }
    }

    /** The entity's velocity hook in man form: both axes clamped to the speed limit,
        then the horizontal speed damped. */
    method LimitVelocity(v: Vector3)
      modifies v`x, v`y
      ensures morph.isMan ==>
                v.x == LimitX(old(v.x), keys.left, keys.right) &&
                v.y == ClampSpeed(old(v.y), ManMaxYSpeed)
    {
      if morph.isMan {
        v.x := if v.x < 0.0 then Kinematics.Max(v.x, -ManMaxYSpeed) else Kinematics.Min(v.x, ManMaxYSpeed);
        v.y := if v.y < 0.0 then Kinematics.Max(v.y, -ManMaxYSpeed) else Kinematics.Min(v.y, ManMaxYSpeed);

        if !keys.left && !keys.right {
          v.x := v.x * 0.8;
        } else if (keys.left && v.x > 0.0) || (keys.right && v.x < 0.0) {
          v.x := v.x * 0.75;
        }
      }
    }
  }
}
