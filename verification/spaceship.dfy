/**
 * The spaceship's animation driver (main/spaceship.cpp, main/spaceship.hpp):
 * the launch/reset state machine, the flight path that places the ship as a
 * function of elapsed time, the model matrices and the three lights that
 * ride along with it.  Building and drawing the mesh are not modelled.
 */
module Spaceships {
  import opened Matrices
  import opened Input

  // ---------------------------------------------------------------------
  // Constants of the constructor and of animate

  const Red: Vec3 := Vec3(1.0, 0.0, 0.0)
  const Green: Vec3 := Vec3(0.0, 1.0, 0.0)
  const Blue: Vec3 := Vec3(0.0, 0.0, 1.0)

  /** Where the three lights sit in the ship's own frame. */
  const LightOffsets: seq<Vec3> := [Vec3(0.21, -0.02, 0.0), Vec3(-0.21, -0.02, 0.0), Vec3(0.0, 0.45, 0.0)]
  /** red / 1000, green / 1000, blue / 1000. */
  const LightAmbient: seq<Vec3> := [Red.Scale(1.0 / 1000.0), Green.Scale(1.0 / 1000.0), Blue.Scale(1.0 / 1000.0)]
  const LightDiffuse: seq<Vec3> := [Vec3(1.0, 0.2, 0.2), Vec3(0.2, 1.0, 0.2), Vec3(0.2, 0.2, 1.0)]

  /** The launch pad. */
  const LaunchPosition: Vec3 := Vec3(-5.0, 0.1, 3.5)

  /** The coefficients of the flight path x = kX t^3, y = kY t^2. */
  const KX: real := 0.005
  const KY: real := 0.08

  // ---------------------------------------------------------------------
  // State and transitions

  /** The fields animate, resetState and updateKeyActions read and write. */
  datatype ShipState = ShipState(
    time: real,
    initialPosition: Vec3,
    position: Vec3,
    rotationZ: real,
    model2world: Mat44,
    normalMatrix: Mat33,
    running: bool)

  /** The offset from the launch pad after t seconds of flight. */
  function Flight(t: real): Vec3
  {
    Vec3(KX * t * t * t, KY * t * t, 0.0)
  }

  /** The path's tangent (dx, dy) after t seconds: the derivative of Flight. */
  function Velocity(t: real): Vec2
  {
    Vec2(3.0 * KX * t * t, 2.0 * KY * t)
  }

  /** The heading after t seconds: the direction of the tangent, less a quarter turn. */
  function Heading(m: Math, t: real): real
  {
    var v := Velocity(t);
    m.atan2(v.y, v.x) - 0.5 * Pi
  }

  /**
   * model2world, translation(position) * rotationZ(angle), multiplied out;
   * PlacementIsProduct proves the two agree.
   */
  function Placement(m: Math, position: Vec3, rotationZ: real): Mat44
  {
    var s, c := m.sin(rotationZ), m.cos(rotationZ);
    [c, -s, 0.0, position.x,
     s, c, 0.0, position.y,
     0.0, 0.0, 1.0, position.z,
     0.0, 0.0, 0.0, 1.0]
  }

  /** The matrices agree with the position and rotation. */
  predicate Consistent(m: Math, s: ShipState)
  {
    s.model2world == Placement(m, s.position, s.rotationZ) &&
    s.normalMatrix == NormalMatrix(m, s.model2world)
  }

  /** The ship flies in the plane z = initialPosition.z. */
  predicate OnFlightPlane(s: ShipState)
  {
    s.position.z == s.initialPosition.z
  }

  /** updateMatrices. */
  function WithMatrices(m: Math, s: ShipState): ShipState
  {
    var model2world := Placement(m, s.position, s.rotationZ);
    s.(model2world := model2world, normalMatrix := NormalMatrix(m, model2world))
  }

  /** resetState. */
  function Reset(m: Math, s: ShipState): ShipState
  {
    WithMatrices(m, s.(time := 0.0, position := s.initialPosition, rotationZ := 0.0, running := false))
  }

  /** The state the constructor leaves. */
  function InitialState(m: Math): ShipState
  {
    Reset(m, ShipState(0.0, LaunchPosition, Vec3(0.0, 0.0, 0.0), 0.0, Identity,
      [0.0, 0.0, 0.0, 0.0, 0.0, 0.0, 0.0, 0.0, 0.0], false))
  }

  /** animate(dt). */
  function Animated(m: Math, s: ShipState, dt: real): ShipState
  {
    if !s.running then s
    else
      var t := s.time + dt;
      WithMatrices(m, s.(time := t, position := s.initialPosition.Add(Flight(t)), rotationZ := Heading(m, t)))
  }

  /** launch. */
  function Launched(s: ShipState): ShipState
  {
    s.(running := !s.running)
  }

  /** updateKeyActions: F press toggles the animation, then R press resets. */
  function ApplyKey(m: Math, s: ShipState, k: Key, action: Action): ShipState
  {
    var toggled := if k == F && action == Press then Launched(s) else s;
    if k == R && action == Press then Reset(m, toggled) else toggled
  }

  /** The ship's frame moves an offset by the z rotation, then by the position. */
  function Carried(m: Math, position: Vec3, rotationZ: real, offset: Vec3): Vec3
  {
    var s, c := m.sin(rotationZ), m.cos(rotationZ);
    Vec3(c * offset.x - s * offset.y + position.x,
         s * offset.x + c * offset.y + position.y,
         offset.z + position.z)
  }

  /** getLightPos, as a value: each offset taken through model2world. */
  function LightPositions(model2world: Mat44, offsets: seq<Vec3>): seq<Vec3>
  {
    seq(|offsets|, i requires 0 <= i < |offsets| => Xyz(MatVec(model2world, Point(offsets[i]))))
  }

  // ---------------------------------------------------------------------
  // The class

  class Spaceship {
    var time: real
    const initialPosition: Vec3
    var position: Vec3
    var rotationZ: real
    var model2world: Mat44
    var normalMatrix: Mat33
    var animationRunning: bool
    const lightOffsets: seq<Vec3>
    const lightAmbient: seq<Vec3>
    const lightDiffuse: seq<Vec3>

    /** The current values of the animated fields. */
    function Snapshot(): ShipState
      reads this
    {
      ShipState(time, initialPosition, position, rotationZ, model2world, normalMatrix, animationRunning)
    }

    /** The light and launch constants, then resetState. */
    constructor (m: Math)
      ensures Snapshot() == InitialState(m)
      ensures lightOffsets == LightOffsets && lightAmbient == LightAmbient && lightDiffuse == LightDiffuse
    {
      lightOffsets := LightOffsets;
      lightAmbient := [Red.Scale(1.0 / 1000.0), Green.Scale(1.0 / 1000.0), Blue.Scale(1.0 / 1000.0)];
      lightDiffuse := LightDiffuse;
      initialPosition := LaunchPosition;
      new;
      ResetState(m);
    }

    method ResetState(m: Math)
      modifies this
      ensures Snapshot() == Reset(m, old(Snapshot()))
    {
      time := 0.0;
      position := initialPosition;
      rotationZ := 0.0;
      animationRunning := false;
      UpdateMatrices(m);
    }

    method UpdateMatrices(m: Math)
      modifies this
      ensures Snapshot() == WithMatrices(m, old(Snapshot()))
    {
      model2world := Mul(Translation(position), RotationZ(m, rotationZ));
      PlacementIsProduct(m, position, rotationZ);
      var transposed := Transpose(m.invert(model2world));
      normalMatrix := m.toMat33(transposed);
    }

    method Animate(m: Math, dt: real)
      modifies this
      ensures Snapshot() == Animated(m, old(Snapshot()), dt)
    {
      if animationRunning {
        ghost var s0 := Snapshot();
        time := time + dt;
        var kX := 0.005;
        var kY := 0.08;
        var x := kX * time * time * time;
        var y := kY * time * time;
        position := initialPosition.Add(Vec3(x, y, 0.0));

        var dx := 3.0 * kX * time * time;
        var dy := 2.0 * kY * time;
        rotationZ := m.atan2(dy, dx) - 0.5 * Pi;
        assert Vec2(dx, dy) == Velocity(time);
        assert Snapshot() == s0.(time := time, position := s0.initialPosition.Add(Flight(time)), rotationZ := Heading(m, time));

        UpdateMatrices(m);
      }
    }

    method Launch()
      modifies this
      ensures Snapshot() == Launched(old(Snapshot()))
    {
      animationRunning := !animationRunning;
    }

    method UpdateKeyActions(m: Math, k: Key, action: Action)
      modifies this
      ensures Snapshot() == ApplyKey(m, old(Snapshot()), k, action)
    {
      if k == F && action == Press {
        animationRunning := !animationRunning;
      }
      if k == R && action == Press {
        ResetState(m);
      }
    }

    method GetPosition() returns (p: Vec3)
      ensures p == Snapshot().position
    {
      p := position;
    }

    /** The light positions in world space, one matrix-vector product per light. */
    method GetLightPos() returns (r: seq<Vec3>)
      requires |lightOffsets| == 3
      ensures r == LightPositions(model2world, lightOffsets)
    {
      var lights := new Vec3[3](_ => Vec3(0.0, 0.0, 0.0));
      for i := 0 to 3
        invariant forall j :: 0 <= j < i ==> lights[j] == Xyz(MatVec(model2world, Point(lightOffsets[j])))
      {
        var o := lightOffsets[i];
        var pos := MulVec(model2world, [o.x, o.y, o.z, 1.0]);
        lights[i] := Vec3(pos[0], pos[1], pos[2]);
      }
      r := lights[..];
    }

    method GetLightAmbient() returns (r: seq<Vec3>)
      ensures r == lightAmbient
    {
      r := lightAmbient;
    }

    method GetLightDiffuse() returns (r: seq<Vec3>)
      ensures r == lightDiffuse
    {
      r := lightDiffuse;
    }
  }

  // ---------------------------------------------------------------------
  // Properties

  /** resetState puts the ship back on the pad, at time zero, unrotated and paused. */
  lemma ResetValues(m: Math, s: ShipState)
    ensures Reset(m, s).time == 0.0 && Reset(m, s).rotationZ == 0.0 && !Reset(m, s).running
    ensures Reset(m, s).position == s.initialPosition
    ensures Reset(m, s).initialPosition == s.initialPosition
    ensures Consistent(m, Reset(m, s)) && OnFlightPlane(Reset(m, s))
    ensures Reset(m, Reset(m, s)) == Reset(m, s)
  {
  }

  /** The constructor leaves the ship paused on the launch pad. */
  lemma InitialOnPad(m: Math)
    ensures InitialState(m).position == LaunchPosition == Vec3(-5.0, 0.1, 3.5)
    ensures !InitialState(m).running && InitialState(m).time == 0.0
    ensures Consistent(m, InitialState(m)) && OnFlightPlane(InitialState(m))
  {
  }

  /** While paused, animate changes nothing. */
  lemma PausedAnimateIsStill(m: Math, s: ShipState, dt: real)
    requires !s.running
    ensures Animated(m, s, dt) == s
  {
  }

  /** While running, animate advances time and places the ship on the path. */
  lemma RunningAnimateFollowsPath(m: Math, s: ShipState, dt: real)
    requires s.running
    ensures Animated(m, s, dt).time == s.time + dt
    ensures var t := s.time + dt;
      Animated(m, s, dt).position ==
        Vec3(s.initialPosition.x + 0.005 * t * t * t, s.initialPosition.y + 0.08 * t * t, s.initialPosition.z)
    ensures Animated(m, s, dt).running && Animated(m, s, dt).initialPosition == s.initialPosition
    ensures Consistent(m, Animated(m, s, dt))
  {
    var t := s.time + dt;
    assert Flight(t) == Vec3(0.005 * t * t * t, 0.08 * t * t, 0.0);
    assert Animated(m, s, dt).position == s.initialPosition.Add(Flight(t));
  }

  /** The position depends only on accumulated time: two steps equal one step of the sum. */
  lemma AnimateAdditive(m: Math, s: ShipState, a: real, b: real)
    requires s.running
    ensures Animated(m, Animated(m, s, a), b) == Animated(m, s, a + b)
  {
    var t, u := (s.time + a) + b, s.time + (a + b);
    assert t == u;
    assert Flight(t) == Flight(u);
    assert Heading(m, t) == Heading(m, u);
  }

  /** Every operation keeps the ship in the plane z = initialPosition.z. */
  lemma FlightPlaneKept(m: Math, s: ShipState, dt: real, k: Key, action: Action)
    requires OnFlightPlane(s)
    ensures OnFlightPlane(Animated(m, s, dt))
    ensures OnFlightPlane(Reset(m, s))
    ensures OnFlightPlane(Launched(s))
    ensures OnFlightPlane(ApplyKey(m, s, k, action))
  {
  }

  /** Every operation leaves the matrices consistent with the position and rotation. */
  lemma ConsistencyKept(m: Math, s: ShipState, dt: real, k: Key, action: Action)
    requires Consistent(m, s)
    ensures Consistent(m, Animated(m, s, dt))
    ensures Consistent(m, Reset(m, s))
    ensures Consistent(m, Launched(s))
    ensures Consistent(m, ApplyKey(m, s, k, action))
  {
  }

  /** launch flips the running flag only, and twice restores it. */
  lemma LaunchToggles(s: ShipState)
    ensures Launched(s).running == !s.running
    ensures Launched(s).(running := s.running) == s
    ensures Launched(Launched(s)) == s
  {
  }

  /** F toggles the animation, R resets, and every other key or action changes nothing. */
  lemma KeyActions(m: Math, s: ShipState, k: Key, action: Action)
    ensures k == F && action == Press ==> ApplyKey(m, s, k, action) == Launched(s)
    ensures k == R && action == Press ==> ApplyKey(m, s, k, action) == Reset(m, s)
    ensures (k != F && k != R) || action != Press ==> ApplyKey(m, s, k, action) == s
    ensures ApplyKey(m, ApplyKey(m, s, F, Press), F, Press) == s
  {
  }

  /** The multiplied-out model matrix is the product updateMatrices computes. */
  lemma PlacementIsProduct(m: Math, position: Vec3, rotationZ: real)
    ensures MatMul(Translation(position), RotationZ(m, rotationZ)) == Placement(m, position, rotationZ)
  {
    var t, rz := Translation(position), RotationZ(m, rotationZ);
    PlacementTop(m, position, rotationZ);
    PlacementBottom(m, position, rotationZ);
    EqualByCells(MatMul(t, rz), Placement(m, position, rotationZ));
  }

  /** Rows 0 and 1 of the product agree with the multiplied-out matrix. */
  lemma PlacementTop(m: Math, position: Vec3, rotationZ: real)
    ensures MatMul(Translation(position), RotationZ(m, rotationZ))[0] == Placement(m, position, rotationZ)[0]
    ensures MatMul(Translation(position), RotationZ(m, rotationZ))[1] == Placement(m, position, rotationZ)[1]
    ensures MatMul(Translation(position), RotationZ(m, rotationZ))[2] == Placement(m, position, rotationZ)[2]
    ensures MatMul(Translation(position), RotationZ(m, rotationZ))[3] == Placement(m, position, rotationZ)[3]
    ensures MatMul(Translation(position), RotationZ(m, rotationZ))[4] == Placement(m, position, rotationZ)[4]
    ensures MatMul(Translation(position), RotationZ(m, rotationZ))[5] == Placement(m, position, rotationZ)[5]
    ensures MatMul(Translation(position), RotationZ(m, rotationZ))[6] == Placement(m, position, rotationZ)[6]
    ensures MatMul(Translation(position), RotationZ(m, rotationZ))[7] == Placement(m, position, rotationZ)[7]
  {
    var t, rz := Translation(position), RotationZ(m, rotationZ);
    ProductRow(t, rz, 0);
    ProductRow(t, rz, 1);
  }

  /** Rows 2 and 3 of the product agree with the multiplied-out matrix. */
  lemma PlacementBottom(m: Math, position: Vec3, rotationZ: real)
    ensures MatMul(Translation(position), RotationZ(m, rotationZ))[8] == Placement(m, position, rotationZ)[8]
    ensures MatMul(Translation(position), RotationZ(m, rotationZ))[9] == Placement(m, position, rotationZ)[9]
    ensures MatMul(Translation(position), RotationZ(m, rotationZ))[10] == Placement(m, position, rotationZ)[10]
    ensures MatMul(Translation(position), RotationZ(m, rotationZ))[11] == Placement(m, position, rotationZ)[11]
    ensures MatMul(Translation(position), RotationZ(m, rotationZ))[12] == Placement(m, position, rotationZ)[12]
    ensures MatMul(Translation(position), RotationZ(m, rotationZ))[13] == Placement(m, position, rotationZ)[13]
    ensures MatMul(Translation(position), RotationZ(m, rotationZ))[14] == Placement(m, position, rotationZ)[14]
    ensures MatMul(Translation(position), RotationZ(m, rotationZ))[15] == Placement(m, position, rotationZ)[15]
  {
    var t, rz := Translation(position), RotationZ(m, rotationZ);
    ProductRow(t, rz, 2);
    ProductRow(t, rz, 3);
  }

  /** Column 3 of model2world is (position, 1). */
  lemma PlacementColumn(m: Math, position: Vec3, rotationZ: real)
    ensures At(MatMul(Translation(position), RotationZ(m, rotationZ)), 0, 3) == position.x
    ensures At(MatMul(Translation(position), RotationZ(m, rotationZ)), 1, 3) == position.y
    ensures At(MatMul(Translation(position), RotationZ(m, rotationZ)), 2, 3) == position.z
    ensures At(MatMul(Translation(position), RotationZ(m, rotationZ)), 3, 3) == 1.0
  {
    var t, rz := Translation(position), RotationZ(m, rotationZ);
    MatMulAt(t, rz, 0, 3); DotExpanded(t, rz, 0, 3);
    MatMulAt(t, rz, 1, 3); DotExpanded(t, rz, 1, 3);
    MatMulAt(t, rz, 2, 3); DotExpanded(t, rz, 2, 3);
    MatMulAt(t, rz, 3, 3); DotExpanded(t, rz, 3, 3);
  }

  /** A point of the ship's frame lands at the position plus the rotated offset. */
  lemma PlacementCarries(m: Math, position: Vec3, rotationZ: real, offset: Vec3)
    ensures Xyz(MatVec(MatMul(Translation(position), RotationZ(m, rotationZ)), Point(offset))) ==
      Carried(m, position, rotationZ, offset)
  {
    var t, rz := Translation(position), RotationZ(m, rotationZ);
    var s, c := m.sin(rotationZ), m.cos(rotationZ);
    MatVecOfProduct(t, rz, Point(offset));
    var v := MatVec(rz, Point(offset));
    MatVecComponents(rz, Point(offset));
    assert v[0] == c * offset.x - s * offset.y;
    assert v[1] == s * offset.x + c * offset.y;
    assert v[2] == offset.z;
    assert v[3] == 1.0;
    assert v == Point(Vec3(v[0], v[1], v[2]));
    TranslationMovesPoint(position, Vec3(v[0], v[1], v[2]));
  }

  /** The lights ride with the ship: each is its offset rotated and then moved to the position. */
  lemma LightsFollowShip(m: Math, s: ShipState, i: nat)
    requires Consistent(m, s) && i < |LightOffsets|
    ensures |LightPositions(s.model2world, LightOffsets)| == 3
    ensures LightPositions(s.model2world, LightOffsets)[i] ==
      Carried(m, s.position, s.rotationZ, LightOffsets[i])
  {
    PlacementIsProduct(m, s.position, s.rotationZ);
    PlacementCarries(m, s.position, s.rotationZ, LightOffsets[i]);
  }

  /** On the pad the lights sit at the launch position plus their offsets. */
  lemma LightsOnPad(m: Math, i: nat)
    requires m.AtZero() && i < |LightOffsets|
    ensures LightPositions(InitialState(m).model2world, LightOffsets)[i] ==
      LightOffsets[i].Add(LaunchPosition)
  {
    LightsFollowShip(m, InitialState(m), i);
  }
}
