/**
 * The free-fly camera of main/camera.cpp.  The class keeps the source's
 * fields and updates them in place; `Snapshot()` reads them into a
 * `CameraState` value, and each method is specified by a pure transition on
 * that value.  The lemmas state what the transitions promise.
 */
module Cameras {
  import opened Matrices
  import opened Input

  /** Constants of main/camera.hpp (the float rounding of 0.01f and 0.2f is not modelled). */
  const MovementPerSecond: real := 1.0
  const MouseSensitivity: real := 0.01
  const SpeedFactor: real := 5.0
  const SlowFactor: real := 0.2

  /** The pitch clamp bounds, pi/2 - 0.1 and -pi/2 + 0.1. */
  const PitchMax: real := Pi / 2.0 - 0.1
  const PitchMin: real := -Pi / 2.0 + 0.1

  const TwoPi: real := 2.0 * Pi

  /** Field of view, near and far planes of getProjection. */
  const FieldOfView: real := Pi / 3.0
  const Near: real := 0.1
  const Far: real := 100.0

  /** The eight input flags aForward ... aSlowDown, held together as one record. */
  datatype Controls = Controls(
    forward: bool,
    backward: bool,
    left: bool,
    right: bool,
    up: bool,
    down: bool,
    speedUp: bool,
    slowDown: bool)

  /** No key held. */
  const Released: Controls := Controls(false, false, false, false, false, false, false, false)

  /** All fields of a camera. */
  datatype CameraState = CameraState(
    pos: Vec3,
    pitch: real,
    yaw: real,
    world2camera: Mat44,
    mouseActive: bool,
    controls: Controls,
    lastMouseX: real,
    lastMouseY: real)

  /** The eight flags by name, as a reference for the key table. */
  datatype Movement = Forward | Backward | Left | Right | Up | Down | SpeedUp | SlowDown

  /** The value of one flag. */
  function Flag(c: Controls, f: Movement): bool
  {
    match f
    case Forward => c.forward
    case Backward => c.backward
    case Left => c.left
    case Right => c.right
    case Up => c.up
    case Down => c.down
    case SpeedUp => c.speedUp
    case SlowDown => c.slowDown
  }

  datatype Option<T> = None | Some(value: T)

  /** The flag each key drives: Q lowers, E raises, Control slows, Shift speeds up. */
  function Binding(k: Key): Option<Movement>
  {
    match k
    case W => Some(Forward)
    case S => Some(Backward)
    case A => Some(Left)
    case D => Some(Right)
    case Q => Some(Down)
    case E => Some(Up)
    case LeftControl => Some(SlowDown)
    case RightControl => Some(SlowDown)
    case LeftShift => Some(SpeedUp)
    case RightShift => Some(SpeedUp)
    case _ => None
  }

  /** The camera is level enough not to flip over: pitch within the clamp bounds. */
  predicate PitchInRange(s: CameraState)
  {
    PitchMin <= s.pitch <= PitchMax
  }

  // ---------------------------------------------------------------------
  // Transitions

  /** The constructor: at p, level, facing down -z, no input held. */
  function InitialState(p: Vec3): CameraState
  {
    CameraState(p, 0.0, 0.0, Identity, false, Released, 0.0, 0.0)
  }

  /** One flag after a key event: set on press, cleared on release, kept otherwise. */
  function Held(was: bool, action: Action): bool
  {
    if action == Press then true else if action == Release then false else was
  }

  /** The switch of updateKeyActions. */
  function KeyControls(c: Controls, k: Key, action: Action): Controls
  {
    match k
    case W => c.(forward := Held(c.forward, action))
    case S => c.(backward := Held(c.backward, action))
    case A => c.(left := Held(c.left, action))
    case D => c.(right := Held(c.right, action))
    case Q => c.(down := Held(c.down, action))
    case E => c.(up := Held(c.up, action))
    case LeftControl => c.(slowDown := Held(c.slowDown, action))
    case RightControl => c.(slowDown := Held(c.slowDown, action))
    case LeftShift => c.(speedUp := Held(c.speedUp, action))
    case RightShift => c.(speedUp := Held(c.speedUp, action))
    case _ => c
  }

  /** updateKeyActions. */
  function ApplyKey(s: CameraState, k: Key, action: Action): CameraState
  {
    s.(controls := KeyControls(s.controls, k, action))
  }

  /** resetState (the cursor mode call is not modelled). */
  function ResetFlags(s: CameraState): CameraState
  {
    s.(mouseActive := false, controls := Released)
  }

  /** updateMouseClicked: a right-button press toggles mouse look. */
  function ApplyClick(s: CameraState, button: MouseButton, action: Action): CameraState
  {
    if button == RightButton && action == Press then s.(mouseActive := !s.mouseActive) else s
  }

  /** The yaw adjustment of moveAngle, as written: the second guard always holds. */
  function WrapYaw(yaw: real): real
  {
    if yaw >= TwoPi then yaw - TwoPi
    else if yaw <= TwoPi then yaw + TwoPi
    else yaw
  }

  /** moveAngle. */
  function ApplyAngle(s: CameraState, addPitch: real, addYaw: real): CameraState
  {
    s.(pitch := s.pitch + addPitch, yaw := WrapYaw(s.yaw + addYaw))
  }

  /** The pitch clamp of updateMouseMovement. */
  function ClampPitch(pitch: real): real
  {
    if pitch > PitchMax then PitchMax
    else if pitch < PitchMin then PitchMin
    else pitch
  }

  /** updateMouseMovement. */
  function ApplyMouseMove(s: CameraState, x: real, y: real): CameraState
  {
    var turned :=
      if s.mouseActive then
        var t := ApplyAngle(s, (y - s.lastMouseY) * MouseSensitivity, (x - s.lastMouseX) * MouseSensitivity);
        t.(pitch := ClampPitch(t.pitch))
      else s;
    turned.(lastMouseX := x, lastMouseY := y)
  }

  /** track: sit one unit behind the target along +z. */
  function TrackState(s: CameraState, target: Vec3): CameraState
  {
    s.(pos := target.Add(Vec3(0.0, 0.0, 1.0)))
  }

  /** The distance travelled in dt seconds under the speed flags. */
  function Distance(s: CameraState, dt: real): real
  {
    var base := MovementPerSecond * dt;
    var fast := if s.controls.speedUp then base * SpeedFactor else base;
    if s.controls.slowDown then fast * SlowFactor else fast
  }

  /**
   * The world-space offset of moveDirection, Rx(-pitch) Ry(-yaw) (dir, 1),
   * multiplied out; DisplacementByRotation proves the two agree.
   */
  function Displacement(m: Math, pitch: real, yaw: real, dir: Vec3): Vec3
  {
    var sa, ca, sb, cb := m.sin(-pitch), m.cos(-pitch), m.sin(-yaw), m.cos(-yaw);
    Vec3(cb * dir.x + sb * dir.z,
         sa * sb * dir.x + ca * dir.y - sa * cb * dir.z,
         -ca * sb * dir.x + sa * dir.y + ca * cb * dir.z)
  }

  /** moveDirection: step against the direction rotated into world space. */
  function ApplyMove(m: Math, s: CameraState, dir: Vec3): CameraState
  {
    s.(pos := s.pos.Sub(Displacement(m, s.pitch, s.yaw, dir)))
  }

  /** One conditional move of updateState. */
  function MoveWhen(m: Math, s: CameraState, held: bool, dir: Vec3): CameraState
  {
    if held then ApplyMove(m, s, dir) else s
  }

  /** updateState: one move per held direction flag, in the source's order. */
  function StepState(m: Math, s: CameraState, dt: real): CameraState
  {
    var d, c := Distance(s, dt), s.controls;
    var s1 := MoveWhen(m, s, c.forward, Vec3(0.0, 0.0, 1.0).Scale(d));
    var s2 := MoveWhen(m, s1, c.backward, Vec3(0.0, 0.0, -1.0).Scale(d));
    var s3 := MoveWhen(m, s2, c.left, Vec3(1.0, 0.0, 0.0).Scale(d));
    var s4 := MoveWhen(m, s3, c.right, Vec3(-1.0, 0.0, 0.0).Scale(d));
    var s5 := MoveWhen(m, s4, c.up, Vec3(0.0, -1.0, 0.0).Scale(d));
    MoveWhen(m, s5, c.down, Vec3(0.0, 1.0, 0.0).Scale(d))
  }

  /** The perspective part of getProjection. */
  function Lens(m: Math, aspect: real): Mat44
    requires m.tan(FieldOfView / 2.0) != 0.0 && aspect != 0.0
  {
    Perspective(m, FieldOfView, aspect, Near, Far)
  }

  /** getProjection: P Rx(pitch) Ry(yaw) T(-pos), multiplied left to right. */
  function Projection(m: Math, s: CameraState, aspect: real): Mat44
    requires m.tan(FieldOfView / 2.0) != 0.0 && aspect != 0.0
  {
    MatMul(MatMul(MatMul(Lens(m, aspect), RotationX(m, s.pitch)), RotationY(m, s.yaw)),
      Translation(s.pos.Neg()))
  }

  // ---------------------------------------------------------------------
  // The class

  class Camera {
    var pos: Vec3
    var pitch: real
    var yaw: real
    var world2camera: Mat44
    var mouseActive: bool
    var controls: Controls
    var lastMouseX: real
    var lastMouseY: real

    /** The current values of all fields. */
    function Snapshot(): CameraState
      reads this
    {
      CameraState(pos, pitch, yaw, world2camera, mouseActive, controls, lastMouseX, lastMouseY)
    }

    constructor (p: Vec3)
      ensures Snapshot() == InitialState(p)
      ensures PitchInRange(Snapshot())
    {
      pos, pitch, yaw := p, 0.0, 0.0;
      mouseActive := false;
      controls := Released;
      lastMouseX, lastMouseY := 0.0, 0.0;
      world2camera := Identity;
    }

    /** getCamWorldPosition. */
    method GetCamWorldPosition() returns (p: Vec3)
      ensures p == Snapshot().pos
    {
      p := pos;
    }

    method UpdateState(m: Math, dt: real)
      modifies this
      ensures Snapshot() == StepState(m, old(Snapshot()), dt)
    {
      ghost var s0 := Snapshot();
      var dist := MovementPerSecond * dt;
      if controls.speedUp {
        dist := dist * SpeedFactor;
      }
      if controls.slowDown {
        dist := dist * SlowFactor;
      }
      assert dist == Distance(s0, dt);
      MoveWhenHeld(m, controls.forward, Vec3(0.0, 0.0, 1.0).Scale(dist));
      MoveWhenHeld(m, controls.backward, Vec3(0.0, 0.0, -1.0).Scale(dist));
      MoveWhenHeld(m, controls.left, Vec3(1.0, 0.0, 0.0).Scale(dist));
      MoveWhenHeld(m, controls.right, Vec3(-1.0, 0.0, 0.0).Scale(dist));
      MoveWhenHeld(m, controls.up, Vec3(0.0, -1.0, 0.0).Scale(dist));
      MoveWhenHeld(m, controls.down, Vec3(0.0, 1.0, 0.0).Scale(dist));
    }

    /** One `if (flag) moveDirection(...)` statement of updateState. */
    method MoveWhenHeld(m: Math, held: bool, dir: Vec3)
      modifies this
      ensures Snapshot() == MoveWhen(m, old(Snapshot()), held, dir)
      ensures controls == old(controls) && pitch == old(pitch) && yaw == old(yaw)
    {
      if held {
        MoveDirection(m, dir);
      }
    }

    method Track(target: Vec3)
      modifies this
      ensures Snapshot() == TrackState(old(Snapshot()), target)
    {
      var offset := Vec3(0.0, 0.0, 1.0);
      pos := target.Add(offset);
    }

    method ResetState()
      modifies this
      ensures Snapshot() == ResetFlags(old(Snapshot()))
    {
      mouseActive := false;
      controls := controls.(forward := false);
      controls := controls.(backward := false);
      controls := controls.(left := false);
      controls := controls.(right := false);
      controls := controls.(up := false);
      controls := controls.(down := false);
      controls := controls.(speedUp := false);
      controls := controls.(slowDown := false);
    }

    method GetProjection(m: Math, aspect: real) returns (r: Mat44)
      requires m.tan(FieldOfView / 2.0) != 0.0 && aspect != 0.0
      ensures r == Projection(m, Snapshot(), aspect)
    {
      var lens := Perspective(m, FieldOfView, aspect, Near, Far);
      var a := Mul(lens, RotationX(m, pitch));
      var b := Mul(a, RotationY(m, yaw));
      r := Mul(b, Translation(pos.Neg()));
    }

    method UpdateKeyActions(k: Key, action: Action)
      modifies this
      ensures controls == KeyControls(old(controls), k, action)
      ensures Snapshot() == old(Snapshot()).(controls := controls)
    {
      var c := controls;
      match k {
        case W =>
          if action == Press {
            c := c.(forward := true);
          } else if action == Release {
            c := c.(forward := false);
          }
        case S =>
          if action == Press {
            c := c.(backward := true);
          } else if action == Release {
            c := c.(backward := false);
          }
        case A =>
          if action == Press {
            c := c.(left := true);
          } else if action == Release {
            c := c.(left := false);
          }
        case D =>
          if action == Press {
            c := c.(right := true);
          } else if action == Release {
            c := c.(right := false);
          }
        case Q =>
          if action == Press {
            c := c.(down := true);
          } else if action == Release {
            c := c.(down := false);
          }
        case E =>
          if action == Press {
            c := c.(up := true);
          } else if action == Release {
            c := c.(up := false);
          }
        case LeftControl =>
          if action == Press {
            c := c.(slowDown := true);
          } else if action == Release {
            c := c.(slowDown := false);
          }
        case RightControl =>
          if action == Press {
            c := c.(slowDown := true);
          } else if action == Release {
            c := c.(slowDown := false);
          }
        case LeftShift =>
          if action == Press {
            c := c.(speedUp := true);
          } else if action == Release {
            c := c.(speedUp := false);
          }
        case RightShift =>
          if action == Press {
            c := c.(speedUp := true);
          } else if action == Release {
            c := c.(speedUp := false);
          }
        case _ =>
      }
      controls := c;
    }

    method UpdateMouseMovement(x: real, y: real)
      modifies this
      ensures Snapshot() == ApplyMouseMove(old(Snapshot()), x, y)
    {
      if mouseActive {
        var dx := x - lastMouseX;
        var dy := y - lastMouseY;
        var addPitch := dy * MouseSensitivity;
        var addYaw := dx * MouseSensitivity;
        MoveAngle(addPitch, addYaw);
        if pitch > PitchMax {
          pitch := PitchMax;
        } else if pitch < PitchMin {
          pitch := PitchMin;
        }
      }
      lastMouseX := x;
      lastMouseY := y;
    }

    method UpdateMouseClicked(button: MouseButton, action: Action)
      modifies this
      ensures Snapshot() == ApplyClick(old(Snapshot()), button, action)
    {
      if button == RightButton && action == Press {
        mouseActive := !mouseActive;
      }
    }

    method MoveDirection(m: Math, dir: Vec3)
      modifies this
      ensures Snapshot() == ApplyMove(m, old(Snapshot()), dir)
    {
      var rotation := Mul(RotationX(m, -pitch), RotationY(m, -yaw));
      var addDirection := MulVec(rotation, Point(dir));
      DisplacementByRotation(m, pitch, yaw, dir);
      pos := pos.Sub(Vec3(addDirection[0], addDirection[1], addDirection[2]));
    }

    method MoveAngle(addPitch: real, addYaw: real)
      modifies this
      ensures Snapshot() == ApplyAngle(old(Snapshot()), addPitch, addYaw)
    {
      pitch := pitch + addPitch;
      yaw := yaw + addYaw;
      if yaw >= TwoPi {
        yaw := yaw - TwoPi;
      } else if yaw <= TwoPi {
        yaw := yaw + TwoPi;
      }
    }
  }

  // ---------------------------------------------------------------------
  // Properties

  /**
   * A key event sets the bound flag on press and clears it on release;
   * every other flag, and everything that is not a flag, is unchanged.
   */
  lemma KeyActionsByBinding(s: CameraState, k: Key, action: Action, f: Movement)
    ensures Flag(ApplyKey(s, k, action).controls, f) ==
      if Binding(k) == Some(f) && action == Press then true
      else if Binding(k) == Some(f) && action == Release then false
      else Flag(s.controls, f)
    ensures ApplyKey(s, k, action).(controls := s.controls) == s
  {
  }

  /** Repeat events and keys without a binding leave the camera as it was. */
  lemma KeyActionsIgnored(s: CameraState, k: Key, action: Action)
    requires action == Repeat || Binding(k) == None
    ensures ApplyKey(s, k, action) == s
  {
  }

  /** resetState clears mouse look and every flag and keeps the pose and cursor. */
  lemma ResetClearsInput(s: CameraState, f: Movement)
    ensures !Flag(ResetFlags(s).controls, f) && !ResetFlags(s).mouseActive
    ensures ResetFlags(s).pos == s.pos && ResetFlags(s).pitch == s.pitch && ResetFlags(s).yaw == s.yaw
    ensures ResetFlags(s).lastMouseX == s.lastMouseX && ResetFlags(s).lastMouseY == s.lastMouseY
    ensures ResetFlags(s).world2camera == s.world2camera
  {
  }

  /** After a reset the camera stays put however much time passes. */
  lemma ResetStopsMotion(m: Math, s: CameraState, dt: real)
    ensures StepState(m, ResetFlags(s), dt) == ResetFlags(s)
  {
  }

  /** Only a right-button press toggles mouse look; nothing else changes. */
  lemma ClickToggles(s: CameraState, button: MouseButton, action: Action)
    ensures ApplyClick(s, button, action).mouseActive ==
      (s.mouseActive != (button == RightButton && action == Press))
    ensures ApplyClick(s, button, action).(mouseActive := s.mouseActive) == s
    ensures ApplyClick(ApplyClick(s, button, action), button, action) == s
  {
  }

  /** The yaw moves by exactly one full turn, down from 2 pi and up below it. */
  lemma YawWrapAsWritten(yaw: real)
    ensures yaw >= TwoPi ==> WrapYaw(yaw) == yaw - TwoPi
    ensures yaw < TwoPi ==> WrapYaw(yaw) == yaw + TwoPi
    ensures WrapYaw(yaw) != yaw
  {
  }

  /**
   * The wrap never settles: a yaw already in [0, 2 pi) is pushed to
   * [2 pi, 4 pi), and a second zero-yaw move brings it back.
   */
  lemma YawWrapOscillates(yaw: real)
    requires 0.0 <= yaw < TwoPi
    ensures TwoPi <= WrapYaw(yaw) < 2.0 * TwoPi
    ensures WrapYaw(WrapYaw(yaw)) == yaw
  {
  }

  /**
   * Mouse movement always records the cursor.  Without mouse look the angles
   * stay; with it the pitch follows the vertical motion, clamped to the safe
   * range, and the yaw follows the horizontal motion through the wrap.
   */
  lemma MouseMoveUpdatesLook(s: CameraState, x: real, y: real)
    ensures ApplyMouseMove(s, x, y).lastMouseX == x && ApplyMouseMove(s, x, y).lastMouseY == y
    ensures !s.mouseActive ==>
      ApplyMouseMove(s, x, y).pitch == s.pitch && ApplyMouseMove(s, x, y).yaw == s.yaw
    ensures s.mouseActive ==> PitchInRange(ApplyMouseMove(s, x, y))
    ensures s.mouseActive ==>
      ApplyMouseMove(s, x, y).pitch == ClampPitch(s.pitch + (y - s.lastMouseY) * MouseSensitivity) &&
      ApplyMouseMove(s, x, y).yaw == WrapYaw(s.yaw + (x - s.lastMouseX) * MouseSensitivity)
    ensures ApplyMouseMove(s, x, y).(pitch := s.pitch, yaw := s.yaw,
      lastMouseX := s.lastMouseX, lastMouseY := s.lastMouseY) == s
  {
  }

  /** The clamp keeps values in range unchanged and maps the rest to the nearest bound. */
  lemma ClampPitchBounds(pitch: real)
    ensures PitchMin <= ClampPitch(pitch) <= PitchMax
    ensures PitchMin <= pitch <= PitchMax ==> ClampPitch(pitch) == pitch
    ensures pitch > PitchMax ==> ClampPitch(pitch) == PitchMax
    ensures pitch < PitchMin ==> ClampPitch(pitch) == PitchMin
  {
  }

  /** track puts the camera one unit along +z from the target and touches nothing else. */
  lemma TrackFollowsTarget(s: CameraState, target: Vec3)
    ensures TrackState(s, target).pos.Sub(target) == Vec3(0.0, 0.0, 1.0)
    ensures TrackState(s, target).(pos := s.pos) == s
    ensures TrackState(TrackState(s, target), target) == TrackState(s, target)
  {
  }

  /** The speed factors: 5 with Shift, 1/5 with Control, and they cancel when both are held. */
  lemma DistanceFactors(s: CameraState, dt: real)
    ensures !s.controls.speedUp && !s.controls.slowDown ==> Distance(s, dt) == dt
    ensures s.controls.speedUp && !s.controls.slowDown ==> Distance(s, dt) == 5.0 * dt
    ensures !s.controls.speedUp && s.controls.slowDown ==> Distance(s, dt) == dt / 5.0
    ensures s.controls.speedUp && s.controls.slowDown ==> Distance(s, dt) == dt
    ensures dt >= 0.0 ==> Distance(s, dt) >= 0.0
  {
  }

  /** updateState moves the camera and changes nothing else. */
  lemma StepOnlyMoves(m: Math, s: CameraState, dt: real)
    ensures StepState(m, s, dt).(pos := s.pos) == s
  {
    var d, c := Distance(s, dt), s.controls;
    var s1 := MoveWhen(m, s, c.forward, Vec3(0.0, 0.0, 1.0).Scale(d));
    var s2 := MoveWhen(m, s1, c.backward, Vec3(0.0, 0.0, -1.0).Scale(d));
    var s3 := MoveWhen(m, s2, c.left, Vec3(1.0, 0.0, 0.0).Scale(d));
    var s4 := MoveWhen(m, s3, c.right, Vec3(-1.0, 0.0, 0.0).Scale(d));
    var s5 := MoveWhen(m, s4, c.up, Vec3(0.0, -1.0, 0.0).Scale(d));
    MoveWhenOnlyMoves(m, s, c.forward, Vec3(0.0, 0.0, 1.0).Scale(d));
    MoveWhenOnlyMoves(m, s1, c.backward, Vec3(0.0, 0.0, -1.0).Scale(d));
    MoveWhenOnlyMoves(m, s2, c.left, Vec3(1.0, 0.0, 0.0).Scale(d));
    MoveWhenOnlyMoves(m, s3, c.right, Vec3(-1.0, 0.0, 0.0).Scale(d));
    MoveWhenOnlyMoves(m, s4, c.up, Vec3(0.0, -1.0, 0.0).Scale(d));
    MoveWhenOnlyMoves(m, s5, c.down, Vec3(0.0, 1.0, 0.0).Scale(d));
  }

  /** A single conditional move changes the position and nothing else. */
  lemma MoveWhenOnlyMoves(m: Math, s: CameraState, held: bool, dir: Vec3)
    ensures MoveWhen(m, s, held, dir).(pos := s.pos) == s
  {
  }

  /** With no direction flag held the camera does not move. */
  lemma StillWithoutDirection(m: Math, s: CameraState, dt: real)
    requires !s.controls.forward && !s.controls.backward && !s.controls.left
    requires !s.controls.right && !s.controls.up && !s.controls.down
    ensures StepState(m, s, dt) == s
  {
  }

  /** The multiplied-out displacement is the matrix product moveDirection computes. */
  lemma DisplacementByRotation(m: Math, pitch: real, yaw: real, dir: Vec3)
    ensures Xyz(MatVec(MatMul(RotationX(m, -pitch), RotationY(m, -yaw)), Point(dir))) ==
      Displacement(m, pitch, yaw, dir)
  {
    var sa, ca, sb, cb := m.sin(-pitch), m.cos(-pitch), m.sin(-yaw), m.cos(-yaw);
    MatVecOfProduct(RotationX(m, -pitch), RotationY(m, -yaw), Point(dir));
    YawedPoint(m, yaw, dir);
    var v := MatVec(RotationY(m, -yaw), Point(dir));
    PitchedVector(m, pitch, v);
    assert ca * v[1] - sa * v[2] == sa * sb * dir.x + ca * dir.y - sa * cb * dir.z;
    assert sa * v[1] + ca * v[2] == -ca * sb * dir.x + sa * dir.y + ca * cb * dir.z;
  }

  /** The yaw step of the displacement: a point turned about y. */
  lemma YawedPoint(m: Math, yaw: real, dir: Vec3)
    ensures var r := MatVec(RotationY(m, -yaw), Point(dir));
      r[0] == m.cos(-yaw) * dir.x + m.sin(-yaw) * dir.z && r[1] == dir.y
      && r[2] == -m.sin(-yaw) * dir.x + m.cos(-yaw) * dir.z
  {
    MatVecComponents(RotationY(m, -yaw), Point(dir));
  }

  /** The pitch step of the displacement: a vector turned about x. */
  lemma PitchedVector(m: Math, pitch: real, v: Vec4)
    ensures var sa, ca := m.sin(-pitch), m.cos(-pitch);
      Xyz(MatVec(RotationX(m, -pitch), v)) == Vec3(v[0], ca * v[1] - sa * v[2], sa * v[1] + ca * v[2])
  {
    MatVecComponents(RotationX(m, -pitch), v);
  }

  /** With zero pitch and yaw the displacement is the direction itself. */
  lemma DisplacementAtRest(m: Math, dir: Vec3)
    requires m.AtZero()
    ensures Displacement(m, 0.0, 0.0, dir) == dir
  {
    assert -0.0 == 0.0;
  }

  /** Level and facing down -z, moveDirection steps straight back along dir. */
  lemma MoveAtRest(m: Math, s: CameraState, dir: Vec3)
    requires m.AtZero() && s.pitch == 0.0 && s.yaw == 0.0
    ensures ApplyMove(m, s, dir) == s.(pos := s.pos.Sub(dir))
  {
    DisplacementAtRest(m, dir);
  }

  /** Every transition keeps the pitch inside the clamp range once it is there. */
  lemma PitchStaysInRange(m: Math, s: CameraState, k: Key, action: Action, button: MouseButton,
                          x: real, y: real, dt: real, target: Vec3)
    requires PitchInRange(s)
    ensures PitchInRange(ApplyKey(s, k, action))
    ensures PitchInRange(ResetFlags(s))
    ensures PitchInRange(ApplyClick(s, button, action))
    ensures PitchInRange(ApplyMouseMove(s, x, y))
    ensures PitchInRange(TrackState(s, target))
    ensures PitchInRange(StepState(m, s, dt))
  {
    StepOnlyMoves(m, s, dt);
    assert StepState(m, s, dt).pitch == s.pitch;
  }

  /** A rotation about x or y leaves the origin where it is. */
  lemma RotationsFixOrigin(m: Math, angle: real)
    ensures MatVec(RotationX(m, angle), [0.0, 0.0, 0.0, 1.0]) == [0.0, 0.0, 0.0, 1.0]
    ensures MatVec(RotationY(m, angle), [0.0, 0.0, 0.0, 1.0]) == [0.0, 0.0, 0.0, 1.0]
  {
    MatVecComponents(RotationX(m, angle), [0.0, 0.0, 0.0, 1.0]);
    Components(MatVec(RotationX(m, angle), [0.0, 0.0, 0.0, 1.0]));
    MatVecComponents(RotationY(m, angle), [0.0, 0.0, 0.0, 1.0]);
    Components(MatVec(RotationY(m, angle), [0.0, 0.0, 0.0, 1.0]));
  }

  /**
   * The camera's own position projects onto the view axis: x = y = w = 0,
   * with depth the perspective matrix's translation term 2 f n / (n - f).
   */
  lemma EyeProjectsOntoAxis(m: Math, s: CameraState, aspect: real)
    requires m.tan(FieldOfView / 2.0) != 0.0 && aspect != 0.0
    ensures MatVec(Projection(m, s, aspect), Point(s.pos)) ==
      [0.0, 0.0, 2.0 * Far * Near / (Near - Far), 0.0]
  {
    var lens, rx, ry, t := Lens(m, aspect), RotationX(m, s.pitch), RotationY(m, s.yaw), Translation(s.pos.Neg());
    var origin: Vec4 := [0.0, 0.0, 0.0, 1.0];
    assert MatVec(t, Point(s.pos)) == origin by {
      TranslationMovesPoint(s.pos.Neg(), s.pos);
      assert Point(s.pos.Add(s.pos.Neg())) == origin;
    }
    RotationsFixOrigin(m, s.yaw);
    RotationsFixOrigin(m, s.pitch);
    LensOfOrigin(m, aspect);
    MatVecOfProduct(MatMul(MatMul(lens, rx), ry), t, Point(s.pos));
    MatVecOfProduct(MatMul(lens, rx), ry, origin);
    MatVecOfProduct(lens, rx, origin);
  }

  /** The lens sends the origin onto the axis, at the depth of the near/far terms. */
  lemma LensOfOrigin(m: Math, aspect: real)
    requires m.tan(FieldOfView / 2.0) != 0.0 && aspect != 0.0
    ensures MatVec(Lens(m, aspect), [0.0, 0.0, 0.0, 1.0]) == [0.0, 0.0, 2.0 * Far * Near / (Near - Far), 0.0]
  {
    MatVecComponents(Lens(m, aspect), [0.0, 0.0, 0.0, 1.0]);
    Components(MatVec(Lens(m, aspect), [0.0, 0.0, 0.0, 1.0]));
  }
}
