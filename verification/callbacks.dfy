/**
 * The program's shared `State` and the three GLFW callbacks of main/main.cpp
 * that act on it: keys (window close, split screen, camera cycling, the
 * first-person reset rule and the routing of keys to the first-person
 * camera and the spaceship), mouse motion and mouse buttons; and the
 * framebuffer size the main loop reads, and waits on, at the start of a frame.
 *
 * The source's camera pointers are compared only against the three
 * cameras, so the left and right screen cameras are modelled by which of
 * the three they point at.
 */
module Callbacks {
  import opened Matrices
  import opened Input
  import Cameras
  import Spaceships
  import Buttons

  /** Which of the three cameras a screen half shows. */
  datatype CameraId = FirstPerson | Tracking | Grounded

  /** The C-key cycle: first person, tracking, grounded, and back. */
  function NextCamera(c: CameraId): CameraId
  {
    match c
    case FirstPerson => Tracking
    case Tracking => Grounded
    case Grounded => FirstPerson
  }

  /** The screen layout: what each half shows and whether the screen is split. */
  datatype View = View(left: CameraId, right: CameraId, splitScreen: bool)

  /** The wiring of main: both halves on the first-person camera, not split. */
  const InitialView: View := View(FirstPerson, FirstPerson, false)

  /** The first-person camera is on screen: on the left, or on the right of a split screen. */
  predicate FirstPersonVisible(v: View)
  {
    v.left == FirstPerson || (v.right == FirstPerson && v.splitScreen)
  }

  /** The condition under which a C press resets the first-person camera. */
  predicate ResetRule(v: View)
  {
    v.left != FirstPerson && (v.right != FirstPerson || !v.splitScreen)
  }

  /** V toggles the split, then C (with shift: the right half) moves on to the next camera. */
  function ViewAfterKey(v: View, k: Key, action: Action, shift: bool): View
  {
    var v1 := if k == V && action == Press then v.(splitScreen := !v.splitScreen) else v;
    if k == C && action == Press then
      if shift then v1.(right := NextCamera(v1.right)) else v1.(left := NextCamera(v1.left))
    else v1
  }

  /** What a key event does to the first-person camera, given the view it produced. */
  function FirstPersonAfterKey(v: View, s: Cameras.CameraState, k: Key, action: Action): Cameras.CameraState
  {
    var reset := if k == C && action == Press && ResetRule(v) then Cameras.ResetFlags(s) else s;
    if FirstPersonVisible(v) then Cameras.ApplyKey(reset, k, action) else reset
  }

  /** The spaceship after each of the first `n` buttons, in order, has seen a mouse-button event. */
  function ShipAfterPresses(m: Math, pointers: seq<Buttons.Pointer>, callbacks: seq<Buttons.Callback>, n: nat,
                            button: MouseButton, action: Action, s: Spaceships.ShipState): Spaceships.ShipState
    requires n <= |pointers| == |callbacks|
  {
    if n == 0 then s
    else
      var before := ShipAfterPresses(m, pointers, callbacks, n - 1, button, action, s);
      if Buttons.MousePress(pointers[n - 1], button, action).fired then Buttons.Effect(callbacks[n - 1], m, before)
      else before
  }

  class State {
    const firstPersonCamera: Cameras.Camera
    const trackingCamera: Cameras.Camera
    const groundedCamera: Cameras.Camera
    var leftScreenCamera: CameraId
    var rightScreenCamera: CameraId
    var splitScreen: bool
    const spaceship: Spaceships.Spaceship
    const buttons: seq<Buttons.Button>
    /** glfwSetWindowShouldClose. */
    var closeRequested: bool

    /** The buttons are distinct objects. */
    predicate Valid()
      reads this
    {
      forall i, j :: 0 <= i < j < |buttons| ==> buttons[i] != buttons[j]
    }

    function CurrentView(): View
      reads this
    {
      View(leftScreenCamera, rightScreenCamera, splitScreen)
    }

    /** The buttons' pointer states, in order. */
    function Pointers(): seq<Buttons.Pointer>
      reads this, set b | b in buttons
    {
      seq(|buttons|, i requires 0 <= i < |buttons| reads buttons => buttons[i].PointerState())
    }

    /** The buttons' sizes and vertex data, in order. */
    function Geometries(): seq<Buttons.Sizing>
      reads this, set b | b in buttons
    {
      seq(|buttons|, i requires 0 <= i < |buttons| reads buttons => buttons[i].Geometry())
    }

    /** The buttons' callbacks, in order. */
    function ButtonCallbacks(): seq<Buttons.Callback>
      reads this
    {
      seq(|buttons|, i requires 0 <= i < |buttons| => buttons[i].callback)
    }

    /** The State wiring of main. */
    constructor (firstPerson: Cameras.Camera, tracking: Cameras.Camera, grounded: Cameras.Camera,
                 ship: Spaceships.Spaceship, buttons: seq<Buttons.Button>)
      requires forall i, j :: 0 <= i < j < |buttons| ==> buttons[i] != buttons[j]
      ensures Valid() && CurrentView() == InitialView && !closeRequested
      ensures firstPersonCamera == firstPerson && trackingCamera == tracking && groundedCamera == grounded
      ensures spaceship == ship && this.buttons == buttons
    {
      firstPersonCamera, trackingCamera, groundedCamera := firstPerson, tracking, grounded;
      leftScreenCamera := FirstPerson;
      rightScreenCamera := FirstPerson;
      splitScreen := false;
      spaceship := ship;
      this.buttons := buttons;
      closeRequested := false;
    }

    /** glfw_callback_key_. */
    method OnKey(m: Math, k: Key, action: Action, shift: bool)
      modifies this, firstPersonCamera, spaceship
      ensures k == Escape && action == Press ==>
        closeRequested && CurrentView() == old(CurrentView()) &&
        firstPersonCamera.Snapshot() == old(firstPersonCamera.Snapshot()) &&
        spaceship.Snapshot() == old(spaceship.Snapshot())
      ensures !(k == Escape && action == Press) ==>
        closeRequested == old(closeRequested) &&
        CurrentView() == ViewAfterKey(old(CurrentView()), k, action, shift) &&
        firstPersonCamera.Snapshot() == FirstPersonAfterKey(CurrentView(), old(firstPersonCamera.Snapshot()), k, action) &&
        spaceship.Snapshot() == Spaceships.ApplyKey(m, old(spaceship.Snapshot()), k, action)
    {
      if k == Escape && action == Press {
        closeRequested := true;
        return;
      }

      SwitchView(k, action, shift);
      UpdateFirstPerson(k, action);
      spaceship.UpdateKeyActions(m, k, action);
    }

    /** The split-screen toggle and the camera cycling of glfw_callback_key_. */
    method SwitchView(k: Key, action: Action, shift: bool)
      modifies this
      ensures CurrentView() == ViewAfterKey(old(CurrentView()), k, action, shift)
      ensures closeRequested == old(closeRequested)
    {
      if k == V && action == Press {
        splitScreen := !splitScreen;
      }

      if k == C && action == Press {
        if shift {
          if rightScreenCamera == FirstPerson {
            rightScreenCamera := Tracking;
          } else if rightScreenCamera == Tracking {
            rightScreenCamera := Grounded;
          } else {
            rightScreenCamera := FirstPerson;
          }
        } else {
          if leftScreenCamera == FirstPerson {
            leftScreenCamera := Tracking;
          } else if leftScreenCamera == Tracking {
            leftScreenCamera := Grounded;
          } else {
            leftScreenCamera := FirstPerson;
          }
        }
      }
    }

    /** The first-person camera's part of glfw_callback_key_, once the view is updated. */
    method UpdateFirstPerson(k: Key, action: Action)
      modifies firstPersonCamera
      ensures firstPersonCamera.Snapshot() == FirstPersonAfterKey(CurrentView(), old(firstPersonCamera.Snapshot()), k, action)
    {
      ghost var c0 := firstPersonCamera.Snapshot();
      if k == C && action == Press {
        if leftScreenCamera != FirstPerson && (rightScreenCamera != FirstPerson || !splitScreen) {
          firstPersonCamera.ResetState();
        }
      }
      ghost var c1 := firstPersonCamera.Snapshot();
      assert c1 == if k == C && action == Press && ResetRule(CurrentView()) then Cameras.ResetFlags(c0) else c0;
      if leftScreenCamera == FirstPerson || (rightScreenCamera == FirstPerson && splitScreen) {
        firstPersonCamera.UpdateKeyActions(k, action);
        assert firstPersonCamera.Snapshot() == Cameras.ApplyKey(c1, k, action);
      }
    }

    /** glfw_callback_motion_. */
    method OnMotion(x: real, y: real)
      requires Valid()
      modifies firstPersonCamera, set b | b in buttons
      ensures firstPersonCamera.Snapshot() == Cameras.ApplyMouseMove(old(firstPersonCamera.Snapshot()), x, y)
      ensures forall b :: b in buttons ==>
        b.PointerState() == Buttons.MouseMove(old(b.PointerState()), old(b.screenRect), old(b.prevFbheight), x, y) &&
        b.Geometry() == old(b.Geometry())
    {
      firstPersonCamera.UpdateMouseMovement(x, y);
      for i := 0 to |buttons|
        invariant firstPersonCamera.Snapshot() == Cameras.ApplyMouseMove(old(firstPersonCamera.Snapshot()), x, y)
        invariant forall j :: 0 <= j < i ==>
          buttons[j].PointerState() ==
            Buttons.MouseMove(old(buttons[j].PointerState()), old(buttons[j].screenRect), old(buttons[j].prevFbheight), x, y) &&
          buttons[j].Geometry() == old(buttons[j].Geometry())
        invariant forall j :: i <= j < |buttons| ==>
          buttons[j].PointerState() == old(buttons[j].PointerState()) && buttons[j].Geometry() == old(buttons[j].Geometry())
      {
        buttons[i].UpdateMouseMove(x, y);
      }
    }

    /** glfw_callback_button_. */
    method OnButton(m: Math, button: MouseButton, action: Action)
      requires Valid()
      modifies firstPersonCamera, spaceship, set b | b in buttons
      ensures firstPersonCamera.Snapshot() ==
        if FirstPersonVisible(CurrentView()) then Cameras.ApplyClick(old(firstPersonCamera.Snapshot()), button, action)
        else old(firstPersonCamera.Snapshot())
      ensures forall b :: b in buttons ==>
        b.PointerState() == Buttons.MousePress(old(b.PointerState()), button, action).pointer &&
        b.Geometry() == old(b.Geometry())
      ensures spaceship.Snapshot() ==
        ShipAfterPresses(m, old(Pointers()), ButtonCallbacks(), |buttons|, button, action, old(spaceship.Snapshot()))
    {
      if leftScreenCamera == FirstPerson || (rightScreenCamera == FirstPerson && splitScreen) {
        firstPersonCamera.UpdateMouseClicked(button, action);
      }
      PressButtons(m, button, action);
    }

    /** The loop over the buttons in glfw_callback_button_. */
    method PressButtons(m: Math, button: MouseButton, action: Action)
      requires Valid()
      modifies spaceship, set b | b in buttons
      ensures forall b :: b in buttons ==>
        b.PointerState() == Buttons.MousePress(old(b.PointerState()), button, action).pointer &&
        b.Geometry() == old(b.Geometry())
      ensures spaceship.Snapshot() ==
        ShipAfterPresses(m, old(Pointers()), ButtonCallbacks(), |buttons|, button, action, old(spaceship.Snapshot()))
    {
      ghost var pointers := Pointers();
      ghost var geometries := Geometries();
      ghost var ship := spaceship.Snapshot();
      for i := 0 to |buttons|
        invariant PressedUpTo(m, button, action, i, pointers, geometries, ship)
      {
        PressButton(m, button, action, i, pointers, geometries, ship);
      }
    }

    /** After the first `i` buttons of the loop: those have seen the event, the rest are untouched. */
    ghost predicate PressedUpTo(m: Math, button: MouseButton, action: Action, i: nat,
                                pointers: seq<Buttons.Pointer>, geometries: seq<Buttons.Sizing>, ship: Spaceships.ShipState)
      reads this, spaceship, set b | b in buttons
    {
      && i <= |buttons| == |pointers| == |geometries|
      && (forall j :: 0 <= j < |buttons| ==>
            buttons[j].Geometry() == geometries[j] &&
            buttons[j].PointerState() == if j < i then Buttons.MousePress(pointers[j], button, action).pointer else pointers[j])
      && spaceship.Snapshot() == ShipAfterPresses(m, pointers, ButtonCallbacks(), i, button, action, ship)
    }

    /** One iteration of the loop over the buttons. */
    method PressButton(m: Math, button: MouseButton, action: Action, i: nat,
                       ghost pointers: seq<Buttons.Pointer>, ghost geometries: seq<Buttons.Sizing>, ghost ship: Spaceships.ShipState)
      requires Valid() && i < |buttons| && PressedUpTo(m, button, action, i, pointers, geometries, ship)
      modifies spaceship, buttons[i]
      ensures PressedUpTo(m, button, action, i + 1, pointers, geometries, ship)
    {
      buttons[i].UpdateMousePress(m, button, action, spaceship);
    }
  }

  // ---------------------------------------------------------------------
  // Properties

  /** Three C presses on the same half bring back its camera; one always changes it. */
  lemma CameraCycle(c: CameraId)
    ensures NextCamera(c) != c
    ensures NextCamera(NextCamera(NextCamera(c))) == c
  {
  }

  /** At start the first-person camera is on screen and receives the keys. */
  lemma InitiallyFirstPerson()
    ensures FirstPersonVisible(InitialView) && !ResetRule(InitialView)
  {
  }

  /** The reset rule is exactly "the first-person camera is no longer on screen". */
  lemma ResetWhenHidden(v: View)
    ensures ResetRule(v) <==> !FirstPersonVisible(v)
  {
  }

  /** V flips the split and nothing else; twice restores the view. */
  lemma SplitToggles(v: View, shift: bool)
    ensures ViewAfterKey(v, V, Press, shift) == v.(splitScreen := !v.splitScreen)
    ensures ViewAfterKey(ViewAfterKey(v, V, Press, shift), V, Press, shift) == v
  {
  }

  /** C moves one half on to the next camera: shift picks the right half, otherwise the left. */
  lemma CycleOneHalf(v: View, shift: bool)
    ensures shift ==> ViewAfterKey(v, C, Press, shift) == v.(right := NextCamera(v.right))
    ensures !shift ==> ViewAfterKey(v, C, Press, shift) == v.(left := NextCamera(v.left))
  {
  }

  /** Three C presses on the same half restore the view. */
  lemma CycleRestores(v: View, shift: bool)
    ensures ViewAfterKey(ViewAfterKey(ViewAfterKey(v, C, Press, shift), C, Press, shift), C, Press, shift) == v
  {
    CycleOneHalf(v, shift);
    CycleOneHalf(ViewAfterKey(v, C, Press, shift), shift);
    CycleOneHalf(ViewAfterKey(ViewAfterKey(v, C, Press, shift), C, Press, shift), shift);
    CameraCycle(v.left);
    CameraCycle(v.right);
  }

  /** Keys other than V and C, and anything but a press, leave the view alone. */
  lemma OtherKeysKeepView(v: View, k: Key, action: Action, shift: bool)
    requires (k != V && k != C) || action != Press
    ensures ViewAfterKey(v, k, action, shift) == v
  {
  }

  /** While the first-person camera is on screen it reacts to the key as its own handler says. */
  lemma VisibleCameraGetsKeys(v: View, s: Cameras.CameraState, k: Key, action: Action)
    requires FirstPersonVisible(v)
    ensures FirstPersonAfterKey(v, s, k, action) == Cameras.ApplyKey(s, k, action)
  {
  }

  /** A C press that takes the first-person camera off screen releases all its input. */
  lemma HidingReleasesInput(v: View, s: Cameras.CameraState, k: Key, action: Action)
    requires k == C && action == Press && !FirstPersonVisible(v)
    ensures FirstPersonAfterKey(v, s, k, action) == Cameras.ResetFlags(s)
    ensures FirstPersonAfterKey(v, s, k, action).controls == Cameras.Released
    ensures !FirstPersonAfterKey(v, s, k, action).mouseActive
  {
    ResetWhenHidden(v);
  }

  /** Off screen, any other key leaves the first-person camera as it was. */
  lemma HiddenCameraIgnoresKeys(v: View, s: Cameras.CameraState, k: Key, action: Action)
    requires !FirstPersonVisible(v) && (k != C || action != Press)
    ensures FirstPersonAfterKey(v, s, k, action) == s
  {
  }

  /** A mouse-button event changes the spaceship only through buttons that fire. */
  lemma {:induction false} QuietButtonsKeepShip(m: Math, pointers: seq<Buttons.Pointer>, callbacks: seq<Buttons.Callback>,
                             n: nat, button: MouseButton, action: Action, s: Spaceships.ShipState)
    requires n <= |pointers| == |callbacks|
    requires forall i :: 0 <= i < n ==> !pointers[i].inRect
    ensures ShipAfterPresses(m, pointers, callbacks, n, button, action, s) == s
  {
    if n > 0 {
      QuietButtonsKeepShip(m, pointers, callbacks, n - 1, button, action, s);
    }
  }

  /** A button with no callback never changes the spaceship. */
  lemma {:induction false} LabelsKeepShip(m: Math, pointers: seq<Buttons.Pointer>, callbacks: seq<Buttons.Callback>,
                       n: nat, button: MouseButton, action: Action, s: Spaceships.ShipState)
    requires n <= |pointers| == |callbacks|
    requires forall i :: 0 <= i < n ==> callbacks[i] == Buttons.NoAction
    ensures ShipAfterPresses(m, pointers, callbacks, n, button, action, s) == s
  {
    if n > 0 {
      LabelsKeepShip(m, pointers, callbacks, n - 1, button, action, s);
    }
  }

  // ---------------------------------------------------------------------
  // The framebuffer size read at the top of each frame

  /** A framebuffer size as glfwGetFramebufferSize reports it. */
  datatype Size = Size(width: int, height: int)

  /** A minimised window reports a zero width or height. */
  predicate Minimised(s: Size)
  {
    s.width == 0 || s.height == 0
  }

  /** Some report from index i on shows the window restored, so the wait ends. */
  predicate RestoredFrom(reports: seq<Size>, i: nat)
  {
    exists j :: i <= j < |reports| && !Minimised(reports[j])
  }

  /** The first report from index i on that is not minimised. */
  function FirstRestored(reports: seq<Size>, i: nat): (k: nat)
    requires RestoredFrom(reports, i)
    ensures i <= k < |reports| && !Minimised(reports[k])
    ensures forall j :: i <= j < k ==> Minimised(reports[j])
    decreases |reports| - i
  {
    if !Minimised(reports[i]) then i else FirstRestored(reports, i + 1)
  }

  /**
   * The size check and the wait of one frame: the first report, then, while
   * the window is minimised, one more report after each event wait.
   * `reports` are the successive results of glfwGetFramebufferSize.
   */
  method WaitWhileMinimised(reports: seq<Size>) returns (k: nat)
    requires RestoredFrom(reports, 0)
    ensures k == FirstRestored(reports, 0)
  {
    k := 0;
    if Minimised(reports[0]) {
      k := 1;
      while Minimised(reports[k])
        invariant 1 <= k <= FirstRestored(reports, 0)
        decreases FirstRestored(reports, 0) - k
      {
        k := k + 1;
      }
    }
  }

  /** A reported size as the floats fbwidth and fbheight. */
  function AsFloats(s: Size): (real, real)
  {
    (s.width as real, s.height as real)
  }

  /**
   * The frame's fbwidth and fbheight as the source computes them: copied
   * from the first report, before the wait, and not updated after it.
   */
  method FrameSizeAsWritten(reports: seq<Size>) returns (fbwidth: real, fbheight: real)
    requires RestoredFrom(reports, 0)
    ensures (fbwidth, fbheight) == AsFloats(reports[0])
  {
    fbwidth, fbheight := reports[0].width as real, reports[0].height as real;
    var _ := WaitWhileMinimised(reports);
  }

  /** The frame's fbwidth and fbheight taken from the report that ended the wait. */
  method FrameSize(reports: seq<Size>) returns (fbwidth: real, fbheight: real)
    requires RestoredFrom(reports, 0)
    ensures (fbwidth, fbheight) == AsFloats(reports[FirstRestored(reports, 0)])
    ensures fbwidth != 0.0 && fbheight != 0.0
  {
    var k := WaitWhileMinimised(reports);
    fbwidth, fbheight := reports[k].width as real, reports[k].height as real;
  }

  /** The aspect ratio of one viewport: half the framebuffer wide in split-screen mode. */
  function Aspect(splitScreen: bool, fbwidth: real, fbheight: real): (aspect: real)
    requires fbheight != 0.0
    ensures aspect == 0.0 <==> fbwidth == 0.0
    ensures aspect * (if splitScreen then 2.0 * fbheight else fbheight) == fbwidth
  {
    if splitScreen then fbwidth / (2.0 * fbheight) else fbwidth / fbheight
  }

  /** The frame size can be projected: a height to divide by and a nonzero aspect ratio. */
  predicate Projectable(splitScreen: bool, fbwidth: real, fbheight: real)
  {
    fbheight != 0.0 && Aspect(splitScreen, fbwidth, fbheight) != 0.0
  }

  /**
   * As written, the first frame after the window is restored keeps the
   * minimised size: when the buttons were last sized on a visible window,
   * updateSize is handed a changed zero size, and the aspect ratio given to
   * getProjection divides by zero or is zero.
   */
  lemma StaleSizeAfterRestore(reports: seq<Size>, splitScreen: bool, g: Buttons.Sizing)
    requires RestoredFrom(reports, 0) && Minimised(reports[0])
    requires g.prevFbwidth != 0.0 && g.prevFbheight != 0.0
    ensures FirstRestored(reports, 0) > 0
    ensures var (fbwidth, fbheight) := AsFloats(reports[0]);
      !Buttons.CanResize(g, fbwidth, fbheight) && !Projectable(splitScreen, fbwidth, fbheight)
  {
  }

  /** The smallest instance: one minimised report, then a 1280 x 720 window. */
  lemma StaleSizeExample(g: Buttons.Sizing)
    requires g.prevFbwidth == 1280.0 && g.prevFbheight == 720.0
    ensures RestoredFrom([Size(0, 0), Size(1280, 720)], 0)
    ensures FirstRestored([Size(0, 0), Size(1280, 720)], 0) == 1
    ensures AsFloats([Size(0, 0), Size(1280, 720)][0]) == (0.0, 0.0)
    ensures !Buttons.CanResize(g, 0.0, 0.0) && Buttons.CanResize(g, 1280.0, 720.0)
  {
    assert !Minimised([Size(0, 0), Size(1280, 720)][1]);
  }

  /**
   * With the size re-read after the wait, every frame's size is fit for
   * every button's updateSize and for getProjection.
   */
  lemma RestoredSizeUsable(reports: seq<Size>, splitScreen: bool, g: Buttons.Sizing)
    requires RestoredFrom(reports, 0)
    ensures var (fbwidth, fbheight) := AsFloats(reports[FirstRestored(reports, 0)]);
      Buttons.CanResize(g, fbwidth, fbheight) && Projectable(splitScreen, fbwidth, fbheight)
  {
  }
}
