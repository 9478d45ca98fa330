/**
 * The on-screen buttons (main/button.hpp): their layout in framebuffer
 * pixels, the fill and outline triangles rebuilt on a resize, the
 * conversion of those triangles to normalised device coordinates, and the
 * hover/press state machine that picks the fill colour and fires the
 * button's callback.
 */
module Buttons {
  import opened Matrices
  import opened Input
  import Spaceships

  // ---------------------------------------------------------------------
  // Layout

  /** A screen rectangle as the source's Vec4f: bottom-left (x, y), top-right (z, w). */
  datatype Rect = Rect(x: real, y: real, z: real, w: real)
  {
    function Width(): real { z - x }
    function Height(): real { w - y }
  }

  /** The genScreenCoords functions a button can be given. */
  datatype Layout = TopLeft | BottomCentreLeft | BottomCentreRight

  const Margin: real := 40.0

  /** topLeft: 160 x 50, 40 pixels in from the top-left corner. */
  function TopLeftRect(fbheight: real): Rect
  {
    var width, height := 160.0, 50.0;
    Rect(Margin, fbheight - Margin - height, Margin + width, fbheight - Margin)
  }

  /** bottomCentreLeft: 140 x 60, ending 40 pixels left of the centre line. */
  function BottomCentreLeftRect(fbwidth: real): Rect
  {
    var width, height := 140.0, 60.0;
    Rect(fbwidth / 2.0 - Margin - width, Margin, fbwidth / 2.0 - Margin, Margin + height)
  }

  /** bottomCentreRight: 140 x 60, starting 40 pixels right of the centre line. */
  function BottomCentreRightRect(fbwidth: real): Rect
  {
    var width, height := 140.0, 60.0;
    Rect(fbwidth / 2.0 + Margin, Margin, fbwidth / 2.0 + Margin + width, Margin + height)
  }

  /** Calling the button's genScreenCoords. */
  function ScreenCoords(layout: Layout, fbwidth: real, fbheight: real): Rect
  {
    match layout
    case TopLeft => TopLeftRect(fbheight)
    case BottomCentreLeft => BottomCentreLeftRect(fbwidth)
    case BottomCentreRight => BottomCentreRightRect(fbwidth)
  }

  // ---------------------------------------------------------------------
  // Geometry

  /** The two triangles that fill the rectangle. */
  function FillData(r: Rect): seq<Vec2>
  {
    [Vec2(r.x, r.y), Vec2(r.z, r.y), Vec2(r.z, r.w),
     Vec2(r.x, r.y), Vec2(r.z, r.w), Vec2(r.x, r.w)]
  }

  /** The eight triangles of a frame of width b around the rectangle: bottom, top, left, right. */
  function OutlineData(r: Rect, b: real): seq<Vec2>
  {
    [Vec2(r.x - b, r.y - b), Vec2(r.z + b, r.y - b), Vec2(r.x - b, r.y),
     Vec2(r.x - b, r.y), Vec2(r.z + b, r.y - b), Vec2(r.z + b, r.y),

     Vec2(r.x - b, r.w), Vec2(r.z + b, r.w), Vec2(r.x - b, r.w + b),
     Vec2(r.x - b, r.w + b), Vec2(r.z + b, r.w), Vec2(r.z + b, r.w + b),

     Vec2(r.x - b, r.y), Vec2(r.x, r.y), Vec2(r.x - b, r.w),
     Vec2(r.x - b, r.w), Vec2(r.x, r.y), Vec2(r.x, r.w),

     Vec2(r.z, r.y), Vec2(r.z + b, r.y), Vec2(r.z, r.w),
     Vec2(r.z, r.w), Vec2(r.z + b, r.y), Vec2(r.z + b, r.w)]
  }

  /** A pixel position in normalised device coordinates. */
  function Ndc(v: Vec2, fbwidth: real, fbheight: real): Vec2
    requires fbwidth != 0.0 && fbheight != 0.0
  {
    Vec2(2.0 * v.x / fbwidth - 1.0, 2.0 * v.y / fbheight - 1.0)
  }

  /** The inverse of Ndc: back to pixels. */
  function Pixels(v: Vec2, fbwidth: real, fbheight: real): Vec2
  {
    Vec2((v.x + 1.0) * fbwidth / 2.0, (v.y + 1.0) * fbheight / 2.0)
  }

  /** The conversion loop of createVao, as a value. */
  function NdcAll(data: seq<Vec2>, fbwidth: real, fbheight: real): seq<Vec2>
    requires fbwidth != 0.0 && fbheight != 0.0
  {
    seq(|data|, i requires 0 <= i < |data| => Ndc(data[i], fbwidth, fbheight))
  }

  /** What updateSize maintains: the size it last saw, the rectangle, and the uploaded triangles. */
  datatype Sizing = Sizing(
    prevFbwidth: real,
    prevFbheight: real,
    screenRect: Rect,
    fill: seq<Vec2>,
    outline: seq<Vec2>,
    fillVertices: int,
    outlineVertices: int)

  /** The division in createVao is defined whenever a resize rebuilds the triangles. */
  predicate CanResize(g: Sizing, fbwidth: real, fbheight: real)
  {
    (g.prevFbwidth != fbwidth || g.prevFbheight != fbheight) ==> fbwidth != 0.0 && fbheight != 0.0
  }

  /** updateSize. */
  function Resize(g: Sizing, layout: Layout, border: real, fbwidth: real, fbheight: real): Sizing
    requires CanResize(g, fbwidth, fbheight)
  {
    if g.prevFbwidth == fbwidth && g.prevFbheight == fbheight then g
    else
      var rect := ScreenCoords(layout, fbwidth, fbheight);
      Sizing(fbwidth, fbheight, rect,
        NdcAll(FillData(rect), fbwidth, fbheight), NdcAll(OutlineData(rect, border), fbwidth, fbheight),
        |FillData(rect)|, |OutlineData(rect, border)|)
  }

  // ---------------------------------------------------------------------
  // Pointer

  /** Which of the three colours currentColor points at. */
  datatype Shade = Idle | Active | Pressed

  /** The fields the mouse callbacks change. */
  datatype Pointer = Pointer(current: Shade, inRect: bool, pressedInRect: bool)

  /** The inclusive hit test, with y measured from the bottom. */
  predicate Inside(r: Rect, x: real, y: real)
  {
    r.x <= x <= r.z && r.y <= y <= r.w
  }

  /** updateMouseMove: GLFW measures y from the top, so it is flipped first. */
  function MouseMove(p: Pointer, rect: Rect, fbheight: real, x: real, y: real): Pointer
  {
    var inRect := Inside(rect, x, fbheight - y);
    if inRect then
      p.(inRect := true, current := if !p.pressedInRect then Active else p.current)
    else
      Pointer(Idle, false, false)
  }

  /** updateMousePress: the new pointer state, and whether the callback runs. */
  datatype PressOutcome = PressOutcome(pointer: Pointer, fired: bool)

  function MousePress(p: Pointer, button: MouseButton, action: Action): PressOutcome
  {
    if p.inRect && button == LeftButton then
      if action == Press then PressOutcome(p.(current := Pressed, pressedInRect := true), false)
      else if action == Release then PressOutcome(p.(current := Active, pressedInRect := false), true)
      else PressOutcome(p, false)
    else PressOutcome(p, false)
  }

  // ---------------------------------------------------------------------
  // Callbacks

  /** The callbacks the program gives its buttons. */
  datatype Callback = NoAction | LaunchShip | ResetShip

  /** What a callback does to the spaceship. */
  function Effect(c: Callback, m: Math, s: Spaceships.ShipState): Spaceships.ShipState
  {
    match c
    case NoAction => s
    case LaunchShip => Spaceships.Launched(s)
    case ResetShip => Spaceships.Reset(m, s)
  }

  // ---------------------------------------------------------------------
  // The class

  class Button {
    const text: string
    const layout: Layout
    var screenRect: Rect
    var prevFbwidth: real
    var prevFbheight: real

    /** The uploaded vertex data stands for the vertex array objects. */
    var fillData: seq<Vec2>
    var outlineData: seq<Vec2>
    var fillVertices: int
    var outlineVertices: int

    const idleColor: Vec4
    const activeColor: Vec4
    const pressedColor: Vec4
    var currentColor: Shade
    const borderWidth: real
    const borderColor: Vec4

    var isInRect: bool
    var isPressedInRect: bool
    const callback: Callback

    function Geometry(): Sizing
      reads this
    {
      Sizing(prevFbwidth, prevFbheight, screenRect, fillData, outlineData, fillVertices, outlineVertices)
    }

    function PointerState(): Pointer
      reads this
    {
      Pointer(currentColor, isInRect, isPressedInRect)
    }

    /** The colour the fill is drawn in. */
    function CurrentColor(): Vec4
      reads this
    {
      match currentColor
      case Idle => idleColor
      case Active => activeColor
      case Pressed => pressedColor
    }

    constructor (text: string, layout: Layout, idleColor: Vec4, activeColor: Vec4, pressedColor: Vec4,
                 borderWidth: real, borderColor: Vec4, callback: Callback)
      ensures Geometry() == Sizing(0.0, 0.0, Rect(0.0, 0.0, 0.0, 0.0), [], [], 0, 0)
      ensures PointerState() == Pointer(Idle, false, false) && CurrentColor() == idleColor
      ensures this.layout == layout && this.borderWidth == borderWidth && this.callback == callback
      ensures this.idleColor == idleColor && this.activeColor == activeColor && this.pressedColor == pressedColor
    {
      this.text, this.layout := text, layout;
      this.idleColor, this.activeColor, this.pressedColor := idleColor, activeColor, pressedColor;
      this.borderWidth, this.borderColor, this.callback := borderWidth, borderColor, callback;
      prevFbwidth, prevFbheight := 0.0, 0.0;
      isInRect, isPressedInRect := false, false;
      currentColor := Idle;
      fillData, outlineData := [], [];
      fillVertices, outlineVertices := 0, 0;
      screenRect := Rect(0.0, 0.0, 0.0, 0.0);
    }

    method UpdateSize(fbwidth: real, fbheight: real)
      requires CanResize(Geometry(), fbwidth, fbheight)
      modifies this
      ensures Geometry() == Resize(old(Geometry()), layout, borderWidth, fbwidth, fbheight)
      ensures PointerState() == old(PointerState())
    {
      if prevFbwidth == fbwidth && prevFbheight == fbheight {
        return;
      }
      prevFbwidth := fbwidth;
      prevFbheight := fbheight;

      screenRect := ScreenCoords(layout, fbwidth, fbheight);

      var fill := FillData(screenRect);
      var outline := OutlineData(screenRect, borderWidth);

      fillData := CreateVao(fill);
      fillVertices := |fill|;

      outlineData := CreateVao(outline);
      outlineVertices := |outline|;
      assert Geometry() == Sizing(fbwidth, fbheight, ScreenCoords(layout, fbwidth, fbheight),
        NdcAll(fill, fbwidth, fbheight), NdcAll(outline, fbwidth, fbheight), |fill|, |outline|);
    }

    /** The coordinate conversion of createVao; the upload itself is not modelled. */
    method CreateVao(data: seq<Vec2>) returns (uploaded: seq<Vec2>)
      requires prevFbwidth != 0.0 && prevFbheight != 0.0
      ensures uploaded == NdcAll(data, prevFbwidth, prevFbheight)
    {
      var buffer := new Vec2[|data|](i requires 0 <= i < |data| => data[i]);
      for i := 0 to buffer.Length
        invariant forall j :: 0 <= j < i ==> buffer[j] == Ndc(data[j], prevFbwidth, prevFbheight)
        invariant forall j :: i <= j < buffer.Length ==> buffer[j] == data[j]
      {
        var v := buffer[i];
        buffer[i] := Vec2(2.0 * v.x / prevFbwidth - 1.0, 2.0 * v.y / prevFbheight - 1.0);
      }
      uploaded := buffer[..];
    }

    method UpdateMouseMove(x: real, y: real)
      modifies this
      ensures PointerState() == MouseMove(old(PointerState()), screenRect, prevFbheight, x, y)
      ensures Geometry() == old(Geometry())
    {
      var flipped := prevFbheight - y;
      isInRect := x >= screenRect.x && x <= screenRect.z && flipped >= screenRect.y && flipped <= screenRect.w;
      if isInRect {
        if !isPressedInRect {
          currentColor := Active;
        }
      } else {
        currentColor := Idle;
        isPressedInRect := false;
      }
    }

    /** updateMousePress; the callback acts on the spaceship, the only part of State a callback uses. */
    method UpdateMousePress(m: Math, button: MouseButton, action: Action, ship: Spaceships.Spaceship)
      modifies this, ship
      ensures PointerState() == MousePress(old(PointerState()), button, action).pointer
      ensures Geometry() == old(Geometry())
      ensures ship.Snapshot() ==
        if MousePress(old(PointerState()), button, action).fired then Effect(callback, m, old(ship.Snapshot()))
        else old(ship.Snapshot())
    {
      if isInRect && button == LeftButton {
        if action == Press {
          currentColor := Pressed;
          isPressedInRect := true;
        } else if action == Release {
          currentColor := Active;
          isPressedInRect := false;
          match callback
          case NoAction =>
          case LaunchShip => ship.Launch();
          case ResetShip => ship.ResetState(m);
        }
      }
    }
  }

  // ---------------------------------------------------------------------
  // Properties

  /** The three layouts have their fixed sizes whatever the framebuffer. */
  lemma LayoutSizes(fbwidth: real, fbheight: real)
    ensures TopLeftRect(fbheight).Width() == 160.0 && TopLeftRect(fbheight).Height() == 50.0
    ensures BottomCentreLeftRect(fbwidth).Width() == 140.0 && BottomCentreLeftRect(fbwidth).Height() == 60.0
    ensures BottomCentreRightRect(fbwidth).Width() == 140.0 && BottomCentreRightRect(fbwidth).Height() == 60.0
    ensures TopLeftRect(fbheight).w == fbheight - 40.0 && TopLeftRect(fbheight).x == 40.0
  {
  }

  /** The bottom pair mirror each other about the centre line, 80 pixels apart, at the same height. */
  lemma BottomPairMirrored(fbwidth: real)
    ensures BottomCentreLeftRect(fbwidth).z + BottomCentreRightRect(fbwidth).x == fbwidth
    ensures BottomCentreLeftRect(fbwidth).x + BottomCentreRightRect(fbwidth).z == fbwidth
    ensures BottomCentreRightRect(fbwidth).x - BottomCentreLeftRect(fbwidth).z == 80.0
    ensures BottomCentreLeftRect(fbwidth).y == BottomCentreRightRect(fbwidth).y
    ensures BottomCentreLeftRect(fbwidth).w == BottomCentreRightRect(fbwidth).w
  {
  }

  /** Resizing to the size last seen changes nothing, so a repeated resize is idempotent. */
  lemma ResizeIdempotent(g: Sizing, layout: Layout, border: real, fbwidth: real, fbheight: real)
    requires CanResize(g, fbwidth, fbheight)
    ensures var g1 := Resize(g, layout, border, fbwidth, fbheight);
      g1.prevFbwidth == fbwidth && g1.prevFbheight == fbheight &&
      Resize(g1, layout, border, fbwidth, fbheight) == g1
  {
  }

  /** A real resize stores the layout's rectangle and six fill and twenty-four outline vertices. */
  lemma ResizeRebuilds(g: Sizing, layout: Layout, border: real, fbwidth: real, fbheight: real)
    requires CanResize(g, fbwidth, fbheight)
    requires g.prevFbwidth != fbwidth || g.prevFbheight != fbheight
    ensures var g1 := Resize(g, layout, border, fbwidth, fbheight);
      g1.screenRect == ScreenCoords(layout, fbwidth, fbheight) &&
      g1.fillVertices == 6 && g1.outlineVertices == 24 &&
      |g1.fill| == 6 && |g1.outline| == 24
  {
  }

  /** Every fill vertex is a corner of the rectangle. */
  lemma FillAtCorners(r: Rect, i: nat)
    requires i < |FillData(r)|
    ensures FillData(r)[i].x == r.x || FillData(r)[i].x == r.z
    ensures FillData(r)[i].y == r.y || FillData(r)[i].y == r.w
  {
  }

  /** The frame lies outside the rectangle and inside the rectangle grown by the border. */
  lemma OutlineInFrame(r: Rect, b: real, i: nat)
    requires r.x <= r.z && r.y <= r.w && 0.0 <= b && i < |OutlineData(r, b)|
    ensures var v := OutlineData(r, b)[i];
      r.x - b <= v.x <= r.z + b && r.y - b <= v.y <= r.w + b
    ensures var v := OutlineData(r, b)[i];
      !(r.x < v.x < r.z && r.y < v.y < r.w)
  {
  }

  /** NDC sends the framebuffer's corners to (-1, -1) and (1, 1), and Pixels undoes it. */
  lemma NdcCorners(fbwidth: real, fbheight: real)
    requires fbwidth != 0.0 && fbheight != 0.0
    ensures Ndc(Vec2(0.0, 0.0), fbwidth, fbheight) == Vec2(-1.0, -1.0)
    ensures Ndc(Vec2(fbwidth, fbheight), fbwidth, fbheight) == Vec2(1.0, 1.0)
  {
  }

  lemma NdcRoundTrip(v: Vec2, fbwidth: real, fbheight: real)
    requires fbwidth != 0.0 && fbheight != 0.0
    ensures Pixels(Ndc(v, fbwidth, fbheight), fbwidth, fbheight) == v
  {
    var n := Ndc(v, fbwidth, fbheight);
    assert n.x + 1.0 == 2.0 * v.x / fbwidth;
    assert n.y + 1.0 == 2.0 * v.y / fbheight;
    assert (2.0 * v.x / fbwidth) * fbwidth == 2.0 * v.x;
    assert (2.0 * v.y / fbheight) * fbheight == 2.0 * v.y;
  }

  /** The hit test is inclusive on all four edges, after the y flip. */
  lemma MouseMoveHitTest(p: Pointer, rect: Rect, fbheight: real, x: real, y: real)
    ensures MouseMove(p, rect, fbheight, x, y).inRect <==>
      rect.x <= x && x <= rect.z && rect.y <= fbheight - y && fbheight - y <= rect.w
  {
  }

  /** Outside: idle and not pressed.  Inside: active unless a press is held, when the colour stays. */
  lemma MouseMoveColours(p: Pointer, rect: Rect, fbheight: real, x: real, y: real)
    ensures var q := MouseMove(p, rect, fbheight, x, y);
      (!q.inRect ==> q.current == Idle && !q.pressedInRect) &&
      (q.inRect && !p.pressedInRect ==> q.current == Active && !q.pressedInRect) &&
      (q.inRect && p.pressedInRect ==> q.current == p.current && q.pressedInRect)
  {
  }

  /** The callback fires exactly on a left-button release inside the rectangle. */
  lemma PressFiresOnLeftRelease(p: Pointer, button: MouseButton, action: Action)
    ensures MousePress(p, button, action).fired <==> p.inRect && button == LeftButton && action == Release
    ensures p.inRect && button == LeftButton && action == Press ==>
      MousePress(p, button, action).pointer == p.(current := Pressed, pressedInRect := true)
    ensures !p.inRect ==> MousePress(p, button, action) == PressOutcome(p, false)
  {
  }

  /** A left click inside fires once and leaves the button active and released. */
  lemma ClickInside(p: Pointer)
    requires p.inRect
    ensures var down := MousePress(p, LeftButton, Press);
      var up := MousePress(down.pointer, LeftButton, Release);
      !down.fired && up.fired && up.pointer == Pointer(Active, true, false)
  {
  }

  /** Moving out while pressed cancels the press: a release afterwards fires nothing. */
  lemma DragOutCancels(p: Pointer, rect: Rect, fbheight: real, x: real, y: real)
    requires !Inside(rect, x, fbheight - y)
    ensures var q := MouseMove(p, rect, fbheight, x, y);
      q == Pointer(Idle, false, false) && !MousePress(q, LeftButton, Release).fired
  {
  }
}
