/**
 * The orbit camera of src/TurntableManipulator.cpp. It keeps a distance from a centre,
 * an angle around it and an elevation `up`, and reacts to named input events: the
 * UP/DOWN keys dolly it, a left-button drag turns it, and the elevation reached by
 * dragging is clamped just short of the poles. Doubles and floats are exact reals.
 */
module Turntable {
  import opened Vectors
  import opened Events

  /** X_SCALE and Y_SCALE: radians per pixel of mouse motion. */
  const XScale: real := 0.0001
  const YScale: real := 0.0001
  /** The dolly step of one UP or DOWN key event. */
  const DistanceStep: real := 0.01
  /** glm::pi<float>(), the float nearest to pi, written out exactly. */
  const Pi: real := 3.1415927410125732421875
  /** The elevation bounds of a drag: 0.2 radians short of each pole. */
  const MinUp: real := -Pi / 2.0 + 0.2
  const MaxUp: real := Pi / 2.0 - 0.2

  /** glm::clamp: x limited to [lo, hi]. */
  function Clamp(x: real, lo: real, hi: real): (r: real)
    requires lo <= hi
    ensures lo <= r <= hi
    ensures lo <= x <= hi ==> r == x
    ensures x < lo ==> r == lo
    ensures x > hi ==> r == hi
  {
    if x < lo then lo else if x > hi then hi else x
  }

  /** The manipulator's fields as one value. */
  datatype CameraState = CameraState(
    distance: real, around: real, up: real, center: Vec3,
    mouseDown: bool, lastMousePos: Vec2)

  /** The event names onEvent reacts to. Matching is exact string equality. */
  const UpDown := "kbd_UP_down"
  const UpRepeat := "kbd_UP_repeat"
  const DownDown := "kbd_DOWN_down"
  const DownRepeat := "kbd_DOWN_repeat"
  const LeftPress := "mouse_btn_left_down"
  const LeftRelease := "mouse_btn_left_up"
  const Pointer := "mouse_pointer"

  /** Whether onEvent reads the event's 2D payload: a left press, or pointer motion while dragging. */
  predicate ReadsPosition(mouseDown: bool, name: string) {
    name == LeftPress || (name == Pointer && mouseDown)
  }

  /**
   * The drag branch: the pointer delta is taken from lastMousePos, which the branch
   * itself never updates. A zero delta changes nothing.
   */
  function Drag(s: CameraState, pos: Vec2): CameraState {
    var dxy := Sub2(pos, s.lastMousePos);
    if dxy != Vec2(0.0, 0.0) then
      s.(around := s.around + dxy.x * XScale,
         up := Clamp(s.up + dxy.y * YScale, MinUp, MaxUp))
    else
      s
  }

  /** The state after onEvent with an event of the given name and 2D payload. */
  function Step(s: CameraState, name: string, pos: Vec2): CameraState {
    if name == UpDown || name == UpRepeat then
      s.(distance := s.distance - DistanceStep)
    else if name == DownDown || name == DownRepeat then
      s.(distance := s.distance + DistanceStep)
    else if name == LeftPress then
      s.(mouseDown := true, lastMousePos := pos)
    else if name == LeftRelease then
      s.(mouseDown := false)
    else if name == Pointer then
      if s.mouseDown then Drag(s, pos) else s
    else
      s
  }

  /** bump: adds to the angles with no clamping. */
  function Bumped(s: CameraState, ar: real, u: real): CameraState {
    s.(around := s.around + ar, up := s.up + u)
  }

  /** An event as far as the camera sees it. */
  datatype Input = Input(name: string, pos: Vec2)

  /** The state after a sequence of events, in order. */
  function Run(s: CameraState, inputs: seq<Input>): CameraState
    decreases |inputs|
  {
    if |inputs| == 0 then s
    else Run(Step(s, inputs[0].name, inputs[0].pos), inputs[1..])
  }

  class TurntableManipulator {
    var distance: real
    var around: real
    var up: real
    var center: Vec3
    var mouseDown: bool
    var lastMousePos: Vec2

    function State(): CameraState
      reads this
    {
      CameraState(distance, around, up, center, mouseDown, lastMousePos)
    }

    /** TurntableManipulator(d, a, u); center and lastMousePos are left unset. */
    constructor (d: real, a: real, u: real)
      ensures distance == d && around == a && up == u
      ensures !mouseDown
    {
      distance := d;
      around := a;
      up := u;
      mouseDown := false;
    }

    /** The constructor with its default arguments 1.5, 0.3, 0.5. */
    constructor Default()
      ensures distance == 1.5 && around == 0.3 && up == 0.5
      ensures !mouseDown
    {
      distance := 1.5;
      around := 0.3;
      up := 0.5;
      mouseDown := false;
    }

    method Bump(ar: real, u: real)
      modifies this
      ensures State() == Bumped(old(State()), ar, u)
    {
      around := around + ar;
      up := up + u;
    }

    /**
     * onEvent. The C++ reads the 2D payload without looking at the type tag; here the
     * event must carry a 2D payload whenever it is read.
     */
    method OnEvent(event: Event)
      requires ReadsPosition(mouseDown, event.name) ==> event.kind == TwoD
      modifies this
      ensures State() == Step(old(State()), event.name, event.data2D)
    {
      var name := event.GetName();
      if name == UpDown || name == UpRepeat {
        distance := distance - DistanceStep;
      } else if name == DownDown || name == DownRepeat {
        distance := distance + DistanceStep;
      } else if name == LeftPress {
        mouseDown := true;
        lastMousePos := event.Get2DData();
      } else if name == LeftRelease {
        mouseDown := false;
      } else if name == Pointer {
        if mouseDown {
          var dxy := Sub2(event.Get2DData(), lastMousePos);
          if dxy != Vec2(0.0, 0.0) {
            around := around + dxy.x * XScale;
            up := Clamp(up + dxy.y * YScale, MinUp, MaxUp);
          }
        }
      }
    }

    method SetCenterPosition(position: Vec3)
      modifies this
      ensures State() == old(State()).(center := position)
    {
      center := position;
    }
  }

  /** UP moves exactly one step closer, DOWN one step away; nothing else changes. */
  lemma DollyKeys(s: CameraState, pos: Vec2)
    ensures Step(s, UpDown, pos) == s.(distance := s.distance - 0.01)
    ensures Step(s, UpRepeat, pos) == s.(distance := s.distance - 0.01)
    ensures Step(s, DownDown, pos) == s.(distance := s.distance + 0.01)
    ensures Step(s, DownRepeat, pos) == s.(distance := s.distance + 0.01)
    ensures Step(Step(s, UpDown, pos), DownDown, pos) == s
  {
  }

  /** A press starts a drag from the event's position; a release only ends it. */
  lemma LeftButton(s: CameraState, pos: Vec2)
    ensures Step(s, LeftPress, pos) == s.(mouseDown := true, lastMousePos := pos)
    ensures Step(s, LeftRelease, pos) == s.(mouseDown := false)
    ensures Step(s, LeftRelease, pos).lastMousePos == s.lastMousePos
  {
  }

  /** Pointer motion without the button held changes nothing. */
  lemma PointerWithoutButton(s: CameraState, pos: Vec2)
    requires !s.mouseDown
    ensures Step(s, Pointer, pos) == s
  {
  }

  /**
   * A drag with a non-zero delta turns by dx * 0.0001 and sets the elevation to the
   * clamped sum, which lies in [MinUp, MaxUp]; a zero delta changes nothing.
   */
  lemma DragEffect(s: CameraState, pos: Vec2)
    requires s.mouseDown
    ensures var dx, dy := pos.x - s.lastMousePos.x, pos.y - s.lastMousePos.y;
      var r := Step(s, Pointer, pos);
      if dx != 0.0 || dy != 0.0 then
        r.around == s.around + dx * 0.0001
        && r.up == Clamp(s.up + dy * 0.0001, MinUp, MaxUp)
        && MinUp <= r.up <= MaxUp
        && r.distance == s.distance && r.center == s.center
        && r.mouseDown && r.lastMousePos == s.lastMousePos
      else
        r == s
  {
  }

  /** The bounds of the clamp are about 1.37 radians either side of the horizon. */
  lemma ElevationBounds()
    ensures -1.371 < MinUp < -1.370 && 1.370 < MaxUp < 1.371
    ensures MinUp == -MaxUp
  {
  }

  /**
   * Two drag samples in a row are both measured from the press position: the second
   * delta is not taken from the first sample.
   */
  lemma DragMeasuredFromPress(s: CameraState, p1: Vec2, p2: Vec2)
    requires s.mouseDown
    requires p1 != s.lastMousePos && p2 != s.lastMousePos
    ensures Step(Step(s, Pointer, p1), Pointer, p2).around
      == s.around + (p1.x - s.lastMousePos.x) * XScale + (p2.x - s.lastMousePos.x) * XScale
  {
  }

  /** Any other name is ignored, including a modifier-suffixed UP. */
  lemma OtherNamesIgnored(s: CameraState, name: string, pos: Vec2)
    requires name !in {UpDown, UpRepeat, DownDown, DownRepeat, LeftPress, LeftRelease, Pointer}
    ensures Step(s, name, pos) == s
    ensures Step(s, "kbd_UP_SHIFT_down", pos) == s
  {
  }

  /** bump does not clamp: it can push the elevation past the drag bounds. */
  lemma BumpUnclamped(s: CameraState)
    requires MinUp <= s.up <= MaxUp
    ensures Bumped(s, 0.0, 3.0).up > MaxUp
    ensures Bumped(s, 1.0, 0.0) == s.(around := s.around + 1.0)
  {
  }

  /** Events never take an elevation inside the drag bounds outside them. */
  lemma {:induction false} RunKeepsElevation(s: CameraState, inputs: seq<Input>)
    requires MinUp <= s.up <= MaxUp
    ensures MinUp <= Run(s, inputs).up <= MaxUp
    decreases |inputs|
  {
    if |inputs| > 0 {
      var next := Step(s, inputs[0].name, inputs[0].pos);
      assert MinUp <= next.up <= MaxUp;
      RunKeepsElevation(next, inputs[1..]);
    }
  }

  /** n UP key events, each at the given position. */
  function UpPresses(n: nat, pos: Vec2): (inputs: seq<Input>)
    ensures |inputs| == n
  {
    if n == 0 then [] else [Input(UpDown, pos)] + UpPresses(n - 1, pos)
  }

  /** n UP key events bring the camera exactly n * 0.01 closer and change nothing else. */
  lemma {:induction false} RunUpPresses(s: CameraState, n: nat, pos: Vec2)
    ensures Run(s, UpPresses(n, pos)) == s.(distance := s.distance - n as real * DistanceStep)
    decreases n
  {
    if n > 0 {
      var inputs := UpPresses(n, pos);
      assert inputs[0] == Input(UpDown, pos) && inputs[1..] == UpPresses(n - 1, pos);
      RunUpPresses(s.(distance := s.distance - DistanceStep), n - 1, pos);
    }
  }

  /** Run over a concatenation is one run after the other. */
  lemma {:induction false} RunAppend(s: CameraState, a: seq<Input>, b: seq<Input>)
    ensures Run(s, a + b) == Run(Run(s, a), b)
    decreases |a|
  {
    if |a| > 0 {
      assert (a + b)[0] == a[0] && (a + b)[1..] == a[1..] + b;
      RunAppend(Step(s, a[0].name, a[0].pos), a[1..], b);
    } else {
      assert a + b == b;
    }
  }
}
