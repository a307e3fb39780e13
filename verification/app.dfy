/**
  The input and timing state machine of src/Source.cpp: the render loop's
  frame step, the keyboard, cursor and scroll callbacks, `doMovement` and
  `checkTimeScale`, with every global gathered into one `State` record.
 */
module App {
  import opened Vec
  import opened CameraCore
  import opened FrameClock
  import Camera

  const TimeScaleMax: real := 1.0
  const TimeScaleMin: real := 0.0000001

  /** Window size; the cursor starts at its centre. */
  const ScreenWidth: real := 1280.0
  const ScreenHeight: real := 720.0

  /** The keys the callback reacts to; every other key is `OtherKey`. */
  datatype Key = KeyW | KeyA | KeyS | KeyD | KeyC | KeyF | KeyL
               | KeyUp | KeyDown | KeyLeft | KeyRight | KeySpace | KeyEscape | OtherKey

  datatype Action = Press | Release | Repeat

  /** The input globals. `cursorDisabled` mirrors the GLFW cursor mode the C key switches. */
  datatype Input = Input(
    w: bool, a: bool, s: bool, d: bool,
    inputFlag: bool,
    firstMouse: bool,
    lampMoveFlag: bool,
    lFlag: bool,
    lastX: real, lastY: real,
    cursorDisabled: bool)

  datatype State = State(
    clock: Clock,
    input: Input,
    camera: Camera.Camera,
    lampPos: Vec3,
    shouldClose: bool)

  /**
    The globals as the program initialises them, before the first frame,
    with the camera's zoom range widened to [0.5, 45] and the zoom set to
    its maximum once the window is up.
  */
  function Init(orient: Orient): (s: State)
    ensures s.clock == Start && s.clock.timeScale == TimeScaleMax
    ensures s.input.inputFlag && s.input.firstMouse && !s.input.w && !s.input.a && !s.input.s && !s.input.d
    ensures s.camera.position == Vec3(0.0, 0.0, 3.0)
    ensures s.camera.minZoom == 0.5 && s.camera.maxZoom == 45.0 && s.camera.zoom == s.camera.maxZoom
  {
    State(Start,
          Input(false, false, false, false, true, true, false, false,
                ScreenWidth / 2.0, ScreenHeight / 2.0, true),
          Camera.Construct(Vec3(0.0, 0.0, 3.0), Vec3(0.0, 1.0, 0.0), Camera.DefaultYaw,
                           Camera.DefaultPitch, orient).(minZoom := 0.5, maxZoom := 45.0, zoom := 45.0),
          Vec3(1.5, 1.5, 1.5),
          false)
  }

  /** From the initial state a huge scroll stops at the widened minimum 0.5, not the camera's default 1. */
  lemma InitScrollFloor(orient: Orient)
    ensures ScrollCallback(Init(orient), 100.0).camera.zoom == 0.5
    ensures ScrollCallback(Init(orient), -100.0).camera.zoom == 45.0
  {
  }

  /** The range every reachable time scale stays in. */
  predicate Valid(s: State) {
    0.0 < s.clock.timeScale <= TimeScaleMax
  }

  /** `checkTimeScale`: non-positive scales become the minimum, scales over the maximum the maximum. */
  function CheckTimeScale(timeScale: real): (r: real)
    ensures timeScale <= 0.0 ==> r == TimeScaleMin
    ensures timeScale > TimeScaleMax ==> r == TimeScaleMax
    ensures 0.0 < timeScale <= TimeScaleMax ==> r == timeScale
    ensures 0.0 < r <= TimeScaleMax
  {
    if timeScale <= 0.0 then TimeScaleMin
    else if timeScale > TimeScaleMax then TimeScaleMax
    else timeScale
  }

  /** The Space key: pause by dropping to the minimum scale, or resume at scale 1. */
  function TogglePause(timeScale: real): (r: real)
    ensures timeScale != TimeScaleMin ==> r == TimeScaleMin
    ensures timeScale == TimeScaleMin ==> r == 1.0
    ensures 0.0 < r <= TimeScaleMax
  {
    if timeScale != TimeScaleMin then TimeScaleMin else 1.0
  }

  /** Pausing then resuming always lands on scale 1, whatever the rate before. */
  lemma PauseResumeGivesOne(timeScale: real)
    requires timeScale != TimeScaleMin
    ensures TogglePause(TogglePause(timeScale)) == 1.0
  {
  }

  /** A W/A/S/D flag: set on press, cleared on release, kept on repeat. */
  function HoldFlag(flag: bool, action: Action): (r: bool)
    ensures action == Press ==> r
    ensures action == Release ==> !r
    ensures action == Repeat ==> r == flag
  {
    match action
    case Press => true
    case Release => false
    case Repeat => flag
  }

  /** The time-scale step of the arrow keys, before `checkTimeScale`. */
  function ArrowStep(key: Key): real {
    match key
    case KeyUp => 0.1
    case KeyDown => -0.1
    case KeyRight => 0.01
    case KeyLeft => -0.01
    case _ => 0.0
  }

  predicate IsArrow(key: Key) {
    key == KeyUp || key == KeyDown || key == KeyLeft || key == KeyRight
  }

  /** `key_callback`. */
  function KeyCallback(s: State, key: Key, action: Action): (r: State)
    ensures key in {KeyW, KeyA, KeyS, KeyD} ==> r.clock == s.clock && r.camera == s.camera
    ensures key == KeyW ==> r == s.(input := s.input.(w := HoldFlag(s.input.w, action)))
    ensures key == KeyA ==> r == s.(input := s.input.(a := HoldFlag(s.input.a, action)))
    ensures key == KeyS ==> r == s.(input := s.input.(s := HoldFlag(s.input.s, action)))
    ensures key == KeyD ==> r == s.(input := s.input.(d := HoldFlag(s.input.d, action)))
    ensures action != Press && key !in {KeyW, KeyA, KeyS, KeyD} ==> r == s
    ensures key == KeyC && action == Press ==>
              r == s.(input := s.input.(inputFlag := !s.input.inputFlag,
                                        firstMouse := s.input.firstMouse || s.input.inputFlag,
                                        cursorDisabled := !s.input.inputFlag))
    ensures key == KeyF && action == Press ==> r == s.(input := s.input.(lampMoveFlag := !s.input.lampMoveFlag))
    ensures key == KeyL && action == Press ==> r == s.(input := s.input.(lFlag := !s.input.lFlag))
    ensures key == KeyEscape && action == Press ==> r == s.(shouldClose := true)
    ensures IsArrow(key) && action == Press ==>
              r == s.(clock := s.clock.(timeScale := CheckTimeScale(s.clock.timeScale + ArrowStep(key))))
    ensures key == KeySpace && action == Press ==>
              r == s.(clock := s.clock.(timeScale := TogglePause(s.clock.timeScale)))
    ensures key == OtherKey ==> r == s
    ensures Valid(s) ==> Valid(r)
  {
    var inp := s.input;
    var ts := s.clock.timeScale;
    match key
    case KeyEscape => if action == Press then s.(shouldClose := true) else s
    case KeyW => s.(input := inp.(w := HoldFlag(inp.w, action)))
    case KeyA => s.(input := inp.(a := HoldFlag(inp.a, action)))
    case KeyS => s.(input := inp.(s := HoldFlag(inp.s, action)))
    case KeyD => s.(input := inp.(d := HoldFlag(inp.d, action)))
    case KeyC =>
      if action != Press then s
      else if inp.inputFlag then s.(input := inp.(inputFlag := false, firstMouse := true, cursorDisabled := false))
      else s.(input := inp.(inputFlag := true, cursorDisabled := true))
    case KeyF => if action == Press then s.(input := inp.(lampMoveFlag := !inp.lampMoveFlag)) else s
    case KeyUp => if action == Press then s.(clock := s.clock.(timeScale := CheckTimeScale(ts + 0.1))) else s
    case KeyDown => if action == Press then s.(clock := s.clock.(timeScale := CheckTimeScale(ts - 0.1))) else s
    case KeyRight => if action == Press then s.(clock := s.clock.(timeScale := CheckTimeScale(ts + 0.01))) else s
    case KeyLeft => if action == Press then s.(clock := s.clock.(timeScale := CheckTimeScale(ts - 0.01))) else s
    case KeySpace => if action == Press then s.(clock := s.clock.(timeScale := TogglePause(ts))) else s
    case KeyL => if action == Press then s.(input := inp.(lFlag := !inp.lFlag)) else s
    case OtherKey => s
  }

  /** The zoom-dependent factor `Zoom / 45` that scales cursor offsets. */
  function LookScale(c: Camera.Camera): real {
    c.zoom / 45.0
  }

  /**
    `mouse_callback`: ignored while input is off; the first event after the
    latch only records the cursor, so its offsets are zero; later offsets are
    the cursor motion (y inverted) scaled by `Zoom / 45`.
   */
  function MouseCallback(s: State, x: real, y: real, orient: Orient): (r: State)
    ensures !s.input.inputFlag ==> r == s
    ensures s.input.inputFlag ==> r == s.(input := s.input.(firstMouse := false, lastX := x, lastY := y),
                                          camera := r.camera)
    ensures s.input.inputFlag && s.input.firstMouse ==>
              r.camera == Camera.ProcessMouseMovement(s.camera, 0.0, 0.0, true, orient)
    ensures s.input.inputFlag && !s.input.firstMouse ==>
              r.camera == Camera.ProcessMouseMovement(s.camera, (x - s.input.lastX) * LookScale(s.camera),
                                                      (s.input.lastY - y) * LookScale(s.camera), true, orient)
    ensures r.clock == s.clock && r.lampPos == s.lampPos
  {
    if !s.input.inputFlag then s
    else
      var lastX := if s.input.firstMouse then x else s.input.lastX;
      var lastY := if s.input.firstMouse then y else s.input.lastY;
      var xoffset := (x - lastX) * LookScale(s.camera);
      var yoffset := (lastY - y) * LookScale(s.camera);
      assert s.input.firstMouse ==> xoffset == 0.0 && yoffset == 0.0;
      assert !s.input.firstMouse ==> xoffset == (x - s.input.lastX) * LookScale(s.camera)
                                     && yoffset == (s.input.lastY - y) * LookScale(s.camera);
      s.(input := s.input.(firstMouse := false, lastX := x, lastY := y),
         camera := Camera.ProcessMouseMovement(s.camera, xoffset, yoffset, true, orient))
  }

  /**
    A cursor that has not moved since the last event turns nothing: once the
    latch is cleared, an event at the recorded position keeps yaw and pitch
    (pitch is already within the clamp after any constrained look).
   */
  lemma StillCursorKeepsAngles(s: State, x: real, y: real, orient: Orient)
    requires s.input.inputFlag
    ensures var s1 := MouseCallback(s, x, y, orient);
      var s2 := MouseCallback(s1, x, y, orient);
      s2.camera.yaw == s1.camera.yaw && s2.camera.pitch == s1.camera.pitch
  {
    var s1 := MouseCallback(s, x, y, orient);
    assert s1.input.inputFlag && !s1.input.firstMouse && s1.input.lastX == x && s1.input.lastY == y;
    RecordedCursorKeepsAngles(s1, x, y, orient);
  }

  /** An event at the recorded cursor position, latch cleared and pitch within the clamp, turns nothing. */
  lemma RecordedCursorKeepsAngles(s: State, x: real, y: real, orient: Orient)
    requires s.input.inputFlag && !s.input.firstMouse && x == s.input.lastX && y == s.input.lastY
    requires -89.0 <= s.camera.pitch <= 89.0
    ensures MouseCallback(s, x, y, orient).camera.yaw == s.camera.yaw
    ensures MouseCallback(s, x, y, orient).camera.pitch == s.camera.pitch
  {
    var k := LookScale(s.camera);
    var xo, yo := (x - s.input.lastX) * k, (s.input.lastY - y) * k;
    assert MouseCallback(s, x, y, orient).camera == Camera.ProcessMouseMovement(s.camera, xo, yo, true, orient);
    assert xo == 0.0 && yo == 0.0;
    var c2 := Camera.ProcessMouseMovement(s.camera, 0.0, 0.0, true, orient);
    assert c2.pitch == Clamp(s.camera.pitch + 0.0 * s.camera.mouseSensitivity, -89.0, 89.0);
  }

  /** `scroll_callback`. */
  function ScrollCallback(s: State, yoffset: real): (r: State)
    ensures r == s.(camera := Camera.ProcessMouseScroll(s.camera, yoffset))
    ensures s.camera.minZoom <= s.camera.maxZoom ==> s.camera.minZoom <= r.camera.zoom <= s.camera.maxZoom
  {
    s.(camera := Camera.ProcessMouseScroll(s.camera, yoffset))
  }

  /** One `ProcessKeyboard` call when `held`, none otherwise. */
  function MoveIf(c: Camera.Camera, held: bool, dir: Movement, dt: real): (r: Camera.Camera)
    ensures held ==> r == Camera.ProcessKeyboard(c, dir, dt)
    ensures !held ==> r == c
  {
    if held then Camera.ProcessKeyboard(c, dir, dt) else c
  }

  /**
    `doMovement`: each held direction moves the camera by the wall-clock
    time of the frame, `deltaTime / timeScale`, in the order W, S, A, D.
   */
  function DoMovement(s: State): (r: State)
    requires s.clock.timeScale != 0.0
    ensures r == s.(camera := r.camera)
    ensures var dt := s.clock.deltaTime / s.clock.timeScale;
      r.camera == MoveIf(MoveIf(MoveIf(MoveIf(s.camera, s.input.w, Forward, dt), s.input.s, Backward, dt),
                                s.input.a, Left, dt), s.input.d, Right, dt)
  {
    var dt := s.clock.deltaTime / s.clock.timeScale;
    var c1 := MoveIf(s.camera, s.input.w, Forward, dt);
    var c2 := MoveIf(c1, s.input.s, Backward, dt);
    var c3 := MoveIf(c2, s.input.a, Left, dt);
    s.(camera := MoveIf(c3, s.input.d, Right, dt))
  }

  /** The distance a key contributes: the full step when held, nothing otherwise. */
  function HeldStep(held: bool, step: real): real {
    if held then step else 0.0
  }

  /** A conditional move shifts the position by the held step: W and D forward along Front and Right, S and A back. */
  lemma MoveIfShift(c: Camera.Camera, held: bool, dt: real)
    ensures var v := HeldStep(held, c.movementSpeed * dt);
      && MoveIf(c, held, Forward, dt) == c.(position := Add(c.position, Scale(c.basis.front, v)))
      && MoveIf(c, held, Backward, dt) == c.(position := Sub(c.position, Scale(c.basis.front, v)))
      && MoveIf(c, held, Left, dt) == c.(position := Sub(c.position, Scale(c.basis.right, v)))
      && MoveIf(c, held, Right, dt) == c.(position := Add(c.position, Scale(c.basis.right, v)))
  {
  }

  /** The camera moved `fw` along Front and `rw` along Right. */
  function Displaced(c: Camera.Camera, fw: real, rw: real): Camera.Camera {
    c.(position := Add(Add(c.position, Scale(c.basis.front, fw)), Scale(c.basis.right, rw)))
  }

  /** The closed form of the four conditional moves, for any frame time `dt`. */
  lemma MovesClosedForm(c0: Camera.Camera, w: bool, b: bool, l: bool, r: bool, dt: real, v: real)
    requires v == c0.movementSpeed * dt
    ensures MoveIf(MoveIf(MoveIf(MoveIf(c0, w, Forward, dt), b, Backward, dt), l, Left, dt), r, Right, dt)
        == Displaced(c0, HeldStep(w, v) - HeldStep(b, v), HeldStep(r, v) - HeldStep(l, v))
  {
    var f, rt := c0.basis.front, c0.basis.right;
    var hw, hb, hl, hr := HeldStep(w, v), HeldStep(b, v), HeldStep(l, v), HeldStep(r, v);
    var p1 := Add(c0.position, Scale(f, hw));
    var p2 := Sub(p1, Scale(f, hb));
    var p3 := Sub(p2, Scale(rt, hl));
    var p4 := Add(p3, Scale(rt, hr));
    var c1 := MoveIf(c0, w, Forward, dt);
    assert c1 == c0.(position := p1) by { MoveIfShift(c0, w, dt); }
    var c2 := MoveIf(c1, b, Backward, dt);
    assert c2 == c0.(position := p2) by { MoveIfShift(c1, b, dt); }
    var c3 := MoveIf(c2, l, Left, dt);
    assert c3 == c0.(position := p3) by { MoveIfShift(c2, l, dt); }
    var c4 := MoveIf(c3, r, Right, dt);
    assert c4 == c0.(position := p4) by { MoveIfShift(c3, r, dt); }
    assert p2 == Add(c0.position, Scale(f, hw - hb)) by { ScaleSub(c0.position, f, hw, hb); }
    assert p4 == Add(p2, Scale(rt, hr - hl)) by { SubScaleAdd(p2, rt, hl, hr); }
  }

  /**
    The four sequential moves of `doMovement` add up to one displacement:
    Front times the W step minus the S step, plus Right times the D step
    minus the A step, each step being speed times the wall-clock frame time.
   */
  lemma DoMovementClosedForm(s: State)
    requires s.clock.timeScale != 0.0
    ensures DoMovement(s).camera
            == Displaced(s.camera, HeldStep(s.input.w, FrameStep(s)) - HeldStep(s.input.s, FrameStep(s)),
                         HeldStep(s.input.d, FrameStep(s)) - HeldStep(s.input.a, FrameStep(s)))
  {
    var dt := s.clock.deltaTime / s.clock.timeScale;
    var c := s.camera;
    assert DoMovement(s).camera
      == MoveIf(MoveIf(MoveIf(MoveIf(c, s.input.w, Forward, dt), s.input.s, Backward, dt), s.input.a, Left, dt),
                s.input.d, Right, dt);
    MovesClosedForm(c, s.input.w, s.input.s, s.input.a, s.input.d, dt, FrameStep(s));
  }

  /** The distance one held key moves the camera in a frame: speed times the wall-clock frame time. */
  function FrameStep(s: State): real
    requires s.clock.timeScale != 0.0
  {
    s.camera.movementSpeed * (s.clock.deltaTime / s.clock.timeScale)
  }

  /** Holding both keys of a pair (W and S, A and D) leaves the camera where it was. */
  lemma OppositeKeysCancel(s: State)
    requires s.clock.timeScale != 0.0
    requires s.input.w == s.input.s && s.input.a == s.input.d
    ensures DoMovement(s).camera == s.camera
  {
    var dt := s.clock.deltaTime / s.clock.timeScale;
    Camera.KeyboardOppositeRestores(s.camera, Forward, dt);
    var c := MoveIf(MoveIf(s.camera, s.input.w, Forward, dt), s.input.s, Backward, dt);
    Camera.KeyboardOppositeRestores(c, Left, dt);
  }

  /**
    One pass of the render loop up to event polling: the clock ticks with
    its two reads (`sample` credited, `after` stored), held keys move the
    camera while input is on, and the lamp follows the camera while its
    flag is set.
   */
  function Frame(s: State, sample: real, after: real): (r: State)
    requires s.clock.timeScale != 0.0
    ensures r.clock == TickAsWritten(s.clock, sample, after)
    ensures sample == after ==> r.clock == Tick(s.clock, after)
    ensures r.input == s.input && r.shouldClose == s.shouldClose
    ensures !s.input.inputFlag ==> r.camera == s.camera
    ensures s.input.inputFlag ==> r.camera == DoMovement(s.(clock := r.clock)).camera
    ensures s.input.lampMoveFlag ==> r.lampPos == Add(r.camera.position, r.camera.basis.front)
    ensures !s.input.lampMoveFlag ==> r.lampPos == s.lampPos
  {
    var t := s.(clock := TickAsWritten(s.clock, sample, after));
    var m := if s.input.inputFlag then DoMovement(t) else t;
    if s.input.lampMoveFlag then m.(lampPos := Add(m.camera.position, m.camera.basis.front)) else m
  }

  /**
    Camera motion during a frame does not depend on the time scale: two
    states that differ only in their (non-zero) scale move the camera alike.
   */
  lemma FrameMotionIgnoresTimeScale(s: State, otherScale: real, sample: real, after: real)
    requires s.clock.timeScale != 0.0 && otherScale != 0.0
    ensures Frame(s, sample, after).camera
            == Frame(s.(clock := s.clock.(timeScale := otherScale)), sample, after).camera
  {
    var s2 := s.(clock := s.clock.(timeScale := otherScale));
    TickAsWrittenWallClockDelta(s.clock, sample, after);
    TickAsWrittenWallClockDelta(s2.clock, sample, after);
    assert s2.clock.realTime == s.clock.realTime;
  }

  /** The spec-style example: from the initial camera, W held for one second at speed 2.5 along -Z. */
  lemma ForwardExample(orient: Orient)
    requires orient(Camera.DefaultYaw, Camera.DefaultPitch, Vec3(0.0, 1.0, 0.0)).front == Vec3(0.0, 0.0, -1.0)
    ensures Frame(KeyCallback(Init(orient), KeyW, Press), 1.0, 1.0).camera.position == Vec3(0.0, 0.0, 0.5)
  {
    var s := KeyCallback(Init(orient), KeyW, Press);
    var f := Frame(s, 1.0, 1.0);
    assert f.clock.deltaTime == 1.0;
  }

  datatype Event = KeyEvent(key: Key, action: Action) | CursorEvent(x: real, y: real)
                 | ScrollEvent(yoffset: real) | FrameEvent(sample: real, after: real)

  /** One event of the program: a callback or a pass of the render loop. */
  function Step(s: State, e: Event, orient: Orient): (r: State)
    requires Valid(s)
    ensures Valid(r)
  {
    match e
    case KeyEvent(k, a) => KeyCallback(s, k, a)
    case CursorEvent(x, y) => MouseCallback(s, x, y, orient)
    case ScrollEvent(y) => ScrollCallback(s, y)
    case FrameEvent(sample, after) => Frame(s, sample, after)
  }

  /**
    Any sequence of events from a valid state, in particular from `Init`,
    keeps the time scale in (0, 1]: it is never zero, so `doMovement` never
    divides by zero.
   */
  function Run(s: State, events: seq<Event>, orient: Orient): (r: State)
    requires Valid(s)
    ensures Valid(r)
    ensures 0.0 < r.clock.timeScale <= TimeScaleMax
    decreases |events|
  {
    if |events| == 0 then s else Run(Step(s, events[0], orient), events[1..], orient)
  }

  lemma InitValid(orient: Orient)
    ensures Valid(Init(orient))
    ensures Valid(Run(Init(orient), [], orient))
  {
  }

  /** Starting clock at scale 1: a tick at 2 s gains 2 s; a scale forced to 0 becomes the minimum. */
  lemma ClockExample()
    ensures Tick(Start, 2.0).deltaTime == 2.0 && Tick(Start, 2.0).gameTime == 2.0
    ensures CheckTimeScale(0.0) == TimeScaleMin
    ensures Tick(Tick(Start, 2.0).(timeScale := TimeScaleMin), 4.0).deltaTime == 2.0 * TimeScaleMin
  {
    var c := Tick(Start, 2.0);
    assert c.gameTime == 0.0 + (2.0 - 0.0) * 1.0;
    var c2 := Tick(c.(timeScale := TimeScaleMin), 4.0);
    assert c2.deltaTime == (4.0 - 2.0) * TimeScaleMin;
  }
}
