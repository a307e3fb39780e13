/**
  The older program Source.cpp: the same frame tick, arrow keys that move
  the time scale with no clamp, camera moves issued directly from the key
  callback, and unscaled cursor offsets. Its camera is the one of
  Headers/Camera.h.
 */
module LegacyApp {
  import opened Vec
  import opened CameraCore
  import opened FrameClock
  import opened Wrappers
  import LegacyCamera

  /** Window size; the cursor starts at its centre. */
  const Width: real := 800.0
  const Height: real := 600.0

  datatype Key = KeyW | KeyA | KeyS | KeyD | KeyL
               | KeyUp | KeyDown | KeyLeft | KeyRight | KeySpace | KeyEscape | OtherKey

  datatype Action = Press | Release | Repeat

  datatype State = State(
    clock: Clock,
    camera: LegacyCamera.Camera,
    lastX: real, lastY: real,
    firstMouse: bool,
    lFlag: bool,
    shouldClose: bool)

  function Init(orient: Orient): (s: State)
    ensures s.clock == Start && s.firstMouse && !s.lFlag && !s.shouldClose
    ensures s.camera.position == Vec3(0.0, 0.0, 3.0) && s.lastX == 400.0 && s.lastY == 300.0
  {
    State(Start,
          LegacyCamera.Construct(Vec3(0.0, 0.0, 3.0), Vec3(0.0, 1.0, 0.0), -90.0, 0.0, orient),
          Width / 2.0, Height / 2.0, true, false, false)
  }

  /** The camera direction bound to a movement key. */
  function MoveKey(key: Key): (r: Option<Movement>)
    ensures r.Some? <==> key in {KeyW, KeyA, KeyS, KeyD}
  {
    match key
    case KeyW => Some(Forward)
    case KeyS => Some(Backward)
    case KeyA => Some(Left)
    case KeyD => Some(Right)
    case _ => None
  }

  /** The unclamped time-scale step of an arrow key (Up +1, Down -1, Left -0.1, Right +0.1). */
  function ArrowStep(key: Key): real {
    match key
    case KeyUp => 1.0
    case KeyDown => -1.0
    case KeyLeft => -0.1
    case KeyRight => 0.1
    case _ => 0.0
  }

  predicate IsArrow(key: Key) {
    key == KeyUp || key == KeyDown || key == KeyLeft || key == KeyRight
  }

  /** `key_callback`. */
  function KeyCallback(s: State, key: Key, action: Action): (r: State)
    ensures IsArrow(key) && action == Press ==>
              r == s.(clock := s.clock.(timeScale := s.clock.timeScale + ArrowStep(key)))
    ensures key == KeySpace && action == Press ==> r == s.(clock := s.clock.(timeScale := 1.0))
    ensures key == KeyL && action == Press ==> r == s.(lFlag := !s.lFlag)
    ensures key == KeyEscape && action == Press ==> r == s.(shouldClose := true)
    ensures MoveKey(key).Some? ==>
              r == s.(camera := LegacyCamera.ProcessKeyboard(s.camera, MoveKey(key).value, s.clock.deltaTime))
    ensures action != Press && MoveKey(key).None? ==> r == s
    ensures key == OtherKey ==> r == s
  {
    match key
    case KeyEscape => if action == Press then s.(shouldClose := true) else s
    case KeyL => if action == Press then s.(lFlag := !s.lFlag) else s
    case KeyUp => if action == Press then s.(clock := s.clock.(timeScale := s.clock.timeScale + 1.0)) else s
    case KeyDown => if action == Press then s.(clock := s.clock.(timeScale := s.clock.timeScale - 1.0)) else s
    case KeyLeft => if action == Press then s.(clock := s.clock.(timeScale := s.clock.timeScale - 0.1)) else s
    case KeyRight => if action == Press then s.(clock := s.clock.(timeScale := s.clock.timeScale + 0.1)) else s
    case KeySpace => if action == Press then s.(clock := s.clock.(timeScale := 1.0)) else s
    case KeyW => s.(camera := LegacyCamera.ProcessKeyboard(s.camera, Forward, s.clock.deltaTime))
    case KeyS => s.(camera := LegacyCamera.ProcessKeyboard(s.camera, Backward, s.clock.deltaTime))
    case KeyA => s.(camera := LegacyCamera.ProcessKeyboard(s.camera, Left, s.clock.deltaTime))
    case KeyD => s.(camera := LegacyCamera.ProcessKeyboard(s.camera, Right, s.clock.deltaTime))
    case OtherKey => s
  }

  /** A movement key event followed by the opposite key's event, with no frame between, cancels. */
  lemma OppositeKeyEventsCancel(s: State, dir: Movement, a1: Action, a2: Action)
    ensures var k := KeyFor(dir); var k' := KeyFor(Opposite(dir));
      KeyCallback(KeyCallback(s, k, a1), k', a2).camera == s.camera
  {
    LegacyCamera.KeyboardOppositeRestores(s.camera, dir, s.clock.deltaTime);
  }

  function KeyFor(dir: Movement): (k: Key)
    ensures MoveKey(k) == Some(dir)
  {
    match dir
    case Forward => KeyW
    case Backward => KeyS
    case Left => KeyA
    case Right => KeyD
  }

  /** `mouse_callback`: the first event only records the cursor; later offsets are raw cursor motion. */
  function MouseCallback(s: State, x: real, y: real, orient: Orient): (r: State)
    ensures r == s.(firstMouse := false, lastX := x, lastY := y, camera := r.camera)
    ensures s.firstMouse ==> r.camera == LegacyCamera.ProcessMouseMovement(s.camera, 0.0, 0.0, true, orient)
    ensures !s.firstMouse ==>
              r.camera == LegacyCamera.ProcessMouseMovement(s.camera, x - s.lastX, s.lastY - y, true, orient)
  {
    var lastX := if s.firstMouse then x else s.lastX;
    var lastY := if s.firstMouse then y else s.lastY;
    assert s.firstMouse ==> x - lastX == 0.0 && lastY - y == 0.0;
    s.(firstMouse := false, lastX := x, lastY := y,
       camera := LegacyCamera.ProcessMouseMovement(s.camera, x - lastX, lastY - y, true, orient))
  }

  /** Once the latch is cleared, an event at the recorded cursor position keeps yaw and pitch. */
  lemma StillCursorKeepsAngles(s: State, x: real, y: real, orient: Orient)
    ensures var s1 := MouseCallback(s, x, y, orient);
      var s2 := MouseCallback(s1, x, y, orient);
      s2.camera.yaw == s1.camera.yaw && s2.camera.pitch == s1.camera.pitch
  {
    var s1 := MouseCallback(s, x, y, orient);
    RecordedCursorKeepsAngles(s1, x, y, orient);
  }

  /** With the latch cleared, an event at the recorded cursor position and an in-range pitch keeps yaw and pitch. */
  lemma RecordedCursorKeepsAngles(s: State, x: real, y: real, orient: Orient)
    requires !s.firstMouse && x == s.lastX && y == s.lastY
    requires -89.0 <= s.camera.pitch <= 89.0
    ensures MouseCallback(s, x, y, orient).camera.yaw == s.camera.yaw
    ensures MouseCallback(s, x, y, orient).camera.pitch == s.camera.pitch
  {
    assert MouseCallback(s, x, y, orient).camera
      == LegacyCamera.ProcessMouseMovement(s.camera, x - s.lastX, s.lastY - y, true, orient);
    assert x - s.lastX == 0.0 && s.lastY - y == 0.0;
    var c2 := LegacyCamera.ProcessMouseMovement(s.camera, 0.0, 0.0, true, orient);
    assert c2.pitch == Clamp(s.camera.pitch + 0.0 * s.camera.mouseSensitivity, -89.0, 89.0);
  }

  /** `scroll_callback`. */
  function ScrollCallback(s: State, yoffset: real): (r: State)
    ensures r == s.(camera := LegacyCamera.ProcessMouseScroll(s.camera, yoffset))
    ensures 1.0 <= r.camera.zoom <= 45.0
  {
    s.(camera := LegacyCamera.ProcessMouseScroll(s.camera, yoffset))
  }

  /**
    The render loop's time update with its two clock reads: game time is
    credited up to `sample`, `realTime` stores `after`; nothing else in the
    loop changes the state.
   */
  function Frame(s: State, sample: real, after: real): (r: State)
    ensures r == s.(clock := r.clock)
    ensures r.clock.deltaTime == (sample - s.clock.realTime) * s.clock.timeScale
    ensures r.clock.gameTime == s.clock.gameTime + r.clock.deltaTime
    ensures r.clock.realTime == after && r.clock.timeScale == s.clock.timeScale
    ensures sample == after ==> r == s.(clock := Tick(s.clock, after))
  {
    s.(clock := TickAsWritten(s.clock, sample, after))
  }

  /**
    Without a clamp the scale reaches zero and below: one Down press from
    the start stops game time, a second one makes it run backwards.
   */
  lemma UnclampedScaleStopsAndReverses(orient: Orient, now: real)
    requires now > 0.0
    ensures var s1 := KeyCallback(Init(orient), KeyDown, Press);
      s1.clock.timeScale == 0.0 && Frame(s1, now, now).clock.deltaTime == 0.0
    ensures var s2 := KeyCallback(KeyCallback(Init(orient), KeyDown, Press), KeyDown, Press);
      s2.clock.timeScale == -1.0 && Frame(s2, now, now).clock.deltaTime < 0.0
  {
    var s2 := KeyCallback(KeyCallback(Init(orient), KeyDown, Press), KeyDown, Press);
    assert Frame(s2, now, now).clock.deltaTime == (now - 0.0) * -1.0;
  }
}
