/**
  The game client's per-frame input rules: how each window event changes the
  camera's pitch, yaw and field of view, the shader program in use, the quit
  flag and the window toggles, and how the held keys set the movement speed.
  Angles and speeds are the client's floats, modelled as reals.
 */
module ClientInput {

  /** The two shader programs the client switches between. */
  datatype ShaderChoice = BasicShading | PhongShading

  /** The keys whose key-down events the client reacts to. */
  datatype Key = F1 | F2 | F4 | Return | Tab | OtherKey

  /** The window events the client's event switch distinguishes. */
  datatype Event =
    | KeyDown(key: Key)
    | MouseButtonDown
    | MouseMotion(xrel: int, yrel: int)
    | MouseWheel(y: int)
    | QuitRequested
    | Resized(width: int, height: int)
    | OtherEvent

  /** The keys held when the movement is computed; the keyboard state is read live, not copied once per frame. */
  datatype Held = Held(lalt: bool, lshift: bool, w: bool, a: bool, s: bool, d: bool)

  /** What the event handling changes: the camera angles, the program, the quit flag and the window modes. */
  datatype Client = Client(
    pitch: real,
    yaw: real,
    fov: real,
    program: ShaderChoice,
    quit: bool,
    fullscreen: bool,
    relativeMouse: bool,
    width: int,
    height: int)

  const MaxPitch: real := 89.0
  const MinFov: real := 1.0
  const MaxFov: real := 90.0

  /** The mouse-motion clamp: a pitch above 89 becomes 89, one below -89 becomes -89. */
  function ClampPitch(pitch: real): (p: real)
    ensures -MaxPitch <= p <= MaxPitch
    ensures -MaxPitch <= pitch <= MaxPitch ==> p == pitch
    ensures pitch > MaxPitch ==> p == MaxPitch
    ensures pitch < -MaxPitch ==> p == -MaxPitch
  {
    var p := if pitch > MaxPitch then MaxPitch else pitch;
    if p < -MaxPitch then -MaxPitch else p
  }

  /** The mouse-wheel rule: the wheel moves the field of view only while it is inside [1, 90];
      the result is then clamped into [1, 90]. */
  function WheelFov(fov: real, wheel: int): (f: real)
    ensures MinFov <= f <= MaxFov
    ensures MinFov <= fov <= MaxFov && MinFov <= fov - wheel as real <= MaxFov ==> f == fov - wheel as real
    ensures MinFov <= fov <= MaxFov && fov - wheel as real <= MinFov ==> f == MinFov
    ensures MinFov <= fov <= MaxFov && fov - wheel as real >= MaxFov ==> f == MaxFov
    ensures !(MinFov <= fov <= MaxFov) ==> f == (if fov <= MinFov then MinFov else MaxFov)
  {
    var f := if MinFov <= fov <= MaxFov then fov - wheel as real else fov;
    var f := if f <= MinFov then MinFov else f;
    if f >= MaxFov then MaxFov else f
  }

  /** Handling one event. */
  function HandleEvent(c: Client, held: Held, e: Event): (c': Client)
    ensures e.MouseMotion? ==> -MaxPitch <= c'.pitch <= MaxPitch
    ensures e.MouseMotion? ==> c'.pitch == ClampPitch(c.pitch - e.yrel as real * 0.1) && c'.yaw == c.yaw + e.xrel as real * 0.1
    ensures e.MouseWheel? ==> MinFov <= c'.fov <= MaxFov
    ensures e.MouseWheel? ==> c'.fov == WheelFov(c.fov, e.y)
    ensures e.Resized? ==> c'.width == e.width && c'.height == e.height
    ensures !e.Resized? ==> c'.width == c.width && c'.height == c.height
    ensures c'.quit <==> c.quit || e.QuitRequested? || (e == KeyDown(F4) && held.lalt)
    ensures c'.program == (if e == KeyDown(F1) then BasicShading else if e == KeyDown(F2) then PhongShading else c.program)
    ensures c'.fullscreen <==> (c.fullscreen != (e == KeyDown(Return) && held.lalt))
    ensures c'.relativeMouse <==> (c.relativeMouse != (e == KeyDown(Tab)))
    ensures !e.MouseMotion? ==> c'.pitch == c.pitch && c'.yaw == c.yaw
    ensures !e.MouseWheel? ==> c'.fov == c.fov
  {
    match e
    case KeyDown(key) => (
      match key
      case F1 => c.(program := BasicShading)
      case F2 => c.(program := PhongShading)
      case F4 => if held.lalt then c.(quit := true) else c
      case Return => if held.lalt then c.(fullscreen := !c.fullscreen) else c
      case Tab => c.(relativeMouse := !c.relativeMouse)
      case OtherKey => c)
    case MouseMotion(xrel, yrel) =>
      c.(pitch := ClampPitch(c.pitch - yrel as real * 0.1), yaw := c.yaw + xrel as real * 0.1)
    case MouseWheel(y) => c.(fov := WheelFov(c.fov, y))
    case QuitRequested => c.(quit := true)
    case Resized(w, h) => c.(width := w, height := h)
    case MouseButtonDown => c
    case OtherEvent => c
  }

  /** The program the last F1 or F2 among `events` selects, or `current` when there is none. */
  function Selected(current: ShaderChoice, events: seq<Event>): ShaderChoice
    decreases |events|
  {
    if |events| == 0 then current
    else if events[|events| - 1] == KeyDown(F1) then BasicShading
    else if events[|events| - 1] == KeyDown(F2) then PhongShading
    else Selected(current, events[..|events| - 1])
  }

  /** Whether `events` asks the client to quit: a quit event, or F4 while left Alt is held. */
  predicate AsksToQuit(held: Held, events: seq<Event>) {
    exists i :: 0 <= i < |events| && (events[i].QuitRequested? || (events[i] == KeyDown(F4) && held.lalt))
  }

  /** The angles the client keeps in range: pitch within [-89, 89], field of view within [1, 90]. */
  predicate InRange(c: Client) {
    -MaxPitch <= c.pitch <= MaxPitch && MinFov <= c.fov <= MaxFov
  }

  /** The toggles undo themselves: Tab twice, or Alt+Return twice, leaves the client as it was. */
  lemma TogglesUndo(c: Client, held: Held, e: Event)
    requires e == KeyDown(Tab) || (e == KeyDown(Return) && held.lalt)
    ensures HandleEvent(HandleEvent(c, held, e), held, e) == c
  {
  }

  /** Every other key, the quit request and a resize set their effect once: handling the event again changes nothing more. */
  lemma SettingsSettle(c: Client, held: Held, e: Event)
    requires (e.KeyDown? && e.key != Tab && !(e.key == Return && held.lalt)) || e.QuitRequested? || e.Resized?
    ensures HandleEvent(HandleEvent(c, held, e), held, e) == HandleEvent(c, held, e)
  {
  }

  /** A mouse motion the clamp does not reach is undone by the opposite motion. */
  lemma MotionUndone(c: Client, held: Held, xrel: int, yrel: int)
    requires -MaxPitch <= c.pitch <= MaxPitch && -MaxPitch <= c.pitch - yrel as real * 0.1 <= MaxPitch
    ensures HandleEvent(HandleEvent(c, held, MouseMotion(xrel, yrel)), held, MouseMotion(-xrel, -yrel)) == c
  {
  }

  /** Inside [1, 90] the wheel zooms monotonically: scrolling further up never widens the view. */
  lemma WheelMonotone(fov: real, wheel: int, wheel': int)
    requires MinFov <= fov <= MaxFov && wheel <= wheel'
    ensures WheelFov(fov, wheel') <= WheelFov(fov, wheel)
  {
  }

  /** A scroll the clamp does not reach is undone by the opposite scroll. */
  lemma WheelUndone(fov: real, wheel: int)
    requires MinFov < fov - wheel as real < MaxFov && MinFov <= fov <= MaxFov
    ensures WheelFov(WheelFov(fov, wheel), -wheel) == fov
  {
  }

  /** Draining the frame's event queue, one event at a time. */
  method HandleEvents(c: Client, held: Held, events: seq<Event>) returns (c': Client)
    ensures c'.program == Selected(c.program, events)
    ensures c'.quit <==> c.quit || AsksToQuit(held, events)
    ensures (exists i :: 0 <= i < |events| && events[i].MouseMotion?) ==> -MaxPitch <= c'.pitch <= MaxPitch
    ensures (exists i :: 0 <= i < |events| && events[i].MouseWheel?) ==> MinFov <= c'.fov <= MaxFov
    ensures InRange(c) ==> InRange(c')
  {
    c' := c;
    var n := 0;
    while n < |events|
      invariant 0 <= n <= |events|
      invariant c'.program == Selected(c.program, events[..n])
      invariant c'.quit <==> c.quit || AsksToQuit(held, events[..n])
      invariant (exists i :: 0 <= i < n && events[i].MouseMotion?) ==> -MaxPitch <= c'.pitch <= MaxPitch
      invariant (exists i :: 0 <= i < n && events[i].MouseWheel?) ==> MinFov <= c'.fov <= MaxFov
      invariant InRange(c) ==> InRange(c')
    {
      assert events[..n + 1][..n] == events[..n];
      c' := HandleEvent(c', held, events[n]);
      n := n + 1;
      assert AsksToQuit(held, events[..n]) <==> AsksToQuit(held, events[..n - 1]) || AsksToQuit(held, [events[n - 1]]) by {
        QuitSplit(held, events[..n - 1], events[n - 1]);
        assert events[..n - 1] + [events[n - 1]] == events[..n];
      }
    }
    assert events[..n] == events;
  }

  lemma QuitSplit(held: Held, events: seq<Event>, e: Event)
    ensures AsksToQuit(held, events + [e]) <==> AsksToQuit(held, events) || AsksToQuit(held, [e])
  {
    var all := events + [e];
    if AsksToQuit(held, events) {
      var i :| 0 <= i < |events| && (events[i].QuitRequested? || (events[i] == KeyDown(F4) && held.lalt));
      assert all[i] == events[i];
    }
    if AsksToQuit(held, [e]) {
      assert all[|events|] == e;
    }
  }

  /** The movement speed for a frame lasting `delta` seconds: 5 per second, doubled while left Shift is held,
      and scaled by 0.71 when moving diagonally — W with D, W with A, S with D or S with A. */
  function Speed(delta: real, held: Held): (speed: real)
    ensures delta >= 0.0 ==> speed >= 0.0
  {
    var speed := 5.0 * delta;
    var speed := if held.lshift then speed * 2.0 else speed;
    if (held.w && held.d) || (held.w && held.a) || (held.s && held.d) || (held.s && held.a) then speed * 0.71 else speed
  }

  /** Moving diagonally: a forward-or-back key together with a sideways key. */
  predicate Diagonal(held: Held) {
    (held.w || held.s) && (held.a || held.d)
  }

  /** The speed is the base speed times the Shift factor times the diagonal factor; in particular the
      diagonal factor applies exactly when a forward-or-back key is held with a sideways key. */
  lemma SpeedFactors(delta: real, held: Held)
    ensures Speed(delta, held) == 5.0 * delta * (if held.lshift then 2.0 else 1.0) * (if Diagonal(held) then 0.71 else 1.0)
  {
  }

  /** The frame's displacement in the camera's own frame: forward along the view direction and sideways
      along its right-hand side, W and S and D and A each adding or removing one speed. */
  function Displacement(speed: real, held: Held): (m: (real, real))
    ensures held.w == held.s ==> m.0 == 0.0
    ensures held.a == held.d ==> m.1 == 0.0
    ensures held.w && !held.s ==> m.0 == speed
    ensures held.s && !held.w ==> m.0 == -speed
    ensures held.d && !held.a ==> m.1 == speed
    ensures held.a && !held.d ==> m.1 == -speed
  {
    var forward := (if held.w then speed else 0.0) + (if held.s then -speed else 0.0);
    var sideways := (if held.a then -speed else 0.0) + (if held.d then speed else 0.0);
    (forward, sideways)
  }

  /** The keys held with each opposite pair swapped: W with S, A with D. */
  function Mirrored(held: Held): Held {
    held.(w := held.s, s := held.w, a := held.d, d := held.a)
  }

  /** Swapping W with S and A with D keeps the speed and reverses the displacement. */
  lemma MirroredMovesBack(delta: real, held: Held)
    ensures Speed(delta, Mirrored(held)) == Speed(delta, held)
    ensures var speed := Speed(delta, held);
      Displacement(speed, Mirrored(held)) == (-Displacement(speed, held).0, -Displacement(speed, held).1)
  {
    SpeedFactors(delta, held);
    SpeedFactors(delta, Mirrored(held));
  }

  /** Holding Shift doubles the distance covered, whatever else is held. */
  lemma ShiftDoubles(delta: real, held: Held)
    ensures Speed(delta, held.(lshift := true)) == 2.0 * Speed(delta, held.(lshift := false))
  {
    SpeedFactors(delta, held.(lshift := true));
    SpeedFactors(delta, held.(lshift := false));
  }
}
