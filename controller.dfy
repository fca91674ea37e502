/** `FirstPersonController`: the first-person camera controller whose state
    lives in closure variables. Latitude is clamped to [-90, 90] and the
    vertical pointer offset is only taken when `enableVertical` is truthy. */
module Controller {
  import opened Js
  import opened Input
  import opened Scene
  import opened Orientation

  /** Latitude bound, in degrees. */
  const Bound: real := 90.0

  /** Default of `moveSpeed` and of `distance`. */
  const DefaultSpeed: real := 1000.0

  /** The optional fields of the constructor's argument object (apart from the camera). */
  datatype Args = Args(moveSpeed: Value<real>, distance: Value<real>, enableVertical: Value<bool>)

  /** Configuration fixed at construction; `viewHalfX` and `viewHalfY` are half
      the window's size, read once. */
  datatype Config = Config(moveSpeed: real, distance: real, enableVertical: Value<bool>, viewHalfX: real, viewHalfY: real)

  datatype State = State(intents: Intents, mouseX: real, mouseY: real, latitude: real, longitude: real)

  /** What handling one or more events does: the state it leaves and the camera calls it issues. */
  datatype Outcome = Outcome(state: State, calls: seq<Translation>)

  /** `moveSpeed` and `distance` fall back to 1000 when missing and also when
      given as 0; any other value is kept, and neither can end up 0. */
  function Configure(args: Args, viewHalfX: real, viewHalfY: real): (c: Config)
    ensures !TruthyNumber(args.moveSpeed) ==> c.moveSpeed == DefaultSpeed
    ensures TruthyNumber(args.moveSpeed) ==> c.moveSpeed == args.moveSpeed.value
    ensures !TruthyNumber(args.distance) ==> c.distance == DefaultSpeed
    ensures TruthyNumber(args.distance) ==> c.distance == args.distance.value
    ensures c.moveSpeed != 0.0 && c.distance != 0.0
    ensures c.enableVertical == args.enableVertical
  {
    Config(Or(args.moveSpeed, DefaultSpeed), Or(args.distance, DefaultSpeed), args.enableVertical, viewHalfX, viewHalfY)
  }

  /** The state right after construction: no intent, pointer at the centre, looking level. */
  function Initial(): State
  {
    var off := Defined(false);
    State(Intents(off, off, off, off), 0.0, 0.0, 0.0, 0.0)
  }

  /** How far one `update(delta)` moves along an axis for a held flag. */
  function MoveDelta(c: Config, delta: real): real
  {
    delta * c.moveSpeed
  }

  /** `update(delta)`: the translations it issues and the state it leaves. */
  function Updated(c: Config, s: State, delta: real): (r: Outcome)
    ensures r.calls == Moves(Truthy(s.intents.forward), Truthy(s.intents.backward),
                         Truthy(s.intents.left), Truthy(s.intents.right), MoveDelta(c, delta))
    ensures r.state.intents == s.intents && r.state.mouseX == s.mouseX && r.state.mouseY == s.mouseY
    ensures r.state.longitude - s.longitude == s.mouseX * delta * LookSpeed
    ensures r.state.latitude == Clamp(s.latitude - s.mouseY * delta * LookSpeed, Bound)
    ensures -Bound <= r.state.latitude <= Bound
  {
    var moveDelta := MoveDelta(c, delta);
    var i := s.intents;
    var a := Turn(Angles(s.latitude, s.longitude), s.mouseX, s.mouseY, delta, Bound);
    Outcome(s.(latitude := a.latitude, longitude := a.longitude),
            Moves(Truthy(i.forward), Truthy(i.backward), Truthy(i.left), Truthy(i.right), moveDelta))
  }

  /** One event: its effect on the state and the translations it issues. */
  function Step(c: Config, s: State, e: Event): (r: Outcome)
    ensures !e.Tick? ==> r.calls == [] && r.state.latitude == s.latitude && r.state.longitude == s.longitude
    ensures !e.MouseMove? ==> r.state.mouseX == s.mouseX && r.state.mouseY == s.mouseY
    ensures e.MouseMove? ==> r.state.intents == s.intents && r.state.mouseX == e.pageX - c.viewHalfX
    ensures e.MouseMove? && !Truthy(c.enableVertical) ==> r.state.mouseY == s.mouseY
    ensures e.MouseMove? && Truthy(c.enableVertical) ==> r.state.mouseY == e.pageY - c.viewHalfY
    ensures e.MouseDown? ==> r == Outcome(s.(intents := Button(s.intents, e.button, true)), [])
    ensures e.MouseUp? ==> r == Outcome(s.(intents := Button(s.intents, e.button, false)), [])
    ensures e.KeyDown? ==> r == Outcome(s.(intents := Assign(s.intents, e.key, true)), [])
    ensures e.KeyUp? ==> r == Outcome(s.(intents := Assign(s.intents, e.key, false)), [])
    ensures e.Tick? ==> r == Updated(c, s, e.delta)
    ensures -Bound <= s.latitude <= Bound ==> -Bound <= r.state.latitude <= Bound
  {
    match e
    case MouseDown(button) => Outcome(s.(intents := Button(s.intents, button, true)), [])
    case MouseUp(button) => Outcome(s.(intents := Button(s.intents, button, false)), [])
    case MouseMove(pageX, pageY) =>
      var mouseY := if Truthy(c.enableVertical) then pageY - c.viewHalfY else s.mouseY;
      Outcome(s.(mouseX := pageX - c.viewHalfX, mouseY := mouseY), [])
    case KeyDown(k) => Outcome(s.(intents := Assign(s.intents, k, true)), [])
    case KeyUp(k) => Outcome(s.(intents := Assign(s.intents, k, false)), [])
    case Tick(delta) => Updated(c, s, delta)
  }

  /** A sequence of events, in order: the final state and every translation issued. */
  function Run(c: Config, s: State, events: seq<Event>): (r: Outcome)
    decreases |events|
  {
    if events == [] then Outcome(s, [])
    else
      var first := Step(c, s, events[0]);
      var rest := Run(c, first.state, events[1..]);
      Outcome(rest.state, first.calls + rest.calls)
  }

  /** Latitude never leaves [-90, 90], whatever events arrive. */
  lemma {:induction false} RunKeepsLatitudeInRange(c: Config, s: State, events: seq<Event>)
    requires -Bound <= s.latitude <= Bound
    ensures -Bound <= Run(c, s, events).state.latitude <= Bound
    decreases |events|
  {
    if events != [] {
      RunKeepsLatitudeInRange(c, Step(c, s, events[0]).state, events[1..]);
    }
  }

  /** With `enableVertical` not truthy, a controller that starts level stays
      level: `mouseY` stays 0 and so does `latitude`, whatever events arrive. */
  lemma {:induction false} RunStaysLevelWithoutVertical(c: Config, s: State, events: seq<Event>)
    requires !Truthy(c.enableVertical)
    requires s.mouseY == 0.0 && s.latitude == 0.0
    ensures Run(c, s, events).state.mouseY == 0.0 && Run(c, s, events).state.latitude == 0.0
    decreases |events|
  {
    if events != [] {
      var next := Step(c, s, events[0]).state;
      if events[0].Tick? {
        assert next.latitude == Clamp(0.0 - 0.0 * (events[0].delta * LookSpeed), Bound);
      }
      RunStaysLevelWithoutVertical(c, next, events[1..]);
    }
  }

  /** Holding Up and pressing nothing else, with the default speed, `update(0.5)`
      issues a single `translateZ(-500)` and, the pointer being centred, does not turn. */
  lemma ForwardHalfSecond(vx: real, vy: real)
    ensures var c := Configure(Args(Undefined, Undefined, Undefined), vx, vy);
            var s := Step(c, Initial(), KeyDown(Up)).state;
            Updated(c, s, 0.5).calls == [Translation(Z, -500.0)]
            && Updated(c, s, 0.5).state.latitude == 0.0 && Updated(c, s, 0.5).state.longitude == 0.0
  {
  }

  /** A controller over one camera. */
  class FirstPersonController {
    const camera: Camera
    const moveSpeed: real
    const distance: real
    const enableVertical: Value<bool>
    const viewHalfX: real
    const viewHalfY: real
    const lookSpeed: real := 0.01

    var moveForward: bool
    var moveBackward: bool
    var moveLeft: bool
    var moveRight: bool
    var mouseX: real
    var mouseY: real
    var latitude: real
    var longitude: real

    function Settings(): Config
    {
      Config(moveSpeed, distance, enableVertical, viewHalfX, viewHalfY)
    }

    function Snapshot(): State
      reads this
    {
      State(Intents(Defined(moveForward), Defined(moveBackward), Defined(moveLeft), Defined(moveRight)),
            mouseX, mouseY, latitude, longitude)
    }

    constructor (camera: Camera, args: Args, viewHalfX: real, viewHalfY: real)
      ensures this.camera == camera
      ensures Settings() == Configure(args, viewHalfX, viewHalfY)
      ensures Snapshot() == Initial()
    {
      this.camera := camera;
      moveSpeed := Or(args.moveSpeed, 1000.0);
      distance := Or(args.distance, 1000.0);
      enableVertical := args.enableVertical;
      this.viewHalfX := viewHalfX;
      this.viewHalfY := viewHalfY;
      moveForward, moveBackward, moveLeft, moveRight := false, false, false, false;
      mouseX, mouseY := 0.0, 0.0;
      latitude, longitude := 0.0, 0.0;
    }

    method Update(delta: real)
      modifies this`latitude, this`longitude, camera
      ensures Snapshot() == Updated(Settings(), old(Snapshot()), delta).state
      ensures camera.log == old(camera.log) + Updated(Settings(), old(Snapshot()), delta).calls
      ensures -Bound <= latitude <= Bound
    {
      var moveDelta := delta * moveSpeed;
      var lookDelta := delta * lookSpeed;
      ghost var expected := Updated(Settings(), Snapshot(), delta);
      ghost var log0 := camera.log;
      assert moveDelta == MoveDelta(Settings(), delta);
      assert expected.calls == Moves(moveForward, moveBackward, moveLeft, moveRight, moveDelta);

      if moveForward { camera.TranslateZ(-moveDelta); }
      ghost var issued := When(moveForward, Translation(Z, -moveDelta));
      ghost var before := camera.log;
      assert before == log0 + issued;
      if moveBackward { camera.TranslateZ(moveDelta); }
      Issue(log0, issued, before, camera.log, moveBackward, Translation(Z, moveDelta));
      issued, before := issued + When(moveBackward, Translation(Z, moveDelta)), camera.log;
      if moveLeft { camera.TranslateX(-moveDelta); }
      Issue(log0, issued, before, camera.log, moveLeft, Translation(X, -moveDelta));
      issued, before := issued + When(moveLeft, Translation(X, -moveDelta)), camera.log;
      if moveRight { camera.TranslateX(moveDelta); }
      Issue(log0, issued, before, camera.log, moveRight, Translation(X, moveDelta));
      issued := issued + When(moveRight, Translation(X, moveDelta));
      assert issued == expected.calls;
      assert camera.log == log0 + expected.calls;

      longitude := longitude + mouseX * lookDelta;
      latitude := latitude - mouseY * lookDelta;
      latitude := Max(-90.0, Min(90.0, latitude));
      assert latitude == expected.state.latitude && longitude == expected.state.longitude;
    }

    method OnMouseDown(button: int)
      modifies this`moveForward, this`moveBackward
      ensures Snapshot() == Step(Settings(), old(Snapshot()), MouseDown(button)).state
    {
      if button == 0 {
        moveForward := true;
      } else if button == 2 {
        moveBackward := true;
      }
    }

    method OnMouseUp(button: int)
      modifies this`moveForward, this`moveBackward
      ensures Snapshot() == Step(Settings(), old(Snapshot()), MouseUp(button)).state
    {
      if button == 0 {
        moveForward := false;
      } else if button == 2 {
        moveBackward := false;
      }
    }

    method OnMouseMove(pageX: real, pageY: real)
      modifies this`mouseX, this`mouseY
      ensures Snapshot() == Step(Settings(), old(Snapshot()), MouseMove(pageX, pageY)).state
    {
      mouseX := pageX - viewHalfX;
      if Truthy(enableVertical) {
        mouseY := pageY - viewHalfY;
      }
    }

    method OnKeyDown(key: Key)
      modifies this`moveForward, this`moveBackward, this`moveLeft, this`moveRight
      ensures Snapshot() == Step(Settings(), old(Snapshot()), KeyDown(key)).state
    {
      match key
      case Up => moveForward := true;
      case Down => moveBackward := true;
      case Left => moveLeft := true;
      case Right => moveRight := true;
      case Other =>
    }

    method OnKeyUp(key: Key)
      modifies this`moveForward, this`moveBackward, this`moveLeft, this`moveRight
      ensures Snapshot() == Step(Settings(), old(Snapshot()), KeyUp(key)).state
    {
      match key
      case Up => moveForward := false;
      case Down => moveBackward := false;
      case Left => moveLeft := false;
      case Right => moveRight := false;
      case Other =>
    }
  }
}
