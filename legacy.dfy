/** `FirstPerson`: the older version of the first-person controller, whose
    state lives in the object's own fields. It differs from `FirstPersonController`
    in three ways: latitude is clamped to [-85, 85], the vertical pointer offset
    is always taken, and `moveLeft`/`moveRight` are never initialised, so they
    start out `undefined`. */
module Legacy {
  import opened Js
  import opened Input
  import opened Scene
  import opened Orientation

  /** Latitude bound, in degrees. */
  const Bound: real := 85.0

  /** Default of `moveSpeed` and of `distance`. */
  const DefaultSpeed: real := 1000.0

  /** The optional fields of the constructor's argument object (apart from the camera). */
  datatype Args = Args(moveSpeed: Value<real>, distance: Value<real>)

  /** Configuration fixed at construction; `viewHalfX` and `viewHalfY` are half
      the window's size, read once. */
  datatype Config = Config(moveSpeed: real, distance: real, viewHalfX: real, viewHalfY: real)

  datatype State = State(intents: Intents, mouseX: real, mouseY: real, latitude: real, longitude: real)

  /** What handling one or more events does: the state it leaves and the camera calls it issues. */
  datatype Outcome = Outcome(state: State, calls: seq<Translation>)

  /** `moveSpeed` and `distance` fall back to 1000 when missing and also when
      given as 0; any other value is kept, and neither can end up 0. */
  function Configure(args: Args, viewHalfX: real, viewHalfY: real): (c: Config)
    ensures !TruthyNumber(args.moveSpeed) ==> c.moveSpeed == DefaultSpeed
    ensures TruthyNumber(args.moveSpeed) ==> c.moveSpeed == args.moveSpeed.value
    ensures !TruthyNumber(args.distance) ==> c.distance == DefaultSpeed
    ensures TruthyNumber(args.distance) ==> c.distance == args.distance.value
    ensures c.moveSpeed != 0.0 && c.distance != 0.0
  {
    Config(Or(args.moveSpeed, DefaultSpeed), Or(args.distance, DefaultSpeed), viewHalfX, viewHalfY)
  }

  /** The state right after construction: forward and backward off, left and
      right never assigned, pointer at the centre, looking level. */
  function Initial(): State
  {
    var off := Defined(false);
    State(Intents(off, off, Undefined, Undefined), 0.0, 0.0, 0.0, 0.0)
  }

  /** How far one `update(delta)` moves along an axis for a held flag. */
  function MoveDelta(c: Config, delta: real): real
  {
    c.moveSpeed * delta
  }

  /** `update(delta)`: the translations it issues and the state it leaves. */
  function Updated(c: Config, s: State, delta: real): (r: Outcome)
    ensures r.calls == Moves(Truthy(s.intents.forward), Truthy(s.intents.backward),
                             Truthy(s.intents.left), Truthy(s.intents.right), MoveDelta(c, delta))
    ensures r.state.intents == s.intents && r.state.mouseX == s.mouseX && r.state.mouseY == s.mouseY
    ensures r.state.longitude - s.longitude == s.mouseX * delta * LookSpeed
    ensures r.state.latitude == Clamp(s.latitude - s.mouseY * delta * LookSpeed, Bound)
    ensures -Bound <= r.state.latitude <= Bound
  {
    var moveDelta := MoveDelta(c, delta);
    var i := s.intents;
    var a := Turn(Angles(s.latitude, s.longitude), s.mouseX, s.mouseY, delta, Bound);
    Outcome(s.(latitude := a.latitude, longitude := a.longitude),
            Moves(Truthy(i.forward), Truthy(i.backward), Truthy(i.left), Truthy(i.right), moveDelta))
  }

  /** One event: its effect on the state and the translations it issues. */
  function Step(c: Config, s: State, e: Event): (r: Outcome)
    ensures !e.Tick? ==> r.calls == [] && r.state.latitude == s.latitude && r.state.longitude == s.longitude
    ensures !e.MouseMove? ==> r.state.mouseX == s.mouseX && r.state.mouseY == s.mouseY
    ensures e.MouseMove? ==> r.state.intents == s.intents
                             && r.state.mouseX == e.pageX - c.viewHalfX
                             && r.state.mouseY == e.pageY - c.viewHalfY
    ensures e.MouseDown? ==> r == Outcome(s.(intents := Button(s.intents, e.button, true)), [])
    ensures e.MouseUp? ==> r == Outcome(s.(intents := Button(s.intents, e.button, false)), [])
    ensures e.KeyDown? ==> r == Outcome(s.(intents := Assign(s.intents, e.key, true)), [])
    ensures e.KeyUp? ==> r == Outcome(s.(intents := Assign(s.intents, e.key, false)), [])
    ensures e.Tick? ==> r == Updated(c, s, e.delta)
    ensures -Bound <= s.latitude <= Bound ==> -Bound <= r.state.latitude <= Bound
  {
    match e
    case MouseDown(button) => Outcome(s.(intents := Button(s.intents, button, true)), [])
    case MouseUp(button) => Outcome(s.(intents := Button(s.intents, button, false)), [])
    case MouseMove(pageX, pageY) => Outcome(s.(mouseX := pageX - c.viewHalfX, mouseY := pageY - c.viewHalfY), [])
    case KeyDown(k) => Outcome(s.(intents := Assign(s.intents, k, true)), [])
    case KeyUp(k) => Outcome(s.(intents := Assign(s.intents, k, false)), [])
    case Tick(delta) => Updated(c, s, delta)
  }

  /** A sequence of events, in order: the final state and every translation issued. */
  function Run(c: Config, s: State, events: seq<Event>): (r: Outcome)
    decreases |events|
  {
    if events == [] then Outcome(s, [])
    else
      var first := Step(c, s, events[0]);
      var rest := Run(c, first.state, events[1..]);
      Outcome(rest.state, first.calls + rest.calls)
  }

  /** Latitude never leaves [-85, 85], whatever events arrive. */
  lemma {:induction false} RunKeepsLatitudeInRange(c: Config, s: State, events: seq<Event>)
    requires -Bound <= s.latitude <= Bound
    ensures -Bound <= Run(c, s, events).state.latitude <= Bound
    decreases |events|
  {
    if events != [] {
      RunKeepsLatitudeInRange(c, Step(c, s, events[0]).state, events[1..]);
    }
  }

  /** `undefined` side flags are falsy: until the Left or Right key is pressed,
      `update` issues no `translateX` call, whatever else happens. */
  lemma {:induction false} NoStrafeWithoutSideKeys(c: Config, s: State, events: seq<Event>)
    requires !Truthy(s.intents.left) && !Truthy(s.intents.right)
    requires forall j :: 0 <= j < |events| ==> events[j] != KeyDown(Left) && events[j] != KeyDown(Right)
    ensures forall t :: t in Run(c, s, events).calls ==> t.axis == Z
    ensures !Truthy(Run(c, s, events).state.intents.left) && !Truthy(Run(c, s, events).state.intents.right)
    decreases |events|
  {
    if events != [] {
      var e := events[0];
      var next := Step(c, s, e).state;
      match e {
        case KeyDown(k) => SideFlagsOnlyFromSideKeys(s.intents, k, true);
        case KeyUp(k) => SideFlagsOnlyFromSideKeys(s.intents, k, false);
        case _ =>
      }
      NoStrafeWithoutSideKeys(c, next, events[1..]);
    }
  }

  /** A freshly constructed controller issues no translation before the Left or
      Right key is pressed. */
  lemma InitialNeverStrafes(c: Config, events: seq<Event>)
    requires forall j :: 0 <= j < |events| ==> events[j] != KeyDown(Left) && events[j] != KeyDown(Right)
    ensures forall t :: t in Run(c, Initial(), events).calls ==> t.axis == Z
  {
    NoStrafeWithoutSideKeys(c, Initial(), events);
  }

  /** The older controller over one camera. */
  class FirstPerson {
    const camera: Camera
    const moveSpeed: real
    const distance: real
    const viewHalfX: real
    const viewHalfY: real
    const lookSpeed: real := 0.01

    var moveForward: bool
    var moveBackward: bool
    var moveLeft: Value<bool>
    var moveRight: Value<bool>
    var mouseX: real
    var mouseY: real
    var latitude: real
    var longitude: real

    function Settings(): Config
    {
      Config(moveSpeed, distance, viewHalfX, viewHalfY)
    }

    function Snapshot(): State
      reads this
    {
      State(Intents(Defined(moveForward), Defined(moveBackward), moveLeft, moveRight),
            mouseX, mouseY, latitude, longitude)
    }

    constructor (camera: Camera, args: Args, viewHalfX: real, viewHalfY: real)
      ensures this.camera == camera
      ensures Settings() == Configure(args, viewHalfX, viewHalfY)
      ensures Snapshot() == Initial()
    {
      this.camera := camera;
      moveSpeed := Or(args.moveSpeed, 1000.0);
      distance := Or(args.distance, 1000.0);
      this.viewHalfX := viewHalfX;
      this.viewHalfY := viewHalfY;
      moveForward, moveBackward := false, false;
      moveLeft, moveRight := Undefined, Undefined;
      mouseX, mouseY := 0.0, 0.0;
      latitude, longitude := 0.0, 0.0;
    }

    method Update(delta: real)
      modifies this`latitude, this`longitude, camera
      ensures Snapshot() == Updated(Settings(), old(Snapshot()), delta).state
      ensures camera.log == old(camera.log) + Updated(Settings(), old(Snapshot()), delta).calls
      ensures -Bound <= latitude <= Bound
    {
      var moveDelta := moveSpeed * delta;
      ghost var expected := Updated(Settings(), Snapshot(), delta);
      ghost var log0 := camera.log;
      assert moveDelta == MoveDelta(Settings(), delta);
      assert expected.calls == Moves(moveForward, moveBackward, Truthy(moveLeft), Truthy(moveRight), moveDelta);

      if moveForward { camera.TranslateZ(-moveDelta); }
      ghost var issued := When(moveForward, Translation(Z, -moveDelta));
      ghost var before := camera.log;
      assert before == log0 + issued;
      if moveBackward { camera.TranslateZ(moveDelta); }
      Issue(log0, issued, before, camera.log, moveBackward, Translation(Z, moveDelta));
      issued, before := issued + When(moveBackward, Translation(Z, moveDelta)), camera.log;
      if Truthy(moveLeft) { camera.TranslateX(-moveDelta); }
      Issue(log0, issued, before, camera.log, Truthy(moveLeft), Translation(X, -moveDelta));
      issued, before := issued + When(Truthy(moveLeft), Translation(X, -moveDelta)), camera.log;
      if Truthy(moveRight) { camera.TranslateX(moveDelta); }
      Issue(log0, issued, before, camera.log, Truthy(moveRight), Translation(X, moveDelta));
      issued := issued + When(Truthy(moveRight), Translation(X, moveDelta));
      assert issued == expected.calls;
      assert camera.log == log0 + expected.calls;

      var lookDelta := delta * lookSpeed;
      longitude := longitude + mouseX * lookDelta;
      latitude := latitude - mouseY * lookDelta;
      latitude := Max(-85.0, Min(85.0, latitude));
      assert latitude == expected.state.latitude && longitude == expected.state.longitude;
    }

    method OnMouseDown(button: int)
      modifies this`moveForward, this`moveBackward
      ensures Snapshot() == Step(Settings(), old(Snapshot()), MouseDown(button)).state
    {
      if button == 0 {
        moveForward := true;
      } else if button == 2 {
        moveBackward := true;
      }
    }

    method OnMouseUp(button: int)
      modifies this`moveForward, this`moveBackward
      ensures Snapshot() == Step(Settings(), old(Snapshot()), MouseUp(button)).state
    {
      if button == 0 {
        moveForward := false;
      } else if button == 2 {
        moveBackward := false;
      }
    }

    method OnMouseMove(pageX: real, pageY: real)
      modifies this`mouseX, this`mouseY
      ensures Snapshot() == Step(Settings(), old(Snapshot()), MouseMove(pageX, pageY)).state
    {
      mouseX := pageX - viewHalfX;
      mouseY := pageY - viewHalfY;
    }

    method OnKeyDown(key: Key)
      modifies this`moveForward, this`moveBackward, this`moveLeft, this`moveRight
      ensures Snapshot() == Step(Settings(), old(Snapshot()), KeyDown(key)).state
    {
      match key
      case Up => moveForward := true;
      case Down => moveBackward := true;
      case Left => moveLeft := Defined(true);
      case Right => moveRight := Defined(true);
      case Other =>
    }

    method OnKeyUp(key: Key)
      modifies this`moveForward, this`moveBackward, this`moveLeft, this`moveRight
      ensures Snapshot() == Step(Settings(), old(Snapshot()), KeyUp(key)).state
    {
      match key
      case Up => moveForward := false;
      case Down => moveBackward := false;
      case Left => moveLeft := Defined(false);
      case Right => moveRight := Defined(false);
      case Other =>
    }
  }
}
