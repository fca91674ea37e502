# First-person camera controllers

This project models the two first-person camera controllers of the three.js
examples repository (r7kamura/threejs-examples). Both versions turn pointer
and keyboard events into movement intents and look angles. On every frame,
`update(delta)` translates the camera along its own Z axis (forward and
backward) and X axis (strafing left and right). It also turns the view by the
pointer's offset from the window centre.

- `FirstPersonController` (module `Controller`) keeps its state in closure
  variables. It takes the vertical pointer offset only when `enableVertical`
  is truthy, and it clamps latitude to [-90, 90].
- `FirstPerson` (module `Legacy`) keeps its state in public object fields. It
  always takes the vertical offset and clamps latitude to [-85, 85]. It never
  initialises `moveLeft`/`moveRight`, so they start out `undefined`.

Layout:

- `js.dfy` (`Js`): the slice of JavaScript value semantics the controllers
  rely on. This is the `undefined` value, truthiness, and the `a || b`
  default.
- `input.dfy` (`Input`): events, keys, and the four movement intents, with
  the intent updates shared by both versions.
- `scene.dfy` (`Scene`): the camera, as a sink that records the
  `translateZ`/`translateX` calls it gets. It also holds `Moves`, the calls
  one frame issues, and `Net`, their per-axis sum.
- `orientation.dfy` (`Orientation`): the look-angle step (`Turn`) and the
  latitude clamp.
- `controller.dfy` (`Controller`) and `legacy.dfy` (`Legacy`): each version
  as a class whose fields are those of the source.
  - Each event handler is a method. Its `ensures` ties the object's new
    state (`Snapshot()`) to a pure reducer `Step` over a `State` value.
  - `update` is a method whose `ensures` ties the new state to
    `Updated(...).state` and the camera's call log to `Updated(...).calls`.
    `Updated` is also what `Step` does for a frame (`Tick`).
  - `Run` folds `Step` over a sequence of events. The lemmas about `Run`
    state what holds whatever sequence of events arrives.

The header comments of both files (FirstPersonController.js lines 7-10,
FirstPerson.js lines 9-12) say that the arrow keys rotate or turn the view.
The key handlers instead set the movement flags, which `update` turns into
translations. The model follows the handlers.

Other facts about the code that the model keeps:

- The two controllers are separate and differ in their latitude bound (90
  and 85).
- Any truthy `moveSpeed` is accepted, negative values included. Only a
  missing or zero value falls back to 1000.
- The four translations are issued in a fixed order (forward, backward,
  left, right). Opposite flags held together cancel.

## Model

| member | source | states |
|---|---|---|
| Js.Or | first_person/js/FirstPersonController.js:36-37 | the JavaScript `or` default on a number: the argument when truthy, the fallback when undefined or 0; with a non-zero fallback the result is never 0 |
| Input.Assign | first_person/js/FirstPersonController.js:108-124 | a key event sets exactly the flag its key names to the given value, leaves the other three flags alone, and an unrecognised key changes nothing |
| Input.Button | first_person/js/FirstPersonController.js:77-97 | button 0 drives the forward flag, button 2 the backward flag, any other button changes nothing, and buttons never touch the side flags |
| Input.ReleaseAfterPress | first_person/js/FirstPersonController.js:108-124 | key-down then key-up of the same key leaves the same intents as the key-up alone: a press leaves no trace once released |
| Input.DistinctKeysCommute | first_person/js/FirstPersonController.js:108-124 | events on two different keys give the same intents in either order |
| Input.SideFlagsOnlyFromSideKeys | first_person/js/FirstPerson.js:92-108 | a side flag can only become truthy through a key-down of that side's key |
| Scene.Camera.constructor | first_person/js/FirstPersonController.js:35 | a camera handle starts with no recorded translation |
| Scene.Camera.TranslateZ | first_person/js/FirstPersonController.js:61-62 | a `translateZ` call is appended to the camera's log |
| Scene.Camera.TranslateX | first_person/js/FirstPersonController.js:63-64 | a `translateX` call is appended to the camera's log |
| Scene.Moves | first_person/js/FirstPersonController.js:61-64 | one frame issues one call per truthy flag, in the order forward, backward, left, right, each with its sign; without side flags every call is on Z, without forward/backward every call is on X |
| Scene.NetAppend | first_person/js/FirstPersonController.js:61-64 | the per-axis displacement of two call logs in sequence is the sum of their displacements |
| Scene.MovesNet | first_person/js/FirstPersonController.js:61-64 | a frame moves by +d/-d per held flag on its axis, so forward and backward held together cancel (likewise left and right) |
| Orientation.Clamp | first_person/js/FirstPersonController.js:68 | the result is within [-bound, bound], is the input when the input is inside, and is the nearer bound otherwise |
| Orientation.Turn | first_person/js/FirstPersonController.js:66-68 | longitude moves by exactly `mouseX * delta * 0.01` and is never clamped; latitude becomes the clamp of `latitude - mouseY * delta * 0.01` |
| Orientation.LongitudeAdditive | first_person/js/FirstPersonController.js:66 | two frames of `d1` and `d2` turn the longitude as far as one frame of `d1 + d2` |
| Orientation.ZeroDeltaKeepsAngles | first_person/js/FirstPersonController.js:66-68 | a frame of length 0 leaves in-range angles unchanged |
| Orientation.ClampIdempotent | first_person/js/FirstPersonController.js:68 | clamping an already clamped latitude changes nothing |
| Controller.Configure | first_person/js/FirstPersonController.js:36-38 | `moveSpeed` and `distance` default to 1000 when missing or 0 and are kept otherwise; neither can be 0; `enableVertical` is kept as given |
| Controller.Updated | first_person/js/FirstPersonController.js:57-68 | `update(delta)` issues `Moves` of the truthy flags by `delta * moveSpeed`, keeps intents and pointer offset, advances longitude by `mouseX * delta * 0.01`, and sets latitude to the clamp of `latitude - mouseY * delta * 0.01` to [-90, 90] |
| Controller.Step | first_person/js/FirstPersonController.js:57-124 | a button event updates the intents as `Button` does, a key event as `Assign` does, and a frame does what `Updated` does; only a frame issues translations or turns; only a pointer move changes the pointer offset, and `mouseY` follows the pointer only when `enableVertical` is truthy; the latitude range is preserved |
| Controller.RunKeepsLatitudeInRange | first_person/js/FirstPersonController.js:66-68 | latitude stays within [-90, 90] over any sequence of events |
| Controller.RunStaysLevelWithoutVertical | first_person/js/FirstPersonController.js:99-106 | without `enableVertical`, a level controller with a centred vertical offset stays level over any sequence of events |
| Controller.ForwardHalfSecond | first_person/js/FirstPersonController.js:58-64 | with default speed and Up held, `update(0.5)` issues exactly one `translateZ(-500)` and does not turn |
| Controller.FirstPersonController.constructor | first_person/js/FirstPersonController.js:34-52 | the object's settings are `Configure(args)` and its state is the initial one: flags false, pointer centred, angles 0 |
| Controller.FirstPersonController.Update | first_person/js/FirstPersonController.js:57-68 | the new state is `Updated(...).state`, the camera receives exactly `Updated(...).calls` in order, and latitude is within [-90, 90] |
| Controller.FirstPersonController.OnMouseDown | first_person/js/FirstPersonController.js:77-86 | the new state is `Step` of a button press |
| Controller.FirstPersonController.OnMouseUp | first_person/js/FirstPersonController.js:88-97 | the new state is `Step` of a button release |
| Controller.FirstPersonController.OnMouseMove | first_person/js/FirstPersonController.js:99-106 | the new state is `Step` of a pointer move |
| Controller.FirstPersonController.OnKeyDown | first_person/js/FirstPersonController.js:108-115 | the new state is `Step` of a key press |
| Controller.FirstPersonController.OnKeyUp | first_person/js/FirstPersonController.js:117-124 | the new state is `Step` of a key release |
| Legacy.Configure | first_person/js/FirstPerson.js:17-19 | `moveSpeed` and `distance` default to 1000 when missing or 0 and are kept otherwise; neither can be 0 |
| Legacy.Updated | first_person/js/FirstPerson.js:35-46 | `update(delta)` issues `Moves` of the truthy flags by `moveSpeed * delta`, keeps intents and pointer offset, advances longitude by `mouseX * delta * 0.01`, and sets latitude to the clamp of `latitude - mouseY * delta * 0.01` to [-85, 85] |
| Legacy.Step | first_person/js/FirstPerson.js:35-108 | a button event updates the intents as `Button` does, a key event as `Assign` does, and a frame does what `Updated` does; only a frame issues translations or turns; only a pointer move changes the pointer offset, and it always sets both components; the latitude range is preserved |
| Legacy.RunKeepsLatitudeInRange | first_person/js/FirstPerson.js:43-46 | latitude stays within [-85, 85] over any sequence of events |
| Legacy.NoStrafeWithoutSideKeys | first_person/js/FirstPerson.js:35-41 | while no Left/Right key is pressed, side flags that are not truthy (such as `undefined`) stay so and no `translateX` is issued |
| Legacy.InitialNeverStrafes | first_person/js/FirstPerson.js:24-41 | the never-initialised side flags are harmless: a new controller issues only Z translations until Left or Right is pressed |
| Legacy.FirstPerson.constructor | first_person/js/FirstPerson.js:14-31 | the object's settings are `Configure(args)`; forward/backward start false, left/right start `undefined`, pointer centred, angles 0 |
| Legacy.FirstPerson.Update | first_person/js/FirstPerson.js:35-46 | the new state is `Updated(...).state`, the camera receives exactly `Updated(...).calls` in order, and latitude is within [-85, 85] |
| Legacy.FirstPerson.OnMouseDown | first_person/js/FirstPerson.js:62-71 | the new state is `Step` of a button press |
| Legacy.FirstPerson.OnMouseUp | first_person/js/FirstPerson.js:73-82 | the new state is `Step` of a button release |
| Legacy.FirstPerson.OnMouseMove | first_person/js/FirstPerson.js:84-90 | the new state is `Step` of a pointer move |
| Legacy.FirstPerson.OnKeyDown | first_person/js/FirstPerson.js:92-99 | the new state is `Step` of a key press |
| Legacy.FirstPerson.OnKeyUp | first_person/js/FirstPerson.js:101-108 | the new state is `Step` of a key release |

## Left out

- The look-at target computation and `camera.lookAt` (FirstPersonController.js lines 69-74, FirstPerson.js lines 48-57) are left out. They are trigonometry on floating point, so `distance` is stored but not used, and the `viewTarget` vector is not modelled.
- What `translateZ`/`translateX` do to the camera's position belongs to the rendering library. Only the calls and their order are modelled.
- DOM listener registration, `preventDefault`/`stopPropagation` and the `bind` helper are left out. The handlers are methods called directly.
- The context-menu handler is left out because it changes no state.
- The window's size is read once at construction. It enters as the constructor's `viewHalfX`/`viewHalfY` parameters.
- `keyString(event)` is outside the core. Its result is abstracted to the `Key` type, with `Other` for every unrecognised key.
- `mouseDrag` is left out because nothing reads it. In `FirstPersonController` it is an undeclared variable and becomes an implicit global; in `FirstPerson` it is a field.
- `FirstPersonController` assigns `update` to its constructor's prototype, so the most recently built controller's closure serves every instance. The model describes one instance.
- Numbers are mathematical reals. IEEE-754 rounding, `NaN`, `Infinity` and negative zero are not modelled.
- Constructor arguments of types other than number or boolean (strings, objects) are not modelled. `enableVertical` is `undefined` or a boolean.
- `FirstPerson`'s fields are public, so outside code could overwrite `lookSpeed`, `moveSpeed` or the flags. The model fixes the configuration at construction and changes state only through the handlers.
- The demo pages' `main.js` files (scene setup, render loop, frame timer) are outside the core.
