# Orientation fusion for a panorama viewer, in Dafny

This project models the input-fusion core of a small panorama viewer, the code
under `src/controls/`. Two input sources feed one viewing direction `{yaw, pitch}`:

- The **motion source** (`MotionController`) wraps the device-orientation
  sensor. It holds a permission state machine (`unknown` / `granted` / `denied`
  plus a `denied` flag) and an active/inactive listener lifecycle. It takes its
  baseline from the first valid sensor event after a `start`. It turns raw
  `alpha`/`beta` degrees into a yaw/pitch delta in radians.
- The **touch source** (`TouchController`) is a drag state machine
  (`pointerActive`, `lastX`, `lastY`). It turns pointer moves into sign-inverted,
  scaled yaw/pitch deltas.
- The **control system** (the closure built by `createControlSystem`) keeps the
  latest sensor sample, the pointer offset accumulator and the aggregate.
  On every change it fuses them: yaw is normalised and pitch is clamped to ±0.45π.
  It hands each fused value to the consumer. It also offers `enableMotion`,
  `getState` and `dispose`.

Files and modules:

| file | module | what it holds |
|---|---|---|
| orientation.dfy | `Orientations` | π (`Math.PI`) as an exact real, `Option`, the `Orientation` record, `Clamp` (the source declares the same `clamp` twice; it is defined once here) |
| modulo.dfy | `Modulo` | JavaScript's `%` on reals (`JsRemainder`), the floored modulus `FloorMod`, and the proofs that `((v % r) + r) % r` is the floored modulus and that it is periodic |
| motion_controls.dfy | `MotionControls` | `NormalizeDegrees`, the sample computation, and the class `MotionController` |
| touch_controls.dfy | `TouchControls` | the two sensitivities, `MoveDelta`, drag telescoping, and the class `TouchController` |
| controller.dfy | `Controller` | `MAX_PITCH`, `NormalizeAngle`, `Fuse`, the accumulator fold, and the class `ControlSystem` |

How the source's runtime is represented:

- Platform probing is injected. `supported` and `requiresPrompt` are
  constructor arguments, fixed for the object's lifetime.
- The asynchronous permission prompt becomes an input, `PromptOutcome`:
  `Accepted` (it resolved to `'granted'`), `Refused` (it resolved to anything
  else) or `Failed` (it rejected). A ghost counter `prompts` records how often
  the prompt was called. With it, "granted is not re-prompted" and "denied is
  re-prompted" can be stated.
- Event-listener registration is state. `MotionController.listening` stands for
  the `deviceorientation` handler on the window. `TouchController.windowListeners`
  stands for the move/up/cancel listeners and `downListener` for the target's
  `pointerdown` listener. Pointer capture is the set `captured`.
- Callbacks between components are return values. `OnDeviceOrientation`
  returns `Some(sample)` exactly when the source calls `onChange(sample)`.
  `OnMove` returns `Some(delta)` exactly when it calls the listener. The
  consumer's `onChange` calls are appended to `ControlSystem.emitted`.
  `emitted` only grows, so later emits cannot alter earlier values.
- The window delivers an event to a handler only while that handler is
  registered. The `Deliver…` methods of `ControlSystem` model this delivery.
- Angles are exact reals. `Trunc`/`JsRemainder` model JavaScript's truncating
  `%`. Both normalisers are defined as "floored modulus minus half a period".
  `NormalizeDegreesMatchesSource` and `NormalizeAngleMatchesSource` prove that
  this equals the source's expression `((v % r) + r) % r - r/2`.

## Consequences of the half-turn shift

Both normalisers compute `(v mod period) - period/2`. This shifts every value by
half a turn. These lemmas state what follows from it:

- `NormalizeDegreesNotIdempotent` and `NormalizeAngleNotIdempotent`: 0 maps to
  -180 (or -π), and that value maps back to 0. Applying a normaliser twice does
  not give the same result as applying it once.
- `BaselineEventSample`: the event that becomes the baseline is forwarded as
  `(-π, -π/2)`.
- `LaterEventSample`: with baseline (40, 10) and event (55, 100) the
  forwarded sample is (-165°, -90°) in radians, although the raw differences
  are 15° and 90°.
- `BaselineSampleFused` and `BaselineSampleFusedAtRest`: fusing the sample of
  the first sensor event after a start cancels the two shifts on yaw. The
  result wraps the offset's yaw around 0. Its pitch is pulled down a quarter
  turn. With no pointer offset, the fused value of that event is `(0, -0.45π)`.
  The value `enableMotion` emits right after `start` is different: it fuses
  whatever sample is already held. Before any sensor event that is
  `(-π, 0)`, because `normalizeAngle(0) == -π`.
- Every reported yaw lies in [-π, π). Every forwarded sensor sample's yaw also
  lies in [-π, π).

## Model

| member | source | states |
|---|---|---|
| `Orientations.Clamp` | src/controls/motionControls.ts:119-121 | `Math.min(max, Math.max(min, v))` never exceeds max; it is at least min when min ≤ max; it returns v when v is in range and the violated bound otherwise (the same helper is at controller.ts:81-83) |
| `Modulo.JsRemainder` | src/controls/motionControls.ts:116 | JavaScript `%` with a positive divisor: it equals the floored modulus for a non-negative dividend, minus the floored modulus of the negation for a negative one, and lies strictly between -r and r |
| `Modulo.JsModIsFloorMod` | src/controls/motionControls.ts:116 | the idiom `((v % r) + r) % r` is exactly the floored modulus of v by r, for every real v |
| `Modulo.FloorModPeriodic` | src/controls/controller.ts:87 | the floored modulus is unchanged by adding any whole number of periods |
| `MotionControls.NormalizeDegrees` | src/controls/motionControls.ts:114-117 | `normalizeDegrees` lands in [-180, 180) |
| `MotionControls.NormalizeDegreesMatchesSource` | src/controls/motionControls.ts:114-117 | the model's normaliser equals the source's `((v % 360) + 360) % 360 - 180` with JavaScript `%` |
| `MotionControls.NormalizeDegreesPeriodic` | src/controls/motionControls.ts:114-117 | `normalizeDegrees(v + 360k) == normalizeDegrees(v)` for every integer k |
| `MotionControls.NormalizeDegreesNotIdempotent` | src/controls/motionControls.ts:116 | `normalizeDegrees(0) == -180` and `normalizeDegrees(-180) == 0`, so applying it twice differs from applying it once |
| `MotionControls.SampleFromEvent` | src/controls/motionControls.ts:106-110 | a forwarded sample has yaw in [-π, π) and pitch in [-π/2, π/2] |
| `MotionControls.SampleIgnoresWholeTurns` | src/controls/motionControls.ts:106-107 | raw readings that differ by whole turns of 360° give the same forwarded sample |
| `MotionControls.BaselineEventSample` | src/controls/motionControls.ts:99-110 | the event that sets the baseline is forwarded as yaw -π and pitch -π/2 (the clamped half-turn shift of a zero delta) |
| `MotionControls.LaterEventSample` | src/controls/motionControls.ts:106-108 | baseline (40, 10) with event (55, 100) is forwarded as yaw -165° in radians and pitch -π/2 |
| `MotionControls.MotionController.constructor` | src/controls/motionControls.ts:10-24 | starts inactive, not denied, permission unknown, no baseline, no handler registered; keeps the injected capabilities |
| `MotionControls.MotionController.RequestPermission` | src/controls/motionControls.ts:42-70 | unsupported: false, no change; already granted: true, no change, no prompt; no prompt needed: sets granted and clears denied; otherwise one prompt, granted exactly when it resolves to `'granted'`, else (refused or rejected) permission and flag become denied; the result is always "permission is granted"; `denied ⇔ permission == denied` is kept |
| `MotionControls.MotionController.Start` | src/controls/motionControls.ts:72-79 | a no-op when unsupported or active; otherwise clears the baseline, registers the handler and becomes active; "handler registered ⇔ active" is kept |
| `MotionControls.MotionController.Stop` | src/controls/motionControls.ts:81-88 | a no-op when inactive (so a second call changes nothing); otherwise unregisters, becomes inactive and clears the baseline |
| `MotionControls.MotionController.Dispose` | src/controls/motionControls.ts:90-92 | the same contract as Stop: afterwards no handler is registered |
| `MotionControls.MotionController.OnDeviceOrientation` | src/controls/motionControls.ts:94-111 | an event with a null alpha or beta forwards nothing and changes nothing; otherwise the baseline is set only if absent, is never changed once set, and the forwarded sample is the event measured against that baseline |
| `TouchControls.MoveDelta` | src/controls/touchControls.ts:41-46 | the reported yaw delta is negative exactly when the pointer moved right and zero exactly when it did not move horizontally; likewise pitch with downward moves |
| `TouchControls.LeftwardMoveExample` | src/controls/touchControls.ts:41-46 | a move of Δx = -100, Δy = 0 reports yaw +0.5 and pitch 0 |
| `TouchControls.DragDeltas` | src/controls/touchControls.ts:36-46 | one drag reports exactly one delta per move |
| `TouchControls.DragDeltasAppend` | src/controls/touchControls.ts:41-46 | one more move appends exactly the delta from the previous point, and that move becomes the drag's last point |
| `TouchControls.DragTelescopes` | src/controls/touchControls.ts:41-46 | over one drag from (x0, y0) the deltas sum to `(-(xn - x0) * 0.005, -(yn - y0) * 0.0035)` |
| `TouchControls.TouchController.constructor` | src/controls/touchControls.ts:13-15 | not dragging, no window listeners, the target's `pointerdown` listener registered |
| `TouchControls.TouchController.Dispose` | src/controls/touchControls.ts:17-21 | removes the three window listeners, and changes neither `pointerActive` nor the `pointerdown` listener |
| `TouchControls.TouchController.OnDown` | src/controls/touchControls.ts:23-34 | a mouse press with `buttons != 1` changes nothing; any other press starts a drag at the event's coordinates, captures the pointer and registers move, up and cancel; the drag's record restarts at the press point |
| `TouchControls.TouchController.OnMove` | src/controls/touchControls.ts:36-47 | while no drag is active nothing is reported and nothing changes; during a drag it reports MoveDelta from the last point and then stores the new point. Its invariant says that during a drag everything reported since the press is `DragDeltas(press, moves)`. So the running total of what the listener has received is the negated, scaled displacement from the press to the current point (DragTelescopes applied to the class) |
| `TouchControls.TouchController.OnEnd` | src/controls/touchControls.ts:49-57 | up and cancel both end the drag and remove all three window listeners; capture is released only for a non-zero pointer id the target holds |
| `Controller.NormalizeAngle` | src/controls/controller.ts:85-88 | `normalizeAngle` lands in [-π, π) |
| `Controller.NormalizeAngleMatchesSource` | src/controls/controller.ts:85-88 | the model's normaliser equals the source's `((v % 2π) + 2π) % 2π - π` with JavaScript `%` |
| `Controller.NormalizeAnglePeriodic` | src/controls/controller.ts:85-88 | `normalizeAngle(v + 2πk) == normalizeAngle(v)` for every integer k |
| `Controller.NormalizeAngleNotIdempotent` | src/controls/controller.ts:87 | `normalizeAngle(0) == -π` and `normalizeAngle(-π) == 0` |
| `Controller.Fuse` | src/controls/controller.ts:41-45 | every aggregate has yaw in [-π, π) and pitch in [-0.45π, 0.45π], for any sensor sample and offset |
| `Controller.FuseWithoutSensor` | src/controls/controller.ts:42-45 | an absent sensor sample counts as a zero sample: the aggregate is `(normalizeAngle(offset.yaw), clamp(offset.pitch))` |
| `Controller.BaselineSampleFused` | src/controls/controller.ts:41-45 | fusing the baseline event's sample with an offset gives the offset's yaw wrapped around 0 and its pitch lowered by π/2, then clamped |
| `Controller.BaselineSampleFusedAtRest` | src/controls/controller.ts:41-45 | with a zero offset, the fused value of the first sensor event after a start is `(0, -0.45π)` |
| `Controller.FusedAtRestWithoutSensor` | src/controls/controller.ts:41-45 | with no sensor sample and a zero offset the aggregate is `(-π, 0)`; this is what `enableMotion` emits right after `start` (lines 62-63) when no sensor event has arrived |
| `Controller.ApplyTouchDelta` | src/controls/controller.ts:31-35 | one touch delta adds to the offset's yaw unconditionally; the pitch stays within ±0.45π and is the plain sum when that sum is in range |
| `Controller.OffsetAfterSpec` | src/controls/controller.ts:31-35 | after any sequence of touch deltas the offset's yaw is the sum of all yaw deltas and its pitch stays within ±0.45π |
| `Controller.PointerOnlyAggregate` | src/controls/controller.ts:41-45 | with pointer input only, the aggregate's yaw is the normalised sum of all yaw deltas |
| `Controller.ControlSystem.constructor` | src/controls/controller.ts:26-52 | motion is started at construction exactly when it is supported and needs no prompt; no sample, zero offset and aggregate, nothing emitted |
| `Controller.ControlSystem.Emit` | src/controls/controller.ts:41-47 | the aggregate becomes the fusion of the current sample and offset, and exactly one copy of it is appended to what the consumer has received |
| `Controller.ControlSystem.OnMotionSample` | src/controls/controller.ts:27-30 | a sensor sample replaces the stored sample, keeps the offset and emits once |
| `Controller.ControlSystem.OnTouchDelta` | src/controls/controller.ts:31-35 | a touch delta updates the offset, keeps the sensor sample and emits once; the offset's yaw is the sum of every delta received |
| `Controller.ControlSystem.DeliverDeviceOrientation` | src/controls/motionControls.ts:94-110 | a sensor event reaches the motion source only while its handler is registered; a valid one replaces the sample and emits once, a malformed one changes nothing |
| `Controller.ControlSystem.DeliverPointerDown` | src/controls/touchControls.ts:14 | a press reaches the touch source through the target's `pointerdown` listener; a qualifying press captures the pointer and leaves the move, up and cancel listeners registered; an ignored press changes nothing |
| `Controller.ControlSystem.DeliverPointerMove` | src/controls/touchControls.ts:31 | a move reaches the touch source only while the move listener is registered; during a drag it applies one MoveDelta to the offset and emits once, otherwise nothing changes |
| `Controller.ControlSystem.DeliverPointerEnd` | src/controls/touchControls.ts:32-33 | up and cancel reach the same end handler. When the end listeners are registered, afterwards no drag is active, no window listener is left, and the capture of a non-zero pointer id the target holds is released. When they are not registered (after a `dispose` in the middle of a drag, for instance), nothing changes and a drag in progress stays active |
| `Controller.ControlSystem.EnableMotion` | src/controls/controller.ts:54-65 | unsupported: `'unsupported'`, no prompt, no start; refused: `'denied'`, motion stays inactive, nothing emitted; granted: motion starts, one emit, `'running'`; a repeat call after a grant returns `'running'` with no prompt, and the start is a no-op |
| `Controller.ControlSystem.GetState` | src/controls/controller.ts:66-73 | reports the four motion flags and changes nothing; active implies supported, and denied implies supported, prompt-gated and inactive |
| `Controller.ControlSystem.Dispose` | src/controls/controller.ts:74-77 | stops motion (no handler left) and removes the touch window listeners |

`MotionController`'s getters `IsSupported`, `IsActive`, `IsDenied` and
`RequiresPermission` (src/controls/motionControls.ts:26-40) are field reads.
`GetState` states what they return.

## Left out

- The 3D renderer, the DOM bootstrap and the status texts, and the entry point
  and build configuration are not part of this model. The renderer only
  consumes the fused orientation.
- Feature probing of `window` is not modelled. `isSupported()` and
  `requiresPermission()` are constants given to the constructors. The source's
  second check, at prompt time, that `requestPermission` is a function is taken
  to agree with `requiresPrompt`.
- `async`/`await` is not modelled. `RequestPermission` and `EnableMotion` run
  to completion with the prompt's outcome as an input. Events that the browser
  could deliver while the prompt is pending are not interleaved.
- `console.warn` on a rejected prompt is not modelled.
- `event.preventDefault()` during a drag is not modelled. Neither is the
  `passive: false` listener option.
- Pointer capture is only the set of ids the controller captured and released.
  Its failure modes are not modelled (`setPointerCapture` with an inactive
  pointer), and neither is the browser's implicit release.
- IEEE-754 doubles are replaced by exact reals. NaN, infinities, `-0` and
  rounding are not modelled. JavaScript's `%` is exact in doubles too, but the
  inner sum `(v % r) + r` is rounded. For a tiny negative v that sum rounds to
  r and the result is 0, where the exact value is just below r. For example,
  v = -1e-20 gives `normalizeDegrees(v) == -180` in doubles, while the model
  gives a value just below 180.
- `MotionController.OnDeviceOrientation` and the touch handlers can be called
  directly on the classes. The rule that the window calls a handler only while
  it is registered is modelled one level up, in `ControlSystem`'s `Deliver…`
  methods.
- Listener identity (the bound `handler`, `boundMove` and `boundEnd` functions)
  is not modelled. The DOM ignores a duplicate registration of the same
  function, so a boolean or a set of listener kinds is enough.
