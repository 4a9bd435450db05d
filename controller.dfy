/** The control system that `createControlSystem` builds: it owns the latest
    sensor sample, the pointer offset accumulator and the fused aggregate,
    wires the two input sources to them, and hands every fused orientation to
    the consumer. */
module Controller {
  import opened Orientations
  import opened Modulo
  import opened TouchControls
  import MC = MotionControls

  /** `MAX_PITCH`: the view never tilts more than 0.45 of a half turn up or down. */
  const MaxPitch: real := Pi * 0.45

  /** The initial value of `inputOffset` and of `aggregate`. */
  const NoOffset: Orientation := Orientation(0.0, 0.0)

  /** `'running' | 'denied' | 'unsupported'`. */
  datatype MotionResult = Running | Denied | Unsupported

  /** What `getState` reports. */
  datatype ControlState = ControlState(
    motionSupported: bool,
    motionActive: bool,
    motionDenied: bool,
    motionRequiresPermission: bool)

  /** A fused orientation the consumer may receive: yaw in [-pi, pi) and pitch
      within MAX_PITCH. */
  predicate InView(o: Orientation)
  {
    -Pi <= o.yaw < Pi && -MaxPitch <= o.pitch <= MaxPitch
  }

  /** `normalizeAngle`: the floored modulus by a full turn shifted down by a half
      turn (see NormalizeAngleMatchesSource for the expression as written). */
  function NormalizeAngle(value: real): (r: real)
    ensures -Pi <= r < Pi
  {
    FloorMod(value, Pi * 2.0) - Pi
  }

  /** The source's expression `((value % twoPi) + twoPi) % twoPi - Math.PI`, with
      `%` as in JavaScript, is NormalizeAngle. */
  lemma NormalizeAngleMatchesSource(value: real)
    ensures NormalizeAngle(value) == JsRemainder(JsRemainder(value, Pi * 2.0) + Pi * 2.0, Pi * 2.0) - Pi
  {
    JsModIsFloorMod(value, Pi * 2.0);
  }

  /** Whole turns of the input do not change the normalised angle. */
  lemma {:induction false} NormalizeAnglePeriodic(value: real, k: int)
    ensures NormalizeAngle(value + (Pi * 2.0) * (k as real)) == NormalizeAngle(value)
  {
    FloorModPeriodic(value, Pi * 2.0, k);
  }

  /** A yaw of 0 normalises to -pi and -pi normalises back to 0, so the normaliser
      is not idempotent. */
  lemma NormalizeAngleNotIdempotent()
    ensures NormalizeAngle(0.0) == -Pi
    ensures NormalizeAngle(-Pi) == 0.0
    ensures NormalizeAngle(NormalizeAngle(0.0)) != NormalizeAngle(0.0)
  {
    FloorModUnique(0.0, Pi * 2.0, 0, 0.0);
    FloorModUnique(-Pi, Pi * 2.0, -1, Pi);
  }

  /** What `emit` stores in `aggregate` and hands to the consumer: the sensor
      sample (zero when absent) plus the pointer offset, yaw normalised and pitch
      clamped. */
  function Fuse(sensor: Option<Orientation>, offset: Orientation): (a: Orientation)
    ensures InView(a)
  {
    var baseYaw := if sensor.Some? then sensor.value.yaw else 0.0;
    var basePitch := if sensor.Some? then sensor.value.pitch else 0.0;
    Orientation(NormalizeAngle(baseYaw + offset.yaw), Clamp(basePitch + offset.pitch, -MaxPitch, MaxPitch))
  }

  /** An absent sensor sample contributes nothing: the aggregate is the
      normalised, clamped offset, exactly as for a zero sample. */
  lemma FuseWithoutSensor(offset: Orientation)
    ensures Fuse(None, offset) == Fuse(Some(NoOffset), offset)
    ensures Fuse(None, offset) == Orientation(NormalizeAngle(offset.yaw), Clamp(offset.pitch, -MaxPitch, MaxPitch))
  {
    assert 0.0 + offset.yaw == offset.yaw && 0.0 + offset.pitch == offset.pitch;
  }

  /** The baseline event's sample (-pi, -pi/2) fused with an offset: on yaw the
      two half-turn shifts cancel, so the yaw is the offset's yaw wrapped into
      [-pi, pi) around 0; the pitch is pulled down by a quarter turn. */
  lemma {:induction false} BaselineSampleFused(offset: Orientation)
    ensures Fuse(Some(Orientation(-Pi, -Pi / 2.0)), offset)
         == Orientation(FloorMod(offset.yaw + Pi, Pi * 2.0) - Pi,
                        Clamp(offset.pitch - Pi / 2.0, -MaxPitch, MaxPitch))
  {
    FloorModShift(-Pi + offset.yaw, offset.yaw + Pi, Pi * 2.0, 1);
    assert -Pi / 2.0 + offset.pitch == offset.pitch - Pi / 2.0;
  }

  /** With no pointer offset, the first motion event after a start shows yaw 0
      and the lowest pitch. */
  lemma BaselineSampleFusedAtRest()
    ensures Fuse(Some(Orientation(-Pi, -Pi / 2.0)), NoOffset) == Orientation(0.0, -MaxPitch)
  {
    BaselineSampleFused(NoOffset);
    FloorModUnique(0.0 + Pi, Pi * 2.0, 0, Pi);
  }

  /** With no sensor sample and no pointer offset the aggregate is (-pi, 0): the
      value `enableMotion` emits right after `start` when no sensor event has
      arrived yet. */
  lemma FusedAtRestWithoutSensor()
    ensures Fuse(None, NoOffset) == Orientation(-Pi, 0.0)
  {
    FloorModUnique(0.0 + 0.0, Pi * 2.0, 0, 0.0);
  }

  /** What the touch listener does to `inputOffset`: yaw accumulates freely,
      pitch accumulates and is clamped to MAX_PITCH at once. */
  function ApplyTouchDelta(offset: Orientation, d: Delta): (r: Orientation)
    ensures r.yaw == offset.yaw + d.yaw
    ensures -MaxPitch <= r.pitch <= MaxPitch
    ensures -MaxPitch <= offset.pitch + d.pitch <= MaxPitch ==> r.pitch == offset.pitch + d.pitch
  {
    Orientation(offset.yaw + d.yaw, Clamp(offset.pitch + d.pitch, -MaxPitch, MaxPitch))
  }

  /** `inputOffset` after the touch listener has received `ds`, in order. */
  function OffsetAfter(offset: Orientation, ds: seq<Delta>): Orientation
  {
    if ds == [] then offset
    else ApplyTouchDelta(OffsetAfter(offset, ds[..|ds| - 1]), ds[|ds| - 1])
  }

  /** After any sequence of touch deltas the offset's yaw is the start's yaw plus
      the sum of all yaw deltas, and its pitch stays within MAX_PITCH. */
  lemma {:induction false} OffsetAfterSpec(offset: Orientation, ds: seq<Delta>)
    requires -MaxPitch <= offset.pitch <= MaxPitch
    ensures OffsetAfter(offset, ds).yaw == offset.yaw + Total(ds).yaw
    ensures -MaxPitch <= OffsetAfter(offset, ds).pitch <= MaxPitch
  {
    if ds != [] {
      OffsetAfterSpec(offset, ds[..|ds| - 1]);
    }
  }

  /** Appending one delta applies it to the offset reached before it. */
  lemma OffsetAfterAppend(offset: Orientation, ds: seq<Delta>, d: Delta)
    ensures OffsetAfter(offset, ds + [d]) == ApplyTouchDelta(OffsetAfter(offset, ds), d)
  {
    assert (ds + [d])[..|ds|] == ds;
  }

  /** With pointer input only, the aggregate's yaw is the normalised sum of all
      yaw deltas and its pitch is the accumulated pitch offset. */
  lemma PointerOnlyAggregate(ds: seq<Delta>)
    ensures Fuse(None, OffsetAfter(NoOffset, ds))
         == Orientation(NormalizeAngle(Total(ds).yaw), OffsetAfter(NoOffset, ds).pitch)
  {
    OffsetAfterSpec(NoOffset, ds);
    FuseWithoutSensor(OffsetAfter(NoOffset, ds));
  }

  /** The closure state of `createControlSystem`, with the two input sources it
      creates. The consumer's `onChange` calls are recorded in `emitted`. */
  class ControlSystem {
    const motion: MC.MotionController
    const touch: TouchController

    var sensorOrientation: Option<Orientation>
    var inputOffset: Orientation
    var aggregate: Orientation
    /** The arguments of every `onChange` call, oldest first. */
    var emitted: seq<Orientation>
    /** Every delta the touch listener has received, oldest first. */
    ghost var touchDeltas: seq<Delta>

    ghost predicate Valid()
      reads this, motion, touch
    {
      motion.Valid() &&
      (motion.active ==> motion.permission == MC.Granted || !motion.requiresPrompt) &&
      touch.Valid() &&
      touch.downListener &&
      (touch.windowListeners == {} || touch.windowListeners == {PointerMove, PointerUp, PointerCancel}) &&
      inputOffset == OffsetAfter(NoOffset, touchDeltas) &&
      InView(aggregate) &&
      (forall i :: 0 <= i < |emitted| ==> InView(emitted[i])) &&
      (emitted != [] ==> emitted[|emitted| - 1] == aggregate)
    }

    /** `createControlSystem(target, onChange)`, with the platform's capabilities
        injected. Motion starts at once only when it is supported and needs no
        prompt. */
    constructor (supported: bool, requiresPrompt: bool)
      ensures Valid() && fresh(motion) && fresh(touch)
      ensures motion.supported == supported && motion.requiresPrompt == requiresPrompt
      ensures motion.active == (supported && !requiresPrompt)
      ensures motion.permission == MC.Unknown && !motion.denied && motion.baseline == None
      ensures !touch.pointerActive && touch.downListener && touch.windowListeners == {}
      ensures sensorOrientation == None && inputOffset == NoOffset && aggregate == NoOffset
      ensures emitted == [] && touchDeltas == []
    {
      motion := new MC.MotionController(supported, requiresPrompt);
      touch := new TouchController();
      sensorOrientation := None;
      inputOffset := NoOffset;
      aggregate := NoOffset;
      emitted := [];
      touchDeltas := [];
      new;
      if motion.IsSupported() && !motion.RequiresPermission() {
        motion.Start();
      }
    }

    /** `emit`: recompute the aggregate and hand the consumer a copy of it. */
    method Emit()
      requires Valid()
      modifies this`aggregate, this`emitted
      ensures Valid()
      ensures aggregate == Fuse(sensorOrientation, inputOffset)
      ensures emitted == old(emitted) + [aggregate]
    {
      aggregate := Fuse(sensorOrientation, inputOffset);
      emitted := emitted + [aggregate];
    }

    /** The `onChange` callback given to the motion source: replace the sample,
        then emit. */
    method OnMotionSample(sample: Orientation)
      requires Valid()
      modifies this`sensorOrientation, this`aggregate, this`emitted
      ensures Valid()
      ensures sensorOrientation == Some(sample)
      ensures emitted == old(emitted) + [Fuse(Some(sample), inputOffset)]
    {
      sensorOrientation := Some(sample);
      Emit();
    }

    /** The listener given to the touch source: accumulate the delta, then emit. */
    method OnTouchDelta(d: Delta)
      requires Valid()
      modifies this`inputOffset, this`touchDeltas, this`aggregate, this`emitted
      ensures Valid()
      ensures touchDeltas == old(touchDeltas) + [d]
      ensures inputOffset == ApplyTouchDelta(old(inputOffset), d)
      ensures inputOffset.yaw == Total(touchDeltas).yaw
      ensures emitted == old(emitted) + [Fuse(sensorOrientation, inputOffset)]
      ensures sensorOrientation == None ==> aggregate.yaw == NormalizeAngle(Total(touchDeltas).yaw)
    {
      OffsetAfterAppend(NoOffset, touchDeltas, d);
      touchDeltas := touchDeltas + [d];
      inputOffset := Orientation(inputOffset.yaw + d.yaw, Clamp(inputOffset.pitch + d.pitch, -MaxPitch, MaxPitch));
      Emit();
      OffsetAfterSpec(NoOffset, touchDeltas);
      PointerOnlyAggregate(touchDeltas);
    }

    /** A `deviceorientation` event reaches the motion source's handler only while
        it is registered; a forwarded sample then goes to OnMotionSample. */
    method DeliverDeviceOrientation(alpha: Option<real>, beta: Option<real>)
      requires Valid()
      modifies motion`baseline, this`sensorOrientation, this`aggregate, this`emitted
      ensures Valid()
      ensures !motion.listening || alpha == None || beta == None ==>
                motion.baseline == old(motion.baseline) && sensorOrientation == old(sensorOrientation) &&
                aggregate == old(aggregate) && emitted == old(emitted)
      ensures motion.listening && alpha != None && beta != None ==>
                motion.baseline == (if old(motion.baseline) == None
                                    then Some(Orientation(alpha.value, beta.value)) else old(motion.baseline)) &&
                sensorOrientation == Some(MC.SampleFromEvent(alpha.value, beta.value, motion.baseline.value)) &&
                emitted == old(emitted) + [Fuse(sensorOrientation, inputOffset)]
    {
      if !motion.listening {
        return;
      }
      var sample := motion.OnDeviceOrientation(alpha, beta);
      if sample != None {
        OnMotionSample(sample.value);
      }
    }

    /** A `pointerdown` event on the target, delivered to the touch source. */
    method DeliverPointerDown(pointerType: string, buttons: int, pointerId: int, x: real, y: real)
      requires Valid()
      modifies touch`pointerActive, touch`lastX, touch`lastY, touch`captured, touch`windowListeners
      modifies touch`dragStart, touch`dragMoves, touch`reported
      ensures Valid()
      ensures pointerType == "mouse" && buttons != 1 ==> unchanged(touch)
      ensures !(pointerType == "mouse" && buttons != 1) ==>
                touch.pointerActive && touch.lastX == x && touch.lastY == y &&
                touch.captured == old(touch.captured) + {pointerId} &&
                touch.windowListeners == {PointerMove, PointerUp, PointerCancel}
    {
      if touch.downListener {
        touch.OnDown(pointerType, buttons, pointerId, x, y);
      }
    }

    /** A `pointermove` event on the window: it reaches the touch source only
        while the move listener is registered, and a reported delta goes to
        OnTouchDelta. */
    method DeliverPointerMove(x: real, y: real)
      requires Valid()
      modifies touch`lastX, touch`lastY, touch`dragMoves, touch`reported, this`inputOffset, this`touchDeltas, this`aggregate, this`emitted
      ensures Valid()
      ensures !(old(PointerMove in touch.windowListeners) && touch.pointerActive) ==>
                unchanged(touch) && unchanged(this)
      ensures old(PointerMove in touch.windowListeners) && touch.pointerActive ==>
                touch.lastX == x && touch.lastY == y &&
                touchDeltas == old(touchDeltas) + [MoveDelta(old(touch.lastX), old(touch.lastY), x, y)] &&
                inputOffset == ApplyTouchDelta(old(inputOffset), MoveDelta(old(touch.lastX), old(touch.lastY), x, y)) &&
                emitted == old(emitted) + [Fuse(sensorOrientation, inputOffset)]
    {
      if PointerMove !in touch.windowListeners {
        return;
      }
      var delta := touch.OnMove(x, y);
      if delta != None {
        OnTouchDelta(delta.value);
      }
    }

    /** A `pointerup` (or, with `cancelled`, a `pointercancel`) event on the window;
        both reach the same end handler while it is registered. */
    method DeliverPointerEnd(cancelled: bool, pointerId: int)
      requires Valid()
      modifies touch`pointerActive, touch`windowListeners, touch`captured
      ensures Valid()
      ensures old(touch.windowListeners) == {} ==> unchanged(touch)
      ensures old(touch.windowListeners) != {} ==>
                !touch.pointerActive && touch.windowListeners == {} &&
                touch.captured == if pointerId != 0 && pointerId in old(touch.captured)
                                  then old(touch.captured) - {pointerId} else old(touch.captured)
    {
      var registered := if cancelled then PointerCancel else PointerUp;
      if registered in touch.windowListeners {
        touch.OnEnd(pointerId);
      }
    }

    /** `enableMotion`, with the outcome of the (possible) permission prompt as an
        input. */
    method EnableMotion(outcome: MC.PromptOutcome) returns (r: MotionResult)
      requires Valid()
      modifies motion, this`aggregate, this`emitted
      ensures Valid()
      ensures !motion.supported ==> r == Unsupported && unchanged(motion) && unchanged(this)
      ensures motion.supported ==> r != Unsupported && (r == Running <==> motion.permission == MC.Granted)
      ensures old(motion.permission) == MC.Granted ==> r == Running && motion.prompts == old(motion.prompts)
      ensures motion.supported && old(motion.permission) != MC.Granted && !motion.requiresPrompt ==>
                r == Running && motion.prompts == old(motion.prompts)
      ensures motion.supported && old(motion.permission) != MC.Granted && motion.requiresPrompt ==>
                motion.prompts == old(motion.prompts) + 1 && (r == Running <==> outcome == MC.Accepted)
      ensures r == Denied ==>
                motion.denied && !motion.active && motion.baseline == old(motion.baseline) &&
                aggregate == old(aggregate) && emitted == old(emitted)
      ensures r == Running ==>
                motion.active && motion.listening && !motion.denied &&
                motion.baseline == (if old(motion.active) then old(motion.baseline) else None) &&
                emitted == old(emitted) + [Fuse(sensorOrientation, inputOffset)]
    {
      if !motion.IsSupported() {
        return Unsupported;
      }
      var granted := motion.RequestPermission(outcome);
      if !granted {
        return Denied;
      }
      motion.Start();
      Emit();
      return Running;
    }

    /** `getState`: the four motion flags, read without changing anything. */
    function GetState(): (s: ControlState)
      requires Valid()
      reads this, motion, touch
      ensures s.motionActive ==> s.motionSupported
      ensures s.motionDenied ==> s.motionSupported && s.motionRequiresPermission && !s.motionActive
      ensures s == ControlState(motion.supported, motion.active, motion.denied, motion.requiresPrompt)
    {
      ControlState(motion.IsSupported(), motion.IsActive(), motion.IsDenied(), motion.RequiresPermission())
    }

    /** `dispose`: stops the motion source and removes the touch source's window
        listeners; a drag in progress keeps `pointerActive`. */
    method Dispose()
      requires Valid()
      modifies motion`baseline, motion`listening, motion`active, touch`windowListeners
      ensures Valid()
      ensures !motion.active && !motion.listening && touch.windowListeners == {}
      ensures old(motion.active) ==> motion.baseline == None
      ensures !old(motion.active) ==> motion.baseline == old(motion.baseline)
    {
      motion.Dispose();
      touch.Dispose();
    }
  }
}
