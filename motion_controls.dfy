/** The device-orientation input source (`MotionController`): the permission
    state machine, the listener lifecycle, the baseline taken from the first
    valid event after a start, and the conversion of raw `alpha`/`beta` degrees
    into a `{yaw, pitch}` delta in radians. */
module MotionControls {
  import opened Orientations
  import opened Modulo

  /** `Math.PI / 180`. */
  const DegToRad: real := Pi / 180.0

  /** The stored permission (`'unknown' | 'granted' | 'denied'`). */
  datatype PermissionState = Unknown | Granted | Denied

  /** How the platform's asynchronous permission prompt ended: it resolved to
      `'granted'`, it resolved to any other state, or it rejected (threw). */
  datatype PromptOutcome = Accepted | Refused | Failed

  /** `normalizeDegrees`: the floored modulus by 360 shifted down by a half
      turn (see NormalizeDegreesMatchesSource for the expression as written). */
  function NormalizeDegrees(value: real): (r: real)
    ensures -180.0 <= r < 180.0
  {
    FloorMod(value, 360.0) - 180.0
  }

  /** The source's expression `((value % range) + range) % range - range / 2`,
      with `range = 360` and `%` as in JavaScript, is NormalizeDegrees. */
  lemma NormalizeDegreesMatchesSource(value: real)
    ensures NormalizeDegrees(value) == JsRemainder(JsRemainder(value, 360.0) + 360.0, 360.0) - 360.0 / 2.0
  {
    JsModIsFloorMod(value, 360.0);
  }

  /** Whole turns of the input do not change the normalised value. */
  lemma {:induction false} NormalizeDegreesPeriodic(value: real, k: int)
    ensures NormalizeDegrees(value + 360.0 * (k as real)) == NormalizeDegrees(value)
  {
    FloorModPeriodic(value, 360.0, k);
  }

  /** A zero difference normalises to -180 and -180 normalises back to 0, so the
      normaliser is not idempotent. */
  lemma NormalizeDegreesNotIdempotent()
    ensures NormalizeDegrees(0.0) == -180.0
    ensures NormalizeDegrees(-180.0) == 0.0
    ensures NormalizeDegrees(NormalizeDegrees(0.0)) != NormalizeDegrees(0.0)
  {
    FloorModUnique(0.0, 360.0, 0, 0.0);
    FloorModUnique(-180.0, 360.0, -1, 180.0);
  }

  /** The sample `onDeviceOrientation` forwards for a valid event with the given
      `alpha` and `beta` (degrees) against a baseline (degrees): each difference is
      normalised, converted to radians, and the pitch is clamped to a quarter turn. */
  function SampleFromEvent(alpha: real, beta: real, baseline: Orientation): (s: Orientation)
    ensures -Pi <= s.yaw < Pi
    ensures -Pi / 2.0 <= s.pitch <= Pi / 2.0
  {
    var yaw := NormalizeDegrees(alpha - baseline.yaw) * DegToRad;
    var pitch := NormalizeDegrees(beta - baseline.pitch) * DegToRad;
    Orientation(yaw, Clamp(pitch, -Pi / 2.0, Pi / 2.0))
  }

  /** Readings that differ by whole turns give the same sample. */
  lemma {:induction false} SampleIgnoresWholeTurns(alpha: real, beta: real, baseline: Orientation, i: int, j: int)
    ensures SampleFromEvent(alpha + 360.0 * (i as real), beta + 360.0 * (j as real), baseline)
         == SampleFromEvent(alpha, beta, baseline)
  {
    FloorModShift(alpha - baseline.yaw, alpha + 360.0 * (i as real) - baseline.yaw, 360.0, i);
    FloorModShift(beta - baseline.pitch, beta + 360.0 * (j as real) - baseline.pitch, 360.0, j);
  }

  /** The event that becomes the baseline is forwarded too; its differences are
      zero, which the half-turn shift maps to yaw -pi and pitch -pi (clamped to
      -pi/2). */
  lemma BaselineEventSample(alpha: real, beta: real)
    ensures SampleFromEvent(alpha, beta, Orientation(alpha, beta)) == Orientation(-Pi, -Pi / 2.0)
  {
    FloorModUnique(alpha - alpha, 360.0, 0, 0.0);
    FloorModUnique(beta - beta, 360.0, 0, 0.0);
    assert NormalizeDegrees(alpha - alpha) * DegToRad == -Pi;
    assert NormalizeDegrees(beta - beta) * DegToRad == -Pi;
  }

  /** Baseline {alpha: 40, beta: 10}, later event {alpha: 55, beta: 100}: the yaw
      difference of 15 degrees is reported as -165 degrees, and the pitch
      difference of 90 degrees as -90 degrees (-pi/2). */
  lemma LaterEventSample()
    ensures SampleFromEvent(55.0, 100.0, Orientation(40.0, 10.0)) == Orientation(-165.0 * DegToRad, -Pi / 2.0)
  {
    FloorModUnique(15.0, 360.0, 0, 15.0);
    FloorModUnique(90.0, 360.0, 0, 90.0);
  }

  class MotionController {
    /** `isSupported()`: the platform exposes `DeviceOrientationEvent`. */
    const supported: bool
    /** `requiresPermission()`: `DeviceOrientationEvent.requestPermission` is a function. */
    const requiresPrompt: bool

    var active: bool
    var denied: bool
    var baseline: Option<Orientation>
    var permission: PermissionState
    /** Whether the `deviceorientation` handler is registered on the window. */
    var listening: bool
    /** How many times the platform's permission prompt has been called. */
    ghost var prompts: nat

    /** The invariant every public operation keeps. */
    ghost predicate Valid()
      reads this
    {
      (listening <==> active) &&
      (denied <==> permission == Denied) &&
      (active ==> supported) &&
      (permission != Unknown ==> supported) &&
      (denied ==> requiresPrompt)
    }

    /** The platform capabilities are injected instead of probed from `window`. */
    constructor (supported: bool, requiresPrompt: bool)
      ensures Valid()
      ensures this.supported == supported && this.requiresPrompt == requiresPrompt
      ensures !active && !denied && baseline == None && permission == Unknown
      ensures !listening && prompts == 0
    {
      this.supported := supported;
      this.requiresPrompt := requiresPrompt;
      active := false;
      denied := false;
      baseline := None;
      permission := Unknown;
      listening := false;
      prompts := 0;
    }

    function IsSupported(): bool
      reads this
    {
      supported
    }

    function IsActive(): bool
      reads this
    {
      active
    }

    function IsDenied(): bool
      reads this
    {
      denied
    }

    function RequiresPermission(): bool
      reads this
    {
      requiresPrompt
    }

    /** `requestPermission`. The prompt's outcome is an input; it is consulted only
        when the platform prompt is actually called. A rejected prompt is caught
        and reported as a refusal. */
    method RequestPermission(outcome: PromptOutcome) returns (granted: bool)
      requires Valid()
      modifies this
      ensures Valid()
      ensures granted <==> permission == Granted
      ensures !supported ==> !granted && unchanged(this)
      ensures supported && old(permission) == Granted ==> granted && unchanged(this)
      ensures supported && old(permission) != Granted && !requiresPrompt ==>
                granted && !denied && prompts == old(prompts)
      ensures supported && old(permission) != Granted && requiresPrompt ==>
                prompts == old(prompts) + 1 &&
                (granted <==> outcome == Accepted) &&
                permission == (if granted then Granted else Denied) &&
                denied == !granted
      ensures active == old(active) && listening == old(listening) && baseline == old(baseline)
    {
      if !supported {
        return false;
      }
      if permission == Granted {
        return true;
      }
      if requiresPrompt {
        prompts := prompts + 1;
        match outcome {
          case Accepted =>
            permission := Granted;
            denied := false;
            return true;
          case Refused =>
            permission := Denied;
            denied := true;
            return false;
          case Failed =>
            permission := Denied;
            denied := true;
            return false;
        }
      }
      permission := Granted;
      denied := false;
      return true;
    }

    /** `start`: a no-op when unsupported or already active; otherwise it clears
        the baseline, registers the handler and becomes active. */
    method Start()
      requires Valid()
      modifies this`baseline, this`listening, this`active
      ensures Valid()
      ensures !supported || old(active) ==> unchanged(this)
      ensures supported && !old(active) ==> active && listening && baseline == None
    {
      if !supported || active {
        return;
      }
      baseline := None;
      listening := true;
      active := true;
    }

    /** `stop`: a no-op when inactive; otherwise it unregisters the handler,
        becomes inactive and clears the baseline. */
    method Stop()
      requires Valid()
      modifies this`baseline, this`listening, this`active
      ensures Valid()
      ensures !old(active) ==> unchanged(this)
      ensures old(active) ==> !active && !listening && baseline == None
      ensures !active && !listening
    {
      if !active {
        return;
      }
      listening := false;
      active := false;
      baseline := None;
    }

    /** `dispose`: the same as `stop`. */
    method Dispose()
      requires Valid()
      modifies this`baseline, this`listening, this`active
      ensures Valid()
      ensures !old(active) ==> unchanged(this)
      ensures old(active) ==> !active && !listening && baseline == None
      ensures !active && !listening
    {
      Stop();
    }

    /** `onDeviceOrientation`. The call of `onChange` is the returned sample:
        `Some(s)` means `onChange(s)` was called once, `None` that it was not. */
    method OnDeviceOrientation(alpha: Option<real>, beta: Option<real>) returns (sample: Option<Orientation>)
      requires Valid()
      modifies this`baseline
      ensures Valid()
      ensures alpha == None || beta == None ==> sample == None && baseline == old(baseline)
      ensures alpha != None && beta != None ==>
                baseline == (if old(baseline) == None then Some(Orientation(alpha.value, beta.value)) else old(baseline)) &&
                sample == Some(SampleFromEvent(alpha.value, beta.value, baseline.value))
    {
      if alpha == None || beta == None {
        return None;
      }
      if baseline == None {
        baseline := Some(Orientation(alpha.value, beta.value));
      }
      sample := Some(SampleFromEvent(alpha.value, beta.value, baseline.value));
    }
  }
}
