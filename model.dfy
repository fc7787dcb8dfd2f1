/**
 * The sensor-fusion engine of the sampling service as values: a Snapshot of
 * every engine field, and one function per engine operation giving the
 * snapshot after it. The class in module Service is proved to follow these
 * functions; the lemmas here state what the engine promises.
 */
module Model {
  import opened Vector3
  import opened Frame

  /** A progress notification goes out on every SampleCounterMod-th sample. */
  const SampleCounterMod: int := 1000
  /** Length of the calibration window, and the step by which it is extended. */
  const CalibratingLimit: int := 3000
  /** Half-width of the acceptance band around the gravity magnitude. */
  const AccelDeviationLimit: real := 0.05
  /** In-band accelerometer samples needed before the gravity estimate is re-snapped. */
  const AccelDeviationLength: int := 5
  /** Dead zone for one integration step of a gyroscope axis, in radians. */
  const GyroNoiseLimit: real := 0.06
  /** Minimum wall-clock spacing of diff notifications, in milliseconds. */
  const DiffUpdateTimeout: int := 100
  /** Sensor timestamps are nanoseconds. */
  const NanosPerSecond: real := 1000000000.0

  /** Sensor type codes. The unknown type shares its code with the gyroscope. */
  const SensorTypeNa: int := 0
  const SensorTypeAccel: int := 1
  const SensorTypeGyro: int := 0

  datatype EngineState = Idle | Calibrating | Measuring

  /** Which registered sensor delivered a sample. */
  datatype SensorKind = Accelerometer | Gyroscope | OtherSensor

  /** A sensor event: timestamp in nanoseconds and the reported values. */
  datatype Sample = Sample(timestamp: int, sensor: SensorKind, values: seq<real>)

  /** An outbound call to the notification sink. */
  datatype Event =
    | StatusMessage(state: int)
    | SampleCount(count: int)
    | Diff(v: Vec3)

  /** Every field of the engine, with the calls made to the sink so far. */
  datatype Snapshot = Snapshot(
    state: EngineState,
    samplingStarted: bool,
    listening: bool,
    sinkAttached: bool,
    sampleCounter: int,
    calibratingLimit: int,
    calibratingAccelCounter: int,
    gravity: Vec3,
    gravityAccelLen: real,
    gravityAccelHighLimit: real,
    gravityAccelLowLimit: real,
    gravityAccelLimitLen: int,
    previousTimeStamp: int,
    diffTimeStamp: int,
    events: seq<Event>)

  /** The integer the engine uses for a state (and sends in a status message). */
  function StateCode(st: EngineState): (r: int)
    ensures 0 <= r <= 2
    ensures st == Idle <==> r == 0
    ensures st == Calibrating <==> r == 1
    ensures st == Measuring <==> r == 2
  {
    match st
    case Idle => 0
    case Calibrating => 1
    case Measuring => 2
  }

  /**
   * The type code processSample assigns: only the accelerometer gets the
   * accelerometer code; every other sensor shares the gyroscope's code.
   */
  function SensorTypeOf(kind: SensorKind): (r: int)
    ensures r == SensorTypeAccel <==> kind == Accelerometer
    ensures r == SensorTypeGyro <==> kind != Accelerometer
  {
    match kind
    case Accelerometer => SensorTypeAccel
    case Gyroscope => SensorTypeGyro
    case OtherSensor => SensorTypeNa
  }

  /** The fields of a freshly created service (Java's default values), no sink attached. */
  function Initial(): Snapshot {
    Snapshot(Idle, false, false, false, 0, 0, 0, Zero, 0.0, 0.0, 0.0, 0, 0, 0, [])
  }

  /** The sink's log after a call to it: the call is recorded only when a sink is attached. */
  function Notify(s: Snapshot, e: Event): seq<Event> {
    if s.sinkAttached then s.events + [e] else s.events
  }

  /** after is before with calls appended. */
  predicate Extends(before: seq<Event>, after: seq<Event>) {
    |before| <= |after| && after[..|before|] == before
  }

  /** None of the calls after the first |before| is a progress notification. */
  predicate NoProgressAfter(before: seq<Event>, after: seq<Event>) {
    forall i | |before| <= i < |after| :: !after[i].SampleCount?
  }

  /** The first call made after |before| calls is a progress notification. */
  predicate ProgressReported(before: seq<Event>, after: seq<Event>) {
    |before| < |after| && after[|before|].SampleCount?
  }

  /**
   * setState: the state becomes newState. A status message is sent only on
   * an actual change and only with a sink attached; setting the current
   * state again changes nothing.
   */
  function WithState(s: Snapshot, newState: EngineState): (r: Snapshot)
    ensures r.state == newState
    ensures s.state == newState ==> r == s
    ensures r == s.(state := newState, events := r.events)
    ensures Extends(s.events, r.events) && NoProgressAfter(s.events, r.events)
    ensures |r.events| == |s.events| + (if s.state != newState && s.sinkAttached then 1 else 0)
    ensures |r.events| > |s.events| ==> r.events[|s.events|] == StatusMessage(StateCode(newState))
  {
    if s.state != newState then s.(state := newState, events := Notify(s, StatusMessage(StateCode(newState))))
    else s
  }

  /**
   * stopSampling: nothing happens unless sampling was started; otherwise the
   * listeners are unregistered, sampling is marked stopped and the state is Idle.
   */
  function Stopped(s: Snapshot): (r: Snapshot)
    ensures !s.samplingStarted ==> r == s
    ensures s.samplingStarted ==> r.state == Idle && !r.samplingStarted && !r.listening
    ensures s.samplingStarted ==>
              r == s.(state := Idle, samplingStarted := false, listening := false, events := r.events)
    ensures s.samplingStarted ==>
              r.events == if s.state != Idle then Notify(s, StatusMessage(0)) else s.events
    ensures r.sampleCounter == s.sampleCounter && r.gravity == s.gravity
  {
    if !s.samplingStarted then s
    else WithState(s.(listening := false, samplingStarted := false), Idle)
  }

  /** Stopping twice is stopping once. */
  lemma StopIdempotent(s: Snapshot)
    ensures Stopped(Stopped(s)) == Stopped(s)
  {
  }

  /**
   * initSampling: the sample counter, calibration accumulator, previous gyro
   * timestamp, throttle and reacquisition countdown are reset, and the engine
   * moves to Calibrating.
   */
  function Initialized(s: Snapshot): (r: Snapshot)
    ensures r.state == Calibrating
    ensures r.sampleCounter == 0 && r.previousTimeStamp == -1
    ensures r.calibratingAccelCounter == 0 && r.calibratingLimit == CalibratingLimit
    ensures r.gravity == Zero && r.diffTimeStamp == -1 && r.gravityAccelLimitLen == -1
    ensures r.samplingStarted == s.samplingStarted && r.sinkAttached == s.sinkAttached
    ensures r.listening == s.listening
    ensures r.gravityAccelLen == s.gravityAccelLen
    ensures r.gravityAccelHighLimit == s.gravityAccelHighLimit && r.gravityAccelLowLimit == s.gravityAccelLowLimit
    ensures r.events == if s.state != Calibrating then Notify(s, StatusMessage(1)) else s.events
  {
    var reset := s.(
      sampleCounter := 0,
      previousTimeStamp := -1,
      calibratingAccelCounter := 0,
      calibratingLimit := CalibratingLimit,
      gravity := Zero,
      diffTimeStamp := -1,
      gravityAccelLimitLen := -1);
    WithState(reset, Calibrating)
  }

  /**
   * startSampling: nothing happens when sampling is already started;
   * otherwise the engine is initialised, the listeners are registered only
   * when both sensors exist, and sampling is marked started. A missing sensor
   * does not keep the engine out of Calibrating.
   */
  function Started(s: Snapshot, accelPresent: bool, gyroPresent: bool): (r: Snapshot)
    ensures s.samplingStarted ==> r == s
    ensures !s.samplingStarted ==> r == Initialized(s).(listening := accelPresent && gyroPresent, samplingStarted := true)
    ensures !s.samplingStarted ==> r.state == Calibrating && r.samplingStarted && FreshCalibration(r)
  {
    if s.samplingStarted then s
    else Initialized(s).(listening := accelPresent && gyroPresent, samplingStarted := true)
  }

  /** The fields as initSampling leaves them for the calibration window. */
  predicate FreshCalibration(s: Snapshot) {
    && s.state == Calibrating
    && s.sampleCounter == 0
    && s.calibratingAccelCounter == 0
    && s.calibratingLimit == CalibratingLimit
    && s.gravity == Zero
  }

  /**
   * updateSampleCounter: the counter goes up by one, and a progress
   * notification carrying the new count is sent exactly when the new count is
   * a multiple of SampleCounterMod and a sink is attached.
   */
  function Counted(s: Snapshot): (r: Snapshot)
    ensures r.sampleCounter == s.sampleCounter + 1
    ensures r == s.(sampleCounter := r.sampleCounter, events := r.events)
    ensures Extends(s.events, r.events) && |r.events| <= |s.events| + 1
    ensures ProgressReported(s.events, r.events) <==>
              s.sinkAttached && r.sampleCounter % SampleCounterMod == 0
    ensures |r.events| > |s.events| ==> r.events[|s.events|] == SampleCount(r.sampleCounter)
  {
    var n := s.sampleCounter + 1;
    s.(sampleCounter := n, events := if n % SampleCounterMod == 0 then Notify(s, SampleCount(n)) else s.events)
  }

  /**
   * The end of a calibration window with at least one accelerometer sample:
   * gravity becomes the average, its magnitude is recorded with the
   * acceptance band of +-5% around it, and the engine starts Measuring.
   */
  function Finalized(m: MathLib, s: Snapshot): (r: Snapshot)
    requires s.calibratingAccelCounter != 0
    ensures r.state == Measuring
    ensures r.gravity.x * (s.calibratingAccelCounter as real) == s.gravity.x
    ensures r.gravity.y * (s.calibratingAccelCounter as real) == s.gravity.y
    ensures r.gravity.z * (s.calibratingAccelCounter as real) == s.gravity.z
    ensures r.gravityAccelLen == Magnitude(m, r.gravity)
    ensures r.gravityAccelHighLimit == r.gravityAccelLen * 1.05
    ensures r.gravityAccelLowLimit == r.gravityAccelLen * 0.95
    ensures r.events == if s.state != Measuring then Notify(s, StatusMessage(2)) else s.events
    ensures r == s.(state := Measuring, gravity := r.gravity, gravityAccelLen := r.gravityAccelLen,
                    gravityAccelHighLimit := r.gravityAccelHighLimit,
                    gravityAccelLowLimit := r.gravityAccelLowLimit, events := r.events)
    ensures Extends(s.events, r.events) && NoProgressAfter(s.events, r.events)
  {
    var g := Divided(s.gravity, s.calibratingAccelCounter as real);
    var len := Magnitude(m, g);
    WithState(
      s.(gravity := g,
         gravityAccelLen := len,
         gravityAccelHighLimit := len * (1.0 + AccelDeviationLimit),
         gravityAccelLowLimit := len * (1.0 - AccelDeviationLimit)),
      Measuring)
  }

  /**
   * The first half of processCalibrating: an accelerometer sample is added to
   * the gravity sum and counted; a gyroscope-typed sample only records its
   * timestamp; nothing else changes.
   */
  function Accumulated(s: Snapshot, timeStamp: int, sensorType: int, v: Vec3): (r: Snapshot)
    ensures sensorType == SensorTypeAccel ==>
              r == s.(gravity := Add(s.gravity, v), calibratingAccelCounter := s.calibratingAccelCounter + 1)
    ensures sensorType == SensorTypeGyro ==> r == s.(previousTimeStamp := timeStamp)
    ensures sensorType != SensorTypeAccel && sensorType != SensorTypeGyro ==> r == s
    ensures r == s.(gravity := r.gravity, calibratingAccelCounter := r.calibratingAccelCounter,
                    previousTimeStamp := r.previousTimeStamp)
  {
    if sensorType == SensorTypeAccel then
      s.(gravity := Add(s.gravity, v), calibratingAccelCounter := s.calibratingAccelCounter + 1)
    else if sensorType == SensorTypeGyro then
      s.(previousTimeStamp := timeStamp)
    else
      s
  }

  /**
   * processCalibrating: the sample is accumulated; once the sample counter
   * reaches the limit, a window without accelerometer samples is extended by
   * CalibratingLimit, and any other window is finalized: the average of the
   * accelerometer samples becomes the gravity estimate, with the acceptance
   * band around its length, and the engine starts measuring.
   */
  function AfterCalibrating(m: MathLib, s: Snapshot, timeStamp: int, sensorType: int, v: Vec3): (r: Snapshot)
    ensures var a := Accumulated(s, timeStamp, sensorType, v);
            && r.calibratingAccelCounter == a.calibratingAccelCounter
            && r.previousTimeStamp == a.previousTimeStamp
            && (s.sampleCounter < s.calibratingLimit ==> r == a)
            && (s.sampleCounter >= s.calibratingLimit && a.calibratingAccelCounter == 0 ==>
                  r == a.(calibratingLimit := s.calibratingLimit + CalibratingLimit))
    ensures var a := Accumulated(s, timeStamp, sensorType, v);
            var count := a.calibratingAccelCounter as real;
            s.sampleCounter >= s.calibratingLimit && count != 0.0 ==>
              && r.state == Measuring && r.calibratingLimit == s.calibratingLimit
              && r.gravity.x * count == a.gravity.x
              && r.gravity.y * count == a.gravity.y
              && r.gravity.z * count == a.gravity.z
              && r.gravityAccelLen == Magnitude(m, r.gravity)
              && r.gravityAccelHighLimit == r.gravityAccelLen * 1.05
              && r.gravityAccelLowLimit == r.gravityAccelLen * 0.95
              && r.events == if s.state != Measuring then Notify(s, StatusMessage(2)) else s.events
    ensures r.sampleCounter == s.sampleCounter && r.samplingStarted == s.samplingStarted
    ensures r.listening == s.listening && r.sinkAttached == s.sinkAttached
    ensures r.gravityAccelLimitLen == s.gravityAccelLimitLen && r.diffTimeStamp == s.diffTimeStamp
    ensures r.state == s.state || r.state == Measuring
    ensures Extends(s.events, r.events) && NoProgressAfter(s.events, r.events)
  {
    var a := Accumulated(s, timeStamp, sensorType, v);
    if a.sampleCounter < a.calibratingLimit then a
    else if a.calibratingAccelCounter == 0 then a.(calibratingLimit := a.calibratingLimit + CalibratingLimit)
    else Finalized(m, a)
  }

  function Abs(v: real): real {
    if v < 0.0 then -v else v
  }

  /**
   * gyroNoiseLimiter: an integration step inside the dead zone counts as
   * zero; any other step passes unchanged.
   */
  function GyroNoiseLimiter(v: real): (r: real)
    ensures r == 0.0 || r == v
    ensures r != 0.0 ==> Abs(r) >= GyroNoiseLimit
    ensures Abs(v) >= GyroNoiseLimit ==> r == v
  {
    if InDeadZone(v) then 0.0 else v
  }

  /** Limiting twice is limiting once. */
  lemma GyroNoiseLimiterIdempotent(v: real)
    ensures GyroNoiseLimiter(GyroNoiseLimiter(v)) == GyroNoiseLimiter(v)
  {
  }

  /** The step of one gyroscope axis lies in the dead zone. */
  predicate InDeadZone(v: real) {
    Abs(v) < GyroNoiseLimit
  }

  /** The angle increments of one gyroscope step: rate times dt on each axis, through the dead zone. */
  function GyroIncrements(rate: Vec3, dt: real): (r: Vec3)
    ensures InDeadZone(rate.x * dt) ==> r.x == 0.0
    ensures InDeadZone(rate.y * dt) ==> r.y == 0.0
    ensures InDeadZone(rate.z * dt) ==> r.z == 0.0
    ensures !InDeadZone(rate.x * dt) ==> r.x == rate.x * dt
    ensures !InDeadZone(rate.y * dt) ==> r.y == rate.y * dt
    ensures !InDeadZone(rate.z * dt) ==> r.z == rate.z * dt
  {
    Vec3(GyroNoiseLimiter(rate.x * dt), GyroNoiseLimiter(rate.y * dt), GyroNoiseLimiter(rate.z * dt))
  }

  /**
   * One gyroscope integration step: the gravity estimate is rotated by the
   * negated increments about x, then y, then z. When sine and cosine satisfy
   * sin^2 + cos^2 = 1 at those angles, the estimate keeps its length.
   */
  function GyroRotated(m: MathLib, gravity: Vec3, rate: Vec3, dt: real): (r: Vec3)
    ensures var d := GyroIncrements(rate, dt);
            Pythagorean(m, -d.x) && Pythagorean(m, -d.y) && Pythagorean(m, -d.z) ==>
              NormSq(r) == NormSq(gravity)
  {
    var d := GyroIncrements(rate, dt);
    RotZ(m, RotY(m, RotX(m, gravity, -d.x), -d.y), -d.z)
  }

  /** The three rotations of a gyroscope step, by the negated increments d, about x, then y, then z. */
  function StepRotations(m: MathLib, gravity: Vec3, d: Vec3): Vec3 {
    RotZ(m, RotY(m, RotX(m, gravity, -d.x), -d.y), -d.z)
  }

  lemma GyroRotatedIsStepRotations(m: MathLib, gravity: Vec3, rate: Vec3, dt: real)
    ensures GyroRotated(m, gravity, rate, dt) == StepRotations(m, gravity, GyroIncrements(rate, dt))
  {
  }

  /** A value in the dead zone is limited to zero. */
  lemma LimiterInDeadZone(v: real)
    requires InDeadZone(v)
    ensures GyroNoiseLimiter(v) == 0.0
  {
  }

  /** Step rotations with zero y and z increments are the rotation about x alone. */
  lemma StepRotationsAboutX(m: MathLib, gravity: Vec3, d: Vec3)
    requires ZeroAngle(m) && d.y == 0.0 && d.z == 0.0
    ensures StepRotations(m, gravity, d) == RotX(m, gravity, -d.x)
  {
    RotationByZeroIsIdentity(m, RotX(m, gravity, -d.x));
    assert -d.y == 0.0 && -d.z == 0.0;
  }

  /** Step rotations with zero x and z increments are the rotation about y alone. */
  lemma StepRotationsAboutY(m: MathLib, gravity: Vec3, d: Vec3)
    requires ZeroAngle(m) && d.x == 0.0 && d.z == 0.0
    ensures StepRotations(m, gravity, d) == RotY(m, gravity, -d.y)
  {
    RotationByZeroIsIdentity(m, gravity);
    RotationByZeroIsIdentity(m, RotY(m, gravity, -d.y));
    assert -d.x == 0.0 && -d.z == 0.0;
  }

  /** Step rotations with zero x and y increments are the rotation about z alone. */
  lemma StepRotationsAboutZ(m: MathLib, gravity: Vec3, d: Vec3)
    requires ZeroAngle(m) && d.x == 0.0 && d.y == 0.0
    ensures StepRotations(m, gravity, d) == RotZ(m, gravity, -d.z)
  {
    RotationByZeroIsIdentity(m, gravity);
    assert -d.x == 0.0 && -d.y == 0.0;
  }

  /**
   * With the y and z increments in the dead zone, a gyroscope step is the
   * rotation about x by the negated limited x increment.
   */
  lemma {:induction false} GyroStepAboutX(m: MathLib, gravity: Vec3, rate: Vec3, dt: real)
    requires ZeroAngle(m)
    requires InDeadZone(rate.y * dt) && InDeadZone(rate.z * dt)
    ensures GyroRotated(m, gravity, rate, dt) == RotX(m, gravity, -GyroNoiseLimiter(rate.x * dt))
  {
    GyroRotatedIsStepRotations(m, gravity, rate, dt);
    LimiterInDeadZone(rate.y * dt);
    LimiterInDeadZone(rate.z * dt);
    StepRotationsAboutX(m, gravity, GyroIncrements(rate, dt));
  }

  /**
   * With the x and z increments in the dead zone, a gyroscope step is the
   * rotation about y by the negated limited y increment.
   */
  lemma {:induction false} GyroStepAboutY(m: MathLib, gravity: Vec3, rate: Vec3, dt: real)
    requires ZeroAngle(m)
    requires InDeadZone(rate.x * dt) && InDeadZone(rate.z * dt)
    ensures GyroRotated(m, gravity, rate, dt) == RotY(m, gravity, -GyroNoiseLimiter(rate.y * dt))
  {
    GyroRotatedIsStepRotations(m, gravity, rate, dt);
    LimiterInDeadZone(rate.x * dt);
    LimiterInDeadZone(rate.z * dt);
    StepRotationsAboutY(m, gravity, GyroIncrements(rate, dt));
  }

  /**
   * With the x and y increments in the dead zone, a gyroscope step is the
   * rotation about z by the negated limited z increment.
   */
  lemma {:induction false} GyroStepAboutZ(m: MathLib, gravity: Vec3, rate: Vec3, dt: real)
    requires ZeroAngle(m)
    requires InDeadZone(rate.x * dt) && InDeadZone(rate.y * dt)
    ensures GyroRotated(m, gravity, rate, dt) == RotZ(m, gravity, -GyroNoiseLimiter(rate.z * dt))
  {
    GyroRotatedIsStepRotations(m, gravity, rate, dt);
    LimiterInDeadZone(rate.x * dt);
    LimiterInDeadZone(rate.y * dt);
    StepRotationsAboutZ(m, gravity, GyroIncrements(rate, dt));
  }

  /** When every increment is in the dead zone, a gyroscope step leaves the estimate unchanged. */
  lemma {:induction false} DeadZoneKeepsGravity(m: MathLib, gravity: Vec3, rate: Vec3, dt: real)
    requires ZeroAngle(m)
    requires InDeadZone(rate.x * dt) && InDeadZone(rate.y * dt) && InDeadZone(rate.z * dt)
    ensures GyroRotated(m, gravity, rate, dt) == gravity
  {
    var d := GyroIncrements(rate, dt);
    assert -d.x == 0.0 && -d.y == 0.0 && -d.z == 0.0;
    RotationByZeroIsIdentity(m, gravity);
  }

  /** The reacquisition countdown after one accelerometer sample, and whether gravity snaps to it. */
  datatype Reacquisition = Reacquisition(counter: int, snap: bool)

  /**
   * The reacquisition countdown: an out-of-band sample makes it inactive (-1);
   * an in-band sample starts it at AccelDeviationLength when inactive, counts
   * it down, and snaps once it reaches zero, where it is then held, so every
   * further in-band sample snaps as well.
   */
  function Reacquire(counter: int, inBand: bool): (r: Reacquisition)
    ensures !inBand ==> r == Reacquisition(-1, false)
    ensures r.snap <==> inBand && 0 <= counter <= 1
    ensures inBand && counter < 0 ==> r.counter == AccelDeviationLength - 1
    ensures inBand && counter > 1 ==> r.counter == counter - 1
    ensures r.snap ==> r.counter == 0
    ensures counter <= AccelDeviationLength ==> -1 <= r.counter < AccelDeviationLength
  {
    if inBand then
      var c := (if counter < 0 then AccelDeviationLength else counter) - 1;
      if c <= 0 then Reacquisition(0, true) else Reacquisition(c, false)
    else
      Reacquisition(-1, false)
  }

  /** The live accelerometer magnitude lies strictly inside the acceptance band. */
  predicate InBand(m: MathLib, s: Snapshot, v: Vec3) {
    var len := Magnitude(m, v);
    len < s.gravityAccelHighLimit && len > s.gravityAccelLowLimit
  }

  /** The throttle lets a diff through: never sent before, or more than 100 ms ago. */
  predicate DiffDue(s: Snapshot, now: int) {
    s.diffTimeStamp < 0 || now - s.diffTimeStamp > DiffUpdateTimeout
  }

  /**
   * sendDiff at wall-clock time now (ms): a diff that is due is sent (when a
   * sink is attached) and stamps the throttle with now; one that is not due is
   * dropped without any change.
   */
  function AfterSendDiff(s: Snapshot, v: Vec3, now: int): (r: Snapshot)
    ensures !DiffDue(s, now) ==> r == s
    ensures DiffDue(s, now) ==> r.diffTimeStamp == now
    ensures r == s.(diffTimeStamp := r.diffTimeStamp, events := r.events)
    ensures r.events == if DiffDue(s, now) && s.sinkAttached then s.events + [Diff(v)] else s.events
  {
    if DiffDue(s, now) then
      s.(diffTimeStamp := now, events := Notify(s, Diff(v)))
    else
      s
  }

  /**
   * Two diffs offered back to back at times t and t + d, the first of which
   * goes through: the second goes through exactly when d > 100; at exactly
   * 100 ms it is dropped.
   */
  lemma ThrottleSpacing(s: Snapshot, v1: Vec3, v2: Vec3, t: int, d: int)
    requires DiffDue(s, t) && t >= 0
    ensures var s1 := AfterSendDiff(s, v1, t);
            s1.diffTimeStamp == t && (DiffDue(s1, t + d) <==> d > DiffUpdateTimeout)
  {
  }

  /**
   * processMeasuring. An accelerometer sample drives the reacquisition
   * countdown (which may snap gravity to the sample), and the difference
   * between the sample and gravity, rotated into the earth frame, is offered
   * to the throttle. A gyroscope-typed sample rotates gravity by the
   * integrated angular rate when a previous gyroscope timestamp exists, and
   * always records its own timestamp.
   */
  function AfterMeasuring(m: MathLib, s: Snapshot, timeStamp: int, sensorType: int, v: Vec3, now: int): (r: Snapshot)
    ensures sensorType == SensorTypeAccel ==>
              var re := Reacquire(s.gravityAccelLimitLen, InBand(m, s, v));
              && r.gravityAccelLimitLen == re.counter
              && r.gravity == (if re.snap then v else s.gravity)
              && r == AfterSendDiff(s.(gravityAccelLimitLen := re.counter, gravity := r.gravity),
                                    RotateToEarth(m, VecDiff(v, r.gravity), r.gravity), now)
    ensures sensorType == SensorTypeAccel && !InBand(m, s, v) ==>
              r.gravityAccelLimitLen == -1 && r.gravity == s.gravity
    ensures sensorType == SensorTypeAccel && InBand(m, s, v) && 0 <= s.gravityAccelLimitLen <= 1 ==>
              r.gravity == v && r.gravityAccelLimitLen == 0
    ensures sensorType == SensorTypeGyro ==>
              && r.previousTimeStamp == timeStamp
              && (s.previousTimeStamp < 0 ==> r.gravity == s.gravity)
              && (s.previousTimeStamp >= 0 ==>
                    r.gravity == GyroRotated(m, s.gravity, v, (timeStamp - s.previousTimeStamp) as real / NanosPerSecond))
              && r == s.(gravity := r.gravity, previousTimeStamp := timeStamp)
    ensures sensorType != SensorTypeAccel && sensorType != SensorTypeGyro ==> r == s
    ensures r.state == s.state && r.sampleCounter == s.sampleCounter
    ensures r.calibratingLimit == s.calibratingLimit && r.calibratingAccelCounter == s.calibratingAccelCounter
    ensures r.gravityAccelHighLimit == s.gravityAccelHighLimit && r.gravityAccelLowLimit == s.gravityAccelLowLimit
    ensures r.samplingStarted == s.samplingStarted
    ensures Extends(s.events, r.events) && NoProgressAfter(s.events, r.events)
  {
    if sensorType == SensorTypeAccel then
      var re := Reacquire(s.gravityAccelLimitLen, InBand(m, s, v));
      var g := if re.snap then v else s.gravity;
      var s1 := s.(gravityAccelLimitLen := re.counter, gravity := g);
      AfterSendDiff(s1, RotateToEarth(m, VecDiff(v, g), g), now)
    else if sensorType == SensorTypeGyro then
      var g := if s.previousTimeStamp >= 0
        then GyroRotated(m, s.gravity, v, (timeStamp - s.previousTimeStamp) as real / NanosPerSecond)
        else s.gravity;
      s.(gravity := g, previousTimeStamp := timeStamp)
    else
      s
  }

  /**
   * processSample with the wall clock reading now (ms). A sample with fewer
   * than three values is discarded with no change at all. Any other sample is
   * counted (in every state, Idle included), with a progress notification on
   * every SampleCounterMod-th one when a sink is attached, and is then handled
   * by the calibration or measuring path of the current state.
   */
  function AfterSample(m: MathLib, s: Snapshot, sample: Sample, now: int): (r: Snapshot)
    ensures |sample.values| < 3 ==> r == s
    ensures |sample.values| >= 3 ==> r.sampleCounter == s.sampleCounter + 1
    ensures |sample.values| >= 3 ==>
              (ProgressReported(s.events, r.events) <==>
                 s.sinkAttached && (s.sampleCounter + 1) % SampleCounterMod == 0)
    ensures |sample.values| >= 3 && ProgressReported(s.events, r.events) ==>
              r.events[|s.events|] == SampleCount(s.sampleCounter + 1)
    ensures |sample.values| >= 3 && s.state == Idle ==> r == Counted(s)
    ensures |sample.values| >= 3 && s.state == Calibrating ==>
              r.calibratingAccelCounter ==
                s.calibratingAccelCounter + (if sample.sensor == Accelerometer then 1 else 0)
    ensures |sample.values| >= 3 && s.state != Idle && sample.sensor != Accelerometer ==>
              r.previousTimeStamp == sample.timestamp
    ensures |sample.values| >= 3 && s.state == Measuring ==> r.state == Measuring
    ensures Extends(s.events, r.events)
    ensures r.samplingStarted == s.samplingStarted
  {
    if |sample.values| < 3 then s
    else
      var s1 := Counted(s);
      var sensorType := SensorTypeOf(sample.sensor);
      var v := VecOf(sample.values);
      match s1.state
      case Calibrating => AfterCalibrating(m, s1, sample.timestamp, sensorType, v)
      case Measuring => AfterMeasuring(m, s1, sample.timestamp, sensorType, v, now)
      case Idle => s1
  }

  /**
   * A sample that changes the state reports it: with a sink attached, the
   * last call it makes is the status message carrying the new state's code.
   */
  lemma SampleReportsStateChange(m: MathLib, s: Snapshot, sample: Sample, now: int)
    ensures var r := AfterSample(m, s, sample, now);
            r.state != s.state ==>
              && s.state == Calibrating && r.state == Measuring
              && (s.sinkAttached ==> |r.events| > 0 && r.events[|r.events| - 1] == StatusMessage(StateCode(r.state)))
  {
  }

  /** A sample from a sensor that is neither registered sensor is handled exactly as a gyroscope sample. */
  lemma UnknownSensorTakesGyroPath(m: MathLib, s: Snapshot, t: int, values: seq<real>, now: int)
    ensures AfterSample(m, s, Sample(t, OtherSensor, values), now) == AfterSample(m, s, Sample(t, Gyroscope, values), now)
  {
  }

  /**
   * What holds of the fields between operations: the reacquisition countdown
   * stays in [-1, AccelDeviationLength); the engine is out of Idle exactly
   * while sampling is started; the counters are non-negative; a started
   * engine's window ends at a positive multiple of CalibratingLimit; and while
   * Calibrating the sample counter is below the window's end, so a window is
   * closed by the sample whose count equals the limit.
   */
  predicate Inv(s: Snapshot) {
    && -1 <= s.gravityAccelLimitLen < AccelDeviationLength
    && (s.samplingStarted <==> s.state != Idle)
    && 0 <= s.sampleCounter && 0 <= s.calibratingAccelCounter
    && (s.samplingStarted ==>
          CalibratingLimit <= s.calibratingLimit && s.calibratingLimit % CalibratingLimit == 0)
    && (s.state == Calibrating ==> s.sampleCounter < s.calibratingLimit)
  }

  lemma InitialSatisfiesInv()
    ensures Inv(Initial())
  {
  }

  lemma StartKeepsInv(s: Snapshot, accelPresent: bool, gyroPresent: bool)
    requires Inv(s)
    ensures Inv(Started(s, accelPresent, gyroPresent))
  {
  }

  lemma StopKeepsInv(s: Snapshot)
    requires Inv(s)
    ensures Inv(Stopped(s))
  {
  }

  lemma SampleKeepsInv(m: MathLib, s: Snapshot, sample: Sample, now: int)
    requires Inv(s)
    ensures Inv(AfterSample(m, s, sample, now))
  {
    if |sample.values| >= 3 {
      var s1 := Counted(s);
      var sensorType := SensorTypeOf(sample.sensor);
      var v := VecOf(sample.values);
      match s1.state
      case Calibrating => CalibratingStepKeepsInv(m, s1, sample.timestamp, sensorType, v);
      case Measuring => MeasuringStepKeepsInv(m, s1, sample.timestamp, sensorType, v, now);
      case Idle =>
    }
  }

  /** The calibrating step restores the invariant once the counter has been advanced. */
  lemma CalibratingStepKeepsInv(m: MathLib, s: Snapshot, timeStamp: int, sensorType: int, v: Vec3)
    requires s.state == Calibrating && s.samplingStarted
    requires -1 <= s.gravityAccelLimitLen < AccelDeviationLength
    requires 0 <= s.sampleCounter <= s.calibratingLimit && 0 <= s.calibratingAccelCounter
    requires CalibratingLimit <= s.calibratingLimit && s.calibratingLimit % CalibratingLimit == 0
    ensures Inv(AfterCalibrating(m, s, timeStamp, sensorType, v))
  {
  }

  /** The measuring step keeps the invariant. */
  lemma MeasuringStepKeepsInv(m: MathLib, s: Snapshot, timeStamp: int, sensorType: int, v: Vec3, now: int)
    requires s.state == Measuring && Inv(s)
    ensures Inv(AfterMeasuring(m, s, timeStamp, sensorType, v, now))
  {
  }

  /**
   * Calibration ends only on the sample whose count equals the window's
   * limit, and only with at least one accelerometer sample in the window.
   */
  lemma CalibrationEndsAtLimit(m: MathLib, s: Snapshot, sample: Sample, now: int)
    requires Inv(s) && s.state == Calibrating
    ensures var r := AfterSample(m, s, sample, now);
            && (r.state == Calibrating || r.state == Measuring)
            && (r.state == Measuring ==>
                  r.sampleCounter == s.calibratingLimit && r.calibratingAccelCounter > 0)
  {
  }

  /** The samples delivered one after another, all at wall-clock time now. */
  function AfterSamples(m: MathLib, s: Snapshot, samples: seq<Sample>, now: int): Snapshot
    decreases |samples|
  {
    if samples == [] then s
    else AfterSample(m, AfterSamples(m, s, samples[..|samples| - 1], now), samples[|samples| - 1], now)
  }

  function Scaled(v: Vec3, k: real): Vec3 {
    Vec3(k * v.x, k * v.y, k * v.z)
  }

  /** An accelerometer sample reporting v. */
  function AccelSample(t: int, v: Vec3): Sample {
    Sample(t, Accelerometer, ToSeq(v))
  }

  /** Within the window, k equal accelerometer samples add up to k times their vector. */
  lemma {:induction false} ConstantAccelAccumulates(m: MathLib, s: Snapshot, v: Vec3, t: int, now: int, k: nat)
    requires FreshCalibration(s) && k < CalibratingLimit
    ensures var r := AfterSamples(m, s, seq(k, _ => AccelSample(t, v)), now);
            && r.state == Calibrating && r.sampleCounter == k && r.calibratingAccelCounter == k
            && r.calibratingLimit == CalibratingLimit && r.gravity == Scaled(v, k as real)
  {
    if k > 0 {
      var xs := seq(k, _ => AccelSample(t, v));
      assert xs[..k - 1] == seq(k - 1, _ => AccelSample(t, v));
      ConstantAccelAccumulates(m, s, v, t, now, k - 1);
      var prev := AfterSamples(m, s, xs[..k - 1], now);
      var c := Counted(prev);
      assert AfterSamples(m, s, xs, now) == AfterSample(m, prev, AccelSample(t, v), now);
      assert AfterSample(m, prev, AccelSample(t, v), now) == AfterCalibrating(m, c, t, SensorTypeAccel, v);
      ScaledStep(v, (k - 1) as real);
    }
  }

  lemma ScaledStep(v: Vec3, k: real)
    ensures Add(Scaled(v, k), v) == Scaled(v, k + 1.0)
  {
  }

  /**
   * A calibration window filled with one constant accelerometer reading v
   * ends in Measuring with gravity exactly v, its magnitude, and the band
   * [0.95, 1.05] times that magnitude.
   */
  lemma CalibrationAveragesConstantInput(m: MathLib, s: Snapshot, v: Vec3, t: int, now: int)
    requires FreshCalibration(s)
    ensures var r := AfterSamples(m, s, seq(CalibratingLimit, _ => AccelSample(t, v)), now);
            && r.state == Measuring && r.gravity == v
            && r.gravityAccelLen == Magnitude(m, v)
            && r.gravityAccelHighLimit == Magnitude(m, v) * 1.05
            && r.gravityAccelLowLimit == Magnitude(m, v) * 0.95
  {
    var xs := seq(CalibratingLimit, _ => AccelSample(t, v));
    assert xs[..CalibratingLimit - 1] == seq(CalibratingLimit - 1, _ => AccelSample(t, v));
    ConstantAccelAccumulates(m, s, v, t, now, CalibratingLimit - 1);
  }

  /** A gyroscope sample reporting angular rate w. */
  function GyroSample(t: int, w: Vec3): Sample {
    Sample(t, Gyroscope, ToSeq(w))
  }

  /**
   * A window that sees no accelerometer sample is not finalized: on its last
   * sample it is extended by CalibratingLimit and the engine stays Calibrating.
   */
  lemma {:induction false} WindowWithoutAccelExtends(m: MathLib, s: Snapshot, w: Vec3, t: int, now: int, k: nat)
    requires FreshCalibration(s) && k <= CalibratingLimit
    ensures var r := AfterSamples(m, s, seq(k, _ => GyroSample(t, w)), now);
            && r.state == Calibrating && r.sampleCounter == k && r.calibratingAccelCounter == 0
            && r.gravity == Zero
            && r.calibratingLimit == (if k < CalibratingLimit then CalibratingLimit else 2 * CalibratingLimit)
  {
    if k > 0 {
      var xs := seq(k, _ => GyroSample(t, w));
      assert xs[..k - 1] == seq(k - 1, _ => GyroSample(t, w));
      WindowWithoutAccelExtends(m, s, w, t, now, k - 1);
    }
  }

  /**
   * Reacquisition: from an inactive countdown, a run of in-band accelerometer
   * samples leaves gravity alone for four samples and snaps it to the sample
   * on the fifth; the countdown then stays at 0, so the snap repeats on every
   * further in-band sample.
   */
  lemma {:induction false} InBandRunSnapsOnFifth(m: MathLib, s: Snapshot, v: Vec3, t: int, now: int, k: nat)
    requires s.state == Measuring && s.gravityAccelLimitLen == -1 && InBand(m, s, v)
    ensures var r := AfterSamples(m, s, seq(k, _ => AccelSample(t, v)), now);
            && r.state == Measuring
            && r.gravityAccelHighLimit == s.gravityAccelHighLimit
            && r.gravityAccelLowLimit == s.gravityAccelLowLimit
            && r.gravityAccelLimitLen == (if k == 0 then -1 else if k < AccelDeviationLength then AccelDeviationLength - k else 0)
            && r.gravity == (if k < AccelDeviationLength then s.gravity else v)
  {
    if k > 0 {
      var xs := seq(k, _ => AccelSample(t, v));
      assert xs[..k - 1] == seq(k - 1, _ => AccelSample(t, v));
      InBandRunSnapsOnFifth(m, s, v, t, now, k - 1);
    }
  }
}
