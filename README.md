# Gyro/accelerometer sampling engine — a Dafny model

This project models the sensor-fusion engine of the GyroAccel Android service,
`SamplingService`. The engine is a sequential state machine driven one sensor
sample at a time:

- **Idle → Calibrating.** Starting sampling resets the counters and gravity
  estimate and enters Calibrating.
- **Calibrating.** Accelerometer samples are summed until the global sample
  counter reaches the window's limit. The window is then either extended by
  3000 samples (no accelerometer sample seen) or finalized: the average
  becomes the gravity estimate, a ±5% acceptance band is put around its
  length, and the engine enters Measuring.
- **Measuring.** Gyroscope samples rotate the gravity estimate by the
  integrated angular rate. Small steps are cut to zero by a dead-zone
  limiter. Accelerometer samples drive a reacquisition countdown that snaps
  gravity to the live reading after five in-band samples. Each accelerometer
  sample's difference from gravity is rotated into the earth frame and
  offered to a 100 ms throttle before it goes to the attached sink.
- **Every sample** of three or more values is counted. Each 1000th one
  reports progress to the sink.

Layout:

- `vector3.dfy` (module `Vector3`): triples of reals, `vecdiff`, and the
  per-axis plane rotations `rotx`/`roty`/`rotz`. Each rotation appears both as
  a function on triples and as an in-place method on a `double[3]`. The
  methods are proved to compute the functions.
- `frame.dfy` (module `Frame`): `fixAtanDegree` and `rotateToEarth`.
- `model.dfy` (module `Model`): the engine's fields as a value (`Snapshot`)
  and one function per engine operation. It also holds the invariant and the
  lemmas about single operations and about runs of samples (`AfterSamples`).
- `service.dfy` (module `Service`): class `SamplingService`. Its fields are
  the engine's fields, and the gravity estimate is an `array<real>` updated in
  place. Each method states its new `View()` (the fields read as a
  `Snapshot`) in terms of the old one. The methods that mirror an engine
  operation leave it equal to the matching `Model` function of the old
  fields. `SetCallback`, `RemoveCallback`, `ClearGravity` and `AverageGravity` state
  their single-field update directly. `ReacquireGravity` and `RotateByGyro` state
  theirs through `Model.Reacquire` and `Model.GyroRotated`. The public methods
  also keep `Model.Inv`.

The calls the engine makes to the activity's callback interface
(`statusMessage`, `sampleCounter`, `diff`) are recorded in a ghost log of
`Event`s. They are recorded only while a sink is attached. Sensor type codes
are kept as the source's integers: "no sensor" and the gyroscope share code
0, so a sample from an unknown sensor takes the gyroscope path.

`java.lang.Math` (`sqrt`, `sin`, `cos`, `atan2`) is the value
`Vector3.MathLib`, a record of functions passed as a parameter. The model states nothing
about their numeric values. Every fact a lemma needs is a
hypothesis:

- `ZeroAngle`: sin 0 = 0 and cos 0 = 1.
- `Pythagorean`: sin² + cos² = 1 at the angle.
- `Symmetric`: sin is odd and cos is even at the angle.

Doubles are modelled as exact reals.

The engine behaves as follows in four places where a caller might expect
otherwise, and the model does the same:

- `startSampling` returns at once when sampling is already started. It does
  not stop and restart.
- After the reacquisition snap, the countdown is held at 0, not reset to -1.
  Every further in-band sample of the same run therefore snaps again.
- A missing accelerometer or gyroscope only prevents listener registration.
  The engine still enters Calibrating and sampling is marked started.
- `fixAtanDegree` folds both left quadrants into (0, pi/2). For gravity with
  x < 0 and y != 0, the yaw rotation therefore does not bring gravity into
  the x-z plane, and the "earth-frame" diff is not gravity-aligned.
  `Frame.UpperLeftGravityStaysOffAxis` shows gravity (-1, 1, 0) ending along
  +y.

## Model

| member | source | states |
|---|---|---|
| Model.StateCode | src/aexp/gyroaccel/SamplingService.java:36-38 | Idle, Calibrating and Measuring are exactly the codes 0, 1 and 2 |
| Model.SensorTypeOf | src/aexp/gyroaccel/SamplingService.java:216-225 | only the accelerometer gets the accelerometer code; every other sensor, unknown ones included, gets the gyroscope code |
| Model.WithState | src/aexp/gyroaccel/SamplingService.java:146-163 | setState leaves state == newState and changes nothing else; it appends exactly one StatusMessage(newState), and only when the state changed and a sink is attached; re-setting the current state is a no-op |
| Model.Stopped | src/aexp/gyroaccel/SamplingService.java:76-89 | stopSampling is a no-op unless started; otherwise sampling is cleared, listeners are unregistered and the state is Idle, with every other field kept; StatusMessage(0) is sent iff the state was not Idle and a sink is attached |
| Model.StopIdempotent | src/aexp/gyroaccel/SamplingService.java:76-89 | stopping twice equals stopping once |
| Model.Initialized | src/aexp/gyroaccel/SamplingService.java:131-144 | initSampling resets the counter to 0, the previous timestamp to -1, the accelerometer count to 0, the limit to 3000, gravity to zero, the throttle stamp to -1 and the countdown to -1, then enters Calibrating; the acceptance band and sink are kept; StatusMessage(1) is sent iff the state was not Calibrating and a sink is attached |
| Model.Started | src/aexp/gyroaccel/SamplingService.java:91-129 | startSampling is a no-op when started; otherwise it is initSampling plus listeners registered iff both sensors exist, and it ends freshly Calibrating with sampling started even when a sensor is missing |
| Model.Counted | src/aexp/gyroaccel/SamplingService.java:187-210 | updateSampleCounter adds exactly 1; a progress event carrying the new count is appended iff a sink is attached and the new count is a multiple of 1000; nothing else changes |
| Model.Finalized | src/aexp/gyroaccel/SamplingService.java:262-279 | gravity times the accelerometer count equals the sum on every axis; its length is Math.sqrt of the squared norm; the band is len*1.05 and len*0.95; state is Measuring; only these fields change; StatusMessage(2) is sent iff the state was not Measuring and a sink is attached |
| Model.Accumulated | src/aexp/gyroaccel/SamplingService.java:250-257 | an accelerometer sample is added to the sum and counted; a gyroscope-typed sample only records its timestamp; nothing else changes |
| Model.AfterCalibrating | src/aexp/gyroaccel/SamplingService.java:249-282 | before the limit, only the accumulation; at the limit with no accelerometer sample, the limit grows by exactly 3000 and the state stays; otherwise the average, length and band of Finalized and Measuring, with StatusMessage(2) sent iff the state was not already Measuring and a sink is attached; no progress event is sent |
| Model.GyroNoiseLimiter | src/aexp/gyroaccel/SamplingService.java:357-362 | the result is 0 or the input; a nonzero result has magnitude at least 0.06; an input of magnitude at least 0.06 passes unchanged |
| Model.GyroNoiseLimiterIdempotent | src/aexp/gyroaccel/SamplingService.java:357-362 | limiting twice is limiting once |
| Model.GyroIncrements | src/aexp/gyroaccel/SamplingService.java:333-336 | each increment is 0 when rate times dt lies in the dead zone and rate times dt otherwise |
| Model.GyroStepAboutX | src/aexp/gyroaccel/SamplingService.java:333-339 | with the y and z increments in the dead zone, the gyro step is rotx by minus the limited x increment, given sin 0 = 0 and cos 0 = 1 |
| Model.GyroStepAboutY | src/aexp/gyroaccel/SamplingService.java:333-339 | with the x and z increments in the dead zone, the gyro step is roty by minus the limited y increment, given sin 0 = 0 and cos 0 = 1 |
| Model.GyroStepAboutZ | src/aexp/gyroaccel/SamplingService.java:333-339 | with the x and y increments in the dead zone, the gyro step is rotz by minus the limited z increment, given sin 0 = 0 and cos 0 = 1 |
| Model.GyroRotated | src/aexp/gyroaccel/SamplingService.java:333-339 | the gyro step keeps the squared length of gravity when sin²+cos²=1 at the three limited angles |
| Model.DeadZoneKeepsGravity | src/aexp/gyroaccel/SamplingService.java:333-339 | a step whose three increments lie in the dead zone leaves gravity unchanged, given sin 0 = 0 and cos 0 = 1 |
| Model.Reacquire | src/aexp/gyroaccel/SamplingService.java:294-306 | out of band: counter -1, no snap; in band: starts at 5 when inactive, counts down, and snaps iff the counter was 0 or 1; after a snap the counter is 0; the counter stays in [-1, 5) |
| Model.AfterSendDiff | src/aexp/gyroaccel/SamplingService.java:445-462 | a diff is due iff the stamp is negative or now - stamp > 100; a due diff stamps now and is sent iff a sink is attached; one that is not due changes nothing |
| Model.ThrottleSpacing | src/aexp/gyroaccel/SamplingService.java:445-462 | after a diff goes through at t, the next one at t + d goes through iff d > 100 (exactly 100 is dropped) |
| Model.AfterMeasuring | src/aexp/gyroaccel/SamplingService.java:284-355 | accelerometer: countdown and gravity as Reacquire says (out of band: -1 and gravity kept; the fifth in-band sample snaps), then the earth-frame diff of the sample and the new gravity is offered to sendDiff; gyro-typed: gravity rotated by GyroRotated only when a previous timestamp exists, and the timestamp always recorded; state, counters and band unchanged |
| Model.AfterSample | src/aexp/gyroaccel/SamplingService.java:212-247 | a sample of fewer than 3 values changes nothing; any other one adds exactly 1 to the counter, with a progress event iff a sink is attached and the new count is a multiple of 1000, and that event carries the new count; in Idle the result is exactly Counted (nothing else changes, nothing else is sent); while Calibrating the accelerometer count grows by 1 exactly for an accelerometer sample; outside Idle every non-accelerometer sample records its timestamp; Measuring stays Measuring |
| Model.SampleReportsStateChange | src/aexp/gyroaccel/SamplingService.java:146-163 | a sample changes the state only from Calibrating to Measuring, and then, with a sink attached, its last call is StatusMessage with the new state's code |
| Model.UnknownSensorTakesGyroPath | src/aexp/gyroaccel/SamplingService.java:39-41 | a sample from an unknown sensor has exactly the effect of a gyroscope sample |
| Model.InitialSatisfiesInv | src/aexp/gyroaccel/SamplingService.java:495-512 | the default field values satisfy the invariant |
| Model.StartKeepsInv | src/aexp/gyroaccel/SamplingService.java:91-144 | startSampling keeps the invariant |
| Model.StopKeepsInv | src/aexp/gyroaccel/SamplingService.java:76-89 | stopSampling keeps the invariant |
| Model.SampleKeepsInv | src/aexp/gyroaccel/SamplingService.java:212-355 | processSample keeps the invariant: countdown in [-1, 5), started iff not Idle, limit a positive multiple of 3000, counter below the limit while Calibrating |
| Model.CalibratingStepKeepsInv | src/aexp/gyroaccel/SamplingService.java:249-282 | a calibrating step from an advanced counter no later than the limit restores the invariant |
| Model.MeasuringStepKeepsInv | src/aexp/gyroaccel/SamplingService.java:284-355 | a measuring step keeps the invariant |
| Model.CalibrationEndsAtLimit | src/aexp/gyroaccel/SamplingService.java:258-281 | from Calibrating a sample leads to Calibrating or Measuring, and to Measuring only on the sample whose count equals the limit with at least one accelerometer sample summed |
| Model.ConstantAccelAccumulates | src/aexp/gyroaccel/SamplingService.java:249-258 | k < 3000 equal accelerometer samples from a fresh start sum to k times the vector, with both counters at k and the state still Calibrating |
| Model.CalibrationAveragesConstantInput | src/aexp/gyroaccel/SamplingService.java:249-282 | 3000 equal accelerometer samples from a fresh start end in Measuring with gravity equal to the sample and the band 0.95 and 1.05 times its length |
| Model.WindowWithoutAccelExtends | src/aexp/gyroaccel/SamplingService.java:256-261 | a window of gyroscope samples only is never finalized: on its 3000th sample the limit becomes 6000 and gravity stays zero |
| Model.InBandRunSnapsOnFifth | src/aexp/gyroaccel/SamplingService.java:294-306 | from an inactive countdown, in-band samples leave gravity alone four times and snap it to the sample on the fifth and on every later one, with the countdown 4, 3, 2, 1, then 0 |
| Vector3.VecDiff | src/aexp/gyroaccel/SamplingService.java:409-415 | adding the second vector back gives the first; the difference is zero iff the vectors are equal |
| Vector3.RotX | src/aexp/gyroaccel/SamplingService.java:393-399 | x is untouched; the squared length is kept when sin²+cos²=1 |
| Vector3.RotY | src/aexp/gyroaccel/SamplingService.java:401-407 | y is untouched; the squared length is kept when sin²+cos²=1 |
| Vector3.RotZ | src/aexp/gyroaccel/SamplingService.java:385-391 | z is untouched; the squared length is kept when sin²+cos²=1 |
| Vector3.RotationByZeroIsIdentity | src/aexp/gyroaccel/SamplingService.java:385-407 | a rotation by 0 about any axis is the identity, given sin 0 = 0 and cos 0 = 1 |
| Vector3.RotXInverse | src/aexp/gyroaccel/SamplingService.java:393-399 | in exact arithmetic, rotx by -a undoes rotx by a |
| Vector3.RotYInverse | src/aexp/gyroaccel/SamplingService.java:401-407 | in exact arithmetic, roty by -a undoes roty by a |
| Vector3.RotZInverse | src/aexp/gyroaccel/SamplingService.java:385-391 | in exact arithmetic, rotz by -a undoes rotz by a |
| Vector3.RotXInPlace | src/aexp/gyroaccel/SamplingService.java:393-399 | the array afterwards holds RotX of its old contents |
| Vector3.RotYInPlace | src/aexp/gyroaccel/SamplingService.java:401-407 | the array afterwards holds RotY of its old contents |
| Vector3.RotZInPlace | src/aexp/gyroaccel/SamplingService.java:385-391 | the array afterwards holds RotZ of its old contents |
| Frame.FixAtanDegree | src/aexp/gyroaccel/SamplingService.java:417-424 | the angle is unchanged unless x < 0 and y != 0; quadrant II gives pi - deg and quadrant III pi + deg; every atan2 result for a point off the axes lands in (-pi/2, pi/2), and left-quadrant points in (0, pi/2) |
| Frame.RotateToEarth | src/aexp/gyroaccel/SamplingService.java:426-443 | the earth-frame vector has the squared length of the diff when sin²+cos²=1 at minus the yaw and pitch angles |
| Frame.FlatDeviceKeepsDiff | src/aexp/gyroaccel/SamplingService.java:426-443 | with gravity along +z, the earth-frame vector is the diff itself, given atan2(0, 0) = atan2(0, z) = 0, sin 0 = 0 and cos 0 = 1 |
| Frame.UpperLeftGravityStaysOffAxis | src/aexp/gyroaccel/SamplingService.java:417-443 | for gravity (-1, 1, 0), with atan2(1, -1) = 3pi/4, the corrected yaw is pi/4 and rotateToEarth turns gravity to (0, 2c, 0), along +y, where c = cos(pi/4) = sin(pi/4) |
| Service.SamplingService.constructor | src/aexp/gyroaccel/SamplingService.java:495-512 | a new service has the default field values and satisfies the invariant |
| Service.SamplingService.SetCallback | src/aexp/gyroaccel/SamplingService.java:467-470 | a sink becomes attached and nothing else changes |
| Service.SamplingService.RemoveCallback | src/aexp/gyroaccel/SamplingService.java:472-475 | the sink is detached and nothing else changes |
| Service.SamplingService.SetState | src/aexp/gyroaccel/SamplingService.java:146-163 | the fields become Model.WithState of the old fields |
| Service.SamplingService.StopSampling | src/aexp/gyroaccel/SamplingService.java:76-89 | the fields become Model.Stopped of the old fields, and the invariant is kept |
| Service.SamplingService.InitSampling | src/aexp/gyroaccel/SamplingService.java:131-144 | the fields, the gravity array included, become Model.Initialized of the old fields |
| Service.SamplingService.ClearGravity | src/aexp/gyroaccel/SamplingService.java:137-139 | the gravity array holds zero on all three axes and nothing else changes |
| Service.SamplingService.StartSampling | src/aexp/gyroaccel/SamplingService.java:91-129 | the fields become Model.Started of the old fields, and the invariant is kept |
| Service.SamplingService.UpdateSampleCounter | src/aexp/gyroaccel/SamplingService.java:187-210 | the fields become Model.Counted of the old fields |
| Service.SamplingService.ProcessSample | src/aexp/gyroaccel/SamplingService.java:212-247 | the fields become Model.AfterSample of the old fields, and the invariant is kept |
| Service.SamplingService.ProcessCalibrating | src/aexp/gyroaccel/SamplingService.java:249-282 | the fields, with the in-place sum, become Model.AfterCalibrating of the old fields |
| Service.SamplingService.FinishCalibration | src/aexp/gyroaccel/SamplingService.java:262-279 | the in-place division and the band update give Model.Finalized of the old fields |
| Service.SamplingService.AverageGravity | src/aexp/gyroaccel/SamplingService.java:263-266 | the gravity array becomes the old sum divided by the accelerometer count on each axis, and nothing else changes |
| Service.SamplingService.ProcessMeasuring | src/aexp/gyroaccel/SamplingService.java:284-355 | the fields become Model.AfterMeasuring of the old fields |
| Service.SamplingService.ReacquireGravity | src/aexp/gyroaccel/SamplingService.java:290-306 | the countdown and the in-place snap of the gravity array follow Model.Reacquire |
| Service.SamplingService.RotateByGyro | src/aexp/gyroaccel/SamplingService.java:334-339 | the three in-place rotations leave the gravity array holding Model.GyroRotated of its old contents |
| Service.SamplingService.SendDiff | src/aexp/gyroaccel/SamplingService.java:445-462 | the throttle stamp and the log become Model.AfterSendDiff of the old fields |

## Left out

- Android lifecycle and binding: `onStartCommand`, `onDestroy`, `onBind`, `onSensorChanged`, and SensorManager sensor lookup and listener registration (SamplingService.java:46-73, 94-116). Sensor availability is two booleans given to `StartSampling`. Registration is the `listening` flag.
- The Binder stub's `isSampling`, `stopSampling` and `getState` (SamplingService.java:477-490): they are IPC wrappers around a field read or `stopSampling`. The AIDL-generated marshalling code and `GyroAccelActivity` are not part of this model.
- The sink is modelled as attached or not. Failures delivering to it (`DeadObjectException`, `RemoteException`) are caught and only logged, so a call is recorded whenever a sink is attached.
- The debug capture file, `difflimit` and `copySimulatedGravity` (SamplingService.java:117-127, 226-236, 309-328, 340-351, 364-383) are left out. They write only to a file that is never opened, because `DEBUG` is `false`.
- `getStateName` (SamplingService.java:165-185) only builds text for `Log.d` and is left out with the logging.
- Threads: `setCallback`, `removeCallback` and the binder's `stopSampling` run on binder threads, apart from the thread that delivers `onSensorChanged`. The source does not synchronise them. The model treats every operation as atomic and does not capture interleavings inside one.
- Logging through `android.util.Log` has no effect on the engine's state and is left out.
- `System.currentTimeMillis()` in `sendDiff` is the parameter `now`. Sensor timestamps are parameters too.
- Floating point: `float` sample values and `double` fields are exact reals. Rounding, the float-to-double widening, NaN, infinities and the sign of zero are not modelled.
- `Math.sqrt`, `sin`, `cos` and `atan2` are uninterpreted (`Vector3.MathLib`). Numeric claims about them appear only as hypotheses of lemmas.
- Model.GyroRotated, Frame.RotateToEarth, Vector3.RotX, Vector3.RotY, Vector3.RotZ: length preservation is stated only under the hypothesis sin² + cos² = 1 at the angles used. No general earth-frame alignment is stated, because the code does not provide one: `fixAtanDegree` folds both left quadrants into (0, pi/2), so a gravity vector with x < 0 and y != 0 is not turned into the x-z plane by the yaw rotation. `Frame.UpperLeftGravityStaysOffAxis` shows gravity (-1, 1, 0) ending along +y.
- Integer widths: `sampleCounter`, `calibratingLimit`, `calibratingAccelCounter` (32-bit `int`) and the `long` timestamps are unbounded integers. Wrap-around after 2^31 samples is not modelled.
- The nanosecond-to-second conversion of the gyroscope time step is exact division of reals.
