/**
 * The sampling engine as the service runs it: an object whose methods update
 * its fields and its gravity array in place, one sample at a time. Each
 * method states the new fields in terms of the old ones, through the matching
 * function of module Model where there is one, and the public methods keep
 * Model.Inv.
 */
module Service {
  import opened Vector3
  import opened Frame
  import opened Model

  class SamplingService {
    var state: EngineState
    var samplingStarted: bool
    /** The service is registered as listener for both sensors. */
    var listening: bool
    /** A callback sink is attached (set and cleared through the service's binder). */
    var sinkAttached: bool
    var sampleCounter: int
    var calibratingLimit: int
    var calibratingAccelCounter: int
    var gravityAccelLen: real
    var gravityAccelHighLimit: real
    var gravityAccelLowLimit: real
    /** The reacquisition countdown; -1 when inactive. */
    var gravityAccelLimitLen: int
    /** The gravity estimate (a calibration sum while Calibrating), x, y, z. */
    const simulatedGravity: array<real>
    var previousTimeStamp: int
    var diffTimeStamp: int
    /** The calls made to the sink so far, in order. */
    ghost var events: seq<Event>

    /** The fields as a value. */
    ghost function View(): Snapshot
      reads this, simulatedGravity
      requires simulatedGravity.Length == 3
    {
      Snapshot(
        state, samplingStarted, listening, sinkAttached,
        sampleCounter, calibratingLimit, calibratingAccelCounter,
        VecOf(simulatedGravity[..]),
        gravityAccelLen, gravityAccelHighLimit, gravityAccelLowLimit,
        gravityAccelLimitLen, previousTimeStamp, diffTimeStamp, events)
    }

    ghost predicate Valid()
      reads this, simulatedGravity
    {
      simulatedGravity.Length == 3 && Inv(View())
    }

    /** A new service: Java's default field values, idle, no sink. */
    constructor ()
      ensures Valid() && View() == Initial()
    {
      state := Idle;
      samplingStarted := false;
      listening := false;
      sinkAttached := false;
      sampleCounter := 0;
      calibratingLimit := 0;
      calibratingAccelCounter := 0;
      gravityAccelLen := 0.0;
      gravityAccelHighLimit := 0.0;
      gravityAccelLowLimit := 0.0;
      gravityAccelLimitLen := 0;
      simulatedGravity := new real[3](_ => 0.0);
      previousTimeStamp := 0;
      diffTimeStamp := 0;
      events := [];
      new;
      assert simulatedGravity[..] == [0.0, 0.0, 0.0];
    }

    /** The binder's setCallback: a sink is attached. */
    method SetCallback()
      requires Valid()
      modifies this`sinkAttached
      ensures Valid() && View() == old(View()).(sinkAttached := true)
    {
      sinkAttached := true;
    }

    /** The binder's removeCallback: the sink is detached. */
    method RemoveCallback()
      requires Valid()
      modifies this`sinkAttached
      ensures Valid() && View() == old(View()).(sinkAttached := false)
    {
      sinkAttached := false;
    }

    method SetState(newState: EngineState)
      requires simulatedGravity.Length == 3
      modifies this`state, this`events
      ensures View() == WithState(old(View()), newState)
    {
      if state != newState {
        state := newState;
        if sinkAttached {
          events := events + [StatusMessage(StateCode(state))];
        }
      }
    }

    method StopSampling()
      requires Valid()
      modifies this
      ensures Valid() && View() == Stopped(old(View()))
    {
      if !samplingStarted {
        return;
      }
      listening := false;
      samplingStarted := false;
      SetState(Idle);
      StopKeepsInv(old(View()));
    }

    method InitSampling()
      requires simulatedGravity.Length == 3
      modifies this, simulatedGravity
      ensures View() == Initialized(old(View()))
    {
      ghost var s0 := View();
      sampleCounter := 0;
      previousTimeStamp := -1;
      calibratingAccelCounter := 0;
      calibratingLimit := CalibratingLimit;
      ghost var s1 := s0.(sampleCounter := 0, previousTimeStamp := -1, calibratingAccelCounter := 0,
                          calibratingLimit := CalibratingLimit);
      assert View() == s1;
      ClearGravity();
      diffTimeStamp := -1;
      gravityAccelLimitLen := -1;
      assert View() == s1.(gravity := Zero, diffTimeStamp := -1, gravityAccelLimitLen := -1);
      SetState(Calibrating);
    }

    /** The three zero assignments to the gravity estimate that initSampling makes. */
    method ClearGravity()
      requires simulatedGravity.Length == 3
      modifies simulatedGravity
      ensures View() == old(View()).(gravity := Zero)
    {
      simulatedGravity[0] := 0.0;
      simulatedGravity[1] := 0.0;
      simulatedGravity[2] := 0.0;
      assert simulatedGravity[..] == ToSeq(Zero);
    }

    /**
     * startSampling with the sensors the sensor manager offers: the listeners
     * are registered only when both exist.
     */
    method StartSampling(accelPresent: bool, gyroPresent: bool)
      requires Valid()
      modifies this, simulatedGravity
      ensures Valid() && View() == Started(old(View()), accelPresent, gyroPresent)
    {
      if samplingStarted {
        return;
      }
      InitSampling();
      listening := accelPresent && gyroPresent;
      samplingStarted := true;
      StartKeepsInv(old(View()), accelPresent, gyroPresent);
    }

    method UpdateSampleCounter()
      requires simulatedGravity.Length == 3
      modifies this`sampleCounter, this`events
      ensures View() == Counted(old(View()))
    {
      sampleCounter := sampleCounter + 1;
      if sampleCounter % SampleCounterMod == 0 {
        if sinkAttached {
          events := events + [SampleCount(sampleCounter)];
        }
      }
    }

    /** processSample for a sample delivered at wall-clock time now (ms). */
    method ProcessSample(m: MathLib, sample: Sample, now: int)
      requires Valid()
      modifies this, simulatedGravity
      ensures Valid() && View() == AfterSample(m, old(View()), sample, now)
    {
      var values := sample.values;
      if |values| < 3 {
        return;
      }
      var sensorType := SensorTypeNa;
      if sample.sensor == Accelerometer {
        sensorType := SensorTypeAccel;
      } else if sample.sensor == Gyroscope {
        sensorType := SensorTypeGyro;
      }
      assert sensorType == SensorTypeOf(sample.sensor);
      UpdateSampleCounter();
      ghost var s1 := View();
      assert s1 == Counted(old(View()));
      match state
      case Calibrating =>
        ProcessCalibrating(m, sample.timestamp, sensorType, values);
        assert View() == AfterCalibrating(m, s1, sample.timestamp, sensorType, VecOf(values));
      case Measuring =>
        ProcessMeasuring(m, sample.timestamp, sensorType, values, now);
        assert View() == AfterMeasuring(m, s1, sample.timestamp, sensorType, VecOf(values), now);
      case Idle =>
      assert View() == AfterSample(m, old(View()), sample, now);
      SampleKeepsInv(m, old(View()), sample, now);
    }

    method ProcessCalibrating(m: MathLib, timeStamp: int, sensorType: int, values: seq<real>)
      requires simulatedGravity.Length == 3 && |values| >= 3
      modifies this, simulatedGravity
      ensures View() == AfterCalibrating(m, old(View()), timeStamp, sensorType, VecOf(values))
    {
      ghost var s0, v := View(), VecOf(values);
      if sensorType == SensorTypeAccel {
        simulatedGravity[0] := simulatedGravity[0] + values[0];
        simulatedGravity[1] := simulatedGravity[1] + values[1];
        simulatedGravity[2] := simulatedGravity[2] + values[2];
        calibratingAccelCounter := calibratingAccelCounter + 1;
        assert simulatedGravity[..] == ToSeq(Add(s0.gravity, v));
      }
      if sensorType == SensorTypeGyro {
        previousTimeStamp := timeStamp;
      }
      ghost var a := Accumulated(s0, timeStamp, sensorType, v);
      assert View() == a;
      if sampleCounter >= calibratingLimit {
        if calibratingAccelCounter == 0 {
          calibratingLimit := calibratingLimit + CalibratingLimit;
        } else {
          FinishCalibration(m);
        }
      }
    }

    /**
     * The end of a calibration window that saw accelerometer samples: the sum
     * becomes the average, its length and acceptance band are recorded, and the
     * engine moves to Measuring.
     */
    method FinishCalibration(m: MathLib)
      requires simulatedGravity.Length == 3 && calibratingAccelCounter != 0
      modifies this, simulatedGravity
      ensures View() == Finalized(m, old(View()))
    {
      ghost var s0 := View();
      var avgDiv := calibratingAccelCounter as real;
      AverageGravity(avgDiv);
      ghost var g := Divided(s0.gravity, avgDiv);
      var len := m.sqrt(
        simulatedGravity[0] * simulatedGravity[0] +
        simulatedGravity[1] * simulatedGravity[1] +
        simulatedGravity[2] * simulatedGravity[2]);
      assert NormSq(g) == simulatedGravity[0] * simulatedGravity[0] +
        simulatedGravity[1] * simulatedGravity[1] +
        simulatedGravity[2] * simulatedGravity[2];
      assert len == Magnitude(m, g);
      gravityAccelLen := len;
      gravityAccelHighLimit := gravityAccelLen * (1.0 + AccelDeviationLimit);
      gravityAccelLowLimit := gravityAccelLen * (1.0 - AccelDeviationLimit);
      ghost var s1 := View();
      assert s1 == s0.(gravity := g, gravityAccelLen := len,
                       gravityAccelHighLimit := len * (1.0 + AccelDeviationLimit),
                       gravityAccelLowLimit := len * (1.0 - AccelDeviationLimit));
      SetState(Measuring);
      assert View() == WithState(s1, Measuring);
    }

    /** The three in-place divisions that turn the calibration sum into its average. */
    method AverageGravity(avgDiv: real)
      requires simulatedGravity.Length == 3 && avgDiv != 0.0
      modifies simulatedGravity
      ensures View() == old(View()).(gravity := Divided(old(View()).gravity, avgDiv))
    {
      ghost var g := Divided(VecOf(simulatedGravity[..]), avgDiv);
      simulatedGravity[0] := simulatedGravity[0] / avgDiv;
      simulatedGravity[1] := simulatedGravity[1] / avgDiv;
      simulatedGravity[2] := simulatedGravity[2] / avgDiv;
      assert simulatedGravity[..] == ToSeq(g);
    }

    method ProcessMeasuring(m: MathLib, timeStamp: int, sensorType: int, values: seq<real>, now: int)
      requires simulatedGravity.Length == 3 && |values| >= 3
      modifies this, simulatedGravity
      ensures View() == AfterMeasuring(m, old(View()), timeStamp, sensorType, VecOf(values), now)
    {
      var dv := VecOf(values);
      if sensorType == SensorTypeAccel {
        ReacquireGravity(m, dv);
        var gravity := Vec3(simulatedGravity[0], simulatedGravity[1], simulatedGravity[2]);
        var diff := VecDiff(dv, gravity);
        var rotatedDiff := RotateToEarth(m, diff, gravity);
        SendDiff(rotatedDiff, now);
      } else if sensorType == SensorTypeGyro {
        if previousTimeStamp >= 0 {
          var dt := (timeStamp - previousTimeStamp) as real / NanosPerSecond;
          RotateByGyro(m, old(View()).gravity, dv, dt);
        }
        previousTimeStamp := timeStamp;
      }
    }

    /**
     * The accelerometer half of processMeasuring up to the diff: the
     * reacquisition countdown, and the snap of the gravity estimate to the
     * live sample when it completes.
     */
    method ReacquireGravity(m: MathLib, dv: Vec3)
      requires simulatedGravity.Length == 3
      modifies this`gravityAccelLimitLen, simulatedGravity
      ensures var re := Reacquire(old(gravityAccelLimitLen), InBand(m, old(View()), dv));
              View() == old(View()).(gravityAccelLimitLen := re.counter,
                                     gravity := if re.snap then dv else old(View()).gravity)
    {
      var accelLen := m.sqrt(dv.x * dv.x + dv.y * dv.y + dv.z * dv.z);
      assert NormSq(dv) == dv.x * dv.x + dv.y * dv.y + dv.z * dv.z;
      assert accelLen == Magnitude(m, dv);
      if accelLen < gravityAccelHighLimit && accelLen > gravityAccelLowLimit {
        if gravityAccelLimitLen < 0 {
          gravityAccelLimitLen := AccelDeviationLength;
        }
        gravityAccelLimitLen := gravityAccelLimitLen - 1;
        if gravityAccelLimitLen <= 0 {
          gravityAccelLimitLen := 0;
          simulatedGravity[0] := dv.x;
          simulatedGravity[1] := dv.y;
          simulatedGravity[2] := dv.z;
          assert simulatedGravity[..] == ToSeq(dv);
        }
      } else {
        gravityAccelLimitLen := -1;
      }
    }

    /**
     * The gyroscope half of processMeasuring: the three in-place rotations of
     * the gravity estimate g, which the array holds on entry.
     */
    method RotateByGyro(m: MathLib, ghost g: Vec3, dv: Vec3, dt: real)
      requires simulatedGravity.Length == 3 && VecOf(simulatedGravity[..]) == g
      modifies simulatedGravity
      ensures View() == old(View()).(gravity := GyroRotated(m, g, dv, dt))
    {
      ghost var s0 := View();
      var d := GyroIncrements(dv, dt);
      var dx, dy, dz := d.x, d.y, d.z;
      RotXInPlace(m, simulatedGravity, -dx);
      RotYInPlace(m, simulatedGravity, -dy);
      RotZInPlace(m, simulatedGravity, -dz);
      assert View() == s0.(gravity := GyroRotated(m, g, dv, dt));
    }

    /** sendDiff, with the wall clock reading now (ms) passed in. */
    method SendDiff(v: Vec3, now: int)
      requires simulatedGravity.Length == 3
      modifies this`diffTimeStamp, this`events
      ensures View() == AfterSendDiff(old(View()), v, now)
    {
      var tdiff := now - diffTimeStamp;
      if diffTimeStamp < 0 || tdiff > DiffUpdateTimeout {
        diffTimeStamp := now;
        if sinkAttached {
          events := events + [Diff(v)];
        }
      }
    }
  }
}
