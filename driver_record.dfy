/// The `DriverState` record shared by the scoring and simulation modules.
module DriverRecord {

  /** One driver's mutable state. Every field has the record's default value
      after construction; the simulators update the fields in place. */
  class DriverState {
    // Simulation state
    var restPoints: real
    var lastRestTick: int
    var currentSpeed: real
    var lastDriveTickTime: int

    // Environment state
    var weatherCondition: string
    var trafficDensity: string
    var timeOfDay: string
    var roadType: string

    // Smartband metrics
    var heartRate: real      // bpm, 60-100 normal
    var hrv: real            // ms, above 30 normal
    var eda: real            // microsiemens

    // Camera metrics
    var perclos: real        // fraction of time the eyes are closed, 0-1
    var blinkDuration: real  // ms
    var blinkRate: real      // blinks per minute

    // Read by the fatigue evaluator and the driver simulator, but not
    // declared by the record: the caller attaches them to the object.
    var pulse: real
    var eyelidMovement: real

    /** Every declared field holds the record's default. */
    predicate HasDefaults()
      reads this
    {
      && restPoints == 100.0 && lastRestTick == 0
      && currentSpeed == 0.0 && lastDriveTickTime == 0
      && weatherCondition == "clear" && trafficDensity == "low"
      && timeOfDay == "day" && roadType == "highway"
      && heartRate == 75.0 && hrv == 50.0 && eda == 5.0
      && perclos == 0.15 && blinkDuration == 200.0 && blinkRate == 15.0
    }

    /** A record with all defaults, plus the two attached readings. */
    constructor (pulse: real, eyelidMovement: real)
      ensures HasDefaults()
      ensures this.pulse == pulse && this.eyelidMovement == eyelidMovement
    {
      restPoints, lastRestTick := 100.0, 0;
      currentSpeed, lastDriveTickTime := 0.0, 0;
      weatherCondition, trafficDensity := "clear", "low";
      timeOfDay, roadType := "day", "highway";
      heartRate, hrv, eda := 75.0, 50.0, 5.0;
      perclos, blinkDuration, blinkRate := 0.15, 200.0, 15.0;
      this.pulse, this.eyelidMovement := pulse, eyelidMovement;
    }
  }

  /** The defaults start a full rest budget at tick 0, and the default
      biometrics lie in the normal ranges the record documents. */
  lemma DefaultsAreNormal(ds: DriverState)
    requires ds.HasDefaults()
    ensures ds.restPoints == 100.0 && ds.lastRestTick == 0
    ensures 60.0 <= ds.heartRate <= 100.0
    ensures ds.hrv > 30.0
    ensures 0.0 <= ds.perclos <= 1.0
  {
  }
}
