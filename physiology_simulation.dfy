/// The driver simulator: one tick of random drift in pulse, eyelid movement
/// and speed, each clamped to its band. The three `random.uniform` draws are
/// parameters, each ranging over the interval the simulator asks for.
module PhysiologySimulation {
  import opened Clamping
  import opened DriverRecord

  // The bands the three readings are clamped to.
  const PulseLow: real := 60.0
  const PulseHigh: real := 100.0
  const EyelidLow: real := 0.3
  const EyelidHigh: real := 1.0
  const SpeedLow: real := 0.0
  const SpeedHigh: real := 130.0

  /** Below this speed the driver only speeds up. */
  const AccelerationSpeed: real := 50.0

  class DriverSimulator {
    const pulseVariance: real
    const eyelidVariance: real
    const speedVariance: real

    constructor ()
      ensures pulseVariance == 2.0 && eyelidVariance == 0.05 && speedVariance == 5.0
    {
      pulseVariance, eyelidVariance, speedVariance := 2.0, 0.05, 5.0;
    }

    /** The interval `random.uniform` draws each noise term from: pulse
        symmetric, eyelid skewed toward closing (the upper end is 0.6 of the
        variance), speed only upward below 50 km/h and symmetric above. */
    predicate NoiseInRange(speed: real, pulseNoise: real, eyelidNoise: real, speedNoise: real)
    {
      && -pulseVariance <= pulseNoise <= pulseVariance
      && -eyelidVariance <= eyelidNoise <= eyelidVariance * 0.6
      && (if speed < AccelerationSpeed then 0.0 <= speedNoise <= speedVariance
          else -speedVariance <= speedNoise <= speedVariance)
    }

    /** `simulate_physiological`: adds each noise term, clamps each reading
        to its band and returns the same record. With noise from the ranges
        the simulator draws from and readings already in band, one tick moves
        the pulse by at most the pulse variance, the eyelid by at most 0.05
        down and 0.03 up, and never slows a car below 50 km/h. */
    method SimulatePhysiological(ds: DriverState, pulseNoise: real, eyelidNoise: real, speedNoise: real)
      returns (r: DriverState)
      modifies ds`pulse, ds`eyelidMovement, ds`currentSpeed
      ensures r == ds
      ensures ds.pulse == Clamp(PulseLow, PulseHigh, old(ds.pulse) + pulseNoise)
      ensures ds.eyelidMovement == Clamp(EyelidLow, EyelidHigh, old(ds.eyelidMovement) + eyelidNoise)
      ensures ds.currentSpeed == Clamp(SpeedLow, SpeedHigh, old(ds.currentSpeed) + speedNoise)
      ensures PulseLow <= ds.pulse <= PulseHigh
      ensures EyelidLow <= ds.eyelidMovement <= EyelidHigh
      ensures SpeedLow <= ds.currentSpeed <= SpeedHigh
      ensures NoiseInRange(old(ds.currentSpeed), pulseNoise, eyelidNoise, speedNoise) ==>
                && (PulseLow <= old(ds.pulse) <= PulseHigh ==>
                      old(ds.pulse) - pulseVariance <= ds.pulse <= old(ds.pulse) + pulseVariance)
                && (EyelidLow <= old(ds.eyelidMovement) <= EyelidHigh ==>
                      old(ds.eyelidMovement) - eyelidVariance <= ds.eyelidMovement
                      <= old(ds.eyelidMovement) + eyelidVariance * 0.6)
                && (SpeedLow <= old(ds.currentSpeed) < AccelerationSpeed ==>
                      old(ds.currentSpeed) <= ds.currentSpeed <= old(ds.currentSpeed) + speedVariance)
    {
      ds.pulse := ds.pulse + pulseNoise;
      ds.pulse := Max(PulseLow, Min(PulseHigh, ds.pulse));
      ds.eyelidMovement := ds.eyelidMovement + eyelidNoise;
      ds.eyelidMovement := Max(EyelidLow, Min(EyelidHigh, ds.eyelidMovement));
      ds.currentSpeed := ds.currentSpeed + speedNoise;
      ds.currentSpeed := Max(SpeedLow, Min(SpeedHigh, ds.currentSpeed));
      r := ds;
    }
  }
}
