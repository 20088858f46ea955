/** The car's telemetry and actuator command as the client and the driver see
    them. Both are built by code outside this model (a sensor frame is turned
    into a `CarState`, a `Command` into the actuator fields it sends), so only
    the fields that the modelled code reads or writes appear here. */
module Car {

  /** One tick's telemetry. Angles are in degrees, distances in metres, times
      in seconds; speeds are the values the car state holds, which the driver's
      own logging divides by `MPS_PER_KMH` to turn into km/h. */
  datatype CarState = CarState(
    angle: real,
    distanceFromCenter: real,
    speedX: real,
    currentLapTime: real,
    lastLapTime: real,
    distanceRaced: real,
    distanceFromStart: real,
    racePosition: int,
    gear: int,
    rpm: real,
    opponents: seq<real>)

  /** One tick's actuator output. */
  datatype Command = Command(accelerator: real, brake: real, steering: real, gear: int)

  /** A freshly constructed command, before the driver sets any field. */
  const Neutral := Command(0.0, 0.0, 0.0, 0)

  /** Python's `abs` on a number. */
  function Abs(x: real): (r: real)
    ensures r >= 0.0 && (r == x || r == -x)
  {
    if x < 0.0 then -x else x
  }
}
