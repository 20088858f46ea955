/** The client's running evaluation of the driver: a record the client
    overwrites on every sensor frame, and the fitness score derived from it. */
module Evaluation {
  import opened Text
  import opened Car
  import Serializer

  /** The weights of the fitness score. */
  datatype Priorities = Priorities(speed: real, distance: real, crashPenalty: real, steeringPenalty: real)

  /** The client's fixed weights. The crash penalty is never used. */
  const Weights := Priorities(5.0, 1.0, 0.0, 100.0)

  /** The evaluation dictionary. `distance` and `lapTime` are keys the
      dictionary only gains on the first sensor frame; `None` means absent. */
  datatype Record = Record(
    crashed: bool,
    stuck: bool,
    fitness: real,
    time: real,
    avgSpeed: real,
    position: int,
    steering: real,
    iteration: int,
    lapComplete: bool,
    distance: Option<real>,
    lapTime: Option<real>)

  /** The dictionary as the client is constructed with it. */
  const Initial := Record(false, false, 0.0, 0.0, 0.0, 0, 0.0, 1, false, None, None)

  function Min(a: real, b: real): (m: real)
    ensures m <= a && m <= b && (m == a || m == b)
  {
    if a <= b then a else b
  }

  /** The lap's average speed: zero before the lap clock or the track
      position is positive, otherwise the smaller of the distance raced and
      the distance from the start line, per second of lap time. */
  function AverageSpeed(car: CarState): (r: real)
    ensures car.currentLapTime <= 0.0 || car.distanceFromStart <= 0.0 ==> r == 0.0
    ensures car.currentLapTime > 0.0 && car.distanceFromStart > 0.0 ==>
      && r * car.currentLapTime == Min(car.distanceRaced, car.distanceFromStart)
      && r * car.currentLapTime <= car.distanceFromStart
  {
    if car.currentLapTime <= 0.0 || car.distanceFromStart <= 0.0 then 0.0
    else Min(car.distanceRaced, car.distanceFromStart) / car.currentLapTime
  }

  /** `getFitness`: the weighted sum of average speed and distance less the
      steering penalty. The distance key must be present: reading it before
      the first frame raises `KeyError`. */
  function Fitness(p: Priorities, e: Record): real
    requires e.distance.Some?
  {
    p.speed * e.avgSpeed + p.distance * e.distance.value - p.steeringPenalty * e.steering
  }

  /** The updates of one sensor frame, up to and including the fitness: the
      steering entry is bumped by one before the fitness is taken. */
  function Observe(e: Record, car: CarState): (r: Record)
    ensures r.distance == Some(car.distanceRaced) && r.lapTime == Some(car.lastLapTime)
    ensures r.crashed <==> (car.distanceFromCenter > 0.9 || car.distanceFromCenter < -0.9)
    ensures r.stuck <==> car.speedX < 5.0 && car.currentLapTime > 10.0
    ensures r.lapComplete <==> car.lastLapTime > 0.0
    ensures r.iteration == e.iteration
    ensures r.avgSpeed == AverageSpeed(car) && r.time == car.currentLapTime && r.position == car.racePosition
    ensures r.steering == e.steering + 1.0
    ensures r.fitness == 5.0 * AverageSpeed(car) + car.distanceRaced - 100.0 * (e.steering + 1.0)
  {
    var bumped := e.(
      crashed := Abs(car.distanceFromCenter) > 0.9,
      stuck := car.speedX < 5.0 && car.currentLapTime > 10.0,
      time := car.currentLapTime,
      position := car.racePosition,
      distance := Some(car.distanceRaced),
      steering := e.steering + 1.0,
      lapComplete := car.lastLapTime > 0.0,
      lapTime := Some(car.lastLapTime),
      avgSpeed := AverageSpeed(car));
    bumped.(fitness := Fitness(Weights, bumped))
  }

  /** The steering entry after the driver's command: the "average" of the
      command's absolute steering over `iteration` ticks. Python divides by
      `iteration`, so zero raises `ZeroDivisionError`. */
  function RecordSteering(e: Record, commandSteering: real): (r: Record)
    requires e.iteration != 0
    ensures r == e.(steering := r.steering)
    ensures e.iteration >= 1 ==>
      r.steering == Serializer.RollingAverage(e.steering, e.iteration - 1, Abs(commandSteering))
  {
    var n := e.iteration as real;
    e.(steering := (e.steering * (n - 1.0) + Abs(commandSteering)) / n)
  }

  /** Because `iteration` stays 1, the steering entry after a tick holds only
      the latest command's absolute steering: nothing is averaged. */
  lemma {:induction false} SteeringIsLatest(e: Record, commandSteering: real)
    requires e.iteration == 1
    ensures RecordSteering(e, commandSteering).steering == Abs(commandSteering)
  {
    Serializer.RollingAverageFirst(e.steering, Abs(commandSteering));
  }

  /** A whole sensor tick: observe the car, then record the command's steering. */
  function Tick(e: Record, car: CarState, command: Command): Record
    requires e.iteration != 0
  {
    RecordSteering(Observe(e, car), command.steering)
  }

  /** The fitness a tick computes penalises the previous tick's command: it
      is taken while the steering entry holds the last command's absolute
      steering plus one. Over two ticks, the second fitness depends on the
      first command, not on the second. */
  lemma {:induction false} FitnessLagsOneTick(e: Record, car1: CarState, cmd1: Command, car2: CarState, cmd2: Command)
    requires e.iteration == 1
    ensures var e1 := Tick(e, car1, cmd1);
      && e1.iteration == 1
      && Tick(e1, car2, cmd2).fitness
         == 5.0 * AverageSpeed(car2) + car2.distanceRaced - 100.0 * (Abs(cmd1.steering) + 1.0)
      && Tick(e1, car2, cmd2).steering == Abs(cmd2.steering)
  {
    var e1 := Tick(e, car1, cmd1);
    SteeringIsLatest(Observe(e, car1), cmd1.steering);
    SteeringIsLatest(Observe(e1, car2), cmd2.steering);
  }
}
