/** The hand-written control rules of the evolved driver: the gear-shift
    rule with its shift-delay counter, the throttle curve, the off-track
    recovery counter with its steering clamp, and the "roadmap" of steering
    values recorded once per 10-metre track segment. The neural network is
    an input here: `netOut` is its first output for the tick. */
module Driving {
  import opened Text
  import opened Car

  /** Ticks to wait after a shift before shifting again. */
  const ShiftDelay := 25
  /** Engine speed above which the driver shifts up. */
  const UpRpm := 7500.0
  /** Engine speed below which the driver shifts down. */
  const DownRpm := 2000.0
  /** Highest gear. */
  const TopGear := 6
  /** Length of one roadmap segment, in metres. */
  const Interval := 10
  /** Roadmap entries looked at ahead of the car: `int(200 / interval)`. */
  const Lookahead := 20
  /** Largest steering the recovery branch returns, either way. */
  const RecoverySteering := 0.07

  // ---------------------------------------------------------------------------
  // Gears
  // ---------------------------------------------------------------------------

  /** The gear `shiftGears` returns, given the car's gear, the engine speed and
      the ticks since the last shift. */
  function NextGear(previousGear: int, rpm: real, sinceShift: int): (gear: int)
    ensures gear >= 1
    ensures previousGear <= 0 ==> gear == 1
    ensures previousGear > 0 && sinceShift < ShiftDelay ==> gear == previousGear
    ensures 1 <= previousGear <= TopGear ==> gear <= TopGear && previousGear - 1 <= gear <= previousGear + 1
    ensures previousGear > 0 && gear > previousGear ==> sinceShift >= ShiftDelay && rpm > UpRpm
    ensures previousGear > 0 && gear < previousGear ==> sinceShift >= ShiftDelay && (rpm < DownRpm || previousGear > TopGear)
  {
    if previousGear <= 0 then 1
    else if sinceShift < ShiftDelay then previousGear
    else if rpm > UpRpm then (if previousGear + 1 < TopGear then previousGear + 1 else TopGear)
    else if rpm < DownRpm then (if previousGear - 1 > 1 then previousGear - 1 else 1)
    else previousGear
  }

  /** After the delay, a high engine speed shifts up by one (never past the top
      gear) and a low one shifts down by one (never below first). */
  lemma ShiftAfterDelay(previousGear: int, rpm: real, sinceShift: int)
    requires 1 <= previousGear <= TopGear && sinceShift >= ShiftDelay
    ensures rpm > UpRpm ==> NextGear(previousGear, rpm, sinceShift) == if previousGear == TopGear then TopGear else previousGear + 1
    ensures rpm < DownRpm ==> NextGear(previousGear, rpm, sinceShift) == if previousGear == 1 then 1 else previousGear - 1
    ensures DownRpm <= rpm <= UpRpm ==> NextGear(previousGear, rpm, sinceShift) == previousGear
  {
  }

  /** The shift-delay counter after a call: reset by a shift, otherwise one more tick. */
  function NextSinceShift(previousGear: int, gear: int, sinceShift: int): int {
    if previousGear != gear then 0 else sinceShift + 1
  }

  // ---------------------------------------------------------------------------
  // Throttle and steering
  // ---------------------------------------------------------------------------

  /** `my_accelerate`: full throttle at a speed below 20, otherwise at most
      0.2, falling linearly above 80 and negative above 90. */
  function Accelerator(speed: real): (a: real)
    ensures speed < 20.0 ==> a == 1.0
    ensures speed >= 20.0 ==> a <= 0.2
    ensures 20.0 <= speed <= 80.0 ==> a == 0.2
    ensures speed > 80.0 ==> a == 1.8 - 0.02 * speed
  {
    if speed < 20.0 then 1.0
    else if 0.2 <= -0.02 * speed + 1.8 then 0.2 else -0.02 * speed + 1.8
  }

  /** Above a speed of 90 the throttle the rule asks for is negative. */
  lemma AcceleratorNegativeAbove90(speed: real)
    requires speed > 90.0
    ensures Accelerator(speed) < 0.0
  {
  }

  /** The recovery branch's clamp: a negative steering is raised to at least
      -0.07, a positive one lowered to at most 0.07. */
  function ClampSteering(s: real): (r: real)
    ensures -RecoverySteering <= r <= RecoverySteering
    ensures -RecoverySteering <= s <= RecoverySteering ==> r == s
    ensures (r < 0.0 <==> s < 0.0) && (r > 0.0 <==> s > 0.0)
    ensures Abs(r) <= Abs(s)
  {
    if s < 0.0 then (if s > -RecoverySteering then s else -RecoverySteering)
    else if s > 0.0 then (if s < RecoverySteering then s else RecoverySteering)
    else s
  }

  // ---------------------------------------------------------------------------
  // Track position
  // ---------------------------------------------------------------------------

  /** Python's `int(x)` on a float: truncation toward zero. */
  function Trunc(x: real): (i: int)
    ensures x >= 0.0 ==> 0.0 <= i as real <= x < i as real + 1.0
    ensures x < 0.0 ==> i as real - 1.0 < x <= i as real <= 0.0
  {
    if x >= 0.0 then x.Floor else -((-x).Floor)
  }

  /** `math.floor(int(d) / interval)`: the index of the 10-metre segment. */
  function Segment(distanceFromStart: real): (p: int)
    ensures Interval * p <= Trunc(distanceFromStart) < Interval * p + Interval
  {
    Trunc(distanceFromStart) / Interval
  }

  /** The largest element, as Python's `max` on a non-empty list. */
  function Max(xs: seq<real>): (m: real)
    requires |xs| > 0
    ensures m in xs
    ensures forall i :: 0 <= i < |xs| ==> xs[i] <= m
  {
    if |xs| == 1 then xs[0]
    else
      var rest := Max(xs[1..]);
      if xs[0] >= rest then xs[0] else rest
  }

  // ---------------------------------------------------------------------------
  // One call of `drive`
  // ---------------------------------------------------------------------------

  /** The car counts as off the track when it is more than a half-width from
      the axis, points more than 45 degrees away from the track direction, or
      is already recovering. */
  predicate OffTrack(car: CarState, recovering: bool) {
    Abs(car.distanceFromCenter) > 1.0 || (45.0 < car.angle < 315.0) || recovering
  }

  /** Back on the track: near the axis and pointing along the track. */
  predicate BackOnTrack(car: CarState) {
    Abs(car.distanceFromCenter) < 1.0 && (car.angle < 45.0 || car.angle > 315.0)
  }

  /** Some opponent sensor reads other than 200, the reading for "nobody in range". */
  predicate OpponentsNear(opponents: seq<real>) {
    exists i :: 0 <= i < |opponents| && opponents[i] != 200.0
  }

  /** The driver's fields that outlive a call. */
  datatype Memory = Memory(
    timeSinceLastShift: int,
    offtrack: int,
    recovering: bool,
    roadmap: seq<real>,
    speedup: Option<bool>)

  /** The driver as it is constructed: the roadmap file is reset to the empty list. */
  const Fresh := Memory(0, 0, false, [], None)

  /** The roadmap after a normal tick: the steering's magnitude is appended when
      the roadmap has exactly as many entries as the car's segment index and the
      car is on a whole multiple of the interval. */
  function Extend(roadmap: seq<real>, distanceFromStart: real, steering: real): seq<real> {
    if |roadmap| == Segment(distanceFromStart) && Trunc(distanceFromStart) % Interval == 0
    then roadmap + [Abs(steering)]
    else roadmap
  }

  /** The speed-up adjustment of a normal tick's command, or `None` when the
      roadmap window it reads is empty and `max` raises `ValueError`. */
  function SpeedUp(base: Command, roadmap: seq<real>, position: int, speed: real): Option<Command> {
    var window := Slice(roadmap, position, position + Lookahead);
    if |window| == 0 then None
    else if Max(window) < 0.1 && speed < 180.0 then Some(base.(accelerator := 1.0))
    else if speed > 80.0 then Some(base.(brake := 1.0, accelerator := 0.0))
    else Some(base)
  }

  /** The speed-up rule: `max` raises exactly on an empty window; otherwise
      steering and gear are kept, full throttle is given only when every entry
      ahead is below 0.1 and the car below 180, full brake (and no throttle)
      exactly when that fails above 80, and the command is kept otherwise. */
  lemma SpeedUpRule(base: Command, roadmap: seq<real>, position: int, speed: real)
    ensures var window := Slice(roadmap, position, position + Lookahead);
      var r := SpeedUp(base, roadmap, position, speed);
      && (r.None? <==> |window| == 0)
      && (r.Some? ==> r.value.steering == base.steering && r.value.gear == base.gear)
      && (r.Some? && r.value.accelerator == 1.0 && base.accelerator != 1.0 ==>
            speed < 180.0 && forall i :: 0 <= i < |window| ==> window[i] < 0.1)
      && (r.Some? && speed < 180.0 && (forall i :: 0 <= i < |window| ==> window[i] < 0.1) ==>
            r.value == base.(accelerator := 1.0))
      && (r.Some? && r.value.brake == 1.0 && base.brake != 1.0 ==>
            speed > 80.0 && r.value.accelerator == 0.0
            && (speed >= 180.0 || exists i :: 0 <= i < |window| && window[i] >= 0.1))
      && (r.Some? && speed > 80.0 && !(speed < 180.0 && forall i :: 0 <= i < |window| ==> window[i] < 0.1) ==>
            r.value == base.(brake := 1.0, accelerator := 0.0))
      && (r.Some? && speed <= 80.0 && !(speed < 180.0 && forall i :: 0 <= i < |window| ==> window[i] < 0.1) ==>
            r.value == base)
  {
    var window := Slice(roadmap, position, position + Lookahead);
    if |window| > 0 {
      var m := Max(window);
      assert m in window;
    }
  }

  /** What one call of `drive` leaves in the driver and returns; `None` stands
      for the `ValueError` it raises. */
  datatype Turn = Turn(memory: Memory, command: Option<Command>)

  /** One call of `drive` on the car state, the network's first output and the
      command the base driver's `accelerate` and `steer` build when recovering. */
  function Step(m: Memory, car: CarState, netOut: real, recovery: Command): Turn {
    var speedup := if m.speedup.None? then Some(OpponentsNear(car.opponents)) else m.speedup;
    var offtrack := if OffTrack(car, m.recovering) then m.offtrack + 1 else m.offtrack;
    if OffTrack(car, m.recovering) && offtrack > 10 then
      var back := BackOnTrack(car);
      Turn(m.(speedup := speedup, offtrack := if back then 0 else offtrack, recovering := !back),
           Some(recovery.(steering := ClampSteering(recovery.steering))))
    else
      var gear := NextGear(car.gear, car.rpm, m.timeSinceLastShift);
      var base := Command(Accelerator(car.speedX), 0.0, netOut - 0.5, gear);
      var position := Segment(car.distanceFromStart);
      var m' := m.(speedup := speedup, offtrack := offtrack,
                   timeSinceLastShift := NextSinceShift(car.gear, gear, m.timeSinceLastShift));
      var command := if speedup == Some(true) && position + 1 < |m.roadmap|
                     then SpeedUp(base, m.roadmap, position, car.speedX)
                     else Some(base);
      if command.None? then Turn(m', None)
      else Turn(m'.(roadmap := Extend(m.roadmap, car.distanceFromStart, netOut - 0.5)), command)
  }

  /** What every call keeps: recovering only past ten off-track ticks, a
      non-negative shift counter, and non-negative roadmap entries. */
  predicate Sound(m: Memory) {
    && (m.recovering ==> m.offtrack > 10)
    && m.timeSinceLastShift >= 0
    && m.offtrack >= 0
    && forall i :: 0 <= i < |m.roadmap| ==> m.roadmap[i] >= 0.0
  }

  lemma StepKeepsSound(m: Memory, car: CarState, netOut: real, recovery: Command)
    requires Sound(m)
    ensures Sound(Step(m, car, netOut, recovery).memory)
  {
    var r := Step(m, car, netOut, recovery).memory;
    assert forall i :: 0 <= i < |r.roadmap| ==> r.roadmap[i] >= 0.0 by {
      var s := netOut - 0.5;
      if r.roadmap != m.roadmap {
        assert r.roadmap == m.roadmap + [Abs(s)];
      }
    }
  }

  /** `speedup` is decided on the first call, from the opponent sensors of
      that call, and never changes after. */
  lemma SpeedupDecidedOnce(m: Memory, car: CarState, netOut: real, recovery: Command)
    ensures var s := Step(m, car, netOut, recovery).memory.speedup;
      && s.Some?
      && (m.speedup.None? ==> (s.value <==> exists i :: 0 <= i < |car.opponents| && car.opponents[i] != 200.0))
      && (m.speedup.Some? ==> s == m.speedup)
  {
  }

  /** Recovery: the off-track counter grows on every off-track or recovering
      tick and is untouched otherwise; once it passes ten the driver recovers,
      returns the clamped recovery command, and clears both when back on track. */
  lemma RecoveryRule(m: Memory, car: CarState, netOut: real, recovery: Command)
    ensures var t := Step(m, car, netOut, recovery);
      && (!OffTrack(car, m.recovering) ==> t.memory.offtrack == m.offtrack && !t.memory.recovering)
      && (OffTrack(car, m.recovering) && m.offtrack + 1 <= 10 ==>
            t.memory.offtrack == m.offtrack + 1 && t.memory.recovering == m.recovering)
      && (OffTrack(car, m.recovering) && m.offtrack + 1 > 10 ==>
            && t.command == Some(recovery.(steering := ClampSteering(recovery.steering)))
            && t.memory.recovering == !BackOnTrack(car)
            && t.memory.offtrack == (if BackOnTrack(car) then 0 else m.offtrack + 1)
            && t.memory.roadmap == m.roadmap
            && t.memory.timeSinceLastShift == m.timeSinceLastShift)
  {
  }

  /** A recovering driver keeps recovering until the car is back on track,
      and its steering stays within the clamp. */
  lemma RecoveringStaysInRecovery(m: Memory, car: CarState, netOut: real, recovery: Command)
    requires Sound(m) && m.recovering
    ensures var t := Step(m, car, netOut, recovery);
      && t.command.Some?
      && -RecoverySteering <= t.command.value.steering <= RecoverySteering
      && (t.memory.recovering <==> !BackOnTrack(car))
  {
  }

  /** The roadmap grows by at most one entry per call; an entry is appended
      exactly on a normal tick that does not raise, when the roadmap is as long
      as the segment index and the car sits on a whole multiple of ten metres,
      and the entry is that tick's absolute steering. */
  lemma {:induction false} RoadmapGrowth(m: Memory, car: CarState, netOut: real, recovery: Command)
    ensures var t := Step(m, car, netOut, recovery);
      var appends := t.command.Some? && !(OffTrack(car, m.recovering) && m.offtrack + 1 > 10)
        && |m.roadmap| == Segment(car.distanceFromStart) && Trunc(car.distanceFromStart) % Interval == 0;
      && (appends ==> t.memory.roadmap == m.roadmap + [Abs(netOut - 0.5)])
      && (!appends ==> t.memory.roadmap == m.roadmap)
  {
    var t := Step(m, car, netOut, recovery);
    var position := Segment(car.distanceFromStart);
    if !(OffTrack(car, m.recovering) && m.offtrack + 1 > 10) && t.command.Some? {
      assert t.memory.roadmap == Extend(m.roadmap, car.distanceFromStart, netOut - 0.5);
    }
  }

  /** So a roadmap built call by call holds, at index `i`, the steering magnitude
      recorded while the car was in segment `i`: the appended entry's index is
      the segment index. */
  lemma {:induction false} RoadmapIndexIsSegment(m: Memory, car: CarState, netOut: real, recovery: Command)
    requires |Step(m, car, netOut, recovery).memory.roadmap| > |m.roadmap|
    ensures |m.roadmap| == Segment(car.distanceFromStart)
    ensures Step(m, car, netOut, recovery).memory.roadmap[|m.roadmap|] == Abs(netOut - 0.5)
  {
    RoadmapGrowth(m, car, netOut, recovery);
  }

  /** The speed-up window is never empty when the car's segment index is not
      negative, so `max` cannot raise there. */
  lemma {:induction false} NoValueErrorAhead(roadmap: seq<real>, position: int)
    requires 0 <= position && position + 1 < |roadmap|
    ensures |Slice(roadmap, position, position + Lookahead)| > 0
  {
    assert SliceBound(position, |roadmap|) == position;
  }

  /** A normal tick raises only when the speed-up rule reads an empty window. */
  lemma {:induction false} StepRaisesOnlyOnNegativeSegment(m: Memory, car: CarState, netOut: real, recovery: Command)
    requires Segment(car.distanceFromStart) >= 0
    ensures Step(m, car, netOut, recovery).command.Some?
  {
    var position := Segment(car.distanceFromStart);
    if position + 1 < |m.roadmap| {
      NoValueErrorAhead(m.roadmap, position);
    }
  }

  /** With a negative `distance_from_start` the window can be empty: with twenty entries
      recorded, `distance_from_start` of -5 gives segment -1 and the slice
      `roadmap[-1:19]` is empty, so `max` raises. */
  lemma EmptyWindowOnNegativeSegment(roadmap: seq<real>)
    requires |roadmap| == 20
    ensures Segment(-5.0) == -1
    ensures |Slice(roadmap, Segment(-5.0), Segment(-5.0) + Lookahead)| == 0
  {
    assert Trunc(-5.0) == -5;
  }

  // ---------------------------------------------------------------------------
  // The driver object
  // ---------------------------------------------------------------------------

  class MyDriver {
    var timeSinceLastShift: int
    var offtrack: int
    var recovering: bool
    var roadmap: seq<real>
    var speedup: Option<bool>

    /** The driver's fields as a value. */
    function State(): Memory
      reads this
    {
      Memory(timeSinceLastShift, offtrack, recovering, roadmap, speedup)
    }

    predicate Valid()
      reads this
    {
      Sound(State())
    }

    constructor ()
      ensures Valid() && State() == Fresh
    {
      timeSinceLastShift := 0;
      offtrack := 0;
      recovering := false;
      roadmap := [];
      speedup := None;
    }

    /** `shiftGears`: the gear rule plus the shift-delay counter, reset exactly
        when the gear changes and counted up otherwise. */
    method ShiftGears(previousGear: int, rpm: real) returns (newGear: int)
      modifies this
      ensures newGear == NextGear(previousGear, rpm, old(timeSinceLastShift))
      ensures newGear != previousGear ==> timeSinceLastShift == 0
      ensures newGear == previousGear ==> timeSinceLastShift == old(timeSinceLastShift) + 1
      ensures State() == old(State()).(timeSinceLastShift := timeSinceLastShift)
    {
      if previousGear <= 0 {
        newGear := 1;
      } else if timeSinceLastShift < ShiftDelay {
        newGear := previousGear;
      } else {
        if rpm > UpRpm {
          newGear := if previousGear + 1 < TopGear then previousGear + 1 else TopGear;
        } else if rpm < DownRpm {
          newGear := if previousGear - 1 > 1 then previousGear - 1 else 1;
        } else {
          newGear := previousGear;
        }
      }
      if previousGear != newGear {
        timeSinceLastShift := 0;
      } else {
        timeSinceLastShift := timeSinceLastShift + 1;
      }
    }

    /** The speed-up block of `drive`: full throttle when the roadmap ahead is
        straight and the car below 180, full brake above 80 otherwise. */
    method AdjustSpeed(base: Command, position: int, speed: real) returns (command: Option<Command>)
      ensures command == SpeedUp(base, roadmap, position, speed)
    {
      var window := Slice(roadmap, position, position + Lookahead);
      if |window| == 0 {
        return None;
      }
      command := Some(base);
      if Max(window) < 0.1 && speed < 180.0 {
        command := Some(base.(accelerator := 1.0));
      } else if speed > 80.0 {
        command := Some(base.(brake := 1.0, accelerator := 0.0));
      }
    }

    /** `drive`: returns the command, or `None` where Python raises
        `ValueError`; the fields it has updated by then stay updated. */
    method Drive(car: CarState, netOut: real, recovery: Command) returns (command: Option<Command>)
      requires Valid()
      modifies this
      ensures Valid()
      ensures Turn(State(), command) == Step(old(State()), car, netOut, recovery)
    {
      ghost var m := State();
      StepKeepsSound(m, car, netOut, recovery);
      if speedup.None? {
        speedup := Some(OpponentsNear(car.opponents));
      }
      var cmd := Neutral;
      if Abs(car.distanceFromCenter) > 1.0 || (car.angle > 45.0 && car.angle < 315.0) || recovering {
        offtrack := offtrack + 1;
        if offtrack > 10 {
          recovering := true;
          cmd := recovery;
          if Abs(car.distanceFromCenter) < 1.0 && (car.angle < 45.0 || car.angle > 315.0) {
            recovering := false;
            offtrack := 0;
          }
          cmd := cmd.(steering := ClampSteering(cmd.steering));
          return Some(cmd);
        }
      }
      cmd := cmd.(accelerator := Accelerator(car.speedX));
      var gear := ShiftGears(car.gear, car.rpm);
      cmd := cmd.(gear := gear, steering := netOut - 0.5, brake := 0.0);
      var position := Trunc(car.distanceFromStart) / Interval;
      if speedup == Some(true) && position + 1 < |roadmap| {
        var adjusted := AdjustSpeed(cmd, position, car.speedX);
        if adjusted.None? {
          return None;
        }
        cmd := adjusted.value;
      }
      assert State().roadmap == m.roadmap;
      if |roadmap| == position && Trunc(car.distanceFromStart) % Interval == 0 {
        roadmap := roadmap + [Abs(cmd.steering)];
      }
      return Some(cmd);
    }
  }
}
