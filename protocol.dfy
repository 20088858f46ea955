/** The client side of the simulator's UDP protocol: the four-state life cycle,
    the registration handshake and the per-tick dispatch of server messages.

    The socket is replaced by a script: `inbox` lists what each receive
    yields, in order, and `sent` logs every buffer sent. The fitness file is
    the list of values written to it, and the driver hooks `on_shutdown` and
    `on_restart` are counters. The driver itself, the car-state builder and
    the command's actuator table are functions fixed at construction. */
module Protocol {
  import opened Text
  import opened Car
  import opened Serializer
  import opened Evaluation

  /** The runtime state of the client. */
  datatype State = Stopped | Starting | Running | Stopping

  /** The server's special messages. */
  const Identified := "***identified***"
  const Shutdown := "***shutdown***"
  const Restart := "***restart***"

  /** The number of range-finder angles the server expects at registration. */
  const RangeFinderCount := 19

  /** What one receive yields: a buffer, a socket error (a timeout above all),
      or a keyboard interrupt. */
  datatype Receive = Got(buffer: string) | Timeout | Interrupt

  /** How a registration or a run ends: `Done` when it returns normally
      (registration accepted, or `run` returned), `Exhausted` when the
      scripted inbox ran out first, or the exception that escapes it. */
  datatype Outcome = Done | Exhausted | AssertionError | KeyboardInterrupt

  /** What the client is built with. */
  datatype Setup = Setup(
    port: int,
    angles: seq<Value>,
    carOf: Frame -> CarState,
    drive: CarState -> Command,
    actuatorsOf: Command -> Fields)

  /** The client's fields as a value. */
  datatype Session = Session(
    state: State,
    evaluation: Record,
    inbox: seq<Receive>,
    sent: seq<string>,
    fitnessWrites: seq<real>,
    shutdowns: nat,
    restarts: nat)

  // ---------------------------------------------------------------------------
  // Registration
  // ---------------------------------------------------------------------------

  /** The registration buffer: `SCR-{port}` followed by the `init` group of the
      range-finder angles. */
  function InitBuffer(port: int, angles: seq<Value>): string {
    Wire([("init", angles)], "SCR-" + IntToString(port))
  }

  /** Where the angles are present, the registration buffer is the bare prefix
      `SCR-{port}` followed by exactly one group `(init a1 ... an)`. */
  lemma InitBufferLayout(port: int, angles: seq<Value>)
    requires Kept(angles)
    ensures InitBuffer(port, angles) == "SCR-" + IntToString(port) + "(init " + Join(" ", RenderAll(angles)) + ")"
  {
    WireStartsWithFirstGroup([("init", angles)], "SCR-" + IntToString(port));
    assert [("init", angles)][1..] == [];
  }

  /** `str(port)` holds no parenthesis: only digits and a leading minus. */
  lemma IntToStringHasNoParen(i: int)
    ensures '(' !in IntToString(i)
  {
    var s := IntToString(i);
    if i < 0 {
      assert s == "-" + NatToString(-i);
      assert forall j :: 1 <= j < |s| ==> s[j] == NatToString(-i)[j - 1];
    }
  }

  /** The server reads the registration buffer back as the single key `init`
      holding the rendered angles. */
  lemma InitBufferDecodes(port: int, angles: seq<Value>)
    requires CleanValues(angles) && Kept(angles)
    ensures Scan(InitBuffer(port, angles), 0, map[]) == map["init" := FieldOf(RenderAll(angles))]
  {
    var data := [("init", angles)];
    IntToStringHasNoParen(port);
    assert "SCR-" + IntToString(port) == ['S', 'C', 'R', '-'] + IntToString(port);
    assert '(' !in "SCR-" + IntToString(port);
    assert WellFormed(data);
    RoundTrip(data, "SCR-" + IntToString(port));
    assert data[1..] == [];
  }

  /** What the registration loop sends, how many receives it consumes and how
      it ends, starting with `buffer` in hand. */
  datatype Handshake = Handshake(sent: seq<string>, consumed: nat, outcome: Outcome)

  /** One more turn in front of a handshake: `buffer` was sent and one receive
      consumed. */
  function Then(buffer: string, h: Handshake): Handshake {
    Handshake([buffer] + h.sent, h.consumed + 1, h.outcome)
  }

  /** The registration loop: send the buffer in hand, then receive. A reply
      holding the identified marker ends the loop; any other reply becomes the
      buffer sent next; a socket error keeps the buffer; an interrupt escapes. */
  function Exchange(buffer: string, inbox: seq<Receive>): (h: Handshake)
    ensures h.consumed <= |inbox|
    ensures |h.sent| == (if h.outcome == Exhausted then h.consumed + 1 else h.consumed)
    ensures h.outcome in {Done, Exhausted, KeyboardInterrupt}
    decreases |inbox|
  {
    if |inbox| == 0 then Handshake([buffer], 0, Exhausted)
    else match inbox[0]
      case Interrupt => Handshake([buffer], 1, KeyboardInterrupt)
      case Timeout => Then(buffer, Exchange(buffer, inbox[1..]))
      case Got(reply) =>
        if Contains(reply, Identified) then Handshake([buffer], 1, Done)
        else Then(buffer, Exchange(reply, inbox[1..]))
  }

  /** The first buffer the loop sends is the one it starts with, and every
      later one is the previous buffer again after a socket error, or the
      reply just received otherwise. */
  lemma {:induction false} ExchangeSends(buffer: string, inbox: seq<Receive>)
    ensures var h := Exchange(buffer, inbox);
      && h.sent[0] == buffer
      && forall k :: 0 <= k < |h.sent| - 1 ==>
           inbox[k] != Interrupt
           && h.sent[k + 1] == (if inbox[k] == Timeout then h.sent[k] else inbox[k].buffer)
    decreases |inbox|
  {
    var h := Exchange(buffer, inbox);
    if |inbox| > 0 && inbox[0] != Interrupt && !(inbox[0].Got? && Contains(inbox[0].buffer, Identified)) {
      var next := if inbox[0] == Timeout then buffer else inbox[0].buffer;
      var rest := inbox[1..];
      var t := Exchange(next, rest);
      ExchangeContinues(buffer, inbox);
      ExchangeSends(next, rest);
      forall k | 0 <= k < |h.sent| - 1
        ensures inbox[k] != Interrupt
        ensures h.sent[k + 1] == (if inbox[k] == Timeout then h.sent[k] else inbox[k].buffer)
      {
        if k > 0 {
          assert inbox[k] == rest[k - 1];
          assert h.sent[k] == t.sent[k - 1] && h.sent[k + 1] == t.sent[k];
        }
      }
    }
  }

  /** A turn that neither is interrupted nor identifies sends the buffer in
      hand and continues from the next one. */
  lemma ExchangeContinues(buffer: string, inbox: seq<Receive>)
    requires |inbox| > 0 && inbox[0] != Interrupt
    requires !(inbox[0].Got? && Contains(inbox[0].buffer, Identified))
    ensures var next := if inbox[0] == Timeout then buffer else inbox[0].buffer;
      Exchange(buffer, inbox).sent == [buffer] + Exchange(next, inbox[1..]).sent
  {
  }

  /** The loop ends normally only on a reply holding the identified marker:
      that reply is the last one consumed, and no earlier reply held it. */
  lemma {:induction false} ExchangeAcceptsOnlyIdentified(buffer: string, inbox: seq<Receive>)
    ensures var h := Exchange(buffer, inbox);
      && (forall k :: 0 <= k < h.consumed - 1 ==> inbox[k] != Interrupt && !(inbox[k].Got? && Contains(inbox[k].buffer, Identified)))
      && (h.outcome == Done <==> h.consumed >= 1 && inbox[h.consumed - 1].Got? && Contains(inbox[h.consumed - 1].buffer, Identified))
      && (h.outcome == KeyboardInterrupt <==> h.consumed >= 1 && inbox[h.consumed - 1] == Interrupt)
      && (h.outcome == Exhausted ==> h.consumed == |inbox|)
    decreases |inbox|
  {
    var h := Exchange(buffer, inbox);
    if |inbox| > 0 && inbox[0] != Interrupt && !(inbox[0].Got? && Contains(inbox[0].buffer, Identified)) {
      var next := if inbox[0] == Timeout then buffer else inbox[0].buffer;
      var t := Exchange(next, inbox[1..]);
      ExchangeAcceptsOnlyIdentified(next, inbox[1..]);
      assert h.consumed == t.consumed + 1;
      forall k | 1 <= k <= h.consumed - 1
        ensures inbox[k] == inbox[1..][k - 1]
      {
      }
    }
  }

  /** One turn of the registration loop, unfolded. */
  lemma ExchangeTurn(buffer: string, inbox: seq<Receive>)
    requires |inbox| > 0
    ensures inbox[0] == Interrupt ==> Exchange(buffer, inbox) == Handshake([buffer], 1, KeyboardInterrupt)
    ensures inbox[0] == Timeout ==> Exchange(buffer, inbox) == Then(buffer, Exchange(buffer, inbox[1..]))
    ensures inbox[0].Got? && Contains(inbox[0].buffer, Identified) ==> Exchange(buffer, inbox) == Handshake([buffer], 1, Done)
    ensures inbox[0].Got? && !Contains(inbox[0].buffer, Identified) ==>
      Exchange(buffer, inbox) == Then(buffer, Exchange(inbox[0].buffer, inbox[1..]))
  {
  }

  /** Midway through the loop: what was sent so far followed by what the rest
      of the loop sends is what the whole loop sends. */
  ghost predicate Resumes(sent0: seq<string>, whole: Handshake, sent: seq<string>, taken: nat, h: Handshake) {
    sent + h.sent == sent0 + whole.sent && taken + h.consumed == whole.consumed && h.outcome == whole.outcome
  }

  lemma ResumesAfterTurn(sent0: seq<string>, whole: Handshake, sent: seq<string>, taken: nat, buffer: string, h: Handshake)
    requires Resumes(sent0, whole, sent, taken, Then(buffer, h))
    ensures Resumes(sent0, whole, sent + [buffer], taken + 1, h)
  {
    assert sent + [buffer] + h.sent == sent + ([buffer] + h.sent);
  }

  // ---------------------------------------------------------------------------
  // Stopping and the per-tick dispatch
  // ---------------------------------------------------------------------------

  /** `stop`: only a running client acts. It writes the current fitness to the
      fitness file, moves to STOPPING and calls `on_shutdown`. */
  function AfterStop(s: Session): (r: Session)
    ensures r.state != Running
    ensures s.state == Running ==>
      r == s.(state := Stopping, fitnessWrites := s.fitnessWrites + [s.evaluation.fitness], shutdowns := s.shutdowns + 1)
    ensures s.state != Running ==> r == s
  {
    if s.state == Running
    then s.(fitnessWrites := s.fitnessWrites + [s.evaluation.fitness], state := Stopping, shutdowns := s.shutdowns + 1)
    else s
  }

  /** A second `stop` does nothing: the first leaves the client not RUNNING. */
  lemma StopIsIdempotent(s: Session)
    ensures AfterStop(AfterStop(s)) == AfterStop(s)
    ensures s.state != Running ==> AfterStop(s) == s
  {
  }

  /** The four kinds of buffer the tick tells apart, in the order it tests them. */
  datatype Message = Empty | ShutdownRequest | RestartRequest | Sensors

  function Classify(buffer: string): Message {
    if |buffer| == 0 then Empty
    else if Contains(buffer, Shutdown) then ShutdownRequest
    else if Contains(buffer, Restart) then RestartRequest
    else Sensors
  }

  /** The shutdown test comes first: a buffer holding both markers is a
      shutdown, and a restart needs the shutdown marker to be absent. */
  lemma ShutdownBeforeRestart(buffer: string)
    ensures Contains(buffer, Shutdown) ==> Classify(buffer) == ShutdownRequest
    ensures Classify(buffer) == RestartRequest <==> !Contains(buffer, Shutdown) && Contains(buffer, Restart)
    ensures Classify(buffer) == Sensors <==> |buffer| > 0 && !Contains(buffer, Shutdown) && !Contains(buffer, Restart)
  {
    if |buffer| == 0 {
      IndexOfFindsFirst(buffer, Shutdown, 0);
      IndexOfFindsFirst(buffer, Restart, 0);
    }
  }

  /** `_process_server_msg`: one receive and its handling. A socket error is
      swallowed, an interrupt calls `stop`, an empty buffer is ignored, the
      shutdown marker calls `stop`, the restart marker calls `on_restart`, and
      any other buffer is a sensor frame: it is decoded, the evaluation is
      updated, the driver is asked for a command and its actuators are sent
      back. With nothing left to receive, nothing happens. */
  function AfterMessage(env: Setup, s: Session): (r: Session)
    requires s.evaluation.iteration == 1
    ensures r.evaluation.iteration == 1
    ensures |s.inbox| > 0 ==> r.inbox == s.inbox[1..]
    ensures |s.inbox| == 0 ==> r == s
    ensures r.state == s.state || (s.state == Running && r.state == Stopping)
    ensures r.state == Stopping && s.state == Running ==>
      && r.fitnessWrites == s.fitnessWrites + [r.evaluation.fitness]
      && r.shutdowns == s.shutdowns + 1
      && r.sent == s.sent
    ensures r.state == s.state ==> r.fitnessWrites == s.fitnessWrites && r.shutdowns == s.shutdowns
    ensures r.sent == s.sent || (|s.inbox| > 0 && s.inbox[0].Got? && |r.sent| == |s.sent| + 1 && r.sent[..|s.sent|] == s.sent)
  {
    if |s.inbox| == 0 then s
    else
      var rest := s.(inbox := s.inbox[1..]);
      match s.inbox[0]
      case Timeout => rest
      case Interrupt => AfterStop(rest)
      case Got(buffer) =>
        match Classify(buffer)
        case Empty => rest
        case ShutdownRequest => AfterStop(rest)
        case RestartRequest => rest.(restarts := s.restarts + 1)
        case Sensors =>
          var car := env.carOf(Scan(buffer, 0, map[]));
          var command := env.drive(car);
          rest.(evaluation := Tick(s.evaluation, car, command),
                sent := s.sent + [Wire(env.actuatorsOf(command), "")])
  }

  /** A buffer holding the shutdown marker stops a running client: it moves to
      STOPPING, writes the current fitness once, calls `on_shutdown` once and
      sends nothing; the serving loop then ends and `run` leaves it STOPPED. */
  lemma ShutdownStops(env: Setup, s: Session, buffer: string)
    requires s.evaluation.iteration == 1 && s.state == Running && |s.inbox| > 0 && s.inbox[0] == Got(buffer)
    requires Contains(buffer, Shutdown)
    ensures var r := AfterMessage(env, s);
      && r.state == Stopping
      && r.fitnessWrites == s.fitnessWrites + [s.evaluation.fitness]
      && r.shutdowns == s.shutdowns + 1
      && r.sent == s.sent
      && Finish(env, r) == Ran(r.(state := Stopped), Done)
  {
    ShutdownBeforeRestart(buffer);
    IndexOfFindsFirst(buffer, Shutdown, 0);
  }

  /** A keyboard interrupt at the receive stops a running client the same way. */
  lemma InterruptStops(env: Setup, s: Session)
    requires s.evaluation.iteration == 1 && s.state == Running && |s.inbox| > 0 && s.inbox[0] == Interrupt
    ensures var r := AfterMessage(env, s);
      && r.state == Stopping
      && r.fitnessWrites == s.fitnessWrites + [s.evaluation.fitness]
      && r.shutdowns == s.shutdowns + 1
      && r.sent == s.sent
      && Finish(env, r) == Ran(r.(state := Stopped), Done)
  {
  }

  /** A socket error or an empty buffer changes nothing but the inbox. */
  lemma SilentMessages(env: Setup, s: Session)
    requires s.evaluation.iteration == 1 && |s.inbox| > 0
    requires s.inbox[0] == Timeout || s.inbox[0] == Got("")
    ensures AfterMessage(env, s) == s.(inbox := s.inbox[1..])
  {
  }

  /** The restart marker calls `on_restart` once and leaves the state, the
      evaluation and the sends alone. */
  lemma RestartKeepsState(env: Setup, s: Session, buffer: string)
    requires s.evaluation.iteration == 1 && |s.inbox| > 0 && s.inbox[0] == Got(buffer)
    requires !Contains(buffer, Shutdown) && Contains(buffer, Restart)
    ensures AfterMessage(env, s) == s.(inbox := s.inbox[1..], restarts := s.restarts + 1)
  {
    ShutdownBeforeRestart(buffer);
  }

  /** A sensor frame in a running session keeps it running, records the tick
      in the evaluation and sends exactly the encoded actuators of the command
      the driver returns for the decoded car state. */
  lemma SensorFrame(env: Setup, s: Session, buffer: string)
    requires s.evaluation.iteration == 1 && |s.inbox| > 0 && s.inbox[0] == Got(buffer)
    requires |buffer| > 0 && !Contains(buffer, Shutdown) && !Contains(buffer, Restart)
    ensures var r := AfterMessage(env, s);
      var car := env.carOf(Scan(buffer, 0, map[]));
      && r.state == s.state
      && r.evaluation.steering == Abs(env.drive(car).steering)
      && r.evaluation.fitness == 5.0 * AverageSpeed(car) + car.distanceRaced - 100.0 * (s.evaluation.steering + 1.0)
      && r.sent == s.sent + [Wire(env.actuatorsOf(env.drive(car)), "")]
  {
    ShutdownBeforeRestart(buffer);
    var car := env.carOf(Scan(buffer, 0, map[]));
    SteeringIsLatest(Observe(s.evaluation, car), env.drive(car).steering);
  }

  // ---------------------------------------------------------------------------
  // The run loop
  // ---------------------------------------------------------------------------

  /** The `while RUNNING` loop: handle messages until the client stops running
      or the inbox runs out. */
  function Serve(env: Setup, s: Session): (r: Session)
    requires s.evaluation.iteration == 1
    ensures r.evaluation.iteration == 1
    decreases |s.inbox|
  {
    if s.state != Running || |s.inbox| == 0 then s
    else Serve(env, AfterMessage(env, s))
  }

  /** While serving, `stop` takes effect at most once: the fitness file is
      written at most once, with the final evaluation's fitness, and
      `on_shutdown` is called exactly when the loop ended by stopping. Sends are
      only ever appended. */
  lemma {:induction false} ServeStopsOnce(env: Setup, s: Session)
    requires s.evaluation.iteration == 1 && s.state == Running
    ensures var r := Serve(env, s);
      && (r.state == Running || r.state == Stopping)
      && (r.state == Running ==> r.inbox == [] && r.fitnessWrites == s.fitnessWrites && r.shutdowns == s.shutdowns)
      && (r.state == Stopping ==> r.fitnessWrites == s.fitnessWrites + [r.evaluation.fitness] && r.shutdowns == s.shutdowns + 1)
      && |s.sent| <= |r.sent| && r.sent[..|s.sent|] == s.sent
    decreases |s.inbox|
  {
    if |s.inbox| > 0 {
      var s' := AfterMessage(env, s);
      if s'.state == Running {
        ServeStopsOnce(env, s');
      }
    }
  }

  /** The state and the outcome `run` leaves. */
  datatype Ran = Ran(session: Session, outcome: Outcome)

  /** After the loop: the client is STOPPED unless the inbox ran out first. */
  function Finish(env: Setup, s: Session): Ran
    requires s.evaluation.iteration == 1
  {
    var r := Serve(env, s);
    if r.state == Running then Ran(r, Exhausted) else Ran(r.(state := Stopped), Done)
  }

  /** `run`: from STOPPED, open the socket (or fall back to STOPPED when that
      fails), check the angle count, run the handshake and start RUNNING; then,
      whatever the state, serve while RUNNING and end STOPPED. The assertion
      and an interrupt during registration escape `run`, leaving STARTING. */
  function AfterRun(env: Setup, s: Session, socketAvailable: bool): Ran
    requires s.evaluation.iteration == 1
  {
    if s.state != Stopped then Finish(env, s)
    else if !socketAvailable then Ran(s, Done)
    else if |env.angles| != RangeFinderCount then Ran(s.(state := Starting), AssertionError)
    else
      var h := Exchange(InitBuffer(env.port, env.angles), s.inbox);
      var registered := s.(state := Starting, sent := s.sent + h.sent, inbox := s.inbox[h.consumed..]);
      if h.outcome != Done then Ran(registered, h.outcome)
      else Finish(env, registered.(state := Running))
  }

  /** A `run` that returns leaves the client STOPPED. */
  lemma RunEndsStopped(env: Setup, s: Session, socketAvailable: bool)
    requires s.evaluation.iteration == 1
    ensures AfterRun(env, s, socketAvailable).outcome == Done ==> AfterRun(env, s, socketAvailable).session.state == Stopped
  {
  }

  /** The angle count is checked before anything is sent: with the wrong
      count `run` raises, in STARTING, having sent and received nothing. */
  lemma RunAssertsBeforeSending(env: Setup, s: Session)
    requires s.evaluation.iteration == 1 && s.state == Stopped && |env.angles| != RangeFinderCount
    ensures AfterRun(env, s, true) == Ran(s.(state := Starting), AssertionError)
  {
  }

  /** Registration from STOPPED sends the `SCR-{port}(init ...)` buffer first,
      and without a reply holding the identified marker the client never gets
      past STARTING. */
  lemma {:induction false} RunRegistersFirst(env: Setup, s: Session)
    requires s.evaluation.iteration == 1 && s.state == Stopped && |env.angles| == RangeFinderCount
    ensures var r := AfterRun(env, s, true);
      && |r.session.sent| > |s.sent| && r.session.sent[|s.sent|] == InitBuffer(env.port, env.angles)
      && ((forall k :: 0 <= k < |s.inbox| ==> !(s.inbox[k].Got? && Contains(s.inbox[k].buffer, Identified))) ==>
            r.session.state == Starting && r.outcome != Done)
  {
    var h := Exchange(InitBuffer(env.port, env.angles), s.inbox);
    ExchangeSends(InitBuffer(env.port, env.angles), s.inbox);
    ExchangeAcceptsOnlyIdentified(InitBuffer(env.port, env.angles), s.inbox);
    var registered := s.(state := Starting, sent := s.sent + h.sent, inbox := s.inbox[h.consumed..]);
    assert registered.sent[|s.sent|] == InitBuffer(env.port, env.angles);
    if h.outcome == Done {
      ServeStopsOnce(env, registered.(state := Running));
    }
  }

  /** An accepted registration starts serving: when the reply that follows
      the handshake asks for shutdown, `run` stops there, having sent exactly
      the handshake's buffers, written the fitness once and called
      `on_shutdown` once. */
  lemma RunServesUntilShutdown(env: Setup, s: Session, buffer: string)
    requires s.evaluation.iteration == 1 && s.state == Stopped && |env.angles| == RangeFinderCount
    requires var h := Exchange(InitBuffer(env.port, env.angles), s.inbox);
      h.outcome == Done && h.consumed < |s.inbox| && s.inbox[h.consumed] == Got(buffer)
    requires Contains(buffer, Shutdown)
    ensures var h := Exchange(InitBuffer(env.port, env.angles), s.inbox);
      var r := AfterRun(env, s, true);
      && r.outcome == Done && r.session.state == Stopped
      && r.session.sent == s.sent + h.sent
      && r.session.fitnessWrites == s.fitnessWrites + [s.evaluation.fitness]
      && r.session.shutdowns == s.shutdowns + 1
  {
    var h := Exchange(InitBuffer(env.port, env.angles), s.inbox);
    var running := s.(state := Running, sent := s.sent + h.sent, inbox := s.inbox[h.consumed..]);
    ShutdownStops(env, running, buffer);
  }

  /** After an accepted registration the client is RUNNING: a sensor frame
      that follows the handshake is answered, the first send after the
      handshake's buffers being the driver's encoded command for it. */
  lemma {:induction false} RunAnswersSensors(env: Setup, s: Session, buffer: string)
    requires s.evaluation.iteration == 1 && s.state == Stopped && |env.angles| == RangeFinderCount
    requires var h := Exchange(InitBuffer(env.port, env.angles), s.inbox);
      h.outcome == Done && h.consumed < |s.inbox| && s.inbox[h.consumed] == Got(buffer)
    requires |buffer| > 0 && !Contains(buffer, Shutdown) && !Contains(buffer, Restart)
    ensures var h := Exchange(InitBuffer(env.port, env.angles), s.inbox);
      var r := AfterRun(env, s, true);
      var car := env.carOf(Scan(buffer, 0, map[]));
      && |r.session.sent| > |s.sent| + |h.sent|
      && r.session.sent[..|s.sent| + |h.sent|] == s.sent + h.sent
      && r.session.sent[|s.sent| + |h.sent|] == Wire(env.actuatorsOf(env.drive(car)), "")
  {
    var h := Exchange(InitBuffer(env.port, env.angles), s.inbox);
    var running := s.(state := Running, sent := s.sent + h.sent, inbox := s.inbox[h.consumed..]);
    SensorFrame(env, running, buffer);
    var next := AfterMessage(env, running);
    ServeStopsOnce(env, next);
    var served := Serve(env, next);
    assert served.sent[..|next.sent|] == next.sent;
    assert served.sent[|running.sent|] == next.sent[|running.sent|];
    assert served.sent[..|running.sent|] == next.sent[..|running.sent|];
  }

  /** A `run` from STOPPED writes the fitness file at most once and calls
      `on_shutdown` at most once, and the two happen together. */
  lemma {:induction false} RunStopsAtMostOnce(env: Setup, s: Session, socketAvailable: bool)
    requires s.evaluation.iteration == 1 && s.state == Stopped
    ensures var r := AfterRun(env, s, socketAvailable).session;
      && (r.fitnessWrites == s.fitnessWrites || r.fitnessWrites == s.fitnessWrites + [r.evaluation.fitness])
      && (r.shutdowns == s.shutdowns <==> r.fitnessWrites == s.fitnessWrites)
      && (r.shutdowns == s.shutdowns || r.shutdowns == s.shutdowns + 1)
  {
    if socketAvailable && |env.angles| == RangeFinderCount {
      var h := Exchange(InitBuffer(env.port, env.angles), s.inbox);
      var registered := s.(state := Starting, sent := s.sent + h.sent, inbox := s.inbox[h.consumed..]);
      if h.outcome == Done {
        ServeStopsOnce(env, registered.(state := Running));
      }
    }
  }

  // ---------------------------------------------------------------------------
  // The client object
  // ---------------------------------------------------------------------------

  class Client {
    const port: int
    const angles: seq<Value>
    const carOf: Frame -> CarState
    const drive: CarState -> Command
    const actuatorsOf: Command -> Fields

    var state: State
    var evaluation: Record
    var inbox: seq<Receive>
    var sent: seq<string>
    var fitnessWrites: seq<real>
    var shutdowns: nat
    var restarts: nat

    function Env(): Setup {
      Setup(port, angles, carOf, drive, actuatorsOf)
    }

    function Snapshot(): Session
      reads this
    {
      Session(state, evaluation, inbox, sent, fitnessWrites, shutdowns, restarts)
    }

    /** The evaluation's `iteration` entry is never changed from 1. */
    predicate Valid()
      reads this
    {
      evaluation.iteration == 1
    }

    constructor (port: int, angles: seq<Value>, carOf: Frame -> CarState, drive: CarState -> Command,
                 actuatorsOf: Command -> Fields, inbox: seq<Receive>)
      ensures Valid()
      ensures Env() == Setup(port, angles, carOf, drive, actuatorsOf)
      ensures Snapshot() == Session(Stopped, Initial, inbox, [], [], 0, 0)
    {
      this.port := port;
      this.angles := angles;
      this.carOf := carOf;
      this.drive := drive;
      this.actuatorsOf := actuatorsOf;
      state := Stopped;
      evaluation := Initial;
      this.inbox := inbox;
      sent := [];
      fitnessWrites := [];
      shutdowns := 0;
      restarts := 0;
    }

    method Stop()
      modifies this
      ensures Snapshot() == AfterStop(old(Snapshot()))
    {
      if state == Running {
        fitnessWrites := fitnessWrites + [evaluation.fitness];
        state := Stopping;
        shutdowns := shutdowns + 1;
      }
    }

    /** `_register_driver`: the angle check, then the send/receive loop. */
    method RegisterDriver() returns (outcome: Outcome)
      requires state == Starting
      modifies this
      ensures state == Starting && evaluation == old(evaluation)
      ensures fitnessWrites == old(fitnessWrites) && shutdowns == old(shutdowns) && restarts == old(restarts)
      ensures |angles| != RangeFinderCount ==> outcome == AssertionError && sent == old(sent) && inbox == old(inbox)
      ensures |angles| == RangeFinderCount ==>
        var h := Exchange(InitBuffer(port, angles), old(inbox));
        outcome == h.outcome && sent == old(sent) + h.sent && inbox == old(inbox)[h.consumed..]
    {
      if |angles| != RangeFinderCount {
        return AssertionError;
      }
      var buffer := Encode([("init", angles)], "SCR-" + IntToString(port));
      ghost var inbox0, sent0 := inbox, sent;
      ghost var whole := Exchange(buffer, inbox0);
      ghost var taken := 0;
      var connected := false;
      while !connected && state != Stopping
        invariant state == Starting && evaluation == old(evaluation)
        invariant fitnessWrites == old(fitnessWrites) && shutdowns == old(shutdowns) && restarts == old(restarts)
        invariant taken <= |inbox0| && inbox == inbox0[taken..]
        invariant !connected ==> Resumes(sent0, whole, sent, taken, Exchange(buffer, inbox))
        invariant connected ==> sent == sent0 + whole.sent && taken == whole.consumed && whole.outcome == Done
        decreases |inbox|, if connected then 0 else 1
      {
        ghost var h, previous, before := Exchange(buffer, inbox), buffer, sent;
        sent := sent + [buffer];
        if |inbox| == 0 {
          return Exhausted;
        }
        ExchangeTurn(buffer, inbox);
        var received := inbox[0];
        assert inbox0[taken + 1..] == inbox[1..];
        inbox := inbox[1..];
        taken := taken + 1;
        match received {
          case Interrupt =>
            return KeyboardInterrupt;
          case Timeout =>
            ResumesAfterTurn(sent0, whole, before, taken - 1, previous, Exchange(buffer, inbox));
          case Got(reply) =>
            buffer := reply;
            if Contains(reply, Identified) {
              connected := true;
            } else {
              ResumesAfterTurn(sent0, whole, before, taken - 1, previous, Exchange(reply, inbox));
            }
        }
      }
      return Done;
    }

    /** A sensor frame: decode it, update the evaluation around the driver's
        command, and send the command's actuators back. */
    method HandleSensors(buffer: string)
      requires Valid()
      modifies this
      ensures Valid()
      ensures var car := carOf(Scan(buffer, 0, map[]));
        Snapshot() == old(Snapshot()).(evaluation := Tick(old(evaluation), car, drive(car)),
                                       sent := old(sent) + [Wire(actuatorsOf(drive(car)), "")])
    {
      var sensors := Decode(buffer);
      var car := carOf(sensors);
      evaluation := Observe(evaluation, car);
      var command := drive(car);
      evaluation := RecordSteering(evaluation, command.steering);
      var reply := Encode(actuatorsOf(command), "");
      sent := sent + [reply];
    }

    /** `_process_server_msg`. */
    method ProcessServerMsg()
      requires Valid()
      modifies this
      ensures Valid()
      ensures Snapshot() == AfterMessage(Env(), old(Snapshot()))
    {
      if |inbox| == 0 {
        return;
      }
      var received := inbox[0];
      inbox := inbox[1..];
      match received {
        case Timeout =>
        case Interrupt =>
          Stop();
        case Got(buffer) =>
          if |buffer| == 0 {
            return;
          } else if Contains(buffer, Shutdown) {
            Stop();
          } else if Contains(buffer, Restart) {
            restarts := restarts + 1;
          } else {
            HandleSensors(buffer);
          }
      }
    }

    /** `run`, on a socket that can (`socketAvailable`) or cannot be opened. */
    method Run(socketAvailable: bool) returns (outcome: Outcome)
      requires Valid()
      modifies this
      ensures Valid()
      ensures Ran(Snapshot(), outcome) == AfterRun(Env(), old(Snapshot()), socketAvailable)
    {
      ghost var entry := Snapshot();
      if state == Stopped {
        state := Starting;
        if !socketAvailable {
          state := Stopped;
        } else {
          outcome := RegisterDriver();
          if outcome != Done {
            return;
          }
          state := Running;
        }
      }
      ghost var serving := Snapshot();
      assert AfterRun(Env(), entry, socketAvailable) == Finish(Env(), serving);
      while state == Running
        invariant Valid()
        invariant Serve(Env(), Snapshot()) == Serve(Env(), serving)
        decreases |inbox|
      {
        if |inbox| == 0 {
          return Exhausted;
        }
        ProcessServerMsg();
      }
      state := Stopped;
      return Done;
    }
  }
}
