# A verified model of the TORCS racing client

This project models, in Dafny, the core of a Python client for the TORCS
racing simulator's SCR network server, and proves properties of that model.
The client registers a driver with the server and then serves one sensor
frame per tick. A neural-network driver supplies most of the steering, and
hand-written rules in the driver handle gears, throttle, off-track recovery
and a speed-up roadmap. Two small scripts turn logged sensor frames into an
SQLite training table and read training sets back from it.

Module by module:

- `Text` (`text.dfy`) gives the Python string operations the code relies on:
  - `sep.join`, `s.split(sep)`, `s.split()`, `strip`, `find`, `in`, slices with negative bounds, and `str` of an integer;
  - the `+=` accumulation patterns `x + sep` and `sep + x`.
- `Car` (`car.dfy`) holds the car state and the driver's command, as far as the core reads them.
- `Serializer` (`serializer.dfy`) is the wire format:
  - `encode` writes an optional bare prefix followed by `(key v1 ... vn)` groups;
  - `decode` scans groups back into a map, forgivingly, left to right;
  - `rolling_average` is the incremental mean.
- `Evaluation` (`evaluation.dfy`) is the evaluation dictionary the client updates on every sensor frame, with the fitness score derived from it.
- `Protocol` (`protocol.dfy`) is the client: its four-state life cycle, `stop`, the registration handshake, per-tick message dispatch and `run`.
  - The `Client` class holds the fields these methods update.
  - The socket is a scripted list of receive results plus a log of sent buffers.
- `Driving` (`my_driver.dfy`) is the driver's own rules:
  - `shiftGears` and `my_accelerate`;
  - the recovery counter and the steering clamp;
  - the per-segment roadmap and the speed-up rule.
  - The `MyDriver` class holds the driver's fields, and `Step` specifies one call of `drive`.
- `DataToDb` (`data2db.dfy`) builds the `CREATE TABLE` statement and converts one logged line into an `INSERT` statement.
- `DataExtended` (`data_extended.dfy`) is the comma joiner `list2list`, the braking and steering column lists, and the two `SELECT` queries.

Source code that loops or updates state is modelled as methods, and each method is proved against a specification function:

- `Encode` and `Decode` against `Wire` and `Scan`;
- `RegisterDriver` against `Exchange`;
- `ProcessServerMsg` against `AfterMessage`, and `Run` against `AfterRun`;
- `Drive` against `Step`;
- `InsertStatement` against `Insert`;
- `List2List` against `Join`.

The lemmas then state what the source promises about those functions.

### Behaviour of the code the model keeps

The model follows the code as written in each of these cases:

- The evaluation's `iteration` entry starts at 1 and is never incremented (torcs-client-master/torcs-client-master/pytocl/protocol.py:54, 190). The steering "average" therefore always holds just the latest command's absolute steering (`Evaluation.SteeringIsLatest`).
- `run` opens the socket before `_register_driver` checks that there are 19 angles (torcs-client-master/torcs-client-master/pytocl/protocol.py:84-85, 121-125). The check does not fail before a socket exists.
- Only a failure to open the socket returns the client to STOPPED. Errors during the handshake are retried without limit (torcs-client-master/torcs-client-master/pytocl/protocol.py:136-148).
- `run` catches only `socket.error` around registration, and `_process_server_msg` catches only `socket.error` and `KeyboardInterrupt` (torcs-client-master/torcs-client-master/pytocl/protocol.py:89, 199-204). The assertion and an interrupt during registration escape `run` in STARTING. An exception raised by the driver or the car-state builder while serving would escape in RUNNING; `MyDriver.drive` can raise `ValueError` (`Driving.EmptyWindowOnNegativeSegment`).
- `my_accelerate`'s comment promises a linear ramp that its code does not implement. The model follows the code, which returns at most 0.2 at a `speed_x` of 20 or more and a negative value above 90 (`Driving.AcceleratorNegativeAbove90`).
- `drive` resets the off-track counter only inside the recovery branch. A car that leaves the track for fewer than eleven ticks keeps its count.
- A negative `distance_from_start` gives a negative segment index, which can make the speed-up window empty, and then `max` raises `ValueError` (`Driving.EmptyWindowOnNegativeSegment`). The model returns `None` there.

## Model

Source paths are relative to the repository root.

| member | source | states |
|---|---|---|
| Serializer.Encode | torcs-client-master/torcs-client-master/pytocl/protocol.py:230-255 | the loop over the table's entries yields exactly the buffer `Wire(data, prefix)` |
| Serializer.ElementsAppend | torcs-client-master/torcs-client-master/pytocl/protocol.py:248-253 | the groups of two tables written one after the other are the groups of each, in order |
| Serializer.WireLayout | torcs-client-master/torcs-client-master/pytocl/protocol.py:243-255 | the buffer is the prefix, unparenthesised and absent when empty, followed by the groups with no separator |
| Serializer.WireStartsWithFirstGroup | torcs-client-master/torcs-client-master/pytocl/protocol.py:248-255 | a kept first key's group `(key v1 ... vn)` comes right after the prefix |
| Serializer.WireOfDroppedKeys | torcs-client-master/torcs-client-master/pytocl/protocol.py:245-255 | a table whose every list is empty or starts with `None` encodes to the prefix alone |
| Serializer.NoElements | torcs-client-master/torcs-client-master/pytocl/protocol.py:249 | keys with an empty list or a leading `None` contribute no group |
| Serializer.Decode | torcs-client-master/torcs-client-master/pytocl/protocol.py:257-296 | the scanning loop ends and returns `Scan(buffer, 0, {})`; it never fails |
| Serializer.ScanSkip | torcs-client-master/torcs-client-master/pytocl/protocol.py:267-271 | text holding no `(` between two positions is skipped: resuming at either gives the same map |
| Serializer.ScanShift | torcs-client-master/torcs-client-master/pytocl/protocol.py:266-294 | the scan only reads the text after the point it resumes from |
| Serializer.ScanFromShift | torcs-client-master/torcs-client-master/pytocl/protocol.py:268-294 | the same for the scan after the next `(` has been found, including when there is none |
| Serializer.DecodeIgnoresLeadingText | torcs-client-master/torcs-client-master/pytocl/protocol.py:267-271 | text before the first `(` does not change the decoded map |
| Serializer.GroupFound | torcs-client-master/torcs-client-master/pytocl/protocol.py:268-279 | for a clean written group, the `(` and `)` the scan finds are the group's own, and its interior splits on single spaces into the key and the rendered values |
| Serializer.ScanGroup | torcs-client-master/torcs-client-master/pytocl/protocol.py:279-294 | a written group stores its key with a single token (one value) or with the token list (several), then scanning resumes after its `)` |
| Serializer.BareKeySkipped | torcs-client-master/torcs-client-master/pytocl/protocol.py:279-294 | a group holding a key alone, so fewer than two items, is skipped and scanning resumes after its `)` |
| Serializer.RunHead | torcs-client-master/torcs-client-master/pytocl/protocol.py:248-255 | the groups of a table are its first entry's group, if kept, followed by the rest |
| Serializer.ScanGroups | torcs-client-master/torcs-client-master/pytocl/protocol.py:257-296 | scanning a run of written groups stores what `Apply` stores, entry by entry |
| Serializer.RoundTrip | torcs-client-master/torcs-client-master/pytocl/protocol.py:230-296 | when keys and values hold no space or `)` and the prefix holds no `(`, decoding the encoded buffer gives `Apply({}, data)` |
| Serializer.DecodeStopsAtUnmatchedParen | torcs-client-master/torcs-client-master/pytocl/protocol.py:273-277 | an unmatched `(` ends the scan and keeps the groups already read |
| Serializer.ApplyKeys | torcs-client-master/torcs-client-master/pytocl/protocol.py:286-292 | the decoded keys are exactly the keys already present plus the kept keys |
| Serializer.ApplyUntouched | torcs-client-master/torcs-client-master/pytocl/protocol.py:292 | a key no entry repeats keeps its earlier value |
| Serializer.ApplyValue | torcs-client-master/torcs-client-master/pytocl/protocol.py:286-292 | the last entry with a kept key decides that key's value: its single token or token list |
| Serializer.RoundTripFields | torcs-client-master/torcs-client-master/pytocl/protocol.py:243-296 | for a dictionary with distinct keys, the decoded buffer holds exactly the kept keys, each with its single rendered value or its rendered value list |
| Serializer.LaterGroupWins | torcs-client-master/torcs-client-master/pytocl/protocol.py:292 | a later group with the same key overwrites an earlier one |
| Serializer.RollingAverage | torcs-client-master/torcs-client-master/pytocl/protocol.py:298-300 | the new average times `iterations + 1` is the old total plus the new value |
| Serializer.RollingAverageFirst | torcs-client-master/torcs-client-master/pytocl/protocol.py:298-300 | with no earlier values the average is the new value |
| Serializer.RollingAverageIsMean | torcs-client-master/torcs-client-master/pytocl/protocol.py:298-300 | folding values in one by one gives their arithmetic mean |
| Evaluation.Min | torcs-client-master/torcs-client-master/pytocl/protocol.py:182 | `min` is one of its arguments and no larger than either |
| Evaluation.AverageSpeed | torcs-client-master/torcs-client-master/pytocl/protocol.py:181-182 | zero before the lap clock or the track position is positive; otherwise it times the lap time is `min(distance raced, distance from start)` |
| Evaluation.Observe | torcs-client-master/torcs-client-master/pytocl/protocol.py:172-184 | `crashed`, `stuck`, `lapComplete`, `time`, `position`, `avgSpeed`, `distance` and `lapTime` as the frame says; `steering` bumped by one; the fitness is `5·avgSpeed + distance − 100·(steering + 1)` |
| Evaluation.RecordSteering | torcs-client-master/torcs-client-master/pytocl/protocol.py:190 | only the steering entry changes, and it becomes the rolling average of the absolute command steering over `iteration − 1` earlier ticks |
| Evaluation.SteeringIsLatest | torcs-client-master/torcs-client-master/pytocl/protocol.py:54-190 | with `iteration` at 1 the steering entry is just the latest command's absolute steering |
| Evaluation.FitnessLagsOneTick | torcs-client-master/torcs-client-master/pytocl/protocol.py:177-211 | the fitness of a tick penalises the previous tick's command steering plus one, not its own command's |
| Protocol.InitBufferLayout | torcs-client-master/torcs-client-master/pytocl/protocol.py:127-131 | the registration buffer is `SCR-{port}(init a1 ... an)` |
| Protocol.IntToStringHasNoParen | torcs-client-master/torcs-client-master/pytocl/protocol.py:130 | the port as text holds no `(` |
| Protocol.InitBufferDecodes | torcs-client-master/torcs-client-master/pytocl/protocol.py:127-131 | the server reads the registration buffer as the single key `init` with the rendered angles |
| Protocol.Exchange | torcs-client-master/torcs-client-master/pytocl/protocol.py:135-148 | the handshake consumes at most the inbox, sends once per consumed receive (once more when the inbox runs out) and ends accepted, exhausted or interrupted |
| Protocol.ExchangeSends | torcs-client-master/torcs-client-master/pytocl/protocol.py:135-148 | the first send is the initial buffer; after a socket error the same buffer is sent again, after a reply without the identified marker that reply is sent next |
| Protocol.ExchangeAcceptsOnlyIdentified | torcs-client-master/torcs-client-master/pytocl/protocol.py:136-145 | the loop ends normally exactly on a reply holding the identified marker, and no earlier reply held it |
| Protocol.AfterStop | torcs-client-master/torcs-client-master/pytocl/protocol.py:99-109 | a RUNNING client moves to STOPPING, appends its current fitness to the fitness file once and calls `on_shutdown` once, with nothing else changed; any other client is left as it is |
| Protocol.StopIsIdempotent | torcs-client-master/torcs-client-master/pytocl/protocol.py:102 | `stop` does nothing unless RUNNING, so a second `stop` does nothing |
| Protocol.ShutdownBeforeRestart | torcs-client-master/torcs-client-master/pytocl/protocol.py:155-167 | the shutdown marker wins over the restart marker; a sensor frame is a non-empty buffer with neither |
| Protocol.AfterMessage | torcs-client-master/torcs-client-master/pytocl/protocol.py:150-204 | one receive is consumed; the state is kept or goes RUNNING to STOPPING together with one fitness write and one shutdown; at most one buffer is sent, only for a received buffer |
| Protocol.ShutdownStops | torcs-client-master/torcs-client-master/pytocl/protocol.py:155-161 | the shutdown marker stops a RUNNING client: STOPPING, one fitness write of the current fitness, one `on_shutdown`, nothing sent; the serving loop then ends and `run` leaves it STOPPED |
| Protocol.InterruptStops | torcs-client-master/torcs-client-master/pytocl/protocol.py:199-204 | an interrupt at the receive stops a RUNNING client the same way |
| Protocol.SilentMessages | torcs-client-master/torcs-client-master/pytocl/protocol.py:155-156 | a socket error or an empty buffer changes nothing but the inbox |
| Protocol.RestartKeepsState | torcs-client-master/torcs-client-master/pytocl/protocol.py:163-165 | the restart marker calls `on_restart` once and changes nothing else |
| Protocol.SensorFrame | torcs-client-master/torcs-client-master/pytocl/protocol.py:167-197 | a sensor frame keeps the state, records the tick's fitness and steering, and sends exactly the encoded actuators of the driver's command for the decoded car state |
| Protocol.Serve | torcs-client-master/torcs-client-master/pytocl/protocol.py:93-94 | the `iteration` entry stays 1 through the serving loop |
| Protocol.ServeStopsOnce | torcs-client-master/torcs-client-master/pytocl/protocol.py:93-109 | the serving loop writes the fitness file and calls `on_shutdown` at most once, together and exactly when it stops, with the final fitness; sends are only appended |
| Protocol.RunEndsStopped | torcs-client-master/torcs-client-master/pytocl/protocol.py:93-97 | a `run` that returns leaves the client STOPPED |
| Protocol.RunAssertsBeforeSending | torcs-client-master/torcs-client-master/pytocl/protocol.py:121-125 | with other than 19 angles, `run` raises in STARTING having sent and received nothing |
| Protocol.RunRegistersFirst | torcs-client-master/torcs-client-master/pytocl/protocol.py:121-148 | the first buffer `run` sends is the registration buffer; without an identified reply the client stays in STARTING |
| Protocol.RunServesUntilShutdown | torcs-client-master/torcs-client-master/pytocl/protocol.py:73-97 | after an accepted handshake the client serves in RUNNING; a shutdown reply right after it ends `run` normally in STOPPED, having sent exactly the handshake's buffers, written the fitness once and called `on_shutdown` once |
| Protocol.RunAnswersSensors | torcs-client-master/torcs-client-master/pytocl/protocol.py:73-97 | after an accepted handshake a sensor frame is answered: the first send after the handshake's buffers is the driver's encoded command for that frame |
| Protocol.RunStopsAtMostOnce | torcs-client-master/torcs-client-master/pytocl/protocol.py:73-109 | a whole `run` writes the fitness file and calls `on_shutdown` at most once, and the two happen together |
| Protocol.Client.constructor | torcs-client-master/torcs-client-master/pytocl/protocol.py:32-56 | a new client is STOPPED with the initial evaluation, nothing sent or written |
| Protocol.Client.Stop | torcs-client-master/torcs-client-master/pytocl/protocol.py:99-109 | the fields become `AfterStop` of the old ones |
| Protocol.Client.RegisterDriver | torcs-client-master/torcs-client-master/pytocl/protocol.py:115-148 | the angle assertion, then exactly the sends, the consumed receives and the outcome of `Exchange`; the rest of the client is unchanged |
| Protocol.Client.ProcessServerMsg | torcs-client-master/torcs-client-master/pytocl/protocol.py:150-204 | the fields become `AfterMessage` of the old ones |
| Protocol.Client.HandleSensors | torcs-client-master/torcs-client-master/pytocl/protocol.py:168-197 | on a sensor frame the evaluation becomes `Tick` of the decoded car state and the driver's command, and that command's actuators are appended to what was sent; inbox, state and restarts are unchanged |
| Protocol.Client.Run | torcs-client-master/torcs-client-master/pytocl/protocol.py:73-97 | the fields and the outcome are `AfterRun` of the old fields |
| Driving.NextGear | torcs-client-master/torcs-client-master/my_driver.py:119-131 | first gear from neutral or reverse; unchanged within the 25-tick delay; from gears 1..6 it stays in 1..6 and moves by at most one; up only above 7500 rpm, down only below 2000 rpm or from above the top gear |
| Driving.ShiftAfterDelay | torcs-client-master/torcs-client-master/my_driver.py:125-131 | after the delay a high engine speed shifts up by one up to 6, a low one down by one down to 1, otherwise the gear is kept |
| Driving.Accelerator | torcs-client-master/torcs-client-master/my_driver.py:140-145 | full throttle below a `speed_x` of 20; at most 0.2 from 20, exactly 0.2 up to 80, then `1.8 − 0.02·speed` |
| Driving.AcceleratorNegativeAbove90 | torcs-client-master/torcs-client-master/my_driver.py:145 | above a `speed_x` of 90 the throttle asked for is negative |
| Driving.ClampSteering | torcs-client-master/torcs-client-master/my_driver.py:69-70 | the result lies in [−0.07, 0.07], keeps the sign, never grows in magnitude, and is the input when that is already in range |
| Driving.Trunc | torcs-client-master/torcs-client-master/my_driver.py:85 | `int(x)`: truncation toward zero |
| Driving.Segment | torcs-client-master/torcs-client-master/my_driver.py:84-85 | the segment index `p` satisfies `10p <= int(distance) < 10p + 10` |
| Driving.Max | torcs-client-master/torcs-client-master/my_driver.py:91 | `max` of a non-empty list is one of its elements and no element exceeds it |
| Driving.StepKeepsSound | torcs-client-master/torcs-client-master/my_driver.py:44-107 | every call keeps: recovering only past ten off-track ticks, counters non-negative, roadmap entries non-negative |
| Driving.SpeedupDecidedOnce | torcs-client-master/torcs-client-master/my_driver.py:46-47 | `speedup` is set on the first call, true exactly when some opponent reading is not 200, and never changes after |
| Driving.RecoveryRule | torcs-client-master/torcs-client-master/my_driver.py:56-72 | the off-track counter grows on each off-track or recovering tick; past ten the driver recovers with the clamped command and clears both when back on track |
| Driving.RecoveringStaysInRecovery | torcs-client-master/torcs-client-master/my_driver.py:56-72 | a recovering driver returns a command steering within ±0.07 and keeps recovering exactly while the car is not back on track |
| Driving.RoadmapGrowth | torcs-client-master/torcs-client-master/my_driver.py:84-103 | the roadmap grows by at most one entry, exactly on a normal tick whose segment index equals its length at a whole multiple of ten metres, and the entry is that tick's absolute steering |
| Driving.RoadmapIndexIsSegment | torcs-client-master/torcs-client-master/my_driver.py:84-100 | an appended entry sits at the index of the car's segment |
| Driving.NoValueErrorAhead | torcs-client-master/torcs-client-master/my_driver.py:90-91 | with a non-negative segment index ahead of the roadmap's end, the window `max` reads is non-empty |
| Driving.StepRaisesOnlyOnNegativeSegment | torcs-client-master/torcs-client-master/my_driver.py:84-96 | at a non-negative segment index `drive` always returns a command |
| Driving.EmptyWindowOnNegativeSegment | torcs-client-master/torcs-client-master/my_driver.py:84-91 | with a negative `distance_from_start` the window can be empty: 20 entries and a distance of −5 give segment −1 and an empty slice |
| Driving.MyDriver.constructor | torcs-client-master/torcs-client-master/my_driver.py:11-42 | a new driver has zero counters, is not recovering, has an empty roadmap and no `speedup` decision |
| Driving.MyDriver.ShiftGears | torcs-client-master/torcs-client-master/my_driver.py:119-138 | returns `NextGear`; the counter is reset exactly when the gear changes and incremented otherwise; nothing else changes |
| Driving.MyDriver.AdjustSpeed | torcs-client-master/torcs-client-master/my_driver.py:90-96 | the speed-up block computes `SpeedUp` of the current roadmap, whose meaning `Driving.SpeedUpRule` states |
| Driving.SpeedUpRule | torcs-client-master/torcs-client-master/my_driver.py:90-96 | `max` raises exactly on an empty window; otherwise steering and gear are kept; full throttle exactly when every entry ahead is below 0.1 and the car below 180; full brake with no throttle exactly when that fails above 80; the command unchanged when it fails at 80 or below |
| Driving.MyDriver.Drive | torcs-client-master/torcs-client-master/my_driver.py:44-107 | the returned command and the new fields are `Step` of the old fields |
| DataToDb.CreateTable | torcs-client-master/torcs-client-master/models/data2db.py:18-21 | `CREATE TABLE observations (track, k1, ..., kn);` with the keys in order |
| DataToDb.Schema | torcs-client-master/torcs-client-master/models/data2db.py:8-21 | the statement the script runs is the table over its 85 keys, in order, after `track` |
| DataToDb.TokensAreWords | torcs-client-master/torcs-client-master/models/data2db.py:39-41 | each group's tokens are non-empty runs of non-space characters that together hold every non-space character of the group, in order |
| DataToDb.Parts | torcs-client-master/torcs-client-master/models/data2db.py:34-39 | the groups, joined again by `)(`, give the stripped line without its first and last characters, and no group holds `)(` |
| DataToDb.Numbered | torcs-client-master/torcs-client-master/models/data2db.py:47-48 | one numbered column per value |
| DataToDb.NumberedColumns | torcs-client-master/torcs-client-master/models/data2db.py:47-48 | the i-th numbered column is the key followed by `str(i)` |
| DataToDb.GroupColumns | torcs-client-master/torcs-client-master/models/data2db.py:43-49 | a group contributes one column per value |
| DataToDb.GroupColumnNames | torcs-client-master/torcs-client-master/models/data2db.py:43-49 | one value gives the bare key; any other count gives the key numbered from 0; a key with no value gives no column |
| DataToDb.ColumnsMatchValues | torcs-client-master/torcs-client-master/models/data2db.py:36-51 | the column list and the value list are equally long |
| DataToDb.EmptyLineRaises | torcs-client-master/torcs-client-master/models/data2db.py:34-41 | an empty line yields a group without a key, so `pop(0)` raises |
| DataToDb.AppendGroup | torcs-client-master/torcs-client-master/models/data2db.py:41-49 | both lists grow by the group's `column, ` and `value, ` pieces |
| DataToDb.InsertStatement | torcs-client-master/torcs-client-master/models/data2db.py:33-51 | the statement `Insert(line, fileName)`: `None` when a group has no key, otherwise the columns after `track` and the values after the quoted file name, each list losing only its trailing `, ` |
| DataToDb.InsertParts | torcs-client-master/torcs-client-master/models/data2db.py:36-51 | the same, for a line already split into groups |
| DataToDb.InsertCut | torcs-client-master/torcs-client-master/models/data2db.py:51 | cutting the last two characters off each accumulated list gives the `, `-joined lists |
| DataExtended.List2List | torcs-client-master/torcs-client-master/models/data_extended.py:60-67 | the entries joined by `, `: empty for no entry, the entry itself for one, and of total entry length plus 2·(n−1) otherwise |
| DataExtended.DataColumnsOf | torcs-client-master/torcs-client-master/models/data_extended.py:54-72 | both training sets read the same 34 columns |
| DataExtended.TargetColumnsOf | torcs-client-master/torcs-client-master/models/data_extended.py:57-75 | each training set has one target column |
| DataExtended.Queries | torcs-client-master/torcs-client-master/models/data_extended.py:18-25 | the two queries are `SELECT` of the joined columns `FROM observations` |
| DataExtended.TargetQuery | torcs-client-master/torcs-client-master/models/data_extended.py:23-25 | the target query selects `brake` for braking and `steer` for steering |

## Left out

- Sockets: receives are a scripted inbox of buffers, socket errors (timeouts) and keyboard interrupts, and sends always succeed and are logged. Opening the socket is a boolean input to `run`.
- Time: the one-second timeout is not modelled. The real loops never end on their own, so an exhausted inbox is the end of observation (outcome `Exhausted`).
- Keyboard interrupts arrive only at a receive. The interrupt handler in `_process_server_msg` calls `stop`; anywhere else the interrupt escapes.
- Logging, `print` and `__repr__`.
- The fitness file is the list of values written to it. The driver's `on_shutdown` and `on_restart` hooks are counters.
- `bytes` encoding and decoding are left out: buffers are strings. `str` of numbers is left out too: values reach the encoder already rendered as tokens, and `None` renders as the word `None`.
- The car-state builder, the driver's `drive` and the command's actuator table are functions fixed when the client is built (`pytocl/car.py` and `pytocl/driver.py` are not part of this model). A `CarState` that cannot be built from a frame is not modelled.
- `Protocol.Client`'s driver is one of those fixed functions. The state `MyDriver` keeps between calls is modelled on its own in `Driving`, not threaded through the client.
- The neural network is an input: `netOut` is its first output for the tick. `state2sample` is left out with it.
- The recovery branch's `accelerate` and `steer` are inherited driver code outside this model. Their command is an input (`recovery`), and the model clamps its steering as `drive` does.
- The roadmap's pickle file is kept in memory: the list read back at each call is the list written at the last append.
- The NEAT configuration and the network loading in the driver's constructor are left out.
- SQLite, pandas, `os.listdir` and reading files are left out. The scripts' statements are produced as strings, not executed. Dropping the table first is not modelled.
- The client's driver and car-state builder are total functions here, so an exception raised by either while serving, which would escape `run` in RUNNING, is not modelled.
- Floating point is modelled with exact `real` arithmetic, with no rounding.
- Decoded maps are unordered, so Python's dictionary insertion order is not kept.
- Serializer.RoundTrip: stated for tokens free of spaces and `)` and a prefix free of `(`; for other data the decoder may split or truncate groups.
