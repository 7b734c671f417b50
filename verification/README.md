# libmonome: a verified model

libmonome lets an application draw on, and read presses from, monome grid controllers. This project
models the parts of it where much can go wrong and where one function's promise rests on several
others, and proves what those parts promise.

- **Drawing under rotation.** An application draws single LEDs, lines and 8x8 tiles in its own
  orientation; three protocol drivers compile that to wire bytes in the device's orientation, by
  exchanging rows and columns, reversing bytes and turning bit matrices with word-parallel swap
  networks. The device side is defined here as well (`Display`, `Devices`, and `Interpret` in each
  protocol module), and every bulk command is compared, at the level of the LEDs it leaves lit, with
  the single-LED commands it stands for.
- **The mext protocol.** Framing by a length table, dispatch, the meaning of whole message streams,
  partial reads, and the timed handshake with its retry, its deadline and its clean-up.
- **Ownership in the C++ wrapper and in the library.** Device handles and callback tables through
  any program that opens, moves, assigns, registers, dispatches and destroys.
- **The game of life example.** Neighbour counts updated in place, against Conway's rule.

## Modules

| module | models |
|---|---|
| `Bits` | bytes, wrapping unsigned numbers, bit reversal, buffers |
| `Rotation`, `MapCallbacks`, `Levels` | the rotation table, its bit-matrix networks, level tiles |
| `Display`, `Drawing` | the LEDs of a device; rotated lines and tiles in general |
| `Framing`, `Devices` | cutting a byte stream by a length table; devices that do so and paint |
| `Events`, `Platform` | events; the serial port, the clock and the operating system |
| `MextWire`, `MextLeds`, `MextInput`, `MextCalls`, `MextStream`, `MextOpen` | the mext protocol |
| `Series`, `Forty`, `Inputs` | the series and 40h protocols; what both make of a read |
| `Wrapper`, `Ownership` | the C++ wrapper; whole programs over it |
| `Library` | opening and closing in the C library |
| `Life` | the game of life |

Methods follow the C and C++ functions step by step and are proved against functions (`MapMsg`,
`Pump`, `Turns`, ...); the lemmas then say what those functions mean.

## Assumptions

- A mext device floors the offset along a written line, and both offsets of a map, to a multiple of
  8. It is written down in `MextLeds.Interpret` and `MextLeds.InterpretLevels`.
- Byte r of a map is row r, and bit c, from the least significant, is column c.
- A frame (`Display.Frame`) is any set of LEDs; where pictures have to be told apart, a frame that has
  every LED of the panel.
- The operating system answers calls by a script: any finite sequence of successes, partial
  transfers, interruptions, refusals and errors, each taking any time. When the script is over,
  reads find nothing and waits time out. The clock never goes back, and a wait that times out lasts at
  least as long as asked for. Every statement holds for every script, or for the scripts it names: a
  prompt script has no refusals or errors, and a calm one no signals.
- The port logs every call made of it with its time; what is said about the handshake is said of that log.
- Bytes the system refuses to take are counted (`lost`). How many a LED command loses is determined
  by the answers to its writes (`Platform.Wrote`), none if they are all taken whole; what it sends is
  stated for the commands that lose none.
- 16-bit fields of tilt messages are read on a little-endian host.
- A division by zero in `input_cb`, which C leaves undefined, gives 0; the statements about input
  coordinates ask for positive sides.

## What the code does that its comments do not say

- `led_level_map` of the series protocol rotates twice (once in `level_map_cb`, once in `led_map`),
  against the comment at `src/proto/series.c:278`; it is right for all data exactly when the rotation
  is 0 (`Series.LevelMapIsRightIff`).
- `led_map` of the 40h protocol rotates twice and its `led_level_map` three times; they are right
  for all data exactly at rotation 0, and at 0 and 180 (`Forty.MapIsRightIff`,
  `Forty.LevelMapIsRightIff`).
- Big-endian builds exchange the two data bytes of a 16-LED row or column of the series protocol
  (`Series.LineIsRightIff`).
- `next_event` of the series and 40h protocols compares a signed byte count with `sizeof`, so that a
  read that fails is taken for a complete one and is reported as a button pressed (series) or
  released (40h) at the rotated origin; and a read of one byte returns 1, as an event does, with no
  event filled in. When that happens is stated exactly (`Series.EventTakenIff`, `Forty.EventTakenIff`).
- `monome_platform_read` can return 0 after taking bytes, when the system refuses a read after a wait
  that succeeded (`Platform.BytesCanBeLost`); its result counts the bytes taken exactly under the
  condition of `Platform.ReadCountsIff`.
- A key-grid message whose command is neither up nor down carries no payload and is reported as a
  release at coordinates left over in the buffer (`MextInput.KeyUsesOldBufferIff`,
  `MextInput.StaleKey`); such messages are not well-formed in `MextStream`.
- A mext message whose payload does not come in full within the waits of one call is torn: what came
  of it is dropped, and the next call takes what is left for a header (`MextCalls.TornKey`, exactly when:
  `MextCalls.MessageReadIff`).
- The drain loop of the game of life ends at the first event for which no handler is registered
  (`Life.HandleEvents`).

## Model

| member | source | states |
|---|---|---|
| Bits.ReverseByteBits | src/private/rotation.h:25 | the multiplications of `REVERSE_BYTE` reverse the eight bits, for every byte |
| Rotation.InputAfterOutput | src/rotation.c:58-241 | for all positive sides and rotations, `output_cb` maps the logical grid into the physical one and `input_cb` maps back |
| Rotation.OutputAfterInput | src/rotation.c:58-241 | the converse, so that the two are inverse bijections between the grids of `monome_get_cols/rows` and of the device |
| Rotation.InputFolds | src/rotation.c:27-35 | whatever coordinate a device reports, the reflected input coordinates stay below the logical sides, as the comment promises |
| Rotation.TurnTurn | src/rotation.c:325-361 | turning tiles of any values composes as adding angles |
| Rotation.TurnMapTwice | src/rotation.c:325-361 | the rotations of eight map bytes compose in the same way |
| Rotation.SetRotationTurns | src/libmonome.c:173-175 | setting any number as the rotation turns tiles by that many quarter turns |
| MapCallbacks.AgreesBig64 | src/rotation.c:94-112 | big- and little-endian 64-bit builds turn every matrix alike, each with its own load and store |
| MapCallbacks.AgreesWords32 | src/rotation.c:116-155 | builds with two 32-bit words agree with 64-bit builds on every matrix |
| MapCallbacks.AgreesBig32 | src/rotation.c:116-155 | big- and little-endian 32-bit builds agree on every matrix |
| MapCallbacks.MapCbBit | src/rotation.c:72-315 | the networks put at row r, column c the bit old[c][7-r] (90), old[7-r][7-c] (180), old[7-c][r] (270) |
| MapCallbacks.MapCbTurns | src/rotation.c:72-315 | hence `map_cb` is the turned tile on every build |
| MapCallbacks.MapCbTwice | src/rotation.c:72-315 | so `map_cb` applied twice is `map_cb` of the composed rotation, on every build: 90 twice is 180, 90 and 270 is nothing |
| MapCallbacks.RotateMap | src/rotation.c:72-315 | in place, eight bytes of a buffer become the turned ones, and no other byte changes |
| Levels.ReduceLevelsToBitmask | src/monobright.c:19-27 | bit i of the result says whether level i exceeds 7 |
| Levels.RotateLevels | src/rotation.c:158-164 | the index arithmetic of the four level callbacks writes the turned tile and nothing else |
| Levels.ThresholdCommutes | src/monobright.c:19-27 | `map_cb` of the eight reduced masks is the reduction of `level_map_cb`, for all levels and rotations |
| Drawing.TileDrawn | src/rotation.c:325-361 | a turned tile at the floored rotated offset shows at every LED what 64 rotated dots show: flooring commutes with reflection |
| Drawing.RowsDrawn | src/proto/mext.c:201-214 | the same for a row of any length, cut into rotated groups of eight |
| Drawing.ColsDrawn | src/proto/mext.c:216-229 | the same for a column |
| Framing.CutBytesOf | src/proto/mext.h:104-149 | messages as long as the table says, run together, are cut into the same messages, whatever follows |
| Framing.CutIsLossless | src/proto/mext.c:52-72 | cutting any byte stream loses nothing |
| Framing.CutConcat | src/proto/mext.c:52-72 | a stream may be cut in two parts anywhere, within a message too: what the first part leaves is put before the second |
| Platform.Port.WaitForInput | src/platform/linux.c:23-46 | ready, timed out or failed, according to the first answer that is no interruption |
| Platform.Port.Read | src/platform/posix.c:177-207 | for every schedule, the buffer prefix is exactly the next bytes of the stream, a positive result is their number, result, bytes taken and schedule left are those of the read loop, and only reads and their 25 ms waits are made |
| Platform.ReadCompletes | src/platform/posix.c:177-207 | however the bytes are cut into partial reads, and however often signals interrupt, a read of bytes that are there gets them all and leaves a prompt schedule |
| Platform.AmpleRead | src/platform/posix.c:177-207 | a prompt schedule with two answers to a byte reads what is there, stays so for the rest of the stream, and reads nothing at its end |
| Platform.ReadCountsIff | src/platform/posix.c:177-207 | the result counts the bytes taken if and only if no call fails and no read after the first byte is refused or unanswered; waits may time out |
| Platform.FillsIff | src/platform/posix.c:177-207 | a read returns its full length if and only if every read brings something and every wait between finds the port ready in time |
| Platform.BytesCanBeLost | src/platform/posix.c:183-193 | a schedule in which a byte is taken and 0 is returned |
| Platform.NothingLostIff | src/platform/posix.c:165-175 | a series of writes loses nothing if and only if every one of them is taken whole |
| MextWire.WriteMsg | src/proto/mext.c:43-50 | header and table-length payload go to the device, up to what the system takes |
| MextWire.WritesAreSplit | src/proto/mext.c:43-50 | any sequence of writes is split back into the same subsystems, commands and payloads |
| MextWire.WritesAreUnique | src/proto/mext.h:104-149 | two lists of messages have the same bytes only if they are the same as sent |
| MextLeds.LedSet | src/proto/mext.c:160-172 | sends the message for the rotated LED, and returns what the write returned: 3 exactly when nothing of it was lost, and -1 if the system failed it |
| MextLeds.LedRowCol | src/proto/mext.c:97-114 | sends the rotated and possibly exchanged line message, and returns its length or what the write fell short of |
| MextLeds.LedMap | src/proto/mext.c:184-199 | sends the rotated offset and the data turned in place, and returns 11 exactly when nothing was lost |
| MextLeds.LedRow | src/proto/mext.c:201-214 | one message per data byte, at offsets advancing by eight in wrapping arithmetic |
| MextLeds.LedCol | src/proto/mext.c:216-229 | the same for columns |
| MextLeds.RowPaintsTheSame | src/proto/mext.c:201-214 | what a row leaves on the device is what one `mext_led_set` per LED leaves, for every rotation, count, offset and frame |
| MextLeds.ColPaintsTheSame | src/proto/mext.c:216-229 | the same for columns |
| MextLeds.MapPaintsTheSame | src/proto/mext.c:184-199 | the same for a map and 64 `mext_led_set` |
| MextLeds.RevCopy | src/proto/mext.c:116-121 | copies eight bytes in reverse, nothing else |
| MextLeds.PackNybbles | src/proto/mext.c:123-130 | overwriting its own input, it stores exactly the packing of the original bytes, for any length |
| MextLeds.UnpackedPacked | src/proto/mext.c:123-130 | a device that unpacks gets levels 0 to 15 back |
| MextLeds.LedLevelSet | src/proto/mext.c:254-273 | sends the message for the rotated LED, and returns 4 exactly when nothing was lost |
| MextLeds.LedLevelMap | src/proto/mext.c:288-303 | sends the rotated offset and the turned levels, packed in place, and returns 35 exactly when nothing was lost |
| MextLeds.LedLevelRowCol | src/proto/mext.c:132-154 | sends the rotated and possibly exchanged line, reversed or not, packed in place, and returns 7 exactly when nothing was lost |
| MextLeds.LedLevelRow | src/proto/mext.c:305-313 | one message per eight levels, at offsets advancing by eight |
| MextLeds.LedLevelCol | src/proto/mext.c:315-323 | the same for columns |
| MextLeds.LevelRowPaintsTheSame | src/proto/mext.c:305-313 | a level row shows what one `level_set` per LED shows, for all levels 0 to 15 and all rotations |
| MextLeds.LevelColPaintsTheSame | src/proto/mext.c:315-323 | the same for level columns |
| MextLeds.LevelMapPaintsTheSame | src/proto/mext.c:288-303 | the same for level maps |
| MextLeds.OnTheWire | src/proto/mext.h:104-149 | unrotated, the bytes of single LEDs, lines and single levels, header and payload written out |
| MextLeds.MapsOnTheWire | src/proto/mext.h:104-149 | the same for maps and level maps |
| MextLeds.LevelsOnTheWire | src/proto/mext.c:123-154 | the same for level lines, the first level of each pair in the high nybble |
| MextInput.Mext.HandlerSystem | src/proto/mext.c:478-515 | how each system message changes the pending bits, the id and the size, and nothing else |
| MextInput.Mext.HandlerKeyGrid | src/proto/mext.c:517-525 | the event, with coordinates unrotated in the current size |
| MextInput.Mext.Handle | src/proto/mext.c:577-584 | the table calls the subsystem's handler, and none for the others |
| MextInput.Mext.ReadMsg | src/proto/mext.c:52-72 | on every schedule, result, bytes taken and schedule left are those of a header read and a payload read; a positive result puts exactly one message into the buffer |
| MextInput.Mext.HandleNext | src/proto/mext.c:590-606 | the same, and the message is handled by its subsystem |
| MextInput.Mext.NextEvent | src/proto/mext.c:590-606 | on every schedule, result, event, state, bytes taken, bytes torn and schedule left are determined; state and event are the pumping of exactly the bytes taken |
| MextInput.CallingPumps | src/proto/mext.c:590-606 | whatever the schedule, a call does to the state what the bytes it takes say, and ends on a message boundary unless it tears a message |
| MextInput.PumpStep | src/proto/mext.c:590-606 | a stream that starts with a whole message has that message handled first |
| MextInput.KeyUsesOldBufferIff | src/proto/mext.c:517-525 | the event of a key-grid message depends on what the buffer held before if and only if its command is neither up nor down |
| MextInput.StaleKey | src/proto/mext.c:517-525 | a size message and a stray key-grid header in one call: a release is reported at the size |
| MextInput.CString | src/proto/mext.c:484-486 | a copied string is the longest prefix without a zero byte |
| MextCalls.MessageReadIff | src/proto/mext.c:52-72 | a message is read if and only if its header comes and its payload comes in full, torn if and only if the header comes and the payload does not, and left alone if and only if the header does not come |
| MextCalls.TornKey | src/proto/mext.c:67-69 | a key message whose last byte is late: two bytes are gone, and the third is the next header |
| MextCalls.CallClears | src/proto/mext.c:478-515 | a call clears exactly the pending bits whose responses are among the whole messages it took |
| MextCalls.CallLearns | src/proto/mext.c:478-515 | on every schedule, pending bits, id, friendly name and size after a call are what the messages in the bytes it took make of them, one after the other |
| MextCalls.UnhurriedCall | src/proto/mext.c:590-606 | where only whole messages come, over a prompt schedule, a call goes to the first event or the end of the stream |
| MextStream.DispatchMeans | src/proto/mext.c:478-584 | handling the bytes of any well-formed message does what the message means, whatever the buffer held before |
| MextStream.PumpIsNext | src/proto/mext.c:590-606 | one call runs through messages up to and including the first that has an event |
| MextStream.EncodedWhole | src/proto/mext.h:151-178 | the bytes of well-formed messages are cut into whole messages with nothing left over |
| MextStream.OnTheWire | src/proto/mext.h:151-178 | the bytes of every kind of message a device sends, header and payload written out |
| MextStream.PollDeliversAll | src/proto/mext.c:590-606 | for every interleaving of well-formed messages, repeated calls return exactly their events in order, fold the system messages into the state, and consume every byte |
| MextStream.KeysUseLatestSize | src/proto/mext.c:497-525 | a key after a size message is reported in that size, at a coordinate that addresses the key pressed |
| MextStream.PollAll | src/proto/mext.c:590-606 | a polling loop over the port: on every schedule its events, result, state and bytes taken are determined, the events are those of the messages consumed, and over a prompt schedule it consumes all of them |
| MextStream.PollMessages | src/proto/mext.c:590-606 | so an application gets exactly the events of all the messages sent, in order, with the state they leave, however their bytes were cut and however often signals interrupted |
| MextStream.ServedInOrder | src/proto/mext.c:590-606 | on every schedule that tears no message, calls repeated through idle and failed polls have delivered exactly the events of some first messages, in order, with the state they leave, and the others are still to be read |
| MextStream.ServedAll | src/proto/mext.c:590-606 | and all of them, if the calls outlast the schedule and it has two answers that bring something to a byte |
| MextStream.PollThrough | src/proto/mext.c:590-606 | both, of an application that calls again and again over the port |
| MextOpen.QueryPending | src/proto/mext.c:83-95 | asks for what is pending, in order, up to the first query that cannot be sent; the log and the bytes sent are exactly those |
| MextOpen.QueriesOnTheWire | src/proto/mext.c:83-95 | the queries as bytes, in their order: 0x00, 0x01 and 0x05 |
| MextOpen.WaitAndRead | src/proto/mext.c:647-651 | one wait of just the length given, then, exactly if there is something to read, one call of `mext_next_event` under the schedule left; pending bits, id, friendly name and size become what the messages among the bytes taken say |
| MextOpen.OneTurn | src/proto/mext.c:630-652 | the calls that a turn makes of the port are a step of the transition system: a retry of what is pending when due, a wait of the computed length, reads; what is pending after it, and the whole state of the device, follow from the bytes it took; a turn that goes on uses up an answer or takes time |
| MextOpen.Await | src/proto/mext.c:630-652 | the loop terminates, by the clock and the schedule; the log of the port is that of a legal run, the bytes gone are those its turns took, and the pending bits are those they left; if the responses come in time it ends with all bits clear; the whole state after it is what the messages among the bytes taken, in order, make of the one before |
| MextOpen.Open | src/proto/mext.c:608-659 | every run is legal, its log is exactly what the port was asked, it starts right after the port was opened, its pending bits at the end are those not answered by the bytes taken, it succeeds exactly when there are none at the loop head, and so only if every response needed was among the bytes, and it closes the port exactly once if and only if it opened it and fails; id, friendly name and size at the end are those that the messages taken, in order, have given to the device, and are untouched if the port does not open |
| MextOpen.LearnsMeaning | src/proto/mext.c:478-515 | a device that took the bytes of well-formed messages is in the state that folding their meanings gives |
| MextOpen.LastSizeCounts | src/proto/mext.c:497-502 | columns and rows are those of the last size message, and the rotation is as before |
| MextOpen.NeedIsUnheard | src/proto/mext.c:478-515 | what is pending after any turns of any run is what was needed but for the responses among all the bytes they took |
| MextOpen.WaitsArePlanned | src/proto/mext.c:641-645 | every wait in the log is 1 to 25 ms; but for those inside reads, which last 25, it follows a reading of the clock and is not planned past the deadline nor, before a retry, past the time for it; and it lasts 25 unless it is planned up to one of these |
| MextOpen.EndsByDeadline | src/proto/mext.c:630-659 | if no wait with its event is late by more than e, the run is over by start+1000+e |
| MextOpen.RetryOnTime | src/proto/mext.c:635-639 | every query in the log after the first ones follows a reading of the clock between start+250 and start+250+e, at which the first of them is sent: with exact waits at start+250 |
| MextOpen.TimeoutRetried | src/proto/mext.c:631-639 | the log of a run that times out shows a retry, unless the run was late by 750 ms |
| MextOpen.SilentDevice | src/proto/mext.c:608-659 | a device that never answers is asked again after exactly 250 ms and given up on after exactly 1000 |
| MextOpen.OneRetry | src/proto/mext.c:635-639 | all queries in the log after the first ones are sent in a row |
| MextOpen.QueryCount | src/proto/mext.c:83-95 | the log asks for each query needed once, and a second time if and only if there was a retry and the response was not among the bytes taken before it; the device is sent no more |
| MextOpen.TurnsTakeTime | src/proto/mext.c:630-652 | if every turn takes time, turn i begins at least i ms after the start, so there are at most 1000 |
| MextOpen.OpenResponding | src/proto/mext.c:608-659 | a device whose three responses come in any order among any messages, over a schedule without errors or signals that takes less than a second, is opened; the messages taken are the first ones sent, the state is the one they leave, and the size that of the last size message among them |
| Series.LedSet | src/proto/series.c:173-182 | sends the message for the rotated LED |
| Series.LedColRow8 | src/proto/series.c:42-90 | sends the 8-bit line on the physical line's address, exchanged and reversed as the rotation says |
| Series.LedColRow16 | src/proto/series.c:92-157 | the same for 16-bit lines, in the byte order of the build |
| Series.LedRow | src/proto/series.c:209-232 | chooses the form by the logical width and widens a single byte |
| Series.LedCol | src/proto/series.c:184-207 | the same by the logical height |
| Series.LedMap | src/proto/series.c:234-248 | sends the quadrant of the rotated offset and the data turned in place |
| Series.MapPaintsTheSame | src/proto/series.c:234-248 | the nine bytes show what 64 `led_set` over the logical block of the offset show, for all rotations, sizes, offsets and data |
| Series.LinePaintsTheSame | src/proto/series.c:42-157 | a line paints LED i with bit i of the zero-extended data, where the build keeps the bytes in order |
| Series.LineIsRightIff | src/proto/series.c:103-143 | and only there: on big-endian builds, two different bytes for 16 LEDs come out exchanged |
| Series.LedLevelMap | src/proto/series.c:272-288 | turns the levels, reduces them and sends the map of the result |
| Series.LevelMapTurnsTwice | src/proto/series.c:272-288 | the picture shown is the reduced one turned twice |
| Series.LevelMapIsRightIff | src/proto/series.c:278-287 | it agrees with one `led_level_set` per LED for all levels exactly at rotation 0 |
| Series.ReduceLine | src/proto/series.c:296-299 | the masks of the whole groups of eight |
| Series.LedLevelRow | src/proto/series.c:291-302 | sends the row of the masks |
| Series.LedLevelCol | src/proto/series.c:304-315 | sends the column of the masks |
| Series.LevelLinePaintsTheSame | src/proto/series.c:291-315 | a level line lights what one `led_level_set` per LED lights, and darkens the rest of the line, where the build keeps the masks in order |
| Series.LevelLineIsRightIff | src/proto/series.c:291-315 | and only there: it is right if and only if the build is little-endian, the line short, or the first two groups of eight levels reduce alike |
| Series.OnTheWire | src/proto/series.h:33-38 | unrotated, the bytes of single LEDs and of lines of 8 and 16 LEDs written out |
| Series.MapOnTheWire | src/proto/series.c:234-248 | unrotated, a map is 0x80 plus the number of its quadrant, and its eight bytes |
| Inputs.ReturnedIsRightIff | src/proto/series.c:355-357 | the comparison of a signed count with `sizeof`: a result of 1 means that a whole event message was taken, exactly unless the read stops halfway, or fails where the bytes look like an event |
| Series.Input.NextEvent | src/proto/series.c:351-390 | result, event, tilt state and bytes taken, for every message and every schedule of the port |
| Series.EventTakenIff | src/proto/series.c:355-357 | result 1 is right exactly unless the read stops halfway, fails at once, or fails halfway through an event message |
| Series.FalsePress | src/proto/series.c:355-357 | a schedule on which a failed read is a press, and one on which half a message is result 1 without an event |
| Series.PressAddressesLed | src/proto/series.c:358-367 | a press and a release carry the column in the high nybble and the row in the low one, and lighting the coordinate that is reported addresses the LED under the button |
| Forty.LedSet | src/proto/40h.c:99-111 | sends the message for the rotated LED |
| Forty.LedColRow | src/proto/40h.c:41-76 | sends the line, exchanged and reversed as the rotation says |
| Forty.LedAll | src/proto/40h.c:82-92 | sends eight full or empty rows |
| Forty.LedMap | src/proto/40h.c:123-136 | sends the eight turned bytes as logical rows; the result counts the rows whose write failed |
| Forty.LedLevelMap | src/proto/40h.c:159-175 | turns the levels, reduces them and sends the map of the result; the result counts the rows whose write failed |
| Forty.RowPaintsTheSame | src/proto/40h.c:41-76 | a row shows what eight `led_set` show, at every rotation |
| Forty.ColPaintsTheSame | src/proto/40h.c:41-76 | the same for a column |
| Forty.AllFills | src/proto/40h.c:82-92 | the eight rows fill the panel |
| Forty.MapTurnsTwice | src/proto/40h.c:123-136 | the picture shown by `led_map` is the data turned twice |
| Forty.LevelMapTurnsThrice | src/proto/40h.c:159-175 | that of `led_level_map` is turned three times |
| Forty.MapIsRightIff | src/proto/40h.c:123-136 | `led_map` agrees with 64 `led_set` for all data exactly at rotation 0 |
| Forty.LevelMapIsRightIff | src/proto/40h.c:159-175 | `led_level_map` does exactly at rotations 0 and 180 |
| Forty.OnTheWire | src/proto/40h.h:32-39 | unrotated, the bytes of single LEDs, rows and columns written out |
| Forty.Input.NextEvent | src/proto/40h.c:237-278 | result, event, tilt state and bytes taken, for every message and every schedule of the port |
| Forty.EventTakenIff | src/proto/40h.c:241-243 | result 1 is right exactly unless the read stops halfway, fails at once, or fails halfway through an event message |
| Forty.FalseRelease | src/proto/40h.c:241-243 | a schedule on which a failed read is a release, and one on which half a message is result 1 without an event |
| Forty.ButtonAddressesLed | src/proto/40h.c:246-253 | a press and a release carry the column in the high nybble and the row in the low one, and lighting the coordinate that is reported addresses the LED under the button |
| Wrapper.Device.RegisterHandler | src/libmonome.c:177-198 | sets the one slot, or fails and changes nothing |
| Wrapper.Device.Dispatch | src/libmonome.c:211-227 | the handler in the event's slot gets the event with its user data |
| Wrapper.CallbackState.HandleEvent | src/cpp/Monome.cpp:459-477 | the callback of the event's type is called, and what it throws is counted and goes no further |
| Wrapper.Monome.Open | src/cpp/Monome.cpp:134-143 | a wrapper owns the device with two empty tables |
| Wrapper.Monome.Move | src/cpp/Monome.cpp:149-152 | ownership goes over and nothing is left behind |
| Wrapper.Monome.Assign | src/cpp/Monome.cpp:154-164 | closes the old handle and frees its state once, takes over the other's; to itself, nothing happens |
| Wrapper.Monome.Close | src/cpp/Monome.cpp:445-457 | unregisters all handlers, whatever that returns, and closes once |
| Wrapper.Monome.Destroy | src/cpp/Monome.cpp:145-147 | closed and freed once, with no handler left where unregistering succeeded |
| Wrapper.Monome.On | src/cpp/Monome.cpp:415-430 | both tables change or neither, and which error is thrown when |
| Wrapper.Monome.EventHandleNext | src/cpp/Monome.cpp:392-409 | the callback of the event is called, and what it throws is counted |
| Wrapper.Monome.EventLoopTurn | src/cpp/Monome.cpp:411-413 | the same through the C side |
| Ownership.Step | src/cpp/Monome.cpp:134-457 | every operation, failing or not, keeps: one owner per handle and state, tables that agree, everything closed or freed once when its owner is gone |
| Ownership.Run | src/cpp/Monome.cpp:134-457 | so after every sequence of operations, with as many handles as opens that succeeded, as many states as opens, and the callbacks and counts that the simple table of rows predicts |
| Ownership.RunToEnd | src/cpp/Monome.cpp:145-147 | at the end of any program every one of those handles was closed exactly once and every state freed exactly once |
| Ownership.Deliver | src/cpp/Monome.cpp:392-413 | through the wrapper or the C loop, the same callback gets the event and the same count goes up |
| Ownership.RegisteredGets | public/monome.h:33-42 | after registering under a public event number, the callback is the one for the events of that number, and for the others it is as before; a number out of range changes nothing |
| Ownership.OpenFails | src/cpp/Monome.cpp:139-142 | a failed open leaves no wrapper and frees its state |
| Ownership.MovesConserve | src/cpp/Monome.cpp:149-164 | moving changes who holds callbacks and failure count, never what they are |
| Ownership.MoveThereAndBack | src/cpp/Monome.cpp:149-164 | a move and a move back leave every wrapper as it was |
| Library.Holdings.OpenProtocol | src/proto/mext.c:608-659 | whether the port just opens or the handshake runs, a protocol that fails to open closes the port as often as it opened it |
| Library.Holdings.Open | src/libmonome.c:62-124 | counts what is acquired on every path; a failure has released exactly that, and a success holds it; a device that responds is opened |
| Library.Holdings.Close | src/libmonome.c:126-137 | releases what an open handle holds, once, and closes the port once |
| Library.Holdings.OpenAndClose | src/libmonome.c:62-137 | over any series of opens, each closed if it succeeded, exactly what the tries acquired is released, and the port is closed as often as it was opened; without handshakes, the number that succeed is that of the port's schedule |
| Library.AllSucceed | src/libmonome.c:62-124 | on a port that can always be opened, exactly the tries succeed that nothing else makes fail |
| Life.WiredAdjacent | examples/life.c:89-98 | the modular wiring reaches exactly the adjacent cells of the torus |
| Life.WiredDistinct | examples/life.c:89-98 | each of them once |
| Life.AdjacentSymmetric | examples/life.c:89-98 | the wiring is symmetric |
| Life.AroundToggled | examples/life.c:64-69 | toggling a cell changes the number of live neighbours by one for its neighbours and for no other cell |
| Life.World.InitWorld | examples/life.c:75-101 | an empty world, wired, with right counts |
| Life.World.ModNeighbors | examples/life.c:64-69 | adds to the counts of exactly the adjacent cells, each once |
| Life.World.Toggle | examples/life.c:134-148 | after every in-place toggle all cached counts are the true ones, so no decrement wraps |
| Life.World.HandlePress | examples/life.c:60-62 | marks the cell pressed |
| Life.World.Apply | examples/life.c:130-150 | the in-place pass inverts exactly the marked cells, with right counts throughout, and the LEDs show the cells |
| Life.World.Mark | examples/life.c:152-171 | marks exactly the cells that Conway's rule changes |
| Life.MarkedGeneration | examples/life.c:130-171 | inverting the due and the pressed cells is: pressed cells inverted, all others by the rule on the old world |
| Life.HandleEvents | examples/life.c:126-128 | the cells pressed are marked, up to the first event without a handler; errors do not end the loop |
| Life.HandledIs | examples/life.c:126-128 | of any waiting events, the presses before the first event without a handler are marked and what follows that event is left |
| Life.PlayTurn | examples/life.c:124-173 | one turn of the main loop, from and to a world with right counts and LEDs and with what is due marked |
| Life.Play | examples/life.c:108-177 | for every sequence of arriving events and any number of turns, with right counts and LEDs throughout: two turns in three are a generation of the rule and keep all events, and in the third the cells pressed before the first unhandled event are inverted, the others follow the rule, and what comes after that event is left |
| Life.ThreeTurns | examples/life.c:124-128 | from a tick of 0: two generations, then one with the presses among all that waited or arrived in the three turns |

## Left out

- The OSC protocol (`src/proto/osc.c`) and `src/monomeserial.c`, which wrap a library that is not part of this model. Opening an OSC device is therefore not part of `Library` either.
- Terminal set-up, loading of protocol modules, device discovery, Windows and macOS platforms, and the wait's POLLERR flag apart from "an error": input and output.
- A clock that fails: `monome_platform_monotonic_milliseconds` returns 0 when the system call does.
- The endless loop of `monome_event_loop`; one turn of its dispatch is part of `Wrapper`.
- Matching of serial numbers to devices, which depends on `sscanf`.
- Ring commands, intensity, `led_all` of mext and series, `level_set` and `level_all` of series and 40h, tilt and ADC enabling, 40h level lines: one message or one forwarded call each.
- The Python and Rust bindings, the other examples, names of operations and texts of errors.
- Threads, and `on` called from inside a callback, which the header of the wrapper excludes.
- The user data pointer and the event passed to a callback are modelled by the callback's identity; what callbacks compute is not modelled.
- After a torn message, what later calls make of the rest of the stream is determined (`MextInput.Mext.NextEvent`) but not described further.
- Series.LedRow: the caller passes at least one data byte, and two if `count` exceeds 1, as in C; buffers of other lengths are not modelled.
- Series.LedLevelRow: 1 to 16 groups of eight levels, the size of the code's buffer.
- Life.Play: presses lie inside the 16x16 world, which the program does not check; the pause between turns is not modelled.
