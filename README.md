# WAYL — a Dafny model of its gaze exchange, overlay and eye-tracking core

WAYL ("Where Are You Looking") shows a stimulus image to several players. Each player's
eye tracker reports where on the screen that player looks. The players exchange these
gaze positions over the network, and every player's screen shows the image filtered
with Gaussian windows around the others' fixations. This project models the core of
that program in Dafny and proves properties of the model:

- **Peer gaze table** (`GazeStream`, `GazeExchange`, `GazeExchangeMock`):
  - the `"<id>:<x>,<y>"` wire text and its parser;
  - the table that keeps the latest position per sender;
  - the subnet subscriber's receive loop and the Pyre group task's event dispatch;
  - the lazily created identity and publisher, and the choice among the four stream classes;
  - the mock stream that injects simulated players.
- **Subnet flood example** (`ChatTest`): the 254 × 10 endpoints `listen` connects to, the
  `rsplit` of the address, and the search for the first port that binds.
- **Overlay** (`FixationLayering`):
  - the clipping of a `(2r + 1)`-square kernel window at the image border;
  - the in-place accumulation of the windows into an array of ones;
  - the person count and the values that map the filtered image back to 0..255;
  - the position-to-pixel conversion.
- **Eye tracking** (`EyeTracking`, `SurfaceMarkers`):
  - the choice of the gaze to use;
  - the topic dispatch of the update loop and the once-only plugin start;
  - the calibration handshake with its bounded retry;
  - the marker file names and the placement of the markers along the screen edges.
- **Main program** (`Wayl`): the mapping between screen and image coordinates, the
  pixel mapping, and the two interval gates of the main loop.

`Wrappers` holds `Option` and `Result`. `Text` holds the Python string operations the
core uses: `split`, `join`, `rsplit(sep, 1)`, `startswith`, `str(int)`, the two-digit `format(i, '02')` and
`os.path.join`.

How Python is rendered:

- Exceptions become `Result`/`Option` error values; `sys.exit` becomes a `Failed` outcome.
- Python floats are `real`, so the round trips hold in exact arithmetic. `int()` on a float
  truncates toward zero (`FixationLayering.Trunc`). `//` with a positive divisor is
  Dafny's `/`.
- `str(float)` and `float(str)` are a `FloatText` pair of functions given as a parameter.
  The gaze round trip assumes, through `GazeStream.RoundTripsAt`, that at each sent
  coordinate they invert each other and that the rendered float contains no `:` or `,`.
- Sockets, clocks, random numbers and user input become parameters: sequences of received
  messages or events, a `canBind` oracle, a sequence of clock ticks, and a nondeterministic
  choice for `round(rand(), 2)`.
- Objects whose fields the source updates are classes:
  - `GazeStream.RemoteGazePositionStream` stands for the abstract stream and both
    subclasses. A `transport` field says which subclass it is, and a `mocked` field says
    whether the mock overlay is on. `GazeExchangeMock.ReadStream` chooses the mock `read`
    by that field.
  - `GazeExchange.GazeExchangeState` holds the module globals of gaze_exchange.py.
  - `EyeTracking.SurfaceGazeStream`.

How `save_gaze_from_message` treats unusual messages:

- A malformed gaze message raises, and the raise ends the receive thread or the group
  task. `GazeStream.ReceiveAll` and `GazeStream.RunTask` therefore stop at the first such
  message.
- A message with three or more comma fields is only warned about: its first two fields are
  stored.

## Model

| member | source | states |
|---|---|---|
| GazeStream.ParseGazeMessage | messaging/remote_gaze_position_stream.py:43-47 | a message that does not split on `:` into exactly two pieces fails with the piece count; a single comma field fails; on success the sender has no `:` and the message starts with `sender:`, and the warning is printed exactly when there are more than two comma fields |
| GazeStream.ParseGazeFields | messaging/remote_gaze_position_stream.py:43-47 | for a colon-free sender and colon- and comma-free fields: a first field `float` rejects fails with `NotANumber` of that field, a lone numeric field fails with `MissingCoordinate`, a rejected second field fails with `NotANumber` of it, and two numeric leading fields are the gaze, warned about exactly when more fields follow |
| GazeStream.SaveGazeFields | messaging/remote_gaze_position_stream.py:43-48 | on the table: a non-numeric coordinate fails with `NotANumber`, so no entry is created or altered; with two or more fields whose first two are numeric, the sender maps to those two and the rest of the table is kept |
| GazeStream.NonNumericPayloadNotStored | messaging/remote_gaze_position_stream.py:43-48 | `peer7:notanumber` fails with `NotANumber("notanumber")` and stores nothing |
| GazeStream.SaveGaze | messaging/remote_gaze_position_stream.py:43-48 | fails exactly when the message does not parse, with the parser's error; otherwise the keys are the old keys plus the sender, the sender maps to the parsed gaze and every other entry is unchanged (last value wins) |
| GazeStream.ReceiveAll | messaging/remote_gaze_position_stream.py:86-88 | the receive loop takes every message when none raises, and otherwise stops after at least one message, at the one that raised |
| GazeStream.LastValueWins | messaging/remote_gaze_position_stream.py:82-88 | after a run without error, each sender maps to the gaze of its last well-formed message; a sender with no message keeps its earlier entry or stays absent |
| GazeStream.DispatchEvent | messaging/remote_gaze_position_stream.py:136-160 | the stop sentinel stops the group task with the table unchanged; another pipe message is saved and shouted exactly when it parses; a SHOUT payload goes through the same parser; ENTER and other node events change nothing; a raising message leaves the table unchanged and shouts nothing |
| GazeStream.RunTask | messaging/remote_gaze_position_stream.py:132-160 | the group task consumes at most the given events, all of them unless it stops or crashes, and shouts at most one message per event |
| GazeStream.GroupTableMatchesSubscriber | messaging/remote_gaze_position_stream.py:132-160 | without a stop sentinel, the group task leaves the same table as the subscriber loop on the same gaze payloads, and both fail on the same message with the same error |
| GazeStream.StopSentinelEndsTask | messaging/remote_gaze_position_stream.py:140-141 | when the events before the sentinel raise nothing, the group task stops at the sentinel, having consumed exactly up to it, with the table and shouts of the events before it; later events are ignored |
| GazeStream.RemoteGazePositionStream.constructor | messaging/remote_gaze_position_stream.py:18-22 | a fresh stream is stopped, has an empty table, no subscriber, no publisher id and no pipe |
| GazeStream.RemoteGazePositionStream.Start | messaging/remote_gaze_position_stream.py:69-105 | the stream is no longer stopped; the subscriber variant subscribes to the gaze topic and starts its subscriber; the Pyre variant opens its pipe |
| GazeStream.RemoteGazePositionStream.Stop | messaging/remote_gaze_position_stream.py:107-112 | the stream is stopped; the Pyre variant appends the stop sentinel to its pipe, or fails when it never had one |
| GazeStream.RemoteGazePositionStream.SaveGazeFromMessage | messaging/remote_gaze_position_stream.py:37-48 | the table becomes `SaveGaze`'s table on success; on failure the table is unchanged and the parse error is returned |
| GazeStream.RemoteGazePositionStream.Read | messaging/remote_gaze_position_stream.py:50-57 | fails with "not running" exactly while stopped, otherwise returns the table |
| GazeStream.RemoteGazePositionStream.ReadList | messaging/remote_gaze_position_stream.py:59-64 | fails exactly while stopped; otherwise it returns one value per key of the table, each key once, and each value is the table's entry for its key |
| GazeStream.RemoteGazePositionStream.Update | messaging/remote_gaze_position_stream.py:82-88 | a stopped stream changes nothing; otherwise the table, count and error are those of `ReceiveAll` on the received messages |
| GazeStream.RemoteGazePositionStream.GazeExchangeTask | messaging/remote_gaze_position_stream.py:114-161 | the publisher id is set; the table, shouted messages, count and ending are those of `RunTask` on the events |
| GazeExchange.GazeMessageRoundTrip | messaging/gaze_exchange.py:39-48 | a sent gaze message parses back to its sender id and gaze, without warning, when the id has no `:` and the text of each coordinate reads back as that coordinate without `:` or `,` |
| GazeExchange.ReceivedGazeIsStored | messaging/gaze_exchange.py:39-44 | the receiver's table then maps the sender id to the sent gaze, all other entries unchanged |
| GazeExchange.SentGazesReachGroupTask | messaging/gaze_exchange.py:46-50 | the gazes one player's `send_gaze` wrote into the Pyre pipe, read by the group task, are all stored under the sender, so its last gaze remains, and all shouted to the group in order, and the task waits for more |
| GazeExchange.SentGazesThenStop | messaging/gaze_exchange.py:46-50 | with the sentinel `stop` appends after them, the same gazes are stored and shouted, the task stops right at the sentinel, and nothing written after it has an effect |
| GazeExchange.SubnetPublisherId | messaging/gaze_exchange.py:43 | the subnet id consists of address characters, `_` and the port's decimal text, and has no `:` when the address has none |
| GazeExchange.SelectStreamKind | messaging/gaze_exchange.py:19-28 | the stream uses Pyre exactly when Pyre networking is configured and is mocked exactly when there are mock players |
| GazeExchange.StreamKindsDistinct | messaging/gaze_exchange.py:19-28 | two configurations choose the same stream class only when they agree on both choices |
| GazeExchange.GazeExchangeState.constructor | messaging/gaze_exchange.py:8-10 | the globals start with no publisher, no id and no stream |
| GazeExchange.GazeExchangeState.SetupGazeExchange | messaging/gaze_exchange.py:13-29 | a new, stopped stream of the selected kind with an empty table is stored in the global and returned |
| GazeExchange.GazeExchangeState.SendGaze | messaging/gaze_exchange.py:32-50 | subnet variant: the first call creates publisher and id and later calls reuse them, and the message `id:x,y` is published on the gaze topic; Pyre variant: the id is taken from the stream once, the message goes to the stream's pipe, there is no publisher, and a missing stream or pipe is an error; an id once set never changes |
| GazeExchangeMock.MockKeyInjective | mock/gaze_exchange_mock.py:15 | different mock players get different keys |
| GazeExchangeMock.ConfiguredMockGaze | mock/gaze_exchange_mock.py:9-11 | a configured position keeps x and flips y to `1 - y` |
| GazeExchangeMock.WriteMockEntries | mock/gaze_exchange_mock.py:8-15 | afterwards the keys are the old keys plus `Mock_0 .. Mock_{n-1}`; configured players hold their flipped position, the others random values rounded to hundredths in [0, 1]; every other key is unchanged |
| GazeExchangeMock.RoundedUnitInRange | mock/gaze_exchange_mock.py:12-14 | a rounded random coordinate lies in [0, 1] |
| GazeExchangeMock.MockReadAsWritten | mock/gaze_exchange_mock.py:7-16 | the entries are written as in `MockRead` (the `Mock_i` keys, the configured positions with y flipped, multiples of 0.01 in [0, 1] for further players, all other entries unchanged), and then the call to the base `read` always fails with an argument mismatch |
| GazeExchangeMock.MockRead | mock/gaze_exchange_mock.py:7-16 | the keys become the old keys plus every `Mock_i`; a configured player holds its position with y flipped, every further player holds coordinates that are multiples of 0.01 in [0, 1]; other entries are unchanged; the result fails exactly while the stream is stopped, and is otherwise the whole table |
| GazeExchangeMock.ReadStream | mock/gaze_exchange_mock.py:6-16 | a mocked stream reads through the mock `read`: it adds every `Mock_i` key with the configured positions, gives further players multiples of 0.01 in [0, 1] and leaves every other entry unchanged; an unmocked one leaves its table unchanged; both fail exactly while stopped and otherwise return the table |
| ChatTest.PortRange | messaging/chat_test.py:13 | ten ports, 9000 to 9009, in order |
| ChatTest.EndpointTextInjective | messaging/chat_test.py:30 | for one prefix, the endpoint text determines host and port |
| ChatTest.ListenCoversSubnet | messaging/chat_test.py:27-30 | 2540 connections; host `last` with port `p` is connection `(last - 1) * 10 + (p - 9000)`, host-major and port-minor |
| ChatTest.ListenEndpointsDistinct | messaging/chat_test.py:27-30 | no two connections have the same target text |
| ChatTest.ListenTargetsOnlyHosts | messaging/chat_test.py:27 | every target is on the given prefix, with host 1..254 and port 9000..9009, so `.0` and `.255` never are |
| ChatTest.Listen | messaging/chat_test.py:16-32 | the nested loops connect to exactly the listed endpoints in that order, and the empty subscription filter accepts every topic |
| ChatTest.SplitAddress | messaging/chat_test.py:52 | fails exactly for an address without `.`; otherwise prefix + `.` + host part rebuilds the address and the host part has no `.` |
| ChatTest.MainListenTargets | messaging/chat_test.py:52-56 | intended `main`: fails exactly for an address without `.`, otherwise listens on the prefix before the last `.` |
| ChatTest.ListenWithFullAddress | messaging/chat_test.py:56 | for 192.168.1.5 the code as written first connects to `tcp://192.168.1.5.1:9000`, and the intended code to `tcp://192.168.1.1:9000` |
| ChatTest.BindFirstFreePort | messaging/chat_test.py:61-73 | ports are tried in order; the bound port is the last one tried, it binds, and every earlier one failed; otherwise every port failed, all were tried and the exit code is 3 |
| FixationLayering.Trunc | fixation_layering/fixation_layering.py:164 | `int()` truncates toward zero |
| FixationLayering.ClipWindow | fixation_layering/fixation_layering.py:46-53 | the image slice is `[max(pos - r, 0), min(pos + r + 1, size))` inside the image; the kernel slice is the same range shifted by `r - pos`, inside the kernel and of the same length |
| FixationLayering.AddKernelAt | fixation_layering/fixation_layering.py:54-55 | every pixel gains exactly the kernel weight of the window around the position, and pixels outside it are unchanged |
| FixationLayering.GazeFilterForPositions | fixation_layering/fixation_layering.py:32-57 | a new `height x width` array in which every pixel is 1 plus the sum of the kernel weights of all positions whose window covers it |
| FixationLayering.OverlayOutsideWindows | fixation_layering/fixation_layering.py:43-55 | a pixel outside every window gets nothing, so the filter keeps 1 there |
| FixationLayering.OverlayAppend | fixation_layering/fixation_layering.py:45-55 | the overlay of two lists of positions is the sum of their overlays |
| FixationLayering.OverlayPermutation | fixation_layering/fixation_layering.py:45-55 | the overlay does not depend on the order of the positions |
| FixationLayering.PersonsLookingAtSamePoint | fixation_layering/fixation_layering.py:93-98 | the count is at least 1 and is `max(1, n)` up to 5 positions |
| FixationLayering.PersonsMonotone | fixation_layering/fixation_layering.py:93-98 | more positions never give a smaller count |
| FixationLayering.MappingBackToRangeValues | fixation_layering/fixation_layering.py:99-102 | `None` exactly when the kernel maximum is 0; it stands for the infinite factor and shift numpy's float division by a zero `overlay_max` gives, with a warning and no exception |
| FixationLayering.MappingBackFixesMean | fixation_layering/fixation_layering.py:99-102 | grey 128 maps to 128, and a value `128 + om * d` maps to `128 + d` |
| FixationLayering.MapPositionToNpPixel | fixation_layering/fixation_layering.py:160-164 | `None` exactly off the unit square; otherwise `(int(p[1] * shape[1]), int(p[0] * shape[0]))`, each within `0 .. size` |
| EyeTracking.OnSurface | eye_tracking/eye_tracking.py:84 | keeps exactly the gazes that are on the surface |
| EyeTracking.OnSurfaceAppend | eye_tracking/eye_tracking.py:84 | the filter keeps the order of the gazes |
| EyeTracking.FirstMaximal | eye_tracking/eye_tracking.py:85-88 | the first element after the stable descending sort: a most confident gaze, with every earlier gaze strictly less confident |
| EyeTracking.BestOnSurface | eye_tracking/eye_tracking.py:83-88 | none exactly when no gaze is on the surface; otherwise an on-surface gaze at least as confident as every other one |
| EyeTracking.ReadPosition | eye_tracking/eye_tracking.py:74-93 | `None` exactly without a datum or when every on-surface gaze is below 0.5 confidence; otherwise the coordinates of a most confident on-surface gaze, y flipped for pygame |
| EyeTracking.ReadPositionTieBreak | eye_tracking/eye_tracking.py:84-89 | among equally confident gazes the earliest is reported |
| EyeTracking.ReadPositionAsWritten | eye_tracking/eye_tracking.py:93 | the code as written agrees with `ReadPosition` on pygame coordinates, and otherwise returns a nested pair |
| EyeTracking.ReadPositionPrecedence | eye_tracking/eye_tracking.py:93 | one gaze at (0.25, 0.75): the code as written returns `((0.25, 0.75), 0.25)` where the intended result is `(0.25, 0.75)` |
| EyeTracking.DispatchTopic | eye_tracking/eye_tracking.py:57-66 | the datum changes only for a topic starting with "surfaces", and then becomes that message's datum |
| EyeTracking.UpdateWithoutSurfaceTopics | eye_tracking/eye_tracking.py:57-66 | messages on other topics leave the datum unchanged |
| EyeTracking.LastSurfaceDatumWins | eye_tracking/eye_tracking.py:53-66 | after a run of messages, the datum is the one of the last surface message |
| EyeTracking.SurfaceGazeStream.constructor | eye_tracking/eye_tracking.py:12-34 | subscribes to the error and warning logs, gaze and `surfaces.<name>`; no datum, plugin not started, not stopped |
| EyeTracking.SurfaceGazeStream.StartSurfaceTrackerPlugin | eye_tracking/eye_tracking.py:101-109 | the plugin request is sent on the first call only, and the flag is then set |
| EyeTracking.SurfaceGazeStream.Start | eye_tracking/eye_tracking.py:36-47 | plugin started (once), subscriber started, stream running |
| EyeTracking.SurfaceGazeStream.Stop | eye_tracking/eye_tracking.py:95-99 | the stream is stopped |
| EyeTracking.SurfaceGazeStream.ReadPositionOfStream | eye_tracking/eye_tracking.py:81-82 | no position before the first datum |
| EyeTracking.SurfaceGazeStream.Update | eye_tracking/eye_tracking.py:49-66 | a stopped stream keeps its datum; otherwise the datum is the result of dispatching the messages in order |
| EyeTracking.CalibrationSubject | eye_tracking/eye_tracking.py:165 | a topic starting with `notify.calibration.` is that prefix followed by the subject; a topic of at most 19 characters gives the empty subject |
| EyeTracking.SubjectOf | eye_tracking/eye_tracking.py:165-178 | each of should_start, started, failed and stopped is recognised exactly when the stripped topic spells it |
| EyeTracking.NotificationOfCalibrationTopic | eye_tracking/eye_tracking.py:164-178 | `notify.calibration.` followed by `should_start`, `started`, `failed` or `stopped` gives the notification of that subject, and followed by any other name gives none of the four |
| EyeTracking.Calibrate | eye_tracking/eye_tracking.py:128-180 | the requests sent, timeouts used, events consumed and outcome are those of the calibration state machine, with a retry reading on from the same subscriber |
| EyeTracking.CalibrationAttemptsBounded | eye_tracking/eye_tracking.py:159-163 | at most `4 - retries` start requests are sent, so at most four attempts from a first call |
| EyeTracking.ListenAttemptsBounded | eye_tracking/eye_tracking.py:151-180 | the listening loop and its retries send at most `3 - retries` further start requests |
| EyeTracking.FourStartTimeoutsFail | eye_tracking/eye_tracking.py:152-163 | four timeouts before the start: four start and four stop requests, four 5000 ms waits, then failure |
| EyeTracking.FinishedNeedsStartAndStop | eye_tracking/eye_tracking.py:167-180 | a calibration finishes only after a "started" notification followed by a "stopped" one among the events it read |
| EyeTracking.ListenFinishedNeedsStop | eye_tracking/eye_tracking.py:151-180 | the listening loop finishes only on a "stopped" notification read after the start |
| SurfaceMarkers.MarkersOrDefault | eye_tracking/surface_markers.py:18-19 | no markers given means the markers 42, 23, 11 and 7 |
| SurfaceMarkers.MarkerPaths | eye_tracking/surface_markers.py:20-21 | one path per marker; `None` exactly for a `None` marker; otherwise `os.path.join` of the marker directory with the prefix, the two-digit number and `.png`, so the path ends with that file name |
| SurfaceMarkers.MarkerFileNameInjective | eye_tracking/surface_markers.py:20 | the file name determines the marker number |
| SurfaceMarkers.MarkerFilesDistinct | eye_tracking/surface_markers.py:20-21 | different markers get different paths when the prefix is relative |
| SurfaceMarkers.EdgeCountFormula | eye_tracking/surface_markers.py:31 | edge `e` holds `total // 4` markers, plus one for the first `total % 4` edges |
| SurfaceMarkers.EdgeCountsCountMarkers | eye_tracking/surface_markers.py:31 | edge `e`'s count is the number of indices below `total` with `i % 4 == e` |
| SurfaceMarkers.EdgeCountsBalanced | eye_tracking/surface_markers.py:31 | the counts add up to `total` and differ by at most one, earlier edges taking the extra ones |
| SurfaceMarkers.MarkerFitsOnEdge | eye_tracking/surface_markers.py:44-52 | marker `i`'s index on its edge is below that edge's count, so the offset's divisor is never 0 |
| SurfaceMarkers.Corners | eye_tracking/surface_markers.py:41-46 | top-left, top-right, bottom-right, bottom-left, each a fifth of the image size from the screen edge |
| SurfaceMarkers.Step | eye_tracking/surface_markers.py:48-52 | the offset toward the next corner is `step` times the floored per-step distance `d // count`, which is at most the evenly spaced value `d * step / count` and less than `step` below it (floor), so on the two edges that run in the negative direction the marker can be up to `step` pixels beyond that point; zero along an axis where the corners agree |
| SurfaceMarkers.StepsEquallySpaced | eye_tracking/surface_markers.py:48-52 | step 0 is the corner, and consecutive steps are exactly `(next - corner) // count` apart on each axis |
| SurfaceMarkers.MarkerPosition | eye_tracking/surface_markers.py:41-52 | markers 0..3 sit on the corners; marker `i` stays on the line of edge `i % 4`, at step `i // 4` of the edge's count toward the next corner |
| SurfaceMarkers.BackgroundRect | eye_tracking/surface_markers.py:55-59 | the background starts a border before the marker and ends a border after `marker_size` on each axis |
| SurfaceMarkers.PlacedIndices | eye_tracking/surface_markers.py:32-34 | exactly the indices of the markers that are not `None`, in increasing order |
| SurfaceMarkers.Place | eye_tracking/surface_markers.py:35-59 | marker `i` is drawn from its own path at `MarkerPosition` for the loaded image's size |
| SurfaceMarkers.Layout | eye_tracking/surface_markers.py:32-61 | one placement per marker that is not `None`, in marker order, each with its own path |
| Text.Split | messaging/remote_gaze_position_stream.py:43-44 | `split` gives at least one piece, no piece contains the separator, and joining the pieces gives the string back |
| Text.SplitOfJoin | messaging/gaze_exchange.py:39 | splitting a join of separator-free pieces gives the pieces back |
| Text.RSplitOnce | messaging/chat_test.py:52 | `rsplit(sep, 1)` gives one piece exactly when `sep` does not occur, else the text before and after the last separator |
| Text.RSplitOnceAt | messaging/chat_test.py:52 | a string cut at a separator with none after it rsplits at that cut |
| Text.NatToStringInjective | mock/gaze_exchange_mock.py:15 | distinct numbers have distinct decimal texts |
| Text.FormatInt02Injective | eye_tracking/surface_markers.py:20 | the two-digit format keeps numbers apart |
| Text.PathJoin | eye_tracking/surface_markers.py:20 | `os.path.join`: an absolute name replaces the directory; otherwise the name follows the directory, with one `/` between them unless the directory is empty or already ends with `/` |
| Text.PathJoinInjective | eye_tracking/surface_markers.py:20 | joining one directory with two relative names gives the same path only for the same name |
| Wayl.Border | wayl.py:30-31 | the border is half the spare screen space, rounded down |
| Wayl.MapPositionBetweenScreenAndImage | wayl.py:27-42 | raises division by zero exactly for a zero screen size, or a zero image size towards the image |
| Wayl.ScreenImageScreen | wayl.py:36-41 | screen to image and back gives the original position when no size is zero |
| Wayl.ImageScreenImage | wayl.py:36-41 | image to screen and back gives the original position when no size is zero |
| Wayl.ImageOriginOnScreen | wayl.py:39-41 | the image origin maps to the borders relative to the screen size |
| Wayl.MapPositionToPixel | wayl.py:45-47 | `(int(x * width), int(y * height))`: each is the floor of a non-negative product, and in `0 .. width` and `0 .. height` for a position on the image |
| Wayl.MainLoop | wayl.py:58-75 | the redraw and recompute times and the escape flag are those of the gate specification, both last times starting at 0 |
| Wayl.GatesKeepIntervals | wayl.py:66-75 | redraws are at least 0.1 s apart, recomputes at least 0.5 s apart, and every recompute happens on a redraw |
| Wayl.EscapeEndsLoop | wayl.py:60-64 | nothing after the escape key changes the trace, and the loop ends escaped |

## Left out

- Threads, zmq sockets, msgpack, the Pyre node (join, start, uuid, stop) and the poller are not modelled. The loops run over given sequences of messages and events. A concurrent `stop` is not modelled; the group task's shutdown is modelled through the stop sentinel.
- Printing, the verbose flag and the timestamps in the calibration log are not modelled. The "Wrong gaze received" print is kept as a `warned` flag.
- `setup_subscriber`, `setup_publisher` and `get_own_ips` are defined outside the modelled files. `get_connected_requester`, `send_recv_notification` and `get_sub_port` are request/reply helpers in eye_tracking/eye_tracking.py that this model does not cover. The own address and the publish port are parameters; the notification replies are ignored.
- messaging/zmq_classes.py and messaging/zmq_connection.py are not part of this model.
- `str(float)` and `float(str)` are the `FloatText` parameter, not defined here.
- `calculate_gaussian_kernel`, `initialise_screen` and `filter_image_with_positions` are not modelled: they are `exp`, numpy float arithmetic and a uint8 clip. The kernel is a given odd-sized square matrix of reals.
- pygame and cv2 rendering and I/O are not modelled: image loading and scaling, blitting, drawing, the event queue and the clock. The loaded marker image's size and the main loop's clock ticks are parameters.
- The recompute body of `main_loop` (`read_list`, pixel mapping and filtering) is not part of `Wayl.MainLoop`, which records only when it runs.
- The parts of `main` in messaging/chat_test.py outside the address split and the port search are not modelled: argument parsing, interface lookup, the receive loop and the input/send loop.
- GazeStream.RemoteGazePositionStream.ReadList: does not state the order of the values. Python's dictionary insertion order is not modelled, so the values come in some order of the keys.
- FixationLayering.GazeFilterForPositions: requires each position's window to reach the image, within `r + 1` pixels of the border (`InWindowDomain`). Farther out, numpy reads negative slice bounds from the end of the axis, which this model does not follow.
- FixationLayering.AddKernelAt: requires the same `InWindowDomain` bound for its position.
- FixationLayering.ClipWindow: requires the same `InWindowDomain` bound. Farther out, the cut arithmetic still runs in the source, and numpy then either fails to broadcast the two slices or wraps negative slice bounds; the model does not follow either.
- EyeTracking.ReadPosition: the datum is reduced to its `gaze_on_srf` list, so a datum without that key, or a gaze without `on_srf`, `confidence` or `norm_pos`, is not modelled (KeyError). The sort is modelled by its first element, which is all `read_position` uses.
- EyeTracking.Calibrate: creating and starting the subscriber and the requester is not modelled. A `failed` notification without a `reason` (KeyError) is not modelled either.
- EyeTracking.SurfaceGazeStream.Update: the verbose print of other topics reads `message["msg"]`, which can raise; this is not modelled.
- Import defects are not modelled: mock/gaze_exchange_mock.py:1 imports a `RemoteGazePositionStream` that messaging/gaze_exchange.py does not define, and messaging/gaze_exchange.py:6 imports two mock classes that mock/gaze_exchange_mock.py does not define. The model assumes these classes exist, with the mock's `read` applied to both transports.

## Findings

| source | as written | input that shows it | evidently intended | confidence | as-written member | corrected member |
|---|---|---|---|---|---|---|
| messaging/chat_test.py:56 | `listen` is given the full address `addr` instead of the prefix `masked` | address `192.168.1.5`: the first connection goes to `tcp://192.168.1.5.1:9000` | `listen(masked, last_octet)`, first connection `tcp://192.168.1.1:9000` | high; not executed | ChatTest.ListenWithFullAddress | ChatTest.MainListenTargets |
| mock/gaze_exchange_mock.py:16 | `super().read(use_pygame_coordinates)` passes an argument the base `read` (messaging/remote_gaze_position_stream.py:50) does not take | any call of the mock `read` raises TypeError after writing the entries | `super().read()`, returning the table with the mock entries | high; not executed | GazeExchangeMock.MockReadAsWritten | GazeExchangeMock.MockRead |
| eye_tracking/eye_tracking.py:93 | the conditional binds tighter than the tuple comma | one gaze at (0.25, 0.75) with confidence 0.9 and `use_pygame_coordinates=False` returns `((0.25, 0.75), 0.25)` | `tuple(norm_pos)`, here `(0.25, 0.75)` | high; not executed | EyeTracking.ReadPositionPrecedence | EyeTracking.ReadPosition |
