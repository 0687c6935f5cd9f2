# Tello drone UDP scripts, modelled in Dafny

DroneLib is a set of near-duplicate Python scripts that fly DJI Tello drones
through the Tello SDK. Each command is one UDP datagram to the drone's port
8889, and the drone answers `ok`, `error` or a reading (`87`, `120cm`). The
scripts differ in how they wait for a reply, how often they retry, how they
check the battery and how they map keys to commands. This project models the
decision logic that sits on top of that one exchange, and proves what it
guarantees.

The network is replaced by a script. A socket is a `Transport.Wire`, which
holds four things:

- the datagrams that will arrive, each with its sender and arrival time;
- an abstract clock in milliseconds;
- the log of every command sent;
- whether the socket is open.

`Transport.Link` is the same state as a class, and the scripts' imperative
code runs as methods on it. Every method is proved equal to a function on the
`Wire`. The lemmas are stated about those functions.

The modules follow the programs:

- `Text`: Python's `str.strip()`, `int()` and `str(n)`.
- `Transport`: the three `send_command` variants (`Receiver`) and `emergency_land`.
  - `Matching` filters replies by source against a fixed deadline.
  - `AnySource` takes the first datagram from anyone before a timeout.
  - `Blocking` waits on a socket without a timeout.
- `Reliable`:
  - `send_with_retry`;
  - the attempt loop of KeyboardControl.py's `send_command`;
  - `execute_flight_path`.
- `Readings`:
  - `get_height` and the battery checks (single query, three queries, and RoiNew2.py's check that retries only `ValueError`);
  - the 60 % flip gate.
- `Levelling`: the lowest-height target and the correction command. It also has the `heights` board as a class.
- `Keys` and `KeyLoop`: the `while True:` keyboard loops. Each cycle sees the set of keys held down in one snapshot.
  - An `if/elif` chain takes the first pressed branch.
  - Independent `if`s take every pressed branch in order.
  - Ctrl+C arrives between polls.
- `Sessions` and `HeightSync`: one drone's guarded `control_drone`, in two parts.
  - The launch goes SDK, then battery, then takeoff with 5 tries 2 s apart, then the climb.
  - The height levelling and the key loop follow.
- `ScenarioSync`, `SharedSocket`, `HandControl` and `KeyboardControl`: each script's constants. Each also has the properties of that script's own loop.
- `Chains`, `RoiNew2`, `RoiNew`, `ConnectToWifi`, `MyLibTello` and `LedTest`: the straight-line flight scripts.
  - Their nested `if send_with_retry(...)` chains.
  - Their `except` and `finally` compensations.
- `Discovery`: the result-collection loop of `find_connected_drones`. The answers of the pings come in as a sequence of booleans.
- `Stream`: `receive_all` over a TCP stream, given as the segments its `recv` calls see.

A few behaviours of the code are easy to miss.

- **No source filter on shared sockets.** The scripts that share one socket accept another drone's reply as their own (`Transport.SharedSocketCrossTalk`).
- **`None` escapes the battery checks.** The checks of RoiNew.py, RoiNew2.py and ConnectToWifi.py catch only `ValueError`. `int(None)` raises `TypeError`, so a failed receive (`send_command` returns `None`) escapes to the caller's `except` (`Readings.BatteryStrict`).
  - In RoiNew2.py that `except` calls the check once more. A second failed receive leaves the script altogether (`Escaped`).
  - These sockets have no timeout, so `None` comes only from a receive that raises: bytes that are not UTF-8, or a socket error. Such a failure spoils only its own exchange, so the `except` can still read the battery and handle the exception (`RoiNew2.RecoversFromFailedReceive`, `RoiNew.RecoversFromFailedReceive`).
- **`num_drones` of zero or less.** `find_connected_drones` tests the count only after looking at host 2. So it returns `subnet.2` when that host answered, and nothing otherwise (`Discovery.NonPositiveCount`).
- **HandControl2.py never lands on Ctrl+C.** It does not catch Ctrl+C, so the drone is left flying (`HandControl.CtrlCLeavesDroneFlying`). With several drones, each loop runs in a worker thread that never sees the interrupt (`HandControl.WorkersIgnoreCtrlC`).
- **The other scripts' `except KeyboardInterrupt` handlers are never reached.** Python delivers Ctrl+C only to the main thread, and the loops run elsewhere.
  - In daemon threads the loop dies with the main thread and sends no `land` (`HeightSync.CtrlCLeavesDroneFlying`, `ScenarioSync.CtrlCLeavesDroneFlying`). This is the POSIX behaviour, where the main thread's `join` can be interrupted.
  - Where `join` cannot be interrupted, as on Windows, the main thread goes on waiting and the daemon loops go on polling. No `land` is sent either way (`HeightSync.CtrlCDuringUninterruptibleJoin`, `ScenarioSync.CtrlCDuringUninterruptibleJoin`).
  - In non-daemon threads the loop goes on as if nothing was pressed (`SharedSocket.CtrlCIgnored`).
  - Under `asyncio.run`, KeyboardControl.py's task is cancelled instead, and `CancelledError` is not a `KeyboardInterrupt` (`KeyboardControl.CtrlCCancels`).
  - The `Caught` variants, in which the handler does run, model what the handlers were written for. Each has its landing proved; see "## Findings".

## Model

The table leaves out proof-only helpers, such as the shift lemmas, which model nothing of their own.

| member | source | states |
|---|---|---|
| Text.Strip | tello_multi_height_sync.py:50 | `str.strip()` never lengthens a text, and neither end of its result is whitespace |
| Text.IsSpace | tello_multi_height_sync.py:50 | the space, tab, newline and carriage return are whitespace to `strip()`; digits, ASCII letters and the signs are not |
| Text.ParseInt | tello_multi_height_sync.py:83 | `int()` gives a value if and only if the stripped text is a decimal |
| Text.EndsWith | tello_multi_height_sync.py:72 | `endswith(suffix)` holds if and only if the text is some text followed by `suffix` |
| Text.IntToString | SearchIPAsync.py:39 | `str(i)` is non-empty digits, led by `-` if and only if `i` is negative |
| Text.TrimStartShape | tello_multi_height_sync.py:50 | stripping the front removes exactly a run of whitespace and leaves a suffix that is empty or starts with a non-space |
| Text.TrimEndShape | tello_multi_height_sync.py:50 | stripping the back removes exactly a run of whitespace and leaves a prefix that is empty or ends with a non-space |
| Text.StripIdentity | tello_multi_height_sync.py:50 | a text with no whitespace at either end is its own strip |
| Text.StripOfPadded | tello_multi_height_sync.py:50 | trailing whitespace does not change what strip returns |
| Text.AllSpaceStripsToEmpty | tello_multi_height_sync.py:50 | an all-whitespace text strips to the empty string |
| Text.TrimEndOfPadded | tello_multi_height_sync.py:50 | trailing whitespace does not change the back-stripped text |
| Text.DigitChar | SearchIPAsync.py:39 | a digit below 10 becomes the ASCII digit of that value |
| Text.NatToString | SearchIPAsync.py:39 | `str(n)` of a natural number is a non-empty run of digits with no leading zero |
| Text.NatToStringValue | SearchIPAsync.py:39 | the digits of `str(n)` denote `n` |
| Text.ParseIntRoundTrip | tello_multi_height_sync.py:83 | `int(str(i)) == i` for every integer, negative ones included |
| Text.ParseIntOfPadded | tello_multi_height_sync.py:83 | `int()` ignores trailing whitespace, such as the drone's `\r\n` |
| Transport.Sleep | tello_multi_height_sync.py:64 | a sleep moves the clock by the delay and changes nothing else |
| Transport.Take | RoiNew2.py:14-22 | `recvfrom` and `decode` take exactly the first datagram: there is a reply if and only if its receive does not fail (the `except Exception` returns `None`), the raw text when not stripped, the log and the open flag are unchanged, and the clock never goes back and stands at the later of now and the arrival time |
| Transport.AwaitPeer | tello_multi_height_sync.py:43-51 | the receive loop sends nothing and never moves the clock past the deadline fixed before it; when it gives up, the clock is exactly at the deadline |
| Transport.Exchange | tello_multi_height_sync.py:38-51 | one call logs exactly its one command and keeps the socket state; with the source filter it returns within the timeout |
| Transport.EmergencyLanding | RoiNew2.py:8-11 | `emergency_land` appends exactly one `land`, reads no reply and takes no time |
| Transport.Window | tello_multi_height_sync.py:43-47 | the datagrams that arrive before the deadline are exactly the longest such prefix of the inbox |
| Transport.AwaitPeerFinds | tello_multi_height_sync.py:49-50 | if the drone's first datagram arrives before the deadline, its stripped payload is the reply; the other hosts' datagrams before it are consumed and dropped, and the clock is still before the deadline |
| Transport.AwaitPeerTimesOut | tello_multi_height_sync.py:43-48 | if no datagram from the drone arrives before the deadline, the reply is `None`, the clock stands at the deadline, and only the datagrams before the deadline are consumed |
| Transport.SpoofedFloodIgnored | tello_multi_height_sync2.py:15-26 | a flood of datagrams from other hosts never produces a reply, and the wait does not outlast the timeout |
| Transport.SharedSocketCrossTalk | HandControl2_WithRetry_Rename_3.py:39-52 | the shared socket returns the first datagram from any host, stripped or raw, even when it is another drone's reply; a failed receive gives `None` |
| Transport.Link.constructor | RoiNew.py:67-68 | a new socket is open, its log is empty, and it is bound to the drone's address |
| Transport.Link.SendCommand | tello_multi_height_sync.py:38-51 | the reply and the new socket state are exactly those of `Exchange` |
| Transport.Link.Pause | tello_multi_height_sync.py:64 | `time.sleep`: the new state is `Sleep` of the old |
| Transport.Link.EmergencyLand | MyLibTello.py:14-16 | the new state is `EmergencyLanding` of the old |
| Transport.Link.Close | ConnectToWifi.py:79-80 | `socket.close()` clears only the open flag |
| Reliable.Repeat | tello_multi_height_sync.py:56 | `n` copies of a command, and nothing else |
| Reliable.Retry | tello_multi_height_sync.py:54-67 | `send_with_retry` sends only its own command, between 0 and `retries` times; success needs at least one send; failure means exactly `max(retries, 0)` sends; the socket stays open |
| Reliable.AttemptShift | tello_multi_height_sync.py:56-64 | attempt `j+1` from one state is attempt `j` from the state after the first failed try and its sleep |
| Reliable.BeforeAttemptSent | tello_multi_height_sync.py:56-64 | before attempt `k`, exactly `k` copies of the command have been sent |
| Reliable.RetryStep | tello_multi_height_sync.py:56-64 | one iteration: a reply of exactly `ok` returns True at once; any other reply sleeps `delay` and goes on with one attempt fewer |
| Reliable.RetrySucceedsIff | tello_multi_height_sync.py:56-67 | True if and only if one of the first `retries` replies is exactly `ok` |
| Reliable.RetryFirstOk | tello_multi_height_sync.py:56-61 | with the first `ok` at attempt `k`, the result is True and the state is the one right after that exchange, with no sleep after the success |
| Reliable.RetryStopsAtFirstOk | tello_multi_height_sync.py:56-61 | the number of sends is the position of the first `ok` plus one |
| Reliable.RetryExhausts | tello_multi_height_sync.py:62-67 | with no `ok`, the result is False after every attempt and every sleep |
| Reliable.SilentExchange | tello_multi_height_sync.py:43-48 | with a silent drone, one exchange yields `None` after the full timeout |
| Reliable.SilentDroneExhaustsRetries | tello_multi_height_sync.py:54-67 | a silent drone gets exactly `retries` sends and costs `retries × (timeout + delay)` ms before False |
| Reliable.SendWithRetry | tello_multi_height_sync.py:54-67 | the loop on a link returns and leaves exactly what `Retry` states |
| Reliable.Attempts | KeyboardControl.py:12-31 | at most `retries` sends of the command and nothing else; `unactive` is never returned |
| Reliable.UnactiveShortCircuits | KeyboardControl.py:23-25 | an `unactive` reply returns `None` after exactly one send |
| Reliable.AttemptsStep | KeyboardControl.py:16-30 | one attempt: no reply goes on to the next attempt; `unactive` gives `None`; any other reply is returned |
| Reliable.AttemptsFirstReply | KeyboardControl.py:26 | the first attempt that hears anything decides the result |
| Reliable.AttemptsAllSilent | KeyboardControl.py:27-31 | if every attempt times out, the result is `None` after exactly `retries` sends |
| Reliable.SendAttempts | KeyboardControl.py:12-31 | the attempt loop on a link returns and leaves exactly what `Attempts` states |
| Reliable.FlightPath | RoiNew2.py:60-67 | `execute_flight_path` keeps the socket open; what it sends is given by `FlightPathSent` |
| Reliable.FlightCounts | RoiNew2.py:60-67 | one send count per movement |
| Reliable.FlightCountsBounded | RoiNew2.py:60-67 | with `retries > 0`, each movement is sent at least once and at most `retries` times |
| Reliable.FlightPathSent | RoiNew2.py:60-67 | the log grows by each movement in order, repeated its count, so a failure never skips a later movement |
| Reliable.FlightPathAttemptsAll | RoiNew.py:47-53 | both facts together: every movement in order, each sent between 1 and `retries` times |
| Reliable.ExecuteFlightPath | ConnectToWifi.py:46-52 | the loop on a link leaves exactly `FlightPath` |
| Readings.HeightOf | tello_multi_height_sync.py:70-77 | `get_height` returns a height only for a reply ending in `cm` whose prefix parses, and then it is that integer |
| Readings.HeightReadsBack | tello_multi_height_sync.py:72-74 | `"<n>cm"` reads back as `n` |
| Readings.HeightRejects | tello_multi_height_sync.py:72-77 | a missing reply, one without `cm`, or one with a non-integer prefix gives `None` |
| Readings.LevelOf | tello_multi_height_sync.py:83 | a level exists if and only if a reply came and parses as an integer |
| Readings.BatteryOk | tello_multi_height_sync.py:80-90 | the single-query check passes if and only if the reply parses as an integer of at least 40 |
| Readings.BatteryBoundary | tello_multi_height_sync.py:86 | for every integer `n`, with any trailing whitespace, the check passes if and only if `n >= 40`, so `40` passes and `39` fails |
| Readings.BatteryStrict | RoiNew.py:32-44 | the `ValueError`-only check raises if and only if no reply came, and passes if and only if `BatteryOk` |
| Readings.QueryUntil | HandControl2_WithRetry_Rename_2.py:62-75 | the repeated query sends only its command, at least once when `tries > 0` and at most `tries` times |
| Readings.QueryDecidedAt | HandControl2_WithRetry_Rename_2.py:64-70 | the first reply that decides gives the verdict, right after its exchange |
| Readings.QueryUndecided | HandControl2_WithRetry_Rename_2.py:71-75 | if no reply decides, the verdict is a refusal after `tries` queries and their sleeps |
| Readings.QueryStep | HandControl2_WithRetry_Rename_2.py:64-73 | one attempt with attempts left: a deciding reply gives its verdict right after the exchange; any other reply is followed by the sleep and the remaining attempts |
| Readings.QueryOnce | HandControl2_WithRetry_Rename_2.py:64-73 | one pass of the loop on a link: it returns the verdict, or leaves the link in the state the remaining attempts start from |
| Readings.QueryOn | HandControl2_WithRetry_Rename_2.py:62-75 | the loop on a link returns and leaves exactly `QueryUntil` |
| Readings.RetriedVerdict | HandControl2_WithRetry_Rename_2.py:66-73 | a reply decides if and only if it is an integer, and then it passes if and only if `BatteryOk`; it never raises |
| Readings.BatteryRetriedFirstReading | HandControl2_WithRetry_Rename_2.py:64-70 | the first integer reply decides against 40 and is not retried even when it is low |
| Readings.BatteryRetriedUnreadable | HandControl2_WithRetry_Rename_2.py:71-75 | if every reply is unreadable, the check fails after exactly `tries` queries |
| Readings.BatteryRetried | HandControl2_WithRetry_Rename_2.py:62-75 | the three-query check sends only `battery?`, at most `tries` times, and passes only after at least one |
| Readings.CheckBatteryRetried | HandControl2_WithRetry.py:48-65 | the three-query check on a link returns and leaves exactly `BatteryRetried` |
| Readings.PersistentVerdict | RoiNew2.py:40-54 | only a reply that is not an integer is retried; a missing reply raises and an integer decides, exactly as in `BatteryStrict` |
| Readings.BatteryPersistentDecidedAt | RoiNew2.py:39-57 | the first reply that is missing or an integer decides RoiNew2.py's check, right after its exchange |
| Readings.BatteryPersistent | RoiNew2.py:39-57 | RoiNew2.py's check sends only `battery?`, at most `tries` times; with tries left, a refusal comes only after a query |
| Readings.CheckBatteryPersistent | RoiNew2.py:39-57 | the check on a link returns and leaves exactly `BatteryPersistent` |
| Readings.FlipLevel | HandControl2_WithRetry_Rename_3.py:164 | `int(reply or 0)`: a missing or empty reply counts as 0, any other reply is parsed |
| Readings.FlipGate | HandControl2_WithRetry_Rename_3.py:163-169 | the flip is allowed only for an integer reply of at least 60, and the gate raises if and only if the reading does not parse |
| Readings.FlipBoundary | tello_multi_height_sync.py:159-165 | an integer reading allows the flip if and only if it is at least 60; no reply refuses it |
| Levelling.MinHeight | tello_multi_height_sync.py:125 | `min(heights.values())`: a recorded height no greater than any other |
| Levelling.Target | tello_multi_height_sync.py:124-125 | the minimum of the recorded heights; with none recorded, the drone's own height, or 0 without one |
| Levelling.Correction | tello_multi_height_sync.py:127-131 | a command is due if and only if the difference exceeds 10 cm; a difference of exactly 10 sends nothing |
| Levelling.CorrectionReachesTarget | tello_multi_height_sync.py:128-131 | carrying out the correction puts the drone exactly at the target, so both the direction and the amount come from the difference |
| Levelling.NeverUp | tello_multi_height_sync.py:116-131 | once a drone's own height is recorded, the target is at or below it, and the correction is never `up` |
| Levelling.ThreeDroneExample | tello_multi_height_sync.py:124-131 | an example: heights 120/95/110 give a target of 95, so the drones send `down 25`, nothing and `down 15` |
| Levelling.HeightBoard.constructor | tello_multi_height_sync.py:32 | the shared `heights` dict starts empty |
| Levelling.HeightBoard.Record | tello_multi_height_sync.py:116-118 | the board gets the drone's height only when it was measured, and is otherwise unchanged |
| Levelling.HeightBoard.TargetFor | tello_multi_height_sync.py:125 | read off the board, the target is the least recorded height, or with none the drone's own height or 0 |
| Keys.FirstPressed | tello_multi_height_sync.py:141-170 | an `if/elif` chain takes the first branch whose key is pressed, after no earlier pressed branch, and takes none if and only if no key of the chain is pressed |
| Keys.LaterKeysIgnored | tello_multi_height_sync.py:141-170 | holding keys of later branches too does not change the branch taken |
| Keys.FirstPressedAfter | tello_multi_height_sync.py:141-170 | unpressed leading branches only shift the index of the branch taken |
| KeyLoop.Deliver | tello_multi_height_sync.py:142 | an ordinary command is sent only as itself, at most as often as the delivery mode allows and at least once where the mode always sends |
| KeyLoop.DeliverAll | tello_multi_height_sync2.py:101-108 | a list of commands on the delivery path keeps the socket open |
| KeyLoop.Perform | tello_multi_height_sync.py:141-170 | a branch ends the loop as landed if and only if it is the land branch, and crashes only in the gated flip |
| KeyLoop.PerformPressed | HandControl2.py:57-100 | independent `if`s only go on, land or crash |
| KeyLoop.Cycle | tello_multi_height_sync.py:140-171 | one pass of the loop only goes on, land or crash |
| KeyLoop.FlyIgnoresAfterEnd | tello_multi_height_sync.py:166-170 | once the loop has ended, later polls change nothing |
| KeyLoop.FlyResumes | tello_multi_height_sync.py:140 | a loop still running continues from its state over the following polls |
| KeyLoop.Fly | tello_multi_height_sync.py:139-175 | the loop only adds commands to what was sent before it, and never closes the socket |
| KeyLoop.CtrlCLands | tello_multi_height_sync.py:172-175 | when the handler runs, Ctrl+C in a running loop ends it as interrupted. Only `land` is added, at least once and at most as often as the delivery mode sends, so it is the last command |
| KeyLoop.CtrlCLandsLast | tello_multi_height_sync.py:172-175 | when the handler runs, a running loop that gets Ctrl+C ends as interrupted with `land` as the last command |
| KeyLoop.CtrlCEndsSilently | tello_multi_height_sync.py:190-195 | when the loop dies with the main thread, Ctrl+C ends it as interrupted with nothing more sent |
| KeyLoop.CtrlCUnseen | HandControl2_WithRetry_Rename_2.py:190-194 | a loop in a non-daemon thread behaves as if Ctrl+C had not been pressed, wherever it arrives |
| KeyLoop.FlyNeverInterrupted | HandControl2_WithRetry_Rename_2.py:190-194 | a loop in a non-daemon thread never ends as interrupted |
| KeyLoop.FirstMatchIgnoresLaterKeys | tello_multi_height_sync.py:141-170 | with an `if/elif` chain, a cycle does the same whatever later keys are held |
| KeyLoop.LandKeyEndsLoop | tello_multi_height_sync.py:166-170 | when the first pressed branch is `land`, the loop ends landed with `land` as the last command, whatever polls follow |
| KeyLoop.PressedInOrder | HandControl2.py:57-100 | with independent `if`s, a cycle sends exactly the command of every pressed branch, in the chain's order |
| KeyLoop.PressedStopsIffLand | HandControl2.py:94-100 | with independent `if`s, a cycle stops if and only if a land branch is pressed, and then it has landed |
| KeyLoop.EveryPressedStopsIffLandKey | KeyboardControl.py:65-91 | with the land branch last, a cycle stops if and only if its key is pressed |
| KeyLoop.DeliverCounts | KeyboardControl.py:54-61 | one send count per command |
| KeyLoop.DeliverAllSent | KeyboardControl.py:54-61 | a list of commands is sent in order, each repeated its count |
| KeyLoop.DeliverCountsBounded | KeyboardControl.py:54-61 | each count is at most what the delivery mode allows, and at least 1 where the mode always sends |
| KeyLoop.ScenarioCycle | tello_multi_height_sync2.py:99-110 | the scenario key does not end the loop and sends what `execute_flight_path` would send for its commands |
| KeyLoop.FlyNeverCrashes | HandControl2_WithRetry.py:92-121 | a loop without the gated flip never crashes |
| KeyLoop.ScenarioIsFlightPath | tello_multi_height_sync2.py:101-108 | commands retried one by one are exactly a flight path |
| KeyLoop.DeliverOn | tello_multi_height_sync.py:142 | on a link, the new state is `Deliver` of the old |
| KeyLoop.DeliverAllOn | tello_multi_height_sync2.py:101-108 | on a link, the new state is `DeliverAll` of the old |
| KeyLoop.PerformOn | tello_multi_height_sync.py:141-170 | on a link, the end and the new state are those of `Perform` |
| KeyLoop.CycleOn | tello_multi_height_sync.py:140-171 | on a link, the end and the new state are those of `Cycle` |
| KeyLoop.FlyByKeys | tello_multi_height_sync.py:139-175 | on a link, the `while True` loop with its `except KeyboardInterrupt` ends as `Fly` states |
| Sessions.BatteryGate | tello_multi_height_sync.py:106-107 | the battery gate sends `battery?` only |
| Sessions.ChecksBeforeTakeoff | tello_multi_height_sync.py:102-107 | a launch that stops at the SDK step or the battery step has sent only `command` and `battery?` |
| Sessions.TakeoffNeedsChecks | tello_multi_height_sync.py:102-112 | a launch that sent `takeoff` had an `ok` from the SDK and passed the battery gate |
| Sessions.SilentDroneStaysGrounded | tello_multi_height_sync.py:102-103 | a silent drone is never launched: only its `command` retries are sent, one timeout and one delay each |
| Sessions.FailedTakeoffStopsVideo | HandControl2_WithRetry_Rename_2.py:125-129 | with video on, a failed takeoff ends with `streamoff` |
| Sessions.Takeoff | tello_multi_height_sync.py:109-112 | the takeoff step only adds to the log and keeps the socket open; it stays on the ground only as a failed takeoff, and it is airborne only after sending `takeoff` |
| Sessions.Launch | tello_multi_height_sync.py:99-112 | the launch only adds to the log and keeps the socket open; with retries it sends `command` first; an airborne drone was sent `takeoff` |
| Sessions.Session | HandControl2_WithRetry_Rename_2.py:104-170 | the session only adds to the log and keeps the socket open; a drone that reached the key loop was sent `takeoff` |
| Sessions.LaunchOn | tello_multi_height_sync.py:102-112 | the launch on a link ends at the stage and in the state `Launch` states |
| Sessions.RunSession | HandControl2_WithRetry_Rename_2.py:104-170 | `control_drone` on a link returns `Session` |
| HeightSync.LandKeyLands | tello_multi_height_sync.py:166-170 | in both height-sync loops, `l` lands with `land` as the last command |
| HeightSync.UnmeasuredDroneSkipsLevelling | tello_multi_height_sync.py:115-131 | a drone without a height leaves the board alone and sends nothing after `height?` |
| HeightSync.LowestDroneStaysPut | tello_multi_height_sync.py:124-131 | the lowest drone records its height and sends nothing after `height?` |
| HeightSync.LevellingOnlyDescends | HandControl2_WithRetry_Rename_3.py:117-138 | a measured drone records its height, then sends only `down` commands that would put it exactly at the lowest recorded height |
| HeightSync.Level | tello_multi_height_sync.py:114-131 | levelling sends `height?` first and keeps the socket open; the board gains at most this drone's entry, keeps the other drones' entries, and holds this drone if and only if it was there before or its height was read |
| HeightSync.SyncSession | tello_multi_height_sync.py:94-175 | the session only adds to the log and keeps the socket open; a drone that reached the key loop was sent `takeoff` |
| HeightSync.SyncBoard | tello_multi_height_sync.py:114-118 | the board gains at most this drone's entry and keeps the other drones' entries; a drone that never got airborne leaves it as it was |
| HeightSync.LandOnlyL | tello_multi_height_sync.py:166-170 | a chain of the movements, then branches with no other `l`, ending on land: `l` alone lands the drone, with `land` last |
| HeightSync.CtrlCLeavesDroneFlying | tello_multi_height_sync.py:190-195 | as written: Ctrl+C ends either height-sync loop as interrupted with nothing more sent, so the drone is left in the air |
| HeightSync.CtrlCDuringUninterruptibleJoin | tello_multi_height_sync.py:190-195 | where the main thread's `join` cannot be interrupted, a Ctrl+C changes nothing in either height-sync loop's run: no `land` is sent |
| HeightSync.RelayedCtrlCLands | tello_multi_height_sync.py:172-175 | as intended: with the handler run, Ctrl+C ends either loop with `land` as the last command |
| HeightSync.LevelOn | tello_multi_height_sync.py:115-131 | levelling on a link and the board gives exactly `Level` |
| HeightSync.RunSync | HandControl2_WithRetry_Rename_3.py:98-179 | the whole session on a link and the board gives `SyncSession`, and the board ends as `SyncBoard` |
| ScenarioSync.PicksScenario | tello_multi_height_sync2.py:78-99 | `p` alone selects the scenario branch |
| ScenarioSync.ScenarioFliesEveryLeg | tello_multi_height_sync2.py:99-110 | the scenario keeps the loop going, and its log is the flight path of the six legs in order with up to five tries each |
| ScenarioSync.CtrlCLeavesDroneFlying | tello_multi_height_sync2.py:139-147 | as written: the loop runs in a daemon thread, so Ctrl+C ends it as interrupted with nothing more sent |
| ScenarioSync.CtrlCDuringUninterruptibleJoin | tello_multi_height_sync2.py:139-147 | where the main thread's `join` cannot be interrupted, a Ctrl+C changes nothing in the loop's run: no `land` is sent |
| ScenarioSync.RelayedCtrlCLands | tello_multi_height_sync2.py:124-127 | as intended: with the handler run, Ctrl+C adds only `land`, one to five times |
| ScenarioSync.NeverCrashes | tello_multi_height_sync2.py:75-127 | this loop never crashes |
| SharedSocket.VideoAlwaysStopped | HandControl2_WithRetry_Rename_2.py:125-170 | once the stream is on, `streamoff` is the last command after a failed takeoff and after a key loop that ended |
| SharedSocket.EndsOnlyByL | HandControl2_WithRetry_Rename_2.py:137-161 | the shared-socket loop neither crashes nor ends as interrupted: it ends only by `l` |
| SharedSocket.CtrlCIgnored | HandControl2_WithRetry_Rename_2.py:190-194 | as written: each loop runs in a non-daemon thread, so Ctrl+C changes nothing it does |
| SharedSocket.RelayedCtrlCLands | HandControl2_WithRetry_Rename_2.py:162-165 | as intended: with the handler run, Ctrl+C adds only `land`, one to three times |
| HandControl.Startup | HandControl2.py:42-53 | startup sends `command`, `takeoff`, `up 50` whatever the replies, and waits at least 5 s |
| HandControl.TakeoffUnconditional | HandControl2.py:42-50 | what startup sends does not depend on any reply, and `takeoff` is always its second command |
| HandControl.CycleSendsEveryPressed | HandControl2.py:57-100 | a cycle sends every pressed key's command, in the order w, s, a, d, up, down, q, e, space, l |
| HandControl.StopsIffL | HandControl2.py:94-100 | a cycle stops if and only if `l` is held, and then it has landed |
| HandControl.Session | HandControl2.py:37-104 | `command`, `takeoff` and `up 50` come first, whatever the loop does |
| HandControl.CtrlCLeavesDroneFlying | HandControl2.py:57-103 | in the main thread, Ctrl+C ends the loop without sending anything |
| HandControl.WorkersIgnoreCtrlC | HandControl2.py:131-138 | in a worker thread, Ctrl+C changes nothing the loop does |
| HandControl.ControlDrone | HandControl2.py:37-104 | `control_drone` on a link returns `Session` |
| KeyboardControl.StartupSendsAll | KeyboardControl.py:52-61 | startup sends `command`, `battery?`, `takeoff` in order, each once or twice |
| KeyboardControl.StopsIffDown | KeyboardControl.py:82-85 | a cycle stops if and only if the down arrow is held, and then it has landed |
| KeyboardControl.Session | KeyboardControl.py:47-91 | `command` is the first command, and the loop only adds to what the startup sent |
| KeyboardControl.CtrlCCancels | KeyboardControl.py:86-104 | as written: under `asyncio.run`, Ctrl+C cancels the task, so the loop ends as interrupted with nothing more sent |
| KeyboardControl.HandledCtrlCLands | KeyboardControl.py:88-91 | as intended: with the handler run, Ctrl+C adds only `land`, once or twice |
| KeyboardControl.ControlDrone | KeyboardControl.py:47-91 | `control_drone` on a link returns `Session` |
| Chains.Unchecked | MyLibTello.py:43-46 | `send_command`s whose replies are ignored send exactly their commands |
| Chains.Truthy | RoiNew2.py:74 | `if send_command(...)` passes only on a reply, passes on `ok` and also on `error`, and fails on an empty reply |
| Chains.SendsOnlyThen | RoiNew2.py:74-85 | two stretches that send only from `a` and then only from `b` send only from `a + b` |
| Chains.RepeatSendsOnly | RoiNew2.py:78 | a stretch of one repeated command sends only that command |
| Chains.Chain | RoiNew2.py:78-80 | the nested chain sends only the steps up to the one that failed |
| Chains.ChainSentSplit | RoiNew2.py:78-80 | what the first step sends, followed by what the rest sends, comes from the steps up to the failed one |
| Chains.ChainStopsAtFailure | RoiNew2.py:78-80 | a chain that stops early ends with all its retries of the failed step |
| Chains.ChainOn | RoiNew2.py:78-80 | the chain on a link returns and leaves exactly `Chain` |
| Chains.UncheckedOn | MyLibTello.py:43-46 | on a link, the new state is `Unchecked` of the old |
| RoiNew2.Handler | RoiNew2.py:101-104 | the `except` sends only `battery?`, one to three times, and is either handled or escapes |
| RoiNew2.Finish | RoiNew2.py:82-83 | after the whole chain, `land` is sent first |
| RoiNew2.ShortChainSendsSteps | RoiNew2.py:78-80 | a chain that stops early sends only `command`, `battery?`, `takeoff`, `flip f` and `back 30`, never `land` |
| RoiNew2.EarlyEndSendsOnlyChecks | RoiNew2.py:74-104 | a drone that did not complete the chain is sent only `command`, `battery?`, `takeoff`, `flip f` and `back 30`, so never `land` |
| RoiNew2.LandOnlyAfterWholeChain | RoiNew2.py:78-82 | `land` is sent only after `takeoff`, `flip f` and `back 30` all succeeded |
| RoiNew2.RecoversFromFailedReceive | RoiNew2.py:74-104 | after a failed receive of the first battery reading, the `except` reads the battery again and, given an integer, the run ends handled |
| RoiNew2.SdkTakesAnyReply | RoiNew2.py:74 | any non-empty reply to `command` enables SDK mode, and `battery?` follows |
| RoiNew2.DroneControl | RoiNew2.py:70-104 | `command` is the first command sent |
| RoiNew2.DroneControlOn | RoiNew2.py:70-104 | `drone_control` on a link returns and leaves exactly `DroneControl` |
| RoiNew.Check | RoiNew.py:32-44 | the check sends exactly one `battery?` |
| RoiNew.Fresh | RoiNew.py:67-68 | each drone's socket starts open, with nothing sent, over that drone's replies |
| RoiNew.Handler | RoiNew.py:88-90 | the `except` sends exactly one `battery?`, and is either handled or escapes |
| RoiNew.Finish | RoiNew.py:77 | the closing battery reading keeps the socket open |
| RoiNew.Flight | RoiNew.py:74-83 | the chain after the battery check keeps the socket open |
| RoiNew.Turn | RoiNew.py:70-90 | the `try` with its `except` keeps the socket open |
| RoiNew.Visit | RoiNew.py:64-94 | a turn closes its socket unless an exception escaped it, and sends what its `try` sent |
| RoiNew.FinishSendsOnly | RoiNew.py:77 | the closing reading sends only `battery?` |
| RoiNew.FlightSendsOnly | RoiNew.py:74-83 | the chain sends only the turn's commands |
| RoiNew.TurnSendsOnly | RoiNew.py:70-90 | a turn sends only `command`, `battery?`, `takeoff`, `flip f` and `up 30` |
| RoiNew.RecoversFromFailedReceive | RoiNew.py:70-94 | after a failed receive of the battery reading, the `except` is handled on any reply and the socket is closed, so the tour goes on |
| RoiNew.NeverLands | RoiNew.py:71-77 | no turn ever sends `land` |
| RoiNew.Visits | RoiNew.py:64-94 | at most one turn per drone, and at least one when there is a drone |
| RoiNew.VisitsInOrder | RoiNew.py:64-94 | drones are flown one after another in order; the tour goes on after every turn except an escaped one, and only an escaped turn stops it early |
| RoiNew.VisitsStep | RoiNew.py:64 | one step of the `for` over the drones |
| RoiNew.Tour | RoiNew.py:56-94 | at most one turn per drone found, and at least one when a drone was found |
| RoiNew.TourInOrder | RoiNew.py:64-94 | the same for `main`'s tour, each drone on a fresh socket |
| RoiNew.VisitOn | RoiNew.py:65-94 | a turn on a link returns and leaves exactly `Visit` |
| RoiNew.RunTour | RoiNew.py:56-94 | `main`'s loop yields `Tour` |
| ConnectToWifi.JoinCommand | ConnectToWifi.py:69 | the join command is an SDK `ap` command |
| ConnectToWifi.Join | ConnectToWifi.py:69-73 | the join step keeps the socket open |
| ConnectToWifi.Script | ConnectToWifi.py:55-80 | the socket is always closed at the end |
| ConnectToWifi.StepsInOrder | ConnectToWifi.py:66-78 | the script's three cases. An empty SDK reply sends only `command`. A failed `ap` sends it three times. Otherwise one `battery?` follows, and a failed receive of its reply leads to `emergency_land` |
| ConnectToWifi.RunScript | ConnectToWifi.py:55-80 | `main` on a link returns and leaves exactly `Script` |
| MyLibTello.Airborne | MyLibTello.py:51-66 | the flight after takeoff keeps the socket open |
| MyLibTello.Launch | MyLibTello.py:40-70 | the launch keeps the socket open |
| MyLibTello.Script | MyLibTello.py:29-77 | the socket is always closed, and the script finishes or stops at `command`, `takeoff` or `land` |
| MyLibTello.RefusedSdkSendsNothingElse | MyLibTello.py:40 | a refused SDK mode sends three `command`s and nothing else |
| MyLibTello.FailedTakeoffLandsFirst | MyLibTello.py:67-70 | a failed takeoff ends with three `takeoff`s, `land` and then the red LED |
| MyLibTello.FailedLandingAlarmsFirst | MyLibTello.py:62-66 | a failed landing ends with three `land`s, the red LED and then the emergency `land` |
| MyLibTello.AirborneLog | MyLibTello.py:51-62 | a flight that lands sends the green LED, every side of the square one to three times in order whatever the earlier sides returned, and one to three `land`s |
| MyLibTello.LaunchLog | MyLibTello.py:43-62 | a launch that lands sends `battery?` and the red LED, one to three `takeoff`s, and then the flight |
| MyLibTello.FinishedFliesSquare | MyLibTello.py:29-77 | a finished run sends exactly one to three `command`s, `battery?` and the red LED, one to three `takeoff`s, the green LED, every side of the square one to three times in order, and one to three `land`s |
| MyLibTello.RunScript | MyLibTello.py:29-77 | `main` on a link returns and leaves exactly `Script` |
| LedTest.Signal | LEDtest.py:42-47 | `battery?` and `time?` come first, and four to eight commands are sent in all |
| LedTest.Scroll | LEDtest.py:47 | the scroll command is the SDK's `EXT mled l r 1 ` prefix followed by the banner unchanged |
| LedTest.SignalInOrder | LEDtest.py:42-47 | after SDK mode, `battery?`, `time?`, then the green LED and the scroll, each retried one to three times |
| LedTest.Script | LEDtest.py:28-61 | the socket is always closed, and the script finishes or stops at `command` |
| LedTest.LightsOnlyAfterSdk | LEDtest.py:39-56 | nothing but `command` is sent unless SDK mode was accepted; once it is, the signal follows in order |
| LedTest.RunScript | LEDtest.py:28-61 | `main` on a link returns and leaves exactly `Script` |
| Discovery.AddressInjective | SearchIPAsync.py:39 | distinct host numbers give distinct `subnet.i` addresses |
| Discovery.Address | SearchIPAsync.py:39 | `f"{subnet}.{i}"` is the subnet, a dot, and then digits only |
| Discovery.Addresses | SearchIPAsync.py:48 | one address per host, in the same order |
| Discovery.Candidates | SearchIPAsync.py:38-40 | 253 candidates are pinged |
| Discovery.AddressesDistinct | SearchIPAsync.py:46-48 | addresses of ascending hosts are pairwise distinct |
| Discovery.CandidatesInOrder | SearchIPAsync.py:38-40 | the candidates run from `subnet.2` to `subnet.254` in ascending order, each address once |
| Discovery.SuccessesFromShape | SearchIPAsync.py:46-48 | exactly the hosts whose ping succeeded, in strictly ascending order |
| Discovery.Collect | SearchIPAsync.py:46-50 | the loop never drops a host it has, and adds at most one per result |
| Discovery.CollectTakes | SearchIPAsync.py:46-50 | while fewer than `num_drones` are in, the loop appends the next successful hosts until it has enough or the results run out |
| Discovery.FirstSuccesses | SearchIPAsync.py:28 | for `num_drones >= 1`, the result is the first `min(num_drones, #successes)` successful hosts |
| Discovery.NonPositiveCount | SearchIPAsync.py:49-50 | for `num_drones <= 0`, the result is `subnet.2` if it answered, and empty otherwise |
| Discovery.LeadingSuccesses | SearchIPAsync.py:46-48 | a leading part of the successes is ascending and holds successful hosts only |
| Discovery.CollectSound | SearchIPAsync.py:46-50 | whatever `num_drones` is, every host collected answered, in strictly ascending order |
| Discovery.FindConnected | SearchIPAsync.py:46-52 | the loop returns the collected addresses: the first successes for `num_drones >= 1`, and always free of duplicates |
| Stream.NextChunk | HandControl2.py:110 | one `recv(n)` returns at most `n` bytes, and returns empty exactly when the stream is closed |
| Stream.AvailableCons | HandControl2.py:110 | the stream still to be read is the first segment followed by the rest |
| Stream.NextChunkTakesFront | HandControl2.py:110 | `recv` returns the front of what is left to read, and leaves the rest |
| Stream.Receive | HandControl2.py:107-114 | one request per chunk, and no request at all when `count <= 0` |
| Stream.ReceiveFrom | HandControl2.py:109-113 | one request is logged per chunk |
| Stream.StepClosed | HandControl2.py:111-112 | an empty chunk ends the loop |
| Stream.StepChunk | HandControl2.py:110-113 | a non-empty chunk is appended and the loop goes on |
| Stream.ReceiveFromReadsFront | HandControl2.py:109-113 | the result is the front of the stream, of length `min(max(count - have, 0), available)` |
| Stream.ReceiveReadsFront | HandControl2.py:107-114 | `receive_all` returns the first `min(count, available)` bytes of the stream: exactly `count` unless the peer closed early, and never more |
| Stream.ReceiveFromAsksMissing | HandControl2.py:110 | each request asks for exactly the bytes still missing, always a positive number |
| Stream.ReceiveFromEmptyOnlyLast | HandControl2.py:111-112 | only the last chunk can be empty |
| Stream.ReceiveFromShortMeansClosed | Client_VideoTranslation_OpenCv.py:17-21 | a short result means the last `recv` returned empty |
| Stream.NothingWanted | Client_VideoTranslation_OpenCv.py:17 | `count <= 0` returns nothing without any `recv` |
| Stream.Socket.constructor | Client_VideoTranslation_OpenCv.py:8 | a socket over the given stream, with no request made yet |
| Stream.Socket.Recv | Client_VideoTranslation_OpenCv.py:18 | `recv(n)` returns what `NextChunk` gives and logs the request |
| Stream.ResumesStep | Client_VideoTranslation_OpenCv.py:17-21 | after one reading, the loop's position moves on by one chunk |
| Stream.ReceiveAll | Client_VideoTranslation_OpenCv.py:8-22 | the loop returns the chunks of `Receive` joined up, and leaves the stream and the request log as `Receive` states |
| Stream.ConcatAppend | Client_VideoTranslation_OpenCv.py:21 | `buf += new_buf` extends the joined chunks |
| Stream.ConcatEmptyLast | Client_VideoTranslation_OpenCv.py:19-20 | a final empty chunk adds nothing |

## Findings

| source | as written | input that shows it | evidently intended | confidence | as-written member | corrected member |
|---|---|---|---|---|---|---|
| tello_multi_height_sync.py:172-175 | the `except KeyboardInterrupt` that lands is in `control_drone`, which runs in a daemon thread (190-195). Ctrl+C goes to the main thread in `join`, which dies and takes the daemon threads with it on POSIX; on Windows `join` goes on waiting and the loop runs on | a drone in the key loop, then Ctrl+C | Ctrl+C sends `land` to every drone | not executed | HeightSync.CtrlCLeavesDroneFlying | HeightSync.RelayedCtrlCLands |
| HandControl2_WithRetry_Rename_3.py:176-179 | the same handler, in daemon threads (199-204), with the same two platform readings | a drone in the key loop, then Ctrl+C | Ctrl+C sends `land` to every drone | not executed | HeightSync.CtrlCLeavesDroneFlying | HeightSync.RelayedCtrlCLands |
| tello_multi_height_sync2.py:124-127 | the same handler, in daemon threads (141-147), with the same two platform readings | a drone in the key loop, then Ctrl+C | Ctrl+C sends `land` to every drone | not executed | ScenarioSync.CtrlCLeavesDroneFlying | ScenarioSync.RelayedCtrlCLands |
| HandControl2_WithRetry_Rename_2.py:162-165 | the handler is in non-daemon threads (190-194). The main thread gets Ctrl+C, and the loops go on | a drone in the key loop, then Ctrl+C, then more polls | Ctrl+C sends `land` to every drone | not executed | SharedSocket.CtrlCIgnored | SharedSocket.RelayedCtrlCLands |
| HandControl2_WithRetry_Rename.py:101-104 | the same handler, in non-daemon threads (150-155) | a drone in the key loop, then Ctrl+C, then more polls | Ctrl+C sends `land` to every drone | not executed | SharedSocket.CtrlCIgnored | SharedSocket.RelayedCtrlCLands |
| HandControl2_WithRetry.py:118-121 | the same handler, in non-daemon threads (144-149) | a drone in the key loop, then Ctrl+C, then more polls | Ctrl+C sends `land` to every drone | not executed | SharedSocket.CtrlCIgnored | SharedSocket.RelayedCtrlCLands |
| KeyboardControl.py:88-91 | the loop is a task under `asyncio.run` (104). From Python 3.11 on, Ctrl+C cancels the task, and the `CancelledError` passes by `except KeyboardInterrupt` | the drone in the key loop, then Ctrl+C while the task waits on `asyncio.sleep(0.1)` | Ctrl+C sends `land` | not executed | KeyboardControl.CtrlCCancels | KeyboardControl.HandledCtrlCLands |

The sessions and the `*On` methods use each script's loop as written. The corrected loops appear only in the `Relayed...` and `Handled...` lemmas, which prove that the handler lands the drone once it runs.

## Left out

The plumbing:

- **Real socket I/O.** Creating and binding sockets, `sendto` and `recvfrom`, operating-system timeouts and UDP loss are not modelled. The network is a script of datagrams with abstract arrival times, and all times are whole milliseconds on an abstract clock.
- **Blocking receivers.** A `Blocking` receiver that finds no more datagrams answers `None`. The real socket would wait forever. Before that, a `None` comes only from a datagram marked `fails`.
- **Send failures.** `sendto` is taken to succeed, so the `except` branches that only a failing `sendto` could reach do not occur. These are the `except` branches of MyLibTello.py and LEDtest.py, and their `emergency_land`.
- **Threads and locks.** Threads, `threading.Barrier` with its 15 s timeout, `socket_lock`, `heights_lock`, `console_lock` and the staggered start in tello_multi_height_sync2.py are left out.
  - Height levelling sees whatever heights the other drones had recorded, passed in as a map.
  - The shared socket is modelled as one drone's socket whose inbox may hold other drones' datagrams.
- **The keyboard library.** Each poll is one snapshot of the keys held. Ctrl+C arrives only between two polls.
- **Ctrl+C and interpreter shutdown.** Which thread gets the interrupt is fixed per script (`KeyLoop.CtrlC`), not derived from a model of threads.
  - `Fatal` is the reading for daemon loops, as on POSIX. The Windows reading, where the main thread's `join` ignores Ctrl+C, is proved only as the `Unseen` variants of the daemon profiles; the scripts' profiles keep `Fatal`.
  - A daemon loop is taken to stop at once. In Python it may run a little longer, until the interpreter finishes exiting.
  - A second Ctrl+C, pressed while the interpreter waits for non-daemon threads, is not modelled.
  - KeyboardControl.py is modelled as on Python 3.11 or later, where `asyncio.run` turns Ctrl+C into a cancellation of the task. Before 3.11, a Ctrl+C raised during the blocking `time.sleep(0.5)` or `recvfrom` in the coroutine would reach its handler. The model cannot express this, because its Ctrl+C arrives only between polls.
- **Undecodable replies.** A datagram's payload is taken to be text already. A reply that is not valid UTF-8 makes `decode` raise `UnicodeDecodeError`. In tello_multi_height_sync.py:50 and tello_multi_height_sync2.py:25 nothing catches it, so `control_drone` ends with the error. In the scripts whose `send_command` catches `Exception` (MyLibTello.py:4-11, for one) it becomes `None`. That case is modelled: a datagram marked `fails` gives `None` and is consumed, and later receives go on. The uncaught case is not: the `Matching` receiver takes every datagram to decode.
- **Fresh sockets.** HandControl2.py and KeyboardControl.py open a fresh socket for every command. They are modelled as one socket that accepts any sender.
- **Video and telemetry.** These are left out, and so is the `video_display` thread with its stop event. The `streamon`/`streamoff` commands are modelled.
  - `state_listener` (HandControl2_WithRetry_Rename.py:106-126).
  - The `main` of Client_VideoTranslation_OpenCv.py.
- **Console output and prompts.** All printing and every `input()` prompt are left out. `int(input(...))` for the number of drones becomes a parameter.
- **The entry points.** Each `main` that finds the drones and starts one thread or task per drone is left out; the per-drone session is modelled. RoiNew.py's sequential `main` is modelled, as `RoiNew.RunTour`.
- **TCP stream.** The stream of `receive_all` is a sequence of segments. A `recv(n)` takes at most `n` bytes of the first segment, and an empty segment marks the peer's close.

Python behaviour:

- **`int()` and `str.strip()`.** `int()` is modelled as optional whitespace, an optional sign and ASCII digits. Digit underscores and non-ASCII digits are left out. `str.strip()` uses Python's whitespace set.
- **Fixed parameters.**
  - LEDtest.py's scrolled LED text is a parameter, `banner`: the text itself plays no part in the logic.
  - ConnectToWifi.py's network name and password are the parameters `ssid` and `key`.

Scripts and helpers outside the model:

- **Files with no decision logic.** TCP.py is a network relay and a client that ignores every reply. ProgramTest.py is a module-level script with no functions. Roi.py is a thin wrapper that ignores outcomes.
- **The pings.** SearchIPold.py's threaded ping discovery is not part of this model, and neither is the `ping` subprocess of SearchIPAsync.py. The pings' answers are given as a sequence of booleans.
- **Mis-wired helpers.** `send_with_retry` in HandControl2.py:26-34 passes its arguments in the wrong order, and the one in KeyboardControl.py:34-45 compares an un-awaited coroutine to `'ok'`. No working path calls either, so neither is modelled.
- **Per-file duplicates.** Each script's own copy of `send_command`, `send_with_retry` and `battery_check` is modelled once, with the script's parameters: receiver, retries, delay, strip. It is not modelled file by file.

Weaker contracts:

- Discovery.Collect: its own contract bounds only the number of hosts. Which hosts, and their order, are stated by Discovery.CollectTakes, Discovery.CollectSound and Discovery.FirstSuccesses.
- Sessions.Session: with video on, it appends `streamoff` after a loop that ended as interrupted, which matches `finally` only when the handler ran. A loop that dies with its daemon thread never reaches `finally`. No script combines video with such a loop: the video script's loop runs in a non-daemon thread and never ends as interrupted (SharedSocket.EndsOnlyByL).

- ScenarioSync.ScenarioFliesEveryLeg: states that the scenario's log equals the flight path of the six legs. The one-to-five bound on each leg follows from Reliable.FlightPathAttemptsAll and is not repeated.
- Reliable.FlightPath: its own contract states only that the socket stays open. What it sends is stated by Reliable.FlightPathSent and Reliable.FlightCountsBounded.
- KeyLoop.DeliverAll: its own contract states only that the socket stays open. What it sends is stated by KeyLoop.DeliverAllSent and KeyLoop.DeliverCountsBounded.
- RoiNew.Finish: its own contract states only that the socket stays open. What it sends is stated by RoiNew.FinishSendsOnly.
- RoiNew.Flight: its own contract states only that the socket stays open. What it sends is stated by RoiNew.FlightSendsOnly.
- RoiNew.Turn: its own contract states only that the socket stays open. What it sends is stated by RoiNew.TurnSendsOnly and RoiNew.NeverLands.
- ConnectToWifi.Join: its own contract states only that the socket stays open. What it sends is stated by ConnectToWifi.StepsInOrder.
- MyLibTello.Airborne: its own contract states only that the socket stays open. What it sends is stated by AirborneLog when it lands and by FailedLandingAlarmsFirst when it does not.
- MyLibTello.Launch: its own contract states only that the socket stays open. What it sends is stated by LaunchLog when the run lands, by FailedTakeoffLandsFirst and FailedLandingAlarmsFirst when it does not.
