# A verified model of the MPS emulator

The emulator plays a Scanivalve MPS-42xx pressure scanner: a TCP server for commands, a TCP server
for binary data, UDP streaming, and a scan thread that produces frames. Almost all of it is state
that several threads update in place. This project models four linked parts of it in Dafny and
proves what they keep in every run. `dafny verify dfyconfig.toml` checks everything.

**Thread pool, connections, control.** `PoolModel` is the monitor of `ThreadPool` as a transition
system: each step is one critical section, or the code between two of them; blocking takes two
steps because notifications are sent without the mutex; spurious wake-ups are steps too.
`PoolProofs` proves that no wake-up is lost, that tasks are first in first out and conserved, that every
task is started after a bounded number of worker steps, and that shutdown takes a bounded number of
steps. `ControlModel` is one server and the callbacks that
keep one client in control; `ControlProofs` proves the last-one-wins claims over every run,
`Delivery` that whatever the client in control sends does reach the device, and `NewestClient` that even a
server with one free worker serves its newest client. The classes
`ThreadPool` and `ServerLayer` perform these steps in place.

**Scan engine.** `Device` says what each command does to the scanner, `ScanModel` interleaves
commands with the pieces of the scan thread, and `ScanProofs`, `ScanResults`, `ScanTiming` and
`BoundedScan` prove what status, averages, packet layout, frame times and frame numbers are in every
reachable state. The classes `Mps` and `ScanThread` are the object and its thread, with the loops of
the source.

**Commands.** `StringUtils` is the tokenizer, `LineEditor` the keystroke buffer, `Device.Parse` the
interpreter, `CommandResults` what each command does to the device's fields and what it answers,
`CommandProofs` what any sequence of commands keeps, and `RoundTrip` that executing what LIST prints
restores what was listed.

**Frames and buffers.** `Buffers` is the manually owned buffer over an explicit heap, `Ledger` the
books of who must release which block, `Streams` every path that a buffer takes through the server,
`EndToEnd` the way of a scan's frames to the UDP socket, and `BinaryFeed` their way to the client of the
binary server.

## Conventions

- Every state-changing method equates its new state with a function of the old state (`View() ==
  Next(old(View()), step)`); what the source promises is proved about that function over runs. The methods of `ThreadPool` and
  `ServerLayer` also require and ensure `Valid()`, the invariant that these proofs establish.
- `Run(s, actions)` and `After(s, actions)` quantify over all finite interleavings.
- The protocol header is not part of this model. What it defines, and what the C++ library prints
  and scans for floats, is a `Protocol` value; `Protocol.Valid()` lists all that is assumed of it.
- `Ambient` holds what the language leaves undefined (an `int` that `sscanf` did not set, a number out
  of range for its conversion, a float that does not fit an integer) and the clock: the theorems hold
  for every value of it, and each command of a sequence meets a value of its own.
- Samples are arbitrary real numbers that pass through the clamp. Floats are real numbers.

## What the proofs say about the code

- The comment in `StopAll` (threads.cpp:54) promises that the queue is drained. It is not:
  `StopAllCanAbandonATask` is a run that leaves a task behind. `StopAllDrainsIff` gives the condition at
  the moment of the call: every shutdown drains the queue if and only if it holds no more tasks than
  there are workers behind their loop test without a task. What is left, or enqueued later, never starts
  (`NothingStartsAgain`).
- The repository's README says that connections are exclusively single-client. A client that drops
  between its insertion and its connect callback is in control although it is gone
  (`GoneClientCanBeActive`); whoever is in control is connected all along if and only if every
  client's handler is still alive when the client is announced (`ConnectedIffNotDropped`). The binary
  server does not ask who sends: a kicked client's last byte still starts or stops a scan
  (`KickedBinaryClientCanReachDevice`), and so does the first byte of a client that is connected but
  not yet announced (`UnannouncedBinaryClientCanReachDevice`). Only the client in control reaches the
  device if and only if every such byte is delivered for a client that is connected and announced
  (`BinaryCommandsInControlIff`).
- Taking control erases the console's unfinished line instead of the old client's
  (server-layer.cpp:198, where the active id is already 0): `ConsoleLineCanBeLost` is a run that loses
  it, `ConsoleLineSurvivesIff` the condition.
- A command that TCP delivers in two segments is executed as one exactly when the cut falls behind the
  line and the first segment is longer than a byte: `TwoSegmentsIff`. Of two lines that arrive in one
  segment only the first nonempty one is executed: `TwoLinesTogetherIff`.
- `SET SIM` tests `errno` and nobody clears it, so one overflow (`SimOverflows`) makes all later ones
  fail (`ErangeSticks`); FPS and port are printed unsigned and scanned signed, and -1 is accepted for both
  (`FpsMinusOne`, `PortMinusOne`). Each of these breaks the round trip (`RoundTripCanFail`);
  `ListRestoresIff` gives the exact condition for it.
- `ENFTP` is not recognized in lower case (mps.cpp:610), unlike all other settings:
  `LowerCaseSettings`.
- The status of a scan is not always SCAN. It is right if and only if it was right at the beginning, no
  CALZ has come since, and no calibration that was pending has ended since (`StatusExactIff`); once
  wrong it stays wrong. CALZ followed by SCAN ends in a scan with status READY (`CalZThenScanIsReady`).
- A scan started while the thread is inside its frame loop is timed from the older start
  (`StaleScanIsMistimed`): one begun between the thread's reading of the start time and its test of the
  flag, and likewise a stop and restart inside one frame. A frame carries its true time if and only if
  there was no such start since the loop was entered (`FrameIsTimedIff`).
- The seconds of a packet are cast to 32 bits: they recompose to the time from the scan start if and
  only if that is less than 2^32 seconds (`FieldsRecomposeIff`).

## Model

| member | source | states |
|---|---|---|
| PoolProofs.NoLostWakeup | aerolib/src/aero/core/threads.cpp:13-62 | for any workers, tasks and interleaving: while a worker sleeps, queued tasks are covered by notifications to come and workers already woken, and a set stop flag still has its notify_all ahead |
| PoolProofs.TasksConserved | aerolib/src/aero/core/threads.cpp:18-50 | started tasks followed by the queue are the tasks enqueued, in order; each enqueued task is finished, running or queued, once |
| PoolProofs.WorkersStay | aerolib/src/aero/core/threads.cpp:13-33 | over every run: no worker leaves before the pool is being stopped |
| PoolProofs.QueueProgresses | aerolib/src/aero/core/threads.cpp:13-50 | while a task is queued and nobody stops the pool, a worker or a notification can take a step, and a worker can unless all sleep |
| PoolProofs.EveryTaskStarts | aerolib/src/aero/core/threads.cpp:13-50 | every task enqueued is started in its turn, before 3 * (tasks in front, and itself) + 2 * workers worker steps, whatever else is enqueued and however often workers wake for nothing |
| PoolProofs.JoiningDrains | aerolib/src/aero/core/threads.cpp:53-84 | from the join loop on nobody sleeps, nobody is about to, and every stop is requested |
| PoolProofs.DrainStep | aerolib/src/aero/core/threads.cpp:13-33 | in a stopping pool every worker step decreases the measure, no other step touches a worker, and a start uses up the worker's one remaining start |
| PoolProofs.ShutdownIsBounded | aerolib/src/aero/core/threads.cpp:53-87 | whatever is enqueued meanwhile: a bounded number of worker steps, no new sleep, at most one more task per worker |
| PoolProofs.ShutdownProgresses | aerolib/src/aero/core/threads.cpp:75-84 | until all workers have exited, one can step |
| PoolProofs.StopAllAbandons | aerolib/src/aero/core/threads.cpp:53-89 | how many tasks a shutdown leaves in the queue, exactly |
| PoolProofs.NothingStartsAgain | aerolib/src/aero/core/threads.cpp:43-51 | once the workers have left, no task that is queued or enqueued later ever starts |
| PoolProofs.DrainingDrainsIff | aerolib/src/aero/core/threads.cpp:61-84 | the same, read once all workers are notified and all stops requested |
| PoolProofs.StopAllDrainsIff | aerolib/src/aero/core/threads.cpp:53-89 | in any reachable state in which StopAll gets the mutex: every shutdown without further pushes drains the queue if and only if it holds no more tasks than workers behind their loop test without a task |
| PoolProofs.StopAllCanAbandonATask | aerolib/src/aero/core/threads.cpp:54-87 | a run that ends with the pool stopped and a task queued |
| ThreadPool.ThreadPool.constructor | aerolib/src/aero/core/threads.cpp:6-36 | all workers at their loop head, nothing queued, and Valid() |
| ThreadPool.ThreadPool.LoopTest | aerolib/src/aero/core/threads.cpp:13 | the step at the loop head |
| ThreadPool.ThreadPool.Test | aerolib/src/aero/core/threads.cpp:18-28 | lock and test: take the first task, leave, or go to sleep holding the mutex |
| ThreadPool.ThreadPool.Block | aerolib/src/aero/core/threads.cpp:21 | fall asleep and release the mutex, together |
| ThreadPool.ThreadPool.Finish | aerolib/src/aero/core/threads.cpp:30-32 | the task returns and the worker is back at its loop head, where PoolProofs.WorkersStay and EveryTaskStarts need it |
| ThreadPool.ThreadPool.Push | aerolib/src/aero/core/threads.cpp:45-49 | the locked part of Enqueue |
| ThreadPool.ThreadPool.NotifyOne | aerolib/src/aero/core/threads.cpp:50 | wakes a sleeper, if there is one |
| ThreadPool.ThreadPool.SetStop | aerolib/src/aero/core/threads.cpp:56-59 | the locked part of StopAll |
| ThreadPool.ThreadPool.NotifyAll | aerolib/src/aero/core/threads.cpp:62 | a loop over the workers wakes exactly the sleeping ones |
| ThreadPool.ThreadPool.RequestNext | aerolib/src/aero/core/threads.cpp:65-73 | one turn of the request loop |
| ThreadPool.ThreadPool.JoinNext | aerolib/src/aero/core/threads.cpp:76-87 | one turn of the join loop, or the clearing behind it |
| ControlProofs.LastOneWins | application/src/server-layer.cpp:189-216 | in every run: connections lie within active and the one being accepted, at most one outlives an accept, the flag means a nonzero active id, line buffers exist for console and active only, only these two reach the device |
| ControlProofs.OwnKeystrokesOnly | application/src/server-layer.cpp:293-334 | in every run: the commands obeyed and the text in the active client's buffer are those of its own messages that were edited since it took control, whoever was kicked before |
| ControlProofs.OwnSessionOnly | application/src/server-layer.cpp:293-334 | so a session typed since then gives its own edited lines |
| Delivery.EverythingReceivedIsHeard | application/src/server-layer.cpp:290-361 | in every run: what recv() returned from the client in control has all been edited, in order, but for the message in the call, and the device was told exactly the commands in it |
| Delivery.SessionReachesDevice | application/src/server-layer.cpp:299-361 | a session received byte by byte or line by line has reached the device as exactly its edited lines |
| Delivery.CallbackDelivers | application/src/server-layer.cpp:218-361 | what a data callback changes: everything that the message means for the client in control, nothing for a stranger on the command server, and the start or stop byte of anybody on the binary server |
| Delivery.ConsoleDelivers | application/src/server-layer.cpp:173-181 | what a console line changes |
| Delivery.ServeAll | aerolib/src/aero/networking/server.cpp:116-144 | a connected client in control can be served with any sequence of messages |
| Delivery.SessionCanReachDevice | aerolib/src/aero/networking/server.cpp:116-144 | so every session of the client in control can reach the device |
| Delivery.ClientStays | aerolib/src/aero/networking/server.cpp:116-148 | a client stays connected as long as recv does not fail for it and nobody else is announced |
| ControlProofs.ConnectedIffNotDropped | aerolib/src/aero/networking/server.cpp:98-107 | over every run of a server: whoever is in control is connected all along if and only if no client is announced after its handler has ended |
| ControlProofs.HeldStepIff | aerolib/src/aero/networking/server.cpp:98-107 | of all steps only the announcement of a client whose handler has ended puts a disconnected client in control |
| ControlProofs.AnnouncementTakesControl | application/src/server-layer.cpp:201-203 | an announced client is in control, and connected if and only if its handler still lives |
| ControlProofs.GoneClientCanBeActive | aerolib/src/aero/networking/server.cpp:98-107 | a run that leaves a client in control that is gone |
| ControlProofs.KickedBinaryClientCanReachDevice | application/src/server-layer.cpp:266-285 | a run in which a kicked client's byte reaches the device |
| ControlProofs.UnannouncedBinaryClientCanReachDevice | aerolib/src/aero/networking/server.cpp:104-107 | a run in which the byte of a client that was never kicked and is not in control yet reaches the device |
| ControlProofs.InControlIff | application/src/server-layer.cpp:240-264 | a client whose handler runs is in control if and only if it is connected and announced |
| ControlProofs.BinaryCommandsInControlIff | application/src/server-layer.cpp:266-285 | over every run of a binary server: only the client in control has reached the device if and only if every start or stop byte was delivered for a connected and announced client |
| ControlProofs.ConsoleLineSurvivesIff | application/src/server-layer.cpp:194-199 | the console's buffer entry, and an unfinished line in it, survive a connect if and only if nobody is kicked |
| ControlProofs.ConsoleLineCanBeLost | application/src/server-layer.cpp:194-199 | a run in which a character typed at the console is lost when a client is kicked |
| NewestClient.OnlyDeadAhead | aerolib/src/aero/networking/server.cpp:98-148 | every handler that runs or waits ahead of the active client's belongs to a client no longer connected |
| NewestClient.StepCloser | aerolib/src/aero/networking/server.cpp:111-148 | every handler step brings the active client's handler closer and no other step pushes it back |
| NewestClient.WaitIsBounded | aerolib/src/aero/networking/server.cpp:111-148 | the wait is at most as many handler steps as the distance at its beginning |
| NewestClient.NewestClientIsServed | application/src/server-layer.cpp:72-85 | with one worker free for handlers, as in the binary server with two, the newest client's handler starts after bounded handler steps, one of which is always possible without any client's help |
| ServerLayer.ServerLayer.OnClientConnected | application/src/server-layer.cpp:189-205 | the step of Connected: kick the old client, take control |
| ServerLayer.ServerLayer.OnClientDisconnected | application/src/server-layer.cpp:207-216 | the step of Disconnected: only the active client's loss counts |
| ServerLayer.ServerLayer.OnCommand | application/src/server-layer.cpp:290-366 | permission check, line editor and interception of shutdown and restart, tied to Edit; the outcome tells refusal, silence, prompt or command |
| ServerLayer.ServerLayer.SubmitLine | application/src/server-layer.cpp:333-366 | the buffer is cleared; the first token goes to the device unless it is missing or meant for the application |
| ServerLayer.ServerLayer.OnBinaryData | application/src/server-layer.cpp:266-285 | a first byte of 1 or 0 reaches the device, whoever sent it |
| ServerLayer.ServerLayer.OnConsoleInput | application/src/server-layer.cpp:173-185 | a line with a slash is a command of sender 0; any other leaves the control state alone |
| ServerLayer.ServerLayer.KickClient | aerolib/src/aero/networking/server.cpp:192-200 | callback, then the connection is gone |
| ServerLayer.ServerLayer.Accept | aerolib/src/aero/networking/server.cpp:98-101 | the insertion step |
| ServerLayer.ServerLayer.EnqueueHandler | aerolib/src/aero/networking/server.cpp:104 | the handler joins the pool's queue |
| ServerLayer.ServerLayer.ConnectCallback | aerolib/src/aero/networking/server.cpp:106-107 | the connect callback as a step of its own |
| ServerLayer.ServerLayer.StartHandler | aerolib/src/aero/networking/server.cpp:111-116 | a free worker takes the first queued handler |
| ServerLayer.ServerLayer.CheckConnection | aerolib/src/aero/networking/server.cpp:119-121 | the handler goes on only while its client is in the map |
| ServerLayer.ServerLayer.RecvReturns | aerolib/src/aero/networking/server.cpp:127-140 | bytes, or nothing and the handler ends |
| ServerLayer.ServerLayer.DataCallback | aerolib/src/aero/networking/server.cpp:142-143 | the message goes to the command or to the binary callback; Valid() holds that nothing received is lost |
| ServerLayer.ServerLayer.HandlerKick | aerolib/src/aero/networking/server.cpp:147 | a handler that ends kicks its own client and frees the worker |
| LineEditor.TypedRefinesWhole | application/src/server-layer.cpp:299-337 | a session typed a byte at a time, with any backspaces and escapes, shows exactly the outcomes of the edited lines sent whole, although LFs stay behind in the buffer |
| LineEditor.TypingKeys | application/src/server-layer.cpp:308-325 | typing is silent; the buffer is the edited text behind at most one stale LF, which backspaces consume |
| LineEditor.OneEntry | application/src/server-layer.cpp:299-337 | one entry, typed or whole, from a clean buffer or one with a stale LF |
| LineEditor.TwoSegmentsIff | application/src/server-layer.cpp:300-331 | a line cut in two segments is obeyed as sent if and only if the cut is behind the line and not behind its only byte |
| LineEditor.TwoLinesTogetherIff | application/src/server-layer.cpp:328-358 | of two lines in one message only the first nonempty one is executed; both are as sent if and only if one is empty |
| StringUtils.SplitString | application/src/utils/string-utils.cpp:6-27 | the loop computes Split, ends, and leaves only by its break |
| StringUtils.SplitShape | application/src/utils/string-utils.cpp:13-24 | no token holds a delimiter and only the last may be empty |
| StringUtils.SplitContent | application/src/utils/string-utils.cpp:13-24 | the tokens concatenate to the input without its delimiters |
| StringUtils.SplitAtDelimiter | application/src/utils/string-utils.cpp:13-24 | splitting s, a delimiter and t is splitting s, less a trailing empty token, followed by splitting t |
| StringUtils.SplitJoin | application/src/utils/string-utils.cpp:13-24 | splitting undoes joining of words |
| CommandProofs.OneCommandKeepsConfig | application/src/scanivalve/mps.cpp:530-774 | any command line keeps formats, target, units and numbers valid |
| CommandProofs.CommandsKeepConfig | application/src/scanivalve/mps.cpp:530-774 | so does every sequence of command lines, whatever each of them meets; the UDP target stays one printable token |
| CommandProofs.ErangeSticks | application/src/scanivalve/mps.cpp:670-684 | after one overflow, no sequence of command lines changes SIM any more |
| CommandProofs.FormatsKept | application/src/scanivalve/mps.cpp:634-647 | a SET FORMAT that fails in the middle of its pairs leaves supported formats |
| CommandProofs.EscapeStops | application/src/server-layer.cpp:315-320 | the escape key discards whatever was typed, and the command that it becomes stops the scan |
| CommandProofs.SplitPrinted | application/src/scanivalve/mps.cpp:731-769 | a listing splits back into its lines and the prompt |
| CommandResults.VersionAnswers | application/src/scanivalve/mps.cpp:535-536 | VER and VERSION, in both spellings |
| CommandResults.StatusAnswers | application/src/scanivalve/mps.cpp:539-540 | STATUS answers the current status and changes nothing |
| CommandResults.CalZCalibrates | application/src/scanivalve/mps.cpp:542-546 | CALZ sets calibrating and the status, and nothing else |
| CommandResults.ScanScans | application/src/scanivalve/mps.cpp:548-552 | SCAN starts a scan now, unless there is one; the configuration stays |
| CommandResults.StopStops | application/src/scanivalve/mps.cpp:554-558 | STOP ends a scan with READY; without a scan nothing changes |
| CommandResults.OthersAreInvalid | application/src/scanivalve/mps.cpp:772-773 | any other first word is refused and the command named |
| CommandResults.SetRate | application/src/scanivalve/mps.cpp:567-582 | a rate that can be scanned is set with its sub-frame count, and the command echoed |
| CommandResults.SetFps | application/src/scanivalve/mps.cpp:584-595 | a decimal FPS is stored and the command echoed |
| CommandResults.SetEnudp | application/src/scanivalve/mps.cpp:597-609 | zero switches UDP off, other numbers on |
| CommandResults.SetEnftp | application/src/scanivalve/mps.cpp:610-622 | zero switches FTP off, other numbers on |
| CommandResults.SetIpudp | application/src/scanivalve/mps.cpp:624-632 | target and port are stored |
| CommandResults.SetUnits | application/src/scanivalve/mps.cpp:649-662 | a unit of the table is set, an unknown one refused |
| CommandResults.NotANumberKeeps | application/src/scanivalve/mps.cpp:584-595 | an FPS that is no number is echoed and changes nothing |
| CommandResults.MissingArguments | application/src/scanivalve/mps.cpp:564-667 | a SET without its argument is refused and changes nothing |
| CommandResults.MissingPort | application/src/scanivalve/mps.cpp:624-627 | SET IPUDP without a port is refused and changes nothing |
| CommandResults.UnknownSetting | application/src/scanivalve/mps.cpp:562-688 | an unknown setting is refused and named |
| CommandResults.FormatsAccepted | application/src/scanivalve/mps.cpp:161-188 | which letters each kind of format takes, and what they set |
| CommandResults.FirstFailureEnds | application/src/scanivalve/mps.cpp:636-644 | the pairs before a failing one stay in force, and the answer names the failing one |
| CommandResults.OddTokenEnds | application/src/scanivalve/mps.cpp:639-640 | a kind without its format ends the command without a change |
| CommandResults.FormatAnswers | application/src/scanivalve/mps.cpp:646 | a SET FORMAT that succeeds answers the line that LIST S prints |
| CommandResults.StrtoulHexadecimal | application/src/scanivalve/mps.cpp:673 | base 0 reads hexadecimal digits behind 0x |
| CommandResults.StrtoulOctal | application/src/scanivalve/mps.cpp:673 | base 0 reads octal digits behind 0 |
| CommandResults.SimSixtyFour | application/src/scanivalve/mps.cpp:664-687 | SET SIM 0x40 and 0100 set 64 |
| CommandResults.SimRefusesText | application/src/scanivalve/mps.cpp:678-679 | SET SIM 64abc is refused and changes nothing |
| CommandResults.SimRefusesLarge | application/src/scanivalve/mps.cpp:681-682 | numbers of more than 16 bits are refused and change nothing |
| CommandResults.SimRefusesNegative | application/src/scanivalve/mps.cpp:681-682 | negative numbers are refused and change nothing |
| CommandResults.GetAnswersTheListedLine | application/src/scanivalve/mps.cpp:691-722 | GET answers the line that LIST S prints, and the serial number |
| CommandResults.ListAnswers | application/src/scanivalve/mps.cpp:726-770 | LIST in both spellings prints the listings and changes nothing |
| CommandResults.ListingsShow | application/src/scanivalve/mps.cpp:735-767 | which settings each listing shows |
| CommandResults.MissingQueries | application/src/scanivalve/mps.cpp:693-729 | GET and LIST without an argument are refused |
| CommandResults.UnknownGet | application/src/scanivalve/mps.cpp:691-773 | an unknown GET is refused and named |
| CommandResults.UnknownList | application/src/scanivalve/mps.cpp:726-773 | an unknown LIST is refused and named |
| Numbers.ScanDecimal | application/src/scanivalve/mps.cpp:592 | scanning with %d undoes printing |
| Numbers.ScanSigned | application/src/scanivalve/mps.cpp:592 | a sign before the digits is read |
| Numbers.StrtoulDecimal | application/src/scanivalve/mps.cpp:670-684 | strtoul with base 0 undoes printing, uses the whole token and never mistakes it for octal or hexadecimal |
| Numbers.StrtoulOverflow | application/src/scanivalve/mps.cpp:673-681 | a printed number beyond unsigned long is out of range |
| RoundTrip.RateLine | application/src/scanivalve/mps.cpp:567-582 | the printed rate is restored, with the sub-frame count that goes with it |
| RoundTrip.FormatLine | application/src/scanivalve/mps.cpp:634-647 | the FORMAT line, whose pairs hold tokens such as "A,", restores all three formats |
| RoundTrip.UnitsLine | application/src/scanivalve/mps.cpp:649-662 | the UNITS line restores the units, in spite of the factor behind them |
| RoundTrip.IpudpLine | application/src/scanivalve/mps.cpp:624-632 | the IPUDP line restores the target, and the port within the signed range |
| RoundTrip.SimLine | application/src/scanivalve/mps.cpp:664-687 | the SIM line restores the flags exactly when no earlier overflow is left in errno |
| RoundTrip.ListRestores | application/src/scanivalve/mps.cpp:726-769 | executing the three listings of one device, line by line and with the inert lines and prompts, gives any other device the same configuration, whatever each line meets |
| RoundTrip.ListRestoresIff | application/src/scanivalve/mps.cpp:726-769 | the round trip succeeds in every execution if and only if FPS and port fit their signed types and SIM can be set or need not be |
| RoundTrip.FpsMinusOne | application/src/scanivalve/mps.cpp:592 | SET FPS -1 stores 2^32 - 1 |
| RoundTrip.PortMinusOne | application/src/scanivalve/mps.cpp:629-630 | a port of -1 is stored as 2^16 - 1 |
| RoundTrip.SimOverflows | application/src/scanivalve/mps.cpp:670-682 | SET SIM with a number beyond unsigned long is refused and leaves the error flag set |
| RoundTrip.RoundTripCanFail | application/src/scanivalve/mps.cpp:726-769 | after any of these three commands, some execution of the listings does not restore what was listed |
| RoundTrip.LowerCaseSettings | application/src/scanivalve/mps.cpp:567-664 | all settings but ENFTP are recognized in lower case; a lower-case ENFTP line changes nothing |
| Mps.Mps.constructor | application/src/scanivalve/mps.h:93-112 | a new device |
| Mps.Mps.CalZ | application/src/scanivalve/mps.cpp:48-55 | in place, the function CalZ |
| Mps.Mps.UpdateScanAverages | application/src/scanivalve/mps.cpp:57-63 | only the sub-frame count changes, to that of the rate |
| Mps.Mps.ConfigureScanLayout | application/src/scanivalve/mps.cpp:65-137 | the nine layout fields become those of LayoutFor, which ScanResults.FramesAreLaidOut reads off the frames |
| Mps.Mps.StartScan | application/src/scanivalve/mps.cpp:199-227 | nothing when scanning, else a scan with layout and sub-frame count frozen from the configuration |
| Mps.Mps.StopScan | application/src/scanivalve/mps.cpp:245-262 | in place, the function StopScan |
| Mps.Mps.SetDataFormat | application/src/scanivalve/mps.cpp:161-188 | the formats accepted for each channel, in both cases |
| Mps.Mps.SetFormats | application/src/scanivalve/mps.cpp:636-644 | the loop over pairs computes the recursive SetFormats, failures included |
| Mps.Mps.SetSim | application/src/scanivalve/mps.cpp:664-687 | all four answers of SET SIM, and the sticky errno |
| Mps.Mps.Set | application/src/scanivalve/mps.cpp:562-688 | the whole SET branch: new state and answer |
| Mps.Mps.List | application/src/scanivalve/mps.cpp:726-770 | the listings, written line by line to a stream, are Print of Lines |
| Mps.Mps.ParseCommands | application/src/scanivalve/mps.cpp:530-774 | every command: new state and answer, as CommandResults spells them out |
| ScanThread.ScanThread.constructor | application/src/scanivalve/mps.cpp:264-270 | the thread's buffers, before its loop |
| ScanThread.ScanThread.TestCalibrating | application/src/scanivalve/mps.cpp:272-274 | one step of the thread |
| ScanThread.ScanThread.FinishCalibration | application/src/scanivalve/mps.cpp:276-282 | calibration ends with READY |
| ScanThread.ScanThread.EnterScan | application/src/scanivalve/mps.cpp:287-288 | reads the scan start, first frame |
| ScanThread.ScanThread.TestScanning | application/src/scanivalve/mps.cpp:290-309 | the loop test, and a new frame with cleared buffers and its times |
| ScanThread.ScanThread.SampleChannels | application/src/scanivalve/mps.cpp:315-319 | the loop adds one clamped sample to each physical channel and leaves the others alone; ScanResults.SumsAreOfDraws says what the sums are |
| ScanThread.ScanThread.TestSubFrame | application/src/scanivalve/mps.cpp:311-323 | one turn of the sub-frame loop, or its end |
| ScanThread.ScanThread.ResolveAverages | application/src/scanivalve/mps.cpp:328-336 | the loop resolves every physical channel and leaves the others zero |
| ScanThread.ScanThread.DeriveTemperatures | application/src/scanivalve/mps.cpp:338-339 | the loop derives the temperatures from the first channels and leaves the others zero |
| ScanThread.ScanThread.BuffersHoldFrame | application/src/scanivalve/mps.cpp:328-336 | the resolved buffers are the counts and pressures of the frame |
| ScanThread.ScanThread.Deliver | application/src/scanivalve/mps.cpp:328-494 | the frame that reaches the callbacks: number, times in 32-bit fields, counts or pressures, temperatures |
| ScanThread.ScanThread.TestLimit | application/src/scanivalve/mps.cpp:497-503 | the frame limit and the 32-bit frame counter |
| ScanResults.StatusIsSafe | application/src/scanivalve/mps.cpp:199-282 | over every interleaving: SCAN only while scanning, CALZ only while calibrating, neither gives READY, and a step that ends a scan leaves READY |
| ScanResults.StatusExactIff | application/src/scanivalve/mps.cpp:199-282 | for every run during which a scan goes on: its status is SCAN at the end if and only if it was at the beginning, nobody sent CALZ and no pending calibration ended |
| ScanResults.NoCalibrationPending | application/src/scanivalve/mps.cpp:274-282 | a scan that begins without a pending calibration sees none end unless somebody sends CALZ |
| ScanResults.CalZThenScanIsReady | application/src/scanivalve/mps.cpp:274-282 | CALZ, then SCAN: a reachable state that scans with status READY |
| ScanResults.CalibrationCompletes | application/src/scanivalve/mps.cpp:274-282 | a calibration ends with READY after two steps of the thread |
| ScanResults.BinaryBytesCommand | application/src/server-layer.cpp:276-281 | the bytes 1 and 0 do what SCAN and STOP do |
| ScanResults.AveragesReach500 | application/src/scanivalve/mps.cpp:57-63 | below 500 Hz, 500 <= rate * n < 500 + rate and n >= 1 |
| ScanResults.AveragesMatchRate | application/src/scanivalve/mps.cpp:574-577 | while a scan runs, the sub-frame count is that of the current rate, across any commands |
| ScanResults.SumsFit | application/src/scanivalve/mps.cpp:311-319 | the 64-bit accumulators never overflow, whatever happens to the rate |
| ScanResults.TruncatedMean | application/src/scanivalve/mps.cpp:330-331 | a truncated mean lies in the converter's range and within one count of the true mean |
| ScanResults.SampleKeepsIntegerPart | application/src/scanivalve/mps.cpp:511-518 | a draw in range loses its fraction towards zero, any other becomes the limit |
| ScanResults.SumsAreOfDraws | application/src/scanivalve/mps.cpp:311-319 | in every run there is one draw for each sub-frame taken, and each physical channel has the sum of exactly its own samples |
| ScanResults.FrameReportsMeans | application/src/scanivalve/mps.cpp:328-336 | a frame whose sub-frame count did not change reports, per channel, the truncated mean of exactly the samples drawn for it: the second clamp is the identity |
| ScanResults.ConstantSignal | application/src/scanivalve/mps.cpp:315-333 | a channel with the same whole count in every sub-frame reports this count |
| ScanResults.CountsStayInRange | application/src/scanivalve/mps.cpp:330-333 | no count of any frame leaves the converter's range, whatever happens to the sub-frame count |
| ScanResults.LayoutIsConsistent | application/src/scanivalve/mps.cpp:86-135 | the packet type has room for exactly the channels copied into it, in the last packet of a stopped scan as well; physical <= packet <= 64 |
| ScanResults.LayoutIsFrozen | application/src/scanivalve/mps.cpp:199-224 | nothing but the start of another scan changes the layout |
| ScanResults.PacketIsPadded | application/src/scanivalve/mps.cpp:299-486 | a packet is the physical channels followed by zeros, temperatures likewise |
| ScanResults.ReadingsAreProportional | application/src/scanivalve/mps.cpp:334-339 | full scale reads as the conversion factor, readings are proportional to counts, temperatures are 32 and the fraction |
| ScanResults.LayoutIsThatOfTheStart | application/src/scanivalve/mps.cpp:199-227 | over every run from the step that starts a scan, until another starts: its layout is that of the configuration at that step |
| ScanResults.FramesAreLaidOut | application/src/scanivalve/mps.cpp:65-137 | every frame of a scan, after a stop as well: LabVIEW if and only if the format was L, a packet if and only if the binary server, UDP or FTP asked for one at the start, raw by the units, padded to 64 and 8 with the legacy type by bit 6 of SIM, and else the 64/8, 32/4 or 16/4 channels of the device |
| ScanTiming.SubFramesFit | application/src/scanivalve/mps.cpp:294-323 | n truncated sub-frames never pass the truncated frame and miss it by less than n ns |
| ScanTiming.SubFramesFitFrame | application/src/scanivalve/mps.cpp:309-323 | the same for the times that the thread computes, in every run |
| ScanTiming.FramesAreChained | application/src/scanivalve/mps.cpp:287-503 | frames are numbered from 1, each starts where the one before ends, and the packet's two 32-bit time fields are its start, unless the scan is stale |
| ScanTiming.FieldsRecomposeIff | application/src/scanivalve/mps.cpp:396-397 | the time fields recompose to the elapsed time if and only if it is less than 2^32 seconds |
| ScanTiming.ConstantRateTiming | application/src/scanivalve/mps.cpp:294-297 | frame k + 1 starts exactly k truncated periods after the scan, less than k ns early; its packet says so if and only if the seconds have not wrapped |
| ScanTiming.TimesIncrease | application/src/scanivalve/mps.cpp:295-297 | the time fields of packets increase strictly before the seconds wrap, with nanoseconds below 10^9 |
| ScanTiming.FrameIsTimedIff | application/src/scanivalve/mps.cpp:287-297 | in every run in which a later scan starts at a later time: a frame carries the true time if and only if no scan was started since the thread entered its loop |
| ScanTiming.StaleScanIsMistimed | application/src/scanivalve/mps.cpp:287-295 | a run in which a frame's time lies before its scan |
| BoundedScan.ScanOfNFrames | application/src/scanivalve/mps.cpp:288-503 | with FPS = n and no client interfering, from the arrival of the scan command on: frames 1 to k <= n, the scan over only with all n, READY then in spite of CALZ |
| BoundedScan.ScanEnds | application/src/scanivalve/mps.cpp:290-503 | whatever rates are set meanwhile, the scan is over after a number of thread steps that depends on n alone, and the thread can always step |
| BoundedScan.ScanEndsWithin | application/src/scanivalve/mps.cpp:290-503 | while the sub-frame count stays within a bound, n * (bound + 4) + 3 steps of the thread suffice |
| BoundedScan.UnlimitedScanGoesOn | application/src/scanivalve/mps.cpp:500-501 | with FPS = 0 the thread never ends the scan |
| Buffers.Arena.New | aerolib/src/aero/core/buffer.h:59 | a fresh block; nothing else changes |
| Buffers.Arena.Delete | aerolib/src/aero/core/buffer.h:63-69 | a live block is released, once |
| Buffers.Buffer.Allocate | aerolib/src/aero/core/buffer.h:49-61 | releases what was held, then allocates; for zero bytes the size keeps its old value |
| Buffers.Buffer.Release | aerolib/src/aero/core/buffer.h:63-69 | the held block is released and the buffer is null |
| Buffers.Buffer.Zero | aerolib/src/aero/core/buffer.h:71-75 | the block holds zeros; other blocks are untouched |
| Buffers.Copy | aerolib/src/aero/core/buffer.h:33-47 | a block of its own with the same bytes |
| Ledger.LiveIsNeeded | aerolib/src/aero/networking/server.cpp:111-189 | with balanced books the live blocks are those of queue, flight and handlers, none shared |
| Streams.LiveBlocks | aerolib/src/aero/networking/server.cpp:111-189 | so it is between any two steps of the server |
| Streams.AllReleased | aerolib/src/aero/networking/server.cpp:111-189 | when queue and handlers are gone, every block ever allocated has been released once, and everything streamed has been sent |
| Streams.WordsAreSwapped | aerolib/src/aero/networking/utils.h:52-66 | in every 32-bit word the bytes change places |
| Streams.WhoGetsWhat | aerolib/src/aero/networking/server.cpp:202-230 | a connected client gets the bytes once and nobody else anything, an unknown id reaches nobody, 0 reaches all |
| Streams.WhoGetsAnswersAndFrames | application/src/server-layer.cpp:139-154 | who gets an answer, and in which form the binary client gets a frame |
| Streams.Streams.constructor | aerolib/src/aero/networking/server.cpp:8-61 | the books balance from the start |
| Streams.Streams.StreamTo | aerolib/src/aero/networking/server.cpp:262-275 | queues one datagram with the argument's bytes, releases the argument, keeps the books |
| Streams.Streams.SendBuffer | aerolib/src/aero/networking/server.cpp:202-230 | sends to one client, to all, or to nobody, and releases the argument on every path |
| Streams.Streams.SendString | aerolib/src/aero/networking/server.cpp:232 | sends a copy that does not outlive the call |
| Streams.Streams.OnScanFrame | application/src/server-layer.cpp:128-145 | exactly one datagram when UDP is on in binary, exactly one send when the binary client wants it, every buffer released |
| Streams.Streams.OnLabviewFrame | application/src/server-layer.cpp:147-158 | one send in network order when the binary client wants LabVIEW frames, every buffer released |
| Streams.Streams.Deliver | application/src/scanivalve/mps.cpp:365-493 | each callback gets a buffer of its own; exactly the datagram and the binary send that the configuration asks for |
| Streams.Streams.PopPacket | aerolib/src/aero/networking/server.cpp:158-169 | the oldest packet leaves the queue |
| Streams.Streams.SendPacket | aerolib/src/aero/networking/server.cpp:177-188 | the packet is sent and its buffer released |
| Streams.Streams.Connect | aerolib/src/aero/networking/server.cpp:98-101 | a connection is added to one server and nothing else changes |
| Streams.Streams.Disconnect | aerolib/src/aero/networking/server.cpp:192-200 | a connection is erased from one server and nothing else changes |
| Streams.Streams.StartHandler | aerolib/src/aero/networking/server.cpp:111-114 | the handler gets a receive buffer |
| Streams.Streams.Fill | aerolib/src/aero/networking/server.cpp:118-128 | the receive buffer holds the received bytes, then zeros |
| Streams.Streams.Receive | aerolib/src/aero/networking/server.cpp:116-144 | the callback sees exactly the bytes received, its copy is released, and at most one answer is sent |
| Streams.Streams.OnReceived | application/src/server-layer.cpp:218-285 | both data callbacks release the message; a refusal, prompt or response is sent, a silent keystroke sends nothing |
| Streams.Streams.EndHandler | aerolib/src/aero/networking/server.cpp:146 | the receive buffer is released |
| EndToEnd.StreamConserves | aerolib/src/aero/networking/server.cpp:156-188 | packets sent, in flight and queued are everything handed to StreamTo, in order and once, in every run |
| EndToEnd.DatagramsAreTheScan | application/src/server-layer.cpp:128-137 | while UDP stays on in binary, the datagrams end with the frames of the current scan, all of them, numbered 1, 2, 3, ... modulo the counter; over all scans there is one datagram per frame |
| EndToEnd.DatagramsOfNFrames | application/src/scanivalve/mps.cpp:288-503 | the datagrams of a scan of n frames carry 1 to k <= n, and 1 to n when it is over |
| EndToEnd.UdpLoopPays | aerolib/src/aero/networking/server.cpp:154-189 | over every run, moves of the UDP loop plus what is unsent balance with two moves for each parcel handed over |
| EndToEnd.UdpLoopDrains | aerolib/src/aero/networking/server.cpp:154-189 | while anything is unsent the UDP loop has a move, and after two moves per parcel everything given has been sent |
| EndToEnd.HandedWhere | application/src/server-layer.cpp:132-137 | a step hands over at most the frame it delivers, while UDP is on in binary, to the target of that moment |
| EndToEnd.NothingWhileOff | application/src/server-layer.cpp:132-137 | nothing is handed over while UDP is off or not binary |
| BinaryFeed.ClientGetsTheScan | application/src/server-layer.cpp:139-154 | while one client stays connected and the format stays binary or LabVIEW, it is sent every frame of the scan once, in order and in that form, whatever UDP and FTP are |
| BinaryFeed.SentWhere | application/src/server-layer.cpp:139-154 | a step sends at most the frame it delivers, to the connected client, in the form of that moment |

## Left out

- Sockets, `inet_*`, WSA and port handling: accept yields a nonzero id whose old handler is gone, recv
  yields bytes or fails, send always succeeds.
- `Server::Stop`: its loop erases from the map that it iterates over. The connection and stream models
  are about a running server.
- `SendData`, `SendDataToAll` and `StreamData`, which nothing calls, and `SendStringToAll`.
- Data races on unlocked maps and flags: a callback, `KickClient` or a command is one atomic step, and
  so is a piece of the scan thread between two loop tests.
- ControlModel takes the pool as a first-in-first-out queue and free workers, which is what
  PoolProofs.TasksConserved shows of it; it does not repeat the pool's mutex and condition variable.
- Sleeping and `sleep_until`: times are the computed ones, not those of a real clock.
- Random numbers and their distribution, PTP times, `strftime` and logging.
- Float rounding, and rates that are not positive or whose period does not fit an `int` in runs of the
  scan engine; Device gives such rates an undefined sub-frame count.
- RoundTrip.ListRestores: whole rates below 10^6 only, because six significant digits lose others; the
  float printing itself is an assumption of `Protocol.Valid()`.
- Byte offsets, sizes and constant fields of packets and the average temperature of LabVIEW frames: the
  header that lays them out is not part of this model. A frame carries its number, times, type, counts,
  pressures and temperatures.
- `errno` is one flag of the device, set by `strtoul` in SET SIM; other library calls could set it too.
- The prompts that status changes and connections send, and what the application does with the shutdown
  and restart commands that OnCommand hands to it.
- Application loop, layers, console thread, argument parsing, timers, hex dump and version commands.
