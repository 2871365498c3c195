# temubot motor panel: the single-command-in-flight coordinator

The temubot panel is a Tk window for a serial motor controller. It has:

- eight action buttons: Ping, Reset, Get Angle 1–3 and Move Motor 1–3;
- three angle sliders;
- a serial monitor transcript.

At most one command is in flight at a time:

- **Submitting.** `send_serial_command` sets `command_in_progress`, disables every action button and arms a 30 s timer (`after_id`). It then starts a writer thread that logs and writes the line.
- **Ending a command.** A command ends in one of two ways:
  - the reader thread sees a non-blank reply line and queues `handle_serial_response`, which cancels the timer;
  - the timer fires `handle_timeout`.
- **Failures.** A failed write queues `handle_timeout` as well. An unconnected port runs `handle_timeout` at once.

This project models that coordinator and proves what it guarantees. It has two layers.

**`Coordinator` (coordinator.dfy): the coordinator as values.**

- A `State` holds the flag, `after_id`, the button states, the transcript, the connection, the sliders, the reader's stop event and Tk's armed timers.
  - Timers are handed out in increasing order. `timers` holds the ones armed and neither fired nor cancelled.
  - The state also holds Tk's idle queue, the writer threads not yet run, what was written and the dialogs shown.
- There is one function per handler.
- Everything concurrent becomes an `Event` delivered one at a time by `Step`; `Run` delivers a run of them. The events are:
  - a click or a slider drag;
  - the k-th pending writer thread running with a write outcome (any pending writer may run next; once the port is closed the write raises, so only a failed write can happen);
  - one pass of the reader loop with a read outcome;
  - Tk running its oldest idle callback;
  - a timer firing;
  - the window closing.

**`App.SerialApp` (serial_app.dfy): the panel as an object.**

- It has the same fields. The button states and the slider values are arrays updated in place by `SetButtonState` and `ResetSliders`.
- Each handler is proved to move `Snapshot()` exactly as the matching `Coordinator` function says. Every lemma about the functions therefore holds of the object.
- `MainLoop` delivers a run of events and keeps `Coordinator.Inv`, which says:
  - buttons are enabled exactly when no command is in flight;
  - `after_id` names the newest timer;
  - a command in flight has its own timer armed;
  - the sliders stay in range.

**Supporting modules.**

- `Commands` (commands.dfy) holds the command lines, the slider angle as an integer count of hundredths of a degree, and its rendering.
  - `Decode` is a controller's reading of a line. It is the reference that shows each line names exactly one command.
- `Text` (text.dfy) models Python's `str.strip()` and decimal rendering.
- `Scenarios` (scenarios.dfy) proves whole runs of events.

**The stale timer.** `handle_timeout` never cancels its timer and never clears `after_id`. So a command that ends in any way other than a response or its own timer firing leaves its timer armed: the disconnected path, the write-failure path, and a command ended early by an older timer (its own timer stays armed, `StaleTimerEndsNewerCommand`). When such a timer fires later, it ends whatever command is in flight, even though that command's own timer is still armed. The model keeps this (`StaleTimerEndsNewerCommand`, `StaleTimerEndsNextCommand`).

**Other behaviour of the code that the model keeps.**

- Received lines are stripped at both ends with `str.strip()`.
- Writer threads can overlap, and their writes can reach the port in the opposite order to the clicks (`WritersOverlap`, `WritesCanReorder`). This happens whenever a command ends before its writer has run and the next command is submitted: a timeout does this, and so does a reply to an earlier command (`LateReplyEndsNextCommand` ends with the next command's writer still pending).
- `handle_serial_response` is the only place a timer is cancelled; `handle_timeout` cancels none.
- The reader stops on any exception raised in its loop.
- Replies are not tied to commands. A late reply read after the next command has been submitted ends that command (`LateReplyEndsNextCommand`); one read while the panel is idle is only logged (`ReaderLine`). Two replies read during one command queue two response handlers, and the second ends a command submitted in between (`SecondReplyEndsNextCommand`).

## Model

| member | source | states |
|---|---|---|
| Text.Strip | temubot/temubot_gui.py:280 | Python's `str.strip()` with the `isspace` character set; specified by StripSlice, StripEmpty, StripIdempotent and StripLine |
| Text.NatToString | temubot/temubot_gui.py:341-348 | Python's `str(n)` for a natural number: digits with no leading zero; DigitsValueOfNatToString reads it back |
| Commands.FormatAngle | temubot/temubot_gui.py:344-346 | Python's rendering of the slider value Tk returns (two decimals, shortest form such as "12.5" or "0.0"): digits, a point, an optional sign; FormatAngleRoundTrip reads it back exactly |
| Coordinator.SetButtons | temubot/temubot_gui.py:309-312 | set_button_state: every action button takes one state; AllDisabled in SubmitWhileConnected, AllEnabled in TimeoutEndsCommand and ResponseEndsCommand |
| Coordinator.RunWriter | temubot/temubot_gui.py:301-304 | one started writer thread, any of those pending, runs send_command; FailedWriteQueuesTimeout, WriteFailureRecovers, WriterPreservesInv, WriterExtendsHistory, WritesCanReorder |
| Coordinator.MoveSlider | temubot/temubot_gui.py:58-84 | the user drags one slider and the scale clamps the value; ClampAngle, ClampIsNearest, and the slider-range part of Inv through StepPreservesInv |
| Coordinator.Step | temubot/temubot_gui.py:293-355 | Tk delivering one event to the panel, where a writer running on a closed port can only fail; StepPreservesInv, StepExtendsHistory, ClosedPortWriteFails |
| Coordinator.Run | temubot/temubot_gui.py:293-355 | Tk delivering a run of events; RunPreservesInv, ButtonsEnabledExactlyWhenIdle, HistoryOnlyGrows, and every lemma of Scenarios |
| Coordinator.Init | temubot/temubot_gui.py:24-39 | the panel after start-up; InitEstablishesInv |
| Coordinator.Submit | temubot/temubot_gui.py:293-307 | send_serial_command; SubmitWhileBusy, SubmitWhileConnected, SubmitWhileDisconnected, SubmitPreservesInv, SubmitExtendsHistory |
| Coordinator.HandleTimeout | temubot/temubot_gui.py:314-319 | handle_timeout; TimeoutEndsCommand, TimeoutWhileIdle, TimeoutIdempotent, ResponseTimeoutRace |
| Coordinator.HandleResponse | temubot/temubot_gui.py:332-339 | handle_serial_response; ResponseEndsCommand, ResponseWhileIdle, ResponseIdempotent, ResponseTimeoutRace |
| Coordinator.SendCommand | temubot/temubot_gui.py:321-330 | send_command, the writer thread's body; WritePath, FailedWriteQueuesTimeout, WriterPreservesInv, WriterExtendsHistory |
| Coordinator.RunIdle | temubot/temubot_gui.py:285-330 | Tk running the oldest after_idle callback, the handle_serial_response the reader queues or the handle_timeout a failed write queues; QueuedTimeoutEndsCommand, QueuedTimeoutRecovers, SecondReplyEndsNextCommand, IdlePreservesInv |
| Coordinator.FireTimer | temubot/temubot_gui.py:299 | the 30 s timer firing handle_timeout; StaleTimerEndsNewerCommand, ButtonsEnabledExactlyWhenIdle |
| Coordinator.ReaderStep | temubot/temubot_gui.py:276-291 | one pass of serial_reader's loop; ReaderLine, ReaderFailure, ReaderPreservesInv |
| Coordinator.ReadAll | temubot/temubot_gui.py:273-291 | serial_reader's loop over a run of poll outcomes; StoppedReaderIsInert, ReadAllAppend, ReadAllStopsAtFailure |
| Coordinator.ResetSliders | temubot/temubot_gui.py:233-237 | reset_sliders; ResetZeroesSliders |
| Coordinator.MoveMotorCommand | temubot/temubot_gui.py:341-348 | move_motor; MoveMotorButtonSends |
| Coordinator.Press | temubot/temubot_gui.py:103-190 | the action buttons' commands; PingButtonSends, GetAngleButtonSends, MoveMotorButtonSends, ResetButtonResets, ClickWhileBusy |
| Coordinator.OnClosing | temubot/temubot_gui.py:350-355 | on_closing sets the stop event and closes the port; StoppedReaderIsInert, ClosedPortWritesNothing, HistoryOnlyGrows |
| Text.StripSlice | temubot/temubot_gui.py:280 | the stripped line is the slice of the read text between its leading and trailing whitespace, and starts and ends with a non-space |
| Text.StripEmpty | temubot/temubot_gui.py:280-281 | the stripped line is empty exactly when the read text is all whitespace, which is when the reader logs nothing |
| Text.StripIdempotent | temubot/temubot_gui.py:280 | stripping an already stripped line changes nothing |
| Text.StripLine | temubot/temubot_gui.py:280 | a line with no surrounding whitespace, followed by any line ending ("\n", "\r\n"), strips back to itself |
| Text.DigitsValueOfNatToString | temubot/temubot_gui.py:341-348 | the decimal text put into a command line reads back as the same number |
| Commands.ClampAngle | temubot/temubot_gui.py:58-84 | a slider value always lies in -720.00..720.00 degrees, and a value already in range is kept |
| Commands.ClampIsNearest | temubot/temubot_gui.py:58-84 | the clamped slider value is the in-range value closest to the requested one |
| Commands.FormatAngleRoundTrip | temubot/temubot_gui.py:344-346 | the angle text in a move command reads back as exactly the slider's value, with nothing rounded away |
| Commands.Encode | temubot/temubot_gui.py:103-190 | every command line is one line: it ends in its only newline and has no surrounding whitespace before it |
| Commands.DecodeEncode | temubot/temubot_gui.py:103-190 | every ping, get-angle and move line the panel builds reads back as the command it was built from |
| Commands.EncodeInjective | temubot/temubot_gui.py:103-190 | distinct commands are written as distinct lines |
| Commands.StripEncode | temubot/temubot_gui.py:324 | stripping a command line before logging it removes exactly its newline |
| Coordinator.ButtonAt | temubot/temubot_gui.py:195-204 | the get-angle and move buttons name motors 1 to 3 |
| Coordinator.InitEstablishesInv | temubot/temubot_gui.py:24-39 | at start-up no command is in flight, all buttons are enabled, the invariant holds, and the port is connected exactly when opening it succeeded |
| Coordinator.SubmitWhileBusy | temubot/temubot_gui.py:295 | while a command is in flight, a submission changes nothing: no timer, no button change, no line, no write |
| Coordinator.SubmitWhileConnected | temubot/temubot_gui.py:293-304 | when idle and connected: in flight; all eight buttons disabled, Reset included; a fresh timer armed and named by after_id; one writer started; nothing else changes |
| Coordinator.SubmitWhileDisconnected | temubot/temubot_gui.py:299-319 | when idle and not connected: one dialog, then idle again with buttons enabled and exactly one timeout line; the timer armed on the way stays armed and after_id names it; nothing else changes |
| Coordinator.TimeoutEndsCommand | temubot/temubot_gui.py:314-319 | in flight: the flag clears, buttons come back, one timeout line; the timer set and after_id are untouched; nothing else changes |
| Coordinator.TimeoutWhileIdle | temubot/temubot_gui.py:316 | when idle, handle_timeout does nothing |
| Coordinator.TimeoutIdempotent | temubot/temubot_gui.py:314-319 | a second handle_timeout does nothing more |
| Coordinator.ResponseEndsCommand | temubot/temubot_gui.py:332-339 | in flight: the timer after_id names is cancelled, after_id cleared, the flag clears, buttons come back, and no line is logged |
| Coordinator.ResponseWhileIdle | temubot/temubot_gui.py:334 | when idle, handle_serial_response does nothing |
| Coordinator.ResponseIdempotent | temubot/temubot_gui.py:332-339 | a second handle_serial_response does nothing more |
| Coordinator.ResponseTimeoutRace | temubot/temubot_gui.py:314-339 | of a response and a timeout for one command, the first to run ends it and the second leaves the whole state unchanged; only the timeout logs a line |
| Coordinator.WritePath | temubot/temubot_gui.py:321-330 | a writer logs "Sending: " and the stripped command before writing; a failed write logs the error and queues handle_timeout; the coordinator's flag, buttons and timers do not move |
| Coordinator.SendingLineOfCommand | temubot/temubot_gui.py:324 | the line logged for any command the panel builds is the command without its newline |
| Coordinator.WriteFailureRecovers | temubot/temubot_gui.py:314-330 | after a failed write and the queued callback, the panel is idle with every button enabled, and the failed command's timer stays armed |
| Coordinator.QueuedTimeoutRecovers | temubot/temubot_gui.py:314-330 | a queued handle_timeout leaves the panel idle, logging the timeout line only if a command was in flight |
| Coordinator.QueuedTimeoutEndsCommand | temubot/temubot_gui.py:328-330 | whatever else is pending, once Tk reaches a queued handle_timeout the panel is idle, every button is enabled and the invariant still holds |
| Coordinator.FailedWriteQueuesTimeout | temubot/temubot_gui.py:326-330 | a failed write logs the sending and error lines and queues exactly one handle_timeout, leaving the flag, buttons and timers as they were |
| Coordinator.ReaderLine | temubot/temubot_gui.py:279-285 | a read line is logged, stripped, only if it is not blank; a response callback is queued only if a command is in flight at that moment; the reader changes nothing else |
| Coordinator.ReaderFailure | temubot/temubot_gui.py:289-291 | any failure in the loop logs "Communication error: " and the error, and sets the stop event |
| Coordinator.StoppedReaderIsInert | temubot/temubot_gui.py:275 | once the stop event is set, no later poll logs or queues anything |
| Coordinator.ReadAllAppend | temubot/temubot_gui.py:275-291 | reading a run of poll outcomes in two parts is the same as reading it at once |
| Coordinator.ReadAllStopsAtFailure | temubot/temubot_gui.py:275-291 | after a failure the reader never resumes: later outcomes have no effect |
| Coordinator.SecondReplyEndsNextCommand | temubot/temubot_gui.py:281-285 | two reply lines read during one command queue two response handlers; the first ends that command, and the second ends a command submitted in between, cancelling its timer |
| Coordinator.ResetZeroesSliders | temubot/temubot_gui.py:233-237 | every slider reads 0, exactly one line is logged, and nothing else changes: nothing is submitted or written |
| Coordinator.ClickWhileBusy | temubot/temubot_gui.py:297-312 | while a command is in flight every button, Reset included, is disabled, so a click does nothing |
| Coordinator.PingButtonSends | temubot/temubot_gui.py:103 | the Ping button starts a writer for exactly "ping\n" |
| Coordinator.GetAngleButtonSends | temubot/temubot_gui.py:131-153 | the Get Angle n button starts a writer for exactly "get angle n\n" |
| Coordinator.MoveMotorButtonSends | temubot/temubot_gui.py:341-348 | Move Motor n leaves the sliders unchanged and starts a writer whose line reads back as a move of motor n to slider n's angle |
| Coordinator.ResetButtonResets | temubot/temubot_gui.py:116 | an enabled Reset button only resets the sliders |
| Coordinator.StaleTimerEndsNewerCommand | temubot/temubot_gui.py:299-319 | a timer left armed by an earlier command ends a newer command when it fires, while after_id still names the newer command's timer, which stays armed |
| Coordinator.SubmitPreservesInv | temubot/temubot_gui.py:293-307 | a submission keeps the coordinator's invariant |
| Coordinator.PressPreservesInv | temubot/temubot_gui.py:293-307 | any click keeps the invariant |
| Coordinator.WriterPreservesInv | temubot/temubot_gui.py:321-330 | a writer thread keeps the invariant |
| Coordinator.ReaderPreservesInv | temubot/temubot_gui.py:275-291 | a reader pass keeps the invariant |
| Coordinator.IdlePreservesInv | temubot/temubot_gui.py:314-339 | a queued callback keeps the invariant |
| Coordinator.StepPreservesInv | temubot/temubot_gui.py:293-355 | every event keeps the invariant |
| Coordinator.RunPreservesInv | temubot/temubot_gui.py:293-355 | every run of events keeps the invariant |
| Coordinator.ButtonsEnabledExactlyWhenIdle | temubot/temubot_gui.py:293-339 | from start-up, whatever happens: buttons are enabled exactly when no command is in flight, and a command in flight has its own timer armed, whose firing ends it |
| Coordinator.ClosedPortWritesNothing | temubot/temubot_gui.py:320-355 | once on_closing has closed the port, it stays closed and no later event writes a line to it; a writer that runs afterwards fails and logs its error |
| Coordinator.ClosedPortWriteFails | temubot/temubot_gui.py:320-330 | a writer that runs after the port is closed logs its line and then the communication error, queues handle_timeout and writes nothing |
| Coordinator.HistoryOnlyGrows | temubot/temubot_gui.py:261-355 | over any run of events, the transcript, the lines written and the dialogs only grow, and the stop event is never cleared |
| Coordinator.StepExtendsHistory | temubot/temubot_gui.py:261-355 | one event only extends the transcript, the writes and the dialogs, and never clears the stop event |
| Coordinator.ReaderExtendsHistory | temubot/temubot_gui.py:275-291 | a reader pass only extends the transcript, the writes and the dialogs, and never clears the stop event |
| Coordinator.IdleExtendsHistory | temubot/temubot_gui.py:314-339 | a queued callback only extends the transcript, the writes and the dialogs, and leaves the stop event as it was |
| Coordinator.WriterExtendsHistory | temubot/temubot_gui.py:321-330 | a writer only extends the transcript, the writes and the dialogs, and leaves the stop event as it was |
| Coordinator.PressExtendsHistory | temubot/temubot_gui.py:293-307 | a click only extends the transcript, the writes and the dialogs, and never clears the stop event |
| Coordinator.SubmitExtendsHistory | temubot/temubot_gui.py:293-307 | a submission only extends the transcript, the writes and the dialogs, and never clears the stop event |
| App.SerialApp.constructor | temubot/temubot_gui.py:24-39 | the new panel is the coordinator's start-up state: one waiting line, then the connected line or the connection dialog; the invariant holds and both arrays are fresh, so a client can hand the new panel to MainLoop at once (StartPanel) |
| App.SerialApp.AppendToDisplay | temubot/temubot_gui.py:261-271 | exactly one line is added to the transcript, and nothing else changes |
| App.SerialApp.SetButtonState | temubot/temubot_gui.py:309-312 | every action button takes the given state, and nothing else changes |
| App.SerialApp.After | temubot/temubot_gui.py:299 | a fresh timer is armed and its handle returned |
| App.SerialApp.HandleTimeout | temubot/temubot_gui.py:314-319 | the object moves as Coordinator.HandleTimeout says |
| App.SerialApp.SendSerialCommand | temubot/temubot_gui.py:293-307 | the object moves as Coordinator.Submit says |
| App.SerialApp.SendCommand | temubot/temubot_gui.py:321-330 | the object moves as Coordinator.SendCommand says |
| App.SerialApp.RunWriter | temubot/temubot_gui.py:301-304 | the chosen writer thread leaves the pending ones and runs send_command |
| App.SerialApp.HandleSerialResponse | temubot/temubot_gui.py:332-339 | the object moves as Coordinator.HandleResponse says |
| App.SerialApp.RunIdleCallback | temubot/temubot_gui.py:314-339 | the oldest queued callback runs, as Coordinator.RunIdle says |
| App.SerialApp.FireTimer | temubot/temubot_gui.py:314-319 | an armed timer is disarmed and runs handle_timeout |
| App.SerialApp.ReaderStep | temubot/temubot_gui.py:276-291 | one pass of the reader loop moves the object as Coordinator.ReaderStep says |
| App.SerialApp.SerialReader | temubot/temubot_gui.py:273-291 | the loop over poll outcomes ends in the state Coordinator.ReadAll gives, including when it stops early on a failure |
| App.SerialApp.ResetSliders | temubot/temubot_gui.py:233-237 | the slider array is zeroed in place and one line is logged |
| App.SerialApp.MoveSlider | temubot/temubot_gui.py:58-84 | one slider takes the clamped value |
| App.SerialApp.MoveMotor | temubot/temubot_gui.py:341-348 | submits the move line for slider n's value |
| App.SerialApp.Click | temubot/temubot_gui.py:195-204 | a click runs the enabled button's command, as Coordinator.Press says |
| App.SerialApp.OnClosing | temubot/temubot_gui.py:350-355 | the stop event is set and the port is closed |
| App.SerialApp.Deliver | temubot/temubot_gui.py:293-355 | one event moves the object as Coordinator.Step says |
| App.SerialApp.MainLoop | temubot/temubot_gui.py:293-355 | a run of events moves the object as Coordinator.Run says and keeps the invariant |
| App.StartPanel | temubot/temubot_gui.py:358-363 | the program's entry point: a fresh panel built on the connection outcome and run through the events Tk delivers ends in Coordinator.Run of the start-up state, with the invariant holding |
| Scenarios.StartsQuiet | temubot/temubot_gui.py:239-253 | a panel whose port opened starts idle, connected, with nothing pending |
| Scenarios.PingWhileDisconnected | temubot/temubot_gui.py:293-307 | after a failed open, Ping shows a second dialog, logs one timeout line, writes nothing, and leaves every button enabled |
| Scenarios.NoReplyTimesOut | temubot/temubot_gui.py:293-330 | Get Angle 1, written, then no reply: the timer ends the command with "Sending: get angle 1" and the timeout line, and the panel is idle again |
| Scenarios.ReplyCancelsTimer | temubot/temubot_gui.py:273-291 | Get Angle 2 answered by "90.0\r\n": exactly one Received line, the command's timer is cancelled, and the panel is idle, leaving none of its own timers armed |
| Scenarios.StaleTimerEndsNextCommand | temubot/temubot_gui.py:314-330 | a failed Ping leaves its timer armed; it fires during the next Get Angle 1 and ends it, leaving that command's own timer armed |
| Scenarios.LateReplyEndsNextCommand | temubot/temubot_gui.py:273-339 | a Ping reply that arrives after the Ping timed out ends the next command, Get Angle 1, before that command's line is even written |
| Scenarios.WritersOverlap | temubot/temubot_gui.py:293-319 | when a command times out before its writer runs, the next command starts a second writer while the first is still pending |
| Scenarios.WritesCanReorder | temubot/temubot_gui.py:301-330 | two such writers can write their lines in the opposite order to the clicks |

## Left out

- Tk widget construction, layout, colours and scrolling are not modelled. The text widget's enabling and disabling around an insert is not modelled either. The transcript is a sequence of lines.
- The serial port is represented only by outcomes, supplied as event parameters:
  - opening succeeds or fails with a message;
  - a write succeeds or fails;
  - a poll finds nothing, reads a line, or fails.
  The baud rate, the 0.1 s read timeout and the 2 s settle sleep after opening are not modelled.
- Threads are not modelled as concurrent. Each writer thread run and each pass of the reader loop is one atomic event; interleavings inside them are not modelled.
- `append_to_display` goes through `root.after(0, …)`. The model appends the line at once, so it does not capture a log line overtaking another that was queued earlier.
- No clock is modelled. The 30000 ms duration is not modelled: a timer may fire at any moment after it is armed, in any order relative to other timers.
- The reader's 10 ms sleep and its busy loop while no port is open are left out, because they change no state.
- Decoding bytes as UTF-8 is not modelled. A decoding failure is one of the read failures; lines are text.
- A slider value is modelled as an integer count of hundredths of a degree, the scale's resolution.
  - `FormatAngle` models Python's shortest rendering of that value (for example "12.5" and "0.0"). Binary floating point is not modelled.
- `Commands.Decode` is not in the panel. The controller that reads the lines is not part of this model; `Decode` is a reference reading used to show that the command lines are unambiguous.
- Dialogs are recorded as the title and text they show. Their modal wait, and any events Tk runs during it, are not modelled.
- `on_closing` calls `root.destroy()`. Destroying the window, and any events a real panel would no longer receive after it, are not modelled. Events after closing are still accepted. They see a stopped reader and a closed port: a command clicked while idle shows the not-connected dialog, and a writer thread still pending can only fail, logging its error and queueing handle_timeout (ClosedPortWritesNothing).
- Tk's `after` returns string handles, which are always truthy. The model numbers them and tests `after_id` for presence.
