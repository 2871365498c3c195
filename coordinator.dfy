/**
 * The single-command-in-flight coordinator of the motor control panel, as
 * values: one State per moment and one transition function per handler.
 * These functions are the specification the SerialApp class is proved
 * against; the lemmas below state what the handlers guarantee.
 *
 * Tk's timers (`after`, `after_cancel`), its idle queue (`after_idle`), the
 * writer threads and the reader thread are events, delivered one at a time
 * by Step. Timer handles are numbers handed out in increasing order.
 */
module Coordinator {
  import opened Wrappers
  import opened Text
  import opened Commands

  // Transcript lines and dialogs, as the panel writes them.

  const Port: string := "/dev/ttyACM0"
  const WaitingLine: string := "Waiting for serial connection..."
  const ConnectedLine: string := "Connected to " + Port + " at 9600 baud.\n"
  const TimeoutLine: string := "Timeout occurred: No response received."
  const ResetLine: string := "All sliders have been reset to 0.0."

  function SendingLine(command: string): string {
    "Sending: " + Strip(command)
  }

  function ReceivedLine(line: string): string {
    "Received: " + line
  }

  function ErrorLine(error: string): string {
    "Communication error: " + error
  }

  datatype Dialog = Dialog(title: string, message: string)

  const NotConnectedDialog: Dialog := Dialog("Error", "Serial port is not connected.")

  function ConnectFailedDialog(error: string): Dialog {
    Dialog("Serial Connection Error", "Failed to connect to " + Port + ":\n" + error)
  }

  // The eight action buttons, in the order the panel lists them.

  const ButtonCount: nat := 8

  datatype Button = PingButton | ResetButton | GetAngleButton(motor: nat) | MoveMotorButton(motor: nat)

  function ButtonAt(b: nat): (r: Button)
    requires b < ButtonCount
    ensures r.GetAngleButton? ==> IsMotor(r.motor)
    ensures r.MoveMotorButton? ==> IsMotor(r.motor)
  {
    if b == 0 then PingButton
    else if b == 1 then ResetButton
    else if b < 5 then GetAngleButton(b - 1)
    else MoveMotorButton(b - 4)
  }

  // What the outside world does: the serial port's answers and the user's input.

  datatype ConnectOutcome = Opened | OpenFailed(error: string)
  datatype WriteOutcome = Written | WriteFailed(error: string)
  datatype ReadOutcome = NothingWaiting | LineRead(text: string) | ReadFailed(error: string)

  /** A callback waiting in Tk's idle queue. */
  datatype Callback = TimeoutCallback | ResponseCallback

  datatype State = State(
    inProgress: bool,          // command_in_progress
    afterId: Option<nat>,      // after_id: the handle of the last armed timer
    timers: set<nat>,          // handles of armed timers that have neither fired nor been cancelled
    nextTimer: nat,            // the handle Tk gives the next timer
    buttons: seq<bool>,        // enabled state of each action button
    transcript: seq<string>,   // lines shown in the serial monitor
    connected: bool,           // a port is open
    sliders: seq<int>,         // slider values, hundredths of a degree
    stopped: bool,             // the reader's stop event is set
    idleQueue: seq<Callback>,  // callbacks handed to after_idle, not yet run
    writers: seq<string>,      // writer threads started and not yet run, with their command
    written: seq<string>,      // what has been written to the port
    dialogs: seq<Dialog>)      // error dialogs shown

  /** The panel once its window and its serial port are set up. */
  function Init(outcome: ConnectOutcome): State {
    State(
      inProgress := false, afterId := None, timers := {}, nextTimer := 0,
      buttons := seq(ButtonCount, _ => true),
      transcript := [WaitingLine] + (if outcome.Opened? then [ConnectedLine] else []),
      connected := outcome.Opened?,
      sliders := seq(MotorCount, _ => 0),
      stopped := false, idleQueue := [], writers := [], written := [],
      dialogs := if outcome.OpenFailed? then [ConnectFailedDialog(outcome.error)] else [])
  }

  function SetButtons(s: State, enabled: bool): State {
    s.(buttons := seq(|s.buttons|, _ => enabled))
  }

  /** handle_timeout: end the command in flight, if any; the timer is left alone. */
  function HandleTimeout(s: State): State {
    if s.inProgress then
      SetButtons(s.(inProgress := false), true).(transcript := s.transcript + [TimeoutLine])
    else s
  }

  /** send_serial_command: start a command unless one is in flight. */
  function Submit(s: State, command: string): State {
    if s.inProgress then s
    else
      var armed := SetButtons(s.(inProgress := true), false)
        .(afterId := Some(s.nextTimer), timers := s.timers + {s.nextTimer}, nextTimer := s.nextTimer + 1);
      if s.connected then armed.(writers := s.writers + [command])
      else HandleTimeout(armed.(dialogs := s.dialogs + [NotConnectedDialog]))
  }

  /** send_command, the body of a writer thread. */
  function SendCommand(s: State, command: string, outcome: WriteOutcome): State {
    var logged := s.(transcript := s.transcript + [SendingLine(command)]);
    match outcome
    case Written => logged.(written := s.written + [command])
    case WriteFailed(e) =>
      logged.(transcript := logged.transcript + [ErrorLine(e)], idleQueue := s.idleQueue + [TimeoutCallback])
  }

  /** The k-th started writer thread runs. */
  function RunWriter(s: State, k: nat, outcome: WriteOutcome): State
    requires k < |s.writers|
  {
    SendCommand(s.(writers := s.writers[..k] + s.writers[k + 1..]), s.writers[k], outcome)
  }

  /** handle_serial_response: cancel the last armed timer and end the command in flight. */
  function HandleResponse(s: State): State {
    if s.inProgress then
      var cancelled := if s.afterId.Some? then s.(timers := s.timers - {s.afterId.value}, afterId := None) else s;
      SetButtons(cancelled.(inProgress := false), true)
    else s
  }

  /** Tk runs the oldest callback of its idle queue. */
  function RunIdle(s: State): State {
    if s.idleQueue == [] then s
    else
      var rest := s.(idleQueue := s.idleQueue[1..]);
      match s.idleQueue[0]
      case TimeoutCallback => HandleTimeout(rest)
      case ResponseCallback => HandleResponse(rest)
  }

  /** Tk fires armed timer t, whose callback is always handle_timeout. */
  function FireTimer(s: State, t: nat): State {
    if t in s.timers then HandleTimeout(s.(timers := s.timers - {t})) else s
  }

  /** One pass of the reader thread's loop. */
  function ReaderStep(s: State, outcome: ReadOutcome): State {
    if s.stopped || !s.connected then s
    else
      match outcome
      case NothingWaiting => s
      case LineRead(text) =>
        var line := Strip(text);
        if line == [] then s
        else s.(transcript := s.transcript + [ReceivedLine(line)],
                idleQueue := if s.inProgress then s.idleQueue + [ResponseCallback] else s.idleQueue)
      case ReadFailed(e) => s.(transcript := s.transcript + [ErrorLine(e)], stopped := true)
  }

  /** The reader's loop over a run of poll outcomes, with nothing else happening meanwhile. */
  function ReadAll(s: State, outcomes: seq<ReadOutcome>): State
    decreases |outcomes|
  {
    if outcomes == [] then s
    else ReaderStep(ReadAll(s, outcomes[..|outcomes| - 1]), outcomes[|outcomes| - 1])
  }

  /** reset_sliders: every slider back to zero, and one line in the transcript. */
  function ResetSliders(s: State): State {
    s.(sliders := seq(|s.sliders|, _ => 0), transcript := s.transcript + [ResetLine])
  }

  /** The user drags slider i; the Tk scale keeps the value in range. */
  function MoveSlider(s: State, i: nat, value: int): State {
    if i < |s.sliders| then s.(sliders := s.sliders[i := ClampAngle(value)]) else s
  }

  /** move_motor: submit the move to the angle slider n currently shows. */
  function MoveMotorCommand(s: State, n: nat): State
    requires IsMotor(n) && |s.sliders| == MotorCount
  {
    Submit(s, Encode(MoveMotor(n, s.sliders[n - 1])))
  }

  /** A click on button b; Tk ignores clicks on a disabled button. */
  function Press(s: State, b: nat): State {
    if b < ButtonCount && b < |s.buttons| && s.buttons[b] then
      match ButtonAt(b)
      case PingButton => Submit(s, Encode(Ping))
      case ResetButton => ResetSliders(s)
      case GetAngleButton(n) => Submit(s, Encode(GetAngle(n)))
      case MoveMotorButton(n) => if |s.sliders| == MotorCount then MoveMotorCommand(s, n) else s
    else s
  }

  /** on_closing: stop the reader and close the port. */
  function OnClosing(s: State): State {
    s.(stopped := true, connected := false)
  }

  datatype Event =
    | Click(button: nat)
    | Slide(slider: nat, value: int)
    | WriterRuns(writer: nat, writeOutcome: WriteOutcome)
    | ReaderPolls(readOutcome: ReadOutcome)
    | IdleRuns
    | TimerFires(timer: nat)
    | WindowClosed

  /**
   * Writer k exists and its outcome is possible: once the port is closed a
   * write raises, so only a failed write can happen.
   */
  predicate WriterCanRun(s: State, k: nat, o: WriteOutcome) {
    k < |s.writers| && (s.connected || o.WriteFailed?)
  }

  function Step(s: State, e: Event): State {
    match e
    case Click(b) => Press(s, b)
    case Slide(i, v) => MoveSlider(s, i, v)
    case WriterRuns(k, o) => if WriterCanRun(s, k, o) then RunWriter(s, k, o) else s
    case ReaderPolls(o) => ReaderStep(s, o)
    case IdleRuns => RunIdle(s)
    case TimerFires(t) => FireTimer(s, t)
    case WindowClosed => OnClosing(s)
  }

  /** The events delivered in order, the last one last. */
  function Run(s: State, events: seq<Event>): State
    decreases |events|
  {
    if events == [] then s else Step(Run(s, events[..|events| - 1]), events[|events| - 1])
  }

  // The coordinator's invariant

  predicate AllEnabled(s: State) {
    forall b :: 0 <= b < |s.buttons| ==> s.buttons[b]
  }

  predicate AllDisabled(s: State) {
    forall b :: 0 <= b < |s.buttons| ==> !s.buttons[b]
  }

  /**
   * Buttons are enabled exactly when no command is in flight; after_id names
   * the newest timer; a command in flight always has its own timer armed, so
   * the panel cannot stay disabled; the sliders stay in range.
   */
  predicate Inv(s: State) {
    && |s.buttons| == ButtonCount && |s.sliders| == MotorCount
    && (forall b :: 0 <= b < |s.buttons| ==> s.buttons[b] == !s.inProgress)
    && (forall t :: t in s.timers ==> t < s.nextTimer)
    && (s.afterId.Some? ==> s.afterId.value + 1 == s.nextTimer)
    && (s.inProgress ==> s.afterId.Some? && s.afterId.value in s.timers)
    && (forall i :: 0 <= i < |s.sliders| ==> MinAngle <= s.sliders[i] <= MaxAngle)
  }

  lemma InitEstablishesInv(outcome: ConnectOutcome)
    ensures Inv(Init(outcome))
    ensures !Init(outcome).inProgress && AllEnabled(Init(outcome))
    ensures Init(outcome).connected <==> outcome.Opened?
  {
  }

  // send_serial_command

  /** While a command is in flight, a submission changes nothing at all. */
  lemma SubmitWhileBusy(s: State, command: string)
    requires s.inProgress
    ensures Submit(s, command) == s
  {
  }

  /**
   * Idle and connected: the command goes in flight, every button (Reset
   * included) is disabled, a fresh timer is armed and named by after_id, and
   * a writer thread is started; nothing is written or logged yet.
   */
  lemma SubmitWhileConnected(s: State, command: string)
    requires Inv(s) && !s.inProgress && s.connected
    ensures var r := Submit(s, command);
      && r.inProgress && AllDisabled(r) && |r.buttons| == |s.buttons|
      && r.afterId == Some(s.nextTimer) && s.nextTimer !in s.timers
      && r.timers == s.timers + {s.nextTimer}
      && r.writers == s.writers + [command]
      && r.transcript == s.transcript && r.written == s.written && r.dialogs == s.dialogs
      && r == s.(inProgress := true, buttons := r.buttons, afterId := r.afterId,
                 timers := r.timers, nextTimer := s.nextTimer + 1, writers := r.writers)
  {
  }

  /**
   * Idle but disconnected: an error dialog, then the timeout path at once, so
   * the panel is idle again with exactly one timeout line. The timer armed on
   * the way stays armed, and after_id still names it.
   */
  lemma SubmitWhileDisconnected(s: State, command: string)
    requires Inv(s) && !s.inProgress && !s.connected
    ensures var r := Submit(s, command);
      && !r.inProgress && AllEnabled(r) && |r.buttons| == |s.buttons|
      && r.transcript == s.transcript + [TimeoutLine]
      && r.dialogs == s.dialogs + [NotConnectedDialog]
      && r.afterId == Some(s.nextTimer) && r.timers == s.timers + {s.nextTimer}
      && r.writers == s.writers && r.written == s.written
      && r == s.(buttons := r.buttons, afterId := Some(s.nextTimer), timers := s.timers + {s.nextTimer},
                 nextTimer := s.nextTimer + 1, transcript := s.transcript + [TimeoutLine],
                 dialogs := s.dialogs + [NotConnectedDialog])
  {
  }

  // handle_timeout

  /** In flight: the flag clears, the buttons come back, one timeout line; timers and after_id stay. */
  lemma TimeoutEndsCommand(s: State)
    requires s.inProgress
    ensures var r := HandleTimeout(s);
      && !r.inProgress && AllEnabled(r) && |r.buttons| == |s.buttons|
      && r.transcript == s.transcript + [TimeoutLine]
      && r.timers == s.timers && r.afterId == s.afterId
      && r.writers == s.writers && r.written == s.written && r.idleQueue == s.idleQueue
      && r == s.(inProgress := false, buttons := r.buttons, transcript := r.transcript)
  {
  }

  /** Idle: nothing happens. */
  lemma TimeoutWhileIdle(s: State)
    requires !s.inProgress
    ensures HandleTimeout(s) == s
  {
  }

  lemma TimeoutIdempotent(s: State)
    ensures HandleTimeout(HandleTimeout(s)) == HandleTimeout(s)
  {
  }

  // handle_serial_response

  /** In flight: the timer after_id names is cancelled, after_id cleared, the buttons come back, nothing is logged. */
  lemma ResponseEndsCommand(s: State)
    requires s.inProgress
    ensures var r := HandleResponse(s);
      && !r.inProgress && AllEnabled(r) && |r.buttons| == |s.buttons|
      && r.afterId == None
      && r.timers == (if s.afterId.Some? then s.timers - {s.afterId.value} else s.timers)
      && r.transcript == s.transcript
      && r.writers == s.writers && r.written == s.written && r.idleQueue == s.idleQueue
      && r == s.(inProgress := false, buttons := r.buttons, afterId := None, timers := r.timers)
  {
  }

  lemma ResponseWhileIdle(s: State)
    requires !s.inProgress
    ensures HandleResponse(s) == s
  {
  }

  lemma ResponseIdempotent(s: State)
    ensures HandleResponse(HandleResponse(s)) == HandleResponse(s)
  {
  }

  /**
   * A response and a timeout for the same command: whichever runs first ends
   * it and the other does nothing. Only the timeout writes a line.
   */
  lemma ResponseTimeoutRace(s: State)
    requires s.inProgress
    ensures var a := HandleTimeout(s);
      !a.inProgress && a.transcript == s.transcript + [TimeoutLine] && HandleResponse(a) == a
    ensures var b := HandleTimeout(HandleResponse(s));
      !b.inProgress && b.transcript == s.transcript && b == HandleResponse(s)
  {
  }

  // The write path

  /**
   * A writer logs "Sending: " and the stripped command before it writes. A
   * failed write logs the error and queues handle_timeout; nothing else moves.
   */
  lemma WritePath(s: State, command: string, outcome: WriteOutcome)
    ensures var r := SendCommand(s, command, outcome);
      && r.transcript == s.transcript + [SendingLine(command)]
           + (if outcome.WriteFailed? then [ErrorLine(outcome.error)] else [])
      && r.written == s.written + (if outcome.Written? then [command] else [])
      && r.idleQueue == s.idleQueue + (if outcome.WriteFailed? then [TimeoutCallback] else [])
      && r.inProgress == s.inProgress && r.buttons == s.buttons
      && r.timers == s.timers && r.afterId == s.afterId
      && r == s.(transcript := r.transcript, written := r.written, idleQueue := r.idleQueue)
  {
  }

  /** The line logged for a command the panel builds is the command without its newline. */
  lemma SendingLineOfCommand(c: Command)
    ensures SendingLine(Encode(c)) == "Sending: " + Encode(c)[..|Encode(c)| - 1]
  {
    StripEncode(c);
  }

  /**
   * A failed write brings the panel back to idle once Tk runs the queued
   * callback; the timer of the failed command is left armed.
   */
  lemma WriteFailureRecovers(s: State, k: nat, error: string)
    requires Inv(s) && k < |s.writers| && s.idleQueue == []
    ensures var r := RunIdle(RunWriter(s, k, WriteFailed(error)));
      && !r.inProgress && AllEnabled(r) && |r.buttons| == ButtonCount
      && r.timers == s.timers && r.afterId == s.afterId
      && r.transcript == s.transcript + [SendingLine(s.writers[k])] + [ErrorLine(error)]
           + (if s.inProgress then [TimeoutLine] else [])
  {
    FailedWriteQueuesTimeout(s, k, error);
    QueuedTimeoutRecovers(RunWriter(s, k, WriteFailed(error)));
  }

  /** Tk runs a queued handle_timeout: afterwards the panel is idle. */
  lemma QueuedTimeoutRecovers(w: State)
    requires w.idleQueue == [TimeoutCallback] && |w.buttons| == ButtonCount
    requires forall b :: 0 <= b < |w.buttons| ==> w.buttons[b] == !w.inProgress
    ensures var r := RunIdle(w);
      && !r.inProgress && AllEnabled(r) && |r.buttons| == ButtonCount
      && r.timers == w.timers && r.afterId == w.afterId
      && r.transcript == w.transcript + (if w.inProgress then [TimeoutLine] else [])
      && r == w.(inProgress := false, buttons := r.buttons, transcript := r.transcript, idleQueue := [])
  {
    var rest := w.(idleQueue := []);
    assert w.idleQueue[1..] == [];
    RunIdleTimeout(w);
    if w.inProgress {
      TimeoutEndsCommand(rest);
    } else {
      TimeoutWhileIdle(rest);
      assert w.transcript + [] == w.transcript;
    }
  }

  /**
   * Whatever else is pending, once Tk reaches a queued handle_timeout the
   * panel is idle with every button enabled.
   */
  lemma QueuedTimeoutEndsCommand(w: State)
    requires Inv(w) && w.idleQueue != [] && w.idleQueue[0] == TimeoutCallback
    ensures var r := RunIdle(w);
      && !r.inProgress && AllEnabled(r) && Inv(r)
      && r.transcript == w.transcript + (if w.inProgress then [TimeoutLine] else [])
  {
    IdlePreservesInv(w);
    RunIdleTimeout(w);
  }

  lemma FailedWriteQueuesTimeout(s: State, k: nat, error: string)
    requires k < |s.writers|
    ensures var w := RunWriter(s, k, WriteFailed(error));
      && w.transcript == s.transcript + [SendingLine(s.writers[k])] + [ErrorLine(error)]
      && w.idleQueue == s.idleQueue + [TimeoutCallback]
      && w.inProgress == s.inProgress && w.buttons == s.buttons
      && w.timers == s.timers && w.afterId == s.afterId && w.written == s.written
  {
  }

  lemma RunIdleTimeout(w: State)
    requires w.idleQueue != [] && w.idleQueue[0] == TimeoutCallback
    ensures RunIdle(w) == HandleTimeout(w.(idleQueue := w.idleQueue[1..]))
  {
  }

  // The reader thread

  /**
   * A line is logged, stripped, only when it is not blank, and a response
   * callback is queued only if a command is in flight at that moment. The
   * reader itself never changes the coordinator's state.
   */
  lemma ReaderLine(s: State, text: string)
    requires !s.stopped && s.connected
    ensures var r := ReaderStep(s, LineRead(text));
      && r.transcript == s.transcript + (if AllSpace(text) then [] else [ReceivedLine(Strip(text))])
      && r.idleQueue == s.idleQueue + (if !AllSpace(text) && s.inProgress then [ResponseCallback] else [])
      && r.inProgress == s.inProgress && r.buttons == s.buttons && r.timers == s.timers
      && r.afterId == s.afterId && !r.stopped
      && r == s.(transcript := r.transcript, idleQueue := r.idleQueue)
  {
    StripEmpty(text);
    var r := ReaderStep(s, LineRead(text));
    if AllSpace(text) {
      assert Strip(text) == [];
      assert r == s;
    } else {
      ReaderLogsLine(s, text);
    }
  }

  lemma ReaderLogsLine(s: State, text: string)
    requires !s.stopped && s.connected && Strip(text) != []
    ensures ReaderStep(s, LineRead(text))
      == s.(transcript := s.transcript + [ReceivedLine(Strip(text))],
            idleQueue := if s.inProgress then s.idleQueue + [ResponseCallback] else s.idleQueue)
  {
  }

  /** Any failure is logged and sets the stop event. */
  lemma ReaderFailure(s: State, error: string)
    requires !s.stopped && s.connected
    ensures var r := ReaderStep(s, ReadFailed(error));
      r.stopped && r.transcript == s.transcript + [ErrorLine(error)]
      && r == s.(transcript := r.transcript, stopped := true)
  {
  }

  /** Once stopped, the reader never logs or queues anything again. */
  lemma {:induction false} StoppedReaderIsInert(s: State, outcomes: seq<ReadOutcome>)
    requires s.stopped
    ensures ReadAll(s, outcomes) == s
    decreases |outcomes|
  {
    if outcomes != [] {
      StoppedReaderIsInert(s, outcomes[..|outcomes| - 1]);
    }
  }

  /** Reading a run of outcomes in two parts is reading it at once. */
  lemma {:induction false} ReadAllAppend(s: State, first: seq<ReadOutcome>, second: seq<ReadOutcome>)
    ensures ReadAll(s, first + second) == ReadAll(ReadAll(s, first), second)
    decreases |second|
  {
    if second == [] {
      assert first + second == first;
    } else {
      var n := |second| - 1;
      assert (first + second)[..|first + second| - 1] == first + second[..n];
      ReadAllAppend(s, first, second[..n]);
    }
  }

  /** After a failure the rest of the outcomes is never read. */
  lemma ReadAllStopsAtFailure(s: State, before: seq<ReadOutcome>, error: string, after: seq<ReadOutcome>)
    requires !ReadAll(s, before).stopped && ReadAll(s, before).connected
    ensures ReadAll(s, before + [ReadFailed(error)] + after) == ReadAll(s, before + [ReadFailed(error)])
  {
    var failed := ReadAll(s, before + [ReadFailed(error)]);
    ReadAllAppend(s, before, [ReadFailed(error)]);
    assert failed.stopped;
    ReadAllAppend(s, before + [ReadFailed(error)], after);
    StoppedReaderIsInert(failed, after);
  }

  /**
   * Two reply lines read while one command is in flight queue two response
   * handlers. The first ends that command; the second ends whatever command
   * was submitted in between.
   */
  lemma SecondReplyEndsNextCommand(s: State, first: string, second: string, command: string)
    requires Inv(s) && s.inProgress && s.connected && !s.stopped && s.idleQueue == []
    requires !AllSpace(first) && !AllSpace(second)
    ensures var read := ReaderStep(ReaderStep(s, LineRead(first)), LineRead(second));
      && read.idleQueue == [ResponseCallback, ResponseCallback]
      && var ended := RunIdle(read);
      && !ended.inProgress && ended.connected
      && var next := Submit(ended, command);
      && next.inProgress && next.afterId == Some(ended.nextTimer)
      && var last := RunIdle(next);
      && !last.inProgress && AllEnabled(last) && last.idleQueue == []
      && last.afterId == None && ended.nextTimer !in last.timers
  {
    TwoRepliesQueued(s, first, second);
    ResponseThenSubmit(ReaderStep(ReaderStep(s, LineRead(first)), LineRead(second)), command);
  }

  lemma TwoRepliesQueued(s: State, first: string, second: string)
    requires Inv(s) && s.inProgress && s.connected && !s.stopped && s.idleQueue == []
    requires !AllSpace(first) && !AllSpace(second)
    ensures var read := ReaderStep(ReaderStep(s, LineRead(first)), LineRead(second));
      && read.idleQueue == [ResponseCallback, ResponseCallback] && Inv(read)
      && read.inProgress && read.connected
  {
    var one := ReaderStep(s, LineRead(first));
    ReaderLine(s, first);
    ReaderPreservesInv(s, LineRead(first));
    ReaderLine(one, second);
    ReaderPreservesInv(one, LineRead(second));
  }

  lemma ResponseThenSubmit(read: State, command: string)
    requires Inv(read) && read.inProgress && read.connected
    requires read.idleQueue == [ResponseCallback, ResponseCallback]
    ensures var ended := RunIdle(read);
      && !ended.inProgress && ended.connected
      && var next := Submit(ended, command);
      && next.inProgress && next.afterId == Some(ended.nextTimer)
      && var last := RunIdle(next);
      && !last.inProgress && AllEnabled(last) && last.idleQueue == []
      && last.afterId == None && ended.nextTimer !in last.timers
  {
    var ended := RunIdle(read);
    IdlePreservesInv(read);
    assert ended.idleQueue == [ResponseCallback] && !ended.inProgress && ended.connected;
    var next := Submit(ended, command);
    assert next.inProgress && next.afterId == Some(ended.nextTimer) && next.idleQueue == [ResponseCallback];
    assert RunIdle(next) == HandleResponse(next.(idleQueue := []));
  }

  // Reset, sliders and the buttons' commands

  /** Every slider reads zero, exactly one line is logged, and nothing is submitted. */
  lemma ResetZeroesSliders(s: State)
    ensures var r := ResetSliders(s);
      && |r.sliders| == |s.sliders| && (forall i :: 0 <= i < |r.sliders| ==> r.sliders[i] == 0)
      && r.transcript == s.transcript + [ResetLine]
      && r.inProgress == s.inProgress && r.buttons == s.buttons && r.timers == s.timers
      && r.writers == s.writers && r.written == s.written
      && r == s.(sliders := r.sliders, transcript := r.transcript)
  {
  }

  /** While a command is in flight every button is disabled, Reset included, so a click does nothing. */
  lemma ClickWhileBusy(s: State, b: nat)
    requires Inv(s) && s.inProgress
    ensures Press(s, b) == s
  {
  }

  /** The Ping button starts a writer for exactly "ping\n". */
  lemma PingButtonSends(s: State)
    requires Inv(s) && !s.inProgress && s.connected
    ensures Press(s, 0).writers == s.writers + ["ping\n"]
    ensures Press(s, 0).inProgress
  {
  }

  /** The Get Angle n button starts a writer for exactly "get angle n\n". */
  lemma GetAngleButtonSends(s: State, n: nat)
    requires Inv(s) && !s.inProgress && s.connected && IsMotor(n)
    ensures Press(s, n + 1).writers == s.writers + ["get angle " + [DigitChar(n)] + "\n"]
    ensures Press(s, n + 1).inProgress
  {
    assert ButtonAt(n + 1) == GetAngleButton(n);
    assert NatToString(n) == [DigitChar(n)];
  }

  /**
   * The Move Motor n button reads slider n without changing it and starts a
   * writer whose line reads back as a move of motor n to that exact angle.
   */
  lemma MoveMotorButtonSends(s: State, n: nat)
    requires Inv(s) && !s.inProgress && s.connected && IsMotor(n)
    ensures var r := Press(s, n + 4);
      && r.sliders == s.sliders && r.inProgress
      && |r.writers| == |s.writers| + 1 && r.writers[..|s.writers|] == s.writers
      && Decode(r.writers[|s.writers|]) == Some(MoveMotor(n, s.sliders[n - 1]))
  {
    var c := MoveMotor(n, s.sliders[n - 1]);
    assert s.buttons[n + 4];
    PressMoveMotor(s, n);
    SubmitWhileConnected(s, Encode(c));
    DecodeEncode(c);
  }

  lemma PressMoveMotor(s: State, n: nat)
    requires IsMotor(n) && n + 4 < |s.buttons| && s.buttons[n + 4] && |s.sliders| == MotorCount
    ensures Press(s, n + 4) == Submit(s, Encode(MoveMotor(n, s.sliders[n - 1])))
  {
    assert ButtonAt(n + 4) == MoveMotorButton(n);
    assert Press(s, n + 4) == MoveMotorCommand(s, n);
  }

  /** The Reset button, when enabled, only resets the sliders. */
  lemma ResetButtonResets(s: State)
    requires Inv(s) && !s.inProgress
    ensures Press(s, 1) == ResetSliders(s)
  {
  }

  // The stale timer

  /**
   * A timer left armed by an earlier command (the disconnected path and a
   * failed write both leave one) ends a newer command when it fires, though
   * that command's own timer is still armed and after_id still names it.
   */
  lemma StaleTimerEndsNewerCommand(s: State, command: string, t: nat)
    requires Inv(s) && !s.inProgress && s.connected && t in s.timers
    ensures var r := Submit(s, command);
      && r.inProgress && r.afterId == Some(s.nextTimer) && t != s.nextTimer
      && var f := FireTimer(r, t);
      && !f.inProgress && f.transcript == r.transcript + [TimeoutLine]
      && f.afterId == Some(s.nextTimer) && s.nextTimer in f.timers
  {
  }

  // The invariant holds from start-up on, whatever happens

  lemma SubmitPreservesInv(s: State, command: string)
    requires Inv(s)
    ensures Inv(Submit(s, command))
  {
    if !s.inProgress && !s.connected {
      SubmitWhileDisconnected(s, command);
    }
  }

  lemma PressPreservesInv(s: State, b: nat)
    requires Inv(s)
    ensures Inv(Press(s, b))
  {
    if b < ButtonCount && b < |s.buttons| && s.buttons[b] {
      match ButtonAt(b)
      case PingButton => SubmitPreservesInv(s, Encode(Ping));
      case ResetButton =>
      case GetAngleButton(n) => SubmitPreservesInv(s, Encode(GetAngle(n)));
      case MoveMotorButton(n) => SubmitPreservesInv(s, Encode(MoveMotor(n, s.sliders[n - 1])));
    }
  }

  lemma StepPreservesInv(s: State, e: Event)
    requires Inv(s)
    ensures Inv(Step(s, e))
  {
    match e
    case Click(b) => PressPreservesInv(s, b);
    case Slide(i, v) =>
    case WriterRuns(k, o) =>
      if WriterCanRun(s, k, o) {
        WriterPreservesInv(s, k, o);
      }
    case ReaderPolls(o) => ReaderPreservesInv(s, o);
    case IdleRuns => IdlePreservesInv(s);
    case TimerFires(t) =>
    case WindowClosed =>
  }

  lemma WriterPreservesInv(s: State, k: nat, o: WriteOutcome)
    requires Inv(s) && k < |s.writers|
    ensures Inv(RunWriter(s, k, o))
  {
  }

  lemma ReaderPreservesInv(s: State, o: ReadOutcome)
    requires Inv(s)
    ensures Inv(ReaderStep(s, o))
  {
  }

  lemma IdlePreservesInv(s: State)
    requires Inv(s)
    ensures Inv(RunIdle(s))
  {
  }

  lemma {:induction false} RunPreservesInv(s: State, events: seq<Event>)
    requires Inv(s)
    ensures Inv(Run(s, events))
    decreases |events|
  {
    if events != [] {
      RunPreservesInv(s, events[..|events| - 1]);
      StepPreservesInv(Run(s, events[..|events| - 1]), events[|events| - 1]);
    }
  }

  /**
   * Whatever events arrive after start-up, the buttons are enabled exactly
   * when no command is in flight, and a command in flight has its timer
   * armed, whose firing ends it.
   */
  lemma ButtonsEnabledExactlyWhenIdle(outcome: ConnectOutcome, events: seq<Event>)
    ensures var s := Run(Init(outcome), events);
      && |s.buttons| == ButtonCount
      && (forall b :: 0 <= b < ButtonCount ==> s.buttons[b] == !s.inProgress)
      && (s.inProgress ==> s.afterId.Some? && s.afterId.value in s.timers
                           && !FireTimer(s, s.afterId.value).inProgress)
  {
    InitEstablishesInv(outcome);
    RunPreservesInv(Init(outcome), events);
  }

  /** The transcript, the bytes written and the dialogs only ever grow; the stop event is never cleared. */
  lemma {:induction false} HistoryOnlyGrows(s: State, events: seq<Event>)
    ensures var r := Run(s, events);
      && s.transcript <= r.transcript && s.written <= r.written && s.dialogs <= r.dialogs
      && (s.stopped ==> r.stopped)
    decreases |events|
  {
    if events != [] {
      var mid := Run(s, events[..|events| - 1]);
      HistoryOnlyGrows(s, events[..|events| - 1]);
      StepExtendsHistory(mid, events[|events| - 1]);
    }
  }

  /**
   * Once the port is closed it stays closed and nothing more reaches it: a
   * writer that runs afterwards can only fail and log its error.
   */
  lemma {:induction false} ClosedPortWritesNothing(s: State, events: seq<Event>)
    requires !s.connected
    ensures var r := Run(s, events); !r.connected && r.written == s.written
    decreases |events|
  {
    if events != [] {
      var mid := Run(s, events[..|events| - 1]);
      ClosedPortWritesNothing(s, events[..|events| - 1]);
      StepWhileClosed(mid, events[|events| - 1]);
    }
  }

  lemma StepWhileClosed(s: State, e: Event)
    requires !s.connected
    ensures var r := Step(s, e); !r.connected && r.written == s.written
  {
    match e
    case Click(b) => PressWhileClosed(s, b);
    case _ =>
  }

  /** A writer that runs on a closed port logs its line and the error, and queues handle_timeout. */
  lemma ClosedPortWriteFails(s: State, k: nat, error: string)
    requires !s.connected && k < |s.writers|
    ensures var r := Step(s, WriterRuns(k, WriteFailed(error)));
      && r.transcript == s.transcript + [SendingLine(s.writers[k])] + [ErrorLine(error)]
      && r.idleQueue == s.idleQueue + [TimeoutCallback] && r.written == s.written
  {
    assert Step(s, WriterRuns(k, WriteFailed(error))) == RunWriter(s, k, WriteFailed(error));
    FailedWriteQueuesTimeout(s, k, error);
  }

  lemma PressWhileClosed(s: State, b: nat)
    requires !s.connected
    ensures var r := Press(s, b); !r.connected && r.written == s.written
  {
  }

  lemma StepExtendsHistory(s: State, e: Event)
    ensures var r := Step(s, e);
      && s.transcript <= r.transcript && s.written <= r.written && s.dialogs <= r.dialogs
      && (s.stopped ==> r.stopped)
  {
    match e
    case Click(b) => PressExtendsHistory(s, b);
    case Slide(i, v) =>
    case WriterRuns(k, o) =>
      if WriterCanRun(s, k, o) {
        WriterExtendsHistory(s, k, o);
      }
    case ReaderPolls(o) => ReaderExtendsHistory(s, o);
    case IdleRuns => IdleExtendsHistory(s);
    case TimerFires(t) =>
    case WindowClosed =>
  }

  lemma ReaderExtendsHistory(s: State, o: ReadOutcome)
    ensures var r := ReaderStep(s, o);
      && s.transcript <= r.transcript && s.written <= r.written && s.dialogs <= r.dialogs
      && (s.stopped ==> r.stopped)
  {
  }

  lemma IdleExtendsHistory(s: State)
    ensures var r := RunIdle(s);
      && s.transcript <= r.transcript && s.written <= r.written && s.dialogs <= r.dialogs
      && s.stopped == r.stopped
  {
  }

  lemma WriterExtendsHistory(s: State, k: nat, o: WriteOutcome)
    requires k < |s.writers|
    ensures var r := RunWriter(s, k, o);
      && s.transcript <= r.transcript && s.written <= r.written && s.dialogs <= r.dialogs
      && s.stopped == r.stopped
  {
    var r := RunWriter(s, k, o);
    var c := s.writers[k];
    assert r.transcript == s.transcript + [SendingLine(c)] + (if o.WriteFailed? then [ErrorLine(o.error)] else []);
    assert r.written == s.written + (if o.Written? then [c] else []);
    assert r.dialogs == s.dialogs && r.stopped == s.stopped;
  }

  lemma PressExtendsHistory(s: State, b: nat)
    ensures var r := Press(s, b);
      && s.transcript <= r.transcript && s.written <= r.written && s.dialogs <= r.dialogs
      && (s.stopped ==> r.stopped)
  {
    if b < ButtonCount && b < |s.buttons| && s.buttons[b] {
      match ButtonAt(b)
      case PingButton => SubmitExtendsHistory(s, Encode(Ping));
      case ResetButton =>
      case GetAngleButton(n) => SubmitExtendsHistory(s, Encode(GetAngle(n)));
      case MoveMotorButton(n) =>
        if |s.sliders| == MotorCount {
          SubmitExtendsHistory(s, Encode(MoveMotor(n, s.sliders[n - 1])));
        }
    }
  }

  lemma SubmitExtendsHistory(s: State, command: string)
    ensures var r := Submit(s, command);
      && s.transcript <= r.transcript && s.written <= r.written && s.dialogs <= r.dialogs
      && (s.stopped ==> r.stopped)
  {
  }
}
