/**
 * SerialApp, the motor control panel, as an object whose handlers update
 * its fields in place. Every handler is proved to move the panel's state
 * exactly as the matching transition of Coordinator says, so the lemmas
 * proved there hold of the object too.
 */
module App {
  import opened Wrappers
  import opened Text
  import opened Commands
  import opened Coordinator

  class SerialApp {
    var commandInProgress: bool
    var afterId: Option<nat>
    var timers: set<nat>           // Tk's armed timers
    var nextTimer: nat             // the handle Tk gives the next timer
    const buttons: array<bool>     // enabled state of the eight action buttons
    var transcript: seq<string>    // the serial monitor's lines
    var connected: bool            // `ser` is set and open
    const sliders: array<int>      // the three slider values, in hundredths of a degree
    var stopRequested: bool        // the reader's stop event
    var idleQueue: seq<Callback>   // Tk's after_idle queue
    var writers: seq<string>       // writer threads started and not yet run
    var written: seq<string>       // what went out on the port
    var dialogs: seq<Dialog>       // error dialogs shown

    /** The panel's state as a value. */
    function Snapshot(): State
      reads this, buttons, sliders
    {
      State(commandInProgress, afterId, timers, nextTimer, buttons[..], transcript, connected,
            sliders[..], stopRequested, idleQueue, writers, written, dialogs)
    }

    /** Builds the window (all buttons enabled, sliders at zero) and opens the port. */
    constructor (outcome: ConnectOutcome)
      ensures Snapshot() == Init(outcome)
      ensures Inv(Snapshot())
      ensures buttons.Length == ButtonCount && sliders.Length == MotorCount
      ensures fresh(buttons) && fresh(sliders)
    {
      commandInProgress := false;
      afterId := None;
      timers := {};
      nextTimer := 0;
      buttons := new bool[ButtonCount](_ => true);
      sliders := new int[MotorCount](_ => 0);
      transcript := [WaitingLine];
      stopRequested := false;
      idleQueue := [];
      writers := [];
      written := [];
      match outcome
      case Opened =>
        connected := true;
        dialogs := [];
        transcript := transcript + [ConnectedLine];
      case OpenFailed(e) =>
        connected := false;
        dialogs := [ConnectFailedDialog(e)];
      InitEstablishesInv(outcome);
    }

    /** append_to_display: one more line in the serial monitor. */
    method AppendToDisplay(line: string)
      modifies this
      ensures Snapshot() == old(Snapshot()).(transcript := old(transcript) + [line])
    {
      transcript := transcript + [line];
    }

    /** set_button_state: every action button takes the given state. */
    method SetButtonState(enabled: bool)
      modifies buttons
      ensures Snapshot() == SetButtons(old(Snapshot()), enabled)
    {
      for i := 0 to buttons.Length
        invariant forall j :: 0 <= j < i ==> buttons[j] == enabled
      {
        buttons[i] := enabled;
      }
      assert buttons[..] == seq(buttons.Length, _ => enabled);
    }

    /** Tk's `after`: arm a timer and return its handle. */
    method After() returns (id: nat)
      modifies this
      ensures id == old(nextTimer)
      ensures Snapshot() == old(Snapshot()).(timers := old(timers) + {id}, nextTimer := id + 1)
    {
      id := nextTimer;
      timers := timers + {id};
      nextTimer := nextTimer + 1;
    }

    /** handle_timeout */
    method HandleTimeout()
      modifies this, buttons
      ensures Snapshot() == Coordinator.HandleTimeout(old(Snapshot()))
    {
      if commandInProgress {
        commandInProgress := false;
        SetButtonState(true);
        AppendToDisplay(TimeoutLine);
      }
    }

    /** send_serial_command */
    method SendSerialCommand(command: string)
      modifies this, buttons
      ensures Snapshot() == Submit(old(Snapshot()), command)
    {
      if !commandInProgress {
        commandInProgress := true;
        SetButtonState(false);
        var id := After();
        afterId := Some(id);
        if connected {
          writers := writers + [command];
        } else {
          dialogs := dialogs + [NotConnectedDialog];
          HandleTimeout();
        }
      }
    }

    /** send_command, run by a writer thread. */
    method SendCommand(command: string, outcome: WriteOutcome)
      modifies this
      ensures Snapshot() == Coordinator.SendCommand(old(Snapshot()), command, outcome)
    {
      AppendToDisplay(SendingLine(command));
      match outcome
      case Written =>
        written := written + [command];
      case WriteFailed(e) =>
        AppendToDisplay(ErrorLine(e));
        idleQueue := idleQueue + [TimeoutCallback];
    }

    /** The k-th started writer thread runs. */
    method RunWriter(k: nat, outcome: WriteOutcome)
      requires k < |writers|
      modifies this
      ensures Snapshot() == Coordinator.RunWriter(old(Snapshot()), k, outcome)
    {
      var command := writers[k];
      writers := writers[..k] + writers[k + 1..];
      SendCommand(command, outcome);
    }

    /** handle_serial_response */
    method HandleSerialResponse()
      modifies this, buttons
      ensures Snapshot() == HandleResponse(old(Snapshot()))
    {
      if commandInProgress {
        if afterId.Some? {
          timers := timers - {afterId.value};
          afterId := None;
        }
        commandInProgress := false;
        SetButtonState(true);
      }
    }

    /** Tk runs the oldest idle callback. */
    method RunIdleCallback()
      modifies this, buttons
      ensures Snapshot() == RunIdle(old(Snapshot()))
    {
      if idleQueue != [] {
        var callback := idleQueue[0];
        idleQueue := idleQueue[1..];
        match callback
        case TimeoutCallback => HandleTimeout();
        case ResponseCallback => HandleSerialResponse();
      }
    }

    /** Tk fires timer t. */
    method FireTimer(t: nat)
      modifies this, buttons
      ensures Snapshot() == Coordinator.FireTimer(old(Snapshot()), t)
    {
      if t in timers {
        timers := timers - {t};
        HandleTimeout();
      }
    }

    /** One pass of serial_reader's loop. */
    method ReaderStep(outcome: ReadOutcome)
      modifies this
      ensures Snapshot() == Coordinator.ReaderStep(old(Snapshot()), outcome)
    {
      ghost var s := Snapshot();
      if !stopRequested && connected {
        match outcome
        case NothingWaiting =>
        case LineRead(text) =>
          var line := Strip(text);
          if line != [] {
            AppendToDisplay(ReceivedLine(line));
            if commandInProgress {
              idleQueue := idleQueue + [ResponseCallback];
            }
            assert Snapshot() == s.(transcript := s.transcript + [ReceivedLine(line)], idleQueue := idleQueue);
          }
        case ReadFailed(e) =>
          AppendToDisplay(ErrorLine(e));
          stopRequested := true;
      }
    }

    /** serial_reader: loop until stopped, here over a given run of poll outcomes. */
    method SerialReader(outcomes: seq<ReadOutcome>)
      modifies this
      ensures Snapshot() == ReadAll(old(Snapshot()), outcomes)
    {
      var i := 0;
      while i < |outcomes| && !stopRequested
        invariant 0 <= i <= |outcomes|
        invariant Snapshot() == ReadAll(old(Snapshot()), outcomes[..i])
      {
        assert outcomes[..i + 1][..i] == outcomes[..i];
        ReaderStep(outcomes[i]);
        i := i + 1;
      }
      assert outcomes[..i] + outcomes[i..] == outcomes;
      ReadAllAppend(old(Snapshot()), outcomes[..i], outcomes[i..]);
      if i < |outcomes| {
        StoppedReaderIsInert(Snapshot(), outcomes[i..]);
      }
    }

    /** reset_sliders */
    method ResetSliders()
      modifies this, sliders
      ensures Snapshot() == Coordinator.ResetSliders(old(Snapshot()))
    {
      ghost var before := Snapshot();
      for i := 0 to sliders.Length
        invariant forall j :: 0 <= j < i ==> sliders[j] == 0
        invariant Snapshot() == before.(sliders := sliders[..])
      {
        sliders[i] := 0;
      }
      assert sliders[..] == seq(sliders.Length, _ => 0);
      AppendToDisplay(ResetLine);
    }

    /** The user drags slider i. */
    method MoveSlider(i: nat, value: int)
      modifies sliders
      ensures Snapshot() == Coordinator.MoveSlider(old(Snapshot()), i, value)
    {
      if i < sliders.Length {
        sliders[i] := ClampAngle(value);
      }
    }

    /** move_motor */
    method MoveMotor(n: nat)
      requires IsMotor(n) && sliders.Length == MotorCount
      modifies this, buttons
      ensures Snapshot() == MoveMotorCommand(old(Snapshot()), n)
    {
      var angle := sliders[n - 1];
      SendSerialCommand(Encode(Commands.MoveMotor(n, angle)));
    }

    /** A click on action button b; a disabled button ignores it. */
    method Click(b: nat)
      modifies this, buttons, sliders
      ensures Snapshot() == Press(old(Snapshot()), b)
    {
      if b < ButtonCount && b < buttons.Length && buttons[b] {
        match ButtonAt(b)
        case PingButton => SendSerialCommand(Encode(Ping));
        case ResetButton => ResetSliders();
        case GetAngleButton(n) => SendSerialCommand(Encode(GetAngle(n)));
        case MoveMotorButton(n) =>
          if sliders.Length == MotorCount {
            MoveMotor(n);
          }
      }
    }

    /** on_closing: set the stop event and close the port. */
    method OnClosing()
      modifies this
      ensures Snapshot() == Coordinator.OnClosing(old(Snapshot()))
    {
      stopRequested := true;
      if connected {
        connected := false;
      }
    }

    /** Tk's main loop delivers one event. */
    method Deliver(e: Event)
      modifies this, buttons, sliders
      ensures Snapshot() == Step(old(Snapshot()), e)
    {
      match e
      case Click(b) => Click(b);
      case Slide(i, v) => MoveSlider(i, v);
      case WriterRuns(k, o) =>
        if k < |writers| && (connected || o.WriteFailed?) {
          RunWriter(k, o);
        }
      case ReaderPolls(o) => ReaderStep(o);
      case IdleRuns => RunIdleCallback();
      case TimerFires(t) => FireTimer(t);
      case WindowClosed => OnClosing();
    }

    /**
     * Tk's main loop over a run of events. The coordinator's invariant holds
     * throughout, so buttons are enabled exactly when no command is in flight.
     */
    method MainLoop(events: seq<Event>)
      requires Inv(Snapshot())
      modifies this, buttons, sliders
      ensures Snapshot() == Run(old(Snapshot()), events)
      ensures Inv(Snapshot())
    {
      for i := 0 to |events|
        invariant Snapshot() == Run(old(Snapshot()), events[..i])
      {
        assert events[..i + 1][..i] == events[..i];
        Deliver(events[i]);
      }
      assert events[..|events|] == events;
      RunPreservesInv(old(Snapshot()), events);
    }
  }

  /**
   * The program's entry point: build the panel, whose window close runs
   * on_closing, and hand Tk's main loop the events that arrive.
   */
  method StartPanel(outcome: ConnectOutcome, events: seq<Event>) returns (app: SerialApp)
    ensures fresh(app)
    ensures app.Snapshot() == Run(Init(outcome), events)
    ensures Inv(app.Snapshot())
  {
    app := new SerialApp(outcome);
    app.MainLoop(events);
  }
}
