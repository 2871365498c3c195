/**
 * Whole runs of the panel from start-up, event by event: the behaviours a
 * user sees, including the stale-timer and reply-correlation weaknesses the
 * coordinator has.
 */
module Scenarios {
  import opened Wrappers
  import opened Text
  import opened Commands
  import opened Coordinator

  /** One more event at the end of a run. */
  lemma RunSnoc(s: State, events: seq<Event>, e: Event)
    ensures Run(s, events + [e]) == Step(Run(s, events), e)
  {
    assert (events + [e])[..|events|] == events;
  }

  lemma Run3(s: State, a: Event, b: Event, c: Event)
    ensures Run(s, [a, b, c]) == Step(Step(Step(s, a), b), c)
  {
    assert [a] == [] + [a];
    RunSnoc(s, [], a);
    assert [a, b] == [a] + [b];
    RunSnoc(s, [a], b);
    assert [a, b, c] == [a, b] + [c];
    RunSnoc(s, [a, b], c);
  }

  lemma Run4(s: State, a: Event, b: Event, c: Event, d: Event)
    ensures Run(s, [a, b, c, d]) == Step(Step(Step(Step(s, a), b), c), d)
  {
    Run3(s, a, b, c);
    assert [a, b, c, d] == [a, b, c] + [d];
    RunSnoc(s, [a, b, c], d);
  }

  lemma Run5(s: State, a: Event, b: Event, c: Event, d: Event, e: Event)
    ensures Run(s, [a, b, c, d, e]) == Step(Step(Step(Step(Step(s, a), b), c), d), e)
  {
    Run4(s, a, b, c, d);
    assert [a, b, c, d, e] == [a, b, c, d] + [e];
    RunSnoc(s, [a, b, c, d], e);
  }

  lemma Run6(s: State, a: Event, b: Event, c: Event, d: Event, e: Event, f: Event)
    ensures Run(s, [a, b, c, d, e, f]) == Step(Step(Step(Step(Step(Step(s, a), b), c), d), e), f)
  {
    Run5(s, a, b, c, d, e);
    assert [a, b, c, d, e, f] == [a, b, c, d, e] + [f];
    RunSnoc(s, [a, b, c, d, e], f);
  }

  lemma PingLine()
    ensures Encode(Ping) == "ping\n" && SendingLine("ping\n") == "Sending: ping"
  {
    SendingLineOfCommand(Ping);
  }

  lemma GetAngleLine(n: nat)
    requires IsMotor(n)
    ensures Encode(GetAngle(n)) == "get angle " + [DigitChar(n)] + "\n"
    ensures SendingLine(Encode(GetAngle(n))) == "Sending: get angle " + [DigitChar(n)]
  {
    assert NatToString(n) == [DigitChar(n)];
    SendingLineOfCommand(GetAngle(n));
  }

  lemma ClickPing(s: State)
    requires 0 < |s.buttons| && s.buttons[0]
    ensures Step(s, Click(0)) == Submit(s, "ping\n")
  {
    PingLine();
  }

  lemma ClickGetAngle(s: State, n: nat)
    requires IsMotor(n) && n + 1 < |s.buttons| && s.buttons[n + 1]
    ensures Step(s, Click(n + 1)) == Submit(s, "get angle " + [DigitChar(n)] + "\n")
  {
    assert ButtonAt(n + 1) == GetAngleButton(n);
    var c := Encode(GetAngle(n));
    assert Press(s, n + 1) == Submit(s, c);
    GetAngleLine(n);
  }

  /** A panel that is connected and idle, with no thread or callback outstanding. */
  predicate Quiet(s: State) {
    Inv(s) && !s.inProgress && s.connected && !s.stopped && s.writers == [] && s.idleQueue == []
  }

  /** Right after start-up with the port open, the panel is quiet. */
  lemma StartsQuiet()
    ensures Quiet(Init(Opened))
  {
    InitEstablishesInv(Opened);
  }

  /** Ping with no port: an error dialog, and the panel is idle again at once. */
  lemma PingWhileDisconnected(error: string)
    ensures var s := Run(Init(OpenFailed(error)), [Click(0)]);
      && !s.inProgress && AllEnabled(s)
      && s.dialogs == [ConnectFailedDialog(error), NotConnectedDialog]
      && s.transcript == [WaitingLine, TimeoutLine]
      && s.written == [] && s.writers == []
  {
    var s0 := Init(OpenFailed(error));
    StartsDisconnected(error);
    assert [Click(0)] == [] + [Click(0)];
    RunSnoc(s0, [], Click(0));
    PingDisconnected(s0);
    Pair(ConnectFailedDialog(error), NotConnectedDialog);
    Pair(WaitingLine, TimeoutLine);
  }

  lemma Pair<T>(x: T, y: T)
    ensures [x] + [y] == [x, y]
  {
  }

  lemma StartsDisconnected(error: string)
    ensures var s0 := Init(OpenFailed(error));
      && Inv(s0) && !s0.inProgress && !s0.connected
      && s0.dialogs == [ConnectFailedDialog(error)] && s0.transcript == [WaitingLine]
      && s0.written == [] && s0.writers == []
  {
    InitEstablishesInv(OpenFailed(error));
  }

  lemma PingDisconnected(s0: State)
    requires Inv(s0) && !s0.inProgress && !s0.connected
    ensures var s := Step(s0, Click(0));
      && !s.inProgress && AllEnabled(s)
      && s.dialogs == s0.dialogs + [NotConnectedDialog]
      && s.transcript == s0.transcript + [TimeoutLine]
      && s.written == s0.written && s.writers == s0.writers
  {
    ClickPing(s0);
    SubmitWhileDisconnected(s0, "ping\n");
  }

  /** The only writer thread running. */
  lemma OnlyWriterRuns(s: State, outcome: WriteOutcome)
    requires |s.writers| == 1 && s.connected
    ensures Step(s, WriterRuns(0, outcome)) == SendCommand(s.(writers := []), s.writers[0], outcome)
  {
    assert s.writers[..0] + s.writers[1..] == [];
  }

  lemma AppendPair<T>(a: seq<T>, x: T, y: T)
    ensures a + [x] + [y] == a + [x, y]
  {
  }

  /** A panel back at rest after one more command is quiet again. */
  lemma QuietAfterCommand(s0: State, s: State)
    requires Quiet(s0)
    requires !s.inProgress && AllEnabled(s) && |s.buttons| == ButtonCount
    requires s.connected && !s.stopped && s.writers == [] && s.idleQueue == []
    requires s.sliders == s0.sliders && s.timers <= s0.timers + {s0.nextTimer}
    requires s.nextTimer == s0.nextTimer + 1 && s.afterId == Some(s0.nextTimer)
    ensures Quiet(s)
  {
  }

  /** An armed timer firing. */
  lemma ArmedTimerFires(s: State, t: nat)
    requires t in s.timers
    ensures Step(s, TimerFires(t)) == HandleTimeout(s.(timers := s.timers - {t}))
  {
  }

  /** A command submitted on a quiet panel and written by its thread: in flight, its timer armed. */
  lemma SubmitAndWrite(s0: State, command: string)
    requires Quiet(s0)
    ensures var s2 := Step(Submit(s0, command), WriterRuns(0, Written));
      && AllDisabled(s2) && |s2.buttons| == ButtonCount && s0.nextTimer !in s0.timers
      && s2 == s0.(inProgress := true, buttons := s2.buttons, afterId := Some(s0.nextTimer),
                   timers := s0.timers + {s0.nextTimer}, nextTimer := s0.nextTimer + 1,
                   transcript := s0.transcript + [SendingLine(command)], written := s0.written + [command])
  {
    SubmitWhileConnected(s0, command);
    var s1 := Submit(s0, command);
    assert s1.writers == [command];
    OnlyWriterRuns(s1, Written);
    WritePath(s1.(writers := []), command, Written);
  }

  /** The timer of a command in flight firing: the panel is quiet again. */
  lemma InFlightTimesOut(s0: State, s2: State)
    requires Quiet(s0) && s0.nextTimer !in s0.timers && |s2.buttons| == ButtonCount
    requires s2 == s0.(inProgress := true, buttons := s2.buttons, afterId := Some(s0.nextTimer),
                       timers := s0.timers + {s0.nextTimer}, nextTimer := s0.nextTimer + 1,
                       transcript := s2.transcript, written := s2.written)
    ensures var s3 := FireTimer(s2, s0.nextTimer);
      && Quiet(s3) && s3.afterId == Some(s0.nextTimer) && s3.nextTimer == s0.nextTimer + 1
      && s3.timers == s0.timers && s3.sliders == s0.sliders && s3.dialogs == s0.dialogs
      && s3.transcript == s2.transcript + [TimeoutLine] && s3.written == s2.written
  {
    var t := s0.nextTimer;
    assert s2.timers - {t} == s0.timers;
    var s3 := FireTimer(s2, t);
    TimeoutEndsCommand(s2.(timers := s0.timers));
    QuietAfterCommand(s0, s3);
  }

  /** A command sent and never answered: after the write and the timeout, the panel is quiet again. */
  lemma SentThenTimedOut(s0: State, command: string)
    requires Quiet(s0)
    ensures var s3 := Step(Step(Submit(s0, command), WriterRuns(0, Written)), TimerFires(s0.nextTimer));
      && Quiet(s3) && s3.afterId == Some(s0.nextTimer) && s3.nextTimer == s0.nextTimer + 1
      && s3.timers == s0.timers && s3.sliders == s0.sliders && s3.dialogs == s0.dialogs
      && s3.transcript == s0.transcript + [SendingLine(command), TimeoutLine]
      && s3.written == s0.written + [command]
  {
    SubmitAndWrite(s0, command);
    var s2 := Step(Submit(s0, command), WriterRuns(0, Written));
    InFlightTimesOut(s0, s2);
    ArmedTimerFires(s2, s0.nextTimer);
    AppendPair(s0.transcript, SendingLine(command), TimeoutLine);
  }

  /** The Get Angle 1 button submits `get angle 1`, logged as `Sending: get angle 1`. */
  lemma ClickGetAngleOne(s: State)
    requires 2 < |s.buttons| && s.buttons[2]
    ensures Step(s, Click(2)) == Submit(s, "get angle 1\n")
    ensures SendingLine("get angle 1\n") == "Sending: get angle 1"
  {
    ClickGetAngle(s, 1);
    assert "get angle " + [DigitChar(1)] + "\n" == "get angle 1\n";
    SendingGetAngle(1);
  }

  /** The Get Angle 2 button submits `get angle 2`, logged as `Sending: get angle 2`. */
  lemma ClickGetAngleTwo(s: State)
    requires 3 < |s.buttons| && s.buttons[3]
    ensures Step(s, Click(3)) == Submit(s, "get angle 2\n")
    ensures SendingLine("get angle 2\n") == "Sending: get angle 2"
  {
    ClickGetAngle(s, 2);
    assert "get angle " + [DigitChar(2)] + "\n" == "get angle 2\n";
    SendingGetAngle(2);
  }

  lemma SendingGetAngle(n: nat)
    requires IsMotor(n)
    ensures SendingLine("get angle " + [DigitChar(n)] + "\n") == "Sending: get angle " + [DigitChar(n)]
  {
    GetAngleLine(n);
  }

  lemma NoReplySteps(s0: State)
    requires Quiet(s0)
    ensures var s := Step(Step(Step(s0, Click(2)), WriterRuns(0, Written)), TimerFires(s0.nextTimer));
      && Quiet(s) && s.timers == s0.timers
      && s.transcript == s0.transcript + ["Sending: get angle 1", TimeoutLine]
      && s.written == s0.written + ["get angle 1\n"]
  {
    ClickGetAngleOne(s0);
    SentThenTimedOut(s0, "get angle 1\n");
  }

  /** Get Angle 1 and no reply: the command is written, the timer fires, the timeout is logged, the panel is idle. */
  lemma NoReplyTimesOut(s0: State)
    requires Quiet(s0)
    ensures var s := Run(s0, [Click(2), WriterRuns(0, Written), TimerFires(s0.nextTimer)]);
      && Quiet(s) && AllEnabled(s) && s.timers == s0.timers
      && s.transcript == s0.transcript + ["Sending: get angle 1", TimeoutLine]
      && s.written == s0.written + ["get angle 1\n"]
  {
    NoReplySteps(s0);
    Run3(s0, Click(2), WriterRuns(0, Written), TimerFires(s0.nextTimer));
  }

  /** A reply read while a command is in flight queues the response handler, which cancels the timer. */
  lemma ReplySteps(s2: State, line: string)
    requires s2.inProgress && s2.connected && !s2.stopped && s2.idleQueue == []
    requires s2.afterId.Some?
    requires line != [] && !IsSpace(line[0]) && !IsSpace(line[|line| - 1])
    ensures var s := Step(Step(s2, ReaderPolls(LineRead(line + "\r\n"))), IdleRuns);
      && !s.inProgress && AllEnabled(s) && |s.buttons| == |s2.buttons| && s.afterId == None
      && s.timers == s2.timers - {s2.afterId.value} && s.idleQueue == []
      && s.transcript == s2.transcript + [ReceivedLine(line)]
      && s.written == s2.written && s.writers == s2.writers
      && s.connected && !s.stopped && s.nextTimer == s2.nextTimer && s.sliders == s2.sliders
  {
    var text := line + "\r\n";
    assert text[0] == line[0];
    StripLine(line, "\r\n");
    ReaderLine(s2, text);
    var s3 := Step(s2, ReaderPolls(LineRead(text)));
    assert s3.idleQueue == [ResponseCallback];
    assert s3.idleQueue[1..] == [];
    assert RunIdle(s3) == HandleResponse(s3.(idleQueue := []));
    ResponseEndsCommand(s3.(idleQueue := []));
  }

  lemma ClickAndWriteSteps(s0: State)
    requires Quiet(s0)
    ensures var s := Step(Step(s0, Click(3)), WriterRuns(0, Written));
      && s.inProgress && s.connected && !s.stopped && s.idleQueue == [] && s.writers == []
      && s.afterId == Some(s0.nextTimer) && s.timers == s0.timers + {s0.nextTimer}
      && s0.nextTimer !in s0.timers
      && s.transcript == s0.transcript + ["Sending: get angle 2"]
      && s.written == s0.written + ["get angle 2\n"]
  {
    ClickGetAngleTwo(s0);
    SubmitAndWrite(s0, "get angle 2\n");
  }

  /**
   * Get Angle 2 answered in time: the reply is logged, the response handler
   * cancels the timer and the panel is idle with none of its own timers left
   * armed.
   */
  lemma ReplyCancelsTimer(s0: State)
    requires Quiet(s0)
    ensures var s := Run(s0, [Click(3), WriterRuns(0, Written), ReaderPolls(LineRead("90.0\r\n")), IdleRuns]);
      && !s.inProgress && AllEnabled(s) && s.afterId == None && s.timers == s0.timers
      && s.transcript == s0.transcript + ["Sending: get angle 2", "Received: 90.0"]
      && s.written == s0.written + ["get angle 2\n"]
  {
    ReplyCancelsSteps(s0);
    Run4(s0, Click(3), WriterRuns(0, Written), ReaderPolls(LineRead("90.0\r\n")), IdleRuns);
  }

  lemma ReplyCancelsSteps(s0: State)
    requires Quiet(s0)
    ensures var s := Step(Step(Step(Step(s0, Click(3)), WriterRuns(0, Written)),
                               ReaderPolls(LineRead("90.0\r\n"))), IdleRuns);
      && !s.inProgress && AllEnabled(s) && s.afterId == None && s.timers == s0.timers
      && s.transcript == s0.transcript + ["Sending: get angle 2", "Received: 90.0"]
      && s.written == s0.written + ["get angle 2\n"]
  {
    ClickAndWriteSteps(s0);
    var s2 := Step(Step(s0, Click(3)), WriterRuns(0, Written));
    ReceivedNinety();
    ReplySteps(s2, "90.0");
    assert s0.timers + {s0.nextTimer} - {s0.nextTimer} == s0.timers;
    ReceivedNinety();
    AppendPair(s0.transcript, "Sending: get angle 2", "Received: 90.0");
  }

  lemma ReceivedNinety()
    ensures "90.0" + "\r\n" == "90.0\r\n" && ReceivedLine("90.0") == "Received: 90.0"
  {
  }

  // A stale timer ends the next command

  lemma AppendTriple<T>(a: seq<T>, x: T, y: T, z: T)
    ensures a + [x] + [y] + [z] == a + [x, y, z]
  {
  }

  /** A command in flight whose write failed: once the queued timeout runs, the panel is quiet, its timer still armed. */
  lemma FailedThenRecovered(s0: State, s2: State)
    requires Quiet(s0) && s0.nextTimer !in s0.timers && |s2.buttons| == ButtonCount && AllDisabled(s2)
    requires s2 == s0.(inProgress := true, buttons := s2.buttons, afterId := Some(s0.nextTimer),
                       timers := s0.timers + {s0.nextTimer}, nextTimer := s0.nextTimer + 1,
                       transcript := s2.transcript, idleQueue := [TimeoutCallback])
    ensures var s3 := RunIdle(s2);
      && Quiet(s3) && s3.afterId == Some(s0.nextTimer) && s3.nextTimer == s0.nextTimer + 1
      && s3.timers == s0.timers + {s0.nextTimer} && s3.written == s0.written
      && s3.transcript == s2.transcript + [TimeoutLine]
  {
    QueuedTimeoutRecovers(s2);
    QuietAfterCommand(s0, RunIdle(s2));
  }

  lemma FailedPingSteps(s0: State, error: string)
    requires Quiet(s0)
    ensures var s := Step(Step(Step(s0, Click(0)), WriterRuns(0, WriteFailed(error))), IdleRuns);
      && Quiet(s) && s.afterId == Some(s0.nextTimer) && s.nextTimer == s0.nextTimer + 1
      && s.timers == s0.timers + {s0.nextTimer} && s.written == s0.written
      && s.transcript == s0.transcript + ["Sending: ping", ErrorLine(error), TimeoutLine]
  {
    ClickPing(s0);
    PingLine();
    SubmitWhileConnected(s0, "ping\n");
    var s1 := Submit(s0, "ping\n");
    assert s1.writers == ["ping\n"];
    OnlyWriterRuns(s1, WriteFailed(error));
    WritePath(s1.(writers := []), "ping\n", WriteFailed(error));
    var s2 := Step(s1, WriterRuns(0, WriteFailed(error)));
    FailedThenRecovered(s0, s2);
    AppendTriple(s0.transcript, "Sending: ping", ErrorLine(error), TimeoutLine);
  }

  /** An older armed timer fires while a command is in flight: the command ends, its own timer stays armed. */
  lemma OldTimerEndsCommand(s3: State, s5: State, t: nat)
    requires Quiet(s3) && t in s3.timers && s3.nextTimer !in s3.timers && |s5.buttons| == ButtonCount
    requires s5 == s3.(inProgress := true, buttons := s5.buttons, afterId := Some(s3.nextTimer),
                       timers := s3.timers + {s3.nextTimer}, nextTimer := s3.nextTimer + 1,
                       transcript := s5.transcript, written := s5.written)
    ensures var s := Step(s5, TimerFires(t));
      && !s.inProgress && AllEnabled(s)
      && s.afterId == Some(s3.nextTimer) && s.timers == s3.timers - {t} + {s3.nextTimer}
      && s.transcript == s5.transcript + [TimeoutLine] && s.written == s5.written
  {
    assert t in s5.timers && t != s3.nextTimer;
    ArmedTimerFires(s5, t);
    TimeoutEndsCommand(s5.(timers := s5.timers - {t}));
    assert s3.timers + {s3.nextTimer} - {t} == s3.timers - {t} + {s3.nextTimer};
  }

  /** From a quiet panel with timer t still armed: Get Angle 1 is written, then t fires. */
  lemma StaleTimerSteps(s3: State, t: nat)
    requires Quiet(s3) && t in s3.timers
    ensures var s := Step(Step(Step(s3, Click(2)), WriterRuns(0, Written)), TimerFires(t));
      && !s.inProgress && AllEnabled(s)
      && s.afterId == Some(s3.nextTimer) && s.timers == s3.timers - {t} + {s3.nextTimer}
      && s.transcript == s3.transcript + ["Sending: get angle 1", TimeoutLine]
      && s.written == s3.written + ["get angle 1\n"]
  {
    ClickGetAngleOne(s3);
    SubmitAndWrite(s3, "get angle 1\n");
    OldTimerEndsCommand(s3, Step(Submit(s3, "get angle 1\n"), WriterRuns(0, Written)), t);
    AppendPair(s3.transcript, "Sending: get angle 1", TimeoutLine);
  }

  /**
   * A Ping whose write fails leaves its timer armed. The next command, Get
   * Angle 1, is written, and then that old timer fires: Get Angle 1 is ended
   * and logged as timed out, though its own timer is still armed and no
   * time has passed for it.
   */
  lemma StaleTimerEndsNextCommand(s0: State, error: string)
    requires Quiet(s0)
    ensures var s := Run(s0, [Click(0), WriterRuns(0, WriteFailed(error)), IdleRuns,
                              Click(2), WriterRuns(0, Written), TimerFires(s0.nextTimer)]);
      && !s.inProgress && AllEnabled(s)
      && s.afterId == Some(s0.nextTimer + 1) && s.timers == s0.timers + {s0.nextTimer + 1}
      && s.transcript == s0.transcript + ["Sending: ping", ErrorLine(error), TimeoutLine]
                         + ["Sending: get angle 1", TimeoutLine]
      && s.written == s0.written + ["get angle 1\n"]
  {
    var t := s0.nextTimer;
    FailedPingSteps(s0, error);
    var s3 := Step(Step(Step(s0, Click(0)), WriterRuns(0, WriteFailed(error))), IdleRuns);
    StaleTimerSteps(s3, t);
    assert s0.timers + {t} - {t} + {t + 1} == s0.timers + {t + 1};
    Run6(s0, Click(0), WriterRuns(0, WriteFailed(error)), IdleRuns, Click(2), WriterRuns(0, Written), TimerFires(t));
  }

  // A late reply ends the next command

  lemma PongText()
    ensures "pong" + "\r\n" == "pong\r\n" && ReceivedLine("pong") == "Received: pong"
    ensures !IsSpace("pong"[0]) && !IsSpace("pong"[3])
  {
  }

  lemma PingTimesOutSteps(s0: State)
    requires Quiet(s0)
    ensures var s := Step(Step(Step(s0, Click(0)), WriterRuns(0, Written)), TimerFires(s0.nextTimer));
      && Quiet(s) && s.timers == s0.timers && s.nextTimer == s0.nextTimer + 1
      && s.transcript == s0.transcript + ["Sending: ping", TimeoutLine]
      && s.written == s0.written + ["ping\n"]
  {
    ClickPing(s0);
    PingLine();
    SentThenTimedOut(s0, "ping\n");
  }

  /** From a quiet panel: Get Angle 1 is submitted, and a line arrives before its thread has written it. */
  lemma EarlyReplySteps(s3: State)
    requires Quiet(s3)
    ensures var s := Step(Step(Step(s3, Click(2)), ReaderPolls(LineRead("pong\r\n"))), IdleRuns);
      && !s.inProgress && AllEnabled(s) && s.afterId == None && s.timers == s3.timers
      && s.writers == ["get angle 1\n"] && s.written == s3.written
      && s.transcript == s3.transcript + ["Received: pong"]
  {
    ClickGetAngleOne(s3);
    SubmitWhileConnected(s3, "get angle 1\n");
    var s4 := Submit(s3, "get angle 1\n");
    PongText();
    ReplySteps(s4, "pong");
    assert s3.timers + {s3.nextTimer} - {s3.nextTimer} == s3.timers;
  }

  /**
   * Ping is written but its reply is late: the timeout ends it. The user
   * then presses Get Angle 1, and the late "pong" arrives before the new
   * command has even been written. The reply is not matched to a command,
   * so it ends Get Angle 1, whose line is still waiting to be written.
   */
  lemma LateReplyEndsNextCommand(s0: State)
    requires Quiet(s0)
    ensures var s := Run(s0, [Click(0), WriterRuns(0, Written), TimerFires(s0.nextTimer),
                              Click(2), ReaderPolls(LineRead("pong\r\n")), IdleRuns]);
      && !s.inProgress && AllEnabled(s) && s.afterId == None && s.timers == s0.timers
      && s.writers == ["get angle 1\n"] && s.written == s0.written + ["ping\n"]
      && s.transcript == s0.transcript + ["Sending: ping", TimeoutLine] + ["Received: pong"]
  {
    PingTimesOutSteps(s0);
    var s3 := Step(Step(Step(s0, Click(0)), WriterRuns(0, Written)), TimerFires(s0.nextTimer));
    EarlyReplySteps(s3);
    Run6(s0, Click(0), WriterRuns(0, Written), TimerFires(s0.nextTimer),
         Click(2), ReaderPolls(LineRead("pong\r\n")), IdleRuns);
  }

  // Writer threads overlap

  /** Writer thread k succeeding. */
  lemma WriterWrites(s: State, k: nat)
    requires k < |s.writers| && s.connected
    ensures var r := Step(s, WriterRuns(k, Written));
      && r.writers == s.writers[..k] + s.writers[k + 1..] && r.written == s.written + [s.writers[k]]
  {
    WriterStep(s, k, Written);
  }

  lemma WriterStep(s: State, k: nat, outcome: WriteOutcome)
    requires k < |s.writers| && s.connected
    ensures Step(s, WriterRuns(k, outcome)) == RunWriter(s, k, outcome)
  {
  }

  lemma OverlapSteps(s0: State)
    requires Quiet(s0)
    ensures var s := Step(Step(Step(s0, Click(0)), TimerFires(s0.nextTimer)), Click(2));
      && s.inProgress && s.connected && s.writers == ["ping\n", "get angle 1\n"]
      && s.transcript == s0.transcript + [TimeoutLine] && s.written == s0.written
  {
    var t := s0.nextTimer;
    ClickPing(s0);
    SubmitWhileConnected(s0, "ping\n");
    var s1 := Submit(s0, "ping\n");
    ArmedTimerFires(s1, t);
    TimeoutEndsCommand(s1.(timers := s1.timers - {t}));
    var s2 := Step(s1, TimerFires(t));
    StepPreservesInv(s0, Click(0));
    StepPreservesInv(s1, TimerFires(t));
    ClickGetAngleOne(s2);
    SubmitWhileConnected(s2, "get angle 1\n");
  }

  lemma ReorderSteps(s3: State)
    requires s3.writers == ["ping\n", "get angle 1\n"] && s3.connected
    ensures var s := Step(Step(s3, WriterRuns(1, Written)), WriterRuns(0, Written));
      && s.writers == [] && s.written == s3.written + ["get angle 1\n", "ping\n"]
  {
    WriterWrites(s3, 1);
    var s4 := Step(s3, WriterRuns(1, Written));
    assert s3.writers[..1] + s3.writers[2..] == ["ping\n"];
    WriterWrites(s4, 0);
    assert s4.writers[..0] + s4.writers[1..] == [];
    AppendPair(s3.written, "get angle 1\n", "ping\n");
  }

  /**
   * A Ping that times out before its thread has run leaves that thread
   * pending; Get Angle 1 then starts a second one, and both are pending at once.
   */
  lemma WritersOverlap(s0: State)
    requires Quiet(s0)
    ensures var s := Run(s0, [Click(0), TimerFires(s0.nextTimer), Click(2)]);
      && s.inProgress && s.writers == ["ping\n", "get angle 1\n"]
      && s.transcript == s0.transcript + [TimeoutLine] && s.written == s0.written
  {
    OverlapSteps(s0);
    Run3(s0, Click(0), TimerFires(s0.nextTimer), Click(2));
  }

  /**
   * Nothing orders the two pending threads: if the second runs first, the
   * port receives the lines in the opposite order to the clicks.
   */
  lemma WritesCanReorder(s0: State)
    requires Quiet(s0)
    ensures var s := Run(s0, [Click(0), TimerFires(s0.nextTimer), Click(2),
                              WriterRuns(1, Written), WriterRuns(0, Written)]);
      && s.writers == [] && s.written == s0.written + ["get angle 1\n", "ping\n"]
  {
    OverlapSteps(s0);
    ReorderSteps(Step(Step(Step(s0, Click(0)), TimerFires(s0.nextTimer)), Click(2)));
    Run5(s0, Click(0), TimerFires(s0.nextTimer), Click(2), WriterRuns(1, Written), WriterRuns(0, Written));
  }
}
