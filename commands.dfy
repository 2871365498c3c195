/**
 * The command lines the panel writes to the motor controller, and the
 * slider values they carry.
 *
 * A slider holds an angle in hundredths of a degree (the Tk scale has
 * resolution 0.01 and range -720..720). Tk hands the value back with two
 * decimals and Python renders the resulting float in its shortest form, so
 * 12.50 degrees is written "12.5" and 0 degrees "0.0"; FormatAngle is that
 * rendering. Decode is the reading a controller would make of a line; it
 * is the partner that shows each line names exactly one command.
 */
module Commands {
  import opened Wrappers
  import opened Text

  /** Slider bounds, in hundredths of a degree. */
  const MinAngle: int := -72000
  const MaxAngle: int := 72000

  /** Number of motors, sliders, get-angle buttons and move buttons alike. */
  const MotorCount: nat := 3

  /** What the Tk scale does with a value the user drags outside its range. */
  function ClampAngle(v: int): (r: int)
    ensures MinAngle <= r <= MaxAngle
    ensures MinAngle <= v <= MaxAngle ==> r == v
  {
    if v < MinAngle then MinAngle else if v > MaxAngle then MaxAngle else v
  }

  /** No value in range is closer to what the user asked for than the clamped one. */
  lemma ClampIsNearest(v: int, w: int)
    requires MinAngle <= w <= MaxAngle
    ensures Dist(ClampAngle(v), v) <= Dist(w, v)
  {
  }

  function Dist(a: int, b: int): nat {
    if a < b then b - a else a - b
  }

  predicate IsAngleChar(c: char) {
    IsDigit(c) || c == '.' || c == '-'
  }

  /** The fractional part, two digits with a trailing zero dropped. */
  function FractionDigits(f: nat): (r: string)
    requires f < 100
    ensures r != [] && AllDigits(r)
  {
    if f % 10 == 0 then [DigitChar(f / 10)] else [DigitChar(f / 10), DigitChar(f % 10)]
  }

  /** Python's rendering of the slider's float value `h / 100`. */
  function FormatAngle(h: int): (r: string)
    ensures r != [] && IsDigit(r[|r| - 1]) && (IsDigit(r[0]) || r[0] == '-')
    ensures forall i :: 0 <= i < |r| ==> IsAngleChar(r[i])
  {
    var m: nat := if h < 0 then -h else h;
    (if h < 0 then "-" else "") + UnsignedAngle(m)
  }

  function UnsignedAngle(m: nat): (r: string)
    ensures |r| >= 3 && IsDigit(r[0]) && IsDigit(r[|r| - 1])
    ensures forall i :: 0 <= i < |r| ==> IsAngleChar(r[i])
  {
    NatToString(m / 100) + "." + FractionDigits(m % 100)
  }

  function ParseUnsignedAngle(s: string): Option<nat> {
    if |s| >= 3 && s[|s| - 2] == '.' && IsDigit(s[|s| - 1]) && AllDigits(s[..|s| - 2]) then
      Some(DigitsValue(s[..|s| - 2]) * 100 + DigitValue(s[|s| - 1]) * 10)
    else if |s| >= 4 && s[|s| - 3] == '.' && IsDigit(s[|s| - 2]) && IsDigit(s[|s| - 1])
         && AllDigits(s[..|s| - 3]) then
      Some(DigitsValue(s[..|s| - 3]) * 100 + DigitValue(s[|s| - 2]) * 10 + DigitValue(s[|s| - 1]))
    else None
  }

  /** Reads an angle written as decimal degrees with one or two fractional digits. */
  function ParseAngle(s: string): Option<int> {
    if |s| > 0 && s[0] == '-' then
      match ParseUnsignedAngle(s[1..])
      case Some(m) => Some(-(m as int))
      case None => None
    else
      match ParseUnsignedAngle(s)
      case Some(m) => Some(m)
      case None => None
  }

  lemma {:induction false} ParseUnsignedAngleRoundTrip(m: nat)
    ensures ParseUnsignedAngle(UnsignedAngle(m)) == Some(m)
  {
    var n := NatToString(m / 100);
    var f := m % 100;
    var s := UnsignedAngle(m);
    DigitsValueOfNatToString(m / 100);
    if f % 10 == 0 {
      assert s[..|s| - 2] == n;
      assert s[|s| - 1] == DigitChar(f / 10);
    } else {
      assert s[|s| - 2] != '.';
      assert s[..|s| - 3] == n;
      assert s[|s| - 2] == DigitChar(f / 10) && s[|s| - 1] == DigitChar(f % 10);
    }
  }

  /** The rendered angle reads back as the slider value: nothing is rounded away. */
  lemma FormatAngleRoundTrip(h: int)
    ensures ParseAngle(FormatAngle(h)) == Some(h)
  {
    var m: nat := if h < 0 then -h else h;
    ParseUnsignedAngleRoundTrip(m);
    var s := FormatAngle(h);
    if h < 0 {
      assert s[0] == '-' && s[1..] == UnsignedAngle(m);
    } else {
      assert s == UnsignedAngle(m);
    }
  }

  /** A request to the motor controller. Motors are numbered 1 to 3. */
  datatype Command = Ping | GetAngle(motor: nat) | MoveMotor(motor: nat, angle: int)

  predicate IsMotor(n: nat) {
    1 <= n <= MotorCount
  }

  /** The commands the panel's buttons can build. */
  predicate ValidCommand(c: Command) {
    match c
    case Ping => true
    case GetAngle(n) => IsMotor(n)
    case MoveMotor(n, _) => IsMotor(n)
  }

  /** The text written to the serial port: one line, ended by its only newline. */
  function Encode(c: Command): (r: string)
    ensures |r| >= 2 && r[|r| - 1] == '\n'
    ensures forall i :: 0 <= i < |r| - 1 ==> r[i] != '\n'
    ensures !IsSpace(r[0]) && !IsSpace(r[|r| - 2])
  {
    match c
    case Ping => "ping\n"
    case GetAngle(n) => "get angle " + NatToString(n) + "\n"
    case MoveMotor(n, a) =>
      var digits := NatToString(n);
      var angle := FormatAngle(a);
      var line := "move motor " + digits + " absolute " + angle;
      assert forall i :: 0 <= i < |digits| ==> digits[i] != '\n';
      assert forall i :: 0 <= i < |angle| ==> angle[i] != '\n';
      assert forall i :: 0 <= i < |line| ==> line[i] != '\n';
      line + "\n"
  }

  predicate IsMotorDigit(c: char) {
    c == '1' || c == '2' || c == '3'
  }

  /** How a controller reads one received line. */
  function Decode(s: string): (r: Option<Command>)
    ensures r.Some? ==> ValidCommand(r.value)
  {
    if s == "ping\n" then Some(Ping)
    else if |s| == 12 && s[..10] == "get angle " && IsMotorDigit(s[10]) && s[11] == '\n' then
      Some(GetAngle(DigitValue(s[10])))
    else if |s| >= 23 && s[..11] == "move motor " && IsMotorDigit(s[11])
         && s[12..22] == " absolute " && s[|s| - 1] == '\n' then
      match ParseAngle(s[22..|s| - 1])
      case Some(a) => Some(MoveMotor(DigitValue(s[11]), a))
      case None => None
    else None
  }

  /** Every command the panel builds is read back as itself. */
  lemma DecodeEncode(c: Command)
    requires ValidCommand(c)
    ensures Decode(Encode(c)) == Some(c)
  {
    match c
    case Ping =>
    case GetAngle(n) => DecodeGetAngle(n);
    case MoveMotor(n, a) => DecodeMoveMotor(n, a);
  }

  lemma DecodeGetAngle(n: nat)
    requires IsMotor(n)
    ensures Decode(Encode(GetAngle(n))) == Some(GetAngle(n))
  {
    var s := Encode(GetAngle(n));
    assert NatToString(n) == [DigitChar(n)];
    assert s[..10] == "get angle ";
    assert s != "ping\n" by { assert |s| != 5; }
  }

  lemma DecodeMoveMotor(n: nat, a: int)
    requires IsMotor(n)
    ensures Decode(Encode(MoveMotor(n, a))) == Some(MoveMotor(n, a))
  {
    var s := Encode(MoveMotor(n, a));
    var t := FormatAngle(a);
    assert NatToString(n) == [DigitChar(n)];
    assert s == "move motor " + [DigitChar(n)] + " absolute " + t + "\n";
    assert s != "ping\n" by { assert s[0] != 'p'; }
    assert s[..10] != "get angle " by { assert s[0] != 'g'; }
    assert s[..11] == "move motor ";
    assert s[12..22] == " absolute ";
    assert s[22..|s| - 1] == t;
    FormatAngleRoundTrip(a);
  }

  /** Distinct commands are written as distinct lines. */
  lemma EncodeInjective(c: Command, d: Command)
    requires ValidCommand(c) && ValidCommand(d)
    ensures Encode(c) == Encode(d) ==> c == d
  {
    DecodeEncode(c);
    DecodeEncode(d);
  }

  /** Stripping a command, as the write path does before logging it, removes exactly its newline. */
  lemma StripEncode(c: Command)
    ensures Strip(Encode(c)) == Encode(c)[..|Encode(c)| - 1]
  {
    var s := Encode(c);
    assert s == s[..|s| - 1] + "\n";
    StripLine(s[..|s| - 1], "\n");
  }
}
