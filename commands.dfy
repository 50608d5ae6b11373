/**
 * The command methods of `Usc3` as a table: which opcode each one sends and which
 * value, if any, it passes to `_execute_command`.
 */
module Commands {
  import opened Wrappers
  import opened Text
  import opened Codec
  import opened BitPack
  import Status

  /** One call of a command method, with its arguments and their defaults. */
  datatype Command =
    | GetMarkTime
    | Save
    | Load
    | GetTemperature
    | GetHomePosition
    | SetHomePosition(vector: seq<int>)
    | GetDigitalOut
    | SetDigitalOut(binaryValue: int)
    | GetDigitalIn
    | GetAnalogIn(address: int)
    | GetPulse
    | SetPulse(outputList: seq<int>, pulseWidth: int)
    | Run
    | Stop
    | GetLoopCount
    | SetLoopCount(numLoops: int := 1)
    | SetLaserDisableFlag(inputPin: int := DefaultInputPin, triggerMode: int := EdgeTriggered)

  /** `set_pulse` needs pins from 1 up for `2**(pin-1)` to be an int. */
  predicate WellFormed(c: Command) {
    c.SetPulse? ==> PinsFrom1(c.outputList)
  }

  /** The arguments of one `_execute_command` call: opcode text and optional value. */
  datatype Request = Request(opcode: string, value: Option<Param>)

  function RequestOf(c: Command): Request
    requires WellFormed(c)
  {
    match c
    case GetMarkTime => Request("GTI 0", None)
    case Save => Request("SVG", None)
    case Load => Request("LDG", None)
    case GetTemperature => Request("GUT", None)
    case GetHomePosition => Request("HP", None)
    case SetHomePosition(vector) => Request("HP", Some(Vector(vector)))
    case GetDigitalOut => Request("OOF", None)
    case SetDigitalOut(binaryValue) => Request("OOF", Some(Scalar(binaryValue)))
    case GetDigitalIn => Request("OIF", None)
    case GetAnalogIn(address) => Request("AIN", Some(Scalar(address)))
    case GetPulse => Request("LPJ", None)
    case SetPulse(outputList, _) => Request("LPJ", Some(Scalar(OutputMask(outputList))))
    case Run => Request("M", Some(Scalar(1)))
    case Stop => Request("M", Some(Scalar(0)))
    case GetLoopCount => Request("LC", None)
    case SetLoopCount(numLoops) => Request("AC", Some(Scalar(numLoops)))
    case SetLaserDisableFlag(inputPin, triggerMode) =>
      Request("FLAGS", Some(Scalar(DisableFlag(inputPin, triggerMode))))
  }

  /** Every opcode is printable ASCII: upper-case letters, a space and a digit. */
  lemma OpcodeIsAscii(c: Command)
    requires WellFormed(c)
    ensures IsAscii(RequestOf(c).opcode) && '\n' !in RequestOf(c).opcode
  {
  }

  /** The opcode's bytes as the command method writes them. */
  function Opcode(c: Command): seq<byte>
    requires WellFormed(c)
  {
    OpcodeIsAscii(c);
    Ascii(RequestOf(c).opcode)
  }

  /** The bytes a command sends. */
  function FrameOf(c: Command): seq<byte>
    requires WellFormed(c)
  {
    Frame(Opcode(c), RequestOf(c).value)
  }

  /** Every command is sent as exactly one CR LF terminated line. */
  lemma EveryFrameIsOneLine(c: Command)
    requires WellFormed(c)
    ensures var f := FrameOf(c);
            |f| >= 2 && f[|f| - 2..] == Terminator && LF !in f[..|f| - 1]
  {
    OpcodeIsAscii(c);
    var op := Opcode(c);
    assert LF !in op by {
      forall i | 0 <= i < |op| ensures op[i] != LF {
        assert op[i] as int == RequestOf(c).opcode[i] as int;
      }
    }
    FrameIsOneLine(op, RequestOf(c).value);
  }

  /** `run()` and `stop()` send the same bytes, `M \r\n`: 1 and 0 both lose their only digit. */
  lemma RunAndStopAlike()
    ensures FrameOf(Run) == FrameOf(Stop) == Ascii("M \r\n")
  {
    ShortScalarsVanish(1);
    ShortScalarsVanish(0);
  }

  /** `get_mark_time()` sends `GTI 0\r\n`, its argument written into the opcode. */
  lemma MarkTimeFrame()
    ensures FrameOf(GetMarkTime) == Ascii("GTI 0\r\n")
  {
  }

  /** `set_pulse` sends the output mask; the pulse width never reaches the frame. */
  lemma PulseWidthIgnored(outputList: seq<int>, width1: int, width2: int)
    requires PinsFrom1(outputList)
    ensures FrameOf(SetPulse(outputList, width1)) == FrameOf(SetPulse(outputList, width2))
    ensures RequestOf(SetPulse(outputList, width1)).value == Some(Scalar(OutputMask(outputList)))
  {
  }

  /** With its defaults, pin 6 edge-triggered, `set_laser_disable_flag()` sends `FLAGS \r\n`. */
  lemma DefaultDisableFlagFrame()
    ensures SetLaserDisableFlag() == SetLaserDisableFlag(6, 0x10)
    ensures FrameOf(SetLaserDisableFlag()) == Ascii("FLAGS \r\n")
  {
    DefaultDisableFlag();
    ShortScalarsVanish(22);
  }

  /** With its default of one loop, `set_loop_count()` sends `AC \r\n`; `get_loop_count()` uses `LC`. */
  lemma LoopCountFrames()
    ensures FrameOf(SetLoopCount()) == FrameOf(SetLoopCount(1)) == Ascii("AC \r\n")
    ensures FrameOf(GetLoopCount) == Ascii("LC\r\n")
  {
    ShortScalarsVanish(1);
  }

  /** A non-empty home position sent by `set_home_position` can be read back from its frame. */
  lemma HomePositionFrameRoundTrip(vector: seq<int>)
    requires |vector| > 0
    ensures DecodeVectorFrame(Ascii("HP"), FrameOf(SetHomePosition(vector))) == Some(vector)
  {
    FramedVectorRoundTrip(Ascii("HP"), vector);
  }

  /** Why `get_home_position` cannot produce a list. */
  datatype HomeError =
    | TypeError   // `bytes.split(' ')`: a str separator on bytes
    | ValueError  // a piece that `int()` does not accept

  /**
   * `[int(n) for n in reply.split(' ')]` on what `_execute_command` returned.
   * Python's tolerance of whitespace around a numeral is not part of this model.
   */
  function HomePosition(reply: Status.PyObj): Result<seq<int>, HomeError> {
    match reply
    case Bytes(_) => Err(TypeError)
    case Str(s) =>
      match ParseInts(s)
      case Some(v) => Ok(v)
      case None => Err(ValueError)
  }

  /**
   * Whatever line the device sends, `_execute_command` hands it back as raw `bytes`
   * and the parse raises.
   */
  lemma HomePositionOfReply(line: seq<byte>)
    ensures HomePosition(Status.Classify(Status.Bytes(line))) == Err(TypeError)
  {
    Status.BytesReturnedRaw(line);
  }

  /** Text laid out as `set_home_position` sends it parses back to the vector. */
  lemma HomePositionParsesPayload(vector: seq<int>)
    requires |vector| > 0
    ensures HomePosition(Status.Str(ParamText(Vector(vector)))) == Ok(vector)
  {
    VectorRoundTrip(vector);
  }
}
