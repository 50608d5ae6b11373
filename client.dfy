/**
 * The `Usc3` client: its fields, port discovery at construction, `_send`, `_recv`,
 * `_execute_command` and one method per controller command.
 */
module Client {
  import opened Wrappers
  import opened Text
  import opened Codec
  import opened Status
  import opened Discovery
  import opened BitPack
  import opened Commands
  import opened Transport

  /** `SCAPS_BAUD_RATE`. */
  const BaudRate: int := 115200

  class Usc3 {
    var serialNumber: Option<string>
    var port: Option<string>
    /** The open port; `None` when `connect` found only an empty port name. */
    var serial: SerialLink?

    /** Ready for a command: a port is open and the device's reply line has arrived. */
    predicate Ready()
      reads this, serial
    {
      serial != null && LF in serial.incoming
    }

    /**
     * One `_execute_command(opcode, val)` took place: its frame was appended to what
     * was written, one reply line was taken off the input and `r` is that line
     * looked up in the status table.
     */
    twostate predicate Exchanged(opcode: seq<byte>, val: Option<Param>, r: PyObj)
      reads this, serial
    {
      && serial != null && old(serial) == serial
      && LF in old(serial.incoming)
      && serial.written == old(serial.written) + Frame(opcode, val)
      && serial.incoming == AfterLine(old(serial.incoming), LF)
      && r == Classify(Bytes(LineOf(old(serial.incoming), LF)))
    }

    /** One command method ran: it sent `c`'s opcode and value. */
    twostate predicate Performed(c: Command, r: PyObj)
      reads this, serial
    {
      WellFormed(c) && Exchanged(Opcode(c), RequestOf(c).value, r)
    }

    /** Object creation: the fields `__init__` sets before it opens a port. */
    constructor (serialNumber: Option<string>, port: Option<string>)
      ensures this.serialNumber == serialNumber && this.port == port && serial == null
    {
      this.serialNumber := serialNumber;
      this.port := port;
      serial := null;
    }

    /**
     * `Usc3(serial_number, port)`: opens `port` when one is given, otherwise
     * `connect`s to the discovered device; fails when discovery raises.
     * `devices` stands for the OS's port list, `incoming` for what the device sends.
     */
    static method Init(serialNumber: Option<string>, port: Option<string>,
                       devices: seq<Device>, incoming: seq<byte>)
      returns (r: Result<Usc3, SeekError>)
      ensures port.Some? ==>
                && r.Ok? && fresh(r.value) && r.value.serialNumber == serialNumber
                && r.value.port == port
                && r.value.serial != null && fresh(r.value.serial)
                && r.value.serial.port == port.value && r.value.serial.baudRate == BaudRate
                && r.value.serial.written == [] && r.value.serial.incoming == incoming
      ensures port.None? ==>
                var seek := PortSeek(devices, serialNumber);
                && (seek.Err? <==> r.Err?)
                && (seek.Ok? && seek.value == "" ==>
                      r.Ok? && fresh(r.value) && r.value.serialNumber == serialNumber
                      && r.value.port == None && r.value.serial == null)
                && (seek.Ok? && seek.value != "" ==>
                      && r.Ok? && fresh(r.value) && r.value.serialNumber == serialNumber
                      && r.value.port == Some(seek.value)
                      && r.value.serial != null && fresh(r.value.serial)
                      && r.value.serial.port == seek.value && r.value.serial.baudRate == BaudRate
                      && r.value.serial.written == [] && r.value.serial.incoming == incoming)
    {
      var client := new Usc3(serialNumber, port);
      if port.None? {
        var connected := client.Connect(devices, incoming);
        match connected
        case Err(e) =>
          return Err(e);
        case Ok(link) =>
          client.serial := link;
      } else {
        client.serial := new SerialLink.Open(port.value, BaudRate, incoming);
      }
      r := Ok(client);
    }

    /**
     * `connect()`: an empty port name reports "not found" and returns `None`;
     * otherwise the port is recorded and opened.
     */
    method Connect(devices: seq<Device>, incoming: seq<byte>) returns (r: Result<SerialLink?, SeekError>)
      modifies this`port
      ensures var seek := PortSeek(devices, serialNumber);
              && (seek.Err? ==> r == Err(seek.error) && port == old(port))
              && (seek.Ok? && seek.value == "" ==> r == Ok(null) && port == old(port))
              && (seek.Ok? && seek.value != "" ==>
                    && port == Some(seek.value)
                    && r.Ok? && r.value != null && fresh(r.value)
                    && r.value.port == seek.value && r.value.baudRate == BaudRate
                    && r.value.written == [] && r.value.incoming == incoming)
    {
      var seek := PortSeek(devices, serialNumber);
      if seek.Err? {
        return Err(seek.error);
      }
      var usc3Port := seek.value;
      if |usc3Port| == 0 {
        r := Ok(null);
      } else {
        port := Some(usc3Port);
        var link := new SerialLink.Open(usc3Port, BaudRate, incoming);
        r := Ok(link);
      }
    }

    /** `_send(byte_string)`. */
    method Send(byteString: seq<byte>) returns (count: nat)
      requires serial != null
      modifies serial
      ensures serial.written == old(serial.written) + byteString
      ensures serial.incoming == old(serial.incoming) && count == |byteString|
    {
      count := serial.Write(byteString);
    }

    /** `_recv()`: one LF-terminated line, terminator included. */
    method Recv() returns (response: seq<byte>)
      requires Ready()
      modifies serial
      ensures response == LineOf(old(serial.incoming), LF)
      ensures serial.incoming == AfterLine(old(serial.incoming), LF)
      ensures serial.written == old(serial.written)
    {
      response := serial.ReadUntil(LF);
    }

    /**
     * `_execute_command(data, val)`: writes one frame, reads one line, and returns
     * it raw, since a `bytes` reply never matches a status key.
     */
    method ExecuteCommand(data: seq<byte>, val: Option<Param>) returns (r: PyObj)
      requires Ready()
      modifies serial
      ensures Exchanged(data, val, r)
      ensures r == Bytes(LineOf(old(serial.incoming), LF))
    {
      var toWrite := data;
      if val.Some? {
        ParamTextChars(val.value);
        toWrite := toWrite + [Space] + Ascii(ParamText(val.value));
      }
      toWrite := toWrite + Terminator;
      var _ := Send(toWrite);
      var response := Recv();
      r := Classify(Bytes(response));
    }

    method GetMarkTime() returns (r: PyObj)
      requires Ready()
      modifies serial
      ensures Performed(Command.GetMarkTime, r)
    {
      r := ExecuteCommand(Ascii("GTI 0"), None);
    }

    method Save() returns (r: PyObj)
      requires Ready()
      modifies serial
      ensures Performed(Command.Save, r)
    {
      r := ExecuteCommand(Ascii("SVG"), None);
    }

    method Load() returns (r: PyObj)
      requires Ready()
      modifies serial
      ensures Performed(Command.Load, r)
    {
      r := ExecuteCommand(Ascii("LDG"), None);
    }

    method GetTemperature() returns (r: PyObj)
      requires Ready()
      modifies serial
      ensures Performed(Command.GetTemperature, r)
    {
      r := ExecuteCommand(Ascii("GUT"), None);
    }

    /** `get_home_position()`: the reply split on spaces and parsed; a `bytes` reply raises. */
    method GetHomePosition() returns (r: Result<seq<int>, HomeError>)
      requires Ready()
      modifies serial
      ensures serial.written == old(serial.written) + FrameOf(Command.GetHomePosition)
      ensures serial.incoming == AfterLine(old(serial.incoming), LF)
      ensures r == HomePosition(Classify(Bytes(LineOf(old(serial.incoming), LF))))
      ensures r == Err(TypeError)
    {
      var reply := ExecuteCommand(Ascii("HP"), None);
      r := HomePosition(reply);
    }

    method SetHomePosition(vector: seq<int>) returns (r: PyObj)
      requires Ready()
      modifies serial
      ensures Performed(Command.SetHomePosition(vector), r)
    {
      r := ExecuteCommand(Ascii("HP"), Some(Vector(vector)));
    }

    method GetDigitalOut() returns (r: PyObj)
      requires Ready()
      modifies serial
      ensures Performed(Command.GetDigitalOut, r)
    {
      r := ExecuteCommand(Ascii("OOF"), None);
    }

    method SetDigitalOut(binaryValue: int) returns (r: PyObj)
      requires Ready()
      modifies serial
      ensures Performed(Command.SetDigitalOut(binaryValue), r)
    {
      r := ExecuteCommand(Ascii("OOF"), Some(Scalar(binaryValue)));
    }

    method GetDigitalIn() returns (r: PyObj)
      requires Ready()
      modifies serial
      ensures Performed(Command.GetDigitalIn, r)
    {
      r := ExecuteCommand(Ascii("OIF"), None);
    }

    method GetAnalogIn(address: int) returns (r: PyObj)
      requires Ready()
      modifies serial
      ensures Performed(Command.GetAnalogIn(address), r)
    {
      r := ExecuteCommand(Ascii("AIN"), Some(Scalar(address)));
    }

    method GetPulse() returns (r: PyObj)
      requires Ready()
      modifies serial
      ensures Performed(Command.GetPulse, r)
    {
      r := ExecuteCommand(Ascii("LPJ"), None);
    }

    /** `set_pulse(output_list, pulse_width)`: sends the pin mask; the width is unused. */
    method SetPulse(outputList: seq<int>, pulseWidth: int) returns (r: PyObj)
      requires Ready() && PinsFrom1(outputList)
      modifies serial
      ensures Performed(Command.SetPulse(outputList, pulseWidth), r)
    {
      var pins := OutputMask(outputList);
      r := ExecuteCommand(Ascii("LPJ"), Some(Scalar(pins)));
    }

    method Run() returns (r: PyObj)
      requires Ready()
      modifies serial
      ensures Performed(Command.Run, r)
    {
      r := ExecuteCommand(Ascii("M"), Some(Scalar(1)));
    }

    method Stop() returns (r: PyObj)
      requires Ready()
      modifies serial
      ensures Performed(Command.Stop, r)
    {
      r := ExecuteCommand(Ascii("M"), Some(Scalar(0)));
    }

    method GetLoopCount() returns (r: PyObj)
      requires Ready()
      modifies serial
      ensures Performed(Command.GetLoopCount, r)
    {
      r := ExecuteCommand(Ascii("LC"), None);
    }

    method SetLoopCount(numLoops: int := 1) returns (r: PyObj)
      requires Ready()
      modifies serial
      ensures Performed(Command.SetLoopCount(numLoops), r)
    {
      r := ExecuteCommand(Ascii("AC"), Some(Scalar(numLoops)));
    }

    method SetLaserDisableFlag(inputPin: int := DefaultInputPin, triggerMode: int := EdgeTriggered) returns (r: PyObj)
      requires Ready()
      modifies serial
      ensures Performed(Command.SetLaserDisableFlag(inputPin, triggerMode), r)
    {
      r := ExecuteCommand(Ascii("FLAGS"), Some(Scalar(inputPin + triggerMode)));
    }
  }
}
