/**
 * The serial port the client talks through, as an in-memory byte stream: what has
 * been written to the device and what the device has sent that is not yet read.
 */
module Transport {
  import opened Text

  /** The bytes up to and including the first `end`. */
  function LineOf(s: seq<byte>, end: byte): seq<byte>
    requires end in s
  {
    s[..IndexOf(s, end) + 1]
  }

  /** The bytes after the first `end`. */
  function AfterLine(s: seq<byte>, end: byte): seq<byte>
    requires end in s
  {
    s[IndexOf(s, end) + 1..]
  }

  /**
   * Reading a line splits the input in two: a line that ends in `end` and holds no
   * earlier `end`, followed by the untouched rest.
   */
  lemma LineSplit(s: seq<byte>, end: byte)
    requires end in s
    ensures LineOf(s, end) + AfterLine(s, end) == s
    ensures var line := LineOf(s, end);
            |line| >= 1 && line[|line| - 1] == end && end !in line[..|line| - 1]
  {
    var i := IndexOf(s, end);
    assert s[..i + 1][..i] == s[..i];
  }

  /** An open port (`serial.Serial`) with the bytes the device will send. */
  class SerialLink {
    const port: string
    const baudRate: int
    /** Every byte written so far, in order. */
    var written: seq<byte>
    /** The bytes received from the device and not yet read. */
    var incoming: seq<byte>

    constructor Open(port: string, baudRate: int, incoming: seq<byte>)
      ensures this.port == port && this.baudRate == baudRate
      ensures written == [] && this.incoming == incoming
    {
      this.port := port;
      this.baudRate := baudRate;
      written := [];
      this.incoming := incoming;
    }

    /** `write(data)`: all of `data` is sent, once and in order. */
    method Write(data: seq<byte>) returns (count: nat)
      modifies this
      ensures written == old(written) + data && incoming == old(incoming)
      ensures count == |data|
    {
      written := written + data;
      count := |data|;
    }

    /** `read_until(expected)`: blocks until `expected` arrives, so it is required here. */
    method ReadUntil(expected: byte) returns (line: seq<byte>)
      requires expected in incoming
      modifies this
      ensures line == LineOf(old(incoming), expected)
      ensures incoming == AfterLine(old(incoming), expected) && written == old(written)
    {
      line := LineOf(incoming, expected);
      incoming := AfterLine(incoming, expected);
    }
  }
}
