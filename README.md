# USC-3 laser controller client, modelled in Dafny

This project models `pyUSC3.py`, the serial client of a laser-marking controller
(the SCAPS USC-3 board driving a NuQ marking laser). The client does five things,
and each has a module here:

- **Command framing** (`Codec`): `_execute_command(data, val)` sends the opcode
  bytes, then for a present value a space and `str(val)[1:-1].replace(',', '')` in
  ASCII, then CR LF. For a list this is its elements' decimal texts joined by single
  spaces. For a single int the slice drops the first and last character of the
  decimal text. So 0 and 1 send an empty text (`run()` and `stop()` both send
  `M \r\n`), and so does every value from -9 to 99.
- **Response classification** (`Status`): `comm_codes` maps the texts `'0'`..`'18'`
  to descriptions. The reply is the line `read_until(b'\n')` returns, terminator
  included, and it is looked up unchanged. Its keys are `str` while the reply is
  `bytes`, which Python 3 never finds equal. So every reply comes back raw. Even read
  as text, a reply that still ends in LF could never match a key.
- **Port selection** (`Discovery`): `_port_seek` keeps the enumerated devices whose
  serial number equals the configured one. With none configured, it keeps those whose
  vendor id is 0x2341. It returns the port of the last match, and an empty match list
  raises (`port_list[-1]`). `connect` treats an empty port name as "not found" and
  otherwise records the port and opens it.
- **Bit packing** (`BitPack`): `set_pulse` sums `2**(pin-1)` over its pins and
  ignores the pulse width. `set_laser_disable_flag` sends `input_pin + trigger_mode`,
  with defaults 6 and 0x10.
- **Command surface** (`Commands`, `Client`): each command method is one
  `_execute_command` call with a fixed opcode and an optional value.

The serial port is an in-memory stream (`Transport.SerialLink`). It holds the bytes
written so far and the bytes received but not yet read. `_send` appends to the first.
`_recv` takes the first line off the second. The `Usc3` class holds the
`serial_number`, `port` and `serial` fields, and its methods are proved to append
exactly one frame and consume exactly one reply line per command.

Python's text handling that the client relies on is modelled in `Text`: `str(n)` of
an int, `int()` on a plain numeral, `join`, `split` and `replace`.

Three behaviours of the code that a reader might not expect are modelled as written:

- `str(val)[1:-1]` drops the first and last character of a scalar's decimal text, so
  the controller is sent `2` for 123 and nothing for 0 to 99.
- The raw `bytes` reply, terminator included, is looked up in a table keyed by `str`,
  so it never matches and every reply is returned unchanged.
- `get_home_position` calls `bytes.split(' ')` with a `str` separator, which raises
  `TypeError`.

## Model

| member | source | states |
|---|---|---|
| `Text.DecimalRoundTrip` | pyUSC3.py:104 | `int(str(n)) == n` for every int: the decimal text the list rendering uses is read back exactly |
| `Text.SplitJoin` | pyUSC3.py:136 | splitting `c.join(parts)` on `c` gives back `parts` when no part contains `c` |
| `Text.WithoutCommasJoin` | pyUSC3.py:104 | removing the commas from `', '.join(parts)` of comma-free parts gives `' '.join(parts)` |
| `Codec.VectorText` | pyUSC3.py:104 | a list value's text is its elements' decimal texts joined by single spaces, with no brackets or commas |
| `Codec.ScalarText` | pyUSC3.py:104 | a scalar's text is its decimal text without the first and last character: `n >= 10` keeps the digits of `n / 10` after the leading one; `n <= -10` keeps the digits of `-n / 10`; anything else gives the empty text |
| `Codec.ShortScalarsVanish` | pyUSC3.py:104 | every scalar from -9 to 99 is sent with an empty parameter text |
| `Codec.ParamTextChars` | pyUSC3.py:104 | a parameter text holds only digits, `-` and spaces, so its ASCII encoding cannot fail |
| `Codec.VectorRoundTrip` | pyUSC3.py:104 | a non-empty list's text, split on spaces and parsed, gives back the list |
| `Codec.EmptyVectorLost` | pyUSC3.py:104 | the empty list is sent as an empty text, which does not parse back |
| `Codec.BareFrame` | pyUSC3.py:101-105 | without a value the frame is exactly the opcode followed by CR LF |
| `Codec.FrameIsOneLine` | pyUSC3.py:101-105 | every frame ends in CR LF and, for an opcode without LF, holds no other LF |
| `Codec.FramedVectorRoundTrip` | pyUSC3.py:101-105 | a frame with a non-empty list value decodes back to that list: opcode, space, payload, CR LF |
| `Status.CodesHaveEntries` | pyUSC3.py:56-76 | each code 0..18 has an entry in the status table, and `'0'` means `Success` |
| `Status.EntriesAreCodes` | pyUSC3.py:56-76 | every key of the status table is the decimal text of a code 0..18 |
| `Status.CommCodesKeys` | pyUSC3.py:56-76 | the table's keys are exactly the decimal texts of 0..18 |
| `Status.ClassifyCases` | pyUSC3.py:107-111 | a reply is replaced by its description exactly when it is the text of a code 0..18; every other reply is returned unchanged |
| `Status.BytesReturnedRaw` | pyUSC3.py:107-111 | a `bytes` reply never equals a `str` key and is returned verbatim |
| `Status.TerminatedReturnedRaw` | pyUSC3.py:107-111 | even as text, a reply ending in LF matches no key and is returned verbatim |
| `Discovery.PortListMembers` | pyUSC3.py:88-92 | the port list holds exactly the ports of the devices that pass the serial-number or vendor-id filter |
| `Discovery.PortSeekFails` | pyUSC3.py:86-93 | `_port_seek` fails exactly when no enumerated device passes the filter |
| `Discovery.PortSeekLast` | pyUSC3.py:86-93 | a successful `_port_seek` returns the port of a device that passes the filter, and no later device passes it |
| `Discovery.FilterIgnoresOtherField` | pyUSC3.py:89-92 | a configured serial number selects a device whatever its vendor id; without one, vendor id 0x2341 selects it whatever its serial number |
| `BitPack.OutputMaskBits` | pyUSC3.py:200 | for distinct pins from 1 to 22, the mask has bit `p - 1` set exactly for the listed pins and is below 2^22 |
| `BitPack.DuplicatePinCarries` | pyUSC3.py:200 | a repeated pin is added twice: `[p, p]` gives the mask of `[p + 1]` |
| `BitPack.DisableFlagFields` | pyUSC3.py:227 | for a pin below 16 and mode 0 or 0x10 the word equals the bitwise OR: `word % 16` is the pin, `word / 16` the mode bit |
| `BitPack.DefaultDisableFlag` | pyUSC3.py:215 | the defaults, pin 6 edge-triggered, give the word 22 |
| `BitPack.DisableFlagInjective` | pyUSC3.py:215-227 | for pins 0 to 15 and the two trigger modes, two calls send the same word exactly when pin and mode are both equal |
| `BitPack.DisableFlagCollision` | pyUSC3.py:227 | the pin bound of 16 is needed: pin 16 level-triggered gives the same word as pin 0 edge-triggered |
| `Commands.EveryFrameIsOneLine` | pyUSC3.py:123-227 | every command method sends exactly one CR LF terminated line |
| `Commands.RunAndStopAlike` | pyUSC3.py:203-207 | `run()` and `stop()` send the same bytes, `M \r\n` |
| `Commands.MarkTimeFrame` | pyUSC3.py:123-124 | `get_mark_time()` sends `GTI 0\r\n` |
| `Commands.PulseWidthIgnored` | pyUSC3.py:200-201 | `set_pulse` sends the output mask as a scalar, and its frame is the same for every pulse width |
| `Commands.DefaultDisableFlagFrame` | pyUSC3.py:215-227 | `set_laser_disable_flag()` called without arguments means pin 6 edge-triggered and sends `FLAGS \r\n`: the word 22 loses both digits |
| `Commands.LoopCountFrames` | pyUSC3.py:209-213 | `set_loop_count()` called without arguments sends what `set_loop_count(1)` sends, `AC \r\n`, while `get_loop_count()` sends `LC\r\n` |
| `Commands.HomePositionFrameRoundTrip` | pyUSC3.py:138-139 | the frame `set_home_position` sends for a non-empty vector decodes back to the vector |
| `Commands.HomePositionOfReply` | pyUSC3.py:135-136 | whatever line the device replies with, `_execute_command` returns it as `bytes` and the parse raises `TypeError` |
| `Commands.HomePositionParsesPayload` | pyUSC3.py:136 | text laid out as `set_home_position` sends it parses back to the vector |
| `Transport.LineSplit` | pyUSC3.py:98-99 | a read line ends in LF and holds no earlier LF, and the line followed by the unread rest is the whole input |
| `Transport.SerialLink.Open` | pyUSC3.py:84 | an opened port has the given name and baud rate, nothing written, and the device's bytes pending |
| `Transport.SerialLink.Write` | pyUSC3.py:95-96 | writing appends all the data, once and in order, and reports its length |
| `Transport.SerialLink.ReadUntil` | pyUSC3.py:98-99 | reading takes exactly the input up to and including the first terminator and leaves the rest unread |
| `Client.Usc3.constructor` | pyUSC3.py:78-80 | a new client holds the given serial number and port and no open port yet |
| `Client.Usc3.Init` | pyUSC3.py:78-84 | with a port given, that port is opened at 115200 baud; otherwise discovery either fails (the constructor raises), finds an empty name (no port is opened), or finds a port that is recorded and opened |
| `Client.Usc3.Connect` | pyUSC3.py:113-121 | a failed seek propagates with `port` unchanged; an empty port name returns no connection with `port` unchanged; otherwise `port` is set and that port is opened |
| `Client.Usc3.Send` | pyUSC3.py:95-96 | `_send` appends the bytes to what the port has written and leaves the input alone |
| `Client.Usc3.Recv` | pyUSC3.py:98-99 | `_recv` returns the first line of the input, LF included, and leaves the rest unread |
| `Client.Usc3.ExecuteCommand` | pyUSC3.py:101-111 | one call appends exactly the frame of `(data, val)`, consumes exactly one reply line, and returns that line raw |
| `Client.Usc3.GetMarkTime` | pyUSC3.py:123-124 | sends `GTI 0` with no value and returns the classified reply |
| `Client.Usc3.Save` | pyUSC3.py:126-127 | sends `SVG` with no value |
| `Client.Usc3.Load` | pyUSC3.py:129-130 | sends `LDG` with no value |
| `Client.Usc3.GetTemperature` | pyUSC3.py:132-133 | sends `GUT` with no value |
| `Client.Usc3.GetHomePosition` | pyUSC3.py:135-136 | sends `HP` with no value; the raw reply makes the parse fail with `TypeError` |
| `Client.Usc3.SetHomePosition` | pyUSC3.py:138-139 | sends `HP` with the vector as a list value |
| `Client.Usc3.GetDigitalOut` | pyUSC3.py:141-142 | sends `OOF` with no value |
| `Client.Usc3.SetDigitalOut` | pyUSC3.py:144-145 | sends `OOF` with the value as a scalar |
| `Client.Usc3.GetDigitalIn` | pyUSC3.py:147-148 | sends `OIF` with no value |
| `Client.Usc3.GetAnalogIn` | pyUSC3.py:150-151 | sends `AIN` with the address as a scalar |
| `Client.Usc3.GetPulse` | pyUSC3.py:153-154 | sends `LPJ` with no value |
| `Client.Usc3.SetPulse` | pyUSC3.py:156-201 | sends `LPJ` with the summed pin mask as a scalar |
| `Client.Usc3.Run` | pyUSC3.py:203-204 | sends `M` with the scalar 1 |
| `Client.Usc3.Stop` | pyUSC3.py:206-207 | sends `M` with the scalar 0 |
| `Client.Usc3.GetLoopCount` | pyUSC3.py:209-210 | sends `LC` with no value |
| `Client.Usc3.SetLoopCount` | pyUSC3.py:212-213 | sends `AC` with the loop count as a scalar; the loop count defaults to 1 |
| `Client.Usc3.SetLaserDisableFlag` | pyUSC3.py:215-227 | sends `FLAGS` with `input_pin + trigger_mode` as a scalar; pin and mode default to 6 and 0x10 |

## Left out

- Opening a real port (`serial.Serial`), its baud setting and the OS port list
  (`list_ports.comports()`) are foreign calls. The device list and the bytes the
  device sends are parameters (`devices`, `incoming`), and the baud rate is only
  recorded.
- `Client.Usc3.Recv` and every command method require the reply's LF to be in the
  input already. `read_until` without a timeout blocks until it arrives, and that
  waiting is not modelled.
- Failures of the serial layer itself (`SerialException` on open, write or read) are
  not modelled.
- The message `connect` prints when no port is found is console output.
- `Client.Usc3.SetPulse` and `Commands.RequestOf` require pins from 1 up. For a pin
  of 0 or below, `2**(pin-1)` is a Python float, whose text is not modelled.
- `Text.DecimalText` renders every int. Python 3.11 and later raise `ValueError` in
  `str(val)` for an int of more than 4300 digits, and that limit is not modelled.
- `Text.ParseDecimal` accepts only an optional `-` followed by digits. Python's
  `int()` also accepts surrounding whitespace, `+` and `_`, so
  `Commands.HomePosition` is stricter on text replies. Such replies never reach it,
  since `_execute_command` returns `bytes`.
- The command methods accept any Python object as a value. The model covers ints and
  lists of ints, the only kinds the methods are meant for.
- Calling a command on a client whose `serial` is `None` raises `AttributeError` in
  Python. Here `Ready()` requires an open port.
- The hardware notes in the module docstring and the pin table in `set_pulse` are
  prose.
