# USB I/O 24 command driver, modelled in Dafny

This project models the command layer of a Python 2 driver for the USB I/O 24
digital I/O board (`IOModule`, `usbio24/io.py`) and the relay-board layer built
on it (`RelayModule`, `usbio24/output.py`).

The board has three ports, A, B and C, each with eight pins. The driver talks to
it over a serial line with one-byte command selectors:

- a mode byte (1 or 2) sets the operating mode;
- `?` asks for the board's identity;
- a lowercase port letter reads a port, and the board answers with one byte;
- an uppercase port letter and a data byte write a port;
- `H` or `L` and a global pin index (0..23) set one pin high or low;
- `!`, the port letter and a mask set pin directions (bit set = input);
- `#`, `@` or `$` followed by a port-write frame configure pull-ups,
  input thresholds or Schmitt triggers.

A `RelayModule` is bound to one port. Construction makes every pin of that port
an output. `set_state` and `reset` write the whole port at once; `activate` and
`deactivate` switch single relays with `H`/`L` commands.

Files and modules:

- `serial.dfy`, module `Serial`: the serial connection as two byte logs. The
  class `Driver` holds the bytes written so far and the bytes the board will send.
  A read that finds no byte left stands for a read that timed out.
- `pinmask.dfy`, module `PinMask`: the masks, built as the driver builds them,
  by adding `2 ** (pin - 1)`. The lemmas compare them with a reference port
  value defined bit by bit.
- `io.dfy`, module `Io`: the exceptions (`Error`), the validators, one `Effect`
  function per command (the bytes it writes and how it ends), the mask loops,
  and the class `IOModule`. Each method of `IOModule` is proved to write exactly
  the bytes its `Effect` function gives.
- `output.dfy`, module `Output`: the relay-state sum, the specification of the
  `activate`/`deactivate` loops, and the class `RelayModule`.

Modelling choices:

- Python exceptions become the `Error` datatype, returned as `Outcome` or
  `Result`. `StructError` is the `struct.error` that `pack('B', x)` raises for
  x outside 0..255. `NoResponse` is the error `unpack` raises on the empty
  string that a timed-out `read()` returns.
- `str.upper()` is Python 2's byte-string upper-casing in the default C locale:
  only `a`..`z` change.
- `int(data)` in `write_port` is the identity, because data is an integer in the
  model. `set_state` passes the floor of its accumulated value, and that value
  is never negative.

Behaviour of the code worth knowing:

- The three raw selector commands write their selector byte, then call
  `write_port`. That call can still reject the argument. So a convenience
  pull-up, threshold or Schmitt call with a pin listed twice (for example
  `[8, 8]`, argument `255 - 256 = -1`) sends the selector alone and then raises
  `InvalidData`. This is a partial frame: a byte goes out although the call
  fails (`Io.DuplicatePinHazard`, `Io.FailuresSendNoFrame`).
- The convenience selector commands check the pins before the port, while
  `set_pin_direction` checks the port first. With both arguments bad, they
  raise different errors.
- `_set_pin_direction_raw` does not validate its argument. A mask over 255
  fails in `pack` before anything is sent.
- `set_state` does not validate relay numbers. Relay 0 adds one half, and
  relay 9 makes the data 256, which `write_port` rejects
  (`Output.SetStateUncheckedRelays`).
- `activate` and `deactivate` stop at the first invalid relay. The frames for
  the relays before it have already been sent
  (`Output.SequenceStopsAtInvalidRelay`).

## Model

| member | source | states |
|---|---|---|
| `Serial.LineLength` | usbio24/io.py:74 | the line `readline` consumes ends at the first line feed, which it includes, or runs to the end of the input when no line feed follows |
| `Serial.Driver.constructor` | usbio24/io.py:30 | a freshly opened connection has written nothing and holds the bytes the board will send |
| `Serial.Driver.Write` | usbio24/io.py:64 | a write appends exactly the frame to the output log and leaves the input alone |
| `Serial.Driver.Read` | usbio24/io.py:84 | `read()` takes the next input byte, or gives the empty string when no byte is left |
| `Serial.Driver.ReadLine` | usbio24/io.py:74 | `readline()` takes the first line of the input and leaves the rest |
| `PinMask.Pow2` | usbio24/io.py:161 | `2 ** n` is at least 1 |
| `PinMask.PinSum` | usbio24/io.py:158-161 | the mask accumulated over a list of pins in 1..8 is at least the list's length and at most 128 times it |
| `PinMask.PinWeight` | usbio24/io.py:161 | the weight `2 ** (pin - 1)` of a pin in 1..8 is at most 128 |
| `PinMask.PinSumIsPortValue` | usbio24/io.py:158-161 | for distinct pins in 1..8, the summed mask equals the reference port value of the set of listed pins |
| `PinMask.DirectionMaskBits` | usbio24/io.py:158-161 | for distinct pins in 1..8, the direction mask is at most 255, and bit k-1 is set iff pin k is listed |
| `PinMask.InvertedMaskBits` | usbio24/io.py:186-189 | for distinct pins in 1..8, `255 - sum` lies in 0..255, and bit k-1 is set iff pin k is not listed |
| `PinMask.MaskIgnoresOrder` | usbio24/io.py:158-161 | two lists of distinct pins that name the same pins give the same mask, in any order |
| `PinMask.MaskExamples` | usbio24/io.py:158-161 | mask of [] is 0 and its inverse 255; mask of all eight pins is 255 and its inverse 0; mask of [1, 8] is 129 |
| `PinMask.DuplicatePins` | usbio24/io.py:159-161 | a repeated pin breaks the bit semantics: [1, 1] gives the mask of [2]; [8, 8] gives 256, and 255 minus it is -1 |
| `Io.Upper` | usbio24/io.py:37 | `upper()` keeps the length and upper-cases each character independently |
| `Io.ValidatePort` | usbio24/io.py:36-38 | a port is accepted iff it is one of A, B, C, a, b, c; each spelling maps to its port; any other string gives InvalidPort |
| `Io.ValidatePin` | usbio24/io.py:40-42 | a pin is accepted iff it is in 1..8, otherwise InvalidPin |
| `Io.ValidateData` | usbio24/io.py:44-46 | data is accepted iff it is in 0..255, otherwise InvalidData |
| `Io.WriteCode` | usbio24/io.py:95 | the byte `port.upper()` packs is `A`, `B` or `C`, and read back as a port name it names the same port |
| `Io.ReadCode` | usbio24/io.py:81 | the byte `port.lower()` sends is the write letter plus 32, and read back as a port name it names the same port |
| `Io.Base` | usbio24/io.py:104-106 | port A, B, C start at global pin index 0, 8, 16: a multiple of 8, the port's position times 8 |
| `Io.GlobalPinIndex` | usbio24/io.py:104-107 | the pin index lies in 0..23; the index divided by 8 gives the port (A 0, B 1, C 2), and the index modulo 8, plus 1, gives the pin |
| `Io.PinIndexExamples` | usbio24/io.py:104-107 | A1 maps to 0, B1 to 8, C8 to 23 |
| `Io.GlobalPinIndexInjective` | usbio24/io.py:104-107 | distinct (port, pin) pairs get distinct indices |
| `Io.SetModeEffect` | usbio24/io.py:60-64 | mode 1 or 2 sends exactly that one byte; any other mode sends nothing and gives InvalidMode |
| `Io.ReadPortEffect` | usbio24/io.py:79-82 | a valid port sends exactly one byte, its lowercase letter (the uppercase code plus 32); an invalid port sends nothing and gives InvalidPort |
| `Io.WritePortEffect` | usbio24/io.py:92-96 | succeeds iff the port is valid and the data is in 0..255, and then sends exactly [uppercase letter, data]; otherwise sends nothing, with the port error taking precedence |
| `Io.PinEffect` | usbio24/io.py:101-110 | succeeds iff the port and pin are valid, and then sends exactly [H or L, global index]; otherwise sends nothing and gives InvalidPort or InvalidPin |
| `Io.DirectionRawEffect` | usbio24/io.py:132-134 | a valid port with an argument in 0..255 sends [!, uppercase letter, argument]; an invalid port gives InvalidPort; an out-of-range argument fails in packing; a failure sends nothing |
| `Io.DirectionEffect` | usbio24/io.py:155-163 | checks the port first, then every pin; on success sends [!, letter, sum of the pins' bit values]; a sum over 255 (only with a pin listed twice) fails with StructError; a failure sends nothing |
| `Io.SelectorEffect` | usbio24/io.py:175-179 | a valid port and byte argument send the selector and then the write-port frame, three bytes; an invalid port sends nothing; a bad argument sends the selector alone and gives InvalidData |
| `Io.InvertedEffect` | usbio24/io.py:186-191 | checks the pins before the port; an invalid pin sends nothing; otherwise behaves as the raw selector command with argument 255 minus the sum |
| `Io.DirectionMask` | usbio24/io.py:158-161 | the loop yields the sum of the pins' bit values when every pin is in 1..8, and InvalidPin otherwise |
| `Io.InvertedMask` | usbio24/io.py:186-189 | the loop yields 255 minus that sum when every pin is in 1..8, and InvalidPin otherwise |
| `Io.DirectionCommandBits` | usbio24/io.py:155-163 | distinct valid pins on a valid port give a three-byte `!` frame whose mask has exactly the listed pins' bits set |
| `Io.InvertedCommandBits` | usbio24/io.py:181-191 | distinct valid pins on a valid port give a three-byte selector frame whose argument has exactly the unlisted pins' bits set |
| `Io.EmptyAndFullPinLists` | usbio24/io.py:136-191 | the empty list gives [!, letter, 0] and [selector, letter, 255]; all eight pins give [selector, letter, 0] |
| `Io.DuplicatePinHazard` | usbio24/io.py:155-191 | with a repeated pin, [1, 1] acts as [2]; [8, 8] makes the direction command fail before sending; a selector command sends its selector alone and fails with InvalidData |
| `Io.FailuresSendNoFrame` | usbio24/io.py:36-46 | every failing command sends nothing, except the selector commands, which may have sent their selector byte alone |
| `Io.IOModule.constructor` | usbio24/io.py:28-31 | opening the module sends exactly the mode byte 1 |
| `Io.IOModule.SetMode` | usbio24/io.py:48-64 | appends exactly the bytes of SetModeEffect and returns its status |
| `Io.IOModule.Identify` | usbio24/io.py:66-74 | appends exactly `?` and returns the first line of the input, which it consumes |
| `Io.IOModule.ReadPort` | usbio24/io.py:76-85 | appends the lowercase letter; on a valid port it consumes one input byte and returns it, a value in 0..255; with no input it gives NoResponse; an invalid port sends and consumes nothing |
| `Io.IOModule.WritePort` | usbio24/io.py:87-96 | appends exactly the bytes of WritePortEffect and returns its status |
| `Io.IOModule.SetPinHigh` | usbio24/io.py:98-110 | appends exactly the `H` frame of PinEffect |
| `Io.IOModule.SetPinLow` | usbio24/io.py:112-124 | appends exactly the `L` frame of PinEffect |
| `Io.IOModule.SetPin` | usbio24/io.py:101-110 | the index computed step by step from the port base is the global pin index |
| `Io.IOModule.SetPinDirectionRaw` | usbio24/io.py:126-134 | appends exactly the bytes of DirectionRawEffect |
| `Io.IOModule.SetPinDirection` | usbio24/io.py:136-163 | appends exactly the bytes of DirectionEffect |
| `Io.IOModule.SelectorWrite` | usbio24/io.py:175-179 | selector, then write_port: appends exactly the bytes of SelectorEffect |
| `Io.IOModule.InvertedCommand` | usbio24/io.py:186-191 | appends exactly the bytes of InvertedEffect |
| `Io.IOModule.PortPullUpRaw` | usbio24/io.py:165-179 | SelectorEffect with `#` |
| `Io.IOModule.PortPullUp` | usbio24/io.py:181-191 | InvertedEffect with `#` |
| `Io.IOModule.SetThresholdRaw` | usbio24/io.py:193-207 | SelectorEffect with `@` |
| `Io.IOModule.SetThresholdHigh` | usbio24/io.py:209-219 | InvertedEffect with `@` |
| `Io.IOModule.SchmittTriggerRaw` | usbio24/io.py:221-237 | SelectorEffect with `$` |
| `Io.IOModule.SchmittTrigger` | usbio24/io.py:239-250 | InvertedEffect with `$` |
| `Output.Power2` | usbio24/output.py:27 | `2 ** e` is positive, and below 1 for a negative exponent |
| `Output.RelaySum` | usbio24/output.py:25-27 | the accumulated relay value is never negative, and positive for a non-empty list |
| `Output.RelayData` | usbio24/io.py:93-95 | `int()` of the accumulated relay value is its floor: a non-negative integer no greater than the value and within 1 of it |
| `Output.RelaySumOfPins` | usbio24/output.py:25-27 | for relays in 1..8 the accumulated value equals the pin mask |
| `Output.SetStateBits` | usbio24/output.py:25-29 | distinct relays 1..8 on a valid port give one write-port frame whose data has exactly the listed relays' bits set, so unlisted relays are off |
| `Output.SetStateExamples` | usbio24/output.py:16-33 | [1, 8] gives 129, relays 1..8 give 255, and the empty list of `reset` gives 0 |
| `Output.SetStateUncheckedRelays` | usbio24/output.py:25-29 | unchecked relay numbers: [0] sends data 0, [0, 0] sends data 1, [9] gives InvalidData and sends nothing |
| `Output.FirstFailure` | usbio24/output.py:41-42 | every relay before the returned index succeeds, and the relay at the index, if there is one, fails |
| `Output.Frames` | usbio24/output.py:41-42 | the pin commands of a relay list send at most two bytes per relay, in whole two-byte frames, each beginning with the selector |
| `Output.SequenceEffect` | usbio24/output.py:41-51 | an empty list sends nothing and succeeds on any port; a non-empty list on an invalid port gives InvalidPort; on a valid port the call succeeds iff every relay is in 1..8 |
| `Output.AllFrames` | usbio24/output.py:41-42 | for valid relays, the frames are two bytes per relay, in list order |
| `Output.SequenceFrames` | usbio24/output.py:41-51 | valid relays on a valid port: entry 2j is the selector, and entry 2j+1 is the global index of relay j's pin |
| `Output.SequenceStopsAtInvalidRelay` | usbio24/output.py:41-42 | the frames of the relays before the first invalid one are sent, then InvalidPin |
| `Output.ActivateOne` | usbio24/output.py:41-42 | `activate([3])` sends exactly [H, index of pin 3] |
| `Output.ConstructionFrame` | usbio24/output.py:9-14 | construction on a valid port in either case sends [!, uppercase letter, 0], making all pins outputs; on any other port it sends nothing and gives InvalidPort |
| `Output.RelayModule.Bind` | usbio24/output.py:10-11 | stores the module and the uppercased port |
| `Output.RelayModule.New` | usbio24/output.py:9-14 | sends exactly the set_pin_direction(port, []) frame; yields a module bound to the uppercased port iff that command succeeds |
| `Output.RelayModule.SetState` | usbio24/output.py:16-29 | appends exactly one write_port(port, int(sum)) effect on the bound port |
| `Output.RelayModule.Reset` | usbio24/output.py:31-33 | appends exactly the write_port(port, 0) effect |
| `Output.RelayModule.Activate` | usbio24/output.py:35-42 | appends exactly the `H` sequence for the relays on the bound port |
| `Output.RelayModule.Deactivate` | usbio24/output.py:44-51 | appends exactly the `L` sequence for the relays on the bound port |
| `Output.RelayModule.Drive` | usbio24/output.py:41-51 | the loop sends the frames of the relays up to the first failing one and returns that status |

## Left out

- Opening the serial device and its timeout (usbio24/io.py:28-30): the model replaces the connection with a `Driver` over two byte sequences. The device name is not kept, and `__str__` is not modelled.
- The meaning of the identity text that `identify` returns: it is returned as raw bytes.
- The device's behaviour in mode 2: the driver does not handle it.
- Transport failures other than a read that returns nothing: a write never fails in the model.
- The `__main__` blocks and usbio24/test.py, a hardware demonstration script.
- Arguments of the wrong Python type (a float pin, a non-string port, an `int(data)` of a float passed directly to `write_port`): ports are strings, and pins, modes and data are integers.
- Output.Power2: models `2 ** e` for a negative exponent as an exact rational, so it ignores floating-point underflow: below -1074 Python gives 0.0, while the model's value stays positive.
- Output.RelaySum: adds exact rationals, so it ignores floating-point rounding. The exact sum departs from Python's float sum when a term underflows (a relay below -1073) or the sum passes 2^53 (for `[54, 0]` Python rounds 2^53 + 0.5 down to 2^53). Past 255 the model gives InvalidData, and so does Python, unless a fractional relay is listed and the sum reaches 2^1024 (after rounding). Then Python raises OverflowError by one of two routes. Either it converts a long of 2^1024 or more to a float (`[0, 1025]`, `[1024, 1024, 0]`), or it takes `int()` of a float sum that overflowed to infinity (`[0, 1024, 1024]`). Neither sends anything. The data sent can differ within 0..255 only when dozens of fractional relays (numbers below 1) bring the sum within rounding distance of an integer, as `[0, -1, ..., -59]` does, whose exact sum is just below 1 and whose float sum is 1.0.
- Default arguments: in the model the pin and relay lists are always passed explicitly. `reset` passes the empty list.
- Output.RelayModule.New: models a raising `__init__` as an error result. The half-built object the exception discards is not returned.
