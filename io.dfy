/**
 * The command layer of the USB I/O 24 driver (`IOModule`).
 *
 * Each public operation validates its arguments and then writes an exact byte
 * frame to the serial driver. Every command has an `Effect` function that says
 * which bytes the call writes and how it ends; the method of `IOModule` that
 * performs the command is proved to write exactly those bytes.
 */
module Io {
  import opened Serial
  import opened PinMask

  /** The exceptions the driver raises. */
  datatype Error =
    | InvalidMode
    | InvalidPort
    | InvalidPin
    | InvalidData
      /** `struct.pack('B', x)` with x outside 0..255 */
    | StructError
      /** `unpack` of the empty string a timed-out `read()` returns */
    | NoResponse

  datatype Outcome = Pass | Fail(error: Error)

  datatype Result<T> = Ok(value: T) | Err(error: Error)

  /** Command selectors, as ASCII codes. */
  const IDENTIFY: byte := 63   // '?'
  const HIGH: byte := 72       // 'H'
  const LOW: byte := 76        // 'L'
  const DIRECTION: byte := 33  // '!'
  const PULL_UP: byte := 35    // '#'
  const THRESHOLD: byte := 64  // '@'
  const SCHMITT: byte := 36    // '$'

  /** The three ports of the board. */
  datatype Port = A | B | C

  /** The spellings of a port name that validation accepts. */
  const PORT_NAMES: seq<string> := ["A", "B", "C", "a", "b", "c"]

  /** The uppercase port letter, which selects a port write. */
  function WriteCode(p: Port): (code: byte)
    ensures 'A' as int <= code <= 'C' as int
    ensures ValidatePort([code as char]) == Ok(p)
  {
    match p
    case A => 65
    case B => 66
    case C => 67
  }

  /** The lowercase port letter, which selects a port read. */
  function ReadCode(p: Port): (code: byte)
    ensures code == WriteCode(p) + 32
    ensures ValidatePort([code as char]) == Ok(p)
  {
    match p
    case A => 97
    case B => 98
    case C => 99
  }

  /** The global index of pin 1 of the port: the ports' pins follow one another, eight each. */
  function Base(p: Port): (base: nat)
    ensures base % 8 == 0 && base <= 16
    ensures base / 8 == (match p case A => 0 case B => 1 case C => 2)
  {
    match p
    case A => 0
    case B => 8
    case C => 16
  }

  /** Python 2 `str.upper()` on one character, in the default C locale: only a..z change. */
  function UpperChar(c: char): char
  {
    if 'a' <= c <= 'z' then (c as int - 32) as char else c
  }

  /** Python 2 `str.upper()` in the default C locale. */
  function Upper(s: string): (u: string)
    ensures |u| == |s|
    ensures forall i :: 0 <= i < |s| ==> u[i] == UpperChar(s[i])
  {
    if s == [] then [] else [UpperChar(s[0])] + Upper(s[1..])
  }

  /** `_validate_port`, returning the port that `port.upper()` names. */
  function ValidatePort(port: string): (r: Result<Port>)
    ensures r.Ok? <==> port in PORT_NAMES
    ensures r == Ok(A) <==> port in ["A", "a"]
    ensures r == Ok(B) <==> port in ["B", "b"]
    ensures r == Ok(C) <==> port in ["C", "c"]
    ensures r.Err? ==> r.error == InvalidPort
  {
    var u := Upper(port);
    assert |port| == 1 ==> u == [UpperChar(port[0])] && port == [port[0]];
    assert port in PORT_NAMES <==> port in ["A", "a"] || port in ["B", "b"] || port in ["C", "c"];
    if u == "A" then Ok(A)
    else if u == "B" then Ok(B)
    else if u == "C" then Ok(C)
    else Err(InvalidPort)
  }

  /** `_validate_pin` */
  function ValidatePin(pin: int): (r: Outcome)
    ensures r.Pass? <==> IsPin(pin)
    ensures r.Fail? ==> r.error == InvalidPin
  {
    if pin < 1 || pin > 8 then Fail(InvalidPin) else Pass
  }

  /** `_validate_data` */
  function ValidateData(data: int): (r: Outcome)
    ensures r.Pass? <==> 0 <= data <= 255
    ensures r.Fail? ==> r.error == InvalidData
  {
    if data < 0 || data > 255 then Fail(InvalidData) else Pass
  }

  /**
   * The global pin index that `set_pin_high` and `set_pin_low` send. It
   * identifies the port and the pin: the port is `idx / 8` (A = 0, B = 1,
   * C = 2) and the pin is `idx % 8 + 1`.
   */
  function GlobalPinIndex(p: Port, pin: int): (idx: byte)
    requires IsPin(pin)
    ensures idx <= 23
    ensures idx / 8 == (match p case A => 0 case B => 1 case C => 2)
    ensures idx % 8 + 1 == pin
  {
    Base(p) + pin - 1
  }

  /** What one command writes to the serial driver and how it ends. */
  datatype Effect = Effect(sent: seq<byte>, status: Outcome)

  /** `set_mode` */
  function SetModeEffect(mode: int): (e: Effect)
    ensures e.status.Pass? <==> mode == 1 || mode == 2
    ensures e.status.Pass? ==> e.sent == [mode]
    ensures e.status.Fail? ==> e == Effect([], Fail(InvalidMode))
  {
    if mode !in [1, 2] then Effect([], Fail(InvalidMode)) else Effect([mode], Pass)
  }

  /** The frame `read_port` writes before it reads the answer. */
  function ReadPortEffect(port: string): (e: Effect)
    ensures e.status.Pass? <==> port in PORT_NAMES
    ensures e.status.Pass? ==> e.sent == [ReadCode(ValidatePort(port).value)]
    ensures e.status.Pass? ==> e.sent[0] == WriteCode(ValidatePort(port).value) + 32
    ensures e.status.Fail? ==> e == Effect([], Fail(InvalidPort))
  {
    match ValidatePort(port)
    case Err(err) => Effect([], Fail(err))
    case Ok(p) => Effect([ReadCode(p)], Pass)
  }

  /** `write_port` */
  function WritePortEffect(port: string, data: int): (e: Effect)
    ensures e.status.Pass? <==> port in PORT_NAMES && 0 <= data <= 255
    ensures e.status.Pass? ==> e.sent == [WriteCode(ValidatePort(port).value), data]
    ensures port !in PORT_NAMES ==> e == Effect([], Fail(InvalidPort))
    ensures port in PORT_NAMES && !(0 <= data <= 255) ==> e == Effect([], Fail(InvalidData))
  {
    match ValidatePort(port)
    case Err(err) => Effect([], Fail(err))
    case Ok(p) =>
      match ValidateData(data)
      case Fail(err) => Effect([], Fail(err))
      case Pass => Effect([WriteCode(p), data], Pass)
  }

  /** `set_pin_high` (selector HIGH) and `set_pin_low` (selector LOW) */
  function PinEffect(selector: byte, port: string, pin: int): (e: Effect)
    ensures e.status.Pass? <==> port in PORT_NAMES && IsPin(pin)
    ensures e.status.Pass? ==> e.sent == [selector, GlobalPinIndex(ValidatePort(port).value, pin)]
    ensures port !in PORT_NAMES ==> e == Effect([], Fail(InvalidPort))
    ensures port in PORT_NAMES && !IsPin(pin) ==> e == Effect([], Fail(InvalidPin))
  {
    match ValidatePort(port)
    case Err(err) => Effect([], Fail(err))
    case Ok(p) =>
      match ValidatePin(pin)
      case Fail(err) => Effect([], Fail(err))
      case Pass => Effect([selector, GlobalPinIndex(p, pin)], Pass)
  }

  /** `_set_pin_direction_raw`: the argument is not validated, and packing one outside 0..255 fails. */
  function DirectionRawEffect(port: string, arg: int): (e: Effect)
    ensures e.status.Pass? <==> port in PORT_NAMES && 0 <= arg <= 255
    ensures e.status.Pass? ==> e.sent == [DIRECTION, WriteCode(ValidatePort(port).value), arg]
    ensures port !in PORT_NAMES ==> e == Effect([], Fail(InvalidPort))
    ensures port in PORT_NAMES && !(0 <= arg <= 255) ==> e == Effect([], Fail(StructError))
  {
    match ValidatePort(port)
    case Err(err) => Effect([], Fail(err))
    case Ok(p) =>
      if 0 <= arg <= 255 then Effect([DIRECTION, WriteCode(p), arg], Pass)
      else Effect([], Fail(StructError))
  }

  /** `set_pin_direction`: the port is validated first, then every pin, then the raw command is sent. */
  function DirectionEffect(port: string, inputPins: seq<int>): (e: Effect)
    ensures e.status.Fail? ==> e.sent == []
    ensures port !in PORT_NAMES ==> e == Effect([], Fail(InvalidPort))
    ensures port in PORT_NAMES && !AllPins(inputPins) ==> e == Effect([], Fail(InvalidPin))
    ensures e.status.Pass? <==> port in PORT_NAMES && AllPins(inputPins) && PinSum(inputPins) <= 255
    ensures e.status.Pass? ==> e.sent == [DIRECTION, WriteCode(ValidatePort(port).value), PinSum(inputPins)]
    ensures port in PORT_NAMES && AllPins(inputPins) && PinSum(inputPins) > 255 ==>
              e == Effect([], Fail(StructError))
  {
    match ValidatePort(port)
    case Err(err) => Effect([], Fail(err))
    case Ok(_) =>
      if !AllPins(inputPins) then Effect([], Fail(InvalidPin))
      else DirectionRawEffect(port, PinSum(inputPins))
  }

  /**
   * `_port_pull_up_raw`, `_set_threshold_raw` and `_schmitt_trigger_raw`: the
   * port is validated, the selector is written, and then `write_port` runs,
   * which may still reject the argument after the selector has gone out.
   */
  function SelectorEffect(selector: byte, port: string, arg: int): (e: Effect)
    ensures e.status.Pass? <==> port in PORT_NAMES && 0 <= arg <= 255
    ensures e.status.Pass? ==> e.sent == [selector, WriteCode(ValidatePort(port).value), arg]
    ensures e.status.Pass? ==> e.sent == [selector] + WritePortEffect(port, arg).sent
    ensures port !in PORT_NAMES ==> e == Effect([], Fail(InvalidPort))
    ensures port in PORT_NAMES && !(0 <= arg <= 255) ==> e == Effect([selector], Fail(InvalidData))
  {
    match ValidatePort(port)
    case Err(err) => Effect([], Fail(err))
    case Ok(_) =>
      var w := WritePortEffect(port, arg);
      Effect([selector] + w.sent, w.status)
  }

  /**
   * `port_pull_up`, `set_threshold_high` and `schmitt_trigger`: the pins are
   * validated first (the port only later, inside the raw command), and the
   * argument is 255 minus the sum of the pins' bit values.
   */
  function InvertedEffect(selector: byte, port: string, pins: seq<int>): (e: Effect)
    ensures !AllPins(pins) ==> e == Effect([], Fail(InvalidPin))
    ensures AllPins(pins) && port !in PORT_NAMES ==> e == Effect([], Fail(InvalidPort))
    ensures AllPins(pins) && port in PORT_NAMES ==> (e.status.Pass? <==> PinSum(pins) <= 255)
    ensures e.status.Pass? ==> e.sent == [selector, WriteCode(ValidatePort(port).value), 255 - PinSum(pins)]
    ensures AllPins(pins) && port in PORT_NAMES && PinSum(pins) > 255 ==>
              e == Effect([selector], Fail(InvalidData))
  {
    if !AllPins(pins) then Effect([], Fail(InvalidPin))
    else SelectorEffect(selector, port, 255 - PinSum(pins))
  }

  /** The pin-direction loop of `set_pin_direction`: validate each pin and sum its bit value. */
  method DirectionMask(pins: seq<int>) returns (r: Result<nat>)
    ensures r == if AllPins(pins) then Ok(PinSum(pins)) else Err(InvalidPin)
  {
    var pinInt := 0;
    for i := 0 to |pins|
      invariant AllPins(pins[..i])
      invariant pinInt == PinSum(pins[..i])
    {
      var v := ValidatePin(pins[i]);
      if v.Fail? {
        return Err(v.error);
      }
      assert pins[..i + 1][..i] == pins[..i];
      pinInt := pinInt + Pow2(pins[i] - 1);
    }
    assert pins[..|pins|] == pins;
    r := Ok(pinInt);
  }

  /**
   * The loop of `port_pull_up`, `set_threshold_high` and `schmitt_trigger`:
   * start from 255, validate each pin and subtract its bit value.
   */
  method InvertedMask(pins: seq<int>) returns (r: Result<int>)
    ensures r == if AllPins(pins) then Ok(255 - PinSum(pins)) else Err(InvalidPin)
  {
    var pinInt := 255;
    for i := 0 to |pins|
      invariant AllPins(pins[..i])
      invariant pinInt == 255 - PinSum(pins[..i])
    {
      var v := ValidatePin(pins[i]);
      if v.Fail? {
        return Err(v.error);
      }
      assert pins[..i + 1][..i] == pins[..i];
      pinInt := pinInt - Pow2(pins[i] - 1);
    }
    assert pins[..|pins|] == pins;
    r := Ok(pinInt);
  }

  /** The examples of the global pin index: A1 is 0, B1 is 8 and C8 is 23. */
  lemma PinIndexExamples()
    ensures GlobalPinIndex(A, 1) == 0 && GlobalPinIndex(B, 1) == 8 && GlobalPinIndex(C, 8) == 23
  {
  }

  /** No two pins of the board share a global index. */
  lemma GlobalPinIndexInjective(p: Port, pin: int, q: Port, other: int)
    requires IsPin(pin) && IsPin(other)
    requires GlobalPinIndex(p, pin) == GlobalPinIndex(q, other)
    ensures p == q && pin == other
  {
  }

  /**
   * `set_pin_direction` with distinct valid pins on a valid port sends
   * `!`, the port letter and a byte whose bit k - 1 is set exactly for each listed pin k.
   */
  lemma {:induction false} DirectionCommandBits(port: string, inputPins: seq<int>)
    requires port in PORT_NAMES && AllPins(inputPins) && Distinct(inputPins)
    ensures DirectionEffect(port, inputPins).status == Pass
    ensures var sent := DirectionEffect(port, inputPins).sent;
      && |sent| == 3 && sent[0] == DIRECTION && sent[1] == WriteCode(ValidatePort(port).value)
      && forall k :: 1 <= k <= 8 ==> (PinSet(sent[2], k) <==> k in inputPins)
  {
    DirectionMaskBits(inputPins);
  }

  /**
   * The convenience pull-up, threshold and Schmitt commands with distinct valid
   * pins on a valid port send the selector, the port letter and a byte whose bit
   * k - 1 is set exactly for each pin k NOT listed.
   */
  lemma {:induction false} InvertedCommandBits(selector: byte, port: string, pins: seq<int>)
    requires port in PORT_NAMES && AllPins(pins) && Distinct(pins)
    ensures InvertedEffect(selector, port, pins).status == Pass
    ensures var sent := InvertedEffect(selector, port, pins).sent;
      && |sent| == 3 && sent[0] == selector && sent[1] == WriteCode(ValidatePort(port).value)
      && forall k :: 1 <= k <= 8 ==> (PinSet(sent[2], k) <==> k !in pins)
  {
    InvertedMaskBits(pins);
  }

  /**
   * The empty pin list selects all outputs for `set_pin_direction` and gives
   * 255 to the inverted commands; all eight pins give them 0.
   */
  lemma {:induction false} EmptyAndFullPinLists(selector: byte, port: string)
    requires port in PORT_NAMES
    ensures DirectionEffect(port, []) == Effect([DIRECTION, WriteCode(ValidatePort(port).value), 0], Pass)
    ensures InvertedEffect(selector, port, []) == Effect([selector, WriteCode(ValidatePort(port).value), 255], Pass)
    ensures InvertedEffect(selector, port, [1, 2, 3, 4, 5, 6, 7, 8])
         == Effect([selector, WriteCode(ValidatePort(port).value), 0], Pass)
  {
    MaskExamples();
  }

  /**
   * A pin listed twice: [1, 1] silently sets pin 2, [8, 8] makes
   * `set_pin_direction` fail in packing before anything is sent, and makes a
   * convenience selector command send its selector byte and then fail with
   * InvalidData, a partial frame.
   */
  lemma {:induction false} DuplicatePinHazard(selector: byte, port: string)
    requires port in PORT_NAMES
    ensures DirectionEffect(port, [1, 1]) == DirectionEffect(port, [2])
    ensures DirectionEffect(port, [8, 8]) == Effect([], Fail(StructError))
    ensures InvertedEffect(selector, port, [8, 8]) == Effect([selector], Fail(InvalidData))
  {
    DuplicatePins();
  }

  /**
   * Every failing command sends nothing, except the raw and convenience
   * selector commands, which may have sent their selector byte alone.
   */
  lemma FailuresSendNoFrame(port: string, mode: int, data: int, pin: int, pins: seq<int>, selector: byte)
    ensures SetModeEffect(mode).status.Fail? ==> SetModeEffect(mode).sent == []
    ensures ReadPortEffect(port).status.Fail? ==> ReadPortEffect(port).sent == []
    ensures WritePortEffect(port, data).status.Fail? ==> WritePortEffect(port, data).sent == []
    ensures PinEffect(selector, port, pin).status.Fail? ==> PinEffect(selector, port, pin).sent == []
    ensures DirectionRawEffect(port, data).status.Fail? ==> DirectionRawEffect(port, data).sent == []
    ensures DirectionEffect(port, pins).status.Fail? ==> DirectionEffect(port, pins).sent == []
    ensures SelectorEffect(selector, port, data).status.Fail? ==>
              SelectorEffect(selector, port, data).sent in [[], [selector]]
    ensures InvertedEffect(selector, port, pins).status.Fail? ==>
              InvertedEffect(selector, port, pins).sent in [[], [selector]]
  {
  }

  /** A USB I/O 24 board reached through one serial driver. */
  class IOModule {
    const driver: Driver

    /** Opens the driver (here: on the bytes the board will send) and sets mode 1. */
    constructor (incoming: seq<byte>)
      ensures fresh(driver)
      ensures driver.written == SetModeEffect(1).sent
      ensures driver.incoming == incoming
    {
      driver := new Driver(incoming);
      new;
      var _ := SetMode(1);
    }

    method SetMode(mode: int) returns (r: Outcome)
      modifies driver
      ensures driver.written == old(driver.written) + SetModeEffect(mode).sent
      ensures driver.incoming == old(driver.incoming)
      ensures r == SetModeEffect(mode).status
    {
      if mode !in [1, 2] {
        return Fail(InvalidMode);
      }
      driver.Write([mode]);
      r := Pass;
    }

    /** Sends '?' and returns the board's answer line. */
    method Identify() returns (line: seq<byte>)
      modifies driver
      ensures driver.written == old(driver.written) + [IDENTIFY]
      ensures line == old(driver.incoming)[..LineLength(old(driver.incoming))]
      ensures driver.incoming == old(driver.incoming)[LineLength(old(driver.incoming))..]
    {
      driver.Write([IDENTIFY]);
      line := driver.ReadLine();
    }

    /** Sends the lowercase port letter and decodes the one byte that comes back. */
    method ReadPort(port: string) returns (r: Result<byte>)
      modifies driver
      ensures driver.written == old(driver.written) + ReadPortEffect(port).sent
      ensures port !in PORT_NAMES ==> r == Err(InvalidPort) && driver.incoming == old(driver.incoming)
      ensures port in PORT_NAMES && old(driver.incoming) == [] ==>
                r == Err(NoResponse) && driver.incoming == []
      ensures port in PORT_NAMES && old(driver.incoming) != [] ==>
                r == Ok(old(driver.incoming)[0]) && driver.incoming == old(driver.incoming)[1..]
      // `unpack('B', ...)` decodes the byte as unsigned; the result type already says so.
      ensures r.Ok? ==> 0 <= r.value <= 255
    {
      var p := ValidatePort(port);
      if p.Err? {
        return Err(p.error);
      }
      driver.Write([ReadCode(p.value)]);
      var response := driver.Read();
      if |response| != 1 {
        return Err(NoResponse);
      }
      r := Ok(response[0]);
    }

    method WritePort(port: string, data: int) returns (r: Outcome)
      modifies driver
      ensures driver.written == old(driver.written) + WritePortEffect(port, data).sent
      ensures driver.incoming == old(driver.incoming)
      ensures r == WritePortEffect(port, data).status
    {
      var p := ValidatePort(port);
      if p.Err? {
        return Fail(p.error);
      }
      var d := ValidateData(data);
      if d.Fail? {
        return d;
      }
      driver.Write([WriteCode(p.value), data]);
      r := Pass;
    }

    method SetPinHigh(port: string, pin: int) returns (r: Outcome)
      modifies driver
      ensures driver.written == old(driver.written) + PinEffect(HIGH, port, pin).sent
      ensures driver.incoming == old(driver.incoming)
      ensures r == PinEffect(HIGH, port, pin).status
    {
      r := SetPin(HIGH, port, pin);
    }

    method SetPinLow(port: string, pin: int) returns (r: Outcome)
      modifies driver
      ensures driver.written == old(driver.written) + PinEffect(LOW, port, pin).sent
      ensures driver.incoming == old(driver.incoming)
      ensures r == PinEffect(LOW, port, pin).status
    {
      r := SetPin(LOW, port, pin);
    }

    /** The shared body of `set_pin_high` and `set_pin_low`. */
    method SetPin(selector: byte, port: string, pin: int) returns (r: Outcome)
      modifies driver
      ensures driver.written == old(driver.written) + PinEffect(selector, port, pin).sent
      ensures driver.incoming == old(driver.incoming)
      ensures r == PinEffect(selector, port, pin).status
    {
      var p := ValidatePort(port);
      if p.Err? {
        return Fail(p.error);
      }
      var v := ValidatePin(pin);
      if v.Fail? {
        return v;
      }
      var pinInt := 0;
      if p.value == A { pinInt := 0; }
      if p.value == B { pinInt := 8; }
      if p.value == C { pinInt := 16; }
      pinInt := pinInt + (pin - 1);
      driver.Write([selector, pinInt]);
      r := Pass;
    }

    method SetPinDirectionRaw(port: string, arg: int) returns (r: Outcome)
      modifies driver
      ensures driver.written == old(driver.written) + DirectionRawEffect(port, arg).sent
      ensures driver.incoming == old(driver.incoming)
      ensures r == DirectionRawEffect(port, arg).status
    {
      var p := ValidatePort(port);
      if p.Err? {
        return Fail(p.error);
      }
      if arg < 0 || arg > 255 {
        return Fail(StructError);
      }
      driver.Write([DIRECTION, WriteCode(p.value), arg]);
      r := Pass;
    }

    method SetPinDirection(port: string, inputPins: seq<int>) returns (r: Outcome)
      modifies driver
      ensures driver.written == old(driver.written) + DirectionEffect(port, inputPins).sent
      ensures driver.incoming == old(driver.incoming)
      ensures r == DirectionEffect(port, inputPins).status
    {
      var p := ValidatePort(port);
      if p.Err? {
        return Fail(p.error);
      }
      var mask := DirectionMask(inputPins);
      if mask.Err? {
        return Fail(mask.error);
      }
      r := SetPinDirectionRaw(port, mask.value);
    }

    /** The shared body of the three raw selector commands. */
    method SelectorWrite(selector: byte, port: string, arg: int) returns (r: Outcome)
      modifies driver
      ensures driver.written == old(driver.written) + SelectorEffect(selector, port, arg).sent
      ensures driver.incoming == old(driver.incoming)
      ensures r == SelectorEffect(selector, port, arg).status
    {
      var p := ValidatePort(port);
      if p.Err? {
        return Fail(p.error);
      }
      driver.Write([selector]);
      r := WritePort(port, arg);
    }

    /** The shared body of the three convenience selector commands. */
    method InvertedCommand(selector: byte, port: string, pins: seq<int>) returns (r: Outcome)
      modifies driver
      ensures driver.written == old(driver.written) + InvertedEffect(selector, port, pins).sent
      ensures driver.incoming == old(driver.incoming)
      ensures r == InvertedEffect(selector, port, pins).status
    {
      var mask := InvertedMask(pins);
      if mask.Err? {
        return Fail(mask.error);
      }
      r := SelectorWrite(selector, port, mask.value);
    }

    method PortPullUpRaw(port: string, arg: int) returns (r: Outcome)
      modifies driver
      ensures driver.written == old(driver.written) + SelectorEffect(PULL_UP, port, arg).sent
      ensures driver.incoming == old(driver.incoming)
      ensures r == SelectorEffect(PULL_UP, port, arg).status
    {
      r := SelectorWrite(PULL_UP, port, arg);
    }

    method PortPullUp(port: string, pins: seq<int>) returns (r: Outcome)
      modifies driver
      ensures driver.written == old(driver.written) + InvertedEffect(PULL_UP, port, pins).sent
      ensures driver.incoming == old(driver.incoming)
      ensures r == InvertedEffect(PULL_UP, port, pins).status
    {
      r := InvertedCommand(PULL_UP, port, pins);
    }

    method SetThresholdRaw(port: string, arg: int) returns (r: Outcome)
      modifies driver
      ensures driver.written == old(driver.written) + SelectorEffect(THRESHOLD, port, arg).sent
      ensures driver.incoming == old(driver.incoming)
      ensures r == SelectorEffect(THRESHOLD, port, arg).status
    {
      r := SelectorWrite(THRESHOLD, port, arg);
    }

    method SetThresholdHigh(port: string, pins: seq<int>) returns (r: Outcome)
      modifies driver
      ensures driver.written == old(driver.written) + InvertedEffect(THRESHOLD, port, pins).sent
      ensures driver.incoming == old(driver.incoming)
      ensures r == InvertedEffect(THRESHOLD, port, pins).status
    {
      r := InvertedCommand(THRESHOLD, port, pins);
    }

    method SchmittTriggerRaw(port: string, arg: int) returns (r: Outcome)
      modifies driver
      ensures driver.written == old(driver.written) + SelectorEffect(SCHMITT, port, arg).sent
      ensures driver.incoming == old(driver.incoming)
      ensures r == SelectorEffect(SCHMITT, port, arg).status
    {
      r := SelectorWrite(SCHMITT, port, arg);
    }

    method SchmittTrigger(port: string, pins: seq<int>) returns (r: Outcome)
      modifies driver
      ensures driver.written == old(driver.written) + InvertedEffect(SCHMITT, port, pins).sent
      ensures driver.incoming == old(driver.incoming)
      ensures r == InvertedEffect(SCHMITT, port, pins).status
    {
      r := InvertedCommand(SCHMITT, port, pins);
    }
  }
}
