/**
 * The relay board layer (`RelayModule`): a relay board wired to one port of
 * the USB I/O 24, relay r on pin r of that port.
 */
module Output {
  import opened Serial
  import opened PinMask
  import opened Io

  /**
   * `2 ** e` as Python 2 evaluates it for an int exponent: an int for e >= 0,
   * a float (here an exact real) for a negative e.
   */
  function Power2(e: int): (r: real)
    ensures r > 0.0
    ensures e < 0 ==> r < 1.0
  {
    if e >= 0 then Pow2(e) as real else 1.0 / (Pow2(-e) as real)
  }

  /**
   * The value `set_state` accumulates: the sum of `2 ** (relay - 1)` in list
   * order. Relay numbers are not validated, so a relay below 1 adds a fraction.
   */
  function RelaySum(relays: seq<int>): (r: real)
    ensures r >= 0.0
    ensures relays != [] ==> r > 0.0
  {
    if relays == [] then 0.0 else RelaySum(relays[..|relays| - 1]) + Power2(relays[|relays| - 1] - 1)
  }

  /**
   * The data `write_port` uses: `int()` of the accumulated value, which is never
   * negative, so truncation is the floor.
   */
  function RelayData(relays: seq<int>): (data: int)
    ensures 0 <= data
    ensures data as real <= RelaySum(relays) < data as real + 1.0
  {
    RelaySum(relays).Floor
  }

  /** For relay numbers 1..8 the accumulated value is the pin mask of those relays. */
  lemma {:induction false} RelaySumOfPins(relays: seq<int>)
    requires AllPins(relays)
    ensures RelaySum(relays) == PinSum(relays) as real
    ensures RelayData(relays) == PinSum(relays)
  {
    if relays != [] {
      RelaySumOfPins(relays[..|relays| - 1]);
    }
  }

  /**
   * `set_state` with distinct relays 1..8 on a valid port sends one write-port
   * frame whose data byte has bit r - 1 set exactly for each listed relay r, so
   * every relay not listed is switched off.
   */
  lemma {:induction false} SetStateBits(port: string, relays: seq<int>)
    requires port in PORT_NAMES && AllPins(relays) && Distinct(relays)
    ensures WritePortEffect(port, RelayData(relays)).status == Pass
    ensures var sent := WritePortEffect(port, RelayData(relays)).sent;
      && |sent| == 2 && sent[0] == WriteCode(ValidatePort(port).value)
      && sent[1] == PinSum(relays)
      && forall k :: 1 <= k <= 8 ==> (PinSet(sent[1], k) <==> k in relays)
  {
    RelaySumOfPins(relays);
    DirectionMaskBits(relays);
  }

  /** `set_state([1, 8])` sends 129, all eight relays 255, and the empty list (`reset`) 0. */
  lemma {:induction false} SetStateExamples()
    ensures RelayData([1, 8]) == 129
    ensures RelayData([1, 2, 3, 4, 5, 6, 7, 8]) == 255
    ensures RelayData([]) == 0
  {
    MaskExamples();
    RelaySumOfPins([1, 8]);
    RelaySumOfPins([1, 2, 3, 4, 5, 6, 7, 8]);
  }

  /**
   * Relay numbers outside 1..8 reach `write_port` unchecked: relay 0 adds one
   * half, so [0] sends 0 and [0, 0] switches relay 1 on; relay 9 makes the data
   * 256, which `write_port` rejects before sending anything.
   */
  lemma {:induction false} SetStateUncheckedRelays(port: string)
    requires port in PORT_NAMES
    ensures WritePortEffect(port, RelayData([0])).sent == [WriteCode(ValidatePort(port).value), 0]
    ensures WritePortEffect(port, RelayData([0, 0])).sent == [WriteCode(ValidatePort(port).value), 1]
    ensures WritePortEffect(port, RelayData([9])) == Effect([], Fail(InvalidData))
  {
    assert [0, 0][..1] == [0];
    assert RelaySum([0]) == 0.5;
    assert RelaySum([0, 0]) == 1.0;
    assert Pow2(8) == 256;
  }

  /** The index of the first relay whose pin command fails, or the number of relays. */
  function FirstFailure(selector: byte, port: string, relays: seq<int>): (k: nat)
    ensures k <= |relays|
    ensures forall j :: 0 <= j < k ==> PinEffect(selector, port, relays[j]).status.Pass?
    ensures k < |relays| ==> PinEffect(selector, port, relays[k]).status.Fail?
  {
    if relays == [] then 0
    else if PinEffect(selector, port, relays[0]).status.Fail? then 0
    else 1 + FirstFailure(selector, port, relays[1..])
  }

  /** The frames of one pin command per relay, in list order. */
  function Frames(selector: byte, port: string, relays: seq<int>): (frames: seq<byte>)
    ensures |frames| <= 2 * |relays|
    ensures |frames| % 2 == 0
    ensures forall i :: 0 <= i < |frames| && i % 2 == 0 ==> frames[i] == selector
  {
    if relays == [] then []
    else Frames(selector, port, relays[..|relays| - 1]) + PinEffect(selector, port, relays[|relays| - 1]).sent
  }

  /**
   * `activate` (selector HIGH) and `deactivate` (selector LOW): one pin command
   * per relay, in list order, until the first one that fails.
   */
  function SequenceEffect(selector: byte, port: string, relays: seq<int>): (e: Effect)
    ensures relays == [] ==> e == Effect([], Pass)
    ensures port !in PORT_NAMES && relays != [] ==> e == Effect([], Fail(InvalidPort))
    ensures port in PORT_NAMES ==> (e.status.Pass? <==> AllPins(relays))
    ensures e.status.Fail? ==> e.status.error in {InvalidPort, InvalidPin}
  {
    var k := FirstFailure(selector, port, relays);
    Effect(Frames(selector, port, relays[..k]),
           if k < |relays| then PinEffect(selector, port, relays[k]).status else Pass)
  }

  /**
   * With valid relays on a valid port the sequence sends, for relay j of the
   * list, the selector and the global index of that relay's pin.
   */
  lemma {:induction false} SequenceFrames(selector: byte, port: string, relays: seq<int>)
    requires port in PORT_NAMES && AllPins(relays)
    ensures SequenceEffect(selector, port, relays).status == Pass
    ensures var sent := SequenceEffect(selector, port, relays).sent;
      && |sent| == 2 * |relays|
      && forall j :: 0 <= j < |relays| ==>
           sent[2 * j] == selector && sent[2 * j + 1] == GlobalPinIndex(ValidatePort(port).value, relays[j])
  {
    assert relays[..|relays|] == relays;
    AllFrames(selector, port, relays);
  }

  lemma {:induction false} AllFrames(selector: byte, port: string, relays: seq<int>)
    requires port in PORT_NAMES && AllPins(relays)
    ensures var sent := Frames(selector, port, relays);
      && |sent| == 2 * |relays|
      && forall j :: 0 <= j < |relays| ==>
           sent[2 * j] == selector && sent[2 * j + 1] == GlobalPinIndex(ValidatePort(port).value, relays[j])
  {
    if relays != [] {
      var init := relays[..|relays| - 1];
      AllFrames(selector, port, init);
      assert forall j :: 0 <= j < |init| ==> init[j] == relays[j];
    }
  }

  /**
   * A sequence stops at the first invalid relay: the relays before it have been
   * sent, the rest not, and the call fails with InvalidPin.
   */
  lemma {:induction false} SequenceStopsAtInvalidRelay(selector: byte, port: string, relays: seq<int>, k: nat)
    requires port in PORT_NAMES && k < |relays| && AllPins(relays[..k]) && !IsPin(relays[k])
    ensures SequenceEffect(selector, port, relays) == Effect(Frames(selector, port, relays[..k]), Fail(InvalidPin))
  {
  }

  /** `activate([3])` sends exactly the one frame `H`, index of pin 3. */
  lemma {:induction false} ActivateOne(port: string)
    requires port in PORT_NAMES
    ensures SequenceEffect(HIGH, port, [3]) == Effect([HIGH, GlobalPinIndex(ValidatePort(port).value, 3)], Pass)
  {
    assert [3][..1] == [3];
    assert [3][..0] == [];
  }

  /**
   * Construction on a valid port, in either case, sends `!`, the uppercase
   * port letter and 0: all eight pins outputs. On any other port it sends
   * nothing and fails with InvalidPort.
   */
  lemma {:induction false} ConstructionFrame(port: string)
    ensures port in PORT_NAMES ==>
      DirectionEffect(Upper(port), []) == Effect([DIRECTION, WriteCode(ValidatePort(port).value), 0], Pass)
    ensures port !in PORT_NAMES ==> DirectionEffect(Upper(port), []) == Effect([], Fail(InvalidPort))
  {
    var u := Upper(port);
    if |port| == 1 {
      assert u == [UpperChar(port[0])] && port == [port[0]];
    }
    assert port in PORT_NAMES <==> u in ["A", "B", "C"];
    assert u in ["A", "B", "C"] ==> ValidatePort(u) == ValidatePort(port);
    MaskExamples();
  }

  class RelayModule {
    const io: IOModule
    /** The port the relay board is wired to, uppercased, fixed for the object's lifetime. */
    const port: string

    /** The field assignments of `__init__`. */
    constructor Bind(io: IOModule, port: string)
      ensures this.io == io && this.port == Upper(port)
    {
      this.io := io;
      this.port := Upper(port);
    }

    /**
     * `RelayModule(io, port)`: binds the port and puts all its pins in output
     * mode; an invalid port makes construction fail.
     */
    static method New(io: IOModule, port: string) returns (r: Result<RelayModule>)
      modifies io.driver
      ensures io.driver.written == old(io.driver.written) + DirectionEffect(Upper(port), []).sent
      ensures io.driver.incoming == old(io.driver.incoming)
      ensures r.Ok? <==> DirectionEffect(Upper(port), []).status.Pass?
      ensures r.Err? ==> r.error == DirectionEffect(Upper(port), []).status.error
      ensures r.Ok? ==> fresh(r.value) && r.value.io == io && r.value.port == Upper(port)
    {
      var m := new RelayModule.Bind(io, port);
      var s := io.SetPinDirection(m.port, []);
      if s.Fail? {
        return Err(s.error);
      }
      r := Ok(m);
    }

    /** Sets the whole port at once: the listed relays on, all others off. */
    method SetState(activatedRelays: seq<int>) returns (r: Outcome)
      modifies io.driver
      ensures io.driver.written == old(io.driver.written) + WritePortEffect(port, RelayData(activatedRelays)).sent
      ensures io.driver.incoming == old(io.driver.incoming)
      ensures r == WritePortEffect(port, RelayData(activatedRelays)).status
    {
      var relayInt := 0.0;
      for i := 0 to |activatedRelays|
        invariant relayInt == RelaySum(activatedRelays[..i])
      {
        assert activatedRelays[..i + 1][..i] == activatedRelays[..i];
        relayInt := relayInt + Power2(activatedRelays[i] - 1);
      }
      assert activatedRelays[..|activatedRelays|] == activatedRelays;
      r := io.WritePort(port, relayInt.Floor);
    }

    /** Switches every relay off. */
    method Reset() returns (r: Outcome)
      modifies io.driver
      ensures io.driver.written == old(io.driver.written) + WritePortEffect(port, 0).sent
      ensures io.driver.incoming == old(io.driver.incoming)
      ensures r == WritePortEffect(port, 0).status
    {
      r := SetState([]);
    }

    /** Switches the listed relays on, one pin command each, leaving the others as they are. */
    method Activate(relays: seq<int>) returns (r: Outcome)
      modifies io.driver
      ensures io.driver.written == old(io.driver.written) + SequenceEffect(HIGH, port, relays).sent
      ensures io.driver.incoming == old(io.driver.incoming)
      ensures r == SequenceEffect(HIGH, port, relays).status
    {
      r := Drive(HIGH, relays);
    }

    /** Switches the listed relays off, one pin command each, leaving the others as they are. */
    method Deactivate(relays: seq<int>) returns (r: Outcome)
      modifies io.driver
      ensures io.driver.written == old(io.driver.written) + SequenceEffect(LOW, port, relays).sent
      ensures io.driver.incoming == old(io.driver.incoming)
      ensures r == SequenceEffect(LOW, port, relays).status
    {
      r := Drive(LOW, relays);
    }

    /** The loop shared by `activate` and `deactivate`. */
    method Drive(selector: byte, relays: seq<int>) returns (r: Outcome)
      modifies io.driver
      ensures io.driver.written == old(io.driver.written) + SequenceEffect(selector, port, relays).sent
      ensures io.driver.incoming == old(io.driver.incoming)
      ensures r == SequenceEffect(selector, port, relays).status
    {
      var i := 0;
      while i < |relays|
        invariant i <= |relays|
        invariant forall j :: 0 <= j < i ==> PinEffect(selector, port, relays[j]).status.Pass?
        invariant io.driver.written == old(io.driver.written) + Frames(selector, port, relays[..i])
        invariant io.driver.incoming == old(io.driver.incoming)
      {
        var s := io.SetPin(selector, port, relays[i]);
        if s.Fail? {
          assert FirstFailure(selector, port, relays) == i;
          return s;
        }
        assert relays[..i + 1][..i] == relays[..i];
        i := i + 1;
      }
      assert FirstFailure(selector, port, relays) == |relays|;
      assert relays[..|relays|] == relays;
      r := Pass;
    }
  }
}
