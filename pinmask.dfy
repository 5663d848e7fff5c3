/**
 * Pin masks of the USB I/O 24 protocol.
 *
 * A port value is one byte; bit i (0 = least significant) stands for pin i + 1.
 * The driver builds masks by arithmetic: `+= 2 ** (pin - 1)` for the pin-direction
 * argument and `255 - ...` for the pull-up, threshold and Schmitt-trigger arguments.
 * Arithmetic agrees with bitwise OR only when no pin is listed twice, so the bit
 * properties below are stated for lists of distinct pins, and the lemma
 * `DuplicatePins` shows what happens otherwise.
 */
module PinMask {

  /** `2 ** n` for a non-negative exponent. */
  function Pow2(n: nat): (r: nat)
    ensures r >= 1
  {
    if n == 0 then 1 else 2 * Pow2(n - 1)
  }

  /** Bit `bit` of `m`, counting from the least significant bit 0. */
  predicate TestBit(m: nat, bit: nat)
  {
    if bit == 0 then m % 2 == 1 else TestBit(m / 2, bit - 1)
  }

  /** Pin `pin` (1..8) is set in the port value `m`. */
  predicate PinSet(m: nat, pin: int)
    requires 1 <= pin <= 8
  {
    TestBit(m, pin - 1)
  }

  predicate IsPin(pin: int)
  {
    1 <= pin <= 8
  }

  predicate AllPins(pins: seq<int>)
  {
    forall i :: 0 <= i < |pins| ==> IsPin(pins[i])
  }

  predicate Distinct(pins: seq<int>)
  {
    forall i, j :: 0 <= i < j < |pins| ==> pins[i] != pins[j]
  }

  /** The pins a list names. */
  function Members(pins: seq<int>): set<int>
  {
    set p | p in pins
  }

  /** The sum `2 ** (pin - 1)` over the list, accumulated in list order. */
  function PinSum(pins: seq<int>): (sum: nat)
    requires AllPins(pins)
    ensures |pins| <= sum <= 128 * |pins|
  {
    if pins == [] then 0
    else
      PinWeight(pins[|pins| - 1]);
      PinSum(pins[..|pins| - 1]) + Pow2(pins[|pins| - 1] - 1)
  }

  /** The weight of one pin is at most that of pin 8. */
  lemma {:induction false} PinWeight(pin: int)
    requires IsPin(pin)
    ensures Pow2(pin - 1) <= 128
    decreases 8 - pin
  {
    if pin < 8 {
      PinWeight(pin + 1);
      assert Pow2(pin) == 2 * Pow2(pin - 1);
    } else {
      assert Pow2(7) == 128;
    }
  }

  /**
   * Reference definition of a port value from a set of pins: the bits, from
   * bit 0 upward, of pins i + 1 .. 8, each set iff that pin is in S.
   */
  function Above(S: set<int>, i: nat): nat
    decreases 8 - i
  {
    if i >= 8 then 0 else (if i + 1 in S then 1 else 0) + 2 * Above(S, i + 1)
  }

  /** The port value in which exactly the pins of S are set. */
  function PortValue(S: set<int>): nat
  {
    Above(S, 0)
  }

  lemma {:induction false} ZeroHasNoBits(bit: nat)
    ensures !TestBit(0, bit)
  {
    if bit > 0 {
      ZeroHasNoBits(bit - 1);
    }
  }

  lemma {:induction false} AboveBits(S: set<int>, i: nat, bit: nat)
    ensures TestBit(Above(S, i), bit) <==> i + bit < 8 && i + bit + 1 in S
    decreases bit
  {
    if i >= 8 {
      ZeroHasNoBits(bit);
    } else if bit > 0 {
      assert Above(S, i) / 2 == Above(S, i + 1);
      AboveBits(S, i + 1, bit - 1);
    }
  }

  lemma {:induction false} AboveBound(S: set<int>, i: nat)
    requires i <= 8
    ensures Above(S, i) < Pow2(8 - i)
    decreases 8 - i
  {
    if i < 8 {
      AboveBound(S, i + 1);
      assert Pow2(8 - i) == 2 * Pow2(8 - (i + 1));
    }
  }

  /** Adding a pin that is not yet in S adds its bit value to every suffix at or below it. */
  lemma {:induction false} AboveAdd(S: set<int>, k: int, i: nat)
    requires IsPin(k) && k !in S
    ensures Above(S + {k}, i) == Above(S, i) + (if i < k then Pow2(k - 1 - i) else 0)
    decreases 8 - i
  {
    if i < 8 {
      AboveAdd(S, k, i + 1);
      if i + 1 < k {
        assert Pow2(k - 1 - i) == 2 * Pow2(k - 1 - (i + 1));
      }
    }
  }

  /** For distinct pins, the arithmetic sum is the port value of the set of pins. */
  lemma {:induction false} PinSumIsPortValue(pins: seq<int>)
    requires AllPins(pins) && Distinct(pins)
    ensures PinSum(pins) == PortValue(Members(pins))
  {
    if pins == [] {
      assert Members(pins) == {};
    } else {
      var init, last := pins[..|pins| - 1], pins[|pins| - 1];
      assert pins == init + [last];
      PinSumIsPortValue(init);
      assert Members(pins) == Members(init) + {last};
      assert last !in Members(init);
      AboveAdd(Members(init), last, 0);
    }
  }

  /**
   * The pin-direction mask of a list of distinct pins is a byte whose bit k - 1
   * is set exactly when pin k is listed.
   */
  lemma {:induction false} DirectionMaskBits(pins: seq<int>)
    requires AllPins(pins) && Distinct(pins)
    ensures PinSum(pins) <= 255
    ensures forall k :: 1 <= k <= 8 ==> (PinSet(PinSum(pins), k) <==> k in pins)
  {
    PinSumIsPortValue(pins);
    AboveBound(Members(pins), 0);
    forall k | 1 <= k <= 8
      ensures PinSet(PinSum(pins), k) <==> k in pins
    {
      AboveBits(Members(pins), 0, k - 1);
    }
  }

  /** Subtracting a byte from 255 flips each of its eight bits. */
  lemma {:induction false} ComplementBits(n: nat, m: nat, bit: nat)
    requires m < Pow2(n) && bit < n
    ensures TestBit(Pow2(n) - 1 - m, bit) <==> !TestBit(m, bit)
    decreases bit
  {
    var q, b := m / 2, m % 2;
    assert m == 2 * q + b;
    assert Pow2(n) == 2 * Pow2(n - 1);
    assert Pow2(n) - 1 - m == 2 * (Pow2(n - 1) - 1 - q) + (1 - b);
    if bit > 0 {
      assert (Pow2(n) - 1 - m) / 2 == Pow2(n - 1) - 1 - q;
      ComplementBits(n - 1, q, bit - 1);
    }
  }

  /**
   * The pull-up, threshold and Schmitt-trigger argument `255 - PinSum(pins)` of
   * a list of distinct pins is a byte whose bit k - 1 is set exactly when pin k
   * is NOT listed.
   */
  lemma {:induction false} InvertedMaskBits(pins: seq<int>)
    requires AllPins(pins) && Distinct(pins)
    ensures 0 <= 255 - PinSum(pins) <= 255
    ensures forall k :: 1 <= k <= 8 ==> (PinSet(255 - PinSum(pins), k) <==> k !in pins)
  {
    DirectionMaskBits(pins);
    assert Pow2(8) == 256;
    forall k | 1 <= k <= 8
      ensures PinSet(255 - PinSum(pins), k) <==> k !in pins
    {
      ComplementBits(8, PinSum(pins), k - 1);
    }
  }

  /** Two lists of distinct pins that name the same pins give the same mask, whatever their order. */
  lemma {:induction false} MaskIgnoresOrder(pins: seq<int>, others: seq<int>)
    requires AllPins(pins) && Distinct(pins) && AllPins(others) && Distinct(others)
    requires forall p :: p in pins <==> p in others
    ensures PinSum(pins) == PinSum(others)
  {
    PinSumIsPortValue(pins);
    PinSumIsPortValue(others);
    assert Members(pins) == Members(others);
  }

  /** The masks of the empty list, of all eight pins and of pins 1 and 8. */
  lemma MaskExamples()
    ensures PinSum([]) == 0 && 255 - PinSum([]) == 255
    ensures PinSum([1, 2, 3, 4, 5, 6, 7, 8]) == 255 && 255 - PinSum([1, 2, 3, 4, 5, 6, 7, 8]) == 0
    ensures PinSum([1, 8]) == 129
  {
    var all := [1, 2, 3, 4, 5, 6, 7, 8];
    assert Pow2(7) == 128;
    assert [1, 8][..1] == [1];
    forall n | 1 <= n <= 8
      ensures PinSum(all[..n]) == Pow2(n) - 1
    {
      PrefixSum(n);
    }
    assert all[..8] == all;
  }

  lemma {:induction false} PrefixSum(n: nat)
    requires n <= 8
    ensures PinSum([1, 2, 3, 4, 5, 6, 7, 8][..n]) == Pow2(n) - 1
  {
    var all := [1, 2, 3, 4, 5, 6, 7, 8];
    if n > 0 {
      PrefixSum(n - 1);
      assert all[..n][..n - 1] == all[..n - 1];
    }
  }

  /**
   * With a pin listed twice the sum is no longer a bitwise OR: [1, 1] names pin 2,
   * and [8, 8] overflows the byte, so that 255 minus it is negative.
   */
  lemma DuplicatePins()
    ensures PinSum([1, 1]) == PinSum([2])
    ensures PinSum([8, 8]) == 256 && 255 - PinSum([8, 8]) == -1
  {
    assert [1, 1][..1] == [1] && [8, 8][..1] == [8];
    assert Pow2(7) == 128;
  }
}
