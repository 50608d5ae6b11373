/**
 * The two integer encodings the command methods compute before framing: the
 * output-pin mask of `set_pulse` and the laser-disable word of
 * `set_laser_disable_flag`.
 */
module BitPack {

  function Pow2(k: nat): (r: nat)
    ensures r >= 1
  {
    if k == 0 then 1 else 2 * Pow2(k - 1)
  }

  /** Pin numbers are 1-based: `2**(pin-1)` is an int only for `pin >= 1`. */
  predicate PinsFrom1(pins: seq<int>) {
    forall i :: 0 <= i < |pins| ==> pins[i] >= 1
  }

  /** `sum([2**(pin-1) for pin in output_list])`. */
  function OutputMask(pins: seq<int>): nat
    requires PinsFrom1(pins)
  {
    if |pins| == 0 then 0 else Pow2(pins[0] - 1) + OutputMask(pins[1..])
  }

  /** Bit `k` of `m` is set: `m` halved `k` times is odd. */
  predicate Bit(m: nat, k: nat) {
    if k == 0 then m % 2 == 1 else Bit(m / 2, k - 1)
  }

  /** The mask of the pins of `s` among 1..n, built one bit at a time. */
  function MaskBelow(s: set<int>, n: nat): nat {
    if n == 0 then 0 else MaskBelow(s, n - 1) + (if n in s then Pow2(n - 1) else 0)
  }

  lemma {:induction false} MaskBelowBound(s: set<int>, n: nat)
    ensures MaskBelow(s, n) < Pow2(n)
  {
    if n > 0 {
      MaskBelowBound(s, n - 1);
    }
  }

  /** Adding `b * 2^k` to a number below `2^k` sets bit `k` exactly when `b` is 1. */
  lemma {:induction false} TopBit(a: nat, b: nat, k: nat)
    requires b <= 1 && a < Pow2(k)
    ensures Bit(a + b * Pow2(k), k) <==> b == 1
  {
    if k > 0 {
      var t := b * Pow2(k - 1);
      assert b * Pow2(k) == 2 * t;
      assert (a + b * Pow2(k)) / 2 == a / 2 + t;
      TopBit(a / 2, b, k - 1);
    }
  }

  /** Adding a multiple of `2^j` leaves every lower bit `k < j` as it was. */
  lemma {:induction false} LowBit(a: nat, c: nat, k: nat, j: nat)
    requires k < j
    ensures Bit(a + c * Pow2(j), k) <==> Bit(a, k)
  {
    var t := c * Pow2(j - 1);
    assert c * Pow2(j) == 2 * t;
    if k > 0 {
      assert (a + c * Pow2(j)) / 2 == a / 2 + t;
      LowBit(a / 2, c, k - 1, j - 1);
    }
  }

  /** Bit `k` of the mask for pins 1..n is set exactly when pin `k + 1` is in `s`. */
  lemma {:induction false} MaskBelowBits(s: set<int>, n: nat, k: nat)
    requires k < n
    ensures Bit(MaskBelow(s, n), k) <==> k + 1 in s
  {
    var a := MaskBelow(s, n - 1);
    var b := if n in s then 1 else 0;
    assert MaskBelow(s, n) == a + b * Pow2(n - 1);
    if k == n - 1 {
      MaskBelowBound(s, n - 1);
      TopBit(a, b, k);
    } else {
      MaskBelowBits(s, n - 1, k);
      LowBit(a, b, k, n - 1);
    }
  }

  lemma {:induction false} MaskBelowAgree(s: set<int>, t: set<int>, n: nat)
    requires forall i :: 1 <= i <= n ==> (i in s <==> i in t)
    ensures MaskBelow(s, n) == MaskBelow(t, n)
  {
    if n > 0 {
      MaskBelowAgree(s, t, n - 1);
    }
  }

  lemma {:induction false} MaskBelowInsert(s: set<int>, p: int, n: nat)
    requires p !in s && 1 <= p <= n
    ensures MaskBelow(s + {p}, n) == MaskBelow(s, n) + Pow2(p - 1)
  {
    if p == n {
      MaskBelowAgree(s + {p}, s, n - 1);
    } else {
      MaskBelowInsert(s, p, n - 1);
    }
  }

  function PinSet(pins: seq<int>): set<int> {
    set p | p in pins
  }

  predicate Distinct(pins: seq<int>) {
    forall i, j :: 0 <= i < j < |pins| ==> pins[i] != pins[j]
  }

  /** For distinct pins in 1..n the summed mask is the mask of their set. */
  lemma {:induction false} OutputMaskOfSet(pins: seq<int>, n: nat)
    requires Distinct(pins) && forall i :: 0 <= i < |pins| ==> 1 <= pins[i] <= n
    ensures OutputMask(pins) == MaskBelow(PinSet(pins), n)
  {
    if |pins| == 0 {
      assert PinSet(pins) == {};
      MaskBelowEmpty(n);
    } else {
      var rest := pins[1..];
      OutputMaskOfSet(rest, n);
      assert PinSet(pins) == PinSet(rest) + {pins[0]};
      assert pins[0] !in rest by {
        forall j | 0 <= j < |rest| ensures rest[j] != pins[0] {
          assert rest[j] == pins[j + 1];
        }
      }
      MaskBelowInsert(PinSet(rest), pins[0], n);
    }
  }

  lemma {:induction false} MaskBelowEmpty(n: nat)
    ensures MaskBelow({}, n) == 0
  {
    if n > 0 {
      MaskBelowEmpty(n - 1);
    }
  }

  /**
   * For distinct pins from the 22-pin table the mask has bit `p - 1` set exactly for
   * the listed pins and fits in 22 bits.
   */
  lemma OutputMaskBits(pins: seq<int>)
    requires Distinct(pins) && forall i :: 0 <= i < |pins| ==> 1 <= pins[i] <= 22
    ensures OutputMask(pins) < Pow2(22)
    ensures forall k :: 0 <= k < 22 ==> (Bit(OutputMask(pins), k) <==> k + 1 in pins)
  {
    OutputMaskOfSet(pins, 22);
    MaskBelowBound(PinSet(pins), 22);
    forall k | 0 <= k < 22 ensures Bit(OutputMask(pins), k) <==> k + 1 in pins {
      MaskBelowBits(PinSet(pins), 22, k);
    }
  }

  /** A repeated pin is added twice and carries into the next pin's bit. */
  lemma DuplicatePinCarries(p: int)
    requires p >= 1
    ensures OutputMask([p, p]) == OutputMask([p + 1])
  {
    assert [p, p][1..] == [p];
  }

  /** Default pin and mode of `set_laser_disable_flag`. */
  const DefaultInputPin: int := 6
  const LevelTriggered: int := 0x00
  const EdgeTriggered: int := 0x10

  /** `input_pin + trigger_mode`. */
  function DisableFlag(inputPin: int, triggerMode: int): int {
    inputPin + triggerMode
  }

  /**
   * For a pin below 16 and one of the two trigger modes the sum is the bitwise OR:
   * the low four bits give back the pin and bit 4 the mode.
   */
  lemma DisableFlagFields(inputPin: int, triggerMode: int)
    requires 0 <= inputPin < 16 && (triggerMode == LevelTriggered || triggerMode == EdgeTriggered)
    ensures var w := DisableFlag(inputPin, triggerMode);
            w % 16 == inputPin && w / 16 == triggerMode / 16
            && w == (inputPin as bv8 | triggerMode as bv8) as int
  {
  }

  /** The defaults, pin 6 edge-triggered, give the word 22. */
  lemma DefaultDisableFlag()
    ensures DisableFlag(DefaultInputPin, EdgeTriggered) == 22
  {
  }

  /**
   * Within its fields the word is unambiguous: pins 0..15 and the two modes give
   * distinct words.
   */
  lemma DisableFlagInjective(pin1: int, mode1: int, pin2: int, mode2: int)
    requires 0 <= pin1 < 16 && (mode1 == LevelTriggered || mode1 == EdgeTriggered)
    requires 0 <= pin2 < 16 && (mode2 == LevelTriggered || mode2 == EdgeTriggered)
    ensures DisableFlag(pin1, mode1) == DisableFlag(pin2, mode2) <==> pin1 == pin2 && mode1 == mode2
  {
    DisableFlagFields(pin1, mode1);
    DisableFlagFields(pin2, mode2);
  }

  /**
   * The pin bound of `DisableFlagInjective` is needed: pin 16 runs into the mode bit,
   * so pin 16 level-triggered reads as pin 0 edge-triggered.
   */
  lemma DisableFlagCollision()
    ensures DisableFlag(16, LevelTriggered) == DisableFlag(0, EdgeTriggered)
  {
  }
}
