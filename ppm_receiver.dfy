/** The PPM receiver decoder of `Example/ppmReceiver.cpp`: two edge
    timestamps give a pulse width, the width is classified against three
    calibration bounds and remapped to a direction and a 0..255 magnitude,
    and `get8bitVal` applies a dead band to that magnitude. */
module PpmReceiver {
  import opened Arduino

  /** The three calibration bounds, in microseconds: full reverse, neutral,
      full forward. */
  datatype Calibration = Calibration(minUs: int, midUs: int, maxUs: int)

  /** Bounds fit the 16-bit `int` fields and are in the intended calibration
      order min < mid < max. Of the orders this excludes, only mid == max (or
      min == mid with mid > max) would make `map` divide by zero at w == mid. */
  predicate ValidCalibration(c: Calibration) {
    IsInt(c.minUs) && IsInt(c.midUs) && IsInt(c.maxUs) && c.minUs < c.midUs < c.maxUs
  }

  /** The decoded command: the stored magnitude `val` and the flag `forward`. */
  datatype Reading = Reading(val: Byte, forward: bool)

  /** The pulse width, `abs(risingEdgeTime - fallingEdgeTime)`. */
  function PulseWidth(rising: int, falling: int): (w: nat)
    ensures w == rising - falling || w == falling - rising
  {
    Abs(rising - falling)
  }

  predicate InForwardBand(c: Calibration, w: int) {
    c.midUs <= w <= c.maxUs
  }

  predicate InReverseBand(c: Calibration, w: int) {
    c.minUs <= w <= c.midUs
  }

  /** What `calcTimeDiff` does with a width: the forward band is tested first,
      so it wins the tie at w == mid; a width outside both bands keeps the
      previous reading. Each `map` result is stored into the `uint8_t val`. */
  function Decode(c: Calibration, w: int, prev: Reading): Reading
    requires ValidCalibration(c)
  {
    if InForwardBand(c, w) then
      Reading(ToByte(Map(w, c.midUs, c.maxUs, 0, 255)), true)
    else if InReverseBand(c, w) then
      Reading(ToByte(Map(w, c.midUs, c.minUs, 0, 255)), false)
    else
      prev
  }

  /** The forward band [mid, max] maps linearly onto [0, 255]: no truncation
      to `uint8_t` takes place and the C division is a floor division. */
  lemma {:induction false} DecodeForward(c: Calibration, w: int, prev: Reading)
    requires ValidCalibration(c) && c.midUs <= w <= c.maxUs
    ensures 0 <= (w - c.midUs) * 255 / (c.maxUs - c.midUs) <= 255
    ensures Decode(c, w, prev)
         == Reading((w - c.midUs) * 255 / (c.maxUs - c.midUs), true)
  {
    MapInside(w, c.midUs, c.maxUs, 0, 255);
    assert Abs(w - c.midUs) == w - c.midUs && Abs(c.maxUs - c.midUs) == c.maxUs - c.midUs;
  }

  /** The reverse band [min, mid) maps onto [0, 255] through the inverted
      domain (mid, min): the magnitude grows as the width falls toward min. */
  lemma {:induction false} DecodeReverse(c: Calibration, w: int, prev: Reading)
    requires ValidCalibration(c) && c.minUs <= w < c.midUs
    ensures 0 <= (c.midUs - w) * 255 / (c.midUs - c.minUs) <= 255
    ensures Decode(c, w, prev)
         == Reading((c.midUs - w) * 255 / (c.midUs - c.minUs), false)
  {
    MapInside(w, c.midUs, c.minUs, 0, 255);
    assert Abs(w - c.midUs) == c.midUs - w && Abs(c.minUs - c.midUs) == c.midUs - c.minUs;
  }

  /** At the neutral width both branches would give magnitude 0, and the
      forward branch, tested first, claims it. */
  lemma {:induction false} DecodeNeutral(c: Calibration, prev: Reading)
    requires ValidCalibration(c)
    ensures Decode(c, c.midUs, prev) == Reading(0, true)
    ensures Map(c.midUs, c.midUs, c.minUs, 0, 255) == 0
  {
    DecodeForward(c, c.midUs, prev);
  }

  /** Both extremes give full scale: 255 forward at max, 255 reverse at min. */
  lemma {:induction false} DecodeFullScale(c: Calibration, prev: Reading)
    requires ValidCalibration(c)
    ensures Decode(c, c.maxUs, prev) == Reading(255, true)
    ensures Decode(c, c.minUs, prev) == Reading(255, false)
  {
    DecodeForward(c, c.maxUs, prev);
    DecodeReverse(c, c.minUs, prev);
  }

  /** Inside [min, max] the direction is forward exactly from mid upward. */
  lemma {:induction false} DecodeDirection(c: Calibration, w: int, prev: Reading)
    requires ValidCalibration(c) && c.minUs <= w <= c.maxUs
    ensures Decode(c, w, prev).forward <==> c.midUs <= w
  {
  }

  /** The previous reading survives every width exactly when the width lies
      outside [min, max]; inside, the reading is determined by the width alone. */
  lemma {:induction false} DecodeRetainsExactlyOutOfRange(c: Calibration, w: int)
    requires ValidCalibration(c)
    ensures (forall p: Reading :: Decode(c, w, p) == p) <==> (w < c.minUs || w > c.maxUs)
    ensures c.minUs <= w <= c.maxUs ==>
      forall p, q: Reading :: Decode(c, w, p) == Decode(c, w, q)
  {
    if c.minUs <= w <= c.maxUs {
      var r := Decode(c, w, Reading(0, true));
      var p := Reading(r.val, !r.forward);
      assert Decode(c, w, p) == r != p;
    }
  }

  /** Swapping the two timestamps changes nothing, since only the absolute
      difference is used. */
  lemma {:induction false} DecodeEdgeSwap(c: Calibration, rising: int, falling: int, prev: Reading)
    requires ValidCalibration(c)
    ensures Decode(c, PulseWidth(rising, falling), prev)
         == Decode(c, PulseWidth(falling, rising), prev)
  {
    assert PulseWidth(rising, falling) == PulseWidth(falling, rising);
  }

  /** In the forward band the magnitude does not decrease as the width grows. */
  lemma {:induction false} ForwardMonotone(c: Calibration, w1: int, w2: int, prev: Reading)
    requires ValidCalibration(c) && c.midUs <= w1 <= w2 <= c.maxUs
    ensures Decode(c, w1, prev).val <= Decode(c, w2, prev).val
  {
    DecodeForward(c, w1, prev);
    DecodeForward(c, w2, prev);
    ScaledMonotone(w1 - c.midUs, w2 - c.midUs, c.maxUs - c.midUs);
  }

  /** In the reverse band, neutral point included, the magnitude does not
      increase as the width grows. */
  lemma {:induction false} ReverseMonotone(c: Calibration, w1: int, w2: int, prev: Reading)
    requires ValidCalibration(c) && c.minUs <= w1 <= w2 <= c.midUs
    ensures Decode(c, w1, prev).val >= Decode(c, w2, prev).val
  {
    if w2 == c.midUs {
      DecodeNeutral(c, prev);
    } else {
      DecodeReverse(c, w1, prev);
      DecodeReverse(c, w2, prev);
      ScaledMonotone(c.midUs - w2, c.midUs - w1, c.midUs - c.minUs);
    }
  }

  /** d * 255 / width is monotone in d. */
  lemma {:induction false} ScaledMonotone(d1: int, d2: int, width: int)
    requires 0 <= d1 <= d2 && width > 0
    ensures d1 * 255 / width <= d2 * 255 / width
  {
    assert d1 * 255 <= d2 * 255;
    DivMonotone(d1 * 255, d2 * 255, width);
  }

  /** Inside either band the intermediate values `map` computes in `long`
      stay in range, so mathematical integers agree with the AVR's. */
  lemma {:induction false} MapFitsInLong(c: Calibration, w: int)
    requires ValidCalibration(c) && c.minUs <= w <= c.maxUs
    ensures LONG_MIN <= (w - c.midUs) * 255 <= LONG_MAX
    ensures LONG_MIN <= c.maxUs - c.midUs <= LONG_MAX
    ensures LONG_MIN <= c.minUs - c.midUs <= LONG_MAX
  {
    var d := w - c.midUs;
    assert -0x1_0000 <= d <= 0x1_0000;
    assert -0x1_0000 * 255 <= d * 255 <= 0x1_0000 * 255;
  }

  /** The dead band of `get8bitVal`: magnitudes up to 20 read as 0, from 240
      up as 255, the rest unchanged. */
  function DeadBand(v: Byte): (r: Byte)
    ensures r == 0 <==> v <= 20
    ensures r == 255 <==> v >= 240
    ensures 20 < v < 240 ==> r == v
  {
    if v <= 20 then 0 else if v >= 240 then 255 else v
  }

  /** The dead band never yields a value in 1..20 or in 240..254. */
  lemma {:induction false} DeadBandGaps(v: Byte)
    ensures !(1 <= DeadBand(v) <= 20) && !(240 <= DeadBand(v) <= 254)
  {
  }

  /** Clamping twice is clamping once. */
  lemma {:induction false} DeadBandIdempotent(v: Byte)
    ensures DeadBand(DeadBand(v)) == DeadBand(v)
  {
  }

  /** The clamp preserves the order of magnitudes. */
  lemma {:induction false} DeadBandMonotone(v1: Byte, v2: Byte)
    requires v1 <= v2
    ensures DeadBand(v1) <= DeadBand(v2)
  {
  }

  /** A receiver channel. The bounds are fixed at construction; the edge
      setters are the only way the state changes. */
  class Receiver {
    const minUs: int
    const midUs: int
    const maxUs: int
    var risingEdgeTime: Long
    var fallingEdgeTime: Long
    var timeDif: Long
    var val: Byte
    var forward: bool

    function Bounds(): Calibration {
      Calibration(minUs, midUs, maxUs)
    }

    function Current(): Reading
      reads this
    {
      Reading(val, forward)
    }

    ghost predicate Valid() {
      ValidCalibration(Bounds())
    }

    /** Stores the bounds; `val` and `forward` start from their declared
        defaults 0 and true, the timestamps are left unset. */
    constructor (min: int, mid: int, max: int)
      requires ValidCalibration(Calibration(min, mid, max))
      ensures Valid() && Bounds() == Calibration(min, mid, max)
      ensures Current() == Reading(0, true)
    {
      minUs := min;
      midUs := mid;
      maxUs := max;
      val := 0;
      forward := true;
    }

    /** Records the rising edge and nothing else. */
    method SetRisingEdgeTime(risingTime: Long)
      modifies this`risingEdgeTime
      ensures risingEdgeTime == risingTime
    {
      risingEdgeTime := risingTime;
    }

    /** Records the falling edge and decodes the pulse it closes. */
    method SetFallingEdgeTime(fallingTime: Long)
      requires Valid()
      requires LONG_MIN < risingEdgeTime - fallingTime <= LONG_MAX
      modifies this`fallingEdgeTime, this`timeDif, this`val, this`forward
      ensures fallingEdgeTime == fallingTime
      ensures timeDif == PulseWidth(risingEdgeTime, fallingTime)
      ensures Current() == Decode(Bounds(), timeDif, old(Current()))
    {
      fallingEdgeTime := fallingTime;
      CalcTimeDiff();
    }

    /** Computes the pulse width and classifies it. The difference and its
        absolute value must fit a `long`. */
    method CalcTimeDiff()
      requires Valid()
      requires LONG_MIN < risingEdgeTime - fallingEdgeTime <= LONG_MAX
      modifies this`timeDif, this`val, this`forward
      ensures timeDif == PulseWidth(risingEdgeTime, fallingEdgeTime)
      ensures Current() == Decode(Bounds(), timeDif, old(Current()))
    {
      timeDif := risingEdgeTime - fallingEdgeTime;
      timeDif := Abs(timeDif);
      if timeDif >= midUs && timeDif <= maxUs {
        val := ToByte(Map(timeDif, midUs, maxUs, 0, 255));
        forward := true;
      } else if timeDif <= midUs && timeDif >= minUs {
        val := ToByte(Map(timeDif, midUs, minUs, 0, 255));
        forward := false;
      }
    }

    /** The dead-banded magnitude; reads the state and changes none of it. */
    function Get8bitVal(): (r: Byte)
      reads this
      ensures r == DeadBand(val)
    {
      DeadBand(val)
    }
  }

  /** Bounds (1028, 1448, 1864) and a pulse of exactly the neutral width:
      output 0, direction forward. */
  method NeutralPulse() returns (out: Byte, fwd: bool)
    ensures out == 0 && fwd
  {
    var rx := new Receiver(1028, 1448, 1864);
    rx.SetRisingEdgeTime(0);
    assert rx.Current() == Reading(0, true);
    rx.SetFallingEdgeTime(1448);
    assert rx.timeDif == 1448;
    DecodeNeutral(rx.Bounds(), Reading(0, true));
    assert rx.Current() == Reading(0, true);
    out, fwd := rx.Get8bitVal(), rx.forward;
  }

  /** A pulse of the maximum width: output 255, direction forward. */
  method FullForwardPulse() returns (out: Byte, fwd: bool)
    ensures out == 255 && fwd
  {
    var rx := new Receiver(1028, 1448, 1864);
    rx.SetRisingEdgeTime(0);
    rx.SetFallingEdgeTime(1864);
    DecodeFullScale(rx.Bounds(), Reading(0, true));
    out, fwd := rx.Get8bitVal(), rx.forward;
  }

  /** A pulse of the minimum width, edges given in reverse order: output 255,
      direction reverse. */
  method FullReversePulse() returns (out: Byte, fwd: bool)
    ensures out == 255 && !fwd
  {
    var rx := new Receiver(1028, 1448, 1864);
    rx.SetRisingEdgeTime(1028);
    rx.SetFallingEdgeTime(0);
    DecodeFullScale(rx.Bounds(), Reading(0, true));
    out, fwd := rx.Get8bitVal(), rx.forward;
  }

  /** A full-forward pulse followed by a 900 microsecond pulse, below min:
      the second pulse is ignored and the first reading stays. */
  method StalePulse() returns (out: Byte, fwd: bool)
    ensures out == 255 && fwd
  {
    var rx := new Receiver(1028, 1448, 1864);
    rx.SetRisingEdgeTime(0);
    rx.SetFallingEdgeTime(1864);
    DecodeFullScale(rx.Bounds(), Reading(0, true));
    rx.SetRisingEdgeTime(10000);
    rx.SetFallingEdgeTime(10900);
    out, fwd := rx.Get8bitVal(), rx.forward;
  }
}
