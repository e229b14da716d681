/** The H-bridge command state of `Example/MotorDriver.cpp`: a motor owns
    two direction pins, two enable pins and one PWM pin, a direction flag
    and a duty-cycle byte. The Arduino pin calls are modelled by their
    effect only: the set of pins configured as outputs, the level last
    written to each digital pin and the duty last written to each PWM pin. */
module MotorDriver {
  import opened Arduino

  datatype Level = Low | High

  /** The five pin numbers fit in `uint8_t` and are pairwise distinct. */
  predicate ValidPins(inA: int, inB: int, enA: int, enB: int, pwm: int) {
    0 <= inA < 256 && 0 <= inB < 256 && 0 <= enA < 256 && 0 <= enB < 256 && 0 <= pwm < 256 &&
    |{inA, inB, enA, enB, pwm}| == 5
  }

  /** The two direction-pin writes of `setDirection`: forward drives A high
      and B low, reverse the other way round. */
  function DriveDirection(levels: map<int, Level>, inA: int, inB: int, dir: bool): (r: map<int, Level>)
    requires inA != inB
    ensures inA in r && inB in r && r[inA] != r[inB]
    ensures r[inA] == High <==> dir
    ensures forall p :: p != inA && p != inB ==> (p in r <==> p in levels)
    ensures forall p :: p != inA && p != inB && p in levels ==> r[p] == levels[p]
  {
    if dir then levels[inA := High][inB := Low] else levels[inA := Low][inB := High]
  }

  /** Driving the same direction twice leaves the pins as driving it once. */
  lemma {:induction false} DriveDirectionIdempotent(levels: map<int, Level>, inA: int, inB: int, dir: bool)
    requires inA != inB
    ensures DriveDirection(DriveDirection(levels, inA, inB, dir), inA, inB, dir)
         == DriveDirection(levels, inA, inB, dir)
  {
    var once := DriveDirection(levels, inA, inB, dir);
    var twice := DriveDirection(once, inA, inB, dir);
    assert twice.Keys == once.Keys;
    assert forall p :: p in once ==> twice[p] == once[p];
  }

  /** The last direction driven alone decides the pins: what was there
      before does not matter at A and B. */
  lemma {:induction false} DriveDirectionOverrides(levels: map<int, Level>, inA: int, inB: int, d1: bool, d2: bool)
    requires inA != inB
    ensures DriveDirection(DriveDirection(levels, inA, inB, d1), inA, inB, d2)
         == DriveDirection(levels, inA, inB, d2)
  {
    var first := DriveDirection(levels, inA, inB, d1);
    var both := DriveDirection(first, inA, inB, d2);
    var direct := DriveDirection(levels, inA, inB, d2);
    assert both.Keys == direct.Keys;
    assert forall p :: p in direct ==> both[p] == direct[p];
  }

  class Motor {
    const forward: int := 1
    const reverse: int := 0
    const pinInA: Byte
    const pinInB: Byte
    const pinEnA: Byte
    const pinEnB: Byte
    const pinPwm: Byte
    /** `_direction`: 1 for forward, 0 for reverse. */
    var direction: int
    var pwm: Byte
    /** Pins configured with `pinMode(pin, OUTPUT)`. */
    ghost var outputs: set<int>
    /** Level last written with `digitalWrite`, per pin. */
    ghost var levels: map<int, Level>
    /** Duty last written with `analogWrite`, per pin. */
    ghost var duty: map<int, Byte>

    /** The pins are five distinct outputs, both enables are high, the
        direction pins are complementary and agree with `direction`, and a
        duty written to the PWM pin is the stored `pwm`. */
    ghost predicate Valid()
      reads this
    {
      ValidPins(pinInA, pinInB, pinEnA, pinEnB, pinPwm) &&
      {pinInA, pinInB, pinEnA, pinEnB, pinPwm} <= outputs &&
      (direction == forward || direction == reverse) &&
      pinEnA in levels && levels[pinEnA] == High &&
      pinEnB in levels && levels[pinEnB] == High &&
      pinInA in levels && pinInB in levels && levels[pinInA] != levels[pinInB] &&
      (levels[pinInA] == High <==> direction == forward) &&
      (pinPwm in duty ==> duty[pinPwm] == pwm)
    }

    /** `pinMode(pin, OUTPUT)`. */
    ghost method PinMode(pin: int)
      modifies this`outputs
      ensures outputs == old(outputs) + {pin}
    {
      outputs := outputs + {pin};
    }

    /** `digitalWrite(pin, level)`. */
    ghost method DigitalWrite(pin: int, level: Level)
      modifies this`levels
      ensures levels == old(levels)[pin := level]
    {
      levels := levels[pin := level];
    }

    /** `analogWrite(pin, value)`. */
    ghost method AnalogWrite(pin: int, value: Byte)
      modifies this`duty
      ensures duty == old(duty)[pin := value]
    {
      duty := duty[pin := value];
    }

    /** Configures the five pins as outputs, enables the bridge and sets the
        direction pins to forward. No duty is written to the PWM pin; the
        stored `pwm` is its declared default 0. */
    constructor (inA: int, inB: int, enA: int, enB: int, pwmPin: int)
      requires ValidPins(inA, inB, enA, enB, pwmPin)
      ensures Valid()
      ensures pinInA == inA && pinInB == inB && pinEnA == enA && pinEnB == enB && pinPwm == pwmPin
      ensures outputs == {inA, inB, enA, enB, pwmPin}
      ensures levels == map[enA := High, enB := High, inA := High, inB := Low]
      ensures duty == map[]
      ensures direction == forward && pwm == 0
      ensures GetDirection() && GetPwm() == 0
    {
      // the `uint8_t` fields keep the low byte of each `int` argument
      pinInA := ToByte(inA);
      pinInB := ToByte(inB);
      pinEnA := ToByte(enA);
      pinEnB := ToByte(enB);
      pinPwm := ToByte(pwmPin);
      direction := 1;
      pwm := 0;
      outputs, levels, duty := {}, map[], map[];
      new;
      PinMode(inA);
      PinMode(enA);
      PinMode(inB);
      PinMode(enB);
      PinMode(pwmPin);
      DigitalWrite(pinEnA, High);
      DigitalWrite(pinEnB, High);
      DigitalWrite(pinInA, High);
      DigitalWrite(pinInB, Low);
    }

    /** `true` selects forward: `dir` converted to 0 or 1 is compared with
        `forward`. Only the direction flag and the two direction pins change. */
    method SetDirection(dir: bool)
      requires Valid()
      modifies this`direction, this`levels
      ensures Valid()
      ensures direction == (if dir then forward else reverse)
      ensures levels == DriveDirection(old(levels), pinInA, pinInB, dir)
      ensures GetDirection() == dir
    {
      if (if dir then 1 else 0) == forward {
        direction := forward;
        DigitalWrite(pinInA, High);
        DigitalWrite(pinInB, Low);
      } else {
        direction := reverse;
        DigitalWrite(pinInA, Low);
        DigitalWrite(pinInB, High);
      }
    }

    /** The stored direction, converted from `int` to `bool`; under the
        invariant it is the level of pin A. */
    function GetDirection(): (d: bool)
      reads this
      ensures Valid() ==> (d <==> levels[pinInA] == High)
    {
      direction != 0
    }

    /** Stores the duty and writes it to the PWM pin; nothing else changes. */
    method SetPwm(value: Byte)
      requires Valid()
      modifies this`pwm, this`duty
      ensures Valid()
      ensures pwm == value
      ensures duty == old(duty)[pinPwm := value]
      ensures GetPwm() == value
    {
      pwm := value;
      AnalogWrite(pinPwm, pwm);
    }

    /** The stored duty; under the invariant it is the duty last written to
        the PWM pin, if any was. */
    function GetPwm(): (v: Byte)
      reads this
      ensures Valid() && pinPwm in duty ==> v == duty[pinPwm]
    {
      pwm
    }
  }

  /** A fresh motor is driven in direction `d` with duty `v`; reading back
      gives `d` and `v`, the duty write not disturbing the direction. */
  method DriveAndReadBack(inA: int, inB: int, enA: int, enB: int, pwmPin: int, d: bool, v: Byte)
    returns (gotDirection: bool, gotPwm: Byte)
    requires ValidPins(inA, inB, enA, enB, pwmPin)
    ensures gotDirection == d && gotPwm == v
  {
    var m := new Motor(inA, inB, enA, enB, pwmPin);
    m.SetDirection(d);
    m.SetPwm(v);
    gotDirection, gotPwm := m.GetDirection(), m.GetPwm();
  }
}
