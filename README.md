# DualMotorController: verified model of the motor driver and PPM receiver

This project models the two helper classes of an Arduino dual-motor robot
controller and proves properties of them in Dafny.

- `Receiver` (`ppm_receiver.dfy`, module `PpmReceiver`) decodes one RC
  channel. It is given the times of the rising and the falling edge of a
  pulse. The pulse width, `abs(rising - falling)`, is classified against
  three calibration bounds `min < mid < max`. A width in `[mid, max]` is
  forward, with magnitude `map(w, mid, max, 0, 255)`. A width in
  `[min, mid)` is reverse, with magnitude `map(w, mid, min, 0, 255)`: the
  source domain is inverted. Any other width leaves the previous reading as
  it was. `get8bitVal` then applies a dead band: magnitudes up to 20 read as
  0 and magnitudes from 240 up read as 255.
  The class keeps the source's fields and statements. `Decode` is the
  function that specifies `calcTimeDiff`, and the lemmas beside it state the
  band arithmetic.
- `Motor` (`motor_driver.dfy`, module `MotorDriver`) holds a direction flag
  and a duty-cycle byte for one H-bridge. The Arduino calls `pinMode`,
  `digitalWrite` and `analogWrite` are modelled by their effect only. The
  outputs are a ghost set of pins, the digital outputs are a ghost map from
  pin to the level last written, and the PWM output is a ghost map from pin
  to the duty last written. The invariant `Valid` states:
  - the five pins are distinct outputs;
  - both enable pins are high;
  - the two direction pins are opposite, and pin A is high exactly when the
    direction is forward;
  - any duty already written to the PWM pin equals the stored `pwm`.
- `arduino.dfy` (module `Arduino`) holds what both classes borrow from the
  Arduino AVR core:
  - the widths of `int` (16 bits), `long` (32 bits) and `uint8_t`;
  - conversion to `uint8_t`, which keeps the value modulo 256;
  - the `abs` macro;
  - C's division, which truncates toward zero (Dafny's `/` on `int` is
    Euclidean);
  - `map`, whose division is C's.

Integers are unbounded. Every width is a subset type or a range predicate,
and every conversion to a narrower type is written out.

Two facts about the code that shape the model:
- The stored `pwm` equals the last duty written only once `setPwm` has run.
  The constructor writes no duty, so `Valid` states the mirror as
  `pinPwm in duty ==> duty[pinPwm] == pwm`.
- The code keeps no pulse-pending state. Any falling edge recomputes the
  reading from the last recorded rising edge, and so does the model.

## Model

| member | source | states |
|---|---|---|
| `Arduino.ToByte` | Example/ppmReceiver.h:27 | storing into `uint8_t` keeps the value modulo 256, and keeps values in 0..255 unchanged |
| `Arduino.Abs` | Example/ppmReceiver.cpp:25 | the result is the argument or its negation, and is non-negative |
| `Arduino.TruncDiv` | Example/ppmReceiver.cpp:27-31 | C's division: the remainder `a - q*b` is smaller than `b` in magnitude and is zero or has the sign of `a` |
| `Arduino.TruncDivNonNegative` | Example/ppmReceiver.cpp:27 | for a non-negative dividend and a positive divisor, C's division equals Dafny's |
| `Arduino.TruncDivNegateBoth` | Example/ppmReceiver.cpp:31 | negating both operands does not change a truncating quotient, so the inverted reverse domain can be rewritten with non-negative operands |
| `Arduino.Map` | Example/ppmReceiver.cpp:27-31 | `map` sends `in_min` to `out_min` and `in_max` to `out_max`, in either order of the source domain |
| `Arduino.MapInside` | Example/ppmReceiver.cpp:27-31 | for a point inside an ascending or descending source domain, `map` stays within `[out_min, out_max]` and equals a floor division of non-negative distances |
| `PpmReceiver.PulseWidth` | Example/ppmReceiver.cpp:24-25 | the width is the difference of the two timestamps taken in one order or the other, and is non-negative |
| `PpmReceiver.Decode` | Example/ppmReceiver.cpp:26-33 | the branch logic of `calcTimeDiff`: forward band first, then reverse band, otherwise the previous reading is kept |
| `PpmReceiver.DecodeForward` | Example/ppmReceiver.cpp:26-29 | for `mid <= w <= max` the reading is forward and the magnitude is `(w-mid)*255/(max-mid)`, which is in [0,255], so the `uint8_t` store loses nothing |
| `PpmReceiver.DecodeReverse` | Example/ppmReceiver.cpp:30-33 | for `min <= w < mid` the reading is reverse and the magnitude is `(mid-w)*255/(mid-min)`, the truncating `map` over the inverted domain, in [0,255] |
| `PpmReceiver.DecodeNeutral` | Example/ppmReceiver.cpp:26-31 | `w == mid` gives magnitude 0 and forward, because the forward test comes first; the reverse formula would also give 0 there |
| `PpmReceiver.DecodeFullScale` | Example/ppmReceiver.cpp:26-33 | `w == max` gives 255 forward and `w == min` gives 255 reverse |
| `PpmReceiver.DecodeDirection` | Example/ppmReceiver.cpp:26-33 | inside `[min, max]` the reading is forward exactly when `w >= mid` |
| `PpmReceiver.DecodeRetainsExactlyOutOfRange` | Example/ppmReceiver.cpp:26-33 | every previous reading is kept exactly when `w < min` or `w > max` (both directions); inside `[min, max]` the result does not depend on the previous reading |
| `PpmReceiver.DecodeEdgeSwap` | Example/ppmReceiver.cpp:24-25 | swapping the rising and falling timestamps gives the same reading |
| `PpmReceiver.ForwardMonotone` | Example/ppmReceiver.cpp:27 | in the forward band the magnitude does not decrease as the width grows |
| `PpmReceiver.ReverseMonotone` | Example/ppmReceiver.cpp:31 | in the reverse band, neutral width included, the magnitude does not increase as the width grows |
| `PpmReceiver.MapFitsInLong` | Example/ppmReceiver.cpp:24-31 | inside the bands, the product and the divisors `map` computes in `long` fit 32 bits when the bounds are 16-bit |
| `PpmReceiver.DeadBand` | Example/ppmReceiver.cpp:36-45 | the result is 0 exactly when the input is at most 20, 255 exactly when it is at least 240, and the input itself in between |
| `PpmReceiver.DeadBandGaps` | Example/ppmReceiver.cpp:36-45 | the dead band never yields a value in 1..20 or 240..254 |
| `PpmReceiver.DeadBandIdempotent` | Example/ppmReceiver.cpp:36-45 | clamping a clamped value changes nothing |
| `PpmReceiver.DeadBandMonotone` | Example/ppmReceiver.cpp:36-45 | the clamp preserves the order of magnitudes |
| `PpmReceiver.Receiver.constructor` | Example/ppmReceiver.cpp:8-12 | the three bounds are stored as given; the reading starts at the declared defaults, magnitude 0 and forward |
| `PpmReceiver.Receiver.SetRisingEdgeTime` | Example/ppmReceiver.cpp:14-16 | only `risingEdgeTime` changes, and it becomes the given time |
| `PpmReceiver.Receiver.SetFallingEdgeTime` | Example/ppmReceiver.cpp:18-21 | records the falling edge; the width becomes `PulseWidth(rising, falling)` and the reading becomes `Decode` of the width and the old reading; nothing else changes |
| `PpmReceiver.Receiver.CalcTimeDiff` | Example/ppmReceiver.cpp:23-34 | with the subtraction and `abs` within `long`, stores the width and makes the reading `Decode` of the width and the old reading |
| `PpmReceiver.Receiver.Get8bitVal` | Example/ppmReceiver.cpp:36-45 | returns the dead-banded stored magnitude; it is a reading function, so the stored magnitude is not changed |
| `PpmReceiver.NeutralPulse` | Example/ppmReceiver.cpp:26-29 | with bounds (1028, 1448, 1864), a 1448 microsecond pulse reads 0, forward |
| `PpmReceiver.FullForwardPulse` | Example/ppmReceiver.cpp:26-29 | a 1864 microsecond pulse reads 255, forward |
| `PpmReceiver.FullReversePulse` | Example/ppmReceiver.cpp:30-33 | a 1028 microsecond pulse with the edges given in reverse order reads 255, reverse |
| `PpmReceiver.StalePulse` | Example/ppmReceiver.cpp:26-33 | a 900 microsecond pulse after a full forward one leaves 255, forward |
| `MotorDriver.DriveDirection` | Example/MotorDriver.cpp:30-41 | after the two direction writes, pins A and B hold opposite levels, A is high exactly for forward, and every other pin is untouched |
| `MotorDriver.DriveDirectionIdempotent` | Example/MotorDriver.cpp:30-41 | driving the same direction twice leaves the same pin levels as driving it once |
| `MotorDriver.DriveDirectionOverrides` | Example/MotorDriver.cpp:30-41 | the last direction driven alone decides the pin levels |
| `MotorDriver.Motor.PinMode` | Example/MotorDriver.cpp:9-13 | the effect of `pinMode(pin, OUTPUT)`: the pin joins the set of outputs, nothing else changes |
| `MotorDriver.Motor.DigitalWrite` | Example/MotorDriver.cpp:21-26 | the effect of `digitalWrite(pin, level)`: the level is recorded for that pin and every other pin keeps its level |
| `MotorDriver.Motor.AnalogWrite` | Example/MotorDriver.cpp:49 | the effect of `analogWrite(pin, value)`: the duty is recorded for that pin and every other pin keeps its duty |
| `MotorDriver.Motor.constructor` | Example/MotorDriver.cpp:8-27 | the five pins become outputs and keep their given numbers; both enables and pin A are high and pin B is low; no duty is written; direction is forward (1) and `pwm` is 0 |
| `MotorDriver.Motor.SetDirection` | Example/MotorDriver.cpp:30-41 | only the direction flag and the direction pins change; the flag is 1 for `true` and 0 for `false`; the pins are `DriveDirection` of the old levels; `GetDirection` then returns the argument |
| `MotorDriver.Motor.GetDirection` | Example/MotorDriver.cpp:43-45 | under the invariant, the direction reads true exactly when pin A is high |
| `MotorDriver.Motor.SetPwm` | Example/MotorDriver.cpp:47-50 | only `pwm` and the PWM output change; the duty last written to the PWM pin is the argument; `GetPwm` then returns it |
| `MotorDriver.Motor.GetPwm` | Example/MotorDriver.cpp:52-54 | under the invariant, once a duty has been written, the stored duty equals it |
| `MotorDriver.DriveAndReadBack` | Example/MotorDriver.cpp:30-54 | on a freshly built motor, setting direction `d` and then duty `v` reads back `d` and `v`, so the duty write does not disturb the direction |

Since `SetDirection` sets the flag to a value that depends on its argument
alone, and sets the pins to `DriveDirection` of the old levels, the lemma
`DriveDirectionIdempotent` shows that calling it twice leaves the same state
as calling it once. The pin numbers are `const` fields, so no method can
change them.

## Left out

- Electrical and timer behaviour of `pinMode`, `digitalWrite` and `analogWrite`: only the value each call last wrote is modelled.
- The pin maps belong to each `Motor` object. Two motors that share a pin would overwrite each other's levels on the board; the model does not capture that.
- Interrupt context and `volatile`: the edge setters run from an interrupt in the firmware. Calls are modelled one at a time, with no interleaving.
- Wrap-around of the `long` timestamps, and of `micros()` feeding them: mathematical integers are used instead.
- `PpmReceiver.Receiver.SetFallingEdgeTime`: requires that `rising - falling` and its absolute value fit in a `long`, where the source would overflow silently.
- `PpmReceiver.Receiver.CalcTimeDiff`: carries the same `long` range precondition.
- `PpmReceiver.Receiver.constructor`: requires 16-bit bounds with `min < mid < max`, the intended calibration order. The source accepts any `int`s. Only `mid == max`, or `min == mid` together with `mid > max`, makes `map` divide by zero for a width equal to `mid`. The model also excludes `min == mid` and `min > mid`, which the source handles without fault: with `max > mid`, the reverse branch then never fires.
- `MotorDriver.Motor.constructor`: requires five distinct pin numbers in 0..255. The source stores each `int` argument in a `uint8_t`; the model writes that conversion out, and then the requirement makes it exact.
- `int` is modelled as 16 bits, as on AVR boards. On 32-bit boards the bounds could be wider, and `MapFitsInLong` would not hold.
- The float `M_Ratio` and the `pwm` field of `Receiver` are declared but never used, so they are not modelled.
- External writes to the public fields `Motor::_direction`, `Motor::pwm` and `Receiver::forward` are not modelled. The field `_direction` is named `direction` here.
- The edge timestamps are left unset by the constructor. They start as arbitrary `long` values, and no sequencing of edges is checked, as in the source.
