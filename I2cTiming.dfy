/**
 * Timing calculator of the I2C host driver: turns a bus speed mode and a
 * clock period into the cycle counts of the five timing registers.
 *
 * The C code works on uint32_t inputs and uint16_t cycle counts; every
 * narrowing to 16 bits is written out here as `% 0x1_0000`.
 */
module I2cTiming {
  import opened CTypes

  /** i2c_result_t */
  datatype I2cResult = I2cOk | I2cError | I2cBadArg

  /**
   * i2c_speed_t. `SpeedOutOfRange` stands for any other value a variable of
   * the C enum type can hold; the driver rejects it.
   */
  datatype Speed = Standard | Fast | FastPlus | SpeedOutOfRange

  /** i2c_timing_config_t: the physical characteristics of the bus. */
  datatype TimingSpec = TimingSpec(
    lowestTargetDeviceSpeed: Speed,
    clockPeriodNanos: U32,
    sdaRiseNanos: U32,
    sdaFallNanos: U32,
    sclPeriodNanos: U32)

  /** i2c_config_t: ten uint16_t cycle counts. */
  datatype Config = Config(
    sclTimeHighCycles: U16,
    sclTimeLowCycles: U16,
    riseCycles: U16,
    fallCycles: U16,
    startSignalSetupCycles: U16,
    startSignalHoldCycles: U16,
    dataSignalSetupCycles: U16,
    dataSignalHoldCycles: U16,
    stopSignalSetupCycles: U16,
    stopSignalHoldCycles: U16)

  const ZeroConfig := Config(0, 0, 0, 0, 0, 0, 0, 0, 0, 0)

  /** kNanosPerKBaud: nanoseconds in one period of a 1 kbit/s clock. */
  const NanosPerKBaud: U32 := 1000000

  /** The ceiling of a / b, as the textbooks write it. */
  function CeilDiv(a: nat, b: nat): nat
    requires b > 0
  {
    (a + b - 1) / b
  }

  /** CeilDiv is the least multiplier of b that reaches a. */
  lemma {:induction false} CeilDivIsCeiling(a: nat, b: nat)
    requires b > 0
    ensures CeilDiv(a, b) * b >= a
    ensures CeilDiv(a, b) == 0 || (CeilDiv(a, b) - 1) * b < a
  {
    var q, m := (a + b - 1) / b, (a + b - 1) % b;
    assert a + b - 1 == q * b + m;
    assert q * b >= a by {
      assert q * b == a + b - 1 - m;
    }
    if q > 0 {
      assert (q - 1) * b == q * b - b;
    }
  }

  /** Euclidean division is determined by its quotient-remainder equation. */
  lemma {:induction false} DivUnique(x: nat, b: nat, q: int, m: int)
    requires b > 0 && 0 <= m < b && x == q * b + m
    ensures x / b == q
  {
    var d := x / b - q;
    assert d * b == m - x % b;
    assert d < 1;
    assert d > -1;
  }

  lemma {:induction false} DivStep(x: nat, b: nat)
    requires b > 0
    ensures (x + b) / b == x / b + 1
  {
    DivUnique(x + b, b, x / b + 1, x % b);
  }

  /**
   * round_up_divide: 32-bit ceiling division whose result is cut to its
   * bottom 16 bits. Zero divides to zero without dividing.
   */
  function RoundUpDivide(a: U32, b: U32): (r: U16)
    requires b > 0
    ensures r == CeilDiv(a, b) % 0x1_0000
  {
    if a == 0 then 0
    else
      DivStep(a - 1, b);
      ((a - 1) / b + 1) % 0x1_0000
  }

  /**
   * The minimum bus timings, in nanoseconds, of one speed mode (Table 10,
   * section 6.1 of the NXP I2C-bus specification UM10204): t_HIGH, t_LOW,
   * t_SU;STA, t_HD;STA, t_SU;DAT, t_SU;STO and t_BUF.
   */
  datatype BusMinimums = BusMinimums(
    high: nat, low: nat, startSetup: nat, startHold: nat,
    dataSetup: nat, stopSetup: nat, busFree: nat)

  function Minimums(speed: Speed): BusMinimums
    requires !speed.SpeedOutOfRange?
  {
    match speed
    case Standard => BusMinimums(4000, 4700, 4700, 4000, 250, 4000, 4700)
    case Fast => BusMinimums(600, 1300, 600, 600, 100, 600, 1300)
    case FastPlus => BusMinimums(260, 500, 260, 260, 50, 260, 500)
  }

  /**
   * default_timing_for_speed: each minimum divided by the clock period,
   * rounding up; data hold, rise and fall are left at zero, and an unknown
   * speed gives the all-zero configuration.
   */
  function DefaultTimingForSpeed(speed: Speed, clockPeriodNanos: U32): Config
    requires speed.SpeedOutOfRange? || clockPeriodNanos > 0
  {
    if speed.SpeedOutOfRange? then ZeroConfig
    else
      var m := Minimums(speed);
      Config(
        sclTimeHighCycles := RoundUpDivide(m.high, clockPeriodNanos),
        sclTimeLowCycles := RoundUpDivide(m.low, clockPeriodNanos),
        riseCycles := 0,
        fallCycles := 0,
        startSignalSetupCycles := RoundUpDivide(m.startSetup, clockPeriodNanos),
        startSignalHoldCycles := RoundUpDivide(m.startHold, clockPeriodNanos),
        dataSignalSetupCycles := RoundUpDivide(m.dataSetup, clockPeriodNanos),
        dataSignalHoldCycles := 0,
        stopSignalSetupCycles := RoundUpDivide(m.stopSetup, clockPeriodNanos),
        stopSignalHoldCycles := RoundUpDivide(m.busFree, clockPeriodNanos))
  }

  /** The cycle count the source derives from `nanos` is the fewest clock cycles that last `nanos`. */
  predicate Covers(cycles: int, nanos: nat, clockPeriodNanos: nat)
  {
    cycles * clockPeriodNanos >= nanos && (cycles == 0 || (cycles - 1) * clockPeriodNanos < nanos)
  }

  lemma {:induction false} RoundUpDivideCovers(nanos: U32, clockPeriodNanos: U32)
    requires clockPeriodNanos > 0 && nanos <= 0xFFFF
    ensures Covers(RoundUpDivide(nanos, clockPeriodNanos), nanos, clockPeriodNanos)
  {
    CeilDivIsCeiling(nanos, clockPeriodNanos);
    var c := CeilDiv(nanos, clockPeriodNanos);
    if c > 0 {
      FactorAtMostProduct(c - 1, clockPeriodNanos);
    }
    assert c <= nanos;
  }

  lemma FactorAtMostProduct(x: nat, b: nat)
    requires b > 0
    ensures x <= x * b
  {
    assert x * b == x + x * (b - 1);
  }

  /**
   * For every known speed and clock period, each default count is the least
   * number of cycles covering its UM10204 minimum (no 16-bit truncation can
   * occur, the minimums being below 2^16 ns), and data hold is zero.
   */
  lemma {:induction false} DefaultTimingCoversMinimums(speed: Speed, clockPeriodNanos: U32)
    requires !speed.SpeedOutOfRange? && clockPeriodNanos > 0
    ensures var c, m := DefaultTimingForSpeed(speed, clockPeriodNanos), Minimums(speed);
      Covers(c.sclTimeHighCycles, m.high, clockPeriodNanos) &&
      Covers(c.sclTimeLowCycles, m.low, clockPeriodNanos) &&
      Covers(c.startSignalSetupCycles, m.startSetup, clockPeriodNanos) &&
      Covers(c.startSignalHoldCycles, m.startHold, clockPeriodNanos) &&
      Covers(c.dataSignalSetupCycles, m.dataSetup, clockPeriodNanos) &&
      Covers(c.stopSignalSetupCycles, m.stopSetup, clockPeriodNanos) &&
      Covers(c.stopSignalHoldCycles, m.busFree, clockPeriodNanos) &&
      c.dataSignalHoldCycles == 0
  {
    var m := Minimums(speed);
    RoundUpDivideCovers(m.high, clockPeriodNanos);
    RoundUpDivideCovers(m.low, clockPeriodNanos);
    RoundUpDivideCovers(m.startSetup, clockPeriodNanos);
    RoundUpDivideCovers(m.startHold, clockPeriodNanos);
    RoundUpDivideCovers(m.dataSetup, clockPeriodNanos);
    RoundUpDivideCovers(m.stopSetup, clockPeriodNanos);
    RoundUpDivideCovers(m.busFree, clockPeriodNanos);
  }

  /** The bus speed of a mode, in kbit/s. */
  function SpeedKhz(speed: Speed): (khz: U32)
    requires !speed.SpeedOutOfRange?
    ensures khz > 0 && NanosPerKBaud % khz == 0
  {
    match speed
    case Standard => 100
    case Fast => 400
    case FastPlus => 1000
  }

  /**
   * The SCL period the configuration must reach, in cycles: the requested
   * period raised to at least one period of the mode's bus clock, divided by
   * the clock period rounding up (and cut to 16 bits).
   */
  function SclPeriodCycles(spec: TimingSpec): U16
    requires !spec.lowestTargetDeviceSpeed.SpeedOutOfRange? && spec.clockPeriodNanos > 0
  {
    var slowest := NanosPerKBaud / SpeedKhz(spec.lowestTargetDeviceSpeed);
    var nanos := if spec.sclPeriodNanos < slowest then slowest else spec.sclPeriodNanos;
    RoundUpDivide(nanos, spec.clockPeriodNanos)
  }

  /**
   * The configuration i2c_compute_timing stores on success, or None when it
   * returns kI2cBadArg for the speed. The high time is replaced by
   * `period - low - rise - fall`, computed in int and narrowed to uint16_t,
   * when that value is greater.
   */
  function TimingFor(spec: TimingSpec): (r: Option<Config>)
    requires spec.lowestTargetDeviceSpeed.SpeedOutOfRange? || spec.clockPeriodNanos > 0
    ensures r.None? <==> spec.lowestTargetDeviceSpeed.SpeedOutOfRange?
  {
    if spec.lowestTargetDeviceSpeed.SpeedOutOfRange? then None
    else
      var base := DefaultTimingForSpeed(spec.lowestTargetDeviceSpeed, spec.clockPeriodNanos);
      var c := base.(
        riseCycles := RoundUpDivide(spec.sdaRiseNanos, spec.clockPeriodNanos),
        fallCycles := RoundUpDivide(spec.sdaFallNanos, spec.clockPeriodNanos));
      Some(LengthenHigh(c, SclPeriodCycles(spec)))
  }

  /**
   * The lengthening step: `period - low - rise - fall`, computed in int and
   * narrowed to uint16_t, replaces the high count when it is greater.
   */
  function LengthenHigh(c: Config, sclPeriodCycles: U16): Config
  {
    var lengthened: U16 :=
      (sclPeriodCycles - c.sclTimeLowCycles - c.riseCycles - c.fallCycles) % 0x1_0000;
    if lengthened > c.sclTimeHighCycles then c.(sclTimeHighCycles := lengthened) else c
  }

  /**
   * Lengthening touches only the high count, never lowers it, and in
   * unbounded integers brings high + low + rise + fall up to the period,
   * whether or not the 16-bit difference wrapped.
   */
  lemma {:induction false} LengthenHighMeetsPeriod(c: Config, sclPeriodCycles: U16)
    ensures var l := LengthenHigh(c, sclPeriodCycles);
      l == c.(sclTimeHighCycles := l.sclTimeHighCycles) &&
      l.sclTimeHighCycles >= c.sclTimeHighCycles &&
      l.sclTimeHighCycles + l.sclTimeLowCycles + l.riseCycles + l.fallCycles >= sclPeriodCycles
  {
    var diff := sclPeriodCycles - c.sclTimeLowCycles - c.riseCycles - c.fallCycles;
    if diff >= 0 {
      assert diff % 0x1_0000 == diff;
    }
  }

  /**
   * On success rise and fall come from the SDA edge times, data hold is
   * zero, and the low, start, data-setup and stop counts are the mode's
   * defaults.
   */
  lemma ComputeTimingFields(spec: TimingSpec)
    requires !spec.lowestTargetDeviceSpeed.SpeedOutOfRange? && spec.clockPeriodNanos > 0
    ensures var c, d := TimingFor(spec).value,
      DefaultTimingForSpeed(spec.lowestTargetDeviceSpeed, spec.clockPeriodNanos);
      c.riseCycles == RoundUpDivide(spec.sdaRiseNanos, spec.clockPeriodNanos) &&
      c.fallCycles == RoundUpDivide(spec.sdaFallNanos, spec.clockPeriodNanos) &&
      c.dataSignalHoldCycles == 0 &&
      c.sclTimeLowCycles == d.sclTimeLowCycles &&
      c.startSignalSetupCycles == d.startSignalSetupCycles &&
      c.startSignalHoldCycles == d.startSignalHoldCycles &&
      c.dataSignalSetupCycles == d.dataSignalSetupCycles &&
      c.stopSignalSetupCycles == d.stopSignalSetupCycles &&
      c.stopSignalHoldCycles == d.stopSignalHoldCycles
  {
  }

  /**
   * The high count never drops below the mode's default, and it changes
   * only to the narrowed difference `period - low - rise - fall`.
   */
  lemma HighNeverBelowDefault(spec: TimingSpec)
    requires !spec.lowestTargetDeviceSpeed.SpeedOutOfRange? && spec.clockPeriodNanos > 0
    ensures var c, d := TimingFor(spec).value,
      DefaultTimingForSpeed(spec.lowestTargetDeviceSpeed, spec.clockPeriodNanos);
      c.sclTimeHighCycles >= d.sclTimeHighCycles &&
      (c.sclTimeHighCycles == d.sclTimeHighCycles ||
       c.sclTimeHighCycles ==
         (SclPeriodCycles(spec) - c.sclTimeLowCycles - c.riseCycles - c.fallCycles) % 0x1_0000)
  {
  }

  /**
   * Counted in unbounded integers, high + low + rise + fall reaches the
   * required SCL period, whether or not the 16-bit difference wrapped.
   */
  lemma {:induction false} ComputeTimingMeetsSclPeriod(spec: TimingSpec)
    requires !spec.lowestTargetDeviceSpeed.SpeedOutOfRange? && spec.clockPeriodNanos > 0
    ensures var c := TimingFor(spec).value;
      c.sclTimeHighCycles + c.sclTimeLowCycles + c.riseCycles + c.fallCycles >= SclPeriodCycles(spec)
  {
    var base := DefaultTimingForSpeed(spec.lowestTargetDeviceSpeed, spec.clockPeriodNanos);
    var c := base.(
      riseCycles := RoundUpDivide(spec.sdaRiseNanos, spec.clockPeriodNanos),
      fallCycles := RoundUpDivide(spec.sdaFallNanos, spec.clockPeriodNanos));
    LengthenHighMeetsPeriod(c, SclPeriodCycles(spec));
  }

  /**
   * The narrowing is visible: when rise, fall and low together exceed the
   * period, the difference wraps and the high count jumps near 2^16.
   * Standard mode, 1000 ns clock, 20000 ns rise: high becomes 65521.
   */
  lemma ComputeTimingWrapExample()
    ensures var spec := TimingSpec(Standard, 1000, 20000, 0, 0);
      TimingFor(spec).value.riseCycles == 20 &&
      TimingFor(spec).value.sclTimeLowCycles == 5 &&
      SclPeriodCycles(spec) == 10 &&
      TimingFor(spec).value.sclTimeHighCycles == 65521
  {
    assert RoundUpDivide(20000, 1000) == 20;
    assert RoundUpDivide(4700, 1000) == 5;
    assert RoundUpDivide(4000, 1000) == 4;
  }

  /** Standard mode with a 1000 ns clock: low = ceil(4700/1000) = 5, start hold = ceil(4000/1000) = 4. */
  lemma StandardMode1000NanosExample()
    ensures var c := TimingFor(TimingSpec(Standard, 1000, 0, 0, 0)).value;
      c.sclTimeLowCycles == 5 && c.startSignalHoldCycles == 4 && c.dataSignalHoldCycles == 0
  {
    assert RoundUpDivide(4700, 1000) == 5;
    assert RoundUpDivide(4000, 1000) == 4;
  }

  /** The caller's i2c_config_t, written through the pointer handed to i2c_compute_timing. */
  class ConfigRecord {
    var sclTimeHighCycles: U16
    var sclTimeLowCycles: U16
    var riseCycles: U16
    var fallCycles: U16
    var startSignalSetupCycles: U16
    var startSignalHoldCycles: U16
    var dataSignalSetupCycles: U16
    var dataSignalHoldCycles: U16
    var stopSignalSetupCycles: U16
    var stopSignalHoldCycles: U16

    function Value(): Config
      reads this
    {
      Config(sclTimeHighCycles, sclTimeLowCycles, riseCycles, fallCycles,
             startSignalSetupCycles, startSignalHoldCycles,
             dataSignalSetupCycles, dataSignalHoldCycles,
             stopSignalSetupCycles, stopSignalHoldCycles)
    }

    constructor (c: Config)
      ensures Value() == c
    {
      sclTimeHighCycles, sclTimeLowCycles := c.sclTimeHighCycles, c.sclTimeLowCycles;
      riseCycles, fallCycles := c.riseCycles, c.fallCycles;
      startSignalSetupCycles, startSignalHoldCycles := c.startSignalSetupCycles, c.startSignalHoldCycles;
      dataSignalSetupCycles, dataSignalHoldCycles := c.dataSignalSetupCycles, c.dataSignalHoldCycles;
      stopSignalSetupCycles, stopSignalHoldCycles := c.stopSignalSetupCycles, c.stopSignalHoldCycles;
    }

    /** Struct assignment `*config = c`. */
    method Assign(c: Config)
      modifies this
      ensures Value() == c
    {
      sclTimeHighCycles, sclTimeLowCycles := c.sclTimeHighCycles, c.sclTimeLowCycles;
      riseCycles, fallCycles := c.riseCycles, c.fallCycles;
      startSignalSetupCycles, startSignalHoldCycles := c.startSignalSetupCycles, c.startSignalHoldCycles;
      dataSignalSetupCycles, dataSignalHoldCycles := c.dataSignalSetupCycles, c.dataSignalHoldCycles;
      stopSignalSetupCycles, stopSignalHoldCycles := c.stopSignalSetupCycles, c.stopSignalHoldCycles;
    }
  }

  /**
   * i2c_compute_timing: a null `config` or an unknown speed gives
   * kI2cBadArg and `*config` is not written; otherwise `*config` receives
   * TimingFor(spec), built field by field as in the source.
   */
  method ComputeTiming(spec: TimingSpec, config: ConfigRecord?) returns (r: I2cResult)
    requires config == null || spec.lowestTargetDeviceSpeed.SpeedOutOfRange? || spec.clockPeriodNanos > 0
    modifies config
    ensures r == (if config == null || spec.lowestTargetDeviceSpeed.SpeedOutOfRange?
                  then I2cBadArg else I2cOk)
    ensures r == I2cBadArg && config != null ==> config.Value() == old(config.Value())
    ensures r == I2cOk ==> config != null && TimingFor(spec) == Some(config.Value())
  {
    if config == null {
      return I2cBadArg;
    }
    var khz: U32;
    match spec.lowestTargetDeviceSpeed {
      case Standard => khz := 100;
      case Fast => khz := 400;
      case FastPlus => khz := 1000;
      case SpeedOutOfRange => return I2cBadArg;
    }
    config.Assign(DefaultTimingForSpeed(spec.lowestTargetDeviceSpeed, spec.clockPeriodNanos));
    config.riseCycles := RoundUpDivide(spec.sdaRiseNanos, spec.clockPeriodNanos);
    config.fallCycles := RoundUpDivide(spec.sdaFallNanos, spec.clockPeriodNanos);

    var sclPeriodNanos := spec.sclPeriodNanos;
    var slowestSclPeriodNanos := NanosPerKBaud / khz;
    if sclPeriodNanos < slowestSclPeriodNanos {
      sclPeriodNanos := slowestSclPeriodNanos;
    }
    var sclPeriodCycles := RoundUpDivide(sclPeriodNanos, spec.clockPeriodNanos);

    // Lengthen the SCL high period to accommodate the desired SCL period.
    var lengthenedHighCycles: U16 :=
      (sclPeriodCycles - config.sclTimeLowCycles - config.riseCycles - config.fallCycles) % 0x1_0000;
    if lengthenedHighCycles > config.sclTimeHighCycles {
      config.sclTimeHighCycles := lengthenedHighCycles;
    }
    return I2cOk;
  }
}
