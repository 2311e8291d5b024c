// The LED brightness controller of led.c: a fixed table of three PWM
// channels, a fade engine that steps each channel's brightness toward its
// scaled target, the lux sampler that derives the scale from ambient light,
// the enable flag and the profile sequencer.
//
// The controller's statics become the fields of LedController; its
// LED_LIST array of structs becomes the array `channels`. Every controller
// method but HwBrightnessSet is specified by a pure function on the
// snapshot LedState; HwBrightnessSet changes only the array and is
// specified by HwApply on the channel it sets. The lemmas at the end of the
// module are about those functions.

module Led {
  import opened CommonAux

  const EXP_POINT: int := 100
  const MAX_BRIGHTNESS_LEVEL: int := 255
  /** The PWM period, computed as 255 * 255 / 100 and loaded as 650. */
  const PWM_PERIOD: int := 650
  const LUX_CHANGE_HYSTERESIS: int := 30
  const MAX_LUX_SENSITIVITY: int := 255
  const TSL2591_DEVICE_ID: uint32 := 0x50
  const PWM1_BASE: uint32 := 0x4002_9000

  const NUM_LEDS: nat := 3
  const RED: nat := 0
  const BLUE: nat := 1
  const GREEN: nat := 2

  // ---------------------------------------------------------------------
  // Static tables
  // ---------------------------------------------------------------------

  /** The constant part of an LED_LIST entry: name and PWM base register. */
  datatype LedInfo = LedInfo(name: string, pwmBase: uint32)

  /** LED_LIST's constant columns, terminated by an entry whose base is 0. */
  const LED_LIST: seq<LedInfo> :=
    [LedInfo("r", PWM1_BASE), LedInfo("b", PWM1_BASE), LedInfo("g", PWM1_BASE), LedInfo("", 0)]

  /** A preset: the brightness of two named channels. */
  datatype Profile = Profile(led1: nat, brightness1: uint8, led2: nat, brightness2: uint8)

  const NUM_PROFILES: nat := 3
  const PROFILES: seq<Profile> := [
    Profile(BLUE, 100, GREEN, 255),
    Profile(BLUE, 0, GREEN, 255),
    Profile(BLUE, 0, GREEN, 100)
  ]

  /** led_num_leds_get: counts the entries before the sentinel. */
  method NumLedsGet() returns (n: nat)
    ensures n < |LED_LIST| && LED_LIST[n].pwmBase == 0
    ensures forall i :: 0 <= i < n ==> LED_LIST[i].pwmBase != 0
    ensures n == NUM_LEDS
  {
    n := 0;
    while LED_LIST[n].pwmBase != 0
      invariant n <= NUM_LEDS
      invariant forall i :: 0 <= i < n ==> LED_LIST[i].pwmBase != 0
      decreases NUM_LEDS - n
    {
      n := n + 1;
    }
  }

  // ---------------------------------------------------------------------
  // Channels and the hardware brightness mapping
  // ---------------------------------------------------------------------

  /** The mutable part of an LED_LIST entry, plus the channel's PWM pulse
      width and output-enable bit, which stand for the hardware registers. */
  datatype Channel = Channel(current: uint32, desired: uint32, previous: uint32,
                             pulseWidth: uint32, outputOn: bool)

  /** The pulse width for a brightness: linear below EXP_POINT, quadratic
      (b * b / 100, computed in 32 bits) from there on. */
  function Pulsewidth(b: uint32): (pw: uint32)
    ensures b < EXP_POINT ==> pw == b
    ensures b <= MAX_BRIGHTNESS_LEVEL ==> b <= pw <= PWM_PERIOD
    ensures b <= MAX_BRIGHTNESS_LEVEL ==> (pw == 0 <==> b == 0)
  {
    if b >= EXP_POINT then
      assert b <= MAX_BRIGHTNESS_LEVEL ==> EXP_POINT * b <= b * b <= 255 * 255 by {
        if b <= MAX_BRIGHTNESS_LEVEL { SquareBounds(b); }
      }
      Wrap32(b * b) / EXP_POINT
    else
      b
  }

  lemma SquareBounds(b: int)
    requires EXP_POINT <= b <= MAX_BRIGHTNESS_LEVEL
    ensures EXP_POINT * b <= b * b <= 255 * 255
  {
    assert (b - EXP_POINT) * b >= 0;
    assert (255 - b) * (255 + b) >= 0;
  }

  /** The channel after led_hw_brightness_set(b): output disabled at 0 and
      enabled otherwise, pulse width from Pulsewidth, current brightness b. */
  function HwApply(c: Channel, b: uint32): (r: Channel)
    ensures r.current == b && r.desired == c.desired && r.previous == c.previous
    ensures r.pulseWidth == Pulsewidth(b)
    ensures r.outputOn <==> b != 0
    ensures b <= MAX_BRIGHTNESS_LEVEL ==> (r.outputOn <==> r.pulseWidth != 0)
  {
    c.(current := b, pulseWidth := Pulsewidth(b), outputOn := b != 0)
  }

  // ---------------------------------------------------------------------
  // Fade engine
  // ---------------------------------------------------------------------

  /** The brightness a channel fades toward: desired * scale, truncated. */
  function ScaledTarget(desired: uint32, scale: real): (t: uint32)
    requires 0.0 <= scale <= 1.0
    ensures t <= desired
    ensures t as real <= desired as real * scale < t as real + 1.0
  {
    var x := desired as real * scale;
    RealScaleBounds(desired as real, scale);
    assert x.Floor as real <= x <= desired as real;
    x.Floor
  }

  lemma RealScaleBounds(a: real, s: real)
    requires 0.0 <= a && 0.0 <= s <= 1.0
    ensures 0.0 <= a * s <= a
  {
  }

  lemma RealFractionBounds(p: real, q: real)
    requires 0.0 <= p <= q && 0.0 < q
    ensures 0.0 <= p / q <= 1.0
  {
  }

  lemma RealDivMonotone(p1: real, p2: real, q: real)
    requires p1 <= p2 && 0.0 < q
    ensures p1 / q <= p2 / q
  {
  }

  lemma RealMulMonotone(a: real, x: real, y: real)
    requires 0.0 <= a && x <= y
    ensures a * x <= a * y
  {
  }

  /** Distance between a channel's current brightness and its target. */
  function Dist(c: Channel, scale: real): nat
    requires 0.0 <= scale <= 1.0
  {
    var t := ScaledTarget(c.desired, scale);
    if c.current >= t then c.current - t else t - c.current
  }

  /** One fade step of one channel (the body of TIMER1A_Handler's loop).
      The step is added or subtracted in 32-bit arithmetic without a clamp. */
  function TickChannel(c: Channel, scale: real, step: uint8): (r: Channel)
    requires 0.0 <= scale <= 1.0
    ensures r.desired == c.desired && r.previous == c.previous
    ensures c.current == ScaledTarget(c.desired, scale) ==> r == c
    ensures c.current > ScaledTarget(c.desired, scale) && step <= c.current ==> r.current == c.current - step
    ensures c.current < ScaledTarget(c.desired, scale) && c.current + step < UINT32_LIMIT ==> r.current == c.current + step
    ensures 0 < step && c.current != ScaledTarget(c.desired, scale) ==> r.current != c.current
  {
    var target := ScaledTarget(c.desired, scale);
    if c.current > target then
      HwApply(c, Wrap32(c.current - step))
    else if c.current < target then
      HwApply(c, Wrap32(c.current + step))
    else
      c
  }

  /** Every channel sits at its scaled target. */
  predicate Converged(chs: seq<Channel>, scale: real)
    requires 0.0 <= scale <= 1.0
  {
    forall i :: 0 <= i < |chs| ==> chs[i].current == ScaledTarget(chs[i].desired, scale)
  }

  /** One fade tick over the whole channel table. With a positive step the
      table changes exactly when it has not converged. */
  function TickAll(chs: seq<Channel>, scale: real, step: uint8): (r: seq<Channel>)
    requires 0.0 <= scale <= 1.0
    ensures |r| == |chs|
    ensures Converged(chs, scale) ==> r == chs
    ensures 0 < step && r == chs ==> Converged(chs, scale)
  {
    var r := seq(|chs|, i requires 0 <= i < |chs| => TickChannel(chs[i], scale, step));
    assert !Converged(chs, scale) && 0 < step ==> r != chs by {
      if !Converged(chs, scale) && 0 < step {
        var i :| 0 <= i < |chs| && chs[i].current != ScaledTarget(chs[i].desired, scale);
        assert r[i].current != chs[i].current;
      }
    }
    r
  }

  /** `n` fade ticks of one channel. */
  function ChannelTickN(c: Channel, scale: real, step: uint8, n: nat): Channel
    requires 0.0 <= scale <= 1.0
    decreases n
  {
    if n == 0 then c else TickChannel(ChannelTickN(c, scale, step, n - 1), scale, step)
  }

  /** `n` fade ticks of the whole table. */
  function TickN(chs: seq<Channel>, scale: real, step: uint8, n: nat): (r: seq<Channel>)
    requires 0.0 <= scale <= 1.0
    ensures |r| == |chs|
    ensures forall i :: 0 <= i < |chs| ==> r[i].desired == chs[i].desired && r[i].previous == chs[i].previous
    decreases n
  {
    if n == 0 then chs else TickAll(TickN(chs, scale, step, n - 1), scale, step)
  }

  // ---------------------------------------------------------------------
  // Lux scaling
  // ---------------------------------------------------------------------

  /** The sensor reading handed to the lux sampler: a lux value, or a failed
      read (bus error, or the sensor's overflow sentinel). */
  datatype SensorRead = Ok(lux: uint32) | Err

  /** A reading is applied unless it differs from the last applied one by
      1 to 29 lux; an identical reading is applied too. */
  function PassesHysteresis(last: uint32, lux: uint32): (r: bool)
    ensures r <==> (last == lux || last - lux >= LUX_CHANGE_HYSTERESIS || lux - last >= LUX_CHANGE_HYSTERESIS)
  {
    !(last > lux && last - lux < LUX_CHANGE_HYSTERESIS) && !(last < lux && lux - last < LUX_CHANGE_HYSTERESIS)
  }

  /** The brightness scale 1 - (sens / 255) * ((maxLux - lux) / maxLux). */
  function LuxScale(sens: uint32, maxLux: uint32, lux: uint32): (r: real)
    requires 0 < maxLux && lux <= maxLux
    ensures sens <= MAX_LUX_SENSITIVITY ==> 0.0 <= r <= 1.0
    ensures sens == 0 || lux == maxLux ==> r == 1.0
    ensures sens == MAX_LUX_SENSITIVITY && lux == 0 ==> r == 0.0
  {
    var dim := sens as real / MAX_LUX_SENSITIVITY as real;
    var dark := (maxLux - lux) as real / maxLux as real;
    RealFractionBounds((maxLux - lux) as real, maxLux as real);
    assert sens <= MAX_LUX_SENSITIVITY ==> 0.0 <= dim * dark <= 1.0 by {
      if sens <= MAX_LUX_SENSITIVITY {
        RealFractionBounds(sens as real, MAX_LUX_SENSITIVITY as real);
        RealScaleBounds(dark, dim);
      }
    }
    assert lux == 0 ==> dark == 1.0;
    1.0 - dim * dark
  }

  // ---------------------------------------------------------------------
  // Controller state and its operations as functions
  // ---------------------------------------------------------------------

  /** A snapshot of the controller: the channel table and every static.
      `stepping` and `sampling` stand for the enable bits of the fade timer
      (TIMER1A) and the lux timer (TIMER1B). */
  datatype LedState = LedState(
    channels: seq<Channel>,
    enabled: bool,
    profileIndex: uint8,
    step: uint8,
    timeInterval: uint8,
    sensitivity: uint32,
    maxLux: uint32,
    scale: real,
    lastLux: uint32,
    sensorFound: bool,
    stepping: bool,
    sampling: bool)

  /** What every operation preserves. */
  predicate Inv(s: LedState) {
    |s.channels| == NUM_LEDS &&
    s.profileIndex < NUM_PROFILES &&
    s.sensitivity <= MAX_LUX_SENSITIVITY &&
    0 < s.maxLux &&
    0.0 <= s.scale <= 1.0
  }

  const RESET_CHANNEL := Channel(0, 0, 0, 0, false)

  /** The state led_init leaves behind. The scale is 1 when the sensor is
      missing and keeps the static initial value 0 when it is present. */
  function InitialState(sensorFound: bool): (s: LedState)
    ensures Inv(s)
    ensures s.enabled && !s.stepping && s.sampling == sensorFound
    ensures forall i :: 0 <= i < NUM_LEDS ==> s.channels[i].current == 0 && s.channels[i].desired == 0 && !s.channels[i].outputOn
  {
    LedState([RESET_CHANNEL, RESET_CHANNEL, RESET_CHANNEL], true, 0, 1, 5, 0, 200,
             if sensorFound then 0.0 else 1.0, UINT32_MAX, sensorFound, false, sensorFound)
  }

  /** led_update_hw_start: start the fade timer. */
  function HwStartState(s: LedState): (r: LedState)
    ensures r.stepping && r.channels == s.channels && r.enabled == s.enabled
  {
    s.(stepping := true)
  }

  /** led_sw_brightness_set: record a new desired brightness. */
  function SwBrightnessSetState(s: LedState, i: nat, b: uint32): (r: LedState)
    requires i < |s.channels|
    ensures r == s.(channels := r.channels)
    ensures |r.channels| == |s.channels| && r.channels[i] == s.channels[i].(desired := b)
    ensures forall j :: 0 <= j < |s.channels| && j != i ==> r.channels[j] == s.channels[j]
  {
    s.(channels := s.channels[i := s.channels[i].(desired := b)])
  }

  /** led_time_interval_set: the interval is stored in a uint8_t static. */
  function TimeIntervalSetState(s: LedState, ms: uint32): (r: LedState)
    ensures r.timeInterval == ms % 256
    ensures r.channels == s.channels && r.stepping == s.stepping
  {
    s.(timeInterval := Wrap8(ms))
  }

  /** led_lux_sensitivity_set: values above 255 are not stored. */
  function SensitivitySetState(s: LedState, v: uint32): (r: LedState)
    ensures r.sensitivity == if v > MAX_LUX_SENSITIVITY then s.sensitivity else v
    ensures s.sensitivity <= MAX_LUX_SENSITIVITY ==> r.sensitivity <= MAX_LUX_SENSITIVITY
    ensures r.channels == s.channels
  {
    if v > MAX_LUX_SENSITIVITY then s else s.(sensitivity := v)
  }

  /** Disabling: each channel's desired brightness is saved and zeroed. */
  function SaveAndZero(chs: seq<Channel>): (r: seq<Channel>)
    ensures |r| == |chs|
    ensures forall i :: 0 <= i < |chs| ==> r[i] == chs[i].(previous := chs[i].desired, desired := 0)
  {
    seq(|chs|, i requires 0 <= i < |chs| => chs[i].(previous := chs[i].desired, desired := 0))
  }

  /** Enabling: each channel's desired brightness is restored. */
  function Restore(chs: seq<Channel>): (r: seq<Channel>)
    ensures |r| == |chs|
    ensures forall i :: 0 <= i < |chs| ==> r[i] == chs[i].(desired := chs[i].previous)
  {
    seq(|chs|, i requires 0 <= i < |chs| => chs[i].(desired := chs[i].previous))
  }

  /** led_sw_enable_set. */
  function EnableSetState(s: LedState, e: bool): (r: LedState)
    ensures Inv(s) ==> Inv(r)
    ensures e == s.enabled ==> r == s
    ensures r.enabled == e
    ensures e != s.enabled ==> r.stepping
    ensures e != s.enabled ==>
      r == s.(channels := if e then Restore(s.channels) else SaveAndZero(s.channels), enabled := e, stepping := true)
  {
    if e == s.enabled then s
    else if e then s.(channels := Restore(s.channels), stepping := true, enabled := true)
    else s.(channels := SaveAndZero(s.channels), stepping := true, enabled := false)
  }

  /** led_sw_enable_toggle. */
  function ToggleState(s: LedState): (r: LedState)
    ensures Inv(s) ==> Inv(r)
    ensures r.enabled == !s.enabled
  {
    if s.enabled then EnableSetState(s, false) else EnableSetState(s, true)
  }

  /** led_profile_load. */
  function ProfileLoadState(s: LedState, index: uint8): (r: LedState)
    requires |s.channels| == NUM_LEDS
    ensures Inv(s) ==> Inv(r)
    ensures !s.enabled || index >= NUM_PROFILES ==> r == s
    ensures s.enabled && index < NUM_PROFILES ==>
      r == s.(channels := r.channels, profileIndex := index, stepping := true) &&
      |r.channels| == NUM_LEDS &&
      r.channels[RED] == s.channels[RED] &&
      r.channels[BLUE] == s.channels[BLUE].(desired := PROFILES[index].brightness1) &&
      r.channels[GREEN] == s.channels[GREEN].(desired := PROFILES[index].brightness2)
  {
    if !s.enabled || index >= NUM_PROFILES then s
    else
      var p := PROFILES[index];
      assert p.led1 == BLUE && p.led2 == GREEN;
      var r := SwBrightnessSetState(s, p.led1, p.brightness1);
      var r := SwBrightnessSetState(r, p.led2, p.brightness2);
      HwStartState(r).(profileIndex := index)
  }

  /** The profile index that follows `i` in the cyclic order. */
  function NextProfileIndex(i: nat): (r: uint8)
    ensures r < NUM_PROFILES
    ensures i + 1 < NUM_PROFILES ==> r == i + 1
    ensures i + 1 == NUM_PROFILES ==> r == 0
  {
    (i + 1) % NUM_PROFILES
  }

  /** led_profile_load_next: advance the index cyclically and load it. */
  function ProfileLoadNextState(s: LedState): (r: LedState)
    requires |s.channels| == NUM_LEDS
    ensures Inv(s) ==> Inv(r)
    ensures !s.enabled ==> r == s
    ensures s.enabled ==> r.profileIndex == NextProfileIndex(s.profileIndex) && r.enabled
    ensures s.enabled ==> r == ProfileLoadState(s, NextProfileIndex(s.profileIndex))
  {
    if s.enabled then
      var next := NextProfileIndex(s.profileIndex);
      ProfileLoadState(s.(profileIndex := next), next)
    else s
  }

  /** A timeout of the fade timer: TIMER1A_Handler runs only while that
      timer is enabled. One fade tick; the timer stops when no channel had
      to move. */
  function TickState(s: LedState): (r: LedState)
    requires Inv(s)
    ensures Inv(r)
    ensures !s.stepping ==> r == s
    ensures r.stepping <==> s.stepping && !Converged(s.channels, s.scale)
    ensures Converged(s.channels, s.scale) ==> r == s.(stepping := false)
    ensures s.stepping ==> r.channels == TickAll(s.channels, s.scale, s.step)
    ensures forall i :: 0 <= i < NUM_LEDS ==>
      r.channels[i].desired == s.channels[i].desired && r.channels[i].previous == s.channels[i].previous
  {
    var chs := TickAll(s.channels, s.scale, s.step);
    if !s.stepping then s
    else if Converged(s.channels, s.scale) then s.(stepping := false)
    else s.(channels := chs)
  }

  /** A timeout of the lux timer: TIMER1B_Handler runs only while that timer
      is enabled, and reads the sensor while no fade is running and the
      controller is enabled. */
  function SampleState(s: LedState, reading: SensorRead): (r: LedState)
    requires Inv(s)
    ensures Inv(r)
    ensures !s.sampling || s.stepping || !s.enabled ==> r == s
    ensures s.sampling && !s.stepping && s.enabled && reading.Err? ==>
      r == s.(scale := 1.0, sensorFound := false, sampling := false)
    ensures r.channels == s.channels && r.enabled == s.enabled
    ensures r.lastLux != s.lastLux ==> r.lastLux <= s.maxLux && r.stepping
    ensures reading.Ok? && r.lastLux == s.lastLux ==> r.scale == s.scale || r.stepping
  {
    if !s.sampling || s.stepping || !s.enabled then s
    else match reading
      case Err => s.(scale := 1.0, sensorFound := false, sampling := false)
      case Ok(raw) =>
        var lux: uint32 := if raw > s.maxLux then s.maxLux else raw;
        if !PassesHysteresis(s.lastLux, lux) then s
        else HwStartState(s.(scale := LuxScale(s.sensitivity, s.maxLux, lux), lastLux := lux))
  }


  // ---------------------------------------------------------------------
  // Properties of the operations
  // ---------------------------------------------------------------------

  /** Over the brightness range the pulse width never decreases. */
  lemma PulsewidthMonotone(a: uint32, b: uint32)
    requires a <= b <= MAX_BRIGHTNESS_LEVEL
    ensures Pulsewidth(a) <= Pulsewidth(b)
  {
    if a >= EXP_POINT {
      var aa, bb := a * a, b * b;
      assert aa <= bb by {
        assert (b - a) * (b + a) >= 0;
      }
      SquareBounds(a);
      SquareBounds(b);
      assert Pulsewidth(a) == aa / EXP_POINT && Pulsewidth(b) == bb / EXP_POINT;
      DivHundredMonotone(aa, bb);
    }
  }

  lemma DivHundredMonotone(x: int, y: int)
    requires 0 <= x <= y
    ensures x / 100 <= y / 100
  {
  }

  /** Full brightness drives the whole PWM period: 255 * 255 / 100 == 650. */
  lemma FullBrightnessIsPwmPeriod()
    ensures Pulsewidth(MAX_BRIGHTNESS_LEVEL) == MAX_BRIGHTNESS_LEVEL * MAX_BRIGHTNESS_LEVEL / EXP_POINT == PWM_PERIOD
  {
  }

  /** Applying the same brightness twice leaves the channel as the first
      application did. */
  lemma HwApplyIdempotent(c: Channel, b: uint32)
    ensures HwApply(HwApply(c, b), b) == HwApply(c, b)
  {
  }

  /** With a step of 1 a channel that is off target gets one closer and
      does not pass its target. */
  lemma UnitStepApproaches(c: Channel, scale: real)
    requires 0.0 <= scale <= 1.0
    requires c.current != ScaledTarget(c.desired, scale)
    ensures var r := TickChannel(c, scale, 1);
      var t := ScaledTarget(c.desired, scale);
      Dist(r, scale) == Dist(c, scale) - 1 &&
      (c.current < t ==> c.current < r.current <= t) &&
      (c.current > t ==> t <= r.current < c.current)
  {
  }

  /** With a step of 1, after `n` ticks a channel's distance to its target
      has shrunk by `n` (down to 0), and its brightness stays between where
      it started and its target. */
  lemma {:induction false} ChannelUnitFade(c: Channel, scale: real, n: nat)
    requires 0.0 <= scale <= 1.0
    ensures var d := ChannelTickN(c, scale, 1, n);
      var t := ScaledTarget(c.desired, scale);
      d.desired == c.desired &&
      Dist(d, scale) == (if n <= Dist(c, scale) then Dist(c, scale) - n else 0) &&
      (c.current <= t ==> c.current <= d.current <= t) &&
      (c.current >= t ==> t <= d.current <= c.current)
  {
    if n > 0 {
      ChannelUnitFade(c, scale, n - 1);
      var d := ChannelTickN(c, scale, 1, n - 1);
      if d.current != ScaledTarget(d.desired, scale) {
        UnitStepApproaches(d, scale);
      }
    }
  }

  /** `n` ticks of the table act channel by channel. */
  lemma {:induction false} TickNAt(chs: seq<Channel>, scale: real, step: uint8, n: nat, i: nat)
    requires 0.0 <= scale <= 1.0
    requires i < |chs|
    ensures |TickN(chs, scale, step, n)| == |chs|
    ensures TickN(chs, scale, step, n)[i] == ChannelTickN(chs[i], scale, step, n)
  {
    if n > 0 {
      TickNAt(chs, scale, step, n - 1, i);
      var p := TickN(chs, scale, step, n - 1);
      assert TickN(chs, scale, step, n) == TickAll(p, scale, step);
      assert TickAll(p, scale, step)[i] == TickChannel(p[i], scale, step);
    }
  }

  /** With a step of 1 and fixed targets the table converges after exactly
      as many ticks as its farthest channel is from its target. */
  lemma FadeConverges(chs: seq<Channel>, scale: real, n: nat)
    requires 0.0 <= scale <= 1.0
    ensures Converged(TickN(chs, scale, 1, n), scale) <==>
            forall i :: 0 <= i < |chs| ==> Dist(chs[i], scale) <= n
  {
    var r := TickN(chs, scale, 1, n);
    forall i | 0 <= i < |chs|
      ensures r[i].current == ScaledTarget(r[i].desired, scale) <==> Dist(chs[i], scale) <= n
    {
      TickNAt(chs, scale, 1, n, i);
      ChannelUnitFade(chs[i], scale, n);
    }
  }

  /** A step of 2 overshoots: a channel one below its target jumps past it
      and comes back, so the fade never converges. */
  lemma StepTwoOscillates()
    ensures var c := Channel(0, 1, 0, 0, false);
      TickChannel(c, 1.0, 2).current == 2 &&
      ChannelTickN(c, 1.0, 2, 2).current == 0
  {
    var c := Channel(0, 1, 0, 0, false);
    assert ScaledTarget(1, 1.0) == 1;
  }

  /** `n` runs of the fade-timer handler. */
  function TickStateN(s: LedState, n: nat): (r: LedState)
    requires Inv(s)
    ensures Inv(r)
    decreases n
  {
    if n == 0 then s else TickState(TickStateN(s, n - 1))
  }

  /** While the fade timer runs, the handler's ticks are the table's ticks;
      once it has stopped, the table has converged, so further ticks of the
      table would not have changed it either. */
  lemma {:induction false} TickStateNChannels(s: LedState, n: nat)
    requires Inv(s) && s.stepping
    ensures TickStateN(s, n).channels == TickN(s.channels, s.scale, s.step, n)
    ensures TickStateN(s, n).scale == s.scale && TickStateN(s, n).step == s.step
    ensures TickStateN(s, n).stepping || Converged(TickStateN(s, n).channels, s.scale)
  {
    if n > 0 {
      TickStateNChannels(s, n - 1);
      var p := TickStateN(s, n - 1);
      assert TickStateN(s, n) == TickState(p);
      if p.stepping {
        assert TickState(p).channels == TickAll(p.channels, p.scale, p.step);
      } else {
        assert TickState(p) == p;
        assert TickAll(p.channels, p.scale, p.step) == p.channels;
      }
    }
  }

  /** Once stopped, the fade timer stays stopped under further timeouts. */
  lemma {:induction false} TickStateNStopped(s: LedState, n: nat)
    requires Inv(s) && !s.stepping
    ensures TickStateN(s, n) == s
  {
    if n > 0 {
      TickStateNStopped(s, n - 1);
    }
  }

  /** With a step of 1, once every channel has had as many ticks as it is
      far from its target, the next tick leaves the fade timer stopped. */
  lemma SteppingHalts(s: LedState, n: nat)
    requires Inv(s) && s.step == 1
    requires forall i :: 0 <= i < |s.channels| ==> Dist(s.channels[i], s.scale) <= n
    ensures s.stepping ==> Converged(TickStateN(s, n).channels, s.scale)
    ensures !TickStateN(s, n + 1).stepping
  {
    if s.stepping {
      TickStateNChannels(s, n);
      FadeConverges(s.channels, s.scale, n);
    } else {
      TickStateNStopped(s, n + 1);
    }
  }

  /** Disabling and then enabling gives every channel its desired
      brightness back; only `previous` records the value and the fade timer
      is started. */
  lemma EnableRoundTrip(s: LedState)
    requires s.enabled
    ensures var r := EnableSetState(EnableSetState(s, false), true);
      r.enabled && r == s.(channels := r.channels, stepping := true) &&
      |r.channels| == |s.channels| &&
      forall i :: 0 <= i < |s.channels| ==> r.channels[i] == s.channels[i].(previous := s.channels[i].desired)
  {
  }

  /** `n` presses of the change-profile button. */
  function LoadNextN(s: LedState, n: nat): (r: LedState)
    requires |s.channels| == NUM_LEDS
    ensures |r.channels| == NUM_LEDS
    decreases n
  {
    if n == 0 then s else ProfileLoadNextState(LoadNextN(s, n - 1))
  }

  /** The profile index after `n` cyclic advances from `i`. */
  function ProfileIndexAfter(i: nat, n: nat): (r: nat)
    ensures r < NUM_PROFILES
  {
    if n == 0 then i % NUM_PROFILES else NextProfileIndex(ProfileIndexAfter(i, n - 1))
  }

  lemma {:induction false} ProfileIndexAfterIsSum(i: nat, n: nat)
    ensures ProfileIndexAfter(i, n) == (i + n) % NUM_PROFILES
  {
    if n > 0 {
      ProfileIndexAfterIsSum(i, n - 1);
      ModNext(i + n - 1);
    }
  }

  lemma ModNext(k: int)
    requires k >= 0
    ensures ((k % NUM_PROFILES) + 1) % NUM_PROFILES == (k + 1) % NUM_PROFILES
  {
  }

  lemma {:induction false} LoadNextNSteps(s: LedState, n: nat)
    requires |s.channels| == NUM_LEDS && s.enabled && s.profileIndex < NUM_PROFILES
    ensures var r := LoadNextN(s, n);
      r.enabled && r.profileIndex == ProfileIndexAfter(s.profileIndex, n) &&
      (n > 0 ==> r.stepping &&
                 r.channels[BLUE].desired == PROFILES[r.profileIndex].brightness1 &&
                 r.channels[GREEN].desired == PROFILES[r.profileIndex].brightness2 &&
                 r.channels[RED] == s.channels[RED])
  {
    if n > 0 {
      LoadNextNSteps(s, n - 1);
      var p := LoadNextN(s, n - 1);
      assert LoadNextN(s, n) == ProfileLoadNextState(p) == ProfileLoadState(p, NextProfileIndex(p.profileIndex));
    }
  }

  /** While enabled, load_next walks the profile indices cyclically, and
      after each step the blue and green targets are those of the profile
      it reached while red keeps its own. */
  lemma ProfilesCycle(s: LedState, n: nat)
    requires |s.channels| == NUM_LEDS && s.enabled && s.profileIndex < NUM_PROFILES
    ensures var r := LoadNextN(s, n);
      r.enabled && r.profileIndex == (s.profileIndex + n) % NUM_PROFILES &&
      (n > 0 ==> r.stepping &&
                 r.channels[BLUE].desired == PROFILES[r.profileIndex].brightness1 &&
                 r.channels[GREEN].desired == PROFILES[r.profileIndex].brightness2 &&
                 r.channels[RED] == s.channels[RED])
  {
    LoadNextNSteps(s, n);
    ProfileIndexAfterIsSum(s.profileIndex, n);
    assert LoadNextN(s, n).profileIndex == (s.profileIndex + n) % NUM_PROFILES;
  }

  /** More ambient light never dims the LEDs more. */
  lemma LuxScaleMonotone(sens: uint32, maxLux: uint32, lux1: uint32, lux2: uint32)
    requires 0 < maxLux && lux1 <= lux2 <= maxLux && sens <= MAX_LUX_SENSITIVITY
    ensures LuxScale(sens, maxLux, lux1) <= LuxScale(sens, maxLux, lux2)
  {
    var dim := sens as real / MAX_LUX_SENSITIVITY as real;
    var dark1 := (maxLux - lux1) as real / maxLux as real;
    var dark2 := (maxLux - lux2) as real / maxLux as real;
    RealDivMonotone((maxLux - lux2) as real, (maxLux - lux1) as real, maxLux as real);
    RealFractionBounds(sens as real, MAX_LUX_SENSITIVITY as real);
    RealMulMonotone(dim, dark2, dark1);
  }

  /** A reading within the hysteresis band of the last applied one changes
      nothing; a reading outside it (or equal to it) is applied and starts a
      fade. */
  lemma SampleHysteresis(s: LedState, raw: uint32)
    requires Inv(s) && s.sampling && !s.stepping && s.enabled
    ensures var lux := if raw > s.maxLux then s.maxLux else raw;
      var r := SampleState(s, Ok(raw));
      (0 < s.lastLux - lux < LUX_CHANGE_HYSTERESIS || 0 < lux - s.lastLux < LUX_CHANGE_HYSTERESIS ==> r == s) &&
      (lux == s.lastLux || s.lastLux - lux >= LUX_CHANGE_HYSTERESIS || lux - s.lastLux >= LUX_CHANGE_HYSTERESIS ==>
         r.stepping && r.lastLux == lux && r.scale == LuxScale(s.sensitivity, s.maxLux, lux))
  {
  }

  /** With a sensor, the first reading after start-up always passes the
      hysteresis test, because the last applied lux starts at UINT32_MAX;
      without one, the lux timer never runs and the scale stays 1. */
  lemma FirstSampleApplied(found: bool, raw: uint32)
    ensures var s := InitialState(found);
      var r := SampleState(s, Ok(raw));
      var lux := if raw > 200 then 200 else raw;
      (found ==> r.stepping && r.lastLux == lux && r.scale == LuxScale(0, 200, lux) && r.scale == 1.0) &&
      (!found ==> r == s && r.scale == 1.0)
  {
  }

  /** Successive lux-timer timeouts with the given sensor readings. */
  function SampleN(s: LedState, readings: seq<SensorRead>): (r: LedState)
    requires Inv(s)
    ensures Inv(r)
    decreases |readings|
  {
    if |readings| == 0 then s
    else SampleN(SampleState(s, readings[0]), readings[1..])
  }

  /** Once the lux timer has stopped, samples change nothing. */
  lemma {:induction false} SamplingStopped(s: LedState, readings: seq<SensorRead>)
    requires Inv(s) && !s.sampling
    ensures SampleN(s, readings) == s
    decreases |readings|
  {
    if |readings| > 0 {
      SamplingStopped(SampleState(s, readings[0]), readings[1..]);
    }
  }

  /** The controller fails open: after a failed read the scale is 1 and no
      later timeout of the lux timer changes it, whatever the sensor
      returns. */
  lemma SensorLossIsFinal(s: LedState, readings: seq<SensorRead>)
    requires Inv(s) && s.sampling && !s.stepping && s.enabled
    ensures var r := SampleN(s, [Err] + readings);
      r.scale == 1.0 && !r.sampling && !r.sensorFound && r.channels == s.channels
  {
    var f := SampleState(s, Err);
    assert ([Err] + readings)[1..] == readings;
    SamplingStopped(f, readings);
  }

  // ---------------------------------------------------------------------
  // The controller
  // ---------------------------------------------------------------------

  class LedController {
    const channels: array<Channel>
    const numLeds: nat
    var enabled: bool
    var profileIndex: uint8
    var step: uint8
    var timeInterval: uint8
    var sensitivity: uint32
    var maxLux: uint32
    var scale: real
    var lastLux: uint32
    var sensorFound: bool
    var stepping: bool
    var sampling: bool

    function State(): LedState
      reads this, channels
    {
      LedState(channels[..], enabled, profileIndex, step, timeInterval, sensitivity, maxLux,
               scale, lastLux, sensorFound, stepping, sampling)
    }

    ghost predicate Valid()
      reads this, channels
    {
      channels.Length == NUM_LEDS && numLeds == NUM_LEDS && Inv(State())
    }

    /** led_init, without the peripheral set-up. `idRead` is the result of
        reading the light sensor's device id. */
    constructor (idRead: SensorRead)
      ensures Valid() && fresh(channels)
      ensures State() == InitialState(idRead == Ok(TSL2591_DEVICE_ID))
    {
      channels := new Channel[NUM_LEDS](_ => RESET_CHANNEL);
      var found := idRead == Ok(TSL2591_DEVICE_ID);
      sensorFound := found;
      scale := if found then 0.0 else 1.0;
      lastLux := UINT32_MAX;
      stepping, sampling := false, false;
      timeInterval := 5;
      step := 1;
      var n := NumLedsGet();
      numLeds := n;
      profileIndex := 0;
      sensitivity := 0;
      maxLux := 200;
      enabled := true;
      new;
      var i := 0;
      while i < numLeds
        modifies channels
        invariant 0 <= i <= NUM_LEDS
        invariant forall j :: 0 <= j < NUM_LEDS ==> channels[j] == RESET_CHANNEL
      {
        SwBrightnessSet(i, 0);
        HwBrightnessSet(i, 0);
        i := i + 1;
      }
      if found {
        sampling := true;
      }
      assert channels[..] == InitialState(found).channels;
    }

    /** led_hw_brightness_set. */
    method HwBrightnessSet(i: nat, b: uint32)
      requires channels.Length == NUM_LEDS && i < NUM_LEDS
      modifies channels
      ensures channels[..] == old(channels[..])[i := HwApply(old(channels[i]), b)]
    {
      var c := channels[i];
      var on := c.outputOn;
      if b == 0 {
        on := false;
      } else if !on {
        on := true;
      }
      channels[i] := c.(current := b, pulseWidth := Pulsewidth(b), outputOn := on);
    }

    /** led_sw_brightness_set. */
    method SwBrightnessSet(i: nat, b: uint32)
      requires channels.Length == NUM_LEDS && i < NUM_LEDS
      modifies channels
      ensures State() == SwBrightnessSetState(old(State()), i, b)
    {
      channels[i] := channels[i].(desired := b);
    }

    /** led_update_hw_start. */
    method UpdateHwStart()
      modifies this
      ensures State() == HwStartState(old(State()))
    {
      stepping := true;
    }

    /** led_time_interval_set (the timer reload value is not modelled). */
    method TimeIntervalSet(ms: uint32)
      requires Valid()
      modifies this
      ensures Valid() && State() == TimeIntervalSetState(old(State()), ms)
    {
      timeInterval := Wrap8(ms);
    }

    /** led_brightness_step_set. */
    method BrightnessStepSet(interval: uint8)
      requires Valid()
      modifies this
      ensures Valid() && State() == old(State()).(step := interval)
    {
      step := interval;
    }

    /** led_lux_sensitivity_set. The clamp to 255 reaches only the logged
        value, so an out-of-range value leaves the setting as it was. */
    method LuxSensitivitySet(v: uint32)
      requires Valid()
      modifies this
      ensures Valid() && State() == SensitivitySetState(old(State()), v)
    {
      var sens := v;
      if sens > MAX_LUX_SENSITIVITY {
        sens := MAX_LUX_SENSITIVITY;
      } else {
        sensitivity := sens;
      }
    }

    /** led_sw_enable_set. */
    method SwEnableSet(e: bool)
      requires Valid()
      modifies this, channels
      ensures Valid() && State() == EnableSetState(old(State()), e)
    {
      if e == enabled {
        return;
      }
      ghost var before := channels[..];
      var i := 0;
      if e {
        while i < numLeds
          modifies channels
          invariant 0 <= i <= NUM_LEDS
          invariant forall j :: 0 <= j < i ==> channels[j] == Restore(before)[j]
          invariant forall j :: i <= j < NUM_LEDS ==> channels[j] == before[j]
        {
          SwBrightnessSet(i, channels[i].previous);
          i := i + 1;
        }
        assert channels[..] == Restore(before);
      } else {
        while i < numLeds
          modifies channels
          invariant 0 <= i <= NUM_LEDS
          invariant forall j :: 0 <= j < i ==> channels[j] == SaveAndZero(before)[j]
          invariant forall j :: i <= j < NUM_LEDS ==> channels[j] == before[j]
        {
          channels[i] := channels[i].(previous := channels[i].desired);
          SwBrightnessSet(i, 0);
          i := i + 1;
        }
        assert channels[..] == SaveAndZero(before);
      }
      UpdateHwStart();
      enabled := e;
    }

    /** led_sw_enable_toggle. */
    method SwEnableToggle()
      requires Valid()
      modifies this, channels
      ensures Valid() && State() == ToggleState(old(State()))
    {
      if enabled {
        SwEnableSet(false);
      } else {
        SwEnableSet(true);
      }
    }

    /** led_profile_load. */
    method ProfileLoad(index: uint8)
      requires Valid()
      modifies this, channels
      ensures Valid() && State() == ProfileLoadState(old(State()), index)
    {
      if enabled {
        if index >= NUM_PROFILES {
          return;
        }
        var p := PROFILES[index];
        assert p.led1 == BLUE && p.led2 == GREEN;
        SwBrightnessSet(p.led1, p.brightness1);
        SwBrightnessSet(p.led2, p.brightness2);
        UpdateHwStart();
        profileIndex := index;
      }
    }

    /** led_profile_load_next. */
    method ProfileLoadNext()
      requires Valid()
      modifies this, channels
      ensures Valid() && State() == ProfileLoadNextState(old(State()))
    {
      if enabled {
        profileIndex := NextProfileIndex(profileIndex);
        ProfileLoad(profileIndex);
      }
    }

    /** TIMER1A_Handler: move every channel one step toward its scaled
        target and stop the fade timer once nothing moved. */
    method Tick()
      requires Valid()
      modifies this, channels
      ensures Valid() && State() == TickState(old(State()))
    {
      if !stepping {
        return; // the fade timer is stopped, so its interrupt does not fire
      }
      ghost var before := channels[..];
      var noChange := true;
      var i := 0;
      while i < numLeds
        modifies channels
        invariant 0 <= i <= NUM_LEDS
        invariant forall j :: 0 <= j < i ==> channels[j] == TickChannel(before[j], scale, step)
        invariant forall j :: i <= j < NUM_LEDS ==> channels[j] == before[j]
        invariant noChange <==> forall j :: 0 <= j < i ==> before[j].current == ScaledTarget(before[j].desired, scale)
      {
        var current := channels[i].current;
        var target := ScaledTarget(channels[i].desired, scale);
        if current > target {
          HwBrightnessSet(i, Wrap32(current - step));
          noChange := false;
        } else if current < target {
          HwBrightnessSet(i, Wrap32(current + step));
          noChange := false;
        }
        i := i + 1;
      }
      assert channels[..] == TickAll(before, scale, step);
      if noChange {
        stepping := false;
      }
    }

    /** TIMER1B_Handler. `reading` is what the light sensor returns if it is
        read; it is read only while no fade runs and the controller is on. */
    method Sample(reading: SensorRead)
      requires Valid()
      modifies this
      ensures Valid() && State() == SampleState(old(State()), reading)
    {
      if !sampling {
        return; // the lux timer is stopped, so its interrupt does not fire
      }
      if !stepping && enabled {
        match reading {
          case Err =>
            scale := 1.0;
            sensorFound := false;
            sampling := false;
            return;
          case Ok(raw) =>
            var newLux := raw;
            if newLux > maxLux {
              newLux := maxLux;
            }
            if lastLux > newLux && lastLux - newLux < LUX_CHANGE_HYSTERESIS {
              return;
            }
            if lastLux < newLux && newLux - lastLux < LUX_CHANGE_HYSTERESIS {
              return;
            }
            scale := LuxScale(sensitivity, maxLux, newLux);
            lastLux := newLux;
            UpdateHwStart();
        }
      }
    }
  }
}
