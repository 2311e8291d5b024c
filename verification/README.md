# LED lamp firmware model

A Dafny model of the control core of the LED_Lamp_2 firmware. The firmware
runs on a TM4C123 board and drives three PWM LED channels (red, blue and
green). It fades each channel toward a target brightness, and it dims the
targets by an ambient-light reading from a TSL2591 sensor. Two push buttons
and a serial command line control it.

The project has four modules, one per core source file:

- `CommonAux` (`common_aux.dfy`) models `ms_to_clockticks`, the conversion
  from milliseconds to timer ticks. It also holds the fixed-width integer
  types and the explicit C conversions `Wrap32` (to `uint32_t`) and `Wrap8`
  (to `uint8_t`) that the other modules use.
- `Led` (`led.dfy`) models the LED controller of `led.c`:
  - `LedController` is a class. Its `channels` array stands for the mutable
    columns of `LED_LIST`, and its fields stand for the module statics.
  - The fade timer (TIMER1A) and the lux timer (TIMER1B) are reduced to the
    booleans `stepping` and `sampling`. A timer's handler runs only while
    its boolean is set, so a stopped timer's timeout changes nothing.
  - Every controller method except `HwBrightnessSet` is proved against a
    pure function on the snapshot `LedState` (`State() == XState(old(State()), …)`).
    `HwBrightnessSet` touches only the channel array, and its contract
    states the new array through `HwApply` on channel `i`.
  - The lemmas state the controller's properties over those functions:
    - pulse-width bounds and monotonicity;
    - fade convergence;
    - the enable/disable round trip;
    - cyclic profile loading;
    - lux hysteresis and scaling.
- `Button` (`button.dfy`) models `button.c`:
  - the vertical-counter debouncer as `bv8` arithmetic, with per-bit
    properties stated through a one-hot mask;
  - the TIMER0A poll handler that turns press edges into LED actions.
- `Cmd` (`cmd.dfy`) models `cmd.c`:
  - the lookup in the sentinel-terminated command table;
  - the LED-name table of `setb`;
  - the effect of each command handler on the LED controller.

Interrupt handlers are methods that run to completion. Hardware reads are
parameters:
- the GPIO port byte for the button handler;
- a `SensorRead` (`Ok(lux)` or `Err`) for the lux sampler and the sensor-id
  probe;
- the system clock frequency for `ms_to_clockticks`;
- the console lines for the command handlers.

Three behaviours of the code are worth knowing:
- **Debounce latency.** The two-bit vertical counter in `debounce` flips a
  state bit only on the fourth consecutive disagreeing sample
  (`Button.FourthSampleFlips`, `Button.HeldButtonOneEdge`).
- **Sensitivity clamp.** The clamp in `led_lux_sensitivity_set` only
  reaches the logged value. A value above 255 is not stored, and the
  previous sensitivity stays in effect.
- **Brightness scale.** The scale is not clamped to [0, 1] in the code. It
  stays in that range because the sensitivity never exceeds 255 and the
  reading is clamped to `max_lux`.

## Model

| member | source | states |
|---|---|---|
| CommonAux.MsToClockticks | src/common_aux.c:46-54 | as written: never above `max_val`; 0 for 0 ms; the exact product `ms * (clock/(prescale+1)/1000)` when it is at most `max_val`; `max_val` when the product exceeds it without passing 2^32; otherwise `max_val` or the product reduced mod 2^32 |
| CommonAux.TicksPerMs | src/common_aux.c:48 | ticks per millisecond is the truncated quotient: times the prescaler divisor times 1000 it does not exceed the clock, and one more tick would |
| CommonAux.ExactTicksMonotone | src/common_aux.c:48 | the exact tick count never decreases as the interval grows |
| CommonAux.MsToClockticksMonotone | src/common_aux.c:48-53 | with no 32-bit overflow of the product, a longer interval never gives fewer ticks |
| CommonAux.MsToClockticksWrapsBeforeClamp | src/common_aux.c:48-51 | on a 16 MHz clock with prescale 255 (62 ticks/ms), 69273667 ms gives 58 ticks as written, where the saturating version gives 65535 |
| CommonAux.MsToClockticksSaturating | src/common_aux.c:35-43 | the documented behaviour: never above `max_val`, never above the exact product, and equal to one of them |
| CommonAux.MsToClockticksSaturatingMonotone | src/common_aux.c:35-43 | the saturating conversion is monotone in `ms` for every input |
| CommonAux.MsToClockticksAgreeWithoutOverflow | src/common_aux.c:48-53 | the as-written and saturating conversions agree whenever the product fits in 32 bits |
| CommonAux.Wrap32 | src/led.c:195-201 | C conversion to `uint32_t`: identity in range, +2^32 just below 0, -2^32 just above the range |
| CommonAux.Wrap8 | src/led.c:516-522 | C conversion to `uint8_t`: identity on 0..255, -256 on 256..511 |
| Led.NumLedsGet | src/led.c:406-415 | the count stops at the terminal entry (PWM base 0); every earlier entry is a real LED; the count is 3 |
| Led.Pulsewidth | src/led.c:476-482 | pulse width equals the brightness below 100; for 0..255 it lies between the brightness and 650, and is 0 exactly at brightness 0 |
| Led.PulsewidthMonotone | src/led.c:476-482 | over 0..255 the pulse width never decreases with brightness |
| Led.FullBrightnessIsPwmPeriod | src/led.c:320-325 | 255*255/100 is 650, the configured PWM period |
| Led.HwApply | src/led.c:458-488 | the channel's current brightness becomes `b` and its pulse width `Pulsewidth(b)`; the output is on exactly when `b` is nonzero; desired and previous are untouched |
| Led.HwApplyIdempotent | src/led.c:458-488 | applying the same brightness twice changes nothing further |
| Led.LedController.HwBrightnessSet | src/led.c:458-488 | only channel `i` changes, to `HwApply` of its old value |
| Led.ScaledTarget | src/led.c:192 | the target is the floor of `desired * scale` and never exceeds `desired` |
| Led.TickChannel | src/led.c:189-203 | desired and previous never change; a channel at its target is untouched; above it moves down by `step`, below it up by `step`; with a positive step an off-target channel always moves |
| Led.TickAll | src/led.c:186-209 | a converged table is unchanged, and with a positive step an unchanged table was converged |
| Led.UnitStepApproaches | src/led.c:194-201 | with step 1 an off-target channel gets exactly one closer to its target |
| Led.ChannelUnitFade | src/led.c:172-176 | with step 1 a channel reaches its target after exactly its distance in ticks and stays there |
| Led.TickNAt | src/led.c:189-203 | `n` table ticks act on each channel as `n` single-channel ticks |
| Led.FadeConverges | src/led.c:172-176 | with step 1, after `n` ticks the table has converged exactly when no channel started more than `n` away |
| Led.StepTwoOscillates | src/led.c:194-201 | with step 2 a channel one below its target overshoots to 2 and comes back to 0, so there is no clamp |
| Led.TickStateNChannels | src/led.c:180-210 | from a running fade timer, `n` timeouts move the channels as `n` table ticks and keep scale and step; when the timer has stopped the table has converged |
| Led.TickStateNStopped | src/led.c:204-209 | once the fade timer is stopped, any number of further timeouts leave the controller unchanged |
| Led.SteppingHalts | src/led.c:204-209 | with step 1, once every channel has had its distance in ticks, a running fade has converged and after one more timeout the fade timer is stopped |
| Led.TickState | src/led.c:180-210 | a timeout of a stopped fade timer changes nothing; a running one ticks the table with `TickAll` and stops exactly when the table had converged; desired and previous brightness never change; the invariant is kept |
| Led.LedController.Tick | src/led.c:180-210 | the channels and fade timer become `TickState` of the old state |
| Led.PassesHysteresis | src/led.c:248-252 | a reading is applied exactly when it equals the last applied one or differs from it by at least 30 |
| Led.LuxScale | src/led.c:255 | in [0, 1] for sensitivity at most 255; 1 at sensitivity 0 or full lux; 0 at sensitivity 255 in the dark |
| Led.LuxScaleMonotone | src/led.c:255 | more ambient light never gives a smaller scale |
| Led.SampleState | src/led.c:222-262 | nothing happens while the lux timer is stopped, while fading or while disabled; a failed read sets scale 1, clears sensor-found and stops the lux timer; the channels never change; a new last lux is within `max_lux` and starts a fade |
| Led.SampleHysteresis | src/led.c:244-260 | while the lux timer runs, a clamped reading 1..29 from the last applied one changes nothing; any other reading is applied, starting a fade with the recomputed scale |
| Led.FirstSampleApplied | src/led.c:224-256 | with a sensor, the first reading after start-up always passes (last lux starts at UINT32_MAX) and, at sensitivity 0, gives scale 1; without one the lux timer never runs and the scale stays 1 |
| Led.SamplingStopped | src/led.c:238-241 | once the lux timer is stopped, any sequence of further timeouts leaves the controller unchanged |
| Led.SensorLossIsFinal | src/led.c:234-241 | the controller fails open: after a failed read the scale is 1, the sensor is marked lost and no later lux timeout changes the scale, whatever the sensor returns |
| Led.LedController.Sample | src/led.c:222-262 | the controller becomes `SampleState` of the old state and the reading |
| Led.InitialState | src/led.c:361-396 | start-up leaves the controller enabled with every channel off at 0, the fade timer stopped, and sampling exactly when the sensor was found |
| Led.LedController.constructor | src/led.c:285-397 | the fresh controller's state is `InitialState` for whether the sensor id read back as 0x50 |
| Led.SwBrightnessSetState | src/led.c:501-504 | only channel `i`'s desired brightness changes, to `b`; every other field of that channel, every other channel and every static stay as they were |
| Led.LedController.SwBrightnessSet | src/led.c:501-504 | the controller becomes `SwBrightnessSetState` of the old state |
| Led.HwStartState | src/led.c:730-733 | the fade timer runs; channels and enable are unchanged |
| Led.LedController.UpdateHwStart | src/led.c:730-733 | the controller becomes `HwStartState` of the old state |
| Led.TimeIntervalSetState | src/led.c:516-522 | the stored interval is the argument reduced mod 256; channels and fade timer are unchanged |
| Led.LedController.TimeIntervalSet | src/led.c:516-522 | the controller becomes `TimeIntervalSetState` of the old state |
| Led.LedController.BrightnessStepSet | src/led.c:548-551 | only the step changes |
| Led.SensitivitySetState | src/led.c:708-716 | a value up to 255 is stored, a larger one leaves the setting as it was, so the stored value never exceeds 255 |
| Led.LedController.LuxSensitivitySet | src/led.c:708-716 | the controller becomes `SensitivitySetState` of the old state |
| Led.SaveAndZero | src/led.c:652-657 | every channel's desired brightness is saved into previous and set to 0; current brightness, pulse width and output stay |
| Led.Restore | src/led.c:644-648 | every channel's desired brightness is restored from previous; every other field stays |
| Led.EnableSetState | src/led.c:637-663 | no-op when the flag already has the requested value; otherwise enabling restores each desired brightness from previous, disabling saves it into previous and zeroes it, the flag takes the new value and a fade starts; nothing else changes |
| Led.EnableRoundTrip | src/led.c:637-663 | disable then enable gives every channel back its desired brightness; only previous records it and a fade starts |
| Led.LedController.SwEnableSet | src/led.c:637-663 | the controller becomes `EnableSetState` of the old state |
| Led.ToggleState | src/led.c:687-693 | the enable flag flips |
| Led.LedController.SwEnableToggle | src/led.c:687-693 | the controller becomes `ToggleState` of the old state |
| Led.ProfileLoadState | src/led.c:582-601 | nothing changes when disabled or when the index is 3 or more; otherwise only blue and green get the profile's brightness, red is untouched, the index is recorded and a fade starts |
| Led.LedController.ProfileLoad | src/led.c:582-601 | the controller becomes `ProfileLoadState` of the old state |
| Led.NextProfileIndex | src/led.c:618 | the next index is below 3: one more, or 0 after the last profile |
| Led.ProfileLoadNextState | src/led.c:614-621 | disabled: no change; enabled: the profile after the current one is loaded |
| Led.LedController.ProfileLoadNext | src/led.c:614-621 | the controller becomes `ProfileLoadNextState` of the old state |
| Led.LoadNextNSteps | src/led.c:614-621 | after `n` presses the index is `n` cyclic advances on, and blue and green carry that profile's brightness |
| Led.ProfileIndexAfterIsSum | src/led.c:618 | `n` cyclic advances from `i` reach `(i + n) mod 3` |
| Led.ProfilesCycle | src/led.c:614-621 | while enabled, `n` presses reach profile `(index + n) mod 3` (so 0 gives 1, 2, 0, …), red keeps its target, blue and green get the profile's targets |
| Button.DebounceStep | src/button.c:146-159 | a bit toggles only where the sample disagrees with the debounced state; the new state is the old one with the toggled bits flipped; agreeing bits clear their counter |
| Button.ToggledBitsSettle | src/button.c:151-156 | every toggled bit ends equal to the sample with its counter clear |
| Button.DebounceBit | src/button.c:151-156 | per bit: an agreeing sample clears the counter with no toggle; a disagreeing one counts 1, 2, 3 and on the fourth toggles the bit and wraps the counter to 0 |
| Button.BitsIndependent | src/button.c:151-156 | bit `m` of every output depends only on bit `m` of the inputs |
| Button.RunSnoc | src/button.c:146-159 | polling one more sample is one more `debounce` call |
| Button.RunConcat | src/button.c:146-159 | polling two runs in turn is polling their concatenation |
| Button.DisagreeingRun | src/button.c:151-156 | up to three consecutive disagreeing samples are counted and do not change the bit |
| Button.FourthSampleFlips | src/button.c:151-156 | the fourth consecutive disagreeing sample flips the bit and clears the counter |
| Button.GlitchSuppressed | src/button.c:151-156 | fewer than four disagreeing samples followed by an agreeing one leave the bit unchanged and the counter clear |
| Button.AgreeingRun | src/button.c:151-156 | agreeing samples with a clear counter never toggle and never move the bit |
| Button.HeldButtonOneEdge | src/button.c:148-156 | from the initial all-released state (0xFF, counters 0), a pin held low gives exactly one toggle, on the fourth poll, after which it reads pressed |
| Button.Debouncer.constructor | src/button.c:148 | the statics start at state 0xFF and both counters 0 |
| Button.Debouncer.Debounce | src/button.c:146-159 | the statics become `DebounceStep`'s, and the returned state and toggle are its |
| Button.ButtonEffect | src/button.c:88-115 | only a power press changes the enable, and it flips it; release edges change nothing; the profile advances exactly on a change-profile press with the lamp on after the power button was handled |
| Button.BothPressedWhileOn | src/button.c:88-115 | both presses in one poll while on: the lamp turns off and the profile press is ignored |
| Button.Timer0AHandler | src/button.c:74-116 | the debouncer takes one step on the two button pins of the port, and the LED controller becomes `ButtonEffect` of that step |
| Cmd.CommandIndexFrom | src/cmd.c:131-146 | the first entry from `i` on named `cmd`, or the terminator index when there is none |
| Cmd.CommandIndex | src/cmd.c:131-146 | below the terminator exactly when `cmd` is one of the ten names, and then names `cmd` |
| Cmd.CommandNamesDistinct | src/cmd.c:82-95 | the table's names, terminator included, are pairwise distinct |
| Cmd.CommandIndexOfName | src/cmd.c:82-95 | looking up an entry's own name finds that entry |
| Cmd.EmptyCommandRejected | src/cmd.c:135 | the empty line is not a command |
| Cmd.Execute | src/cmd.c:131-146 | returns true exactly when `cmd` is a name before the terminator; then the matching entry's handler has run; otherwise nothing changed |
| Cmd.FindLed | src/cmd.c:233-241 | finds a type exactly when some entry has the name, and the type is that entry's |
| Cmd.LedTypeOf | src/cmd.c:105-110 | a found type is a valid channel index |
| Cmd.LedTypeNamesAgree | src/cmd.c:105-110 | exactly "r", "g" and "b" are found, each naming the channel listed under the same letter in led.c |
| Cmd.LedTypeLookup | src/cmd.c:233-247 | the flag is set exactly when the name is in the table, and the type is then the table's |
| Cmd.HandlerEffect | src/cmd.c:196-356 | only ledon/ledoff change the enable, and they set it; an unknown LED name changes nothing; only profile moves the profile index; ver, help and lux change nothing |
| Cmd.SetBrightnessEffect | src/cmd.c:222-256 | setb sets the desired brightness of exactly the named channel to the value mod 256 and starts a fade |
| Cmd.LoadProfileRange | src/cmd.c:266-277 | an index that is 3 or more after reduction to 8 bits is ignored; a smaller one is loaded while on |
| Cmd.ProfileIndexTruncated | src/cmd.c:274 | "profile 259" is ignored but "profile 257" loads profile 1 |
| Cmd.OffOnRestores | src/cmd.c:196-212 | ledoff then ledon gives every channel back its desired brightness |
| Cmd.RunHandler | src/cmd.c:196-356 | the controller becomes `HandlerEffect` of the handler on the old state |

## Left out

- Peripheral set-up is not modelled. This covers the PWM, GPIO, timer and
  interrupt register configuration in `led_init` and `button_init`. The
  timer reload value that `led_time_interval_set` computes with
  `ms_to_clockticks` is also left out; only the stored `uint8_t` interval
  is kept.
- The hardware timers are booleans. `stepping` stands for TIMER1A's enable
  bit and `sampling` for TIMER1B's. Their periods are not modelled; a
  timeout is one call of `Tick` or `Sample`, which does nothing while the
  corresponding boolean is clear.
- The TSL2591 driver and the I2C bus are not part of this model. A sensor
  read is `SensorRead`. The driver's overflow sentinel and its bus errors
  both become `Err`, as the lux sampler treats any nonzero status.
- Floating point: the scale is a Dafny `real`, and the float-to-`uint32_t`
  conversion is `Floor`. IEEE rounding is not modelled.
- Concurrency: each interrupt handler runs atomically. Interleavings
  between TIMER0A, TIMER1A, TIMER1B and the console loop are not modelled.
- Logging (`log_msg`, `log_msg_value`) and all console output are no-ops.
  This covers `cmd_ver`, `cmd_help` and the printing half of
  `cmd_lux_read`.
- Console input parsing is not modelled. `UARTgets`, `atoi` and `strtol`
  become the `CmdInput` parameter, which holds the parsed number as an
  unbounded integer.
- `led_max_lux_set` is declared in `led.h` but has no definition, so it is
  not modelled.
- The getters are not modelled: `led_sw_enable_get`,
  `led_time_interval_get`, `led_brightness_step_get` and
  `led_output_state_get`. Their values are fields of the model.
- Button.Debouncer.Debounce: the method assigns the statics from
  `DebounceStep` instead of repeating the four bit-expression statements
  of `debounce`. The bit arithmetic appears once, in `DebounceStep`.

## Findings

| source | as written | input that shows it | evidently intended | confidence | as-written member | corrected member |
|---|---|---|---|---|---|---|
| src/common_aux.c:48-51 | `ms * ticks_per_ms` is computed in `uint32_t`, so it wraps before the clamp to `max_val` | clock 16 MHz, prescale 255 (62 ticks/ms), ms = 69273667, max_val = 65535: the product 4294967354 wraps to 58, and 58 is returned | return `max_val` whenever the exact product exceeds it (the documented inclusive upper limit) | not executed | CommonAux.MsToClockticksWrapsBeforeClamp | CommonAux.MsToClockticksSaturating |
