// The push-button front end of the lamp (button.c): the vertical-counter
// debouncer and the TIMER0A poll handler that turns debounced press edges
// into LED controller actions.
//
// The debouncer keeps, for each of the eight port bits, a debounced state
// bit and a two-bit counter split over the bytes `cnt1` (high bit) and
// `cnt0` (low bit). All properties are stated per bit through a one-hot
// mask `m`.

module Button {
  import opened CommonAux
  import opened Led

  /** Port F pins of the two buttons (button.h). */
  const BUTTON_POWER: bv8 := 0x01
  const BUTTON_CHANGE_PROFILE: bv8 := 0x10

  /** The three statics of `debounce`. */
  datatype DebounceState = DebounceState(state: bv8, cnt0: bv8, cnt1: bv8)

  /** All buttons released (the pins idle high), both counters clear. */
  const DEBOUNCE_INITIAL := DebounceState(0xFF, 0, 0)

  /** What one call of `debounce` leaves behind: the new statics and the
      byte written through `toggle`. The returned value is `next.state`. */
  datatype Debounced = Debounced(next: DebounceState, toggle: bv8)

  /** One call of `debounce` on the raw port sample. */
  function DebounceStep(d: DebounceState, sample: bv8): (r: Debounced)
    // a bit toggles only where the sample disagrees with the debounced state
    ensures r.toggle & !(sample ^ d.state) == 0
    // the new state is the old one with the toggled bits flipped
    ensures r.next.state == d.state ^ r.toggle
    // where the sample agrees, the counter is reset
    ensures (r.next.cnt0 | r.next.cnt1) & !(sample ^ d.state) == 0
  {
    var delta := sample ^ d.state;
    var cnt1 := (d.cnt1 ^ d.cnt0) & delta;
    var cnt0 := !d.cnt0 & delta;
    var toggle := delta & !(cnt0 | cnt1);
    Debounced(DebounceState(d.state ^ toggle, cnt0, cnt1), toggle)
  }

  /** Every toggled bit ends up equal to the sample, with its counter
      clear. */
  lemma ToggledBitsSettle(d: DebounceState, sample: bv8)
    ensures var r := DebounceStep(d, sample);
      (r.next.state ^ sample) & r.toggle == 0 && (r.next.cnt0 | r.next.cnt1) & r.toggle == 0
  {
  }

  /** `m` selects exactly one bit. */
  predicate OneBit(m: bv8) {
    m != 0 && m & (m - 1) == 0
  }

  /** The bit of `x` that the one-hot mask `m` selects. */
  predicate Bit(x: bv8, m: bv8) {
    x & m != 0
  }

  /** The value 0..3 of the vertical counter at bit `m`. */
  function Count(d: DebounceState, m: bv8): (c: nat)
    ensures c < 4
  {
    (if Bit(d.cnt1, m) then 2 else 0) + (if Bit(d.cnt0, m) then 1 else 0)
  }

  /** The per-bit behaviour of one call: a sample that agrees with the
      debounced state clears the counter; a disagreeing one advances the
      counter through 1, 2, 3 and on the fourth flips the state bit and
      wraps the counter to 0. */
  lemma DebounceBit(d: DebounceState, sample: bv8, m: bv8)
    requires OneBit(m)
    ensures var r := DebounceStep(d, sample);
      if Bit(sample, m) == Bit(d.state, m) then
        Count(r.next, m) == 0 && !Bit(r.toggle, m) && Bit(r.next.state, m) == Bit(d.state, m)
      else
        Count(r.next, m) == (Count(d, m) + 1) % 4 &&
        (Bit(r.toggle, m) <==> Count(d, m) == 3) &&
        (Bit(r.next.state, m) <==> Bit(d.state, m) != Bit(r.toggle, m))
  {
  }

  /** Bits evolve independently: bit `m` of everything `debounce` produces
      depends only on bit `m` of its inputs. */
  lemma BitsIndependent(d1: DebounceState, s1: bv8, d2: DebounceState, s2: bv8, m: bv8)
    requires OneBit(m)
    requires Bit(d1.state, m) == Bit(d2.state, m) && Bit(d1.cnt0, m) == Bit(d2.cnt0, m)
    requires Bit(d1.cnt1, m) == Bit(d2.cnt1, m) && Bit(s1, m) == Bit(s2, m)
    ensures var r1, r2 := DebounceStep(d1, s1), DebounceStep(d2, s2);
      Bit(r1.toggle, m) == Bit(r2.toggle, m) &&
      Bit(r1.next.state, m) == Bit(r2.next.state, m) &&
      Bit(r1.next.cnt0, m) == Bit(r2.next.cnt0, m) &&
      Bit(r1.next.cnt1, m) == Bit(r2.next.cnt1, m)
  {
  }

  /** The statics after `debounce` has been called on each sample in turn. */
  function Run(d: DebounceState, samples: seq<bv8>): DebounceState
    decreases |samples|
  {
    if |samples| == 0 then d
    else DebounceStep(Run(d, samples[..|samples| - 1]), samples[|samples| - 1]).next
  }

  /** Running one more sample is one more call. */
  lemma RunSnoc(d: DebounceState, samples: seq<bv8>, sample: bv8)
    ensures Run(d, samples + [sample]) == DebounceStep(Run(d, samples), sample).next
  {
    assert (samples + [sample])[..|samples|] == samples;
  }

  /** While every sample disagrees with the debounced bit and fewer than
      four have arrived, the counter counts them and the bit holds. */
  lemma {:induction false} DisagreeingRun(d: DebounceState, samples: seq<bv8>, m: bv8)
    requires OneBit(m)
    requires Count(d, m) + |samples| <= 3
    requires forall k :: 0 <= k < |samples| ==> Bit(samples[k], m) != Bit(d.state, m)
    ensures Count(Run(d, samples), m) == Count(d, m) + |samples|
    ensures Bit(Run(d, samples).state, m) == Bit(d.state, m)
  {
    if |samples| > 0 {
      var init := samples[..|samples| - 1];
      DisagreeingRun(d, init, m);
      DebounceBit(Run(d, init), samples[|samples| - 1], m);
    }
  }

  /** A state bit flips on the fourth consecutive disagreeing sample, and
      the counter is then clear again. */
  lemma FourthSampleFlips(d: DebounceState, samples: seq<bv8>, m: bv8)
    requires OneBit(m) && Count(d, m) == 0 && |samples| == 4
    requires forall k :: 0 <= k < 4 ==> Bit(samples[k], m) != Bit(d.state, m)
    ensures Bit(Run(d, samples).state, m) != Bit(d.state, m)
    ensures Count(Run(d, samples), m) == 0
  {
    DisagreeingRun(d, samples[..3], m);
    DebounceBit(Run(d, samples[..3]), samples[3], m);
  }

  /** Glitch suppression: fewer than four disagreeing samples followed by
      an agreeing one leave the debounced bit as it was and clear the
      counter. */
  lemma GlitchSuppressed(d: DebounceState, glitch: seq<bv8>, sample: bv8, m: bv8)
    requires OneBit(m) && Count(d, m) == 0 && |glitch| <= 3
    requires forall k :: 0 <= k < |glitch| ==> Bit(glitch[k], m) != Bit(d.state, m)
    requires Bit(sample, m) == Bit(d.state, m)
    ensures Bit(Run(d, glitch + [sample]).state, m) == Bit(d.state, m)
    ensures Count(Run(d, glitch + [sample]), m) == 0
  {
    DisagreeingRun(d, glitch, m);
    RunSnoc(d, glitch, sample);
    DebounceBit(Run(d, glitch), sample, m);
  }

  /** The byte `debounce` writes through `toggle` on the call for
      `samples[k]`, after the earlier samples. */
  function ToggleAt(d: DebounceState, samples: seq<bv8>, k: nat): bv8
    requires k < |samples|
  {
    DebounceStep(Run(d, samples[..k]), samples[k]).toggle
  }

  /** Once the debounced bit equals the sample and the counter is clear,
      further agreeing samples neither toggle nor move it. */
  lemma {:induction false} AgreeingRun(d: DebounceState, samples: seq<bv8>, m: bv8)
    requires OneBit(m) && Count(d, m) == 0
    requires forall k :: 0 <= k < |samples| ==> Bit(samples[k], m) == Bit(d.state, m)
    ensures Bit(Run(d, samples).state, m) == Bit(d.state, m) && Count(Run(d, samples), m) == 0
    ensures forall k :: 0 <= k < |samples| ==> !Bit(ToggleAt(d, samples, k), m)
  {
    if |samples| > 0 {
      var init := samples[..|samples| - 1];
      AgreeingRun(d, init, m);
      DebounceBit(Run(d, init), samples[|samples| - 1], m);
      forall k | 0 <= k < |samples|
        ensures !Bit(ToggleAt(d, samples, k), m)
      {
        if k < |init| {
          assert samples[..k] == init[..k];
          assert ToggleAt(d, samples, k) == ToggleAt(d, init, k);
        } else {
          assert samples[..k] == init;
        }
      }
    }
  }

  /** A button held down from power-up (its pin read low on every poll)
      produces exactly one press edge: on the fourth poll, and on no other. */
  lemma HeldButtonOneEdge(samples: seq<bv8>, m: bv8)
    requires OneBit(m)
    requires forall k :: 0 <= k < |samples| ==> !Bit(samples[k], m)
    ensures forall k :: 0 <= k < |samples| ==> (Bit(ToggleAt(DEBOUNCE_INITIAL, samples, k), m) <==> k == 3)
    ensures |samples| >= 4 ==> !Bit(Run(DEBOUNCE_INITIAL, samples).state, m)
  {
    var d := DEBOUNCE_INITIAL;
    assert Bit(d.state, m) && Count(d, m) == 0;
    forall k | 0 <= k < |samples| && k <= 3
      ensures Bit(ToggleAt(d, samples, k), m) <==> k == 3
    {
      DisagreeingRun(d, samples[..k], m);
      DebounceBit(Run(d, samples[..k]), samples[k], m);
    }
    if |samples| >= 4 {
      var first, rest := samples[..4], samples[4..];
      FourthSampleFlips(d, first, m);
      var d4 := Run(d, first);
      AgreeingRun(d4, rest, m);
      RunConcat(d, first, rest);
      assert samples == first + rest;
      forall k | 4 <= k < |samples|
        ensures !Bit(ToggleAt(d, samples, k), m)
      {
        assert samples[..k] == first + rest[..k - 4];
        RunConcat(d, first, rest[..k - 4]);
        assert ToggleAt(d, samples, k) == ToggleAt(d4, rest, k - 4);
      }
    }
  }

  /** Running two sample sequences one after the other is running their
      concatenation. */
  lemma {:induction false} RunConcat(d: DebounceState, a: seq<bv8>, b: seq<bv8>)
    ensures Run(d, a + b) == Run(Run(d, a), b)
    decreases |b|
  {
    if |b| > 0 {
      var b' := b[..|b| - 1];
      assert (a + b)[..|a + b| - 1] == a + b';
      RunConcat(d, a, b');
    } else {
      assert a + b == a;
    }
  }

  /** The debouncer with its statics as fields. */
  class Debouncer {
    var state: bv8
    var cnt0: bv8
    var cnt1: bv8

    function Snapshot(): DebounceState
      reads this
    {
      DebounceState(state, cnt0, cnt1)
    }

    /** The static initialisers. */
    constructor ()
      ensures Snapshot() == DEBOUNCE_INITIAL
    {
      state, cnt0, cnt1 := 0xFF, 0, 0;
    }

    /** debounce: updates the statics and returns the debounced state and
        the toggled bits. The bit arithmetic is the one of DebounceStep. */
    method Debounce(sample: bv8) returns (newState: bv8, toggle: bv8)
      modifies this
      ensures Snapshot() == DebounceStep(old(Snapshot()), sample).next
      ensures toggle == DebounceStep(old(Snapshot()), sample).toggle
      ensures newState == state
    {
      var r := DebounceStep(Snapshot(), sample);
      state, cnt0, cnt1 := r.next.state, r.next.cnt0, r.next.cnt1;
      toggle := r.toggle;
      newState := state;
    }
  }

  /** A press edge of `button`: its bit toggled and now reads low (the
      buttons pull the pin to ground). */
  predicate PressEdge(toggle: bv8, state: bv8, button: bv8) {
    toggle & button != 0 && state & button == 0
  }

  /** What the TIMER0A handler does to the LED controller for one debounce
      result: a power press toggles the enable, then a change-profile press
      loads the next profile. */
  function ButtonEffect(s: LedState, toggle: bv8, state: bv8): (r: LedState)
    requires Inv(s)
    ensures Inv(r)
    // only a power press changes the enable, and it always flips it
    ensures r.enabled == (s.enabled != PressEdge(toggle, state, BUTTON_POWER))
    // release edges and untoggled bits leave the controller alone
    ensures !PressEdge(toggle, state, BUTTON_POWER) && !PressEdge(toggle, state, BUTTON_CHANGE_PROFILE) ==> r == s
    // the profile advances exactly when its button was pressed and the
    // controller is enabled after the power button was handled
    ensures r.profileIndex ==
      if PressEdge(toggle, state, BUTTON_CHANGE_PROFILE) && r.enabled
      then NextProfileIndex(s.profileIndex) else s.profileIndex
  {
    var s1 := if PressEdge(toggle, state, BUTTON_POWER) then ToggleState(s) else s;
    if PressEdge(toggle, state, BUTTON_CHANGE_PROFILE) then ProfileLoadNextState(s1) else s1
  }

  /** Both buttons pressed in the same poll while the lamp is on: the lamp
      turns off and the profile press is ignored. */
  lemma BothPressedWhileOn(s: LedState, toggle: bv8, state: bv8)
    requires Inv(s) && s.enabled
    requires PressEdge(toggle, state, BUTTON_POWER) && PressEdge(toggle, state, BUTTON_CHANGE_PROFILE)
    ensures ButtonEffect(s, toggle, state) == ToggleState(s)
  {
  }

  /** TIMER0A_Handler: poll the two button pins, debounce, and act on the
      press edges. `port` is the byte read from the GPIO port. */
  method Timer0AHandler(deb: Debouncer, led: LedController, port: bv8)
    requires led.Valid()
    modifies deb, led, led.channels
    ensures led.Valid()
    ensures var st := DebounceStep(old(deb.Snapshot()), port & (BUTTON_POWER | BUTTON_CHANGE_PROFILE));
      deb.Snapshot() == st.next &&
      led.State() == ButtonEffect(old(led.State()), st.toggle, st.next.state)
  {
    var sample := port & (BUTTON_POWER | BUTTON_CHANGE_PROFILE);
    var state, toggle := deb.Debounce(sample);
    ghost var s0 := led.State();
    if toggle & BUTTON_POWER != 0 {
      if state & BUTTON_POWER == 0 {
        led.SwEnableToggle();
      }
    }
    ghost var s1 := led.State();
    assert s1 == if PressEdge(toggle, state, BUTTON_POWER) then ToggleState(s0) else s0;
    if toggle & BUTTON_CHANGE_PROFILE != 0 {
      if state & BUTTON_CHANGE_PROFILE == 0 {
        led.ProfileLoadNext();
      }
    }
    assert led.State() == if PressEdge(toggle, state, BUTTON_CHANGE_PROFILE) then ProfileLoadNextState(s1) else s1;
  }
}
