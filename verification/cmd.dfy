// The serial command layer of the lamp (cmd.c): the sentinel-terminated
// command table, its lookup in cmd_exectute, the LED-name table used by the
// `setb` command, and what each command handler does to the LED
// controller.
//
// The handlers read their arguments from the serial console. Those reads
// are parameters here: `CmdInput` holds the line typed as the LED name and
// the number that atoi/strtol made of the line typed as the value.

module Cmd {
  import opened CommonAux
  import opened Led

  /** The functions cmdList points to; `NoHandler` is the sentinel's null. */
  datatype Handler =
    | Ver | SetBrightness | LedOff | LedOn | LoadProfile
    | SetFadeTimeInterval | SetLuxSensitivity | LuxRead | LedUpdateHw | Help
    | NoHandler

  /** A cmdList entry without its help text. */
  datatype CmdEntry = CmdEntry(name: string, execute: Handler)

  /** The commands before the blank terminator. */
  const NUM_COMMANDS: nat := 10

  const CMD_LIST: seq<CmdEntry> := [
    CmdEntry("ver", Ver),
    CmdEntry("setb", SetBrightness),
    CmdEntry("ledoff", LedOff),
    CmdEntry("ledon", LedOn),
    CmdEntry("profile", LoadProfile),
    CmdEntry("fadetimeint", SetFadeTimeInterval),
    CmdEntry("sens", SetLuxSensitivity),
    CmdEntry("lux", LuxRead),
    CmdEntry("uphw", LedUpdateHw),
    CmdEntry("help", Help),
    CmdEntry("", NoHandler)
  ]

  /** `cmd` names one of the commands before the terminator. */
  predicate IsCommand(cmd: string) {
    exists i :: 0 <= i < NUM_COMMANDS && CMD_LIST[i].name == cmd
  }

  /** The index of the first entry from `i` on whose name is `cmd`, or
      NUM_COMMANDS (the terminator) when there is none. */
  function CommandIndexFrom(cmd: string, i: nat): (r: nat)
    requires i <= NUM_COMMANDS
    ensures i <= r <= NUM_COMMANDS
    ensures r < NUM_COMMANDS ==> CMD_LIST[r].name == cmd
    ensures forall j :: i <= j < r ==> CMD_LIST[j].name != cmd
    ensures r == NUM_COMMANDS <==> forall j :: i <= j < NUM_COMMANDS ==> CMD_LIST[j].name != cmd
    decreases NUM_COMMANDS - i
  {
    if i == NUM_COMMANDS then i
    else if CMD_LIST[i].name == cmd then i
    else CommandIndexFrom(cmd, i + 1)
  }

  /** The entry cmd_exectute runs for `cmd`, or the terminator. */
  function CommandIndex(cmd: string): (r: nat)
    ensures r <= NUM_COMMANDS
    ensures r < NUM_COMMANDS <==> IsCommand(cmd)
    ensures r < NUM_COMMANDS ==> CMD_LIST[r].name == cmd
  {
    CommandIndexFrom(cmd, 0)
  }

  /** The table's names are pairwise distinct, so each command has exactly
      one entry and the first match is the only one. */
  lemma CommandNamesDistinct()
    ensures forall i, j :: 0 <= i < j < |CMD_LIST| ==> CMD_LIST[i].name != CMD_LIST[j].name
  {
    forall i, j | 0 <= i < j < |CMD_LIST|
      ensures CMD_LIST[i].name != CMD_LIST[j].name
    {
      var a, b := CMD_LIST[i].name, CMD_LIST[j].name;
      assert |a| != |b| || a[0] != b[0] || a[|a| - 1] != b[|b| - 1];
    }
  }

  /** Looking up any entry's own name finds that entry. */
  lemma CommandIndexOfName(i: nat)
    requires i < NUM_COMMANDS
    ensures CommandIndex(CMD_LIST[i].name) == i
  {
    CommandNamesDistinct();
  }

  /** The empty line is never a command: the scan stops at the blank
      terminator before it could match. */
  lemma EmptyCommandRejected()
    ensures !IsCommand("") && CommandIndex("") == NUM_COMMANDS
  {
    forall j | 0 <= j < NUM_COMMANDS
      ensures CMD_LIST[j].name != ""
    {
      assert |CMD_LIST[j].name| > 0;
    }
  }

  // ---------------------------------------------------------------------
  // The LED-name table of cmd_set_brightness
  // ---------------------------------------------------------------------

  /** A ledList entry: a one-letter name and a channel index. */
  datatype LedTypeName = LedTypeName(name: string, ledType: nat)

  const LED_TYPE_NAMES: seq<LedTypeName> :=
    [LedTypeName("g", GREEN), LedTypeName("b", BLUE), LedTypeName("r", RED)]

  /** The type of the first entry of `table` named `name`. */
  function FindLed(table: seq<LedTypeName>, name: string): (r: Option<nat>)
    ensures r.Some? <==> exists i :: 0 <= i < |table| && table[i].name == name
    ensures r.Some? ==> exists i :: 0 <= i < |table| && table[i].name == name && table[i].ledType == r.value
    decreases |table|
  {
    if |table| == 0 then None
    else if table[0].name == name then Some(table[0].ledType)
    else
      var r := FindLed(table[1..], name);
      assert forall i :: 1 <= i < |table| ==> table[i] == table[1..][i - 1];
      r
  }

  /** The channel `setb` addresses for the typed LED name, if any. */
  function LedTypeOf(name: string): (r: Option<nat>)
    ensures r.Some? ==> r.value < NUM_LEDS
  {
    FindLed(LED_TYPE_NAMES, name)
  }

  /** The three names are those of the LED controller's own table: each
      names the channel that led.c lists under the same letter, and no
      other string names a channel. */
  lemma LedTypeNamesAgree(name: string)
    ensures LedTypeOf(name).Some? <==> name == "r" || name == "g" || name == "b"
    ensures LedTypeOf(name).Some? ==> LED_LIST[LedTypeOf(name).value].name == name
  {
    var r := LedTypeOf(name);
    if r.Some? {
      var i :| 0 <= i < 3 && LED_TYPE_NAMES[i].name == name && LED_TYPE_NAMES[i].ledType == r.value;
      assert i == 0 || i == 1 || i == 2;
    } else {
      assert forall i :: 0 <= i < 3 ==> LED_TYPE_NAMES[i].name != name;
      assert LED_TYPE_NAMES[0].name == "g" && LED_TYPE_NAMES[1].name == "b" && LED_TYPE_NAMES[2].name == "r";
    }
  }

  /** cmd_set_brightness's search: every entry is compared (a later match
      would overwrite an earlier one) and a flag records whether any
      matched. */
  method LedTypeLookup(name: string) returns (found: bool, ledType: nat)
    ensures found <==> LedTypeOf(name).Some?
    ensures found ==> ledType == LedTypeOf(name).value
  {
    found := false;
    ledType := 0;
    for i := 0 to |LED_TYPE_NAMES|
      invariant found <==> exists j :: 0 <= j < i && LED_TYPE_NAMES[j].name == name
      invariant found ==> exists j :: 0 <= j < i && LED_TYPE_NAMES[j].name == name && LED_TYPE_NAMES[j].ledType == ledType
    {
      if LED_TYPE_NAMES[i].name == name {
        found := true;
        ledType := LED_TYPE_NAMES[i].ledType;
      }
    }
    if found {
      var r := LedTypeOf(name);
      var j :| 0 <= j < 3 && LED_TYPE_NAMES[j].name == name && LED_TYPE_NAMES[j].ledType == ledType;
      var k :| 0 <= k < 3 && LED_TYPE_NAMES[k].name == name && LED_TYPE_NAMES[k].ledType == r.value;
      assert j == k by {
        assert forall a, b :: 0 <= a < b < 3 ==> LED_TYPE_NAMES[a].name != LED_TYPE_NAMES[b].name;
      }
    }
  }

  // ---------------------------------------------------------------------
  // The handlers
  // ---------------------------------------------------------------------

  /** What the handlers read from the console: the LED name line and the
      number atoi/strtol parsed from the value line. */
  datatype CmdInput = CmdInput(ledName: string, number: int)

  /** The effect of one handler on the LED controller. Each handler stores
      the parsed number into a fixed-width C variable first, so it is
      reduced to 8 bits (brightness, profile index) or 32 bits (fade
      interval, sensitivity). `ver`, `help` and `lux` only write to the
      console. */
  function HandlerEffect(h: Handler, s: LedState, input: CmdInput): (r: LedState)
    requires Inv(s)
    ensures Inv(r)
    // only ledon and ledoff touch the enable, and they set it
    ensures h == LedOn ==> r.enabled
    ensures h == LedOff ==> !r.enabled
    ensures h != LedOn && h != LedOff ==> r.enabled == s.enabled
    // an unknown LED name returns before anything changes
    ensures h == SetBrightness && LedTypeOf(input.ledName).None? ==> r == s
    // only profile loading moves the profile index
    ensures h != LoadProfile ==> r.profileIndex == s.profileIndex
    // the console-only commands change nothing
    ensures h in {Ver, Help, LuxRead, NoHandler} ==> r == s
  {
    match h
    case SetBrightness =>
      (match LedTypeOf(input.ledName)
       case None => s
       case Some(i) => HwStartState(SwBrightnessSetState(s, i, Wrap8(input.number))))
    case LedOff => EnableSetState(s, false)
    case LedOn => EnableSetState(s, true)
    case LoadProfile => ProfileLoadState(s, Wrap8(input.number))
    case SetFadeTimeInterval => TimeIntervalSetState(s, Wrap32(input.number))
    case SetLuxSensitivity => HwStartState(SensitivitySetState(s, Wrap32(input.number)))
    case LedUpdateHw => HwStartState(s)
    case _ => s
  }

  /** `setb` changes the desired brightness of exactly the named channel,
      to the value reduced to 8 bits, and starts the fade. */
  lemma SetBrightnessEffect(s: LedState, input: CmdInput)
    requires Inv(s) && LedTypeOf(input.ledName).Some?
    ensures var i := LedTypeOf(input.ledName).value;
      var r := HandlerEffect(SetBrightness, s, input);
      r.stepping && r.channels[i].desired == input.number % 256 &&
      r.channels[i].current == s.channels[i].current &&
      forall j :: 0 <= j < NUM_LEDS && j != i ==> r.channels[j] == s.channels[j]
  {
  }

  /** `profile` reduces the typed index to 8 bits before the range check:
      259 is ignored, but 257 loads profile 1. */
  lemma ProfileIndexTruncated(s: LedState)
    requires Inv(s) && s.enabled
    ensures HandlerEffect(LoadProfile, s, CmdInput("", 259)) == s
    ensures HandlerEffect(LoadProfile, s, CmdInput("", 257)).profileIndex == 1
  {
    assert Wrap8(259) == 3 && Wrap8(257) == 1;
  }

  /** `profile` with an index that is 3 or more after truncation is
      ignored; a smaller one is loaded while the lamp is on. */
  lemma LoadProfileRange(s: LedState, input: CmdInput)
    requires Inv(s)
    ensures input.number % 256 >= NUM_PROFILES ==> HandlerEffect(LoadProfile, s, input) == s
    ensures input.number % 256 < NUM_PROFILES && s.enabled ==>
      HandlerEffect(LoadProfile, s, input).profileIndex == input.number % 256
  {
  }

  /** `ledoff` followed by `ledon` gives every channel its desired
      brightness back. */
  lemma OffOnRestores(s: LedState, a: CmdInput, b: CmdInput)
    requires Inv(s) && s.enabled
    ensures var r := HandlerEffect(LedOn, HandlerEffect(LedOff, s, a), b);
      r.enabled && |r.channels| == |s.channels| &&
      forall i :: 0 <= i < NUM_LEDS ==> r.channels[i].desired == s.channels[i].desired
  {
    EnableRoundTrip(s);
  }

  /** Runs one handler on the controller. */
  method RunHandler(led: LedController, h: Handler, input: CmdInput)
    requires led.Valid()
    modifies led, led.channels
    ensures led.Valid() && led.State() == HandlerEffect(h, old(led.State()), input)
  {
    match h {
      case SetBrightness =>
        var found, ledType := LedTypeLookup(input.ledName);
        if !found {
          return;
        }
        led.SwBrightnessSet(ledType, Wrap8(input.number));
        led.UpdateHwStart();
      case LedOff =>
        led.SwEnableSet(false);
      case LedOn =>
        led.SwEnableSet(true);
      case LoadProfile =>
        led.ProfileLoad(Wrap8(input.number));
      case SetFadeTimeInterval =>
        led.TimeIntervalSet(Wrap32(input.number));
      case SetLuxSensitivity =>
        led.LuxSensitivitySet(Wrap32(input.number));
        led.UpdateHwStart();
      case LedUpdateHw =>
        led.UpdateHwStart();
      case _ =>
    }
  }

  /** cmd_exectute: scan the table up to the blank terminator and run the
      handler of the entry whose name is `cmd`. */
  method Execute(led: LedController, cmd: string, input: CmdInput) returns (ok: bool)
    requires led.Valid()
    modifies led, led.channels
    ensures led.Valid()
    ensures ok <==> IsCommand(cmd)
    ensures ok ==> led.State() == HandlerEffect(CMD_LIST[CommandIndex(cmd)].execute, old(led.State()), input)
    ensures !ok ==> led.State() == old(led.State())
  {
    var i := 0;
    var current := CMD_LIST[i];
    while current.name != ""
      invariant 0 <= i <= NUM_COMMANDS && current == CMD_LIST[i]
      invariant forall j :: 0 <= j < i ==> CMD_LIST[j].name != cmd
      decreases NUM_COMMANDS - i
    {
      if cmd == current.name {
        RunHandler(led, current.execute, input);
        return true;
      }
      i := i + 1;
      current := CMD_LIST[i];
    }
    return false;
  }
}
