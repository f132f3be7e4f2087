/**
 * What lib/wearable.js and lib/bluetooth.js share word for word: the records a
 * controller keeps (discovered devices, emitted events, calls on the serial
 * transport), the string built-ins they lean on (`toUpperCase`, a
 * case-insensitive regex test, `_.find` by name), the colour and intensity
 * choice of `ledON`, the three writes of `ledOFF`, and the `finished` handler.
 *
 * The serial transport is not modelled; what the controller asks of it is
 * recorded as a log of `Call`s, and `LedsAfter` reads that log back as the
 * last command each LED channel received.
 */
module Controller {
  import opened Wrappers
  import opened NumberText
  import opened Helpers
  import opened Commands

  /** A device reported by discovery: `{address, name}`. */
  datatype Device = Device(address: string, name: string)

  /** The events a controller emits. */
  datatype Event = Connected | Disconnected | Found | Error(message: string) | Data(text: string)

  /** The requests a controller makes of the serial transport. */
  datatype Call =
    | Inquire
    | FindChannel(address: string)
    | Open(address: string, channel: int)
    | Close
    | Write(bytes: string)

  /** What the transport answers to a connection request. */
  datatype Outcome = Succeeded | Failed(error: string)

  datatype Track = Christmas | Mario

  // ---------------------------------------------------------------------------
  // Framing of commands on the wire

  /** `sendCommand` terminates every command with a newline. */
  function Frame(command: string): string {
    command + "\n"
  }

  function Unframe(line: string): string {
    if |line| > 0 && line[|line| - 1] == '\n' then line[..|line| - 1] else line
  }

  lemma UnframeFrame(command: string)
    ensures Unframe(Frame(command)) == command
  {
    assert Frame(command)[..|command|] == command;
  }

  // ---------------------------------------------------------------------------
  // Case folding and the case-insensitive regex test

  /** `toUpperCase` on one character, for the ASCII letters the model compares against. */
  function UpperChar(c: char): char {
    if 'a' <= c <= 'z' then (c as int - 32) as char else c
  }

  function ToUpper(s: string): (r: string)
    ensures |r| == |s|
    ensures forall i :: 0 <= i < |s| ==> r[i] == UpperChar(s[i])
  {
    if s == [] then [] else [UpperChar(s[0])] + ToUpper(s[1..])
  }

  lemma ToUpperIdempotent(s: string)
    ensures ToUpper(ToUpper(s)) == ToUpper(s)
  {
  }

  predicate EqualsIgnoringCase(a: string, b: string) {
    ToUpper(a) == ToUpper(b)
  }

  /** `pattern` occurs in `s` at position `i`, ignoring case. */
  ghost predicate MatchesAt(pattern: string, s: string, i: int) {
    0 <= i && i + |pattern| <= |s| && EqualsIgnoringCase(s[i..i + |pattern|], pattern)
  }

  /** `/pattern/i.test(s)` for a pattern of ASCII letters and digits. */
  function RegexTest(pattern: string, s: string): bool
    decreases |s|
  {
    if |s| < |pattern| then false
    else EqualsIgnoringCase(s[..|pattern|], pattern) || RegexTest(pattern, s[1..])
  }

  /** The regex test succeeds exactly when the pattern occurs somewhere in `s`, ignoring case. */
  lemma {:induction false} RegexTestCorrect(pattern: string, s: string)
    ensures RegexTest(pattern, s) <==> exists i :: MatchesAt(pattern, s, i)
    decreases |s|
  {
    if |s| < |pattern| {
    } else if EqualsIgnoringCase(s[..|pattern|], pattern) {
      assert MatchesAt(pattern, s, 0);
    } else {
      RegexTestCorrect(pattern, s[1..]);
      if RegexTest(pattern, s[1..]) {
        var i :| MatchesAt(pattern, s[1..], i);
        assert s[1..][i..i + |pattern|] == s[i + 1..i + 1 + |pattern|];
        assert MatchesAt(pattern, s, i + 1);
      } else {
        forall i | 0 <= i && i + |pattern| <= |s|
          ensures !MatchesAt(pattern, s, i)
        {
          if i == 0 {
            assert s[0..|pattern|] == s[..|pattern|];
          } else {
            assert s[1..][i - 1..i - 1 + |pattern|] == s[i..i + |pattern|];
            assert !MatchesAt(pattern, s[1..], i - 1);
          }
        }
      }
    }
  }

  // ---------------------------------------------------------------------------
  // Looking a device up by name

  /** `_.find(devices, item => item.name === name)`, as the position of the device found. */
  function FindByName(devices: seq<Device>, name: string): (r: Option<nat>)
    ensures r.Some? ==> r.value < |devices| && devices[r.value].name == name
    ensures r.Some? ==> forall j :: 0 <= j < r.value ==> devices[j].name != name
    ensures r.None? ==> forall j :: 0 <= j < |devices| ==> devices[j].name != name
  {
    if devices == [] then None
    else if devices[0].name == name then Some(0)
    else match FindByName(devices[1..], name)
      case None => None
      case Some(i) => Some(i + 1)
  }

  /** A device appended later never displaces an earlier one of the same name. */
  lemma FindByNameAppend(devices: seq<Device>, d: Device, name: string)
    ensures FindByName(devices + [d], name) ==
      if FindByName(devices, name).Some? then FindByName(devices, name)
      else if d.name == name then Some(|devices|)
      else None
  {
    var r, r' := FindByName(devices, name), FindByName(devices + [d], name);
    if r.Some? {
      assert (devices + [d])[r.value] == devices[r.value];
    } else {
      forall j | 0 <= j < |devices|
        ensures (devices + [d])[j].name != name
      {
        assert (devices + [d])[j] == devices[j];
      }
      assert (devices + [d])[|devices|] == d;
    }
  }

  // ---------------------------------------------------------------------------
  // ledOFF and ledON

  /** The colour `ledON` lights: a truthy colour is upper-cased and looked up in the table, anything else is GREEN. */
  function SelectChannel(color: Option<string>): Channel {
    var rgb := if color.Some? && color.value != "" then ToUpper(color.value) else "GREEN";
    LedEntry(rgb).GetOr(Green)
  }

  /** A colour named in any mix of cases selects that channel; every other colour selects GREEN. */
  lemma SelectChannelNamed(s: string, c: Channel)
    ensures SelectChannel(Some(s)) == c <==>
      ToUpper(s) == ChannelName(c) || (c == Green && LedEntry(ToUpper(s)).None?)
    ensures SelectChannel(None) == Green
  {
    if s == "" {
      assert ToUpper(s) == "";
    }
  }

  /** Upper-casing the colour first changes nothing. */
  lemma SelectChannelCaseInsensitive(s: string)
    ensures SelectChannel(Some(s)) == SelectChannel(Some(ToUpper(s)))
  {
    ToUpperIdempotent(s);
  }

  /** The command `ledON(color, value)` sends last: HIGH for a falsy value, otherwise the channel's CUSTOM. */
  function OnCommand(color: Option<string>, value: JsValue): Command {
    var c := SelectChannel(color);
    if value.truthy then LedCustom(c, value) else LedHigh(c)
  }

  /** Without a truthy numeric intensity of at most 255, `ledON` lights its channel at full intensity. */
  lemma OnCommandFullIntensity(color: Option<string>, value: JsValue)
    requires !value.truthy || value.number.None? || value.number.value > 255.0
    ensures Render(OnCommand(color, value)) == Render(LedHigh(SelectChannel(color)))
  {
    if value.truthy {
      CustomSaturates(SelectChannel(color), value);
    }
  }

  function WriteOf(cmd: Command): Call {
    Write(Frame(Render(cmd)))
  }

  /** The transport requests of `ledOFF`: LOW for red, green and blue, in that order. */
  function OffWrites(): seq<Call> {
    [WriteOf(LedLow(Red)), WriteOf(LedLow(Green)), WriteOf(LedLow(Blue))]
  }

  /** On the wire, `ledOFF` writes exactly these bytes. */
  lemma OffWritesBytes()
    ensures OffWrites() == [Write("#LR0000\n"), Write("#LG0000\n"), Write("#LB0000\n")]
  {
    assert Frame("#LR0000") == "#LR0000\n";
    assert Frame("#LG0000") == "#LG0000\n";
    assert Frame("#LB0000") == "#LB0000\n";
  }

  /** The transport requests of `ledON`: those of `ledOFF`, then the chosen command. */
  function OnWrites(color: Option<string>, value: JsValue): seq<Call> {
    OffWrites() + [WriteOf(OnCommand(color, value))]
  }

  // ---------------------------------------------------------------------------
  // The LEDs as the write log leaves them

  /** For each channel, the last command written to it (None: never written). */
  datatype Leds = Leds(red: Option<string>, green: Option<string>, blue: Option<string>) {

    function Get(c: Channel): Option<string> {
      match c
      case Red => red
      case Green => green
      case Blue => blue
    }

    function Set(c: Channel, command: string): (l: Leds)
      ensures l.Get(c) == Some(command)
      ensures forall d :: d != c ==> l.Get(d) == Get(d)
    {
      match c
      case Red => this.(red := Some(command))
      case Green => this.(green := Some(command))
      case Blue => this.(blue := Some(command))
    }
  }

  const Unknown := Leds(None, None, None)

  const Dark := Leds(Some(Render(LedLow(Red))), Some(Render(LedLow(Green))), Some(Render(LedLow(Blue))))

  /** How one transport request changes what the LEDs were last told. */
  function Apply(leds: Leds, call: Call): Leds {
    if call.Write? then
      var command := Unframe(call.bytes);
      match ChannelOf(command)
      case Some(c) => leds.Set(c, command)
      case None => leds
    else leds
  }

  function LedsAfter(log: seq<Call>): Leds
    decreases |log|
  {
    if log == [] then Unknown else Apply(LedsAfter(log[..|log| - 1]), log[|log| - 1])
  }

  /** A channel is lit when the last command it received is not its LOW command. */
  predicate Lit(leds: Leds, c: Channel) {
    leds.Get(c).Some? && leds.Get(c).value != Render(LedLow(c))
  }

  lemma LedsAfterAppend(log: seq<Call>, call: Call)
    ensures LedsAfter(log + [call]) == Apply(LedsAfter(log), call)
  {
    assert (log + [call])[..|log|] == log;
  }

  /** Writing an LED command records it for its channel and for no other. */
  lemma LedsAfterLedWrite(log: seq<Call>, cmd: Command)
    requires !cmd.Accelerometer?
    ensures LedsAfter(log + [WriteOf(cmd)]) == LedsAfter(log).Set(cmd.channel, Render(cmd))
  {
    LedsAfterAppend(log, WriteOf(cmd));
    UnframeFrame(Render(cmd));
    ChannelOfRender(cmd);
  }

  /** After `ledOFF` every channel shows LOW, whatever was written before. */
  lemma LedOffDarkensAll(log: seq<Call>)
    ensures LedsAfter(log + OffWrites()) == Dark
    ensures forall c :: !Lit(LedsAfter(log + OffWrites()), c)
  {
    var l1, l2 := log + [OffWrites()[0]], log + OffWrites()[..2];
    assert l2 == l1 + [OffWrites()[1]];
    assert log + OffWrites() == l2 + [OffWrites()[2]];
    LedsAfterLedWrite(log, LedLow(Red));
    LedsAfterLedWrite(l1, LedLow(Green));
    LedsAfterLedWrite(l2, LedLow(Blue));
  }

  /** After `ledON` the chosen channel holds the chosen command and the other two show LOW: at most one colour is lit. */
  lemma LedOnLightsOnlyChosen(log: seq<Call>, color: Option<string>, value: JsValue)
    ensures LedsAfter(log + OnWrites(color, value)) == Dark.Set(SelectChannel(color), Render(OnCommand(color, value)))
    ensures forall c :: c != SelectChannel(color) ==> !Lit(LedsAfter(log + OnWrites(color, value)), c)
  {
    var off := log + OffWrites();
    assert log + OnWrites(color, value) == off + [WriteOf(OnCommand(color, value))];
    LedOffDarkensAll(log);
    LedsAfterLedWrite(off, OnCommand(color, value));
  }

  // ---------------------------------------------------------------------------
  // playMusic's track list

  function TrackName(t: Track): string {
    match t
    case Christmas => "CHRISTMAS"
    case Mario => "MARIO"
  }

  /** The track whose name is `key` in `['CHRISTMAS', 'MARIO']`, if any. */
  function TrackEntry(key: string): (r: Option<Track>)
    ensures r.Some? <==> key == "CHRISTMAS" || key == "MARIO"
    ensures r.Some? ==> TrackName(r.value) == key
  {
    if key == "CHRISTMAS" then Some(Christmas)
    else if key == "MARIO" then Some(Mario)
    else None
  }

  // ---------------------------------------------------------------------------
  // Handlers

  /** JavaScript truthiness of an array: every array, the empty one included, is truthy. */
  predicate ArrayIsTruthy(devices: seq<Device>) {
    true
  }

  /** The event the `finished` handler emits; its error branch tests the array, not its length. */
  function FinishedEvent(devices: seq<Device>, name: string): Event {
    if ArrayIsTruthy(devices) then Found else Error("Could not find the device \"" + name + "\"")
  }

  /** `found` is emitted even when nothing was discovered: the not-found error never is. */
  lemma FinishedAlwaysFound(devices: seq<Device>, name: string)
    ensures FinishedEvent(devices, name) == Found
  {
  }

  /** The event a connection callback emits. */
  function OutcomeEvent(outcome: Outcome): Event {
    match outcome
    case Succeeded => Connected
    case Failed(e) => Error(e)
  }
}
