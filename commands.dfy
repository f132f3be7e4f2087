/**
 * lib/commands.js: the exported command table. It has exactly two families,
 * ACCELEROMETER (one query per axis) and LED (per channel a HIGH and a LOW
 * string and a CUSTOM builder). `Command` has one constructor per entry and
 * `Render` gives the ASCII text of each; the table has no music, temperature
 * or luminosity entry, so neither has `Command`.
 */
module Commands {
  import opened Wrappers
  import opened NumberText
  import opened Helpers

  datatype Axis = X | Y | Z

  datatype Channel = Red | Green | Blue

  datatype Command =
    | Accelerometer(axis: Axis)
    | LedHigh(channel: Channel)
    | LedLow(channel: Channel)
    | LedCustom(channel: Channel, value: JsValue)

  /** The key of a channel in the LED table. */
  function ChannelName(c: Channel): string {
    match c
    case Red => "RED"
    case Green => "GREEN"
    case Blue => "BLUE"
  }

  /** `cmd.LED[key]`: the channel stored under `key`, if any. */
  function LedEntry(key: string): (r: Option<Channel>)
    ensures r.Some? ==> key == ChannelName(r.value)
  {
    if key == "RED" then Some(Red)
    else if key == "GREEN" then Some(Green)
    else if key == "BLUE" then Some(Blue)
    else None
  }

  lemma LedEntryOfName(c: Channel)
    ensures LedEntry(ChannelName(c)) == Some(c)
  {
  }

  /** The letter that names a channel on the wire. */
  function Letter(c: Channel): char {
    match c
    case Red => 'R'
    case Green => 'G'
    case Blue => 'B'
  }

  function ChannelOfLetter(ch: char): (r: Option<Channel>)
    ensures r.Some? ==> Letter(r.value) == ch
  {
    if ch == 'R' then Some(Red)
    else if ch == 'G' then Some(Green)
    else if ch == 'B' then Some(Blue)
    else None
  }

  /** The text every CUSTOM builder puts before the clamped value. */
  function Prefix(c: Channel): string {
    match c
    case Red => "#LR0"
    case Green => "#LG0"
    case Blue => "#LB0"
  }

  /** The ASCII text of a table entry. */
  function Render(cmd: Command): string {
    match cmd
    case Accelerometer(X) => "#AC0000"
    case Accelerometer(Y) => "#AC0001"
    case Accelerometer(Z) => "#AC0002"
    case LedHigh(Red) => "#LR0255"
    case LedHigh(Green) => "#LG0255"
    case LedHigh(Blue) => "#LB0255"
    case LedLow(Red) => "#LR0000"
    case LedLow(Green) => "#LG0000"
    case LedLow(Blue) => "#LB0000"
    case LedCustom(c, v) => Prefix(c) + CheckValue(v).text
  }

  /** The LED channel a command line addresses: `#L` followed by R, G or B. */
  function ChannelOf(line: string): Option<Channel> {
    if |line| >= 3 && line[0] == '#' && line[1] == 'L' then ChannelOfLetter(line[2]) else None
  }

  /** Every LED command, fixed or built, names its own channel; no accelerometer command names one. */
  lemma ChannelOfRender(cmd: Command)
    ensures ChannelOf(Render(cmd)) == if cmd.Accelerometer? then None else Some(cmd.channel)
  {
    if cmd.LedCustom? {
      var s := Render(cmd);
      assert s[..4] == Prefix(cmd.channel);
    }
  }

  /** Two channels never share a command, whatever the intensity. */
  lemma ChannelsNeverShare(a: Command, b: Command)
    requires !a.Accelerometer? && !b.Accelerometer?
    requires a.channel != b.channel
    ensures Render(a) != Render(b)
  {
    ChannelOfRender(a);
    ChannelOfRender(b);
  }

  /** The nine fixed strings of the table are pairwise distinct. */
  lemma FixedCommandsDistinct(a: Command, b: Command)
    requires !a.LedCustom? && !b.LedCustom?
    requires a != b
    ensures Render(a) != Render(b)
  {
  }

  /** HIGH is what the builder produces for 255. */
  lemma HighIsCustomMax(c: Channel)
    ensures Render(LedHigh(c)) == Render(LedCustom(c, IntValue(255)))
  {
    BoundTexts();
  }

  /** Non-numeric or too large intensities saturate to the channel's HIGH string. */
  lemma CustomSaturates(c: Channel, v: JsValue)
    requires v.number.None? || v.number.value > 255.0
    ensures Render(LedCustom(c, v)) == Render(LedHigh(c))
  {
    BoundTexts();
  }

  /** Negative intensities give `#Lx00`, which is not the channel's LOW string. */
  lemma CustomBelowZero(c: Channel, v: JsValue)
    requires v.number.Some? && v.number.value < 0.0
    ensures Render(LedCustom(c, v)) == Prefix(c) + "0"
    ensures Render(LedCustom(c, v)) != Render(LedLow(c))
  {
    BoundTexts();
  }

  /** In range, the caller's own text follows the prefix unchanged. */
  lemma CustomInRange(c: Channel, v: JsValue)
    requires v.number.Some? && 0.0 <= v.number.value <= 255.0
    ensures Render(LedCustom(c, v)) == Prefix(c) + v.text
  {
  }

  /**
   * For an integer intensity in range the builder writes its plain decimal
   * digits: the command has the seven characters of HIGH and LOW only from 100 up.
   */
  lemma CustomUnpadded(c: Channel, n: int)
    requires 0 <= n <= 255
    ensures Render(LedCustom(c, IntValue(n))) == Prefix(c) + Digits(n)
    ensures |Render(LedCustom(c, IntValue(n)))| == 7 <==> n >= 100
  {
    DigitsLength(n);
  }
}
