/**
 * lib/bluetooth.js: the earlier `Wearable` controller, for kits named "wearable".
 *
 * It differs from lib/wearable.js in its default name and discovery pattern, in
 * `findWearable` (which does not disconnect first), in `connect` (which looks the
 * serial channel up instead of using channel 1) and in `playMusic` (which
 * upper-cases its argument). State and transport are recorded as there.
 */
module Bluetooth {
  import opened Wrappers
  import opened NumberText
  import opened Helpers
  import opened Commands
  import opened Controller

  const DefaultName := "wearable"

  /** The source of the discovery regex `/wearable/i`. */
  const DiscoveryPattern := "wearable"

  /** Discovery keeps a device exactly when its name contains "wearable" in any case. */
  predicate Discoverable(name: string) {
    RegexTest(DiscoveryPattern, name)
  }

  /** The message emitted when no serial channel is found for `deviceName`. */
  function ChannelError(deviceName: string): string {
    "Could not find channel of \"" + deviceName + "\""
  }

  /**
   * The transport requests of `connect`, given the answer of the channel lookup:
   * for the first device named exactly `name`, look its channel up and, when one
   * is found, open it.
   */
  function ConnectCalls(devices: seq<Device>, name: string, channel: Option<int>): seq<Call> {
    match FindByName(devices, name)
    case None => []
    case Some(i) =>
      [FindChannel(devices[i].address)] + if channel.Some? then [Open(devices[i].address, channel.value)] else []
  }

  /** The events of `connect`: the channel error, or the outcome of the connection request. */
  function ConnectEvents(devices: seq<Device>, name: string, channel: Option<int>, outcome: Outcome): seq<Event> {
    match FindByName(devices, name)
    case None => []
    case Some(i) => if channel.None? then [Error(ChannelError(devices[i].name))] else [OutcomeEvent(outcome)]
  }

  /** Without a device named exactly `name`, `connect` makes no transport request and emits nothing. */
  lemma ConnectNeedsExactName(devices: seq<Device>, name: string, channel: Option<int>, outcome: Outcome)
    ensures ConnectCalls(devices, name, channel) == [] <==> forall d :: d in devices ==> d.name != name
    ensures ConnectEvents(devices, name, channel, outcome) == [] <==> ConnectCalls(devices, name, channel) == []
  {
    var r := FindByName(devices, name);
    if r.None? {
      forall d | d in devices
        ensures d.name != name
      {
        var j :| 0 <= j < |devices| && devices[j] == d;
      }
    }
  }

  /**
   * A failed channel lookup opens nothing and emits exactly one error naming the
   * device, whose name is the configured one.
   */
  lemma ChannelLookupFailure(devices: seq<Device>, name: string, outcome: Outcome)
    requires exists d :: d in devices && d.name == name
    ensures |ConnectCalls(devices, name, None)| == 1 && ConnectCalls(devices, name, None)[0].FindChannel?
    ensures ConnectEvents(devices, name, None, outcome) == [Error("Could not find channel of \"" + name + "\"")]
  {
    ConnectNeedsExactName(devices, name, None, outcome);
  }

  /** A found channel is the one opened, on the address that was looked up. */
  lemma ChannelLookupSuccess(devices: seq<Device>, name: string, channel: int, outcome: Outcome)
    requires exists d :: d in devices && d.name == name
    ensures var calls := ConnectCalls(devices, name, Some(channel));
      |calls| == 2 && calls[0].FindChannel? && calls[1] == Open(calls[0].address, channel)
    ensures ConnectEvents(devices, name, Some(channel), outcome) == [OutcomeEvent(outcome)]
  {
    ConnectNeedsExactName(devices, name, Some(channel), outcome);
  }

  /**
   * `playMusic`'s choice: the upper-cased argument if it is a track name, otherwise
   * MARIO. `None` is the TypeError thrown when there is no string to upper-case.
   */
  function SelectTrack(music: Option<string>): Option<Track> {
    match music
    case Some(m) => Some(TrackEntry(ToUpper(m)).GetOr(Mario))
    case None => None
  }

  /** Any spelling of "christmas" selects CHRISTMAS, every other string MARIO; no argument throws. */
  lemma SelectTrackIgnoresCase(s: string)
    ensures SelectTrack(Some(s)) == Some(Christmas) <==> ToUpper(s) == "CHRISTMAS"
    ensures SelectTrack(Some(s)) != Some(Christmas) ==> SelectTrack(Some(s)) == Some(Mario)
    ensures SelectTrack(None) == None
  {
  }

  class Wearable {
    var name: string
    var devices: seq<Device>
    var transport: seq<Call>
    var events: seq<Event>

    /**
     * Every stored device passed the discovery filter, and every connection the
     * controller opened went to a stored device carrying the configured name.
     */
    ghost predicate Valid()
      reads this
    {
      && (forall d :: d in devices ==> Discoverable(d.name))
      && (forall c :: c in transport && c.Open? ==> Device(c.address, name) in devices)
    }

    /** `new Wearable(config)`: the name is `config.name` when given, else "wearable"; no device yet. */
    constructor (configName: Option<string>)
      ensures Valid()
      ensures name == configName.GetOr(DefaultName)
      ensures devices == [] && transport == [] && events == []
    {
      name := configName.GetOr(DefaultName);
      devices := [];
      transport := [];
      events := [];
    }

    /** `findWearable`: start discovery. */
    method FindWearable()
      requires Valid()
      modifies this
      ensures Valid()
      ensures name == old(name) && devices == old(devices) && events == old(events)
      ensures transport == old(transport) + [Inquire]
    {
      transport := transport + [Inquire];
    }

    /**
     * The `found` handler: keep a device whose name matches the pattern, then try
     * to connect, with the channel lookup's and the connection's answers given.
     */
    method OnFound(address: string, deviceName: string, channel: Option<int>, outcome: Outcome)
      requires Valid()
      modifies this
      ensures Valid()
      ensures name == old(name)
      ensures Discoverable(deviceName) ==>
        && devices == old(devices) + [Device(address, deviceName)]
        && transport == old(transport) + ConnectCalls(devices, name, channel)
        && events == old(events) + ConnectEvents(devices, name, channel, outcome)
      ensures !Discoverable(deviceName) ==>
        devices == old(devices) && transport == old(transport) && events == old(events)
    {
      if Discoverable(deviceName) {
        devices := devices + [Device(address, deviceName)];
        Connect(channel, outcome);
      }
    }

    /** The `finished` handler. */
    method OnFinished()
      requires Valid()
      modifies this
      ensures Valid()
      ensures name == old(name) && devices == old(devices) && transport == old(transport)
      ensures events == old(events) + [FinishedEvent(devices, name)]
      ensures events == old(events) + [Found]
    {
      events := events + [FinishedEvent(devices, name)];
    }

    /** The `close` handler disconnects. */
    method OnClose()
      requires Valid()
      modifies this
      ensures Valid()
      ensures name == old(name) && devices == old(devices)
      ensures events == old(events) + [Disconnected]
      ensures transport == old(transport) + [Close]
    {
      Disconnect();
    }

    /** The `data` handler, with the bytes already decoded. */
    method OnData(text: string)
      requires Valid()
      modifies this
      ensures Valid()
      ensures name == old(name) && devices == old(devices) && transport == old(transport)
      ensures events == old(events) + [Data(text)]
    {
      events := events + [Data(text)];
    }

    /** The `failure` handler forwards the transport's error. */
    method OnFailure(error: string)
      requires Valid()
      modifies this
      ensures Valid()
      ensures name == old(name) && devices == old(devices) && transport == old(transport)
      ensures events == old(events) + [Error(error)]
    {
      events := events + [Error(error)];
    }

    /** `connect`, with the channel lookup's answer (`None`: not found) and the connection's answer. */
    method Connect(channel: Option<int>, outcome: Outcome)
      requires Valid()
      modifies this
      ensures Valid()
      ensures name == old(name) && devices == old(devices)
      ensures transport == old(transport) + ConnectCalls(devices, name, channel)
      ensures events == old(events) + ConnectEvents(devices, name, channel, outcome)
    {
      var found := FindByName(devices, name);
      if found.Some? {
        var device := devices[found.value];
        transport := transport + [FindChannel(device.address)];
        if channel.None? {
          events := events + [Error(ChannelError(device.name))];
        } else {
          transport := transport + [Open(device.address, channel.value)];
          events := events + [OutcomeEvent(outcome)];
        }
      }
    }

    /** `disconnect`: emit `disconnected` and close the transport, whatever the state. */
    method Disconnect()
      requires Valid()
      modifies this
      ensures Valid()
      ensures name == old(name) && devices == old(devices)
      ensures events == old(events) + [Disconnected]
      ensures transport == old(transport) + [Close]
    {
      events := events + [Disconnected];
      transport := transport + [Close];
    }

    /** `sendCommand`: one write of the command and a newline. */
    method SendCommand(command: string)
      requires Valid()
      modifies this
      ensures Valid()
      ensures name == old(name) && devices == old(devices) && events == old(events)
      ensures transport == old(transport) + [Write(Frame(command))]
    {
      transport := transport + [Write(Frame(command))];
    }

    /** The callback of a write: an error is forwarded, success is silent. */
    method OnWriteDone(error: Option<string>)
      requires Valid()
      modifies this
      ensures Valid()
      ensures name == old(name) && devices == old(devices) && transport == old(transport)
      ensures events == old(events) + (if error.Some? then [Error(error.value)] else [])
    {
      if error.Some? {
        events := events + [Error(error.value)];
      }
    }

    /** `ledOFF`: LOW to red, green and blue, in that order; afterwards no channel is lit. */
    method LedOff()
      requires Valid()
      modifies this
      ensures Valid()
      ensures name == old(name) && devices == old(devices) && events == old(events)
      ensures transport == old(transport) + OffWrites()
      ensures LedsAfter(transport) == Dark
    {
      SendCommand(Render(LedLow(Red)));
      SendCommand(Render(LedLow(Green)));
      SendCommand(Render(LedLow(Blue)));
      LedOffDarkensAll(old(transport));
    }

    /** `ledON(color, value)`: all channels off, then the chosen command; only the chosen channel can be lit. */
    method LedOn(color: Option<string>, value: JsValue)
      requires Valid()
      modifies this
      ensures Valid()
      ensures name == old(name) && devices == old(devices) && events == old(events)
      ensures transport == old(transport) + OnWrites(color, value)
      ensures LedsAfter(transport) == Dark.Set(SelectChannel(color), Render(OnCommand(color, value)))
    {
      var command := OnCommand(color, value);
      LedOff();
      SendCommand(Render(command));
      LedOnLightsOnlyChosen(old(transport), color, value);
    }
  }

  /** A configured name the discovery pattern rejects can never be connected to. */
  lemma UndiscoverableNameNeverConnects(w: Wearable)
    requires w.Valid() && !Discoverable(w.name)
    ensures forall c :: c in w.transport ==> !c.Open?
  {
  }
}
