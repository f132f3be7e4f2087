/**
 * lib/wearable.js: the `Wearable` controller of the "wV3" kit.
 *
 * The controller keeps its configured name and the devices discovery reported.
 * Everything it asks of the serial transport is appended to `transport`, and
 * everything it emits is appended to `events`. Transport callbacks become either
 * parameters (the outcome of a connection request) or handler methods (the
 * discovery and write callbacks), in the order the transport would call them.
 */
module Wearable {
  import opened Wrappers
  import opened NumberText
  import opened Helpers
  import opened Commands
  import opened Controller

  const DefaultName := "wV3"

  /** The source of the discovery regex `/wV3/i`. */
  const DiscoveryPattern := "wV3"

  /** The serial channel `connect` opens: fixed, never looked up. */
  const FixedChannel := 1

  /** Discovery keeps a device exactly when its name contains "wv3" in any case. */
  predicate Discoverable(name: string) {
    RegexTest(DiscoveryPattern, name)
  }

  /** The transport request of `connect`: channel 1 of the first device named exactly `name`, or none. */
  function ConnectCalls(devices: seq<Device>, name: string): seq<Call> {
    match FindByName(devices, name)
    case None => []
    case Some(i) => [Open(devices[i].address, FixedChannel)]
  }

  /** The event the connection callback of `connect` emits, if a request was made. */
  function ConnectEvents(devices: seq<Device>, name: string, outcome: Outcome): seq<Event> {
    if FindByName(devices, name).Some? then [OutcomeEvent(outcome)] else []
  }

  /**
   * `connect` asks the transport for something exactly when a device carries the
   * configured name verbatim; then it opens channel 1 of the first such device and
   * reports the outcome once. Otherwise it makes no request and emits nothing.
   */
  lemma ConnectNeedsExactName(devices: seq<Device>, name: string, outcome: Outcome)
    ensures ConnectCalls(devices, name) == [] <==> forall d :: d in devices ==> d.name != name
    ensures ConnectEvents(devices, name, outcome) == [] <==> ConnectCalls(devices, name) == []
    ensures ConnectCalls(devices, name) != [] ==>
      exists i :: 0 <= i < |devices| && devices[i].name == name &&
        (forall j :: 0 <= j < i ==> devices[j].name != name) &&
        ConnectCalls(devices, name) == [Open(devices[i].address, 1)] &&
        ConnectEvents(devices, name, outcome) == [OutcomeEvent(outcome)]
  {
    var r := FindByName(devices, name);
    if r.None? {
      forall d | d in devices
        ensures d.name != name
      {
        var j :| 0 <= j < |devices| && devices[j] == d;
      }
    }
  }

  /** `playMusic`'s choice: the argument if it is exactly a track name, otherwise MARIO. */
  function SelectTrack(music: Option<string>): Track {
    match music
    case Some(m) => TrackEntry(m).GetOr(Mario)
    case None => Mario
  }

  /** The comparison is case-sensitive: only the exact string "CHRISTMAS" selects CHRISTMAS. */
  lemma SelectTrackCaseSensitive(music: Option<string>)
    ensures SelectTrack(music) == Christmas <==> music == Some("CHRISTMAS")
    ensures SelectTrack(Some("christmas")) == Mario
  {
  }

  class Wearable {
    var name: string
    var devices: seq<Device>
    var transport: seq<Call>
    var events: seq<Event>

    /**
     * Every stored device passed the discovery filter, and every connection the
     * controller opened went to a stored device carrying the configured name.
     */
    ghost predicate Valid()
      reads this
    {
      && (forall d :: d in devices ==> Discoverable(d.name))
      && (forall c :: c in transport && c.Open? ==> Device(c.address, name) in devices)
    }

    /** `new Wearable(config)`: the name is `config.name` when given, else "wV3"; no device yet. */
    constructor (configName: Option<string>)
      ensures Valid()
      ensures name == configName.GetOr(DefaultName)
      ensures devices == [] && transport == [] && events == []
    {
      name := configName.GetOr(DefaultName);
      devices := [];
      transport := [];
      events := [];
    }

    /** `findWearable`: disconnect first, then start discovery. */
    method FindWearable()
      requires Valid()
      modifies this
      ensures Valid()
      ensures name == old(name) && devices == old(devices)
      ensures events == old(events) + [Disconnected]
      ensures transport == old(transport) + [Close, Inquire]
    {
      Disconnect();
      transport := transport + [Inquire];
    }

    /** The `found` handler: keep a device whose name matches the pattern, then try to connect. */
    method OnFound(address: string, deviceName: string, outcome: Outcome)
      requires Valid()
      modifies this
      ensures Valid()
      ensures name == old(name)
      ensures Discoverable(deviceName) ==>
        && devices == old(devices) + [Device(address, deviceName)]
        && transport == old(transport) + ConnectCalls(devices, name)
        && events == old(events) + ConnectEvents(devices, name, outcome)
      ensures !Discoverable(deviceName) ==>
        devices == old(devices) && transport == old(transport) && events == old(events)
    {
      if Discoverable(deviceName) {
        devices := devices + [Device(address, deviceName)];
        Connect(outcome);
      }
    }

    /** The `finished` handler. */
    method OnFinished()
      requires Valid()
      modifies this
      ensures Valid()
      ensures name == old(name) && devices == old(devices) && transport == old(transport)
      ensures events == old(events) + [FinishedEvent(devices, name)]
      ensures events == old(events) + [Found]
    {
      events := events + [FinishedEvent(devices, name)];
    }

    /** The `close` handler disconnects. */
    method OnClose()
      requires Valid()
      modifies this
      ensures Valid()
      ensures name == old(name) && devices == old(devices)
      ensures events == old(events) + [Disconnected]
      ensures transport == old(transport) + [Close]
    {
      Disconnect();
    }

    /** The `data` handler, with the bytes already decoded. */
    method OnData(text: string)
      requires Valid()
      modifies this
      ensures Valid()
      ensures name == old(name) && devices == old(devices) && transport == old(transport)
      ensures events == old(events) + [Data(text)]
    {
      events := events + [Data(text)];
    }

    /** The `failure` handler forwards the transport's error. */
    method OnFailure(error: string)
      requires Valid()
      modifies this
      ensures Valid()
      ensures name == old(name) && devices == old(devices) && transport == old(transport)
      ensures events == old(events) + [Error(error)]
    {
      events := events + [Error(error)];
    }

    /** `connect`, with the transport's answer to the connection request as `outcome`. */
    method Connect(outcome: Outcome)
      requires Valid()
      modifies this
      ensures Valid()
      ensures name == old(name) && devices == old(devices)
      ensures transport == old(transport) + ConnectCalls(devices, name)
      ensures events == old(events) + ConnectEvents(devices, name, outcome)
    {
      var found := FindByName(devices, name);
      if found.Some? {
        var device := devices[found.value];
        transport := transport + [Open(device.address, FixedChannel)];
        events := events + [OutcomeEvent(outcome)];
      }
    }

    /** `disconnect`: emit `disconnected` and close the transport, whatever the state. */
    method Disconnect()
      requires Valid()
      modifies this
      ensures Valid()
      ensures name == old(name) && devices == old(devices)
      ensures events == old(events) + [Disconnected]
      ensures transport == old(transport) + [Close]
    {
      events := events + [Disconnected];
      transport := transport + [Close];
    }

    /** `sendCommand`: one write of the command and a newline. */
    method SendCommand(command: string)
      requires Valid()
      modifies this
      ensures Valid()
      ensures name == old(name) && devices == old(devices) && events == old(events)
      ensures transport == old(transport) + [Write(Frame(command))]
    {
      transport := transport + [Write(Frame(command))];
    }

    /** The callback of a write: an error is forwarded, success is silent. */
    method OnWriteDone(error: Option<string>)
      requires Valid()
      modifies this
      ensures Valid()
      ensures name == old(name) && devices == old(devices) && transport == old(transport)
      ensures events == old(events) + (if error.Some? then [Error(error.value)] else [])
    {
      if error.Some? {
        events := events + [Error(error.value)];
      }
    }

    /** `ledOFF`: LOW to red, green and blue, in that order; afterwards no channel is lit. */
    method LedOff()
      requires Valid()
      modifies this
      ensures Valid()
      ensures name == old(name) && devices == old(devices) && events == old(events)
      ensures transport == old(transport) + OffWrites()
      ensures LedsAfter(transport) == Dark
    {
      SendCommand(Render(LedLow(Red)));
      SendCommand(Render(LedLow(Green)));
      SendCommand(Render(LedLow(Blue)));
      LedOffDarkensAll(old(transport));
    }

    /** `ledON(color, value)`: all channels off, then the chosen command; only the chosen channel can be lit. */
    method LedOn(color: Option<string>, value: JsValue)
      requires Valid()
      modifies this
      ensures Valid()
      ensures name == old(name) && devices == old(devices) && events == old(events)
      ensures transport == old(transport) + OnWrites(color, value)
      ensures LedsAfter(transport) == Dark.Set(SelectChannel(color), Render(OnCommand(color, value)))
    {
      var command := OnCommand(color, value);
      LedOff();
      SendCommand(Render(command));
      LedOnLightsOnlyChosen(old(transport), color, value);
    }

    /** `getLuminosity`: the table has no LUMINOSITY entry, so the text "undefined" is written. */
    method GetLuminosity()
      requires Valid()
      modifies this
      ensures Valid()
      ensures name == old(name) && devices == old(devices) && events == old(events)
      ensures transport == old(transport) + [Write("undefined\n")]
    {
      SendCommand(Undefined.text);
      assert Frame(Undefined.text) == "undefined\n";
    }

    /** `getTemperature`: the table has no TEMPERATURE entry, so the text "undefined" is written. */
    method GetTemperature()
      requires Valid()
      modifies this
      ensures Valid()
      ensures name == old(name) && devices == old(devices) && events == old(events)
      ensures transport == old(transport) + [Write("undefined\n")]
    {
      SendCommand(Undefined.text);
      assert Frame(Undefined.text) == "undefined\n";
    }
  }

  /** A configured name the discovery pattern rejects can never be connected to. */
  lemma UndiscoverableNameNeverConnects(w: Wearable)
    requires w.Valid() && !Discoverable(w.name)
    ensures forall c :: c in w.transport ==> !c.Open?
  {
  }

  /** `disconnect()` twice in a row emits `disconnected` twice. */
  method DisconnectTwice() returns (emitted: seq<Event>)
    ensures emitted == [Disconnected, Disconnected]
  {
    var w := new Wearable(None);
    w.Disconnect();
    w.Disconnect();
    emitted := w.events;
  }

  /** `ledON()` lights GREEN at full intensity. */
  method LedOnDefaults() returns (written: seq<Call>)
    ensures written == [Write("#LR0000\n"), Write("#LG0000\n"), Write("#LB0000\n"), Write("#LG0255\n")]
  {
    var w := new Wearable(None);
    w.LedOn(None, Undefined);
    written := w.transport;
    OffWritesBytes();
    assert Frame(Render(LedHigh(Green))) == "#LG0255\n";
  }

  /** `ledON('red', 300)` clamps to full intensity. */
  method LedOnRedAboveMax() returns (written: seq<Call>)
    ensures written == [Write("#LR0000\n"), Write("#LG0000\n"), Write("#LB0000\n"), Write("#LR0255\n")]
  {
    var w := new Wearable(None);
    w.LedOn(Some("red"), IntValue(300));
    written := w.transport;
    assert ToUpper("red") == "RED";
    CustomSaturates(Red, IntValue(300));
    OffWritesBytes();
    assert Frame(Render(LedHigh(Red))) == "#LR0255\n";
  }

  /** `ledON('blue', -5)` clamps to 0 and sends the unpadded `#LB00`, not the LOW string `#LB0000`. */
  method LedOnBlueBelowMin() returns (written: seq<Call>)
    ensures written == [Write("#LR0000\n"), Write("#LG0000\n"), Write("#LB0000\n"), Write("#LB00\n")]
  {
    var w := new Wearable(None);
    w.LedOn(Some("blue"), IntValue(-5));
    written := w.transport;
    assert ToUpper("blue") == "BLUE";
    CustomBelowZero(Blue, IntValue(-5));
    OffWritesBytes();
    assert Frame("#LB0" + "0") == "#LB00\n";
  }
}
