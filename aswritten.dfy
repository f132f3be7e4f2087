/**
 * The handlers that call `helpers.log`, as the code is written. lib/helpers.js
 * exports only `checkValue`, so `helpers.log` is `undefined` and every call of
 * it throws a TypeError; the statements after it on that path never run.
 *
 * Each affected handler is written out as its statements in source order
 * (`Step`), and `Execute` runs them either with the logger missing, as in the
 * repository, or with a logger that does nothing, as the code evidently
 * intends. The classes of `Wearable` and `Bluetooth` model the intended
 * behaviour; the lemmas here state both runs side by side.
 */
module AsWritten {
  import opened Wrappers
  import opened NumberText
  import opened Helpers
  import opened Commands
  import opened Controller
  import W = Wearable
  import B = Bluetooth

  /** The keys of `module.exports` in lib/helpers.js. */
  const HelpersExports: set<string> := {"checkValue"}

  /** Whether `helpers.log` is a function. */
  const LogExported: bool := "log" in HelpersExports

  /** One statement of a handler, as far as its effects go. */
  datatype Step = Log | Push(device: Device) | Request(call: Call) | Emit(event: Event)

  /** What running statements did: devices appended, transport requests, events, and whether a TypeError escaped. */
  datatype Run = Run(pushed: seq<Device>, calls: seq<Call>, events: seq<Event>, threw: bool)

  const Nothing := Run([], [], [], false)

  const Thrown := Run([], [], [], true)

  /** Runs statements in order; `helpers.log` does nothing when `logger` holds and throws otherwise. */
  function Execute(steps: seq<Step>, logger: bool): Run
    decreases |steps|
  {
    if steps == [] then Nothing
    else match steps[0]
      case Log => if logger then Execute(steps[1..], logger) else Thrown
      case Push(d) => var rest := Execute(steps[1..], logger); rest.(pushed := [d] + rest.pushed)
      case Request(c) => var rest := Execute(steps[1..], logger); rest.(calls := [c] + rest.calls)
      case Emit(e) => var rest := Execute(steps[1..], logger); rest.(events := [e] + rest.events)
  }

  /** The effects of `a` followed by those of `b`. */
  function Then(a: Run, b: Run): Run {
    Run(a.pushed + b.pushed, a.calls + b.calls, a.events + b.events, b.threw)
  }

  /** Running `a + b` runs `a`, and `b` only if `a` did not throw. */
  lemma {:induction false} ExecuteAppend(a: seq<Step>, b: seq<Step>, logger: bool)
    ensures Execute(a + b, logger) ==
      if Execute(a, logger).threw then Execute(a, logger) else Then(Execute(a, logger), Execute(b, logger))
  {
    if a == [] {
      assert a + b == b;
    } else {
      assert (a + b)[0] == a[0];
      assert (a + b)[1..] == a[1..] + b;
      ExecuteAppend(a[1..], b, logger);
    }
  }

  // ---------------------------------------------------------------------------
  // lib/wearable.js

  /** `findWearable`: `disconnect()`, the log call of line 156, `serial.inquire()`. */
  function WearableFindSteps(): seq<Step> {
    [Emit(Disconnected), Request(Close), Log, Request(Inquire)]
  }

  /** `connect` of lib/wearable.js has no log call. */
  function WearableConnectSteps(devices: seq<Device>, name: string, outcome: Outcome): seq<Step> {
    match FindByName(devices, name)
    case None => []
    case Some(i) => [Request(Open(devices[i].address, W.FixedChannel)), Emit(OutcomeEvent(outcome))]
  }

  /** The `found` handler: push, the log call of line 123, `connect()`. */
  function WearableFoundSteps(devices: seq<Device>, name: string, address: string, deviceName: string, outcome: Outcome): seq<Step> {
    var d := Device(address, deviceName);
    if W.Discoverable(deviceName) then [Push(d), Log] + WearableConnectSteps(devices + [d], name, outcome) else []
  }

  /** The `finished` handler of either file: the log call, then the emit. */
  function FinishedSteps(devices: seq<Device>, name: string): seq<Step> {
    [Log, Emit(FinishedEvent(devices, name))]
  }

  /** As written, `findWearable` emits `disconnected` and closes, then throws before discovery starts. */
  lemma WearableFindWearableStops()
    ensures Execute(WearableFindSteps(), LogExported) == Run([], [Close], [Disconnected], true)
    ensures Execute(WearableFindSteps(), true) == Run([], [Close, Inquire], [Disconnected], false)
  {
    assert Execute([Log, Request(Inquire)], true) == Run([], [Inquire], [], false) by {
      assert Execute([Request(Inquire)], true) == Run([], [Inquire], [], false);
    }
  }

  /** As written, the `found` handler stores a matching device and throws before `connect()`. */
  lemma WearableFoundStops(devices: seq<Device>, name: string, address: string, deviceName: string, outcome: Outcome)
    ensures !W.Discoverable(deviceName) ==>
      Execute(WearableFoundSteps(devices, name, address, deviceName, outcome), LogExported) == Nothing
    ensures !W.Discoverable(deviceName) ==>
      Execute(WearableFoundSteps(devices, name, address, deviceName, outcome), true) == Nothing
    ensures W.Discoverable(deviceName) ==>
      Execute(WearableFoundSteps(devices, name, address, deviceName, outcome), LogExported)
        == Run([Device(address, deviceName)], [], [], true)
    ensures W.Discoverable(deviceName) ==>
      var ds := devices + [Device(address, deviceName)];
      Execute(WearableFoundSteps(devices, name, address, deviceName, outcome), true)
        == Run([Device(address, deviceName)], W.ConnectCalls(ds, name), W.ConnectEvents(ds, name, outcome), false)
  {
    var d := Device(address, deviceName);
    var ds := devices + [d];
    ExecuteAppend([Push(d), Log], WearableConnectSteps(ds, name, outcome), LogExported);
    ExecuteAppend([Push(d), Log], WearableConnectSteps(ds, name, outcome), true);
    assert Execute([Push(d), Log], true) == Run([d], [], [], false) by {
      assert Execute([Log], true) == Nothing;
    }
    var r := FindByName(ds, name);
    if r.Some? {
      var e := OutcomeEvent(outcome);
      assert Execute([Emit(e)], true) == Run([], [], [e], false);
    }
  }

  /** As written, either file's `finished` handler throws before emitting anything. */
  lemma FinishedStops(devices: seq<Device>, name: string)
    ensures Execute(FinishedSteps(devices, name), LogExported) == Thrown
    ensures Execute(FinishedSteps(devices, name), true) == Run([], [], [Found], false)
  {
    assert FinishedEvent(devices, name) == Found by { FinishedAlwaysFound(devices, name); }
    assert Execute([Emit(Found)], true) == Run([], [], [Found], false);
  }

  // ---------------------------------------------------------------------------
  // lib/bluetooth.js

  /** `findWearable`: the log call of line 153, `serial.inquire()`. */
  function BluetoothFindSteps(): seq<Step> {
    [Log, Request(Inquire)]
  }

  /** `connect`: log (185), channel lookup, then the error or log (189), open and its outcome. */
  function BluetoothConnectSteps(devices: seq<Device>, name: string, channel: Option<int>, outcome: Outcome): seq<Step> {
    match FindByName(devices, name)
    case None => []
    case Some(i) =>
      var d := devices[i];
      [Log, Request(FindChannel(d.address))] +
        if channel.None? then [Emit(Error(B.ChannelError(d.name)))]
        else [Log, Request(Open(d.address, channel.value)), Emit(OutcomeEvent(outcome))]
  }

  /** The `found` handler: push, the log call of line 120, `connect()`. */
  function BluetoothFoundSteps(devices: seq<Device>, name: string, address: string, deviceName: string,
                               channel: Option<int>, outcome: Outcome): seq<Step> {
    var d := Device(address, deviceName);
    if B.Discoverable(deviceName) then [Push(d), Log] + BluetoothConnectSteps(devices + [d], name, channel, outcome) else []
  }

  /** `sendCommand`: the log call of line 244, then the write. */
  function SendSteps(command: string): seq<Step> {
    [Log, Request(Write(Frame(command)))]
  }

  function BluetoothLedOffSteps(): seq<Step> {
    SendSteps(Render(LedLow(Red))) + SendSteps(Render(LedLow(Green))) + SendSteps(Render(LedLow(Blue)))
  }

  function BluetoothLedOnSteps(color: Option<string>, value: JsValue): seq<Step> {
    BluetoothLedOffSteps() + SendSteps(Render(OnCommand(color, value)))
  }

  /** As written, `findWearable` of lib/bluetooth.js throws before discovery starts. */
  lemma BluetoothFindWearableStops()
    ensures Execute(BluetoothFindSteps(), LogExported) == Thrown
    ensures Execute(BluetoothFindSteps(), true) == Run([], [Inquire], [], false)
  {
  }

  /** As written, `connect` throws before the channel lookup whenever a device carries the configured name. */
  lemma BluetoothConnectStops(devices: seq<Device>, name: string, channel: Option<int>, outcome: Outcome)
    ensures Execute(BluetoothConnectSteps(devices, name, channel, outcome), LogExported) ==
      if FindByName(devices, name).Some? then Thrown else Nothing
    ensures Execute(BluetoothConnectSteps(devices, name, channel, outcome), true) ==
      Run([], B.ConnectCalls(devices, name, channel), B.ConnectEvents(devices, name, channel, outcome), false)
  {
    var r := FindByName(devices, name);
    if r.Some? {
      var d := devices[r.value];
      var tail := if channel.None? then [Emit(Error(B.ChannelError(d.name)))]
        else [Log, Request(Open(d.address, channel.value)), Emit(OutcomeEvent(outcome))];
      ExecuteAppend([Log, Request(FindChannel(d.address))], tail, LogExported);
      ExecuteAppend([Log, Request(FindChannel(d.address))], tail, true);
      assert Execute([Log, Request(FindChannel(d.address))], true) == Run([], [FindChannel(d.address)], [], false) by {
        assert Execute([Request(FindChannel(d.address))], true) == Run([], [FindChannel(d.address)], [], false);
      }
      if channel.Some? {
        var e := OutcomeEvent(outcome);
        assert Execute([Emit(e)], true) == Run([], [], [e], false);
        assert Execute([Request(Open(d.address, channel.value)), Emit(e)], true) == Run([], [Open(d.address, channel.value)], [e], false);
      } else {
        var e := Error(B.ChannelError(d.name));
        assert Execute([Emit(e)], true) == Run([], [], [e], false);
      }
    }
  }

  /** As written, the `found` handler of lib/bluetooth.js stores a matching device and throws before `connect()`. */
  lemma BluetoothFoundStops(devices: seq<Device>, name: string, address: string, deviceName: string,
                            channel: Option<int>, outcome: Outcome)
    ensures !B.Discoverable(deviceName) ==>
      Execute(BluetoothFoundSteps(devices, name, address, deviceName, channel, outcome), LogExported) == Nothing
    ensures !B.Discoverable(deviceName) ==>
      Execute(BluetoothFoundSteps(devices, name, address, deviceName, channel, outcome), true) == Nothing
    ensures B.Discoverable(deviceName) ==>
      Execute(BluetoothFoundSteps(devices, name, address, deviceName, channel, outcome), LogExported)
        == Run([Device(address, deviceName)], [], [], true)
    ensures B.Discoverable(deviceName) ==>
      var ds := devices + [Device(address, deviceName)];
      Execute(BluetoothFoundSteps(devices, name, address, deviceName, channel, outcome), true)
        == Run([Device(address, deviceName)], B.ConnectCalls(ds, name, channel), B.ConnectEvents(ds, name, channel, outcome), false)
  {
    var d := Device(address, deviceName);
    var ds := devices + [d];
    ExecuteAppend([Push(d), Log], BluetoothConnectSteps(ds, name, channel, outcome), LogExported);
    ExecuteAppend([Push(d), Log], BluetoothConnectSteps(ds, name, channel, outcome), true);
    BluetoothConnectStops(ds, name, channel, outcome);
  }

  /** As written, `sendCommand` of lib/bluetooth.js throws before writing. */
  lemma BluetoothSendCommandStops(command: string)
    ensures Execute(SendSteps(command), LogExported) == Thrown
    ensures Execute(SendSteps(command), true) == Run([], [Write(Frame(command))], [], false)
  {
    assert Execute([Request(Write(Frame(command)))], true) == Run([], [Write(Frame(command))], [], false);
  }

  /** As written, `ledOFF` of lib/bluetooth.js throws at its first write and writes nothing. */
  lemma BluetoothLedOffStops()
    ensures Execute(BluetoothLedOffSteps(), LogExported) == Thrown
    ensures Execute(BluetoothLedOffSteps(), true) == Run([], OffWrites(), [], false)
  {
    var r, g, b := SendSteps(Render(LedLow(Red))), SendSteps(Render(LedLow(Green))), SendSteps(Render(LedLow(Blue)));
    ExecuteAppend(r, g, LogExported);
    ExecuteAppend(r + g, b, LogExported);
    ExecuteAppend(r, g, true);
    ExecuteAppend(r + g, b, true);
  }

  /** As written, `ledON` of lib/bluetooth.js throws at its first write and writes nothing. */
  lemma BluetoothLedOnStops(color: Option<string>, value: JsValue)
    ensures Execute(BluetoothLedOnSteps(color, value), LogExported) == Thrown
    ensures Execute(BluetoothLedOnSteps(color, value), true) == Run([], OnWrites(color, value), [], false)
  {
    var on := SendSteps(Render(OnCommand(color, value)));
    BluetoothLedOffStops();
    ExecuteAppend(BluetoothLedOffSteps(), on, LogExported);
    ExecuteAppend(BluetoothLedOffSteps(), on, true);
  }
}
