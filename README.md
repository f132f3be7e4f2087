# kit-iot-wearable: command layer and controller, in Dafny

This project models the part of the `kit-iot-wearable` Node.js client that turns
high-level actions into the ASCII commands a Bluetooth wearable understands and
sequences them on the serial link:

- `NumberText`: how a JavaScript value enters a command string. A value is
  abstracted as `JsValue(text, number, truthy)`: the text it becomes inside a
  command, what `parseFloat` reads from it (`None` for NaN), and its truthiness.
  The text of an integer is computed as `String(n)` writes it, which is what the
  CUSTOM builders of lib/commands.js append.
- `Helpers` (lib/helpers.js): `checkValue`, the clamp of an LED intensity to [0, 255].
- `Commands` (lib/commands.js): the exported table, ACCELEROMETER and LED, as a
  `Command` datatype and `Render`, the ASCII text of each entry, including the
  three CUSTOM builders.
- `Controller`: what lib/wearable.js and lib/bluetooth.js share line for line:
  devices, events, the log of transport requests, case folding, the
  case-insensitive discovery test, `_.find` by name, the colour and intensity
  choice of `ledON`, the writes of `ledOFF`/`ledON`, the track list, the
  `finished` handler. `LedsAfter` reads a transport log back as the last command
  each LED channel received, which is how "only one colour is lit" is stated.
- `Wearable` (lib/wearable.js) and `Bluetooth` (lib/bluetooth.js): each a class
  `Wearable` with the fields `name` and `devices` and two append-only logs,
  `transport` (requests made of the serial port, writes included) and `events`
  (what the controller emits). Its methods are the controller's methods and the
  transport handlers registered by `findWearable`.
- `Variants`: lemmas on how the two controller files differ.
- `AsWritten`: the handlers that call `helpers.log`, run statement by statement
  as the code is written, where that call throws (see "## Findings"), next to
  the same statements with a logger that does nothing. The classes model the
  latter, which is what the code evidently intends.

The serial transport is not modelled. Its answers enter as parameters: the
outcome of a connection request (`Outcome`) and the result of a channel lookup
(`Option<int>`, in lib/bluetooth.js). Its later callbacks enter as handler
methods: `OnFound`, `OnFinished`, `OnClose`, `OnData`, `OnFailure` and
`OnWriteDone`.

Points where the code differs from what its comments or the command format
suggest. The model follows the code in each case.
- The default name in lib/wearable.js is `wV3`, although its doc comment (line 13) says `wearable`.
- The fixed LED commands carry three digits after `#Lx0`. The CUSTOM builder does not pad, so `ledON('blue', -5)` sends `#LB00` and not the LOW command `#LB0000`, and `ledON('red', 42)` sends `#LR042`.
- The `finished` handler tests the array `devices`, not its length. The array is always truthy, so its "could not find the device" error is never emitted.
- Only lib/bluetooth.js upper-cases the `playMusic` argument. lib/wearable.js compares it verbatim.
- Neither controller keeps a "connected" flag. `isConnected` asks the transport.
- `disconnect` emits `disconnected` on every call.
- The doc comments of `connect` (lib/wearable.js:166-177, lib/bluetooth.js:160-169) document a `device` argument, and their examples pass one. The function takes no argument: it searches `this.devices` for the configured name, and so does the model's `Connect`.
- The doc comment of `findWearable` in lib/bluetooth.js (line 98) documents a `callback` parameter. The function takes none and never calls back.
- lib/helpers.js exports only `checkValue` (lines 22-24), so each `helpers.log(...)` call throws a TypeError. This is the one place where the classes follow the evident intent instead, and `AsWritten` states the code as written.

## Model

| member | source | states |
|---|---|---|
| Helpers.CheckValue | lib/helpers.js:3-19 | the result always parses to a number in [0, 255] (for in-range input it is the caller's own value, text included); for numeric input its number is the point of [0, 255] nearest to the parsed input; the result is the input itself or the number 0 or 255 |
| Helpers.CheckValueNotANumber | lib/helpers.js:6-11 | input that parses to NaN gives 255 |
| Helpers.CheckValueAboveMax | lib/helpers.js:9-11 | a parsed value above 255 gives 255 |
| Helpers.CheckValueBelowMin | lib/helpers.js:14-16 | a parsed value below 0 gives 0 |
| Helpers.CheckValueInRange | lib/helpers.js:18 | a parsed value in [0, 255] gives back the original input, text included, not the parsed number |
| Helpers.CheckValueIdempotent | lib/helpers.js:3-19 | clamping twice equals clamping once, for every input |
| NumberText.BoundTexts | lib/helpers.js:9-16 | the two constants the clamp returns are written "255" and "0" |
| NumberText.Digits | lib/commands.js:15-17 | the text of a non-negative number, as concatenation writes it, is decimal digits with no leading zero |
| NumberText.ParseDigitsOfDigits | lib/commands.js:15-17 | that text loses nothing: reading the digits back gives the number |
| NumberText.DigitsLength | lib/commands.js:15-17 | numbers below 10, 100 and 1000 take 1, 2 and 3 digits: nothing pads them |
| Commands.LedEntry | lib/commands.js:11-33 | the LED table has exactly the keys RED, GREEN and BLUE, each naming its channel |
| Commands.LedEntryOfName | lib/commands.js:11-33 | looking a channel's key up gives that channel |
| Commands.Render | lib/commands.js:4-33 | the ASCII text of every table entry: the nine fixed literals and, for CUSTOM, the channel prefix followed by the text of `checkValue(value)`; its properties are stated by ChannelOfRender, ChannelsNeverShare, FixedCommandsDistinct and the Custom* lemmas |
| Commands.ChannelOfRender | lib/commands.js:4-33 | every LED command (HIGH, LOW or built) starts with `#L` and its own channel letter; no accelerometer command names a channel |
| Commands.ChannelsNeverShare | lib/commands.js:11-33 | commands of two different channels never coincide, whatever the intensity |
| Commands.FixedCommandsDistinct | lib/commands.js:4-33 | the three accelerometer queries and six fixed LED strings are pairwise distinct |
| Commands.HighIsCustomMax | lib/commands.js:13-17 | each HIGH string is what the channel's builder produces for 255 |
| Commands.CustomSaturates | lib/commands.js:15-17 | for non-numeric input or input above 255, CUSTOM equals the channel's HIGH string |
| Commands.CustomBelowZero | lib/commands.js:15-17 | for negative input CUSTOM is `#Lx00`, which differs from the channel's LOW string |
| Commands.CustomInRange | lib/commands.js:15-17 | for input in [0, 255] CUSTOM is the prefix `#Lx0` followed by the caller's own text |
| Commands.CustomUnpadded | lib/commands.js:15-17 | for an integer 0..255, CUSTOM is the prefix and its plain digits, seven characters long exactly from 100 up |
| Controller.UnframeFrame | lib/wearable.js:249 | a command is framed by one trailing newline, which the reader strips back off |
| Controller.ToUpper | lib/wearable.js:310 | upper-casing keeps the length and maps each character on its own |
| Controller.ToUpperIdempotent | lib/wearable.js:310 | upper-casing an upper-cased string changes nothing |
| Controller.RegexTest | lib/wearable.js:110-120 | `/pattern/i.test(name)` as a scan over start positions; RegexTestCorrect states that it holds exactly when the pattern occurs somewhere ignoring ASCII case |
| Controller.RegexTestCorrect | lib/wearable.js:110-120 | the discovery test succeeds exactly when the pattern occurs somewhere in the name, ignoring case |
| Controller.FindByName | lib/wearable.js:188-190 | the device found carries the configured name exactly and no earlier device does; none is found exactly when no device has that name |
| Controller.FindByNameAppend | lib/wearable.js:120-124 | a device appended by discovery never displaces an earlier device of the configured name |
| Controller.SelectChannel | lib/wearable.js:309-317 | the channel `ledON` lights: the upper-cased truthy colour if it is a key of `cmd.LED`, GREEN otherwise; SelectChannelNamed and SelectChannelCaseInsensitive state which colour gives which channel |
| Controller.SelectChannelNamed | lib/wearable.js:309-317 | a colour selects a channel exactly when it upper-cases to that channel's key; everything else, absent and empty included, selects GREEN |
| Controller.SelectChannelCaseInsensitive | lib/wearable.js:310 | the colour choice does not depend on the case of the argument |
| Controller.OnCommand | lib/wearable.js:313-317 | the command `ledON` sends last: the chosen channel's CUSTOM for a truthy value, its HIGH otherwise; OnCommandFullIntensity and LedOnLightsOnlyChosen state its effect |
| Controller.OnCommandFullIntensity | lib/wearable.js:313-317 | a falsy, non-numeric or above-255 intensity lights the chosen channel with its HIGH command |
| Controller.OffWrites | lib/wearable.js:283-286 | the three framed LOW writes of `ledOFF`, red, green, blue; OffWritesBytes gives their bytes and LedOffDarkensAll their effect |
| Controller.OnWrites | lib/wearable.js:308-321 | the writes of `ledON`: those of `ledOFF`, then the framed chosen command; LedOnLightsOnlyChosen states their effect |
| Controller.OffWritesBytes | lib/wearable.js:283-286 | `ledOFF` writes exactly `#LR0000\n`, `#LG0000\n`, `#LB0000\n`, in that order |
| Controller.LedOffDarkensAll | lib/wearable.js:283-286 | after `ledOFF` every channel's last command is LOW, whatever was written before |
| Controller.LedOnLightsOnlyChosen | lib/wearable.js:308-321 | after `ledON` the chosen channel holds the chosen command and the other two show LOW, so at most one colour is lit |
| Controller.TrackEntry | lib/wearable.js:341-342 | the track list holds exactly CHRISTMAS and MARIO |
| Controller.FinishedEvent | lib/wearable.js:132-137 | the event of the `finished` handler: `found` when the array `devices` is truthy, the not-found error otherwise; FinishedAlwaysFound states that the array is always truthy |
| Controller.FinishedAlwaysFound | lib/wearable.js:129-137 | the `finished` handler emits `found` even when no device was kept; its error branch never runs |
| Wearable.Discoverable | lib/wearable.js:110-120 | the discovery filter `/wV3/i.test(name)`: a device is kept exactly when its name contains `wV3` in any mix of ASCII case, by Controller.RegexTestCorrect; Variants.DefaultNamesAndPatterns and UndiscoverableNameNeverConnects rest on it |
| Wearable.ConnectCalls | lib/wearable.js:186-200 | the request of `connect`: open channel 1 of the first device named exactly as configured, nothing if none is; ConnectNeedsExactName states when it is made |
| Wearable.ConnectEvents | lib/wearable.js:194-199 | the event the connection callback emits, once, when a request was made; ConnectNeedsExactName ties it to the request |
| Wearable.ConnectNeedsExactName | lib/wearable.js:186-200 | `connect` requests something exactly when a device carries the configured name verbatim; it opens channel 1 of the first such device and reports the outcome once |
| Wearable.SelectTrack | lib/wearable.js:340-342 | `playMusic`'s choice: the argument if it is exactly a track name, MARIO otherwise; SelectTrackCaseSensitive states it |
| Wearable.SelectTrackCaseSensitive | lib/wearable.js:340-342 | only the exact string CHRISTMAS selects CHRISTMAS; everything else, `christmas` included, selects MARIO |
| Wearable.Wearable.constructor | lib/wearable.js:30-50 | the name is `config.name` when given, otherwise `wV3`; no device, request or event yet |
| Wearable.Wearable.FindWearable | lib/wearable.js:108-160 | discovery first disconnects (emits `disconnected`, closes), then starts the inquiry |
| Wearable.Wearable.OnFound | lib/wearable.js:114-126 | a device whose name contains `wv3` in any case is appended and `connect` runs; any other device changes nothing |
| Wearable.Wearable.OnFinished | lib/wearable.js:129-138 | the `finished` handler appends `found` and nothing else |
| Wearable.Wearable.OnClose | lib/wearable.js:141-143 | a transport close runs `disconnect` |
| Wearable.Wearable.OnData | lib/wearable.js:146-148 | received text is emitted as one `data` event |
| Wearable.Wearable.OnFailure | lib/wearable.js:151-153 | a transport failure is emitted as one `error` event carrying its message |
| Wearable.Wearable.Connect | lib/wearable.js:186-203 | appends the request of `connect` (channel 1 of the first exact-name device, or none) and the event of its outcome; the opened device is always a kept device of the configured name |
| Wearable.Wearable.Disconnect | lib/wearable.js:224-229 | every call emits `disconnected` and closes the transport, whatever the state |
| Wearable.Wearable.SendCommand | lib/wearable.js:245-256 | exactly one write, of the command followed by a newline |
| Wearable.Wearable.OnWriteDone | lib/wearable.js:249-253 | a failed write is emitted as one `error`; a successful one emits nothing |
| Wearable.Wearable.LedOff | lib/wearable.js:283-289 | writes the three LOW commands in red, green, blue order; afterwards no channel is lit |
| Wearable.Wearable.LedOn | lib/wearable.js:308-324 | writes the three LOW commands and then exactly one command for the chosen channel; afterwards only that channel can be lit |
| Wearable.Wearable.GetLuminosity | lib/wearable.js:361-365 | the table has no LUMINOSITY entry, so the request written is the text `undefined` and a newline |
| Wearable.Wearable.GetTemperature | lib/wearable.js:379-383 | the table has no TEMPERATURE entry, so the request written is the text `undefined` and a newline |
| Wearable.UndiscoverableNameNeverConnects | lib/wearable.js:120-194 | when the configured name does not itself contain `wv3`, no connection is ever opened |
| Wearable.DisconnectTwice | lib/wearable.js:224-229 | two calls of `disconnect` emit `disconnected` twice |
| Wearable.LedOnDefaults | lib/wearable.js:308-321 | `ledON()` writes the three LOW commands, then `#LG0255` |
| Wearable.LedOnRedAboveMax | lib/wearable.js:308-321 | `ledON('red', 300)` ends with `#LR0255` |
| Wearable.LedOnBlueBelowMin | lib/wearable.js:308-321 | `ledON('blue', -5)` ends with `#LB00`, not the LOW command `#LB0000` |
| Bluetooth.Discoverable | lib/bluetooth.js:109-117 | the discovery filter `/wearable/i.test(name)`: a device is kept exactly when its name contains `wearable` in any mix of ASCII case, by Controller.RegexTestCorrect; Variants.DefaultNamesAndPatterns and UndiscoverableNameNeverConnects rest on it |
| Bluetooth.ConnectCalls | lib/bluetooth.js:178-201 | the requests of `connect`: the channel lookup for the first device named exactly as configured, then opening the channel it yields; ConnectNeedsExactName, ChannelLookupFailure and ChannelLookupSuccess state them |
| Bluetooth.ConnectEvents | lib/bluetooth.js:184-201 | the events of `connect`: the channel error or the connection outcome, once; ChannelLookupFailure and ChannelLookupSuccess state them |
| Bluetooth.ConnectNeedsExactName | lib/bluetooth.js:178-184 | with no device named exactly as configured, `connect` makes no transport request and emits nothing |
| Bluetooth.ChannelLookupFailure | lib/bluetooth.js:184-201 | a failed channel lookup opens nothing and emits exactly one error, `Could not find channel of "<name>"` |
| Bluetooth.ChannelLookupSuccess | lib/bluetooth.js:188-197 | a found channel is opened on the address that was looked up, and the outcome is reported once |
| Bluetooth.SelectTrack | lib/bluetooth.js:330-332 | `playMusic`'s choice: the upper-cased argument if it is a track name, MARIO otherwise, and the TypeError for a missing argument; SelectTrackIgnoresCase states it |
| Bluetooth.SelectTrackIgnoresCase | lib/bluetooth.js:330-332 | any spelling of `christmas` selects CHRISTMAS, any other string MARIO; a missing argument throws |
| Bluetooth.Wearable.constructor | lib/bluetooth.js:30-48 | the name is `config.name` when given, otherwise `wearable`; no device, request or event yet |
| Bluetooth.Wearable.FindWearable | lib/bluetooth.js:107-155 | discovery starts the inquiry without disconnecting first |
| Bluetooth.Wearable.OnFound | lib/bluetooth.js:111-123 | a device whose name contains `wearable` in any case is appended and `connect` runs; any other device changes nothing |
| Bluetooth.Wearable.OnFinished | lib/bluetooth.js:126-135 | the `finished` handler appends `found` and nothing else |
| Bluetooth.Wearable.OnClose | lib/bluetooth.js:138-140 | a transport close runs `disconnect` |
| Bluetooth.Wearable.OnData | lib/bluetooth.js:143-145 | received text is emitted as one `data` event |
| Bluetooth.Wearable.OnFailure | lib/bluetooth.js:148-150 | a transport failure is emitted as one `error` event carrying its message |
| Bluetooth.Wearable.Connect | lib/bluetooth.js:178-203 | appends the channel lookup for the first exact-name device and, when a channel is found, the request opening it; emits the lookup error or the outcome |
| Bluetooth.Wearable.Disconnect | lib/bluetooth.js:222-225 | every call emits `disconnected` and closes the transport, whatever the state |
| Bluetooth.Wearable.SendCommand | lib/bluetooth.js:241-252 | exactly one write, of the command followed by a newline |
| Bluetooth.Wearable.OnWriteDone | lib/bluetooth.js:247-251 | a failed write is emitted as one `error`; a successful one emits nothing |
| Bluetooth.Wearable.LedOff | lib/bluetooth.js:277-281 | writes the three LOW commands in red, green, blue order; afterwards no channel is lit |
| Bluetooth.Wearable.LedOn | lib/bluetooth.js:300-314 | writes the three LOW commands and then exactly one command for the chosen channel; afterwards only that channel can be lit |
| Bluetooth.UndiscoverableNameNeverConnects | lib/bluetooth.js:117-192 | when the configured name does not itself contain `wearable`, no connection is ever opened |
| Variants.DefaultNamesAndPatterns | lib/bluetooth.js:40-42 | each file's default name passes its own discovery pattern (`wV3`, `wearable`) and not the other file's |
| Variants.PlayMusicCaseHandling | lib/bluetooth.js:330-332 | the two `playMusic` choices agree on upper-case names; only bluetooth.js accepts `christmas`; only wearable.js accepts a missing argument |
| Variants.ConnectChannelSource | lib/wearable.js:194 | for the same devices both files connect to the same device; wearable.js opens channel 1, bluetooth.js looks the channel up and opens the one it gets |
| AsWritten.Execute | lib/helpers.js:22-24 | runs a handler's statements in order, where a `helpers.log` call does nothing with a working logger and throws when `log` is not exported; the *Stops lemmas state its runs |
| AsWritten.ExecuteAppend | lib/bluetooth.js:277-314 | running two statement lists in turn, as `ledOFF` runs three `sendCommand` calls and `ledON` runs `ledOFF` and one more: the first list's throw stops everything, otherwise the effects concatenate |
| AsWritten.WearableFindSteps | lib/wearable.js:108-160 | the effects of `findWearable` in source order: `disconnect()`, the log call of line 156, `inquire()`; WearableFindWearableStops states both runs |
| AsWritten.WearableFoundSteps | lib/wearable.js:119-126 | the effects of the `found` handler: the push, the log call of line 123, then `connect()` (WearableConnectSteps); WearableFoundStops states both runs |
| AsWritten.WearableConnectSteps | lib/wearable.js:186-200 | the effects of `connect`, which has no log call; WearableFoundStops relates them to Wearable.ConnectCalls/ConnectEvents |
| AsWritten.FinishedSteps | lib/wearable.js:129-138 | the effects of the `finished` handler: the log call of line 130, then the emit; FinishedStops states both runs |
| AsWritten.BluetoothFindSteps | lib/bluetooth.js:152-155 | the effects of `findWearable`: the log call of line 153, then `inquire()`; BluetoothFindWearableStops states both runs |
| AsWritten.BluetoothFoundSteps | lib/bluetooth.js:116-123 | the effects of the `found` handler: the push, the log call of line 120, then `connect()`; BluetoothFoundStops states both runs |
| AsWritten.BluetoothConnectSteps | lib/bluetooth.js:178-201 | the effects of `connect`: the log call of line 185, the channel lookup, then the error, or the log call of line 189, the open and its outcome; BluetoothConnectStops states both runs |
| AsWritten.SendSteps | lib/bluetooth.js:241-252 | the effects of `sendCommand`: the log call of line 244, then the write; BluetoothSendCommandStops states both runs |
| AsWritten.BluetoothLedOffSteps | lib/bluetooth.js:277-281 | three `sendCommand` calls with the LOW commands; BluetoothLedOffStops states both runs |
| AsWritten.BluetoothLedOnSteps | lib/bluetooth.js:300-314 | `ledOFF()`, then `sendCommand` with the chosen command; BluetoothLedOnStops states both runs |
| AsWritten.WearableFindWearableStops | lib/wearable.js:108-160 | as written, `findWearable` emits `disconnected` and closes, then throws at line 156 without starting discovery; with a working logger it also calls `inquire` |
| AsWritten.WearableFoundStops | lib/wearable.js:114-126 | as written, a matching device is stored and the handler throws before `connect()`; with a working logger it makes exactly `Wearable.ConnectCalls`/`ConnectEvents` for the extended list; a non-matching one changes nothing, with or without the logger |
| AsWritten.FinishedStops | lib/wearable.js:129-138 | as written, the `finished` handler throws before emitting anything; with a working logger it emits only `found` |
| AsWritten.BluetoothFindWearableStops | lib/bluetooth.js:152-155 | as written, `findWearable` throws at line 153 without starting discovery; with a working logger it calls `inquire` |
| AsWritten.BluetoothFoundStops | lib/bluetooth.js:111-123 | as written, a matching device is stored and the handler throws before `connect()`; with a working logger it makes exactly `Bluetooth.ConnectCalls`/`ConnectEvents` for the extended list; a non-matching one changes nothing, with or without the logger |
| AsWritten.BluetoothConnectStops | lib/bluetooth.js:178-203 | as written, `connect` throws before the channel lookup exactly when a device carries the name, and does nothing otherwise; with a working logger it makes exactly `Bluetooth.ConnectCalls`/`ConnectEvents` |
| AsWritten.BluetoothSendCommandStops | lib/bluetooth.js:241-252 | as written, `sendCommand` throws at line 244 and writes nothing; with a working logger it writes the framed command |
| AsWritten.BluetoothLedOffStops | lib/bluetooth.js:277-281 | as written, `ledOFF` throws at its first write and writes nothing; with a working logger it writes the three LOW commands |
| AsWritten.BluetoothLedOnStops | lib/bluetooth.js:300-314 | as written, `ledON` throws inside its `ledOFF()` and writes nothing; with a working logger it writes the three LOW commands and then the chosen command |

## Left out

- The `bluetooth-serial-port` transport (`inquire`, `findSerialPortChannel`, `connect`, `close`, `write`, `isOpen`) is a native binding. The model records only what is asked of it, and its answers enter as parameters or handler calls. Each file creates one `serial` object at module level (lib/wearable.js:7, lib/bluetooth.js:7), which every instance built from that file shares, so one controller's `disconnect` closes the link another controller uses. The model gives each instance its own `transport` log, so it does not capture this sharing.
- Timing: a callback that the transport would run later runs inside the call that registered it (`Connect`) or as a separate handler call (`OnWriteDone`, the discovery handlers). Interleavings are not modelled.
- Each `findWearable` call registers another set of handlers on the one shared transport, so later transport events would be handled several times. The model has one handler per event.
- The EventEmitter machinery: listener dispatch, and Node throwing on an `error` event nobody listens to. Emitted events are recorded in order instead.
- `onData`: the Buffer/UTF-8 decoding is not modelled; `OnData` receives the decoded text.
- `isConnected` is a passthrough to the transport and is left out.
- `playMusic` sending its command: the table has no MUSIC entry, so `cmd.MUSIC[chosen]` throws a TypeError before anything is written. Only the track choice is modelled, as `Wearable.SelectTrack` and `Bluetooth.SelectTrack`.
- `parseFloat` and floating point: `JsValue.number` is the parse result given as a real, not computed from the text. The text of a number is computed only for integers (`IntValue`), and only in plain decimal; JavaScript switches to exponent notation from 1e21.
- Controller.ToUpper: upper-cases ASCII letters only. JavaScript's `toUpperCase` also maps some non-ASCII letters onto ASCII ones (dotless `ı` becomes `I`), so such colour or track names are not covered.
- Controller.RegexTest: models `/pattern/i` only for patterns of ASCII letters and digits, which is all the two files use.
- A truthy colour that is not a string makes `toUpperCase` throw. The model's colour is a string or absent.
- Calling `Wearable(config)` without `new` returns `new Wearable()` and drops `config` (lib/wearable.js:34-36); only construction with `new` is modelled, with `config.name` a string or absent. A `config` whose `name` key holds `undefined` makes `_.extend` overwrite the default with `undefined`; a name that is not a string is not representable in the model.
- `helpers.log`: lib/helpers.js exports only `checkValue` (lines 22-24), so every `helpers.log(...)` call throws a TypeError. The classes assume a logger that prints and returns, which is what the code evidently intends. What the code does as written is stated by the `AsWritten` lemmas and listed under "## Findings". The console output a working logger would produce is not modelled.
- Wearable.Wearable.FindWearable: states discovery with a working `helpers.log`; as written, line 156 throws after `disconnect()` and before `inquire()` (`AsWritten.WearableFindWearableStops`).
- Wearable.Wearable.OnFound: states the handler with a working `helpers.log`; as written, line 123 throws after the push and before `connect()` (`AsWritten.WearableFoundStops`).
- Wearable.Wearable.OnFinished: states the handler with a working `helpers.log`; as written, line 130 throws before anything is emitted (`AsWritten.FinishedStops`).
- Bluetooth.Wearable.FindWearable: states discovery with a working `helpers.log`; as written, line 153 throws before `inquire()` (`AsWritten.BluetoothFindWearableStops`).
- Bluetooth.Wearable.OnFound: states the handler with a working `helpers.log`; as written, line 120 throws after the push and before `connect()` (`AsWritten.BluetoothFoundStops`).
- Bluetooth.Wearable.OnFinished: states the handler with a working `helpers.log`; as written, line 127 throws before anything is emitted (`AsWritten.FinishedStops`).
- Bluetooth.Wearable.Connect: states `connect` with a working `helpers.log`; as written, line 185 throws before the channel lookup whenever a device matches (`AsWritten.BluetoothConnectStops`).
- Bluetooth.Wearable.SendCommand: states the write with a working `helpers.log`; as written, line 244 throws before `write` (`AsWritten.BluetoothSendCommandStops`).
- Bluetooth.Wearable.LedOff: states the three writes with a working `helpers.log`; as written, the first `sendCommand` throws and nothing is written (`AsWritten.BluetoothLedOffStops`).
- Bluetooth.Wearable.LedOn: states the four writes with a working `helpers.log`; as written, the `ledOFF()` it starts with throws and nothing is written (`AsWritten.BluetoothLedOnStops`).
- Bluetooth.ConnectCalls: describes the requests of `connect` with a working `helpers.log`; as written, line 185 throws before any request whenever a device matches (`AsWritten.BluetoothConnectStops`).
- Bluetooth.ConnectEvents: describes the events of `connect` with a working `helpers.log`; as written, line 185 throws before the lookup, so neither the channel error nor the connection outcome is emitted (`AsWritten.BluetoothConnectStops`).
- Bluetooth.ConnectNeedsExactName: describes the requests of `connect` with a working `helpers.log`; as written, a matching device makes line 185 throw before any request.
- Bluetooth.ChannelLookupFailure: describes the channel error with a working `helpers.log`; as written, line 185 throws before the lookup, so the error is never emitted.
- Bluetooth.ChannelLookupSuccess: describes the open request with a working `helpers.log`; as written, line 185 throws before the lookup, so nothing is opened.
- Controller.FinishedAlwaysFound: states which branch of the `if` at lib/wearable.js:132 (lib/bluetooth.js:129) runs; as written, the log call just before it throws, so neither event is emitted.
- Variants.ConnectChannelSource: compares the two `connect` functions with a working `helpers.log`; as written, lib/bluetooth.js:185 throws, so only lib/wearable.js opens anything.
- index.js and example/index.js are demo scripts.

## Findings

lib/helpers.js:22-24 exports only `checkValue`, so `helpers.log` is `undefined` and each call below throws a TypeError out of the method or handler that makes it.

| source | as written | input that shows it | evidently intended | confidence | as-written member | corrected member |
|---|---|---|---|---|---|---|
| lib/wearable.js:156 | `findWearable` throws before `serial.inquire()` | any call of `findWearable()` | log the search and start discovery | high; not executed | AsWritten.WearableFindWearableStops | Wearable.Wearable.FindWearable |
| lib/wearable.js:123 | the `found` handler throws before `connect()` | discovery reports a device named `wV3` | log and connect to the device | high; not executed | AsWritten.WearableFoundStops | Wearable.Wearable.OnFound |
| lib/wearable.js:130 | the `finished` handler throws before emitting `found` | discovery finishing | emit `found` | high; not executed | AsWritten.FinishedStops | Wearable.Wearable.OnFinished |
| lib/bluetooth.js:153 | `findWearable` throws before `serial.inquire()` | any call of `findWearable()` | log the search and start discovery | high; not executed | AsWritten.BluetoothFindWearableStops | Bluetooth.Wearable.FindWearable |
| lib/bluetooth.js:120 | the `found` handler throws before `connect()` | discovery reports a device named `wearable` | log and connect to the device | high; not executed | AsWritten.BluetoothFoundStops | Bluetooth.Wearable.OnFound |
| lib/bluetooth.js:127 | the `finished` handler throws before emitting `found` | discovery finishing | emit `found` | high; not executed | AsWritten.FinishedStops | Bluetooth.Wearable.OnFinished |
| lib/bluetooth.js:185 | `connect` throws before the channel lookup | `connect()` with a device named as configured | look up the channel and open it | high; not executed | AsWritten.BluetoothConnectStops | Bluetooth.Wearable.Connect |
| lib/bluetooth.js:244 | `sendCommand` throws before `serial.write` | `sendCommand('#LR0000')` | log and write the framed command | high; not executed | AsWritten.BluetoothSendCommandStops | Bluetooth.Wearable.SendCommand |
| lib/bluetooth.js:278 | `ledOFF` throws at its first `sendCommand` | `ledOFF()` | write the three LOW commands | high; not executed | AsWritten.BluetoothLedOffStops | Bluetooth.Wearable.LedOff |
| lib/bluetooth.js:312 | `ledON` throws inside `ledOFF()` | `ledON('red', 42)` | write the three LOW commands, then the chosen one | high; not executed | AsWritten.BluetoothLedOnStops | Bluetooth.Wearable.LedOn |
