# midicontroller: a Dafny model of the rack, device and communicator core

This project models the core of a browser MIDI rack controller (swolley/midicontroller,
TypeScript) and proves properties of that model. The parts modelled are:

- the rack store `useRack`: the rack list, the categorised device lists, the move, reorder,
  remove and create actions, the getters, `init`'s grouping, and the persistence serializer;
- the device class `Outboard`: its construction defaults, setters guarded by the stock flag,
  controller add, delete and look-up, `update`, and `toJSON`;
- the communicator base `AbstractComunicator`: disabled ids, the active filters, the
  base converter, and the three-octet trace formatter;
- the two transports' `send` (WebMIDI and HTTP), `Http.init`, and the remote `HttpOutput`
  request description;
- the `Color` class, the `Utils` validators and `ucFirst`, the console store `useConsole`,
  and the `useDevice` composable.

Modules follow the source files:

| module | file | source |
|---|---|---|
| `Wrappers` | wrappers.dfy | `Option`, `Outcome` and `Result`: values that may be missing, and operations that may throw |
| `Numbers` | numbers.dfy | the JavaScript built-ins the code relies on: `toString(radix)`, `parseInt`, `Number.isInteger`, `Math.round`, `trim` |
| `Utils` | utils.dfy | `src/services/classes/Utils.ts` |
| `Color` | color.dfy | `src/services/classes/Color.ts` |
| `Types` | types.dfy | `src/services/types/devices.d.ts`, `enums.ts`, `stores.d.ts` |
| `HttpOutput` | http_output.dfy | `src/services/classes/HttpOutput.ts` |
| `Communicator` | communicator.dfy | `src/services/classes/AbstractComunicator.ts`, plus the port and send-outcome values shared by the transports |
| `Midi` | midi.dfy | `src/services/classes/Midi.ts` |
| `Http` | http.dfy | `src/services/classes/Http.ts` |
| `Outboard` | outboard.dfy | `src/services/classes/Outboard.ts` |
| `Rack` | rack.dfy | `src/stores/useRack.ts` |
| `Console` | console.dfy | `src/stores/useConsole.ts` |
| `UseDevice` | use_device.dfy | `src/composables/useDevice.ts` |

## How the model is built

- Objects whose fields the source updates become classes. `Color.Color`, `Outboard.Outboard`,
  `Communicator.Comunicator`, `Rack.RackStore` and `Console.ConsoleStore` each have a reads
  function (`Value()` or `State()`) that gives their state as a datatype. Each method's
  `ensures` ties the new state to a pure function of the old one, and the properties are proved
  about those functions as lemmas.
- `Rack.RackStore.Valid()` is the store's invariant: `order`, which stands for
  `Object.keys(availableDevices)`, names every key of the map exactly once. The constructor
  establishes it and every method that changes the store requires and keeps it.
- A thrown `Error` is a `Result`/`Outcome` carrying its message.
- An action that catches errors and only logs them returns the message logged, together with
  the store as it was when the error was thrown.
- A `send` is a `SendOutcome` with these parts:
  - the port calls it made, in order;
  - the trace line it wrote;
  - whether it returned a boolean, threw an `Error`, or threw a `TypeError`.
- The key order of `availableDevices` (`Object.keys`, `for ... in`) is an explicit `order` sequence kept beside the map.
- Inputs the code does not compute itself are parameters:
  - the clock reading for `Outboard.key` (`now`);
  - the log id and timestamp;
  - the `validator` library's `isURL`/`isInt` verdicts (function parameters);
  - whether MIDI was found, in `init`.
- JavaScript semantics that matter are written out:
  - `splice` clamps its start, so inserting past the end appends;
  - `substring(-n)` is `substring(0)`, so trace tokens are zero-prefixed but not cut;
  - `<<` is a 32-bit shift;
  - `Math.round` rounds halves up;
  - `parseInt` reads the longest digit prefix.

## Behaviour of the code as written

The model follows the code where it differs from the documentation or from the tests.
The consequences are proved:

- `Http.init` calls `new Http(outputs, disabled)` (src/services/classes/Http.ts:40). The base
  constructor's parameters are `(inputs, outputs, disabled)`
  (src/services/classes/AbstractComunicator.ts:9-13). So the endpoints' outputs become the
  INPUT list, the disabled ids become the output list, and nothing is disabled
  (`Http.InitBinding`). Sending by index on such a communicator never reaches an endpoint
  (`Http.SendByIndexAfterInit`). The test files
  (src/services/__tests__/Http.spec.ts:33, AbstractComunicator.spec.ts:45, Midi.spec.ts:41)
  assume the outputs come first. Their expectations are not proved here.
- The `category` setter throws "Not a valid color" for every non-empty name
  (src/services/classes/Outboard.ts:188-192). A `moveDevice` into another category re-tags the
  device through that setter. By then the device has been spliced out of its source list, so
  it is lost: `Rack.RetagLosesDevice`, `Rack.CrossCategoryMoveLosesDevice`. The setter's
  error is only logged.
- `deleteController` finds the label's index among the LCDs whatever the controller's type.
  It then removes that index from the type's own list (`Outboard.DeleteToggleByLcdPosition`).
- `Midi.send` never returns `false`, although the interface documentation says it returns
  `false` on error (src/services/types/devices.d.ts:147). It returns `true` or throws
  (`Midi.SendNeverFalse`).
- The trace formatter of `getPrintableOctects` does not give fixed-width octets. In base 2,
  control change 7/100 on channel 1 is traced as `0000000010110000 00000000111
  000000001100100` (`Midi.TraceExample`).
- Two things do not survive the colour formats:
  - a colour whose alpha byte `(a / 100) * 255` is not an integer is written by `toHex` with a
    hexadecimal point, which neither parser reads back (`Color.FractionalAlphaUnreadable`);
  - so the alpha 50 read from "#ffffff80" is lost on the next save and load
    (`Color.HalfAlphaIsLost`, `Outboard.FractionalAlphaLostOnReload`).
- `createFromRgb` reads alpha 1 as 1·100 = 100 (`Color.RgbRoundTrip`).

## Model

| member | source | states |
|---|---|---|
| Utils.UcFirst | src/services/classes/Utils.ts:30-33 | "" is returned unchanged; otherwise same length, the first character upper-cased and the rest kept |
| Utils.UcFirstIdempotent | src/services/classes/Utils.ts:30-33 | a second `ucFirst` changes nothing |
| Utils.UnsignedIntIsNat | src/services/classes/Utils.ts:44-49 | an integral number passes exactly when it is at least 0; no fraction passes |
| Utils.MidiChannelIsChannel | src/services/classes/Utils.ts:52-55 | an integral number passes exactly when it is in 1..16; no fraction passes |
| Utils.MidiChannelOfString | src/services/classes/Utils.ts:52-55 | a string passes exactly when `parseInt` reads an integer in 1..16 from it |
| Utils.MidiNoteIsNote | src/services/classes/Utils.ts:58-66 | an integral number passes exactly when it is in 0..127; no fraction passes; `isMidiVelocity` agrees with `isMidiNote` everywhere |
| Utils.IsUrl | src/services/classes/Utils.ts:69-78 | the empty string is never a URL; with `allowLocal` a trimmed "/" or "./" path always is; otherwise the library decides on the trimmed string |
| Utils.IsMidiVelocity | src/services/classes/Utils.ts:64-66 | defers to `isMidiNote`; `MidiNoteIsNote` proves the two equal |
| Utils.IsMidiNote | src/services/classes/Utils.ts:58-61 | the same test for an integer in 0..127; see `MidiNoteIsNote` |
| Utils.IsMidiChannel | src/services/classes/Utils.ts:52-55 | a number, or a string through `parseInt(value, 10)`, passes when it is an integer in 1..16; see `MidiChannelIsChannel` and `MidiChannelOfString` |
| Utils.IsUnsignedInt | src/services/classes/Utils.ts:44-49 | a number passes when it is a non-negative integer; a string is judged by the library's `isInt` with minimum 0, a parameter; proved an iff in `UnsignedIntIsNat` |
| Numbers.NatToStringValue | src/services/classes/Color.ts:58-68 | `parseInt(n.toString(radix), radix)` is `n`: every symbol is a digit of the radix and they read back as `n` |
| Numbers.DigitsShape | src/services/classes/AbstractComunicator.ts:102-107 | the digits of `n` are empty exactly for 0, have no leading zero, and each is a symbol below the base |
| Numbers.Round | src/services/classes/Color.ts:79 | `Math.round` of a finite number, halves rounded towards positive infinity; integers are kept (`RoundOfInteger`) |
| Numbers.ParseInt10 | src/services/classes/Utils.ts:53 | `parseInt(s, 10)`: leading white space skipped, an optional sign, the longest run of decimal digits, `NaN` (`None`) when there is no digit |
| Color.Color.constructor | src/services/classes/Color.ts:7-12 | the components are stored unvalidated, alpha 100 when not given |
| Color.Color.SetR | src/services/classes/Color.ts:17-20 | an integer in 0..255 is stored and nothing else changes; anything else throws the range error and changes nothing |
| Color.Color.SetG | src/services/classes/Color.ts:25-28 | as `SetR`, for green |
| Color.Color.SetB | src/services/classes/Color.ts:33-36 | as `SetR`, for blue |
| Color.Color.SetA | src/services/classes/Color.ts:41-44 | an integer in 0..100 is stored; anything else throws and changes nothing |
| Color.ValidatedValues | src/services/classes/Color.ts:46-48 | an integer passes exactly when it is in 0..max; whatever passes is an integer in range |
| Color.ComponentToHexOfByte | src/services/classes/Color.ts:58-61 | a byte is written as exactly two lower-case hex digits that read back as the byte |
| Color.CreateFromHexRange | src/services/classes/Color.ts:63-69 | accepted exactly for an optional '#' and 6 or 8 hex digits; components are bytes and alpha is in 0..100; otherwise the "not a valid hex value" error |
| Color.AlphaByteRoundTrip | src/services/classes/Color.ts:67 | the alpha byte of an alpha that is a multiple of 20 scales back to that alpha |
| Color.IsValidHexIsSixDigitForm | src/services/classes/Color.ts:83-85 | `isValidHex` holds exactly for what `createFromHex` accepts with six digits, which then has alpha 100 |
| Color.HexRoundTrip | src/services/classes/Color.ts:95-111 | for byte components and an exact alpha, `toJSON` is `toHex()`, nine characters long, and `createFromHex` reads the colour back |
| Color.HexWithoutAlpha | src/services/classes/Color.ts:95-103 | `toHex(false)` is '#' and six digits, accepted by `isValidHex`, and reads back with alpha 100 |
| Color.RgbRoundTripOpaque | src/services/classes/Color.ts:72-93 | `createFromRgb(toRgb(c, false))` is `c` with alpha 100 |
| Color.RgbRoundTrip | src/services/classes/Color.ts:72-93 | `createFromRgb(toRgb(c))` is `c`, except that alpha 1 reads as 100 |
| Color.FractionalAlphaUnreadable | src/services/classes/Color.ts:95-103 | a non-integer alpha byte is written with a '.', and neither `createFromHex` nor `createFromRgb` accepts the result |
| Color.HalfAlphaIsLost | src/services/classes/Color.ts:63-103 | "#ffffff80" reads as alpha 50, whose `toHex` cannot be read back |
| Color.ToHex | src/services/classes/Color.ts:95-103 | '#' and `componentToHex` of red, green and blue, then of the alpha byte `a / 100 * 255` when asked for; see `HexRoundTrip` and `FractionalAlphaUnreadable` |
| Color.ToRgb | src/services/classes/Color.ts:91-93 | the text `rgba(r,g,b,a)`, or `rgb(r,g,b)` without transparency |
| Color.IsValidHex | src/services/classes/Color.ts:83-85 | an optional '#' then exactly three hex pairs; see `IsValidHexIsSixDigitForm` |
| Color.IsTransparent | src/services/classes/Color.ts:87-89 | an alpha of 0; see `TransparentOfHex` |
| Color.AlphaOfByteZero | src/services/classes/Color.ts:66-67 | the alpha byte reads as alpha 0 exactly when it is 0 or 1 |
| Color.TransparentOfHex | src/services/classes/Color.ts:63-89 | transparent black is transparent; a colour read from six hex digits never is; one read from eight is transparent exactly when its alpha pair is at most 01 |
| Color.ToJson | src/services/classes/Color.ts:109-111 | `toHex()` with the alpha pair; see `HexRoundTrip` |
| Color.CreateFromRgb | src/services/classes/Color.ts:72-81 | the first `rgb(...)`/`rgba(...)` match read as components, an alpha of at most 1 scaled by 100, alpha 100 when absent; otherwise the "is not a valid rgb/rgba value" error; see `RgbRoundTrip` |
| Color.CreateFromHex | src/services/classes/Color.ts:63-69 | an optional '#' and three or four hex pairs of either case, the fourth an alpha byte scaled to 0..100 and rounded, alpha 100 when absent; otherwise the "is not a valid hex value" error; see `CreateFromHexRange` |
| Color.ComponentToHex | src/services/classes/Color.ts:58-61 | `c.toString(16)`, with a "0" in front of a single symbol; a byte gives two digits that read back (`ComponentToHexOfByte`) |
| Color.ValidateValue | src/services/classes/Color.ts:46-48 | an integer in 0..max; see `ValidatedValues` |
| HttpOutput.NormalizeBaseUrlDropsOneSlash | src/services/classes/HttpOutput.ts:28 | the stored URL is the trimmed one, less exactly one trailing '/' |
| HttpOutput.ConstructFields | src/services/classes/HttpOutput.ts:27-37 | construction throws, naming the URL as configured, exactly when `isUrl` (local paths allowed) rejects the normalised URL; otherwise id defaults to "http-" + URL, name to the URL, manufacturer is "HTTP" |
| HttpOutput.BlankBaseUrlRejected | src/services/classes/HttpOutput.ts:28-31 | a blank base URL or a lone "/" is always rejected |
| HttpOutput.LocalBaseUrlAccepted | src/services/classes/HttpOutput.ts:28-29 | a normalised URL starting with '/' is accepted whatever the library says |
| HttpOutput.RequestHeadersShape | src/services/classes/HttpOutput.ts:39-54 | the content type comes first, then `Authorization: Bearer <token>` for bearer credentials or `X-API-Key` otherwise |
| HttpOutput.ChannelFieldRoundTrip | src/services/classes/HttpOutput.ts:60-67 | the body's `channel` determines the normalised channel list; a scalar and its singleton list give the same body; any other length is sent as the list |
| HttpOutput.RequestsShape | src/services/classes/HttpOutput.ts:46-91 | both requests are POSTs to their paths below the base URL with the same headers; control change has keys channel, note, velocity in that order, program change only channel and note |
| HttpOutput.ProgramChangeRequest | src/services/classes/HttpOutput.ts:79-81 | a POST to `/midi/program-change`, with body fields channel and note; see `RequestsShape` |
| HttpOutput.ControlChangeRequest | src/services/classes/HttpOutput.ts:65-67 | a POST to `/midi/control-change` under the base URL, with body fields channel, note and velocity; see `RequestsShape` |
| HttpOutput.NormalizeChannels | src/services/classes/HttpOutput.ts:60-63 | a list of channels as it is, one channel as a singleton; see `ChannelFieldRoundTrip` |
| HttpOutput.RequestHeaders | src/services/classes/HttpOutput.ts:39-54 | the content type, then a bearer `Authorization` or an `X-API-Key` header; see `RequestHeadersShape` |
| HttpOutput.Construct | src/services/classes/HttpOutput.ts:27-37 | the constructor: the normalised URL must pass `isUrl` with local paths allowed, else the "invalid baseUrl" error; id and name default from the URL, manufacturer "HTTP"; see `ConstructFields` |
| HttpOutput.NormalizeBaseUrl | src/services/classes/HttpOutput.ts:28 | the base URL trimmed, then one trailing '/' dropped; see `NormalizeBaseUrlDropsOneSlash` |
| Communicator.FindIndex | src/services/classes/AbstractComunicator.ts:39 | -1 exactly when no port has the id, otherwise the first port with it |
| Communicator.Active | src/services/classes/AbstractComunicator.ts:19-29 | the filter keeps exactly the ports whose id is not disabled |
| Communicator.Comunicator.IsActive | src/services/classes/AbstractComunicator.ts:34-36 | the id is not in the disabled array; see `OutputOnlyToggle` |
| Communicator.Comunicator.ActiveInputs | src/services/classes/AbstractComunicator.ts:19-21 | a port is kept exactly when it is an input and its id, if it has one, is active; never longer than the inputs |
| Communicator.Comunicator.ActiveOutputs | src/services/classes/AbstractComunicator.ts:27-29 | the same for the outputs |
| Communicator.ActiveAppend | src/services/classes/AbstractComunicator.ts:19-29 | filtering distributes over concatenation, so the original order is kept |
| Communicator.ActiveOfNothingDisabled | src/services/classes/AbstractComunicator.ts:19-29 | with nothing disabled every port is active |
| Communicator.Comunicator.constructor | src/services/classes/AbstractComunicator.ts:9-13 | the port lists are stored, and the disabled array is the caller's object itself |
| Communicator.Comunicator.Enable | src/services/classes/AbstractComunicator.ts:38-45 | result and new disabled list as `EnableResult`; on success a new array replaces the shared one; the port lists are unchanged |
| Communicator.Comunicator.Disable | src/services/classes/AbstractComunicator.ts:47-54 | result and new disabled list as `DisableResult`, the id pushed onto the shared array |
| Communicator.EnableEffect | src/services/classes/AbstractComunicator.ts:38-45 | succeeds exactly for an input id or a disabled output id, then removes every copy of the id and nothing else; otherwise nothing changes |
| Communicator.DisableEffect | src/services/classes/AbstractComunicator.ts:47-54 | succeeds exactly for an input id or an output id not disabled, then appends the id once; otherwise nothing changes |
| Communicator.OutputOnlyToggle | src/services/classes/AbstractComunicator.ts:38-54 | for an output-only id, a second `disable` fails, and `disable` then `enable` leaves it active |
| Communicator.InputDisabledTwice | src/services/classes/AbstractComunicator.ts:47-54 | an input id is disabled again each time, leaving duplicate entries |
| Communicator.ConvertBase | src/services/classes/AbstractComunicator.ts:89-108 | the reduce and digit loop compute `Converted` |
| Communicator.DigitLoop | src/services/classes/AbstractComunicator.ts:102-106 | the while loop builds the digits of the value in the target base |
| Communicator.ParseDigits | src/services/classes/AbstractComunicator.ts:94-100 | the reduce reads the digits of `n` back as `n` |
| Communicator.ParseAfterZeros | src/services/classes/AbstractComunicator.ts:94-100 | leading zeros do not change the value read |
| Communicator.ParseNegative | src/services/classes/AbstractComunicator.ts:98 | a '-' before decimal digits throws the invalid-digit error |
| Communicator.ParseValueFails | src/services/classes/AbstractComunicator.ts:94-100 | the reduce throws exactly when some symbol is not among the first `from_base` |
| Communicator.ConvertedShape | src/services/classes/AbstractComunicator.ts:89-108 | throws exactly on an invalid digit; otherwise a non-empty string of target digits, with a leading '0' only for "0" |
| Communicator.ConvertedDecimal | src/services/classes/AbstractComunicator.ts:61-63 | a non-negative `String(v)` converts to the digits of `v` ("0" for 0); a negative one throws on '-' |
| Communicator.ConvertRoundTrip | src/services/classes/AbstractComunicator.ts:89-108 | converting a decimal to any base and back to base 10 gives the canonical decimal |
| Communicator.StatusValueOfNibble | src/services/classes/AbstractComunicator.ts:61 | `(messageType << 4) + (channel - 1)` is `messageType * 16 + channel - 1`, a byte for a nibble type |
| Communicator.GetPrintableOctets | src/services/classes/AbstractComunicator.ts:59-79 | the three conversions, padding and joining compute `PrintableOctets` |
| Communicator.PrintableOctetsTokens | src/services/classes/AbstractComunicator.ts:59-79 | a trace exists exactly when all three values are non-negative and is then three padded tokens joined by single spaces; otherwise the '-' error |
| Communicator.TokenReadsBack | src/services/classes/AbstractComunicator.ts:66-76 | a padded token has no space and reads back, padding included, as its value |
| Communicator.Resolve | src/services/classes/Midi.ts:91 | a port given is used as is; an index gives the output at it, and nothing when outside the list |
| Communicator.PrintableOctets | src/services/classes/AbstractComunicator.ts:59-79 | the status, note and velocity converted to the base, padded by the base's switch and joined by spaces; see `PrintableOctetsTokens` |
| Communicator.StatusValue | src/services/classes/AbstractComunicator.ts:61 | `(messageType << 4) + (channel - 1)` with 32-bit shift semantics; see `StatusValueOfNibble` |
| Communicator.Converted | src/services/classes/AbstractComunicator.ts:89-108 | `convertBase`: the value's digits in the target base, "0" for zero, or the reduce's error; see `ConvertedShape` and `ConvertRoundTrip` |
| Communicator.ParseValue | src/services/classes/AbstractComunicator.ts:94-100 | the `reduce` of `convertBase`: the digits' value in the source base, or the "Invalid digit" error for the first symbol outside it read from the end; see `ParseDigits` and `ParseValueFails` |
| Communicator.DisableResult | src/services/classes/AbstractComunicator.ts:47-54 | `disable`'s test and the disabled list it leaves; see `DisableEffect` |
| Communicator.EnableResult | src/services/classes/AbstractComunicator.ts:38-45 | `enable`'s test and the disabled list it leaves; see `EnableEffect` |
| Midi.SendNeverFalse | src/services/classes/Midi.ts:90-105 | `send` never returns `false` |
| Midi.SendTrueExactly | src/services/classes/Midi.ts:90-105 | `true` exactly for a control or program change on a resolved port with a non-negative note (and velocity, for a control change) |
| Midi.ControlChangeSent | src/services/classes/Midi.ts:78-96 | a successful control change made one call with the caller's note, velocity and channel, and traced status, note and velocity in base 2 |
| Midi.ProgramChangeSent | src/services/classes/Midi.ts:84-99 | a successful program change made one call without velocity and traced velocity 0 |
| Midi.SendFailures | src/services/classes/Midi.ts:90-105 | any other kind throws "not handled" before any call; a missing port throws a `TypeError`; a negative note throws after the call |
| Midi.TraceExample | src/services/classes/Midi.ts:80 | the base-2 trace of control change 7/100 on channel 1 is zero-prefixed, not eight bits per octet |
| Midi.Send | src/services/classes/Midi.ts:78-105 | the port calls, trace and result of `send`: a control change or program change on the resolved port, otherwise "not handled"; see `SendTrueExactly` and `SendFailures` |
| Http.ConstructAllSucceeds | src/services/classes/Http.ts:30-38 | the map of endpoints succeeds exactly when every endpoint's output builds |
| Http.ConstructAllOutputs | src/services/classes/Http.ts:30-38 | a successful map holds each endpoint's output, in order, with the shared credentials |
| Http.InitComunicator | src/services/classes/Http.ts:23-46 | no communicator exactly when `Init` fails; otherwise a new one whose lists are `Init`'s arguments |
| Http.InitBinding | src/services/classes/Http.ts:23-46 | fails exactly for missing or empty endpoints or a throwing constructor; otherwise the outputs are the inputs, the disabled ids the outputs, and nothing is disabled |
| Http.SendReturns | src/services/classes/Http.ts:48-80 | never throws; `true` exactly for a control or program change on a resolved port with non-negative note and velocity; at most one call, none for a missing port, a stray value or another kind |
| Http.RemoteControlChange | src/services/classes/Http.ts:62-75 | a control change on a remote output is exactly one call, issuing that output's control-change request with the caller's note, velocity and channel, then `true`; the trace is status 0xb0 + channel - 1, note and velocity in base 2 |
| Http.RemoteProgramChange | src/services/classes/Http.ts:62-75 | a program change on a remote output is exactly one call, issuing its program-change request, then `true`; the trace is status 0xc0 + channel - 1, the note and the caller's velocity |
| Http.SendByIndexAfterInit | src/services/classes/Http.ts:40-60 | on a communicator built by `init`, sending by any index returns `false` with no call |
| Http.Send | src/services/classes/Http.ts:48-80 | a missing output returns `false`; a control change or program change is sent and traced, every error is caught as `false`; see `SendReturns` |
| Http.Init | src/services/classes/Http.ts:23-46 | nothing without endpoints or when a constructor throws, otherwise the arguments of `new Http(outputs, disabled)`; see `InitBinding` |
| Http.ConstructAll | src/services/classes/Http.ts:30-38 | the `map` of the endpoints to outputs with the shared credentials, stopped by the first constructor that throws; see `ConstructAllSucceeds` |
| Outboard.NormalizeList | src/services/classes/Outboard.ts:40-45 | the constructor's loop normalises every controller of a list |
| Outboard.NormalizedBounds | src/services/classes/Outboard.ts:42-43 | `minValue \|\| 0` and `maxValue \|\| 127` set both bounds and keep everything else; the maximum is never 0; normalising twice changes nothing |
| Outboard.NormalizedListFrom | src/services/classes/Outboard.ts:40-45 | every controller of the list is normalised from its original, and a second pass changes nothing |
| Outboard.BuildDefaults | src/services/classes/Outboard.ts:29-55 | id, label, stock and logo from the configuration, key id + clock, channel 1, no output; category "uncategorized" when absent or empty, style "dark", border 0; bounds normalised |
| Outboard.ColorThroughClone | src/services/classes/Outboard.ts:87-106 | after the clone, absent and "transparent" colours are transparent black, an exact `Color` comes back unchanged, a fractional-alpha `Color` becomes transparent black, components are wrapped |
| Outboard.HexReadBack | src/services/classes/Outboard.ts:87-106 | a `toHex` string is parsed as hex, then rgb, else transparent; an exact colour reads back as itself |
| Outboard.SettersGuarded | src/services/classes/Outboard.ts:108-272 | a stock device refuses every setter and controller change with the stock error; a successful setter keeps key, stock, configuration and validity |
| Outboard.CategorySetterRejectsNames | src/services/classes/Outboard.ts:188-192 | accepted exactly for undefined or "", which store "uncategorized"; any other name throws "Not a valid color" |
| Outboard.BorderSizeSetter | src/services/classes/Outboard.ts:167-171 | accepted exactly for sizes at least 0, stored with nothing else changed; otherwise "Not a valid color" |
| Outboard.AddControllerEffect | src/services/classes/Outboard.ts:243-263 | throws "Controller already exists" exactly for a label already in the type's list; LCDs and toggles are appended and then found; rotary and step leave the device unchanged |
| Outboard.DeleteControllerEffect | src/services/classes/Outboard.ts:265-272 | throws "Controller not found" exactly when no LCD has the label; otherwise the index of the first such LCD is removed from the type's list |
| Outboard.DeleteToggleByLcdPosition | src/services/classes/Outboard.ts:265-272 | with LCD "x" and toggles "a", "x", deleting toggle "x" removes toggle "a" |
| Outboard.FindController | src/services/classes/Outboard.ts:274-282 | the loop returns the first controller with the label, LCDs then toggles then rotaries |
| Outboard.CarryValues | src/services/classes/Outboard.ts:59-68 | `update`'s loop normalises each controller and copies the value of the old controller with its label, found LCDs first, then toggles, then rotaries |
| Outboard.UpdateCarriesValues | src/services/classes/Outboard.ts:57-85 | `update` keeps id, key, stock, channel, output and multi-selection, takes label and logo, and every controller gets normalised bounds and the old value by label |
| Outboard.ValidPreserved | src/services/classes/Outboard.ts:29-192 | the category is never empty: after construction, `update`, any successful setter or controller change |
| Outboard.JsonRoundTrip | src/services/classes/Outboard.ts:308-322 | a device rebuilt from its `toJSON()` equals it, apart from the new key, the defaults of the fields `toJSON()` omits, and normalised bounds |
| Outboard.FractionalAlphaLostOnReload | src/services/classes/Outboard.ts:308-322 | a background with a fractional alpha byte is transparent black after `toJSON()` and a rebuild |
| Outboard.Outboard.constructor | src/services/classes/Outboard.ts:29-55 | the new object's state is `Build(config, now)` |
| Outboard.Outboard.Update | src/services/classes/Outboard.ts:57-85 | the new state is `Updated(old state, config)` |
| Outboard.Outboard.Reload | src/services/classes/Outboard.ts:69-78 | the assignments after the configuration is stored: the new state is `Reloaded` |
| Outboard.Outboard.SetId | src/services/classes/Outboard.ts:117-120 | outcome and new state as `Apply(old state, NewId)`: the stock error leaves it unchanged |
| Outboard.Outboard.SetCaption | src/services/classes/Outboard.ts:127-130 | as `SetId`, for the label |
| Outboard.Outboard.SetBackgroundColor | src/services/classes/Outboard.ts:137-140 | as `SetId`; the colour goes through `parseColor` |
| Outboard.Outboard.SetPanelColor | src/services/classes/Outboard.ts:147-150 | as `SetBackgroundColor`, for the panel |
| Outboard.Outboard.SetBorderColor | src/services/classes/Outboard.ts:157-160 | as `SetBackgroundColor`, for the border |
| Outboard.Outboard.SetBorderSize | src/services/classes/Outboard.ts:167-171 | as `Apply(old state, NewBorderSize)`: negative sizes throw and change nothing |
| Outboard.Outboard.SetMultiSelection | src/services/classes/Outboard.ts:178-181 | as `SetId`, for multi-selection |
| Outboard.Outboard.SetCategory | src/services/classes/Outboard.ts:188-192 | as `Apply(old state, NewCategory)`: every non-empty name throws |
| Outboard.Outboard.SetStyle | src/services/classes/Outboard.ts:199-202 | as `SetId`, for the style |
| Outboard.Outboard.SetLogo | src/services/classes/Outboard.ts:209-212 | as `SetId`, for the logo |
| Outboard.Outboard.SetChannel | src/services/classes/Outboard.ts:219-222 | as `SetId`, for the channel |
| Outboard.Outboard.SetOutputInterface | src/services/classes/Outboard.ts:229-232 | as `SetId`, for the output interface |
| Outboard.Outboard.AddController | src/services/classes/Outboard.ts:256-263 | outcome and new controllers as `WithAdded` |
| Outboard.Outboard.DeleteController | src/services/classes/Outboard.ts:265-272 | outcome and new controllers as `WithDeleted` |
| Outboard.Outboard.GetController | src/services/classes/Outboard.ts:274-282 | the first controller with the label, in bucket order |
| Outboard.DeviceJson | src/services/classes/Outboard.ts:308-322 | `toJSON()`: the device as a configuration, colours as hex with alpha; see `JsonRoundTrip` |
| Outboard.WithDeleted | src/services/classes/Outboard.ts:265-272 | `deleteController`: the index among the LCDs removed from the type's list; see `DeleteControllerEffect` |
| Outboard.WithAdded | src/services/classes/Outboard.ts:256-263 | `addController`: stock and duplicate-label errors, otherwise the push onto the type's list; see `AddControllerEffect` |
| Outboard.ControllerList | src/services/classes/Outboard.ts:243-254 | the LCD or toggle list itself, or the rotaries filtered by type |
| Outboard.Apply | src/services/classes/Outboard.ts:108-232 | one setter: the stock error, the border-size and category errors, otherwise the field set; see `SettersGuarded` |
| Outboard.Updated | src/services/classes/Outboard.ts:57-85 | `update`: the new configuration with every controller's old value carried by label; see `UpdateCarriesValues` |
| Outboard.Reloaded | src/services/classes/Outboard.ts:69-78 | the fields `update` re-reads from its configuration; border size and style only when given |
| Outboard.Build | src/services/classes/Outboard.ts:29-55 | the constructor's fields from the cloned configuration, with the bound defaults and "uncategorized"; see `BuildDefaults` |
| Outboard.ParseColor | src/services/classes/Outboard.ts:87-106 | nothing or "transparent" is transparent black, a `Color` is kept, a string is read as hex, then as rgb, then taken as transparent; see `HexReadBack` |
| Outboard.Clone | src/services/classes/Utils.ts:82-90 | `ObjectUtils.clone` of a configuration: each `Color` becomes its `toJSON()` hex string, every other field is kept; see `ColorThroughClone` |
| Rack.TakenOut | src/stores/useRack.ts:37 | `splice(i, 1)`: one element shorter, the elements before `i` kept and those after shifted down |
| Rack.PutIn | src/stores/useRack.ts:40 | `splice(i, 0, x)`: `x` inserted at `i`, or appended when `i` is past the end, every other element kept in order |
| Rack.MoveRefused | src/stores/useRack.ts:12-38 | a -1, negative or too-large index throws its message and changes nothing; `fromIdx` equal to the length passes the check, removes nothing and throws "Unable to remove" |
| Rack.MoveBetween | src/stores/useRack.ts:37-40 | between two lists without a re-tag, exactly the element at `fromIdx` leaves the source and is inserted at `toIdx`; every other list is unchanged |
| Rack.MoveWithin | src/stores/useRack.ts:37-40 | within one list, `toIdx` applies after the removal, so the old length appends; the list keeps its elements; other lists are unchanged |
| Rack.ReinsertKeepsElements | src/stores/useRack.ts:37-40 | taking an element out and putting it back anywhere keeps the multiset |
| Rack.RetagLosesDevice | src/stores/useRack.ts:37-40 | a re-tag to a non-empty name, or of a stock device, throws after the device left its list, and it is inserted nowhere |
| Rack.TotalWithList | src/stores/useRack.ts:77-78 | replacing one list changes `totalDevices` by the difference in length |
| Rack.MoveCounts | src/stores/useRack.ts:24-42 | a move keeps the store well formed; a successful one keeps `totalDevices`; a failing re-tag loses exactly one device |
| Rack.UnknownCategoryChangesNothing | src/stores/useRack.ts:116-158 | a source or destination category that is not a key throws "Category … not available", which is caught, and nothing changes |
| Rack.MoveToRackEffect | src/stores/useRack.ts:116-125 | a device not found throws and changes nothing; otherwise the device found by id leaves its category and is inserted into the rack at `toIdx` |
| Rack.ReorderEffect | src/stores/useRack.ts:126-138 | the element at `fromIdx`, whatever its id, moves to `toIdx` within the rack (when "rack" is passed) or the device's category; nothing else changes |
| Rack.ReorderRackEffect | src/stores/useRack.ts:139-141 | reorders the rack and never touches the categories |
| Rack.CrossCategoryMoveLosesDevice | src/stores/useRack.ts:142-158 | into another named category, the device found is spliced out and never inserted; the setter's error is logged and `totalDevices` drops by one |
| Rack.MoveBackToStoreEffect | src/stores/useRack.ts:159-161 | throws uncaught exactly when the category is not a key; otherwise a rack device found by id is appended to its category |
| Rack.FirstHolder | src/stores/useRack.ts:164-170 | the first key, in key order, whose list holds the id |
| Rack.RemoveEffect | src/stores/useRack.ts:162-172 | a stock device, or one no list holds, changes nothing; otherwise only the first holding category loses its first device with the id; the rack is never touched |
| Rack.FlatMembers | src/stores/useRack.ts:61-63 | a device is in `Object.values(...).flat()` exactly when some category's list holds it |
| Rack.DeviceGetter | src/stores/useRack.ts:58-73 | `device` prefers the rack's match; it finds nothing exactly when no list has the id; what it finds has the id; `storeDevice` finds one exactly when a category holds the id |
| Rack.NewDeviceShape | src/stores/useRack.ts:173-191 | a non-stock device with id and label "device-" + (totalDevices + 1), category "uncategorized", no controllers, transparent background |
| Rack.Defaulted | src/stores/useRack.ts:90 | a configuration without a category gets "uncategorized" |
| Rack.MembersHaveCategory | src/stores/useRack.ts:89-97 | every device grouped under a key has that category |
| Rack.GroupedSpec | src/stores/useRack.ts:89-99 | the grouping has no rack; its keys are exactly the configurations' categories; each list holds that category's devices in input order; one device per configuration |
| Rack.Jsons | src/stores/useRack.ts:221 | every device through `toJSON()`, in order |
| Rack.CategoriesRoundTrip | src/stores/useRack.ts:219-244 | the serialized categories read back with the same key order and every list rebuilt |
| Rack.PersistRoundTrip | src/stores/useRack.ts:219-251 | deserializing a serialized well-formed store gives its key order and, list by list, every device rebuilt from its `toJSON()` |
| Rack.BuildItemsFails | src/stores/useRack.ts:234-236 | rebuilding a list fails exactly when some element is not a configuration |
| Rack.CategoryListsFail | src/stores/useRack.ts:238-244 | the categories fail exactly when some key's array has such an element |
| Rack.CategoryListsStore | src/stores/useRack.ts:238-244 | otherwise they give a well-formed store whose keys are the object's, each list rebuilt from its value |
| Rack.CategoryListsOrder | src/stores/useRack.ts:240-243 | distinct keys are kept in their order |
| Rack.DeserializeFallbacks | src/stores/useRack.ts:229-251 | unparsable or non-object text gives empty collections, as does a throwing constructor; a non-array `rackDevices` gives no rack; a non-object `availableDevices` gives no categories; a non-array category value gives an empty list |
| Rack.NoKeysNoOrder | src/stores/useRack.ts:83 | in a well-formed store the key list is empty exactly when the map has no category, so `init`'s test on `Object.keys(...).length` is a test for no categories |
| Rack.RackStore.constructor | src/stores/useRack.ts:45-56 | no devices and no categories; `Valid` holds |
| Rack.RackStore.MoveDevice | src/stores/useRack.ts:24-42 | the new state and the thrown message are `Move`'s; `Valid` is kept |
| Rack.RackStore.MoveDeviceToRack | src/stores/useRack.ts:116-125 | the new state and the logged message are `MoveToRack`'s; `Valid` is kept |
| Rack.RackStore.ReorderCategoryDevices | src/stores/useRack.ts:126-138 | the new state and the logged message are `Reorder`'s; `Valid` is kept |
| Rack.RackStore.ReorderRackDevices | src/stores/useRack.ts:139-141 | the new state and the logged message are `ReorderRack`'s; `Valid` is kept |
| Rack.RackStore.MoveDeviceToCategory | src/stores/useRack.ts:142-158 | the new state and the logged message are `MoveToCategory`'s; `Valid` is kept |
| Rack.RackStore.MoveDeviceBackToStore | src/stores/useRack.ts:159-161 | an unknown category escapes uncaught with nothing changed; otherwise as `MoveBackToStore`; `Valid` is kept |
| Rack.RackStore.RemoveDevice | src/stores/useRack.ts:162-172 | the loop with `break` leaves the state `Remove` gives; `Valid` is kept |
| Rack.RackStore.CreateNewDevice | src/stores/useRack.ts:173-191 | a fresh device object whose state is `NewDevice` of the store; the store is not modified |
| Rack.RackStore.Init | src/stores/useRack.ts:81-115 | with no categories yet, the categories become the grouping of the configurations and the rack is kept; otherwise nothing changes; the result is whether MIDI was found; `Valid` is kept |
| Rack.Group | src/stores/useRack.ts:84-99 | the `forEach` that pushes into `groups` computes `Grouped` |
| Rack.Deserialize | src/stores/useRack.ts:229-251 | the restored collections, with each fallback of the deserializer; see `DeserializeFallbacks` and `PersistRoundTrip` |
| Rack.CategoryLists | src/stores/useRack.ts:238-244 | the category lists rebuilt key by key in key order; see `CategoryListsStore` |
| Rack.BuildItems | src/stores/useRack.ts:235 | `new Outboard(d)` for each element of a device list, failing on an element that is not a configuration; see `BuildItemsFails` |
| Rack.Serialize | src/stores/useRack.ts:219-226 | the persisted value: the rack and each category through `toJSON()`, category keys in order; see `PersistRoundTrip` |
| Rack.Grouped | src/stores/useRack.ts:89-99 | `init`'s grouping of configurations by category, keys in first-seen order; see `GroupedSpec` |
| Rack.NewDeviceConfig | src/stores/useRack.ts:174-187 | the configuration `createNewDevice` builds for the current count; see `NewDeviceShape` |
| Rack.DeviceById | src/stores/useRack.ts:58-64 | the `device` getter: the rack's match first, then the flattened categories; see `DeviceGetter` |
| Rack.RackDevice | src/stores/useRack.ts:66-68 | the `rackDevice` getter: the first rack device with the id; see `DeviceGetter` |
| Rack.StoreDevice | src/stores/useRack.ts:69-73 | the `storeDevice` getter: the first device with the id in the flattened categories; see `DeviceGetter` |
| Rack.FindById | src/stores/useRack.ts:60 | `find` by id: the first device with the id |
| Rack.Flat | src/stores/useRack.ts:61-63 | `Object.values(availableDevices).flat()` in key order; see `FlatMembers` |
| Rack.TotalDevices | src/stores/useRack.ts:77-78 | the `totalDevices` getter: the lengths of every category list and the rack; see `TotalWithList` |
| Rack.Remove | src/stores/useRack.ts:162-172 | `removeDevice`: the first id match of the first category in key order spliced out, nothing for a stock device; see `RemoveEffect` |
| Rack.MoveBackToStore | src/stores/useRack.ts:159-161 | `moveDeviceBackToStore`: to the end of the device's category, `None` when that read throws uncaught; see `MoveBackToStoreEffect` |
| Rack.MoveToCategory | src/stores/useRack.ts:142-158 | `moveDeviceToCategory` from the rack or the device's category to another category; see `CrossCategoryMoveLosesDevice` |
| Rack.ReorderRack | src/stores/useRack.ts:139-141 | `reorderRackDevices`, the reorder on the rack; see `ReorderRackEffect` |
| Rack.Reorder | src/stores/useRack.ts:126-138 | `reorderCategoryDevices` within the rack or the device's category; see `ReorderEffect` |
| Rack.MoveToRack | src/stores/useRack.ts:116-125 | `moveDeviceToRack` from the device's category into the rack, errors caught and logged; see `MoveToRackEffect` |
| Rack.Move | src/stores/useRack.ts:12-42 | `moveDevice`: the refusals, the splice out, the re-tag into another category and the splice in, with the store and the thrown message; see `MoveRefused`, `MoveBetween` and `MoveCounts` |
| Console.LogTypeOf | src/stores/useConsole.ts:13-16 | the log type recorded for a console method is the one named like it |
| Console.LogTypeNames | src/stores/useConsole.ts:20-22 | `isLogType` holds exactly for the names of the log types other than "success" |
| Console.IsLogType | src/stores/useConsole.ts:20-22 | "info", "warn" or "error"; see `LogTypeNames` |
| Console.JoinSnoc | src/stores/useConsole.ts:30 | joining one more part adds a single space and the part |
| Console.MessageSnoc | src/stores/useConsole.ts:30 | the message ends with the last argument rendered, after a single space |
| Console.LoggedShape | src/stores/useConsole.ts:25-31 | the new entry is first; the rest are a prefix of the previous list, in order, at most 19; the list holds at most 20 |
| Console.LoggedDropsOldest | src/stores/useConsole.ts:25-26 | a full list keeps its 19 most recent entries, each moved up one place |
| Console.ConsoleStore.constructor | src/stores/useConsole.ts:6 | the list starts empty |
| Console.ConsoleStore.Log | src/stores/useConsole.ts:24-34 | the list becomes `Logged` of the old list and the new entry |
| Console.Logged | src/stores/useConsole.ts:25-33 | the new entry first, then the first 19 previous entries; see `LoggedShape` |
| Console.Message | src/stores/useConsole.ts:30 | the arguments rendered (objects as JSON text) and joined by single spaces; see `MessageSnoc` |
| UseDevice.Use | src/composables/useDevice.ts:5-33 | `hasPatch` exactly when some LCD sends program change; the lists returned are the device's own; nothing is modified |
| UseDevice.BuiltHasPatch | src/composables/useDevice.ts:12-24 | a constructed device has a patch exactly when its configuration has a program-change LCD |
| UseDevice.HasPatch | src/composables/useDevice.ts:12-24 | some LCD sends program changes; see `BuiltHasPatch` |

## Left out

- `Midi.init`, `onMIDIMessage`, WebMIDI probing, and the `Promise.race` timeout: platform I/O, not modelled. A WebMIDI port is a value holding its id, name and manufacturer.
- Midi.Send: the port's `sendControlChange` and `sendProgramChange` are foreign library calls, recorded as a `PortCall` that never fails. The library's own checks on its arguments (a controller, value or program outside its accepted range, which it may reject by throwing before anything is sent) are not modelled, so `true` for any non-negative note and velocity holds of the model, not necessarily of the library. `Midi.SendTrueExactly` and `Midi.SendFailures` inherit this.
- `HttpOutput._request`'s `fetch`, `AbortController`, timeout and promise handlers: network I/O. The request is modelled as a value (URL, method, headers, body fields). Responses and rejections are only logged, so nothing reaches the caller.
- The `validator` library (`isURL`, `isInt`): foreign code, passed in as predicates. `Validators.isColor` and `getOffset` (a DOM walk) are not part of this model.
- Color.Color.constructor: the random component used when one is not given is left out (randomness); components are always given. Components are integers. The source stores any number, and `toHex` of a fractional component such as 12.5 writes a '.' ("c.8"); fractional red, green and blue components are not modelled.
- Outboard.ParseColor: a `{r, g, b, a}` object with fractional components is not modelled, for the same reason; its components are read as integers.
- Color.CreateFromRgb: a decimal alpha such as "0.5" is read exactly, without floating-point rounding. An alpha of only dots (NaN in JavaScript) is modelled as an error.
- Color.ToHex: for an alpha whose byte is not an integer, the digits after the point are an exact expansion cut at 13 digits. They do not reproduce the engine's floating-point `toString(16)`; only the '.' matters to what is proved.
- `ObjectUtils.clone` and `JSON.stringify`/`JSON.parse` are identity on plain records, except that a `Color` object in a configuration becomes its `toJSON()` hex string. The serialized text is a parsed `Value` tree; a parse failure is `None`.
- Rack.Deserialize: `new Outboard` throws only on a `null` element of a device list; a number, string, boolean or array element builds a device whose every field is `undefined` (category "uncategorized"). The model treats every element that is not an object as throwing, which empties both collections, so `{"rackDevices":[1],"availableDevices":{"a":[]}}` restores nothing here although the source restores one device and the key "a".
- Rack.BuildItemsFails: the model's device lists fail on every element that is not a `Config`, including an object that does not read as a device configuration (a `Record`, such as `{}`). The source builds a device from any object (`new Outboard({})` gives one whose fields are `undefined`), so `{"rackDevices":[{}]}` restores one device there and nothing here.
- Rack.CategoryListsFail: for the same reason, a category list holding a `Record` element makes the model's category lists fail, where the source builds a device from it.
- Rack.DeserializeFallbacks: a `Record` element in any device list empties both collections, where the source builds a device. An `availableDevices` value that reads as a device configuration (a `Config`) gives no categories in the model; in the source it is an object, so each of its keys becomes a category with an empty list, since none of a configuration's fields is an array of devices.
- Object key order: integer-like keys (which JavaScript lists first) and keys inherited through the prototype (`in`) are not modelled. `order` is insertion order.
- Outboard.FindController: `getController` visits the buckets with `for ... in` over the configuration's `controllers` object, so in its key order. The model always visits LCDs, then toggles, then rotaries. Two controllers with the same label in different buckets are found in the fixed order, which can differ from the source's when the configuration lists the buckets in another order.
- Outboard.Outboard.GetController: the same fixed bucket order as `Outboard.FindController`.
- Outboard.CarryValues: the old value of a controller is looked up through `Outboard.FindController`, so with the fixed bucket order. With a label repeated across buckets, the value carried can differ from the source's.
- Outboard.UpdateCarriesValues: states the carried values with the same fixed bucket order as `Outboard.CarryValues`.
- The `init` sort comparator is left out. It is not a consistent ordering, so its result depends on the engine's sort. The configurations are taken as already ordered.
- `Date`: the device key takes a clock reading `now`, one reading for all devices a call builds; log ids and timestamps are parameters.
- Console interception (replacing `console.info`/`warn`/`error`) and every logging call: I/O. An argument is a string, an integer, a boolean, `undefined`, or an object given by its JSON text.
- The `interfaces` getter of `useRack` is not modelled: it concatenates the communicators' active outputs, which `Communicator.Active` covers.
- Rack.RackStore: the store holds device values (`Outboard.Device`), not shared `Outboard` objects, so aliasing between the store and a caller's device object is not modelled. `device` being an object with a `category` differing from the listed copy is covered by passing the device value separately.
- UseDevice.Use: the returned lists are the device's own values; Vue's `reactive` proxy and the aliasing of the arrays are not modelled.
- `src/services/decorators.ts` (`Object.seal`, constructor wrapping), Pinia, Vue, `main.ts`, `vite.config.ts`: plumbing with no behavioural contract.
- Unicode: `toUpperCase` is modelled for a-z only; other characters are unchanged.
- `Communicator.Comunicator`: the `inputs`/`outputs` getters are the fields themselves.
- The test files are read as evidence only; their expectations about the HTTP binding are not proved.
