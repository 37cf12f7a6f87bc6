# xplane-connect: a verified model of the control core

xplane-connect links a small USB control panel to the X-Plane flight
simulator. The panel has a keypad and two rotary encoders, and it talks over a
serial line. The simulator is reached over UDP through NASA's XPlaneConnect
plugin. The project models the five pieces that make up the control path,
one Dafny module per source file:

- `Stepper` (`stepper.dfy`): the two position steppers of `utils/stepper.ts`.
  Each is a closure that keeps a cursor. It turns absolute encoder positions
  into step counts (`makeStepper`, `Math.floor`) or into unit up/down calls
  (`makeStepperUpDown`, `Math.imul(delta, 1)`, so truncation toward zero and a
  32-bit wrap). Each closure is a class. Its `Update` is proved against a
  specification function, and the runs of several updates are proved free of
  drift.
- `DeviceG43` (`device_g43.dfy`): the serial line codec of
  `devices/DeviceG43.ts`. It covers the tab-separated outbound frame
  `#call`, the inbound decoder `#onMessage`, and the message description and
  handler tables. The frame round trip (join, then split) is proved, as is
  the dispatch of every tag.
- `XPlane` (`xplane.dfy`): the datagram client of `XPlane.ts`. It covers
  the opcodes GETD/DREF/COMM with their pad byte and length-prefixed names,
  the `RESP` check of a response, and the stack of pending read callbacks
  (last pushed, first served). Every request the client can encode is proved
  to parse back. A well-formed response is proved to read back the values it
  carries.
- `SimC172G430` (`sim_c172g430.dfy`): the binding helpers of
  `models/SimC172G430.ts`. These are command bindings and read-write or
  read-only data-ref bindings, which forward to the client and reshape
  scalars and lists.
- `AppC72G43` (`app_c72g43.dfy`): the keyboard-layout state machine of
  `apps/AppC72G43.ts`. It covers eight layouts with their sub-layouts, the
  modes of the big and small encoders, click and rotation routing, and the
  resynchronisation of an encoder when its binding changes. The app's
  effects are recorded in order in an action log. Its mode invariant is
  proved to survive every click.
- `Wrappers` (`wrappers.dfy`): `Option` and `Result`.

Where the system's described behaviour and its code disagree, the model
follows the code. The two defects listed under "## Findings" are the
exception: the classes use the corrected behaviour, and the code as written
is modelled beside it (`EncodeLineAsWritten`, `SmallResyncAsWritten`). The
differences are listed under "## Left out". Other disagreements:
- After positions 0.0 → 1.6, the stepper's cursor is `prev + steps` (1.0), not
  the position minus its remainder (0.6). The whole-step carry is the same
  either way.
- `makeStepper` calls its callback once with the signed step count. It does
  not make one call per unit.
- No rotation wraps modulo 360, and no encoder is bound through a stepper. The
  app writes each encoder position, scaled, directly to the bound data ref.
- The app starts in the Avionics layout with both encoders unbound. Its
  constructor does not call `#selectLayout`.
- The Navigation layout has no key branch, so every non-layout key there does
  nothing.

## Model

| member | source | states |
|---|---|---|
| Stepper.Floor | utils/stepper.ts:6 | Math.floor: the result is the greatest integer not above x |
| Stepper.Trunc | utils/stepper.ts:21 | truncation toward zero: floor for non-negative x, minus floor of -x otherwise, within 1 of x |
| Stepper.WrapInt32 | utils/stepper.ts:21 | the signed 32-bit value congruent to n modulo 2^32; the identity inside the 32-bit range |
| Stepper.Imul1 | utils/stepper.ts:21 | Math.imul(x, 1) always lies in the signed 32-bit range |
| Stepper.Imul1Truncates | utils/stepper.ts:21 | inside ±2^31, Math.imul(x, 1) is x truncated toward zero, less than one away from x |
| Stepper.FloorStep | utils/stepper.ts:5-6 | the step count is the whole part of position - cursor: steps <= delta < steps + 1 |
| Stepper.Report | utils/stepper.ts:10-12 | the callback is not called for zero steps and is called once with the count otherwise |
| Stepper.FloorRunTotal | utils/stepper.ts:4-13 | no drift: over any run of positions the reported steps sum to floor(last position - initial cursor), however the run is chunked |
| Stepper.FloorRunExample | utils/stepper.ts:4-13 | positions 0.0 → 1.6 → 3.1 report 1 step, then 2 |
| Stepper.FloorStepper.constructor | utils/stepper.ts:1-2 | the cursor starts at `initial`, nothing reported |
| Stepper.FloorStepper.FromZero | utils/stepper.ts:1-2 | the default initial cursor is 0 |
| Stepper.FloorStepper.Update | utils/stepper.ts:4-13 | the cursor advances by the floor step, which is reported unless zero; the fractional carry stays in [0, 1); the cursor is always initial + sum of reports, and that sum is floor(position - initial) |
| Stepper.UpDownStep | utils/stepper.ts:20-21 | inside ±2^31 the step count is the truncated delta, less than one from it; always a 32-bit integer |
| Stepper.Pulses | utils/stepper.ts:27-34 | abs(steps) calls, all `up` for positive steps and all `down` for negative ones, never both |
| Stepper.NetPulses | utils/stepper.ts:27-34 | the calls made for a step count contribute exactly that count to ups minus downs |
| Stepper.UpDownRunRising | utils/stepper.ts:19-35 | on a rising run of positions, only `up` is called, and floor(last - initial cursor) times in all |
| Stepper.UpDownStepper.constructor | utils/stepper.ts:16-17 | the cursor starts at `initial`, no calls made |
| Stepper.UpDownStepper.FromZero | utils/stepper.ts:16-17 | the default initial cursor is 0 |
| Stepper.UpDownStepper.Update | utils/stepper.ts:19-35 | the loop makes the calls Pulses(step) in order and the cursor advances by the step; the cursor always equals initial + ups - downs; inside ±2^31 the new cursor is less than one from the position |
| DeviceG43.Split | devices/DeviceG43.ts:86 | split yields at least one piece and no piece holds the separator |
| DeviceG43.SplitJoin | devices/DeviceG43.ts:79-86 | splitting the join of separator-free pieces gives the pieces back |
| DeviceG43.JoinSplit | devices/DeviceG43.ts:86 | joining the pieces of a split gives the line back |
| DeviceG43.Decimal | devices/DeviceG43.ts:79 | the text of a command code is a non-empty string of decimal digits |
| DeviceG43.ParseNumber | devices/DeviceG43.ts:87 | Number("") is 0; any other text with a number value holds a digit |
| DeviceG43.DecimalValue | devices/DeviceG43.ts:79 | the digits written for n have value n |
| DeviceG43.ParseDecimal | devices/DeviceG43.ts:87 | Number() reads the decimal text of n back as n |
| DeviceG43.SignedDecimal | devices/DeviceG43.ts:87 | the text of any integer: no tab or newline, a minus sign exactly before a negative value |
| DeviceG43.ParseSignedDecimal | devices/DeviceG43.ts:87 | Number() reads the text of any integer, negative ones included, back as that integer |
| DeviceG43.EscapeFirstTabCount | devices/DeviceG43.ts:80 | the string-pattern replace removes at most one tab, so a second tab survives |
| DeviceG43.EscapeFirstTabOneTab | devices/DeviceG43.ts:80 | on text with at most one tab the string-pattern replace escapes every tab |
| DeviceG43.EscapeTabsClean | devices/DeviceG43.ts:80 | replacing every tab leaves none, keeps newlines as they were, and changes nothing in tab-free text |
| DeviceG43.EscapeAll | devices/DeviceG43.ts:79-80 | each argument is escaped in place, in order |
| DeviceG43.EncodeLineShape | devices/DeviceG43.ts:77-83 | a line is the decimal code, a tab, the joined arguments and a final newline; with no arguments it is code, tab, newline |
| DeviceG43.EncodeLineSplit | devices/DeviceG43.ts:77-86 | framing round trip: the line without its newline splits into the code and then each argument with its tabs escaped, a tab-free argument unchanged; with no arguments, the code and one empty field |
| DeviceG43.EncodeLineAsWrittenAgrees | devices/DeviceG43.ts:77-83 | as written, the line equals the fully escaped one when no argument holds two tabs, and tab-free arguments split back whole after the code |
| DeviceG43.EncodeLineAsWrittenSplitsArgument | devices/DeviceG43.ts:80 | as written, the argument "a\t\tb" is read back as two arguments "a\\t" and "b" |
| DeviceG43.BuildEvent | devices/DeviceG43.ts:97-103 | one field per descriptor, in descriptor order, field i converted from argument i or from undefined past the end |
| DeviceG43.Decode | devices/DeviceG43.ts:85-106 | an event is emitted only for tags 1, 3 and 4 |
| DeviceG43.DecodeUnknownTag | devices/DeviceG43.ts:87-95 | a NaN tag, or one without a handler or a description, emits nothing |
| DeviceG43.DecodeByTag | devices/DeviceG43.ts:108-123 | tag 1 emits a rotation with Number(args[0]) and Number(args[1]), tag 2 nothing, 3 a click and 4 a long click |
| DeviceG43.DecodeRotateLine | devices/DeviceG43.ts:24-29 | the line `1\t<delta>\t<position>` decodes to a rotation carrying those numbers, negative ones included |
| DeviceG43.Device.Call | devices/DeviceG43.ts:77-83 | one framed line is written, with every tab of every argument escaped (the corrected frame), and nothing is emitted |
| DeviceG43.Device.FillEvent | devices/DeviceG43.ts:99-103 | the loop fills one field per descriptor, named and converted as described |
| DeviceG43.Device.OnMessage | devices/DeviceG43.ts:85-106 | at most one event is emitted per line, the one the decoder gives; nothing is written |
| XPlane.Opcode | XPlane.ts:6-10 | every opcode is four bytes |
| XPlane.OpcodesDistinct | XPlane.ts:6-10 | the three opcodes differ from each other and from "RESP" |
| XPlane.PackWords | XPlane.ts:132 | packing k values gives 4k bytes |
| XPlane.UnpackWords | XPlane.ts:124 | unpacking n values succeeds exactly when 4n bytes are there, and gives n values |
| XPlane.UnpackPackWords | XPlane.ts:124 | unpacking reads back what was packed, whatever follows it |
| XPlane.PackUnpackWords | XPlane.ts:124 | packing what was unpacked gives back the bytes read |
| XPlane.PackB | XPlane.ts:121 | a 'B' field packs exactly the values below 256, unchanged |
| XPlane.Frame | XPlane.ts:101 | a datagram is the 4-byte opcode, one zero byte, then the payload |
| XPlane.EncodeSucceeds | XPlane.ts:118-146 | a request packs exactly when its name length (and value count) fits a byte and the values match the format |
| XPlane.EncodeLayout | XPlane.ts:118-146 | byte layout of GETD (1, n, name), DREF (n, name, count, values) and COMM (n, name) after the frame |
| XPlane.ParseEncode | XPlane.ts:118-146 | every datagram the client can send parses back to the request it encodes |
| XPlane.CheckResponse | XPlane.ts:105-111 | a response is accepted exactly when it starts with "RESP", and then yields its bytes from offset 5; any other tag is rejected with that tag |
| XPlane.DecodeDataRef | XPlane.ts:124-126 | the count and row-length bytes are dropped; the values are read exactly when enough bytes follow, and they repack to those bytes |
| XPlane.ReadResponseRejectsOtherTags | XPlane.ts:105-109 | a response not tagged "RESP" never yields values |
| XPlane.ReadResponseRoundTrip | XPlane.ts:118-127 | reading a well-formed one-ref response gives the values it carries |
| XPlane.Client.constructor | XPlane.ts:26 | no callbacks pending, nothing sent |
| XPlane.Client.Request | XPlane.ts:82-97 | the datagram is sent; a callback is pushed only when a response is expected and the send succeeded; a failed send rejects |
| XPlane.Client.Query | XPlane.ts:99-112 | a framed request that waits on a freshly pushed callback |
| XPlane.Client.Call | XPlane.ts:114-116 | a framed request that resolves on send with no callback pushed |
| XPlane.Client.GetDataRef | XPlane.ts:118-127 | sends the encoded GETD and awaits one callback; a name too long to pack rejects before sending |
| XPlane.Client.SendDataRef | XPlane.ts:129-139 | sends the encoded DREF without waiting; values that cannot be packed reject before sending |
| XPlane.Client.Command | XPlane.ts:141-146 | sends the encoded COMM without waiting |
| XPlane.Client.OnMessage | XPlane.ts:61-79 | an inbound datagram goes to the most recently pushed callback, which is removed; with none waiting it is reported unclaimed and the stack is unchanged |
| XPlane.LastInFirstServed | XPlane.ts:71 | of two reads in flight, the first datagram to arrive is handed to the second read |
| SimC172G430.UnwrapWrap | models/SimC172G430.ts:39-55 | a scalar written is read back as that scalar, a longer array as the array; one-element arrays come back as scalars, empty ones as undefined |
| SimC172G430.WrapUnwrap | models/SimC172G430.ts:39-55 | writing back what was read sends the same value list |
| SimC172G430.InvokeSendsName | models/SimC172G430.ts:33-37 | a command binding sends one COMM datagram carrying exactly its name |
| SimC172G430.GetSetSameRef | models/SimC172G430.ts:63-68 | get and set of one binding address the same name; set packs with the binding's format |
| SimC172G430.ReadonlyHasNoSet | models/SimC172G430.ts:57-61 | a read-only binding has no setter and reads like a read-write one |
| SimC172G430.ReadBackWrittenScalar | models/SimC172G430.ts:39-55 | when the plugin answers with the value last written, get() resolves to that scalar |
| SimC172G430.Sim.Invoke | models/SimC172G430.ts:33-37 | one COMM datagram is sent and nothing is awaited |
| SimC172G430.Sim.Get | models/SimC172G430.ts:39-49 | every get() sends a fresh GETD and awaits its own callback |
| SimC172G430.Sim.Set | models/SimC172G430.ts:51-55 | set() sends one DREF carrying the wrapped value list and awaits nothing |
| SimC172G430.ReadTwice | models/SimC172G430.ts:39-49 | two reads send two identical datagrams: no caching |
| AppC72G43.Round | apps/AppC72G43.ts:555 | Math.round: within one half of x, halves rounded up |
| AppC72G43.SelectLayoutResets | apps/AppC72G43.ts:560-594 | selecting a layout gives a state that depends on the layout alone: sub-layouts reset, the layout's encoders bound and resynchronised; it keeps the invariant and is idempotent |
| AppC72G43.LayoutKeysSelect | apps/AppC72G43.ts:101-127 | each layout is selected from any mode by exactly one column-1 key and press length |
| AppC72G43.LongPressOnlyOnLayoutKeys | apps/AppC72G43.ts:128-500 | off column 1 a long press acts like a short one, and no such click changes the layout |
| AppC72G43.KeysActWithinLayout | apps/AppC72G43.ts:128-500 | a key outside column 1 never selects a layout; sub-layout and encoder changes happen only in the layout that owns them |
| AppC72G43.ClickKeepsCoherent | apps/AppC72G43.ts:101-501 | every click keeps the mode invariant: inactive sub-layouts at their defaults, encoder bindings those of the active layout |
| AppC72G43.Gx30KeysRebind | apps/AppC72G43.ts:602-624 | on a GNS layout the sub-layout keys bind that side's encoders and issue no read |
| AppC72G43.RotationWritesBoundRef | apps/AppC72G43.ts:503-558 | a rotation writes at most one ref, exactly when its mode is bound; a small mode is rotatable exactly when it resynchronises |
| AppC72G43.ResyncReadsRotatedRef | apps/AppC72G43.ts:644-683 | a resynchronisation reads exactly one ref, the one a rotation of that encoder writes, and pushes to that encoder |
| AppC72G43.ResyncRotateRoundTrip | apps/AppC72G43.ts:503-683 | an encoder set to the pushed value of v and rotated there writes v back; for vertical speed, when v is a whole number of hundreds |
| AppC72G43.VerticalSpeedKeyMatchesResync | apps/AppC72G43.ts:429-434 | the vertical-speed key pushes round(v / 100), as the corrected resynchronisation does |
| AppC72G43.SmallResyncAgrees | apps/AppC72G43.ts:644-667 | the corrected resynchronisation equals the code as written exactly for the modes other than Autopilot |
| AppC72G43.AutopilotResyncAsWrittenDrifts | apps/AppC72G43.ts:663 | as written, a vertical speed of 500 puts the encoder at 50000 and the next rotation writes 5000000 |
| AppC72G43.App.constructor | apps/AppC72G43.ts:68-74 | every mode field at its default, no effects yet, invariant holds |
| AppC72G43.App.EncoderBigSetter | apps/AppC72G43.ts:632-636 | records a read whose value is pushed to the big encoder |
| AppC72G43.App.EncoderSmallSetter | apps/AppC72G43.ts:638-642 | records a read whose value is pushed to the small encoder |
| AppC72G43.App.SelectBigEncoderMode | apps/AppC72G43.ts:669-683 | only the big mode changes; altitude pressure and pitch adjust resynchronise scaled by 100 and 5 |
| AppC72G43.App.SelectSmallEncoderMode | apps/AppC72G43.ts:644-667 | only the small mode changes; the heading, drift, OBS2 and ADF modes resynchronise raw, vertical speed as round(v / 100), the corrected push of line 663 |
| AppC72G43.App.SelectLayout | apps/AppC72G43.ts:560-594 | the state and effects of selecting a layout as above |
| AppC72G43.App.SelectSystemLayout | apps/AppC72G43.ts:596-600 | only the systems sub-layout changes; no effect |
| AppC72G43.App.SelectGx30Layout | apps/AppC72G43.ts:602-624 | the GNS sub-layout changes and, on a GNS layout, that side's encoders are bound |
| AppC72G43.App.SelectTransponderLayout | apps/AppC72G43.ts:626-630 | only the transponder sub-layout changes; no effect |
| AppC72G43.App.AvionicsClick | apps/AppC72G43.ts:129-168 | flaps 0, 0.333, 0.666 and 1 on column 2, the timer, light, brake and trim commands on columns 3 and 4 |
| AppC72G43.App.SystemsClick | apps/AppC72G43.ts:169-258 | column 2 picks the engine, electrical or light sub-layout; the sub-layout picks the command |
| AppC72G43.App.EngineClick | apps/AppC72G43.ts:181-208 | engine sub-layout: row 1 to 4 of column 3 turn the magnetos off, right, left, both; C4_R2 toggles the fuel pump; the unfinished starter and tank keys do nothing |
| AppC72G43.App.ElectroClick | apps/AppC72G43.ts:209-232 | electrical sub-layout: column 3 toggles master alternator, master battery, bus 1, bus 2; column 4 does nothing |
| AppC72G43.App.LightClick | apps/AppC72G43.ts:233-257 | light sub-layout: navigation, taxi, landing on C3_R1..C3_R3, beacon on C4_R1, strobe on C4_R3; the other keys do nothing |
| AppC72G43.App.AdfClick | apps/AppC72G43.ts:259-288 | two keys rebind the encoders (heading only, or big and small ADF); the rest do nothing |
| AppC72G43.App.Gx30Click | apps/AppC72G43.ts:289-398 | only the left and right sub-layout keys act |
| AppC72G43.App.AutopilotClick | apps/AppC72G43.ts:399-435 | HDG, NAV, APR, REV and ALT commands; VS also pushes round(vertical speed / 100) to the small encoder |
| AppC72G43.App.TransponderClick | apps/AppC72G43.ts:436-500 | IDENT, the mode or code sub-layout, then ALT/ON/STBY/OFF or the digits 1 3 5 7 / 2 4 6 0 |
| AppC72G43.App.TransponderModeClick | apps/AppC72G43.ts:451-472 | transponder mode sub-layout: column 4 sets ALT, ON, STBY, OFF; column 3 (test not implemented) does nothing |
| AppC72G43.App.TransponderCodeClick | apps/AppC72G43.ts:473-499 | transponder code sub-layout: each key of columns 3 and 4 enters its digit (1 3 5 7 / 2 4 6 0) |
| AppC72G43.App.HandleKeyboardClick | apps/AppC72G43.ts:101-501 | mode and effects follow the click table of the active layout; the invariant is kept |
| AppC72G43.App.HandleEncoderRotate | apps/AppC72G43.ts:503-558 | a rotation never changes the mode and issues the bound mode's write |

## Left out

- Serial port, UDP socket, console logging and the event emitters: the
  device's written lines, the client's sent datagrams and the app's effects
  are logs. Whether a send succeeds is a parameter.
- Promise timing: a read whose value is pushed to an encoder is one
  `ReadThenPush` action. The push happens when the read resolves.
- IEEE-754 values: a packed 'f' value is an opaque 4-byte word. The app's
  arithmetic on positions uses exact reals, not doubles.
- Formats: only lists of 'f' codes, the only code the binding catalog uses.
- Names are byte strings. The JavaScript string-to-byte conversion of
  python-struct's 's' code is not part of this model.
- The catalog of data-ref and command names in `models/SimC172G430.ts`
  (lines 70 on) is configuration, not logic. The app names its refs and
  commands by catalog path.
- `index.ts` and `DeviceC72G43.ts` are not part of this model. The app
  expects a panel device with button events and encoder-position commands.
  `DeviceG43` offers only the small-encoder messages and `Reset`, so the app
  is modelled against its own event and action types.
- The `delta` of a rotation event is accepted and ignored, as the app
  ignores it.
- DeviceG43.ParseNumber: reads an optional sign and decimal digits (or "" as
  0). Decimals, exponents, surrounding whitespace and hex text become NaN
  here, unlike JavaScript's Number().
- DeviceG43.Device.Call: writes arguments given as their text. `String(val)`
  of non-string values is not modelled. It writes the corrected frame
  `EncodeLine`, which escapes every tab. Line 80 of devices/DeviceG43.ts
  escapes only the first tab of each argument (`EncodeLineAsWritten`; see
  "## Findings"). The two lines differ only when an argument holds two or
  more tabs (`EncodeLineAsWrittenAgrees`).
- AppC72G43.App.SelectSmallEncoderMode: for the Autopilot small mode it pushes
  round(v / 100), the corrected resynchronisation `SmallResync`. Line 663 of
  apps/AppC72G43.ts pushes v × 100 (`SmallResyncAsWritten`; see
  "## Findings"). The other small modes are as written (`SmallResyncAgrees`).
- AppC72G43.App.SelectLayout: selecting the Autopilot layout uses that
  corrected vertical-speed push. The as-written push of line 663 is not
  what the class records.
- AppC72G43.App.HandleKeyboardClick: a short press of C1_R4 selects the
  Autopilot layout and so records the corrected vertical-speed push, not the
  v × 100 of line 663.
- Stepper.UpDownRunRising: only rising runs that stay within 2^31 of the
  cursor are characterised. For other runs the model has the per-update
  contract alone.
- AppC72G43.ResyncRotateRoundTrip: the vertical-speed round trip is exact
  only for whole hundreds. Otherwise rounding moves it by up to 50.

## Findings

| source | as written | input that shows it | evidently intended | confidence | as-written member | corrected member |
|---|---|---|---|---|---|---|
| devices/DeviceG43.ts:80 | `String(val).replace("\t", "\\t")` escapes only the first tab of an argument | argument "a\t\tb": the line `1\ta\\t\tb\n` splits into the arguments "a\\t" and "b" | every tab escaped, so each argument stays one field | high; not executed | DeviceG43.EncodeLineAsWrittenSplitsArgument | DeviceG43.EncodeLineSplit |
| apps/AppC72G43.ts:663 | selecting the autopilot small mode pushes vertical speed × 100 to the encoder | vertical speed 500: encoder at 50000, and the next rotation writes round(50000) × 100 = 5000000 | push round(v / 100), the inverse of the rotation at line 555 and what the VS key pushes at line 433 | high; not executed | AppC72G43.AutopilotResyncAsWrittenDrifts | AppC72G43.ResyncRotateRoundTrip |
