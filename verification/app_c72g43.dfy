/**
 * The control router of apps/AppC72G43.ts: a keyboard-layout state machine
 * that turns button clicks and encoder rotations into simulator commands,
 * data-ref writes and reads whose value is pushed back to an encoder.
 *
 * The simulator and the device are not called here: every effect the app
 * would cause is appended, in order, to the `actions` log of `App`. A read
 * followed by a push to an encoder is one `ReadThenPush` action; the value
 * it eventually pushes is `Pushed(push, v)` for the value `v` read.
 */
module AppC72G43 {

  datatype KeyboardLayout = Avionics | Systems | Navigation | ADF | G530 | G430 | Autopilot | Transponder

  datatype EncoderBigMode =
    | None | AltPressure | PitchAdjust | OBS1 | ADFBig
    | G530LeftBig | G530RightBig | G430LeftBig | G430RightBig

  datatype EncoderSmallMode =
    | None | HeadingBug | GyroCompassAdjust | OBS2 | ADFHeading | ADFSmall
    | G530LeftSmall | G530RightSmall | G430LeftSmall | G430RightSmall | Autopilot

  datatype KeyboardSystemLayout = Engine | Electro | Light

  datatype KeyboardGx30Layout = Left | Right

  datatype KeyboardTransponderLayout = Mode | Code

  /** The keys of the device: the encoder push button and a 4 x 4 grid (column, row). */
  datatype Button =
    | Encoder
    | C1_R1 | C1_R2 | C1_R3 | C1_R4
    | C2_R1 | C2_R2 | C2_R3 | C2_R4
    | C3_R1 | C3_R2 | C3_R3 | C3_R4
    | C4_R1 | C4_R2 | C4_R3 | C4_R4

  /** The data refs of the simulator interface the app reads or writes. */
  datatype Ref =
    | FlapsRatio
    | AvionicsAltPressure | AvionicsHorizonAdjust | AvionicsHeadingBug | AvionicsDriftAdjust
    | NavigationNav1 | NavigationNav2 | NavigationADFHeading
    | AutopilotVerticalSpeed

  /** The commands of the simulator interface the app invokes. */
  datatype Cmd =
    | TimerSelectMode | TimerControlStartStop
    | LightLanding | LightTaxi | LightNavigation | LightBeacon | LightStrobe
    | BrakesRegular | BrakesMax | TrimDown | TrimUp
    | EngineMagnetosOff | EngineMagnetosRight | EngineMagnetosLeft | EngineMagnetosBoth | EngineFuelPump
    | ElectricalMasterAlternator | ElectricalMasterBattery | ElectricalBus1 | ElectricalBus2
    | AutopilotHDG | AutopilotNAV | AutopilotAPR | AutopilotREV | AutopilotALT | AutopilotVS
    | TransponderIDENT | TransponderALT | TransponderON | TransponderSTBY | TransponderOFF
    | TransponderDigit(digit: int)

  datatype Encoder = Big | Small

  /** How a value read from the simulator is transformed before it is pushed to an encoder. */
  datatype Push = Raw | Scaled(factor: real) | RoundedPer100

  /** One effect of the app on the simulator or the device. */
  datatype Action =
    | Invoke(cmd: Cmd)
    | Write(ref: Ref, value: real)
    | ReadThenPush(ref: Ref, push: Push, encoder: Encoder)

  /** The six mode fields of the app. */
  datatype ModeState = ModeState(
    layout: KeyboardLayout,
    system: KeyboardSystemLayout,
    gx30: KeyboardGx30Layout,
    transponder: KeyboardTransponderLayout,
    big: EncoderBigMode,
    small: EncoderSmallMode)

  /** Every field at its enum default; the constructor does not select a layout, so no encoder is bound. */
  const Initial := ModeState(Avionics, Engine, Left, Mode, EncoderBigMode.None, EncoderSmallMode.None)

  /** A new mode and the actions issued on the way to it. */
  datatype Outcome = Outcome(state: ModeState, actions: seq<Action>)

  /** Math.round: the nearest integer, halves rounded up. */
  function Round(x: real): (n: int)
    ensures x - 0.5 < n as real <= x + 0.5
  {
    (x + 0.5).Floor
  }

  /** The value pushed to the encoder when `v` is read. */
  function Pushed(p: Push, v: real): real
  {
    match p
    case Raw => v
    case Scaled(k) => v * k
    case RoundedPer100 => Round(v / 100.0) as real
  }

  // ---------------------------------------------------------------------
  // Encoder resynchronisation and rotation
  // ---------------------------------------------------------------------

  /** What selecting a big-encoder mode reads and pushes; the other modes push nothing. */
  function BigResync(mode: EncoderBigMode): seq<Action>
  {
    match mode
    case AltPressure => [ReadThenPush(AvionicsAltPressure, Scaled(100.0), Big)]
    case PitchAdjust => [ReadThenPush(AvionicsHorizonAdjust, Scaled(5.0), Big)]
    case _ => []
  }

  /** What selecting a small-encoder mode reads and pushes, as written: vertical speed is pushed times 100. */
  function SmallResyncAsWritten(mode: EncoderSmallMode): seq<Action>
  {
    match mode
    case HeadingBug => [ReadThenPush(AvionicsHeadingBug, Raw, Small)]
    case OBS2 => [ReadThenPush(NavigationNav2, Raw, Small)]
    case GyroCompassAdjust => [ReadThenPush(AvionicsDriftAdjust, Raw, Small)]
    case ADFHeading => [ReadThenPush(NavigationADFHeading, Raw, Small)]
    case Autopilot => [ReadThenPush(AutopilotVerticalSpeed, Scaled(100.0), Small)]
    case _ => []
  }

  /**
   * The small-encoder resynchronisation the model uses: vertical speed is
   * pushed as round(v / 100), the inverse of the rotation's round(p) * 100
   * and the push the vertical-speed button does.
   */
  function SmallResync(mode: EncoderSmallMode): seq<Action>
  {
    if mode == EncoderSmallMode.Autopilot then [ReadThenPush(AutopilotVerticalSpeed, RoundedPer100, Small)]
    else SmallResyncAsWritten(mode)
  }

  /** The corrected resynchronisation departs from the code as written only for the autopilot mode. */
  lemma SmallResyncAgrees(mode: EncoderSmallMode)
    ensures SmallResync(mode) == SmallResyncAsWritten(mode) <==> mode != EncoderSmallMode.Autopilot
  {
  }

  /** What a rotation of the big (`big`) or small encoder to `position` writes, per the bound mode. */
  function RotateActions(s: ModeState, position: real, big: bool): seq<Action>
  {
    if big then
      match s.big
      case AltPressure => [Write(AvionicsAltPressure, position / 100.0)]
      case PitchAdjust => [Write(AvionicsHorizonAdjust, position / 5.0)]
      case OBS1 => [Write(NavigationNav1, position)]
      case ADFBig => [Write(NavigationADFHeading, position)]
      case _ => []
    else
      match s.small
      case HeadingBug => [Write(AvionicsHeadingBug, position)]
      case GyroCompassAdjust => [Write(AvionicsDriftAdjust, position)]
      case OBS2 => [Write(NavigationNav2, position)]
      case ADFHeading => [Write(NavigationADFHeading, position)]
      case Autopilot => [Write(AutopilotVerticalSpeed, Round(position) as real * 100.0)]
      case _ => []
  }

  // ---------------------------------------------------------------------
  // Layout selection
  // ---------------------------------------------------------------------

  /** The encoder modes of a GNS 530 / 430 layout for its left or right sub-layout. */
  function Gx30Encoders(l: KeyboardLayout, g: KeyboardGx30Layout): (EncoderBigMode, EncoderSmallMode)
    requires l == G530 || l == G430
  {
    match (l, g)
    case (G530, Left) => (G530LeftBig, G530LeftSmall)
    case (G530, Right) => (G530RightBig, G530RightSmall)
    case (_, Left) => (G430LeftBig, G430LeftSmall)
    case (_, Right) => (G430RightBig, G430RightSmall)
  }

  /** The encoder modes a layout binds when it is selected. */
  function LayoutEncoders(l: KeyboardLayout): (EncoderBigMode, EncoderSmallMode)
  {
    match l
    case Avionics => (AltPressure, HeadingBug)
    case Systems => (PitchAdjust, GyroCompassAdjust)
    case Navigation => (OBS1, OBS2)
    case ADF => (EncoderBigMode.None, ADFHeading)
    case G530 => Gx30Encoders(G530, Left)
    case G430 => Gx30Encoders(G430, Left)
    case Autopilot => (EncoderBigMode.None, EncoderSmallMode.Autopilot)
    case Transponder => (EncoderBigMode.None, EncoderSmallMode.None)
  }

  /** Binding the big then the small encoder: both modes set, both resynchronised in that order. */
  function SelectEncoders(s: ModeState, big: EncoderBigMode, small: EncoderSmallMode): Outcome
  {
    Outcome(s.(big := big, small := small), BigResync(big) + SmallResync(small))
  }

  /** #selectLayout: the layout set, every sub-layout reset, the layout's encoders bound. */
  function SelectLayoutOutcome(s: ModeState, l: KeyboardLayout): Outcome
  {
    var reset := ModeState(l, Engine, Left, Mode, s.big, s.small);
    SelectEncoders(reset, LayoutEncoders(l).0, LayoutEncoders(l).1)
  }

  /** #selectGx30Layout: the sub-layout set; on a GNS layout its encoders are rebound. */
  function SelectGx30Outcome(s: ModeState, g: KeyboardGx30Layout): Outcome
  {
    var s1 := s.(gx30 := g);
    if s.layout == G530 || s.layout == G430 then
      SelectEncoders(s1, Gx30Encoders(s.layout, g).0, Gx30Encoders(s.layout, g).1)
    else
      Outcome(s1, [])
  }

  // ---------------------------------------------------------------------
  // Keyboard clicks
  // ---------------------------------------------------------------------

  /** What a click does, before it is applied to a mode. */
  datatype Behaviour =
    | Nothing
    | Run(acts: seq<Action>)
    | ToLayout(layout: KeyboardLayout)
    | ToSystemLayout(system: KeyboardSystemLayout)
    | ToGx30Layout(gx30: KeyboardGx30Layout)
    | ToTransponderLayout(transponder: KeyboardTransponderLayout)
    | ToEncoders(big: EncoderBigMode, small: EncoderSmallMode)

  function Apply(s: ModeState, b: Behaviour): Outcome
  {
    match b
    case Nothing => Outcome(s, [])
    case Run(acts) => Outcome(s, acts)
    case ToLayout(l) => SelectLayoutOutcome(s, l)
    case ToSystemLayout(x) => Outcome(s.(system := x), [])
    case ToGx30Layout(g) => SelectGx30Outcome(s, g)
    case ToTransponderLayout(t) => Outcome(s.(transponder := t), [])
    case ToEncoders(big, small) => SelectEncoders(s, big, small)
  }

  function Command(c: Cmd): Behaviour
  {
    Run([Invoke(c)])
  }

  function AvionicsBehaviour(button: Button): Behaviour
  {
    match button
    case C2_R1 => Run([Write(FlapsRatio, 0.0)])
    case C2_R2 => Run([Write(FlapsRatio, 0.333)])
    case C2_R3 => Run([Write(FlapsRatio, 0.666)])
    case C2_R4 => Run([Write(FlapsRatio, 1.0)])
    case C3_R1 => Command(TimerSelectMode)
    case C3_R2 => Command(LightLanding)
    case C3_R3 => Command(BrakesRegular)
    case C3_R4 => Command(BrakesMax)
    case C4_R1 => Command(TimerControlStartStop)
    case C4_R2 => Command(LightTaxi)
    case C4_R3 => Command(TrimDown)
    case C4_R4 => Command(TrimUp)
    case _ => Nothing
  }

  function EngineBehaviour(button: Button): Behaviour
  {
    match button
    case C3_R1 => Command(EngineMagnetosOff)
    case C3_R2 => Command(EngineMagnetosRight)
    case C3_R3 => Command(EngineMagnetosLeft)
    case C3_R4 => Command(EngineMagnetosBoth)
    case C4_R2 => Command(EngineFuelPump)
    case _ => Nothing
  }

  function ElectroBehaviour(button: Button): Behaviour
  {
    match button
    case C3_R1 => Command(ElectricalMasterAlternator)
    case C3_R2 => Command(ElectricalMasterBattery)
    case C3_R3 => Command(ElectricalBus1)
    case C3_R4 => Command(ElectricalBus2)
    case _ => Nothing
  }

  function LightBehaviour(button: Button): Behaviour
  {
    match button
    case C3_R1 => Command(LightNavigation)
    case C3_R2 => Command(LightTaxi)
    case C3_R3 => Command(LightLanding)
    case C4_R1 => Command(LightBeacon)
    case C4_R3 => Command(LightStrobe)
    case _ => Nothing
  }

  /** Column 2 picks the sub-layout (its fourth key does nothing); the other keys act per sub-layout. */
  function SystemsBehaviour(system: KeyboardSystemLayout, button: Button): Behaviour
  {
    if button.C2_R1? then ToSystemLayout(Engine)
    else if button.C2_R2? then ToSystemLayout(Electro)
    else if button.C2_R3? then ToSystemLayout(Light)
    else if button.C2_R4? then Nothing
    else if system.Engine? then EngineBehaviour(button)
    else if system.Electro? then ElectroBehaviour(button)
    else LightBehaviour(button)
  }

  function AdfBehaviour(button: Button): Behaviour
  {
    match button
    case C2_R1 => ToEncoders(EncoderBigMode.None, ADFHeading)
    case C2_R2 => ToEncoders(ADFBig, ADFSmall)
    case _ => Nothing
  }

  /** The GNS 530 and 430 layouts: only the sub-layout keys do something. */
  function Gx30Behaviour(button: Button): Behaviour
  {
    match button
    case C2_R3 => ToGx30Layout(Left)
    case C2_R4 => ToGx30Layout(Right)
    case _ => Nothing
  }

  function AutopilotBehaviour(button: Button): Behaviour
  {
    match button
    case C2_R1 => Command(AutopilotHDG)
    case C3_R1 => Command(AutopilotNAV)
    case C4_R1 => Command(AutopilotAPR)
    case C4_R2 => Command(AutopilotREV)
    case C4_R3 => Command(AutopilotALT)
    case C4_R4 => Run([Invoke(AutopilotVS), ReadThenPush(AutopilotVerticalSpeed, RoundedPer100, Small)])
    case _ => Nothing
  }

  function TransponderModeBehaviour(button: Button): Behaviour
  {
    match button
    case C4_R1 => Command(TransponderALT)
    case C4_R2 => Command(TransponderON)
    case C4_R3 => Command(TransponderSTBY)
    case C4_R4 => Command(TransponderOFF)
    case _ => Nothing
  }

  /** The code keys: column 3 enters 1 3 5 7, column 4 enters 2 4 6 0. */
  function TransponderCodeBehaviour(button: Button): Behaviour
  {
    match button
    case C3_R1 => Command(TransponderDigit(1))
    case C3_R2 => Command(TransponderDigit(3))
    case C3_R3 => Command(TransponderDigit(5))
    case C3_R4 => Command(TransponderDigit(7))
    case C4_R1 => Command(TransponderDigit(2))
    case C4_R2 => Command(TransponderDigit(4))
    case C4_R3 => Command(TransponderDigit(6))
    case C4_R4 => Command(TransponderDigit(0))
    case _ => Nothing
  }

  function TransponderBehaviour(transponder: KeyboardTransponderLayout, button: Button): Behaviour
  {
    if button.Encoder? then Nothing
    else if button.C2_R1? then Command(TransponderIDENT)
    else if button.C2_R3? then ToTransponderLayout(Mode)
    else if button.C2_R4? then ToTransponderLayout(Code)
    else if transponder.Mode? then TransponderModeBehaviour(button)
    else TransponderCodeBehaviour(button)
  }

  /** A click that is not a layout key, per the active layout; the Navigation layout has no keys. */
  function LayoutBehaviour(s: ModeState, button: Button): Behaviour
  {
    match s.layout
    case Avionics => AvionicsBehaviour(button)
    case Systems => SystemsBehaviour(s.system, button)
    case Navigation => Nothing
    case ADF => AdfBehaviour(button)
    case G530 => Gx30Behaviour(button)
    case G430 => Gx30Behaviour(button)
    case Autopilot => AutopilotBehaviour(button)
    case Transponder => TransponderBehaviour(s.transponder, button)
  }

  /** #handleKeyboardClick: column 1 selects a layout (long press: the second layout of the key). */
  function ClickBehaviour(s: ModeState, button: Button, long: bool): Behaviour
  {
    if button.C1_R1? then ToLayout(if long then Systems else Avionics)
    else if button.C1_R2? then ToLayout(if long then ADF else Navigation)
    else if button.C1_R3? then ToLayout(if long then G430 else G530)
    else if button.C1_R4? then ToLayout(if long then Transponder else KeyboardLayout.Autopilot)
    else LayoutBehaviour(s, button)
  }

  predicate IsLayoutKey(button: Button)
  {
    button.C1_R1? || button.C1_R2? || button.C1_R3? || button.C1_R4?
  }

  /** The key and press length that selects each layout. */
  function LayoutKey(l: KeyboardLayout): (Button, bool)
  {
    match l
    case Avionics => (C1_R1, false)
    case Systems => (C1_R1, true)
    case Navigation => (C1_R2, false)
    case ADF => (C1_R2, true)
    case G530 => (C1_R3, false)
    case G430 => (C1_R3, true)
    case Autopilot => (C1_R4, false)
    case Transponder => (C1_R4, true)
  }

  // ---------------------------------------------------------------------
  // The mode invariant
  // ---------------------------------------------------------------------

  /** The encoders bound are those the active layout (and its sub-layout) selects. */
  ghost predicate EncodersFit(s: ModeState)
  {
    match s.layout
    case Avionics => (s.big, s.small) == LayoutEncoders(Avionics) || s == Initial
    case ADF =>
      (s.big, s.small) == (EncoderBigMode.None, ADFHeading) || (s.big, s.small) == (ADFBig, ADFSmall)
    case G530 => (s.big, s.small) == Gx30Encoders(G530, s.gx30)
    case G430 => (s.big, s.small) == Gx30Encoders(G430, s.gx30)
    case _ => (s.big, s.small) == LayoutEncoders(s.layout)
  }

  /** Sub-layouts of inactive layouts stay at their defaults and no encoder binding is stale. */
  ghost predicate Coherent(s: ModeState)
  {
    && (s.layout != Systems ==> s.system == Engine)
    && (s.layout != G530 && s.layout != G430 ==> s.gx30 == Left)
    && (s.layout != Transponder ==> s.transponder == Mode)
    && EncodersFit(s)
  }

  /** Selecting a layout gives a state that depends on the layout alone, keeps the invariant, and reads what it binds. */
  lemma SelectLayoutResets(s: ModeState, t: ModeState, l: KeyboardLayout)
    ensures SelectLayoutOutcome(s, l) == SelectLayoutOutcome(t, l)
    ensures var o := SelectLayoutOutcome(s, l);
      && Coherent(o.state)
      && o.state.layout == l
      && (o.state.big, o.state.small) == LayoutEncoders(l)
      && o.actions == BigResync(o.state.big) + SmallResync(o.state.small)
    ensures SelectLayoutOutcome(SelectLayoutOutcome(s, l).state, l) == SelectLayoutOutcome(s, l)
  {
  }

  /** Each layout is selected by exactly one layout key and press length, from any mode. */
  lemma LayoutKeysSelect(s: ModeState, l: KeyboardLayout, button: Button, long: bool)
    ensures IsLayoutKey(LayoutKey(l).0)
    ensures ClickBehaviour(s, LayoutKey(l).0, LayoutKey(l).1) == ToLayout(l)
    ensures IsLayoutKey(button) ==>
      ClickBehaviour(s, button, long).ToLayout? && LayoutKey(ClickBehaviour(s, button, long).layout) == (button, long)
  {
  }

  /**
   * A key outside column 1 never selects a layout; it switches a sub-layout
   * or rebinds encoders only within the layout that owns them.
   */
  lemma KeysActWithinLayout(s: ModeState, button: Button)
    requires !IsLayoutKey(button)
    ensures var b := LayoutBehaviour(s, button);
      && !b.ToLayout?
      && (b.ToSystemLayout? ==> s.layout == Systems)
      && (b.ToGx30Layout? ==> s.layout == G530 || s.layout == G430)
      && (b.ToTransponderLayout? ==> s.layout == Transponder)
      && (b.ToEncoders? ==>
            s.layout == ADF &&
            ((b.big, b.small) == (EncoderBigMode.None, ADFHeading) || (b.big, b.small) == (ADFBig, ADFSmall)))
  {
    match s.layout
    case Avionics => assert LayoutBehaviour(s, button) == AvionicsBehaviour(button);
    case Systems =>
    case Navigation =>
    case ADF => assert LayoutBehaviour(s, button) == AdfBehaviour(button);
    case G530 => assert LayoutBehaviour(s, button) == Gx30Behaviour(button);
    case G430 => assert LayoutBehaviour(s, button) == Gx30Behaviour(button);
    case Autopilot => assert LayoutBehaviour(s, button) == AutopilotBehaviour(button);
    case Transponder =>
  }

  /** Only the layout keys tell a long press from a short one; no other click changes the layout. */
  lemma LongPressOnlyOnLayoutKeys(s: ModeState, button: Button)
    requires !IsLayoutKey(button)
    ensures ClickBehaviour(s, button, true) == ClickBehaviour(s, button, false)
    ensures Apply(s, ClickBehaviour(s, button, true)).state.layout == s.layout
  {
    KeysActWithinLayout(s, button);
  }

  /** Every click keeps the mode invariant. */
  lemma ClickKeepsCoherent(s: ModeState, button: Button, long: bool)
    requires Coherent(s)
    ensures Coherent(Apply(s, ClickBehaviour(s, button, long)).state)
  {
    var b := ClickBehaviour(s, button, long);
    if IsLayoutKey(button) {
      SelectLayoutResets(s, s, b.layout);
    } else {
      KeysActWithinLayout(s, button);
      var t := Apply(s, b).state;
      match b
      case Nothing => assert t == s;
      case Run(_) => assert t == s;
      case ToSystemLayout(x) => assert t == s.(system := x);
      case ToTransponderLayout(x) => assert t == s.(transponder := x);
      case ToGx30Layout(g) => assert (t.big, t.small) == Gx30Encoders(s.layout, g);
      case ToEncoders(big, small) => assert t == s.(big := big, small := small);
    }
  }

  /** A click on a GNS layout's sub-layout key binds that side's encoders, with no read. */
  lemma Gx30KeysRebind(s: ModeState, button: Button, long: bool)
    requires s.layout == G530 || s.layout == G430
    requires button == C2_R3 || button == C2_R4
    ensures var o := Apply(s, ClickBehaviour(s, button, long));
      && o.state.gx30 == (if button == C2_R3 then Left else Right)
      && (o.state.big, o.state.small) == Gx30Encoders(s.layout, o.state.gx30)
      && o.actions == []
  {
  }

  // ---------------------------------------------------------------------
  // Resynchronisation against rotation
  // ---------------------------------------------------------------------

  /** At most one write per rotation, and only for a bound mode; a small mode is rotatable exactly when it resynchronises. */
  lemma RotationWritesBoundRef(s: ModeState, position: real, big: bool)
    ensures |RotateActions(s, position, big)| <= 1
    ensures forall a :: a in RotateActions(s, position, big) ==> a.Write?
    ensures big ==> (RotateActions(s, position, big) != [] <==> s.big in {AltPressure, PitchAdjust, OBS1, ADFBig})
    ensures !big ==> (RotateActions(s, position, big) != [] <==> SmallResync(s.small) != [])
    ensures big && BigResync(s.big) != [] ==> RotateActions(s, position, big) != []
  {
  }

  /** A resynchronisation reads the very ref that a rotation of the same encoder writes. */
  lemma ResyncReadsRotatedRef(s: ModeState, position: real)
    ensures BigResync(s.big) != [] ==>
      && |BigResync(s.big)| == 1 && BigResync(s.big)[0].encoder == Big
      && BigResync(s.big)[0].ref == RotateActions(s, position, true)[0].ref
    ensures SmallResync(s.small) != [] ==>
      && |SmallResync(s.small)| == 1 && SmallResync(s.small)[0].encoder == Small
      && SmallResync(s.small)[0].ref == RotateActions(s, position, false)[0].ref
  {
  }

  lemma RoundInteger(k: int)
    ensures Round(k as real) == k
  {
  }

  /**
   * Resynchronisation round trip: when an encoder is set to the pushed
   * value of `v` and rotated there without moving, the rotation writes `v`
   * back (for vertical speed, when `v` is a whole number of hundreds).
   */
  lemma ResyncRotateRoundTrip(s: ModeState, big: bool, v: real, k: int)
    ensures var r := if big then BigResync(s.big) else SmallResync(s.small);
      r != [] && r[0].push != RoundedPer100 ==>
        RotateActions(s, Pushed(r[0].push, v), big) == [Write(r[0].ref, v)]
    ensures !big && s.small == EncoderSmallMode.Autopilot ==>
      RotateActions(s, Pushed(SmallResync(s.small)[0].push, 100.0 * k as real), false)
        == [Write(AutopilotVerticalSpeed, 100.0 * k as real)]
  {
    if !big && s.small == EncoderSmallMode.Autopilot {
      calc {
        Pushed(RoundedPer100, 100.0 * k as real);
        Round(k as real) as real;
        { RoundInteger(k); }
        k as real;
      }
      RoundInteger(k);
    }
  }

  /** The vertical-speed key pushes what the corrected resynchronisation pushes. */
  lemma VerticalSpeedKeyMatchesResync(s: ModeState)
    requires s.layout == KeyboardLayout.Autopilot
    ensures Apply(s, ClickBehaviour(s, C4_R4, false)).actions[1] == SmallResync(EncoderSmallMode.Autopilot)[0]
  {
  }

  /**
   * As written, selecting the autopilot small mode pushes 100 times the
   * vertical speed: a read of 500 puts the encoder at 50000, and the next
   * rotation event there writes 5000000.
   */
  lemma AutopilotResyncAsWrittenDrifts(s: ModeState)
    requires s.small == EncoderSmallMode.Autopilot
    ensures SmallResyncAsWritten(s.small) == [ReadThenPush(AutopilotVerticalSpeed, Scaled(100.0), Small)]
    ensures Pushed(SmallResyncAsWritten(s.small)[0].push, 500.0) == 50000.0
    ensures RotateActions(s, 50000.0, false) == [Write(AutopilotVerticalSpeed, 5000000.0)]
  {
    RoundInteger(50000);
  }

  // ---------------------------------------------------------------------
  // The app
  // ---------------------------------------------------------------------

  class App {
    var layout: KeyboardLayout
    var layoutSystem: KeyboardSystemLayout
    var layoutGx30: KeyboardGx30Layout
    var layoutTransponder: KeyboardTransponderLayout
    var encoderBigMode: EncoderBigMode
    var encoderSmallMode: EncoderSmallMode
    /** Every effect on the simulator and the device so far, in order. */
    var actions: seq<Action>

    function State(): ModeState
      reads this
    {
      ModeState(layout, layoutSystem, layoutGx30, layoutTransponder, encoderBigMode, encoderSmallMode)
    }

    ghost predicate Valid()
      reads this
    {
      Coherent(State())
    }

    /** The mode and log went from `s0`, `a0` to `o`. */
    ghost predicate Reached(s0: ModeState, a0: seq<Action>, o: Outcome)
      reads this
    {
      State() == o.state && actions == a0 + o.actions
    }

    constructor ()
      ensures State() == Initial && actions == []
      ensures Valid()
    {
      layout := Avionics;
      layoutSystem := Engine;
      layoutGx30 := Left;
      layoutTransponder := Mode;
      encoderBigMode := EncoderBigMode.None;
      encoderSmallMode := EncoderSmallMode.None;
      actions := [];
    }

    method Emit(a: Action)
      modifies this
      ensures State() == old(State()) && actions == old(actions) + [a]
    {
      actions := actions + [a];
    }

    method Call(c: Cmd)
      modifies this
      ensures State() == old(State()) && actions == old(actions) + [Invoke(c)]
    {
      Emit(Invoke(c));
    }

    method EncoderBigSetter(ref: Ref, push: Push)
      modifies this
      ensures State() == old(State()) && actions == old(actions) + [ReadThenPush(ref, push, Big)]
    {
      Emit(ReadThenPush(ref, push, Big));
    }

    method EncoderSmallSetter(ref: Ref, push: Push)
      modifies this
      ensures State() == old(State()) && actions == old(actions) + [ReadThenPush(ref, push, Small)]
    {
      Emit(ReadThenPush(ref, push, Small));
    }

    method SelectBigEncoderMode(mode: EncoderBigMode)
      modifies this
      ensures State() == old(State()).(big := mode)
      ensures actions == old(actions) + BigResync(mode)
    {
      encoderBigMode := mode;
      if encoderBigMode == AltPressure {
        EncoderBigSetter(AvionicsAltPressure, Scaled(100.0));
      } else if encoderBigMode == PitchAdjust {
        EncoderBigSetter(AvionicsHorizonAdjust, Scaled(5.0));
      }
    }

    method SelectSmallEncoderMode(mode: EncoderSmallMode)
      modifies this
      ensures State() == old(State()).(small := mode)
      ensures actions == old(actions) + SmallResync(mode)
    {
      encoderSmallMode := mode;
      if encoderSmallMode == HeadingBug {
        EncoderSmallSetter(AvionicsHeadingBug, Raw);
      } else if encoderSmallMode == OBS2 {
        EncoderSmallSetter(NavigationNav2, Raw);
      } else if encoderSmallMode == GyroCompassAdjust {
        EncoderSmallSetter(AvionicsDriftAdjust, Raw);
      } else if encoderSmallMode == ADFHeading {
        EncoderSmallSetter(NavigationADFHeading, Raw);
      } else if encoderSmallMode == EncoderSmallMode.Autopilot {
        EncoderSmallSetter(AutopilotVerticalSpeed, RoundedPer100);
      }
    }

    method SelectEncoderModes(big: EncoderBigMode, small: EncoderSmallMode)
      modifies this
      ensures Reached(old(State()), old(actions), SelectEncoders(old(State()), big, small))
    {
      SelectBigEncoderMode(big);
      SelectSmallEncoderMode(small);
    }

    method SelectLayout(l: KeyboardLayout)
      modifies this
      ensures Reached(old(State()), old(actions), SelectLayoutOutcome(old(State()), l))
    {
      layout := l;
      layoutSystem := Engine;
      layoutGx30 := Left;
      layoutTransponder := Mode;
      if l == Avionics {
        SelectEncoderModes(AltPressure, HeadingBug);
      } else if l == Systems {
        SelectEncoderModes(PitchAdjust, GyroCompassAdjust);
      } else if l == Navigation {
        SelectEncoderModes(OBS1, OBS2);
      } else if l == ADF {
        SelectEncoderModes(EncoderBigMode.None, ADFHeading);
      } else if l == G530 {
        SelectEncoderModes(G530LeftBig, G530LeftSmall);
      } else if l == G430 {
        SelectEncoderModes(G430LeftBig, G430LeftSmall);
      } else if l == KeyboardLayout.Autopilot {
        SelectEncoderModes(EncoderBigMode.None, EncoderSmallMode.Autopilot);
      } else {
        SelectEncoderModes(EncoderBigMode.None, EncoderSmallMode.None);
      }
    }

    method SelectSystemLayout(system: KeyboardSystemLayout)
      modifies this
      ensures Reached(old(State()), old(actions), Apply(old(State()), ToSystemLayout(system)))
    {
      layoutSystem := system;
    }

    method SelectGx30Layout(g: KeyboardGx30Layout)
      modifies this
      ensures Reached(old(State()), old(actions), SelectGx30Outcome(old(State()), g))
    {
      layoutGx30 := g;
      if layout == G530 {
        if layoutGx30 == Left {
          SelectEncoderModes(G530LeftBig, G530LeftSmall);
        } else {
          SelectEncoderModes(G530RightBig, G530RightSmall);
        }
      } else if layout == G430 {
        if layoutGx30 == Left {
          SelectEncoderModes(G430LeftBig, G430LeftSmall);
        } else {
          SelectEncoderModes(G430RightBig, G430RightSmall);
        }
      }
    }

    method SelectTransponderLayout(t: KeyboardTransponderLayout)
      modifies this
      ensures Reached(old(State()), old(actions), Apply(old(State()), ToTransponderLayout(t)))
    {
      layoutTransponder := t;
    }

    method AvionicsClick(button: Button)
      modifies this
      ensures Reached(old(State()), old(actions), Apply(old(State()), AvionicsBehaviour(button)))
    {
      match button
      case C2_R1 => Emit(Write(FlapsRatio, 0.0));
      case C2_R2 => Emit(Write(FlapsRatio, 0.333));
      case C2_R3 => Emit(Write(FlapsRatio, 0.666));
      case C2_R4 => Emit(Write(FlapsRatio, 1.0));
      case C3_R1 => Call(TimerSelectMode);
      case C3_R2 => Call(LightLanding);
      case C3_R3 => Call(BrakesRegular);
      case C3_R4 => Call(BrakesMax);
      case C4_R1 => Call(TimerControlStartStop);
      case C4_R2 => Call(LightTaxi);
      case C4_R3 => Call(TrimDown);
      case C4_R4 => Call(TrimUp);
      case _ =>
    }

    method EngineClick(button: Button)
      modifies this
      ensures Reached(old(State()), old(actions), Apply(old(State()), EngineBehaviour(button)))
    {
      match button
      case C3_R1 => Call(EngineMagnetosOff);
      case C3_R2 => Call(EngineMagnetosRight);
      case C3_R3 => Call(EngineMagnetosLeft);
      case C3_R4 => Call(EngineMagnetosBoth);
      case C4_R2 => Call(EngineFuelPump);
      case _ =>
    }

    method ElectroClick(button: Button)
      modifies this
      ensures Reached(old(State()), old(actions), Apply(old(State()), ElectroBehaviour(button)))
    {
      match button
      case C3_R1 => Call(ElectricalMasterAlternator);
      case C3_R2 => Call(ElectricalMasterBattery);
      case C3_R3 => Call(ElectricalBus1);
      case C3_R4 => Call(ElectricalBus2);
      case _ =>
    }

    method LightClick(button: Button)
      modifies this
      ensures Reached(old(State()), old(actions), Apply(old(State()), LightBehaviour(button)))
    {
      match button
      case C3_R1 => Call(LightNavigation);
      case C3_R2 => Call(LightTaxi);
      case C3_R3 => Call(LightLanding);
      case C4_R1 => Call(LightBeacon);
      case C4_R3 => Call(LightStrobe);
      case _ =>
    }

    method SystemsClick(button: Button)
      modifies this
      ensures Reached(old(State()), old(actions), Apply(old(State()), SystemsBehaviour(old(State()).system, button)))
    {
      if button.C2_R1? {
        SelectSystemLayout(Engine);
      } else if button.C2_R2? {
        SelectSystemLayout(Electro);
      } else if button.C2_R3? {
        SelectSystemLayout(Light);
      } else if button.C2_R4? {
      } else if layoutSystem.Engine? {
        EngineClick(button);
      } else if layoutSystem.Electro? {
        ElectroClick(button);
      } else {
        LightClick(button);
      }
    }

    method AdfClick(button: Button)
      modifies this
      ensures Reached(old(State()), old(actions), Apply(old(State()), AdfBehaviour(button)))
    {
      match button
      case C2_R1 => SelectEncoderModes(EncoderBigMode.None, ADFHeading);
      case C2_R2 => SelectEncoderModes(ADFBig, ADFSmall);
      case _ =>
    }

    method Gx30Click(button: Button)
      modifies this
      ensures Reached(old(State()), old(actions), Apply(old(State()), Gx30Behaviour(button)))
    {
      match button
      case C2_R3 => SelectGx30Layout(Left);
      case C2_R4 => SelectGx30Layout(Right);
      case _ =>
    }

    method AutopilotClick(button: Button)
      modifies this
      ensures Reached(old(State()), old(actions), Apply(old(State()), AutopilotBehaviour(button)))
    {
      match button
      case C2_R1 => Call(AutopilotHDG);
      case C3_R1 => Call(AutopilotNAV);
      case C4_R1 => Call(AutopilotAPR);
      case C4_R2 => Call(AutopilotREV);
      case C4_R3 => Call(AutopilotALT);
      case C4_R4 =>
        Call(AutopilotVS);
        EncoderSmallSetter(AutopilotVerticalSpeed, RoundedPer100);
        assert actions == old(actions) + [Invoke(AutopilotVS), ReadThenPush(AutopilotVerticalSpeed, RoundedPer100, Small)];
      case _ =>
    }

    method TransponderModeClick(button: Button)
      modifies this
      ensures Reached(old(State()), old(actions), Apply(old(State()), TransponderModeBehaviour(button)))
    {
      match button
      case C4_R1 => Call(TransponderALT);
      case C4_R2 => Call(TransponderON);
      case C4_R3 => Call(TransponderSTBY);
      case C4_R4 => Call(TransponderOFF);
      case _ =>
    }

    method TransponderCodeClick(button: Button)
      modifies this
      ensures Reached(old(State()), old(actions), Apply(old(State()), TransponderCodeBehaviour(button)))
    {
      match button
      case C3_R1 => Call(TransponderDigit(1));
      case C3_R2 => Call(TransponderDigit(3));
      case C3_R3 => Call(TransponderDigit(5));
      case C3_R4 => Call(TransponderDigit(7));
      case C4_R1 => Call(TransponderDigit(2));
      case C4_R2 => Call(TransponderDigit(4));
      case C4_R3 => Call(TransponderDigit(6));
      case C4_R4 => Call(TransponderDigit(0));
      case _ =>
    }

    method TransponderClick(button: Button)
      modifies this
      ensures Reached(old(State()), old(actions),
                      Apply(old(State()), TransponderBehaviour(old(State()).transponder, button)))
    {
      if button.Encoder? {
      } else if button.C2_R1? {
        Call(TransponderIDENT);
      } else if button.C2_R3? {
        SelectTransponderLayout(Mode);
      } else if button.C2_R4? {
        SelectTransponderLayout(Code);
      } else if layoutTransponder.Mode? {
        TransponderModeClick(button);
      } else {
        TransponderCodeClick(button);
      }
    }

    /** A click (`long` for a long press): the mode and the effects follow `ClickBehaviour`, and the invariant holds. */
    method HandleKeyboardClick(button: Button, long: bool)
      requires Valid()
      modifies this
      ensures Reached(old(State()), old(actions), Apply(old(State()), ClickBehaviour(old(State()), button, long)))
      ensures Valid()
    {
      ghost var s0 := State();
      if button.C1_R1? {
        if long { SelectLayout(Systems); } else { SelectLayout(Avionics); }
      } else if button.C1_R2? {
        if long { SelectLayout(ADF); } else { SelectLayout(Navigation); }
      } else if button.C1_R3? {
        if long { SelectLayout(G430); } else { SelectLayout(G530); }
      } else if button.C1_R4? {
        if long { SelectLayout(Transponder); } else { SelectLayout(KeyboardLayout.Autopilot); }
      } else {
        assert ClickBehaviour(s0, button, long) == LayoutBehaviour(s0, button);
        if layout == Avionics {
          AvionicsClick(button);
        } else if layout == Systems {
          SystemsClick(button);
        } else if layout == ADF {
          AdfClick(button);
        } else if layout == G530 {
          Gx30Click(button);
        } else if layout == G430 {
          Gx30Click(button);
        } else if layout == KeyboardLayout.Autopilot {
          AutopilotClick(button);
        } else if layout == Transponder {
          TransponderClick(button);
        }
      }
      ClickKeepsCoherent(s0, button, long);
    }

    /** A rotation event of the big (`big`) or small encoder: writes per the bound mode; the mode is unchanged. */
    method HandleEncoderRotate(delta: int, position: real, big: bool)
      modifies this
      ensures State() == old(State())
      ensures actions == old(actions) + RotateActions(old(State()), position, big)
    {
      if big {
        if encoderBigMode == AltPressure {
          Emit(Write(AvionicsAltPressure, position / 100.0));
        } else if encoderBigMode == PitchAdjust {
          Emit(Write(AvionicsHorizonAdjust, position / 5.0));
        } else if encoderBigMode == OBS1 {
          Emit(Write(NavigationNav1, position));
        } else if encoderBigMode == ADFBig {
          Emit(Write(NavigationADFHeading, position));
        }
      } else {
        if encoderSmallMode == HeadingBug {
          Emit(Write(AvionicsHeadingBug, position));
        } else if encoderSmallMode == GyroCompassAdjust {
          Emit(Write(AvionicsDriftAdjust, position));
        } else if encoderSmallMode == OBS2 {
          Emit(Write(NavigationNav2, position));
        } else if encoderSmallMode == ADFHeading {
          Emit(Write(NavigationADFHeading, position));
        } else if encoderSmallMode == EncoderSmallMode.Autopilot {
          Emit(Write(AutopilotVerticalSpeed, Round(position) as real * 100.0));
        }
      }
    }
  }
}
