/** One bank of continuous controls of a Launchkey MK3: 8 pots, or 8 faders plus the master
    fader. The bank reads touch messages from MIDI channel 15 and values and mode selection
    from channel 16, keeps a mode, and rebinds its controls from the session whenever the mode
    changes (RangeControllableSet). */
module ControlBank {

  import opened Wrappers
  import opened Midi

  // ---------------------------------------------------------------------------------------
  // Modes

  /** The modes of a bank. Code() is the enumerator value of ControllableMode. The mode-select
      handler casts any non-zero byte to the enum, so a byte that no enumerator names is kept
      as Undeclared(code). */
  datatype ControllableMode =
    | Volume | Device | Pan | SendA | SendB
    | Custom0 | Custom1 | Custom2 | Custom3
    | Undeclared(code: Byte)
  {
    function Code(): Byte {
      match this
      case Volume => 1
      case Device => 2
      case Pan => 3        // documented as not available for faders; nothing rejects it
      case SendA => 4
      case SendB => 5
      case Custom0 => 6
      case Custom1 => 7
      case Custom2 => 8
      case Custom3 => 9
      case Undeclared(c) => c
    }

    predicate Declared() {
      !Undeclared?
    }
  }

  /** static_cast<ControllableMode>(code): the mode whose enumerator value is `code`. */
  function ModeOfCode(code: Byte): (m: ControllableMode)
    ensures m.Code() == code
    ensures m.Declared() <==> 1 <= code <= 9
  {
    match code
    case 1 => Volume
    case 2 => Device
    case 3 => Pan
    case 4 => SendA
    case 5 => SendB
    case 6 => Custom0
    case 7 => Custom1
    case 8 => Custom2
    case 9 => Custom3
    case _ => Undeclared(code)
  }

  /** The mode a mode-select value selects: 0 stands for CUSTOM0, anything else is the mode
      number itself. */
  function ModeFromValue(value: Byte): (m: ControllableMode)
    ensures value == 0 ==> m == Custom0
    ensures value != 0 ==> m.Code() == value
    ensures m.Declared() <==> value <= 9
  {
    if value == 0 then Custom0 else ModeOfCode(value)
  }

  lemma {:induction false} ModeCodeRoundTrip(m: ControllableMode)
    requires m.Declared()
    ensures 1 <= m.Code() <= 9
    ensures ModeOfCode(m.Code()) == m
    ensures ModeFromValue(m.Code()) == m
  {
    match m
    case Volume =>
    case Device =>
    case Pan =>
    case SendA =>
    case SendB =>
    case Custom0 =>
    case Custom1 =>
    case Custom2 =>
    case Custom3 =>
  }

  // ---------------------------------------------------------------------------------------
  // Bank geometry and message classification

  /** Rebinding yields at most this many entries: the eight strips (the master fader is never bound). */
  const StripCount: nat := 8

  /** The first controller number of the bank's CC window. */
  function StartingCC(faders: bool): Byte {
    if faders then 0x35 else 0x15
  }

  /** Number of physical controls in the bank: 8 pots, or 8 faders plus the master fader. */
  function BankSize(faders: bool): nat {
    if faders then 9 else 8
  }

  /** The controller number that carries mode selection on channel 16. */
  function ModeSelectCC(faders: bool): Byte {
    if faders then 0x0A else 0x09
  }

  /** The control index a controller number addresses, if it lies in the bank's window. The
      offset is computed as uint8_t, as in the source. */
  function ControlIndex(faders: bool, cc: Byte): (r: Option<nat>)
    ensures r.Some? <==> StartingCC(faders) <= cc < StartingCC(faders) + BankSize(faders)
    ensures r.Some? ==> r.value < BankSize(faders) && cc == StartingCC(faders) + r.value
    ensures !faders ==> (r.Some? <==> 0x15 <= cc <= 0x1C)
    ensures faders ==> (r.Some? <==> 0x35 <= cc <= 0x3D)
  {
    if cc < StartingCC(faders) then None
    else
      var id := (cc - StartingCC(faders)) % 256;
      if id >= 9 || (id >= 8 && !faders) then None else Some(id)
  }

  /** What a control change on channel 16 means to the bank. */
  datatype ValueMessage =
    | ModeSelect(mode: ControllableMode)
    | ValueUpdate(index: nat, value: Byte)
    | NotOurs

  function ClassifyValueChannel(faders: bool, ev: EventTwoBytes): (r: ValueMessage)
    ensures r.ModeSelect? <==> ev.controllerNumber == ModeSelectCC(faders)
    ensures r.ModeSelect? ==> r.mode == ModeFromValue(ev.value)
    ensures r.ValueUpdate? ==>
      ControlIndex(faders, ev.controllerNumber) == Some(r.index) && r.value == ev.value
    ensures r.NotOurs? <==>
      ev.controllerNumber != ModeSelectCC(faders) && ControlIndex(faders, ev.controllerNumber).None?
  {
    if ev.controllerNumber == ModeSelectCC(faders) then
      ModeSelect(ModeFromValue(ev.value))
    else
      match ControlIndex(faders, ev.controllerNumber)
      case None => NotOurs
      case Some(id) => ValueUpdate(id, ev.value)
  }

  /** A touch message is a touch-on when its value exceeds 64. */
  function IsTouchOn(value: Byte): bool {
    value > 64
  }

  // ---------------------------------------------------------------------------------------
  // The session, seen as an abstract parameter provider

  /** The identity of an automation control owned by the session. */
  type Handle = nat

  /** A plugin: how many parameters it reports, and what nth_parameter answers for each index
      (None when it fails). */
  datatype Plugin = Plugin(parameterCount: nat, nthParameter: seq<Option<nat>>)

  /** The first plugin slot of a track: a plugin insert with its automation controls by
      parameter id, or some other processor. */
  datatype Processor =
    | PluginInsert(plugin: Plugin, controls: map<nat, Handle>)
    | OtherProcessor

  /** The controls a track exposes; None where the track has no such control. */
  datatype Track = Track(
    gain: Option<Handle>,
    panAzimuth: Option<Handle>,
    sendLevels: seq<Option<Handle>>,
    firstPlugin: Option<Processor>)

  /** What get_remote_nth_stripable(i, Track) answers for i = 0, 1, ...; beyond the sequence
      it answers None. */
  datatype Session = Session(tracks: seq<Option<Track>>)

  function NthTrack(s: Session, i: nat): Option<Track> {
    if i < |s.tracks| then s.tracks[i] else None
  }

  function SendLevel(t: Track, n: nat): Option<Handle> {
    if n < |t.sendLevels| then t.sendLevels[n] else None
  }

  function NthParameter(p: Plugin, i: nat): Option<nat> {
    if i < |p.nthParameter| then p.nthParameter[i] else None
  }

  /** The control a strip binds to in a track mode; the custom modes (and undeclared values)
      bind nothing. */
  function TrackControl(t: Track, mode: ControllableMode): Option<Handle> {
    match mode
    case Volume => t.gain
    case Pan => t.panAzimuth
    case SendA => SendLevel(t, 0)
    case SendB => SendLevel(t, 1)
    case _ => None
  }

  /** The control bound to plugin parameter slot i: none when nth_parameter fails or the
      parameter has no automation control. */
  function ParameterControl(p: Plugin, controls: map<nat, Handle>, i: nat): Option<Handle> {
    match NthParameter(p, i)
    case None => None
    case Some(id) => if id in controls then Some(controls[id]) else None
  }

  predicate IsPluginInsert(p: Option<Processor>) {
    p.Some? && p.value.PluginInsert?
  }

  function Min(a: nat, b: nat): nat {
    if a < b then a else b
  }

  /** The number of tracks present from index `i` on, without a gap, stopping at StripCount. */
  function PresentFrom(s: Session, i: nat): (n: nat)
    requires i <= StripCount
    decreases StripCount - i
    ensures i <= n <= StripCount
    ensures forall j :: i <= j < n ==> NthTrack(s, j).Some?
    ensures n < StripCount ==> NthTrack(s, n).None?
  {
    if i == StripCount || NthTrack(s, i).None? then i else PresentFrom(s, i + 1)
  }

  /** The number of consecutive present tracks from index 0, at most StripCount. */
  function PresentTracks(s: Session): (n: nat)
    ensures n <= StripCount
    ensures forall j :: 0 <= j < n ==> NthTrack(s, j).Some?
    ensures n < StripCount ==> NthTrack(s, n).None?
  {
    PresentFrom(s, 0)
  }

  /** The three facts PresentTracks ensures determine it. */
  lemma PresentTracksUnique(s: Session, k: nat)
    requires k <= StripCount
    requires forall j :: 0 <= j < k ==> NthTrack(s, j).Some?
    requires k < StripCount ==> NthTrack(s, k).None?
    ensures PresentTracks(s) == k
  {
  }

  /** The bindings a rebind produces in a track mode: the mode's control of each present track. */
  function TrackBindings(s: Session, mode: ControllableMode): (r: seq<Option<Handle>>)
    ensures |r| == PresentTracks(s)
  {
    var n := PresentTracks(s);
    seq(n, i requires 0 <= i < n => TrackControl(NthTrack(s, i).value, mode))
  }

  /** The bindings a rebind produces in DEVICE mode: the first min(8, parameter_count)
      parameters of the first plugin of the first track, when that plugin is a plugin insert. */
  function DeviceBindings(s: Session): (r: seq<Option<Handle>>)
    ensures |r| <= StripCount
  {
    match NthTrack(s, 0)
    case None => []
    case Some(t) =>
      match t.firstPlugin
      case Some(PluginInsert(p, controls)) =>
        var n := Min(StripCount, p.parameterCount);
        seq(n, i requires 0 <= i < n => ParameterControl(p, controls, i))
      case _ => []
  }

  /** The whole binding list after a switch to `mode`. */
  function Bindings(s: Session, mode: ControllableMode): (r: seq<Option<Handle>>)
    ensures |r| <= StripCount
  {
    if mode != Device then TrackBindings(s, mode) else DeviceBindings(s)
  }

  /** In a track mode the list has one entry per track present from index 0 on (at most 8, and
      it stops at the first absent track), and entry i is the mode's control of track i. */
  lemma TrackModeBindings(s: Session, mode: ControllableMode)
    requires mode != Device
    ensures var r := Bindings(s, mode);
      && |r| <= StripCount
      && (|r| < StripCount ==> NthTrack(s, |r|).None?)
      && forall i :: 0 <= i < |r| ==>
           NthTrack(s, i).Some? && r[i] == TrackControl(NthTrack(s, i).value, mode)
  {
  }

  /** A custom mode, or a value no enumerator names, binds nothing although the list still has
      one entry per present track. */
  lemma CustomModesUnbound(s: Session, mode: ControllableMode)
    requires mode in {Custom0, Custom1, Custom2, Custom3} || !mode.Declared()
    ensures var r := Bindings(s, mode);
      |r| == PresentTracks(s) && forall i :: 0 <= i < |r| ==> r[i].None?
  {
  }

  /** In DEVICE mode the list is empty unless the first track exists and its first plugin is a
      plugin insert; then it has exactly min(8, parameter_count) entries, unbound wherever
      nth_parameter fails, and otherwise the insert's control for parameter i. */
  lemma DeviceModeBindings(s: Session)
    ensures var r := Bindings(s, Device);
      && (NthTrack(s, 0).None? ==> r == [])
      && (NthTrack(s, 0).Some? && !IsPluginInsert(NthTrack(s, 0).value.firstPlugin) ==> r == [])
      && (NthTrack(s, 0).Some? && IsPluginInsert(NthTrack(s, 0).value.firstPlugin) ==>
            var p := NthTrack(s, 0).value.firstPlugin.value.plugin;
            && |r| == Min(StripCount, p.parameterCount)
            && (forall i :: 0 <= i < |r| && NthParameter(p, i).None? ==> r[i].None?)
            && forall i :: 0 <= i < |r| ==>
                 r[i] == ParameterControl(p, NthTrack(s, 0).value.firstPlugin.value.controls, i))
  {
  }

  // ---------------------------------------------------------------------------------------
  // Effects on bound controls

  /** A call the bank makes on a bound automation control. SetValue carries the interface
      value handed to interface_to_internal; the write is made with NoGroup. */
  datatype HandleCall =
    | StartTouch(h: Handle)
    | StopTouch(h: Handle)
    | SetValue(h: Handle, interfaceValue: real)

  /** The raw 7-bit value scaled to the interface range [0, 1]. */
  function Normalize(value: Byte): (v: real)
    ensures 0.0 <= v
    ensures value <= 127 ==> v <= 1.0
    ensures v == 0.0 <==> value == 0
    ensures v == 1.0 <==> value == 127
  {
    value as real / 127.0
  }

  lemma NormalizeMonotonic(a: Byte, b: Byte)
    requires a < b
    ensures Normalize(a) < Normalize(b)
  {
  }

  /** touch_event: a bound index starts or stops a touch gesture; anything else does nothing. */
  function TouchCalls(bindings: seq<Option<Handle>>, id: nat, on: bool): (r: seq<HandleCall>)
    ensures r != [] <==> id < |bindings| && bindings[id].Some?
    ensures r != [] ==> r == [if on then StartTouch(bindings[id].value) else StopTouch(bindings[id].value)]
  {
    if id < |bindings| && bindings[id].Some? then
      var h := bindings[id].value;
      [if on then StartTouch(h) else StopTouch(h)]
    else []
  }

  /** new_value_received: a bound index is touched once and then set to value / 127. */
  function ValueCalls(bindings: seq<Option<Handle>>, id: nat, value: Byte): (r: seq<HandleCall>)
    ensures r != [] <==> id < |bindings| && bindings[id].Some?
    ensures r != [] ==>
      r == [StartTouch(bindings[id].value), SetValue(bindings[id].value, Normalize(value))]
  {
    if id < |bindings| && bindings[id].Some? then
      var h := bindings[id].value;
      [StartTouch(h), SetValue(h, Normalize(value))]
    else []
  }

  /** The calls a control change on channel 15 makes. */
  function TouchChannelCalls(faders: bool, bindings: seq<Option<Handle>>, ev: EventTwoBytes): (r: seq<HandleCall>)
    ensures |r| <= 1
    ensures r != [] <==>
      var id := ControlIndex(faders, ev.controllerNumber);
      id.Some? && id.value < |bindings| && bindings[id.value].Some?
    ensures r != [] ==>
      && (r[0].StartTouch? <==> ev.value > 64)
      && (r[0].StopTouch? <==> ev.value <= 64)
      && r[0].h == bindings[ControlIndex(faders, ev.controllerNumber).value].value
  {
    match ControlIndex(faders, ev.controllerNumber)
    case None => []
    case Some(id) => TouchCalls(bindings, id, IsTouchOn(ev.value))
  }

  /** The master fader (index 8, CC 0x3D) never reaches a control: no rebind binds it. */
  lemma MasterFaderIsNoOp(s: Session, mode: ControllableMode, value: Byte)
    ensures ControlIndex(true, 0x3D) == Some(8)
    ensures TouchChannelCalls(true, Bindings(s, mode), EventTwoBytes(0x3D, value)) == []
    ensures ClassifyValueChannel(true, EventTwoBytes(0x3D, value)) == ValueUpdate(8, value)
    ensures ValueCalls(Bindings(s, mode), 8, value) == []
  {
  }

  /** Nothing rejects PAN on a fader bank: mode value 3 on CC 0x0A selects it. */
  lemma FaderBankAcceptsPan()
    ensures ClassifyValueChannel(true, EventTwoBytes(0x0A, 3)) == ModeSelect(Pan)
  {
  }

  // ---------------------------------------------------------------------------------------
  // The bank

  class RangeControllableSet {

    const faders: bool
    const startingCC: Byte

    var currentMode: ControllableMode
    /** One entry per bound strip; None where no control was found at rebind time. */
    var controllables: seq<Option<Handle>>
    /** The calls made on bound controls so far, in order. */
    var calls: seq<HandleCall>

    ghost predicate Valid()
      reads this
    {
      startingCC == StartingCC(faders) && |controllables| <= StripCount
    }

    /** A fader bank starts in VOLUME mode, a pot bank in PAN mode, each already rebound. */
    constructor (session: Session, faders: bool)
      ensures Valid()
      ensures this.faders == faders
      ensures currentMode == (if faders then Volume else Pan)
      ensures controllables == Bindings(session, currentMode)
      ensures calls == []
    {
      this.faders := faders;
      startingCC := if faders then 0x35 else 0x15;
      calls := [];
      controllables := [];
      new;
      if faders {
        ModeSwitch(session, Volume);
      } else {
        ModeSwitch(session, Pan);
      }
    }

    /** Channel 15: touch messages. */
    method MidiCcReceiver15(ev: EventTwoBytes)
      requires Valid()
      modifies this`calls
      ensures Valid()
      ensures calls == old(calls) + TouchChannelCalls(faders, controllables, ev)
    {
      if ev.controllerNumber < startingCC {
        return;
      }
      var id := (ev.controllerNumber - startingCC) % 256;
      if id >= 9 || (id >= 8 && !faders) {
        return;
      }
      TouchEvent(id, ev.value > 64);
    }

    /** Channel 16: mode selection and values. */
    method MidiCcReceiver16(session: Session, ev: EventTwoBytes)
      requires Valid()
      modifies this`currentMode, this`controllables, this`calls
      ensures Valid()
      ensures match ClassifyValueChannel(faders, ev)
        case ModeSelect(m) =>
          currentMode == m && controllables == Bindings(session, m) && calls == old(calls)
        case ValueUpdate(id, value) =>
          currentMode == old(currentMode) && controllables == old(controllables)
          && calls == old(calls) + ValueCalls(controllables, id, value)
        case NotOurs =>
          currentMode == old(currentMode) && controllables == old(controllables)
          && calls == old(calls)
    {
      if (!faders && ev.controllerNumber == 0x09) || (faders && ev.controllerNumber == 0x0A) {
        var m := if ev.value == 0 then Custom0 else ModeOfCode(ev.value);
        ModeSwitch(session, m);
        return;
      }
      if ev.controllerNumber < startingCC {
        return;
      }
      var id := (ev.controllerNumber - startingCC) % 256;
      if id >= 9 || (id >= 8 && !faders) {
        return;
      }
      NewValueReceived(id, ev.value);
    }

    method ModeSwitch(session: Session, newMode: ControllableMode)
      requires Valid()
      modifies this`currentMode, this`controllables
      ensures Valid()
      ensures currentMode == newMode && controllables == Bindings(session, newMode)
    {
      currentMode := newMode;
      ReassignStripables(session);
    }

    /** Clears the binding list and rebuilds it from the session for the current mode. */
    method ReassignStripables(session: Session)
      requires Valid()
      modifies this`controllables
      ensures Valid()
      ensures controllables == Bindings(session, currentMode)
    {
      controllables := [];
      if currentMode != Device {
        var i := 0;
        while i < 8
          invariant 0 <= i <= StripCount
          invariant forall j :: 0 <= j < i ==> NthTrack(session, j).Some?
          invariant |controllables| == i
          invariant forall j :: 0 <= j < i ==>
            controllables[j] == TrackControl(NthTrack(session, j).value, currentMode)
        {
          var s := NthTrack(session, i);
          if s.None? {
            break;
          }
          var c: Option<Handle> := None;
          match currentMode {
            case Volume => c := s.value.gain;
            case Pan => c := s.value.panAzimuth;
            case SendA => c := SendLevel(s.value, 0);
            case SendB => c := SendLevel(s.value, 1);
            case _ =>
          }
          controllables := controllables + [c];
          i := i + 1;
        }
        PresentTracksUnique(session, i);
      } else {
        var s := NthTrack(session, 0);
        if s.None? {
          return;
        }
        if s.value.firstPlugin.Some? && s.value.firstPlugin.value.PluginInsert? {
          var p := s.value.firstPlugin.value.plugin;
          var controls := s.value.firstPlugin.value.controls;
          var numParams := Min(8, p.parameterCount);
          var i := 0;
          while i < numParams
            invariant 0 <= i <= numParams
            invariant |controllables| == i
            invariant forall j :: 0 <= j < i ==> controllables[j] == ParameterControl(p, controls, j)
          {
            var c: Option<Handle> := None;
            var paramId := NthParameter(p, i);
            if paramId.Some? && paramId.value in controls {
              c := Some(controls[paramId.value]);
            }
            controllables := controllables + [c];
            i := i + 1;
          }
        }
      }
    }

    method TouchEvent(id: nat, on: bool)
      requires Valid()
      modifies this`calls
      ensures Valid()
      ensures calls == old(calls) + TouchCalls(controllables, id, on)
    {
      if id < |controllables| && controllables[id].Some? {
        var h := controllables[id].value;
        if on {
          calls := calls + [StartTouch(h)];
        } else {
          calls := calls + [StopTouch(h)];
        }
      }
    }

    method NewValueReceived(id: nat, value: Byte)
      requires Valid()
      modifies this`calls
      ensures Valid()
      ensures calls == old(calls) + ValueCalls(controllables, id, value)
    {
      if id < |controllables| && controllables[id].Some? {
        var v := value as real / 127.0;
        var h := controllables[id].value;
        calls := calls + [StartTouch(h)];
        calls := calls + [SetValue(h, v)];
      }
    }
  }
}
