/** The Launchkey MK3 control surface object: its port and connection state, the handshake
    that puts the device into DAW mode, and the gate on incoming MIDI. */
module LaunchkeyMk3 {

  import opened Wrappers
  import opened Midi
  import opened LaunchkeyIdentity
  import opened LaunchkeyPorts

  /** The modes the pads, pots and faders of the device can be in. Pots know PAN; faders do not. */
  datatype LkPadMode =
    | Drum | Session | ScaleChords | UserChords
    | Custom0 | Custom1 | Custom2 | Custom3
    | DeviceSelect | Navigation

  datatype LkPotMode =
    | Volume | Device | Pan | SendA | SendB
    | Custom0 | Custom1 | Custom2 | Custom3

  datatype LkFaderMode =
    | Volume | Device | SendA | SendB
    | Custom0 | Custom1 | Custom2 | Custom3

  /** The IOCondition bit that says data is ready on a port. */
  const IoIn: bv8 := 0x1

  class LaunchkeyMk3 {

    /** Our input and output ports by their full names; None once the port object is gone. */
    var inputPort: Option<string>
    var outputPort: Option<string>

    /** The ConnectionState bits. */
    var connectionState: bv8
    var deviceActive: bool
    /** Whether the device was put into DAW mode, which also says we talk to a real Launchkey. */
    var inDawMode: bool
    /** Whether the device is a bigger model with faders (49, 61 or 88 keys). */
    var hasFaders: bool
    /** ControlProtocol::active(), and whether the surface's event loop was started. */
    var active: bool
    var eventLoopRunning: bool

    var padMode: LkPadMode
    var potMode: LkPotMode
    var faderMode: LkFaderMode

    /** The messages written to the output port, in order. */
    var sent: seq<seq<Byte>>
    /** connected(), disconnected() and ConnectionChange, in the order they were raised. */
    var signals: seq<Signal>

    /** Whether an Identity Reply from a Launchkey has been accepted. */
    ghost var identified: bool

    ghost predicate Valid()
      reads this
    {
      && LinkInvariant(Link(connectionState, deviceActive))
      && (inDawMode ==> identified)
      && (hasFaders ==> identified)
    }

    constructor (inputName: string, outputName: string)
      ensures Valid()
      ensures inputPort == Some(inputName) && outputPort == Some(outputName)
      ensures connectionState == 0 && !deviceActive && !inDawMode && !hasFaders
      ensures !active && !eventLoopRunning
      ensures padMode == LkPadMode.Session && potMode == LkPotMode.Pan && faderMode == LkFaderMode.Volume
      ensures sent == [] && signals == [] && !identified
    {
      inputPort := Some(inputName);
      outputPort := Some(outputName);
      connectionState := 0;
      deviceActive := false;
      inDawMode := false;
      hasFaders := false;
      active := false;
      eventLoopRunning := false;
      padMode := LkPadMode.Session;
      potMode := LkPotMode.Pan;
      faderMode := LkFaderMode.Volume;
      sent := [];
      signals := [];
      identified := false;
    }

    // -------------------------------------------------------------------------------------
    // Ports

    /** Which of our ports a connection change between `name1` and `name2` is about; None when
        a port is gone or neither is named. */
    function Involved(name1: string, name2: string): Option<Side>
      reads this
    {
      if inputPort.Some? && outputPort.Some?
      then InvolvedSide(inputPort.value, outputPort.value, name1, name2) else None
    }

    /** A connection between `name1` and `name2` was made (yn) or broken. Only a change that
        names one of our ports counts, the input taking precedence. */
    method PortConnectionHandler(name1: string, name2: string, yn: bool)
      requires Valid()
      modifies this`connectionState, this`deviceActive, this`signals
      ensures Valid()
      ensures Involved(name1, name2).None? ==> unchanged(this)
      ensures Involved(name1, name2).Some? ==>
        var r := ConnectionStep(old(Link(connectionState, deviceActive)), Involved(name1, name2).value, yn);
        connectionState == r.link.state && deviceActive == r.link.active && signals == old(signals) + r.signals
    {
      if inputPort.None? || outputPort.None? {
        return;
      }
      var ni := inputPort.value;
      var no := outputPort.value;
      ghost var before := Link(connectionState, deviceActive);
      ghost var side: Side;
      if ni == name1 || ni == name2 {
        side := InputSide;
        SetConnectionBit(InputSide, yn);
      } else if no == name1 || no == name2 {
        side := OutputSide;
        SetConnectionBit(OutputSide, yn);
      } else {
        return;
      }
      RaiseConnectionSignals(before, side, yn);
    }

    /** Sets or clears the ConnectionState bit of one side. */
    method SetConnectionBit(side: Side, yn: bool)
      modifies this`connectionState
      ensures connectionState == UpdateBit(old(connectionState), side, yn)
    {
      match side
      case InputSide =>
        if yn {
          connectionState := connectionState | InputConnected;
        } else {
          connectionState := connectionState & !InputConnected;
        }
      case OutputSide =>
        if yn {
          connectionState := connectionState | OutputConnected;
        } else {
          connectionState := connectionState & !OutputConnected;
        }
    }

    /** After the bit of `side` was set to `yn` on the link `before`: connected() whenever both
        bits are set, disconnected() when the device stops being active, and ConnectionChange
        every time. */
    method RaiseConnectionSignals(ghost before: Link, ghost side: Side, ghost yn: bool)
      requires LinkInvariant(before) && deviceActive == before.active
      requires connectionState == UpdateBit(before.state, side, yn)
      requires (inDawMode ==> identified) && (hasFaders ==> identified)
      modifies this`deviceActive, this`signals
      ensures Valid()
      ensures deviceActive == ConnectionStep(before, side, yn).link.active
      ensures signals == old(signals) + ConnectionStep(before, side, yn).signals
    {
      if connectionState & (InputConnected | OutputConnected) == (InputConnected | OutputConnected) {
        signals := signals + [Connected];
        deviceActive := true;
      } else {
        if deviceActive {
          signals := signals + [Disconnected];
        }
        deviceActive := false;
      }
      signals := signals + [ConnectionChange];
      StepKeepsInvariant(before, side, yn);
    }

    /** A port was registered or unregistered somewhere: when our ports exist but are not both
        connected, probe for the device and ask to connect only the side that is not connected.
        `inConnected` and `outConnected` are what our ports report; `inputs` and `outputs` are
        the engine's physical MIDI ports. */
    method PortRegistrationHandler(inConnected: bool, outConnected: bool,
                                   inputs: seq<PortEntry>, outputs: seq<PortEntry>)
      returns (requests: seq<ConnectRequest>)
      ensures (inputPort.None? || outputPort.None? || (inConnected && outConnected)
               || Probe(inputs, outputs).None?) ==> requests == []
      ensures (inputPort.Some? && outputPort.Some? && !(inConnected && outConnected)
               && Probe(inputs, outputs).Some?) ==>
        var found := Probe(inputs, outputs).value;
        requests ==
          (if inConnected then [] else [ConnectRequest(inputPort.value, found.0)]) +
          (if outConnected then [] else [ConnectRequest(outputPort.value, found.1)])
    {
      requests := [];
      if inputPort.None? || outputPort.None? {
        return;
      }
      if inConnected && outConnected {
        return;
      }
      var found := Probe(inputs, outputs);
      if found.Some? {
        if !inConnected {
          requests := requests + [ConnectRequest(inputPort.value, found.value.0)];
        }
        if !outConnected {
          requests := requests + [ConnectRequest(outputPort.value, found.value.1)];
        }
      }
    }

    /** release_ports: our ports are unregistered and dropped. */
    method ReleasePorts()
      modifies this`inputPort, this`outputPort
      ensures inputPort.None? && outputPort.None?
    {
      inputPort := None;
      outputPort := None;
    }

    // -------------------------------------------------------------------------------------
    // MIDI

    /** Asks the device to identify itself. */
    method StartMidiHandling()
      modifies this`sent
      ensures sent == old(sent) + [IdentityRequest]
    {
      sent := sent + [[0xF0, 0x7E, 0x7F, 0x06, 0x01, 0xF7]];
    }

    /** Takes the device out of DAW mode if it is active and in DAW mode. Afterwards it is no
        longer both, so a second call sends nothing. */
    method StopMidiHandling()
      requires Valid()
      modifies this`sent, this`inDawMode
      ensures Valid()
      ensures old(deviceActive && inDawMode) ==> sent == old(sent) + DawModeOffMessages && !inDawMode
      ensures !old(deviceActive && inDawMode) ==> sent == old(sent) && inDawMode == old(inDawMode)
      ensures !(deviceActive && inDawMode)
    {
      if deviceActive && inDawMode {
        sent := sent + [[0x8F, 0x0C, 0x00]];
        inDawMode := false;
        sent := sent + [[0x8F, 0x0A, 0x00]];
      }
    }

    /** Data is ready on the input port (or the port changed condition). Returns whether to keep
        watching the port, and whether the data was handed to the parser, which only happens
        while the device is active. `portAlive` says whether the watched port still exists. */
    method HandleIncomingMidi(ioc: bv8, portAlive: bool) returns (keep: bool, parse: bool)
      ensures !portAlive || inputPort.None? ==> !keep
      ensures ioc & !IoIn != 0 ==> !keep
      ensures keep <==> portAlive && inputPort.Some? && ioc & !IoIn == 0
      ensures parse ==> keep && deviceActive
      ensures parse <==> keep && ioc & IoIn != 0 && deviceActive
    {
      if !portAlive || inputPort.None? {
        return false, false;
      }
      if ioc & !IoIn != 0 {
        return false, false;
      }
      parse := false;
      if ioc & IoIn != 0 {
        if deviceActive {
          parse := true;
        }
      }
      keep := true;
    }

    /** An incoming sysex. An Identity Reply from a Launchkey sets has_faders from its size code
        and puts the device into DAW mode and pot pickup on; anything else is ignored. */
    method HandleMidiSysex(buf: seq<Byte>)
      requires Valid()
      modifies this`hasFaders, this`inDawMode, this`sent, this`identified
      ensures Valid()
      ensures IsLaunchkeyReply(buf) ==>
        && hasFaders == FadersAfterReply(buf[8], old(hasFaders))
        && inDawMode && identified
        && sent == old(sent) + DawModeOnMessages
      ensures !IsLaunchkeyReply(buf) ==>
        && hasFaders == old(hasFaders) && inDawMode == old(inDawMode)
        && sent == old(sent) && identified == old(identified)
    {
      if |buf| >= 5 && buf[0] == 0xF0 && buf[1] == 0x7E && buf[3] == 0x06 && buf[4] == 0x02 {
        if |buf| >= 17 && buf[5] == 0x00 && buf[6] == 0x20 && buf[7] == 0x29
           && buf[10] == 0x00 && buf[11] == 0x00 && buf[16] == 0xF7
        {
          identified := true;
          SetFadersFromSize(buf[8]);
          sent := sent + [[0x9F, 0x0C, 0x7F]];
          inDawMode := true;
          sent := sent + [[0x9F, 0x0A, 0x7F]];
        }
      }
    }

    /** The same handler in the earlier snapshot of the surface, where entering DAW mode is
        commented out: an accepted reply only sets has_faders, sends nothing and leaves
        in_daw_mode alone. */
    method HandleMidiSysexEarly(buf: seq<Byte>)
      requires Valid()
      modifies this`hasFaders, this`identified
      ensures Valid()
      ensures IsLaunchkeyReply(buf) ==> hasFaders == FadersAfterReply(buf[8], old(hasFaders)) && identified
      ensures !IsLaunchkeyReply(buf) ==> hasFaders == old(hasFaders) && identified == old(identified)
    {
      if |buf| >= 5 && buf[0] == 0xF0 && buf[1] == 0x7E && buf[3] == 0x06 && buf[4] == 0x02 {
        if |buf| >= 17 && buf[5] == 0x00 && buf[6] == 0x20 && buf[7] == 0x29
           && buf[10] == 0x00 && buf[11] == 0x00 && buf[16] == 0xF7
        {
          identified := true;
          SetFadersFromSize(buf[8]);
          DawModeOn();
        }
      }
    }

    /** daw_mode_on in the earlier snapshot: its body is commented out, so it sends nothing and
        changes nothing. */
    method DawModeOn()
      ensures unchanged(this)
    {
    }

    /** daw_mode_off in the earlier snapshot: likewise empty. */
    method DawModeOff()
      ensures unchanged(this)
    {
    }

    /** The size-code switch of the sysex handler. */
    method SetFadersFromSize(launchkeySize: Byte)
      requires identified
      modifies this`hasFaders
      ensures hasFaders == FadersAfterReply(launchkeySize, old(hasFaders))
    {
      match launchkeySize {
        case 0x34 => hasFaders := false;
        case 0x35 => hasFaders := false;
        case 0x36 => hasFaders := true;
        case 0x37 => hasFaders := true;
        case 0x40 => hasFaders := true;
        case _ =>
      }
    }

    // -------------------------------------------------------------------------------------
    // Activation

    /** Activates or deactivates the surface; asking for the current state changes nothing.
        Always returns 0. */
    method SetActive(yn: bool) returns (r: int)
      modifies this`active, this`eventLoopRunning
      ensures r == 0
      ensures active == yn
      ensures eventLoopRunning == (old(eventLoopRunning) || (yn && !old(active)))
    {
      if yn == active {
        return 0;
      }
      if yn {
        eventLoopRunning := true;
      }
      active := yn;
      return 0;
    }
  }
}
