# Launchkey MK3 control surface and Slavable master assignments

A Dafny model of the core logic in two parts of Ardour. The first part is the Novation
Launchkey MK3 control surface. The second is the `Slavable` master-assignment component of
libardour.

For the Launchkey MK3 the model covers:

- **The control bank** (`ControlBank`, file `control_bank.dfy`). This is `RangeControllableSet`: a
  bank of 8 pots, or 8 faders plus the master fader. It reads touch messages on MIDI channel 15
  and values and mode selection on channel 16, each inside a fixed CC window. It decodes the
  mode byte into a `ControllableMode`, and on every mode switch it rebuilds its list of bound
  controls from the session. The session is an abstract provider of tracks, sends and plugin
  parameters. Each touch or value goes to the bound control, or nowhere when the index is
  unbound. The class keeps the source's const `faders`/`startingCC` and its mutable mode and
  binding list. The calls it makes on controls are recorded as a log.
- **Device identification** (`LaunchkeyIdentity`). This is the Identity Request / Identity Reply
  exchange of the MIDI 1.0 Detailed Specification (Universal Non-Real-Time System Exclusive,
  General Information, sub-IDs 06 01 and 06 02) with Novation's manufacturer ID 00 20 29. It
  covers the size-code table that decides whether the device has faders, and the channel-16 Note
  On / Note Off commands that enter and leave DAW mode.
- **Ports and the connection state machine** (`LaunchkeyPorts`). This is the port-name test
  (`std::string::find` spelled out) and `probe`. It also covers the two-bit `connection_state`,
  with `device_active` derived from it and the signals raised on each connection change.
- **Button dispatch** (`LaunchkeyButtons`). This is the pressed threshold and the channel-16
  action table.
- **The surface object** (`LaunchkeyMk3`). This is a class with the surface's fields: its ports,
  `connection_state`, `device_active`, `in_daw_mode`, `has_faders`, the three mode fields, a log of
  the MIDI messages sent, and a log of the signals raised. It holds the handlers of the later
  sources (`launchkey_mk3_midi.cc`, `launchkey_mk3_ports.cc`). It also holds what differs in the
  earlier `launchkey_mk3.cc`: the constructor, the sysex handler whose DAW-mode call has an empty
  body, and `set_active`. The earlier `probe` (launchkey_mk3.cc:155-182) and
  `port_connection_handler` (launchkey_mk3.cc:256-309) have the same logic as the later ones.
  They are covered by `LaunchkeyPorts.Probe` and `LaunchkeyMk3.LaunchkeyMk3.PortConnectionHandler`.

For libardour the model covers:

- **`Slavable`** (`ArdourSlavable`, file `slavable.dfy`). This is the set of master VCA numbers
  and its XML state. It covers the assignment of VCA controls to the slave controls (assign,
  unassign, and the deferred `do_assign`). It also covers `assigned_to`, the reachability check
  through masters. `AssignedTo` is proved equivalent to the existence of a chain of masters.

The VCA manager is a list of VCAs, and `vca_by_number` is the first match in that list.
`VCAManager` itself is not part of this model.

## Model

| member | source | states |
|---|---|---|
| ControlBank.ModeOfCode | libs/surfaces/launchkey_mk3/rangecontrollableset.h:53-63 | the mode cast from a byte carries that byte as its enumerator value, and is a declared mode exactly for 1..9 |
| ControlBank.ModeFromValue | libs/surfaces/launchkey_mk3/rangecontrollableset.cc:110-116 | value 0 selects CUSTOM0, any other value selects the mode with that number, and the selected mode is declared exactly when the value is at most 9 |
| ControlBank.ModeCodeRoundTrip | libs/surfaces/launchkey_mk3/rangecontrollableset.h:53-63 | every declared mode has a number in 1..9 (VOLUME=1 … CUSTOM3=9), and casting that number back gives the mode |
| ControlBank.ControlIndex | libs/surfaces/launchkey_mk3/rangecontrollableset.cc:88-98 | a controller number addresses a control exactly when it lies in the bank's window, 0x15..0x1C for pots and 0x35..0x3D for faders; the index is its offset from the starting CC |
| ControlBank.ClassifyValueChannel | libs/surfaces/launchkey_mk3/rangecontrollableset.cc:107-132 | on channel 16 the mode-select CC is always a mode selection and never a value; other CCs in the window are value updates of their index; everything else is ignored |
| ControlBank.PresentFrom | libs/surfaces/launchkey_mk3/rangecontrollableset.cc:171-176 | counts the tracks present from index i on up to the first absent one, never past 8 |
| ControlBank.PresentTracks | libs/surfaces/launchkey_mk3/rangecontrollableset.cc:171-176 | the number of consecutive tracks present from index 0: at most 8, all below it present, and the one at it absent when it is below 8 |
| ControlBank.PresentTracksUnique | libs/surfaces/launchkey_mk3/rangecontrollableset.cc:171-176 | those three facts determine the count |
| ControlBank.TrackBindings | libs/surfaces/launchkey_mk3/rangecontrollableset.cc:169-205 | a rebind in a track mode yields one entry per present track |
| ControlBank.DeviceBindings | libs/surfaces/launchkey_mk3/rangecontrollableset.cc:206-239 | a rebind in DEVICE mode yields at most 8 entries |
| ControlBank.Bindings | libs/surfaces/launchkey_mk3/rangecontrollableset.cc:144-240 | a rebind never yields more than 8 entries, so the master fader is never bound |
| ControlBank.TrackModeBindings | libs/surfaces/launchkey_mk3/rangecontrollableset.cc:169-205 | in a non-DEVICE mode the list stops at the first absent track (at most 8), and entry i is the mode's control of track i: gain, pan azimuth, send 0 or send 1 |
| ControlBank.CustomModesUnbound | libs/surfaces/launchkey_mk3/rangecontrollableset.cc:197-201 | CUSTOM0..3, and any value no enumerator names, give one entry per present track, all unbound |
| ControlBank.DeviceModeBindings | libs/surfaces/launchkey_mk3/rangecontrollableset.cc:206-239 | in DEVICE mode the list is empty without a first track or without a plugin insert in its first slot; otherwise it has min(8, parameter_count) entries, and entry i is the insert's automation control for nth_parameter(i), unbound where nth_parameter fails or the parameter has no control |
| ControlBank.Normalize | libs/surfaces/launchkey_mk3/rangecontrollableset.cc:261 | the interface value lies in [0, 1] for a 7-bit value; it is 0 exactly for raw 0 and 1 exactly for raw 127 |
| ControlBank.NormalizeMonotonic | libs/surfaces/launchkey_mk3/rangecontrollableset.cc:261 | a larger raw value gives a larger interface value |
| ControlBank.TouchCalls | libs/surfaces/launchkey_mk3/rangecontrollableset.cc:244-254 | a touch reaches a control exactly when the index is bound; it then starts or stops one touch on it |
| ControlBank.ValueCalls | libs/surfaces/launchkey_mk3/rangecontrollableset.cc:258-267 | a value reaches a control exactly when the index is bound; it then starts one touch and sets the value scaled by 1/127 |
| ControlBank.TouchChannelCalls | libs/surfaces/launchkey_mk3/rangecontrollableset.cc:85-103 | a CC on channel 15 makes at most one call, and makes one exactly when it addresses a bound index of the window; that call is on the bound control, and is a start of touch exactly when the value exceeds 64 and a stop otherwise |
| ControlBank.MasterFaderIsNoOp | libs/surfaces/launchkey_mk3/rangecontrollableset.cc:244-267 | the master fader (CC 0x3D, index 8) is in the fader window, but neither its touches nor its values reach any control in any mode |
| ControlBank.FaderBankAcceptsPan | libs/surfaces/launchkey_mk3/rangecontrollableset.cc:110-116 | mode value 3 on CC 0x0A selects PAN on a fader bank: nothing rejects it |
| ControlBank.RangeControllableSet.constructor | libs/surfaces/launchkey_mk3/rangecontrollableset.cc:51-75 | a fader bank starts in VOLUME mode with starting CC 0x35, and a pot bank in PAN with 0x15; each is already rebound and has made no calls |
| ControlBank.RangeControllableSet.MidiCcReceiver15 | libs/surfaces/launchkey_mk3/rangecontrollableset.cc:85-103 | appends exactly the touch calls the message makes, and nothing else changes |
| ControlBank.RangeControllableSet.MidiCcReceiver16 | libs/surfaces/launchkey_mk3/rangecontrollableset.cc:107-132 | a mode selection switches mode and rebinds without any call; a value update leaves mode and bindings alone and appends its calls; anything else changes nothing |
| ControlBank.RangeControllableSet.ModeSwitch | libs/surfaces/launchkey_mk3/rangecontrollableset.cc:136-140 | the mode becomes the new one and the bindings are those of the new mode |
| ControlBank.RangeControllableSet.ReassignStripables | libs/surfaces/launchkey_mk3/rangecontrollableset.cc:144-240 | the binding list is rebuilt from empty and equals the bindings of the current mode |
| ControlBank.RangeControllableSet.TouchEvent | libs/surfaces/launchkey_mk3/rangecontrollableset.cc:244-254 | appends the touch calls for the index, none when it is out of range or unbound |
| ControlBank.RangeControllableSet.NewValueReceived | libs/surfaces/launchkey_mk3/rangecontrollableset.cc:258-267 | appends the value calls for the index, none when it is out of range or unbound |
| LaunchkeyIdentity.EncodeReply | libs/surfaces/launchkey_mk3/launchkey_mk3_midi.cc:118-131 | a Launchkey reply is 17 bytes long |
| LaunchkeyIdentity.DecodeReply | libs/surfaces/launchkey_mk3/launchkey_mk3_midi.cc:118-131 | a sysex is accepted exactly when it is at least 17 bytes with F0 7E, 06 02, 00 20 29, 00 00 at bytes 10-11 and F7 at byte 16 (the device id is not checked); the size code is byte 8 |
| LaunchkeyIdentity.DecodeEncode | libs/surfaces/launchkey_mk3/launchkey_mk3_midi.cc:118-145 | every reply a Launchkey sends is accepted and yields its own fields |
| LaunchkeyIdentity.EncodeDecode | libs/surfaces/launchkey_mk3/launchkey_mk3_midi.cc:118-145 | an accepted 17-byte reply is exactly the encoding of its fields |
| LaunchkeyIdentity.RequestIsNotReply | libs/surfaces/launchkey_mk3/launchkey_mk3_midi.cc:59 | the request is the 6 bytes F0 7E 7F 06 01 F7, and it is not accepted as a reply |
| LaunchkeyIdentity.VariantOfSizeCode | libs/surfaces/launchkey_mk3/launchkey_mk3_midi.cc:147-168 | the size table knows exactly 0x34, 0x35, 0x36, 0x37 and 0x40 |
| LaunchkeyIdentity.FadersAfterReply | libs/surfaces/launchkey_mk3/launchkey_mk3_midi.cc:147-168 | has_faders becomes the table's answer (faders only for 49, 61 and 88 keys), and stays as it was for an unknown code |
| LaunchkeyIdentity.FirmwareVersion | libs/surfaces/launchkey_mk3/launchkey_mk3_midi.cc:139-145 | the version string is four characters, each the ASCII digit of its byte |
| LaunchkeyIdentity.DawCommandsMirror | libs/surfaces/launchkey_mk3/launchkey_mk3_midi.cc:177-182 | entering DAW mode is Note On 7F on channel 16 for notes 0C then 0A; leaving is Note Off 00 for the same notes in the same order |
| LaunchkeyPorts.FindFrom | libs/surfaces/launchkey_mk3/launchkey_mk3_ports.cc:58-60 | returns the first occurrence of the pattern at or after the start, and None only when there is none |
| LaunchkeyPorts.Find | libs/surfaces/launchkey_mk3/launchkey_mk3_ports.cc:58-60 | find returns the first occurrence, and npos exactly when the pattern occurs nowhere |
| LaunchkeyPorts.HasLkmk3DawMeaning | libs/surfaces/launchkey_mk3/launchkey_mk3_ports.cc:55-61 | a hardware name qualifies exactly when it contains "Launchkey MK3" or "LKMK3", and also "DAW" |
| LaunchkeyPorts.HasLkmk3DawExample | libs/surfaces/launchkey_mk3/launchkey_mk3_ports.cc:55-61 | names of both spellings qualify |
| LaunchkeyPorts.FindQualifying | libs/surfaces/launchkey_mk3/launchkey_mk3_ports.cc:63-64 | find_if returns the first qualifying port, and the end only when none qualifies |
| LaunchkeyPorts.Probe | libs/surfaces/launchkey_mk3/launchkey_mk3_ports.cc:46-76 | probe succeeds exactly when some input and some output qualify, and then yields the first qualifying one of each |
| LaunchkeyPorts.BitFacts | libs/surfaces/launchkey_mk3/launchkey_mk3_ports.cc:256-267 | setting or clearing one connection bit leaves the other bit and the unused bits alone |
| LaunchkeyPorts.BitsDisjoint | libs/surfaces/launchkey_mk3/launchkey_mk3.h:114-117 | InputConnected and OutputConnected are disjoint, so both connected is exactly the value 3 |
| LaunchkeyPorts.InvolvedSide | libs/surfaces/launchkey_mk3/launchkey_mk3_ports.cc:256-272 | a change naming our input concerns the input; otherwise one naming our output concerns the output; otherwise neither |
| LaunchkeyPorts.UpdateBit | libs/surfaces/launchkey_mk3/launchkey_mk3_ports.cc:256-267 | only the bit of the side concerned becomes yn |
| LaunchkeyPorts.StepFacts | libs/surfaces/launchkey_mk3/launchkey_mk3_ports.cc:256-294 | after a change the device is active exactly when both bits are set; disconnected() is raised exactly on the active-to-inactive edge; connected() is raised exactly when active; ConnectionChange comes last every time |
| LaunchkeyPorts.StepKeepsInvariant | libs/surfaces/launchkey_mk3/launchkey_mk3_ports.cc:274-294 | every change keeps "no stray bits, and active exactly when both bits are set" |
| LaunchkeyPorts.InitialLinkInvariant | libs/surfaces/launchkey_mk3/launchkey_mk3.cc:72-78 | the initial state (no bits, inactive) satisfies that invariant |
| LaunchkeyPorts.RunBits | libs/surfaces/launchkey_mk3/launchkey_mk3_ports.cc:256-267 | after any sequence of changes each bit reflects the last change of its side |
| LaunchkeyPorts.RunActive | libs/surfaces/launchkey_mk3/launchkey_mk3_ports.cc:274-292 | after any non-empty sequence of changes the device is active exactly when both bits are set |
| LaunchkeyPorts.RunReflectsLastEvents | libs/surfaces/launchkey_mk3/launchkey_mk3_ports.cc:256-292 | so the device ends up active exactly when the last change of each side was a connect, whatever the order of arrival |
| LaunchkeyPorts.RunKeepsInvariant | libs/surfaces/launchkey_mk3/launchkey_mk3_ports.cc:256-294 | the invariant holds after any sequence of changes |
| LaunchkeyPorts.ConnectOrderIrrelevant | libs/surfaces/launchkey_mk3/launchkey_mk3_ports.cc:274-292 | connecting input then output, or output then input, reaches the same active state |
| LaunchkeyButtons.Channel1Action | libs/surfaces/launchkey_mk3/launchkey_mk3_midi.cc:191-210 | no channel-1 button triggers an action |
| LaunchkeyButtons.Channel16Action | libs/surfaces/launchkey_mk3/launchkey_mk3_midi.cc:214-302 | a release (value below 64) triggers nothing; any action triggered is the table's action for that controller |
| LaunchkeyButtons.Channel16MatchesTable | libs/surfaces/launchkey_mk3/launchkey_mk3_midi.cc:242-298 | a press of one of 0x67, 0x66, 0x4B, 0x4C, 0x4D, 0x73, 0x74, 0x75, 0x76 triggers exactly its action, and every other press triggers none |
| LaunchkeyButtons.Channel16ActionsDistinct | libs/surfaces/launchkey_mk3/launchkey_mk3_midi.cc:245-298 | no two buttons trigger the same action |
| LaunchkeyMk3.LaunchkeyMk3.constructor | libs/surfaces/launchkey_mk3/launchkey_mk3.cc:68-113 | connection state 0; not active, not in DAW mode, no faders; modes SESSION, PAN and VOLUME; nothing sent |
| LaunchkeyMk3.LaunchkeyMk3.PortConnectionHandler | libs/surfaces/launchkey_mk3/launchkey_mk3_ports.cc:242-295 | with a port gone, or neither port named, nothing changes and nothing is signalled; otherwise bits, activity and signals follow one connection step, and the invariant is kept |
| LaunchkeyMk3.LaunchkeyMk3.SetConnectionBit | libs/surfaces/launchkey_mk3/launchkey_mk3_ports.cc:256-267 | the bit of the side concerned is set or cleared, and nothing else changes |
| LaunchkeyMk3.LaunchkeyMk3.RaiseConnectionSignals | libs/surfaces/launchkey_mk3/launchkey_mk3_ports.cc:274-294 | device_active and the signals raised are those of the connection step, and the invariant is restored |
| LaunchkeyMk3.LaunchkeyMk3.PortRegistrationHandler | libs/surfaces/launchkey_mk3/launchkey_mk3_ports.cc:209-238 | nothing is requested when a port is gone, when both are connected, or when probe fails; otherwise only the unconnected sides are connected to the probed ports |
| LaunchkeyMk3.LaunchkeyMk3.ReleasePorts | libs/surfaces/launchkey_mk3/launchkey_mk3_ports.cc:190-205 | both ports are gone afterwards |
| LaunchkeyMk3.LaunchkeyMk3.StartMidiHandling | libs/surfaces/launchkey_mk3/launchkey_mk3_midi.cc:54-60 | the Identity Request is sent, and nothing else |
| LaunchkeyMk3.LaunchkeyMk3.StopMidiHandling | libs/surfaces/launchkey_mk3/launchkey_mk3_midi.cc:64-79 | only an active device in DAW mode is sent the two leave commands and leaves DAW mode; otherwise nothing is sent; afterwards the device is never both, so a second call sends nothing |
| LaunchkeyMk3.LaunchkeyMk3.HandleIncomingMidi | libs/surfaces/launchkey_mk3/launchkey_mk3_midi.cc:83-109 | the port is watched further exactly when it still exists and no condition other than IN is set; data is parsed exactly when IN is set and the device is active |
| LaunchkeyMk3.LaunchkeyMk3.HandleMidiSysex | libs/surfaces/launchkey_mk3/launchkey_mk3_midi.cc:113-187 | an accepted reply sets has_faders from the size table, sends the two DAW-mode commands and sets in_daw_mode; any other sysex changes nothing and sends nothing |
| LaunchkeyMk3.LaunchkeyMk3.HandleMidiSysexEarly | libs/surfaces/launchkey_mk3/launchkey_mk3.cc:360-426 | in the earlier snapshot an accepted reply only sets has_faders: nothing is sent and in_daw_mode is untouched |
| LaunchkeyMk3.LaunchkeyMk3.DawModeOn | libs/surfaces/launchkey_mk3/launchkey_mk3.cc:470-494 | the earlier daw_mode_on changes nothing |
| LaunchkeyMk3.LaunchkeyMk3.DawModeOff | libs/surfaces/launchkey_mk3/launchkey_mk3.cc:498-516 | the earlier daw_mode_off changes nothing |
| LaunchkeyMk3.LaunchkeyMk3.SetFadersFromSize | libs/surfaces/launchkey_mk3/launchkey_mk3_midi.cc:147-168 | has_faders follows the size table, and an unknown code leaves it unchanged |
| LaunchkeyMk3.LaunchkeyMk3.SetActive | libs/surfaces/launchkey_mk3/launchkey_mk3.cc:430-466 | always returns 0; asking for the current state changes nothing; activation starts the event loop |
| ArdourSlavable.VcaByNumber | libs/ardour/slavable.cc:119-126 | a VCA found has the number asked for, and none is found exactly when the manager has no VCA with it |
| ArdourSlavable.AssignedTo | libs/ardour/slavable.cc:74-87 | a VCA is assigned to itself; a route is never assigned to anything |
| ArdourSlavable.ChainCons | libs/ardour/slavable.cc:80-85 | a VCA followed by a chain from one of its masters is a chain of masters |
| ArdourSlavable.AssignedToHasChain | libs/ardour/slavable.cc:74-87 | when assigned_to holds, a chain of masters leads from the VCA to this Slavable |
| ArdourSlavable.ChainMakesAssignedTo | libs/ardour/slavable.cc:74-87 | any chain of masters from the VCA to this Slavable makes assigned_to hold |
| ArdourSlavable.AscendingElements | libs/ardour/slavable.cc:54-58 | iterating the master set visits exactly its elements |
| ArdourSlavable.AscendingSorted | libs/ardour/slavable.cc:54-58 | iterating the master set visits them in strictly ascending order |
| ArdourSlavable.AscendingFacts | libs/ardour/slavable.cc:54-58 | both of the above |
| ArdourSlavable.MasterNumbersMeaning | libs/ardour/slavable.cc:99-107 | set_state takes the number of every "Master" child with a number property, and nothing from other children |
| ArdourSlavable.GetStateSetStateRoundTrip | libs/ardour/slavable.cc:47-61 | the state is a "Slavable" node with one "Master" child per master in strictly ascending order, and restoring it gives back exactly the master set |
| ArdourSlavable.AssignUnassignControl | libs/ardour/slavable.cc:216-241 | assigning a control adds the VCA's control for the parameter, and unassigning it removes it again; a VCA without that control changes neither way; unassigning from all leaves no master |
| ArdourSlavable.WithMastersAdds | libs/ardour/slavable.cc:133-135 | assigning a slave to a list of VCAs adds exactly their controls for its parameter |
| ArdourSlavable.DoAssignEffect | libs/ardour/slavable.cc:131-141 | after do_assign every slave keeps its parameter and follows in addition exactly the found VCAs' controls; saved ratios are applied once exactly when some VCA was found |
| ArdourSlavable.FoundVcas | libs/ardour/slavable.cc:119-126 | only VCAs of the manager whose numbers are masters are found |
| ArdourSlavable.FoundVcasComplete | libs/ardour/slavable.cc:119-126 | every master number the manager knows yields its VCA |
| ArdourSlavable.MasterList | libs/ardour/slavable.cc:68-70 | masters() yields one entry per number; an entry is the manager's VCA with that number, and null exactly when the manager has no VCA with it |
| ArdourSlavable.FoundVcasArePresentMasters | libs/ardour/slavable.cc:119-126 | the VCAs do_assign finds are exactly the non-null entries masters() would yield for the same numbers, in the same order |
| ArdourSlavable.Slavable.constructor | libs/ardour/slavable.cc:42-45 | no masters, and connected to the Assign signal |
| ArdourSlavable.Slavable.SortedMasters | libs/ardour/slavable.cc:54-58 | the masters in ascending order |
| ArdourSlavable.Slavable.GetState | libs/ardour/slavable.cc:47-61 | the state node of the master set, with the round trip above |
| ArdourSlavable.Slavable.SetState | libs/ardour/slavable.cc:89-109 | a node not named "Slavable" gives -1 and changes nothing; otherwise the masters gain exactly the numbers of the "Master" children, and 0 is returned |
| ArdourSlavable.Slavable.AssignControl | libs/ardour/slavable.cc:216-226 | returns false and changes nothing when the VCA has no control for the slave's parameter; otherwise the slave follows it |
| ArdourSlavable.Slavable.AssignControls | libs/ardour/slavable.cc:196-205 | every slave is offered the VCA, and the result is true exactly when at least one accepted |
| ArdourSlavable.Slavable.Assign | libs/ardour/slavable.cc:148-169 | the VCA's number becomes a master only if some control accepted; an assignment change is emitted in any case |
| ArdourSlavable.Slavable.UnassignControl | libs/ardour/slavable.cc:228-241 | with no VCA the slave drops all masters, otherwise only the VCA's control for its parameter |
| ArdourSlavable.Slavable.UnassignControls | libs/ardour/slavable.cc:207-214 | every slave is unassigned |
| ArdourSlavable.Slavable.Unassign | libs/ardour/slavable.cc:180-194 | only the VCA's number leaves the masters, or all numbers when there is no VCA |
| ArdourSlavable.Slavable.Masters | libs/ardour/slavable.cc:63-72 | masters(): the lookup of every master number in ascending order, keeping the null entries |
| ArdourSlavable.Slavable.FindMasters | libs/ardour/slavable.cc:119-126 | the VCAs found for the masters, in ascending order of number; unknown numbers are skipped |
| ArdourSlavable.Slavable.AssignAll | libs/ardour/slavable.cc:133-135 | each found VCA is assigned in turn and the master set does not change |
| ArdourSlavable.Slavable.RestoreSavedRatios | libs/ardour/slavable.cc:137-140 | every slave applies its saved ratios once |
| ArdourSlavable.Slavable.DoAssign | libs/ardour/slavable.cc:111-146 | returns 0 and disconnects from Assign; the master set is unchanged; slaves and assignment changes are those of assigning the found VCAs in ascending order, and ratios are restored only if some VCA was found |

## Left out

- I/O, threads and the event loop are not modelled: AudioEngine port registration and lookup,
  `drain`, `g_usleep`, `port->clear`, the AbstractUI/BaseUI loop, thread setup and the locks.
  Ports appear by their names. The engine's lists of physical ports and their hardware names are
  parameters. Connection requests and MIDI writes are logs.
- Port names are taken as already non-relative. `make_port_name_non_relative` is not modelled.
- The wiring of parser signals to handlers is not modelled. That includes the mismatched handler
  names in launchkey_mk3_ports.cc:136-166. `connected()`/`disconnected()` are empty stubs in the
  source (launchkey_mk3.cc:313-323), so the model records them as signals.
- `connection_state` is an `int` in the source and is a `bv8` here. Only bits 0 and 1 are ever
  set, and the invariant states that no other bit is set.
- `interface_to_internal`, `set_value` and the gain and pan curves are not modelled. A value
  update records the interface value (raw / 127, as a `real`) that is handed to
  `interface_to_internal`. The transport time passed to `start_touch`/`stop_touch` is not
  modelled either.
- The session is an abstract provider. Track lookup, send levels, plugin parameter enumeration
  and the controls of a plugin insert are given as data.
- A mode byte above 9 is cast to `ControllableMode` in the source and hits no case. The model
  keeps it as `Undeclared(code)`, which binds nothing. PAN on a fader bank is documented as
  unavailable, but nothing rejects it (`FaderBankAcceptsPan`).
- `handle_midi_controller_message` and the other MIDI handlers of launchkey_mk3.cc are not modelled.
  Neither are the pad-mode switch of the channel-16 handler, the state serialisation delegated to
  `Port`, or `stop`/`do_request`/`thread_init`. The modes are data only.
- The firmware version and the boot/app indicator are only logged by the source. The model
  decodes them (`FirmwareVersion`) but does not keep them.
- LaunchkeyIdentity.FirmwareVersion: computes 0x30 plus each version byte as an unbounded
  integer. The source's cast to `char` wraps for bytes above 0x4F; the model does not capture
  that wrap, since the value only reaches a log.
- The constructor's own probe-and-connect (launchkey_mk3.cc:106-112) is not modelled separately.
  It connects both sides to the probed ports, as `PortRegistrationHandler` does when neither
  side is connected.
- `weak_unassign` (slavable.cc:171-178) is not modelled: it only locks a weak reference and calls
  `unassign`.
- ArdourSlavable.AssignedTo: requires `WellRanked` of the whole manager: every master number of
  every VCA in the manager resolves, and a rank that decreases from each VCA to its masters exists.
  The source only walks the VCAs reachable from `mst`, and returns true for `mst` itself without
  consulting the manager. It dereferences the lookup result without a check and would not
  terminate on a cycle, so a manager outside this assumption is not modelled.
- XML property text is taken as already converted to a number. The `uint32_t` width of VCA
  numbers is not modelled.
- The slave controls' internals (`SlavableAutomationControl`, master ratios) are reduced to the
  set of masters followed and a count of `use_saved_master_ratios` calls. The `Drop` and
  `DropReferences` connections made by `assign` are not modelled.
- ControlBank.TrackBindings: its own contract states only the length. Entry by entry the list is
  stated by `TrackModeBindings` and `CustomModesUnbound`.
- ControlBank.DeviceBindings: its own contract states only the bound of 8. The exact length and
  every entry are stated by `DeviceModeBindings`.
- ControlBank.Bindings: its own contract states only the bound of 8. Its content is stated by
  the three lemmas above.
- `in_daw_mode` is not cleared when the device disconnects. No set of touched controls is kept.
  `connected()` is raised on every change that leaves both bits set, not only on the edge.
- `do_assign` keeps in the master set the numbers the manager does not know, as the code does.
