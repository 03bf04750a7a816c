/** Button dispatch of the Launchkey MK3 surface: control changes from the buttons, gated by
    the pressed threshold, become named editor and transport actions. */
module LaunchkeyButtons {

  import opened Wrappers
  import opened Midi

  /** A button counts as pressed from this value on (127 pressed, 0 released). */
  const PressedThreshold: nat := 64

  /** The actions the buttons on channel 16 trigger, by controller number. */
  const Channel16Actions: map<Byte, string> := map[
    0x67 := "Editor/step-tracks-up",
    0x66 := "Editor/step-tracks-down",
    0x4B := "Editor/quantize",
    0x4C := "Transport/ToggleClick",
    0x4D := "Editor/Undo",
    0x73 := "Transport/Roll",
    0x74 := "Transport/Stop",
    0x75 := "Transport/Record",
    0x76 := "Transport/Loop"
  ]

  /** handle_midi_buttons_channel1: the shift key and the two buttons it knows have no action
      yet, so nothing is ever triggered. */
  function Channel1Action(ev: EventTwoBytes): (r: Option<string>)
    ensures r.None?
  {
    if ev.value < PressedThreshold then None
    else
      match ev.controllerNumber
      case 0x6C => None    // shift
      case 0x68 => None    // right arrow above stop/solo/mute
      case 0x69 => None    // stop/solo/mute
      case _ => None
  }

  /** handle_midi_buttons_channel16: the action a button press on channel 16 triggers. */
  function Channel16Action(ev: EventTwoBytes): (r: Option<string>)
    ensures ev.value < PressedThreshold ==> r.None?
    ensures r.Some? ==> ev.controllerNumber in Channel16Actions && r.value == Channel16Actions[ev.controllerNumber]
  {
    if ev.value < PressedThreshold then None
    else
      match ev.controllerNumber
      case 0x67 => Some("Editor/step-tracks-up")      // left arrow (flipped on the device)
      case 0x66 => Some("Editor/step-tracks-down")    // right arrow
      case 0x6A => None                               // arrow up
      case 0x6B => None                               // arrow down
      case 0x33 => None                               // device select
      case 0x34 => None                               // device lock
      case 0x4A => None                               // capture MIDI
      case 0x4B => Some("Editor/quantize")
      case 0x4C => Some("Transport/ToggleClick")
      case 0x4D => Some("Editor/Undo")
      case 0x73 => Some("Transport/Roll")
      case 0x74 => Some("Transport/Stop")
      case 0x75 => Some("Transport/Record")
      case 0x76 => Some("Transport/Loop")
      case _ => None
  }

  /** A press of a mapped button triggers exactly its action, and every other press or any
      release triggers none. */
  lemma Channel16MatchesTable(ev: EventTwoBytes)
    ensures Channel16Action(ev) ==
      if ev.value >= PressedThreshold && ev.controllerNumber in Channel16Actions
      then Some(Channel16Actions[ev.controllerNumber]) else None
  {
  }

  /** No two buttons trigger the same action. */
  lemma {:induction false} Channel16ActionsDistinct(a: Byte, b: Byte)
    requires a in Channel16Actions && b in Channel16Actions && a != b
    ensures Channel16Actions[a] != Channel16Actions[b]
  {
  }
}
