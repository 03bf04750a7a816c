/** The Some/None datatype used wherever the source works with a possibly-null reference. */
module Wrappers {

  datatype Option<+T> = None | Some(value: T)
}

/** MIDI wire-level types shared by the Launchkey MK3 modules. */
module Midi {

  /** A MIDI::byte, which is a uint8_t. */
  type Byte = x: int | 0 <= x < 256

  /** A two-byte channel message as the parser hands it to a handler (MIDI::EventTwoBytes):
      for a control change, the controller number and its value. */
  datatype EventTwoBytes = EventTwoBytes(controllerNumber: Byte, value: Byte)

  /** The message kind held in the high nibble of a channel-voice status byte. */
  const NoteOffKind: nat := 0x8
  const NoteOnKind: nat := 0x9

  function StatusKind(status: Byte): (k: nat)
    ensures k < 16
  {
    status / 16
  }

  /** The channel (numbered 1 to 16, as musicians count) held in the low nibble of a status byte. */
  function StatusChannel(status: Byte): (c: nat)
    ensures 1 <= c <= 16
  {
    status % 16 + 1
  }

  /** The status byte of a channel-voice message of kind `kind` on channel `channel`. */
  function Status(kind: nat, channel: nat): (s: Byte)
    requires kind < 16 && 1 <= channel <= 16
    ensures StatusKind(s) == kind && StatusChannel(s) == channel
  {
    kind * 16 + channel - 1
  }
}
