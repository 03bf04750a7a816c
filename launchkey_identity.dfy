/** Device identification of a Launchkey MK3: the Identity Request / Identity Reply pair of
    the MIDI 1.0 Detailed Specification (Universal Non-Real-Time System Exclusive, General
    Information, sub-IDs 06 01 and 06 02), with Novation's manufacturer ID 00 20 29, and the
    Note On / Note Off commands on channel 16 that put the device into DAW mode and out of it. */
module LaunchkeyIdentity {

  import opened Wrappers
  import opened Midi

  /** The Identity Request sent to ask the device who it is (device id 7F: all devices). */
  const IdentityRequest: seq<Byte> := [0xF0, 0x7E, 0x7F, 0x06, 0x01, 0xF7]

  /** The shortest Identity Reply a Launchkey sends. */
  const ReplyLength: nat := 17

  /** An Identity Reply: universal non-real-time header F0 7E, sub-IDs 06 02. The device id in
      byte 2 is not checked. */
  predicate IsIdentityReply(buf: seq<Byte>) {
    |buf| >= 5 && buf[0] == 0xF0 && buf[1] == 0x7E && buf[3] == 0x06 && buf[4] == 0x02
  }

  /** An Identity Reply from a Launchkey: at least 17 bytes, manufacturer 00 20 29, bytes 10 and
      11 zero, and F7 at byte 16. */
  predicate IsLaunchkeyReply(buf: seq<Byte>) {
    && IsIdentityReply(buf)
    && |buf| >= ReplyLength
    && buf[5] == 0x00 && buf[6] == 0x20 && buf[7] == 0x29
    && buf[10] == 0x00 && buf[11] == 0x00
    && buf[16] == 0xF7
  }

  /** The fields a Launchkey reply carries. */
  datatype LaunchkeyReply = LaunchkeyReply(
    deviceId: Byte,
    sizeCode: Byte,
    modeIndicator: Byte,     // 1 when the device runs its application, 0 in its boot loader
    version: seq<Byte>)      // four decimal digits of the firmware version

  predicate WellFormedReply(r: LaunchkeyReply) {
    |r.version| == 4
  }

  /** The 17-byte reply a Launchkey sends for the given fields. */
  function EncodeReply(r: LaunchkeyReply): (buf: seq<Byte>)
    requires WellFormedReply(r)
    ensures |buf| == ReplyLength
  {
    [0xF0, 0x7E, r.deviceId, 0x06, 0x02, 0x00, 0x20, 0x29, r.sizeCode, r.modeIndicator, 0x00, 0x00]
      + r.version + [0xF7]
  }

  /** The fields the handler extracts from an accepted reply; None for any other sysex. */
  function DecodeReply(buf: seq<Byte>): (r: Option<LaunchkeyReply>)
    ensures r.Some? <==> IsLaunchkeyReply(buf)
    ensures r.Some? ==> WellFormedReply(r.value) && r.value.sizeCode == buf[8]
  {
    if IsLaunchkeyReply(buf) then Some(LaunchkeyReply(buf[2], buf[8], buf[9], buf[12..16])) else None
  }

  /** Every reply a Launchkey sends is accepted and decodes to its own fields. */
  lemma {:induction false} DecodeEncode(r: LaunchkeyReply)
    requires WellFormedReply(r)
    ensures IsLaunchkeyReply(EncodeReply(r))
    ensures DecodeReply(EncodeReply(r)) == Some(r)
  {
    var buf := EncodeReply(r);
    assert buf[12..16] == r.version;
  }

  /** An accepted reply of exactly 17 bytes is the encoding of what it decodes to. */
  lemma {:induction false} EncodeDecode(buf: seq<Byte>)
    requires IsLaunchkeyReply(buf) && |buf| == ReplyLength
    ensures EncodeReply(DecodeReply(buf).value) == buf
  {
    var e := EncodeReply(DecodeReply(buf).value);
    assert forall i :: 0 <= i < |buf| ==> e[i] == buf[i];
  }

  /** Our own request, were it echoed back, is not taken for a reply. */
  lemma RequestIsNotReply()
    ensures |IdentityRequest| == 6
    ensures !IsIdentityReply(IdentityRequest) && !IsLaunchkeyReply(IdentityRequest)
  {
  }

  /** The models, by the size code of the reply. */
  datatype Variant = Keys25 | Keys37 | Keys49 | Keys61 | Keys88

  /** The size-code table; None where the code is not in the table. */
  function VariantOfSizeCode(code: Byte): (v: Option<Variant>)
    ensures v.Some? <==> code in {0x34, 0x35, 0x36, 0x37, 0x40}
  {
    match code
    case 0x34 => Some(Keys25)
    case 0x35 => Some(Keys37)
    case 0x36 => Some(Keys49)
    case 0x37 => Some(Keys61)
    case 0x40 => Some(Keys88)
    case _ => None
  }

  /** Only the 49, 61 and 88 key models have faders. */
  function VariantHasFaders(v: Variant): bool {
    v in {Keys49, Keys61, Keys88}
  }

  /** has_faders after an accepted reply with this size code: set from the table, and left as
      it was for a code the table does not know. */
  function FadersAfterReply(code: Byte, hadFaders: bool): (hasFaders: bool)
    ensures VariantOfSizeCode(code).Some? ==> hasFaders == VariantHasFaders(VariantOfSizeCode(code).value)
    ensures VariantOfSizeCode(code).None? ==> hasFaders == hadFaders
    ensures hasFaders && !hadFaders ==> code in {0x36, 0x37, 0x40}
    ensures !hasFaders && hadFaders ==> code in {0x34, 0x35}
  {
    match code
    case 0x34 => false
    case 0x35 => false
    case 0x36 => true
    case 0x37 => true
    case 0x40 => true
    case _ => hadFaders
  }

  /** The firmware version as the four ASCII digits the handler builds for its log. */
  function FirmwareVersion(r: LaunchkeyReply): (s: seq<int>)
    requires WellFormedReply(r)
    ensures |s| == 4
    ensures forall i :: 0 <= i < 4 && r.version[i] <= 9 ==> '0' as int <= s[i] <= '9' as int
    ensures forall i :: 0 <= i < 4 ==> s[i] - '0' as int == r.version[i]
  {
    seq(4, i requires 0 <= i < 4 => 0x30 + r.version[i] as int)
  }

  /** Note On, value 7F, on channel 16 for DAW mode (0C) and then for pot pickup (0A). */
  const DawModeOnMessages: seq<seq<Byte>> := [[0x9F, 0x0C, 0x7F], [0x9F, 0x0A, 0x7F]]

  /** Note Off, value 00, on channel 16 for DAW mode (0C) and then for pot pickup (0A). */
  const DawModeOffMessages: seq<seq<Byte>> := [[0x8F, 0x0C, 0x00], [0x8F, 0x0A, 0x00]]

  /** The note of a three-byte channel message. */
  function Note(msg: seq<Byte>): Byte
    requires |msg| == 3
  {
    msg[1]
  }

  /** The enter and leave commands mirror each other: the same two notes in the same order, on
      channel 16, as Note On 7F and Note Off 00 respectively. */
  lemma {:induction false} DawCommandsMirror()
    ensures |DawModeOnMessages| == |DawModeOffMessages| == 2
    ensures forall i :: 0 <= i < 2 ==>
      && |DawModeOnMessages[i]| == 3 && |DawModeOffMessages[i]| == 3
      && Note(DawModeOnMessages[i]) == Note(DawModeOffMessages[i])
      && StatusKind(DawModeOnMessages[i][0]) == NoteOnKind && DawModeOnMessages[i][2] == 0x7F
      && StatusKind(DawModeOffMessages[i][0]) == NoteOffKind && DawModeOffMessages[i][2] == 0x00
      && StatusChannel(DawModeOnMessages[i][0]) == 16 && StatusChannel(DawModeOffMessages[i][0]) == 16
    ensures Note(DawModeOnMessages[0]) == 0x0C && Note(DawModeOnMessages[1]) == 0x0A
  {
    assert DawModeOnMessages[0][0] == Status(NoteOnKind, 16);
    assert DawModeOffMessages[0][0] == Status(NoteOffKind, 16);
  }
}
