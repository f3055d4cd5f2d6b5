/** Classification of raw MIDI 1.0 messages by their status byte: the channel a
    message addresses, and whether it is the Channel Mode message "All Sound Off"
    (Control Change with controller number 120). */
module Midi {

  type Byte = bv8

  /** The bytes of one MIDI message. The scheduler does not check the length. */
  type Message = seq<Byte>

  /** High nibble of a status byte: the message kind. */
  const KIND_MASK: Byte := 0xF0
  /** Low nibble of a status byte: the channel of a channel message. */
  const CHANNEL_MASK: Byte := 0x0F
  /** Kind nibble of the system messages, which address no channel. */
  const SYSTEM_KIND: Byte := 0xF0
  /** Kind nibble of a Control Change message. */
  const CONTROL_CHANGE: Byte := 0xB0
  /** Controller number of "All Sound Off". */
  const ALL_SOUND_OFF: Byte := 0x78
  /** The channel reported for a message that is not a channel message. */
  const NO_CHANNEL: int := -1

  /** The status byte as the code reads it. An empty message has none; the code reads
      `undefined`, which JavaScript's bitwise operators treat as 0. */
  function Status(m: Message): Byte
  {
    if |m| == 0 then 0 else m[0]
  }

  /** getMessageChannel: the channel 0..15 of a channel message, or NO_CHANNEL. */
  function Channel(m: Message): (c: int)
    ensures NO_CHANNEL <= c < 16
    ensures c == NO_CHANNEL <==> Status(m) >= 0xF0
    ensures c != NO_CHANNEL ==> c == Status(m) as int % 16
  {
    if Status(m) & KIND_MASK != SYSTEM_KIND then (Status(m) & CHANNEL_MASK) as int else NO_CHANNEL
  }

  /** isMessageAllSoundOff: a Control Change whose first data byte is 120. A message too
      short to have a data byte reads `undefined` there, which equals no number. So All
      Sound Off is exactly status 0xB0..0xBF with controller 120, nothing else. */
  predicate IsAllSoundOff(m: Message)
    ensures IsAllSoundOff(m) <==> |m| >= 2 && 0xB0 <= m[0] <= 0xBF && m[1] == 0x78
  {
    if Status(m) & KIND_MASK == CONTROL_CHANGE then |m| >= 2 && m[1] == ALL_SOUND_OFF else false
  }

  /** On a message with a status byte, the channel is the status byte's position within
      its block of sixteen, for every block below the system messages. */
  lemma ChannelOfStatus(m: Message)
    requires |m| >= 1
    ensures Channel(m) == if m[0] as int >= 240 then NO_CHANNEL else m[0] as int % 16
  {
  }

  /** An All Sound Off message always addresses a real channel, never NO_CHANNEL. */
  lemma AllSoundOffHasChannel(m: Message)
    requires IsAllSoundOff(m)
    ensures 0 <= Channel(m) < 16
    ensures Channel(m) == m[0] as int - 0xB0
  {
  }

  /** The channel of the empty message: `undefined & 0xF0` is 0, so it counts as channel 0. */
  lemma EmptyMessage()
    ensures Channel([]) == 0 && !IsAllSoundOff([])
  {
  }

  lemma ChannelExamples()
    ensures Channel([0x93]) == 3
    ensures Channel([0x93, 60, 100]) == 3
    ensures Channel([0xF0]) == NO_CHANNEL
    ensures Channel([0xFF]) == NO_CHANNEL
    ensures Channel([0xB2, 0x78, 0]) == 2
  {
  }

  lemma AllSoundOffExamples()
    ensures IsAllSoundOff([0xB2, 0x78, 0])
    ensures !IsAllSoundOff([0xB2, 0x79, 0])
    ensures !IsAllSoundOff([0x92, 0x78, 0])
    ensures !IsAllSoundOff([0xB2])
  {
  }
}
