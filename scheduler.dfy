/** One scheduler tick as pure selection over the event buffer: which events are due,
    which channels receive a due All Sound Off, and what stays buffered. */
module Scheduler {
  import opened Midi
  import opened Seqs

  /** A buffered MIDI event. It is an object: two events with the same bytes and
      the same timestamp are still two events, and membership is identity. */
  class MidiEvent {
    const message: Message
    /** Time on the sender's clock. */
    const timestamp: int

    constructor (message: Message, timestamp: int)
      ensures this.message == message && this.timestamp == timestamp
    {
      this.message := message;
      this.timestamp := timestamp;
    }
  }

  /** A batch as delivered by the host: events and the sender's clock at sending. */
  datatype EventBatch = EventBatch(events: seq<MidiEvent>, timestamp: int)

  /** How long until `e` is due on the local clock, given the clock offset. */
  function Delay(e: MidiEvent, now: int, offset: int): int
  {
    e.timestamp - now + offset
  }

  predicate IsDue(e: MidiEvent, now: int, offset: int)
  {
    Delay(e, now, offset) <= 0
  }

  /** `eventsToSend`: the due events, in buffer order. */
  function Due(buffer: seq<MidiEvent>, now: int, offset: int): seq<MidiEvent>
  {
    Filter(buffer, e => IsDue(e, now, offset))
  }

  /** `allSoundOffChannels`: the channel of every All Sound Off among the events to send. */
  function KillChannels(toSend: seq<MidiEvent>): seq<int>
  {
    Map(Filter(toSend, (e: MidiEvent) => IsAllSoundOff(e.message)), (e: MidiEvent) => Channel(e.message))
  }

  /** The new buffer: every event that is not being sent and whose channel has not
      received a due All Sound Off. */
  function Remaining(buffer: seq<MidiEvent>, now: int, offset: int): seq<MidiEvent>
  {
    var toSend := Due(buffer, now, offset);
    var kill := KillChannels(toSend);
    Filter(buffer, e => e !in toSend && Channel(e.message) !in kill)
  }

  /** The messages handed to the synthesizer for a sequence of events. */
  function Messages(events: seq<MidiEvent>): seq<Message>
  {
    Map(events, (e: MidiEvent) => e.message)
  }

  // ---------------------------------------------------------------------------
  // Reference definitions, stated on the buffer directly

  /** The channels that receive a due All Sound Off in this tick. */
  ghost function KillSet(buffer: seq<MidiEvent>, now: int, offset: int): set<int>
  {
    set d | d in buffer && IsDue(d, now, offset) && IsAllSoundOff(d.message) :: Channel(d.message)
  }

  /** An event that is not due yet but is dropped by the channel-wide kill. */
  ghost predicate IsPurged(e: MidiEvent, buffer: seq<MidiEvent>, now: int, offset: int)
  {
    !IsDue(e, now, offset) && Channel(e.message) in KillSet(buffer, now, offset)
  }

  /** An event that neither is sent nor is purged. */
  ghost predicate IsRetained(e: MidiEvent, buffer: seq<MidiEvent>, now: int, offset: int)
  {
    !IsDue(e, now, offset) && Channel(e.message) !in KillSet(buffer, now, offset)
  }

  /** The events the tick drops without sending them. */
  ghost function Purged(buffer: seq<MidiEvent>, now: int, offset: int): seq<MidiEvent>
  {
    Filter(buffer, e => IsPurged(e, buffer, now, offset))
  }

  // ---------------------------------------------------------------------------
  // Properties of one tick

  /** The kill list holds exactly the channels of the due All Sound Off messages,
      and only real channels. */
  lemma KillChannelsSpec(buffer: seq<MidiEvent>, now: int, offset: int)
    ensures forall c :: c in KillChannels(Due(buffer, now, offset)) <==> c in KillSet(buffer, now, offset)
    ensures forall c :: c in KillSet(buffer, now, offset) ==> 0 <= c < 16
  {
    var toSend := Due(buffer, now, offset);
    var aso := Filter(toSend, (e: MidiEvent) => IsAllSoundOff(e.message));
    var ch := (e: MidiEvent) => Channel(e.message);
    FilterMembership(buffer, e => IsDue(e, now, offset));
    FilterMembership(toSend, (e: MidiEvent) => IsAllSoundOff(e.message));
    forall c ensures c in KillChannels(toSend) <==> c in KillSet(buffer, now, offset) {
      MapMembership(aso, ch, c);
    }
    forall c | c in KillSet(buffer, now, offset) ensures 0 <= c < 16 {
      var d :| d in buffer && IsDue(d, now, offset) && IsAllSoundOff(d.message) && Channel(d.message) == c;
      AllSoundOffHasChannel(d.message);
    }
  }

  /** The new buffer, computed with identity membership as the code does, is the
      buffer restricted to the retained events. */
  lemma RemainingSpec(buffer: seq<MidiEvent>, now: int, offset: int)
    ensures Remaining(buffer, now, offset) == Filter(buffer, e => IsRetained(e, buffer, now, offset))
  {
    var toSend := Due(buffer, now, offset);
    var kill := KillChannels(toSend);
    KillChannelsSpec(buffer, now, offset);
    FilterMembership(buffer, e => IsDue(e, now, offset));
    FilterCongruent(buffer,
      e => e !in toSend && Channel(e.message) !in kill,
      e => IsRetained(e, buffer, now, offset));
  }

  /** The tick sends exactly the due events of the buffer, each occurrence once, in buffer order. */
  lemma DispatchIsDue(buffer: seq<MidiEvent>, now: int, offset: int)
    ensures forall e :: e in Due(buffer, now, offset) <==> e in buffer && IsDue(e, now, offset)
    ensures forall e :: multiset(Due(buffer, now, offset))[e] == if IsDue(e, now, offset) then multiset(buffer)[e] else 0
    ensures IsSubsequence(Due(buffer, now, offset), buffer)
  {
    FilterMembership(buffer, e => IsDue(e, now, offset));
    forall e ensures multiset(Due(buffer, now, offset))[e] == if IsDue(e, now, offset) then multiset(buffer)[e] else 0 {
      FilterCount(buffer, e => IsDue(e, now, offset), e);
    }
    FilterIsSubsequence(buffer, e => IsDue(e, now, offset));
  }

  /** The order of sending is the order of arrival: events of an earlier part of the
      buffer are sent before those of a later part. */
  lemma DispatchOrder(older: seq<MidiEvent>, newer: seq<MidiEvent>, now: int, offset: int)
    ensures Due(older + newer, now, offset) == Due(older, now, offset) + Due(newer, now, offset)
  {
    FilterConcat(older, newer, e => IsDue(e, now, offset));
  }

  /** An event stays buffered exactly when it is in the buffer, is not due, and its
      channel received no due All Sound Off; the kept events keep their order. */
  lemma RetainedIff(buffer: seq<MidiEvent>, now: int, offset: int)
    ensures forall e :: e in Remaining(buffer, now, offset) <==> e in buffer && IsRetained(e, buffer, now, offset)
    ensures IsSubsequence(Remaining(buffer, now, offset), buffer)
  {
    RemainingSpec(buffer, now, offset);
    FilterMembership(buffer, e => IsRetained(e, buffer, now, offset));
    FilterIsSubsequence(buffer, e => IsRetained(e, buffer, now, offset));
  }

  /** Nothing that is sent stays in the buffer. */
  lemma DispatchedNotRetained(buffer: seq<MidiEvent>, now: int, offset: int)
    ensures forall e :: e in Due(buffer, now, offset) ==> e !in Remaining(buffer, now, offset)
  {
    DispatchIsDue(buffer, now, offset);
    RetainedIff(buffer, now, offset);
  }

  /** A due All Sound Off empties its channel: no event of that channel, due or not,
      stays in the buffer. */
  lemma KilledChannelEmptied(buffer: seq<MidiEvent>, now: int, offset: int, d: MidiEvent)
    requires d in buffer && IsDue(d, now, offset) && IsAllSoundOff(d.message)
    ensures forall e :: e in Remaining(buffer, now, offset) ==> Channel(e.message) != Channel(d.message)
  {
    RetainedIff(buffer, now, offset);
    assert Channel(d.message) in KillSet(buffer, now, offset);
  }

  /** Conservation: every occurrence in the buffer is sent, purged or retained, and
      exactly one of the three. */
  lemma Conservation(buffer: seq<MidiEvent>, now: int, offset: int)
    ensures multiset(buffer) == multiset(Due(buffer, now, offset)) + multiset(Purged(buffer, now, offset)) + multiset(Remaining(buffer, now, offset))
    ensures |buffer| == |Due(buffer, now, offset)| + |Purged(buffer, now, offset)| + |Remaining(buffer, now, offset)|
  {
    RemainingSpec(buffer, now, offset);
    FilterPartition(buffer,
      e => IsDue(e, now, offset),
      e => IsPurged(e, buffer, now, offset),
      e => IsRetained(e, buffer, now, offset));
  }

  /** A system message (no channel) is never purged: it leaves the buffer only by
      being sent. */
  lemma SystemMessagesNotPurged(buffer: seq<MidiEvent>, now: int, offset: int, e: MidiEvent)
    requires e in buffer && Channel(e.message) == NO_CHANNEL
    ensures e !in Purged(buffer, now, offset)
    ensures e in Due(buffer, now, offset) || e in Remaining(buffer, now, offset)
  {
    KillChannelsSpec(buffer, now, offset);
    FilterMembership(buffer, e => IsPurged(e, buffer, now, offset));
    DispatchIsDue(buffer, now, offset);
    RetainedIff(buffer, now, offset);
  }

  /** A purge is final: an event dropped by a channel kill is not sent by the next
      tick, whatever batch arrives in between, unless that batch brings it again. */
  lemma PurgedNeverSent(buffer: seq<MidiEvent>, now: int, offset: int,
                        batch: seq<MidiEvent>, later: int, laterOffset: int, e: MidiEvent)
    requires e in buffer && IsPurged(e, buffer, now, offset)
    requires e !in batch
    ensures e !in Due(Remaining(buffer, now, offset) + batch, later, laterOffset)
  {
    RetainedIff(buffer, now, offset);
    FilterMembership(Remaining(buffer, now, offset) + batch, e => IsDue(e, later, laterOffset));
  }
}
