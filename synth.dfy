/** The synthesizer window's controller: it buffers incoming MIDI events, keeps the
    offset between the sender's clock and the local clock, and on every tick hands
    the due events to the synthesizer's message handler. */
module Synth {
  import opened Midi
  import opened Seqs
  import opened Scheduler

  /** The controller's scheduling state: the buffer and the clock offset. */
  datatype State = State(buffer: seq<MidiEvent>, offset: int)

  /** One call into the controller: a batch arriving at local time `arrival`, or a
      tick at local time `now`. */
  datatype Step = Intake(batch: EventBatch, arrival: int) | Tick(now: int)

  /** The state after one call. */
  function Apply(st: State, step: Step): State
  {
    match step
    case Intake(batch, arrival) => State(st.buffer + batch.events, arrival - batch.timestamp)
    case Tick(now) => State(Remaining(st.buffer, now, st.offset), st.offset)
  }

  /** The events one call hands to the synthesizer. */
  function SentBy(st: State, step: Step): seq<MidiEvent>
  {
    match step
    case Intake(_, _) => []
    case Tick(now) => Due(st.buffer, now, st.offset)
  }

  /** The state after a sequence of calls. */
  function Run(st: State, steps: seq<Step>): State
    decreases |steps|
  {
    if steps == [] then st else Run(Apply(st, steps[0]), steps[1..])
  }

  /** Everything a sequence of calls hands to the synthesizer, in order. */
  function SentDuring(st: State, steps: seq<Step>): seq<MidiEvent>
    decreases |steps|
  {
    if steps == [] then [] else SentBy(st, steps[0]) + SentDuring(Apply(st, steps[0]), steps[1..])
  }

  /** `e` arrives in none of the batches of `steps`. */
  ghost predicate NeverDelivered(e: MidiEvent, steps: seq<Step>)
  {
    forall i :: 0 <= i < |steps| && steps[i].Intake? ==> e !in steps[i].batch.events
  }

  /** An event that is not buffered and that no later batch brings is never sent and
      never buffered again, however many batches and ticks follow. */
  lemma {:induction false} AbsentNeverSent(st: State, steps: seq<Step>, e: MidiEvent)
    requires e !in st.buffer
    requires NeverDelivered(e, steps)
    ensures e !in SentDuring(st, steps)
    ensures e !in Run(st, steps).buffer
    decreases |steps|
  {
    if steps != [] {
      var next := Apply(st, steps[0]);
      match steps[0] {
        case Intake(batch, arrival) =>
          assert e !in batch.events;
        case Tick(now) =>
          DispatchIsDue(st.buffer, now, st.offset);
          RetainedIff(st.buffer, now, st.offset);
      }
      assert NeverDelivered(e, steps[1..]) by {
        forall i | 0 <= i < |steps[1..]| && steps[1..][i].Intake?
          ensures e !in steps[1..][i].batch.events
        {
          assert steps[1..][i] == steps[i + 1];
        }
      }
      AbsentNeverSent(next, steps[1..], e);
    }
  }

  /** A purge is final: an event dropped by a channel kill is never sent by any later
      sequence of batches and ticks that does not bring the same event object again. */
  lemma PurgedNeverSentAgain(st: State, now: int, e: MidiEvent, steps: seq<Step>)
    requires e in st.buffer && IsPurged(e, st.buffer, now, st.offset)
    requires NeverDelivered(e, steps)
    ensures e !in SentDuring(Apply(st, Tick(now)), steps)
  {
    RetainedIff(st.buffer, now, st.offset);
    AbsentNeverSent(Apply(st, Tick(now)), steps, e);
  }

  /** No event is sent twice: once sent, an event is never sent again by any later
      sequence of batches and ticks that does not bring the same event object again. */
  lemma SentOnce(st: State, now: int, e: MidiEvent, steps: seq<Step>)
    requires e in SentBy(st, Tick(now))
    requires NeverDelivered(e, steps)
    ensures e !in SentDuring(Apply(st, Tick(now)), steps)
  {
    DispatchedNotRetained(st.buffer, now, st.offset);
    AbsentNeverSent(Apply(st, Tick(now)), steps, e);
  }

  class SynthController {
    /** Events received and not yet sent or purged, in arrival order. */
    var eventsBuffer: seq<MidiEvent>
    /** Local clock minus the sender's clock, as measured at the last batch. */
    var timestampOffset: int
    /** Every message handed to the synthesizer's handler so far, oldest first. */
    var processed: seq<Message>

    constructor ()
      ensures eventsBuffer == [] && timestampOffset == 0 && processed == []
    {
      eventsBuffer := [];
      timestampOffset := 0;
      processed := [];
    }

    /** Intake of one batch arriving at local time `now`: its events join the end of the
        buffer unchanged, and the clock offset is measured afresh from this batch alone. */
    method OnMidi(batch: EventBatch, now: int)
      modifies this
      ensures eventsBuffer == old(eventsBuffer) + batch.events
      ensures timestampOffset == now - batch.timestamp
      ensures processed == old(processed)
      ensures State(eventsBuffer, timestampOffset) == Apply(old(State(eventsBuffer, timestampOffset)), Intake(batch, now))
    {
      eventsBuffer := eventsBuffer + batch.events;
      timestampOffset := now - batch.timestamp;
    }

    /** One tick at local time `now`: the due events are sent in buffer order and
        returned, and the buffer keeps only what is neither sent nor on a channel that
        a due All Sound Off silenced. The offset is not touched. */
    method OnTimer(now: int) returns (toSend: seq<MidiEvent>)
      modifies this
      ensures toSend == Due(old(eventsBuffer), now, timestampOffset)
      ensures eventsBuffer == Remaining(old(eventsBuffer), now, timestampOffset)
      ensures timestampOffset == old(timestampOffset)
      ensures processed == old(processed) + Messages(toSend)
      ensures State(eventsBuffer, timestampOffset) == Apply(old(State(eventsBuffer, timestampOffset)), Tick(now))
      ensures toSend == SentBy(old(State(eventsBuffer, timestampOffset)), Tick(now))
    {
      toSend := Due(eventsBuffer, now, timestampOffset);
      eventsBuffer := Remaining(eventsBuffer, now, timestampOffset);
      var i := 0;
      while i < |toSend|
        invariant 0 <= i <= |toSend|
        invariant eventsBuffer == Remaining(old(eventsBuffer), now, old(timestampOffset))
        invariant timestampOffset == old(timestampOffset)
        invariant processed == old(processed) + Messages(toSend[..i])
      {
        assert toSend[..i + 1] == toSend[..i] + [toSend[i]];
        processed := processed + [toSend[i].message];
        i := i + 1;
      }
      assert toSend[..i] == toSend;
    }
  }

  /** A channel-kill scenario: a note-on and an All Sound Off on channel 0 due at local
      time 100, and a note-on on channel 0 due at 150. One tick at 100 sends the first
      two in order and purges the third. */
  method ChannelKillExample() returns (sent: seq<Message>, left: nat)
    ensures sent == [[0x90, 60, 100], [0xB0, 0x78, 0]]
    ensures left == 0
  {
    var synth := new SynthController();
    var noteOn := new MidiEvent([0x90, 60, 100], 100);
    var allOff := new MidiEvent([0xB0, 0x78, 0], 100);
    var later := new MidiEvent([0x90, 62, 100], 150);
    synth.OnMidi(EventBatch([noteOn, allOff, later], 100), 100);
    assert synth.eventsBuffer == [noteOn, allOff, later] && synth.timestampOffset == 0;
    var toSend := synth.OnTimer(100);
    ExampleTick(noteOn, allOff, later);
    sent := synth.processed;
    left := |synth.eventsBuffer|;
  }

  /** The tick of ChannelKillExample, on the selection functions alone. */
  lemma ExampleTick(noteOn: MidiEvent, allOff: MidiEvent, later: MidiEvent)
    requires noteOn.message == [0x90, 60, 100] && noteOn.timestamp == 100
    requires allOff.message == [0xB0, 0x78, 0] && allOff.timestamp == 100
    requires later.message == [0x90, 62, 100] && later.timestamp == 150
    ensures Due([noteOn, allOff, later], 100, 0) == [noteOn, allOff]
    ensures Messages([noteOn, allOff]) == [[0x90, 60, 100], [0xB0, 0x78, 0]]
    ensures Remaining([noteOn, allOff, later], 100, 0) == []
  {
    var buffer := [noteOn, allOff, later];
    assert buffer[1..] == [allOff, later] && buffer[1..][1..] == [later] && [later][1..] == [];
    assert Due([later], 100, 0) == [];
    assert Due([allOff, later], 100, 0) == [allOff];
    assert Remaining(buffer, 100, 0) == [] by {
      RetainedIff(buffer, 100, 0);
      assert Channel(allOff.message) in KillSet(buffer, 100, 0);
    }
  }
}
