# MIDI event scheduler of the synthesizer window

This project models the event scheduler of the synthesizer window's `SynthController`
(`src/synth.js`). The host sends batches of timestamped MIDI events. The controller
buffers them, measures the offset between the sender's clock and the local clock at
each batch, and on every tick hands the due events to the synthesizer's MIDI handler.
A due MIDI 1.0 "All Sound Off" message (Control Change, controller 120 = 0x78) empties
its whole channel from the buffer, including events that are not due yet.

Layout:

- `seqs.dfy`, module `Seqs`: `Filter` and `Map` with the meaning of JavaScript's
  `Array.prototype.filter` and `Array.prototype.map`. Also the facts the scheduler needs
  about them: membership, occurrence counts, order, concatenation, congruence and a
  three-way partition.
- `midi.dfy`, module `Midi`: the free functions `getMessageChannel` (`Channel`) and
  `isMessageAllSoundOff` (`IsAllSoundOff`) over messages as `seq<bv8>`.
- `scheduler.dfy`, module `Scheduler`: the buffered event `MidiEvent`, the batch
  `EventBatch`, and one tick as pure selection over the buffer: `Due` (the code's
  `eventsToSend`), `KillChannels` (`allSoundOffChannels`) and `Remaining` (the new
  `eventsBuffer`). Then the reference definitions `KillSet`, `IsPurged`, `IsRetained`
  and `Purged`, and the lemmas relating the two.
- `synth.dfy`, module `Synth`: the class `SynthController` with the fields
  `eventsBuffer` and `timestampOffset`, plus a log `processed` of the messages handed
  to the handler. `OnMidi` and `OnTimer` update them in place. The same module gives
  the effect of a sequence of calls as functions (`Apply`, `Run`, `SentDuring`) and
  proves that a sent or purged event is never sent again. `ChannelKillExample` runs a
  channel-kill scenario on a fresh controller.

Modelling decisions:

- Event identity. The code removes sent events with `eventsToSend.includes(e)`, which
  compares objects, not values. So `MidiEvent` is a class with constant fields, and
  `in` on a sequence of events is reference equality. Two events with the same bytes
  and the same timestamp are two events, and each occurrence is accounted for
  separately (`Conservation` is stated on multisets).
- Clock. The local clock `window.performance.now()` becomes an integer parameter
  `now` of `OnMidi` and `OnTimer`. Time values are `int`.
- Synthesizer. `handler.processMidiMessage(message)` becomes appending `message` to the
  field `processed`. `OnTimer` also returns the sent events.
- Message length. The code never checks it. The model does not exclude short messages
  with a precondition. It gives them the meaning JavaScript gives them: `message[0]` of
  an empty array is `undefined`, and `undefined & mask` is 0, so an empty message is
  on channel 0. `message[1] === 0x78` is false when there is no second byte, so a
  one-byte Control Change is not an All Sound Off (`Midi.Status`, `Midi.EmptyMessage`).
- The channel kill only filters the buffer. Due events on a channel that receives a due
  All Sound Off are still sent in that tick (src/synth.js:103-112). A purged event is
  not sent later unless a batch brings the same object again (`PurgedNeverSent`,
  `Synth.PurgedNeverSentAgain`). New events for that channel from a later batch are
  sent normally.
- Sequences of calls. `Synth.State`, `Synth.Step`, `Synth.Apply` and `Synth.Run` give
  the effect of any sequence of batches and ticks on the buffer and the offset;
  `OnMidi` and `OnTimer` are each proved to perform one `Apply`.
- The batch is the datatype `EventBatch(events, timestamp)`, the argument of `onMidi`
  (src/synth.js:77).

## Model

| member | source | states |
|---|---|---|
| `Midi.Status` | src/synth.js:144-149 | the status byte as read by `message[0]`, 0 for an empty message; no ensures of its own, see `Midi.EmptyMessage` and `Midi.ChannelOfStatus` |
| `Midi.Channel` | src/synth.js:143-146 | the channel is in -1..15; it is -1 exactly when the status byte is 0xF0 or above (a system message); otherwise it is the status byte modulo 16 |
| `Midi.ChannelOfStatus` | src/synth.js:143-146 | for a message with a status byte, the channel is -1 for status 240..255 and `status % 16` below that |
| `Midi.ChannelExamples` | src/synth.js:143-146 | 0x93 gives channel 3, 0xF0 and 0xFF give -1, 0xB2 gives 2 |
| `Midi.IsAllSoundOff` | src/synth.js:148-155 | isMessageAllSoundOff; its ensures: a message is All Sound Off exactly when it has at least two bytes, its status is 0xB0..0xBF and its first data byte is 0x78 |
| `Midi.AllSoundOffHasChannel` | src/synth.js:143-155 | every All Sound Off message has a real channel 0..15, namely its status minus 0xB0, never -1 |
| `Midi.AllSoundOffExamples` | src/synth.js:148-155 | `[0xB2,0x78,0]` is All Sound Off; `[0xB2,0x79,0]`, `[0x92,0x78,0]` and the one-byte `[0xB2]` are not |
| `Midi.EmptyMessage` | src/synth.js:143-155 | with no length check, an empty message reads as channel 0 and is not All Sound Off |
| `Seqs.Filter` | src/synth.js:98-101 | the result is no longer than the input, every kept element is in the input and satisfies the condition, and every satisfying element of the input is kept |
| `Seqs.Map` | src/synth.js:103-105 | the result has the input's length and holds the function's value of each element at the same position |
| `Scheduler.MidiEvent.constructor` | src/synth.js:77-78 | an event object keeps the message bytes and timestamp it was given; events are compared by identity |
| `Scheduler.Due` | src/synth.js:98-101 | `eventsToSend`; no ensures of its own, see `Scheduler.DispatchIsDue` and `Scheduler.DispatchOrder` |
| `Scheduler.KillChannels` | src/synth.js:103-105 | `allSoundOffChannels`; no ensures of its own, see `Scheduler.KillChannelsSpec` |
| `Scheduler.Remaining` | src/synth.js:108-110 | the new `eventsBuffer`; no ensures of its own, see `Scheduler.RemainingSpec` and `Scheduler.RetainedIff` |
| `Scheduler.Messages` | src/synth.js:112 | the payloads handed to `processMidiMessage`; no ensures of its own, its meaning is given by `Seqs.Map` and used in `Synth.SynthController.OnTimer` |
| `Scheduler.DispatchIsDue` | src/synth.js:98-101 | the events sent are exactly the buffered events with `timestamp - now + offset <= 0`, each occurrence once, as a subsequence of the buffer (buffer order) |
| `Scheduler.DispatchOrder` | src/synth.js:98-101 | the due events of an older part of the buffer come before those of a newer part |
| `Scheduler.KillChannelsSpec` | src/synth.js:103-105 | the kill list holds exactly the channels of the due All Sound Off messages, and every one is in 0..15 |
| `Scheduler.RemainingSpec` | src/synth.js:108-110 | the new buffer computed with identity membership in the sent list and in the kill list equals the buffer filtered to the events that are not due and not on a killed channel |
| `Scheduler.RetainedIff` | src/synth.js:108-110 | an event is in the new buffer if and only if it was in the buffer, is not due and its channel is not killed; the new buffer is a subsequence of the old one, so order is kept and nothing is added |
| `Scheduler.DispatchedNotRetained` | src/synth.js:108-110 | no sent event stays in the buffer |
| `Scheduler.KilledChannelEmptied` | src/synth.js:103-110 | after a due All Sound Off on channel c, no event of channel c stays in the buffer, due or not |
| `Scheduler.Conservation` | src/synth.js:98-110 | the old buffer is, as a multiset, exactly the sent events plus the purged events plus the new buffer, so each occurrence goes to exactly one of the three |
| `Scheduler.SystemMessagesNotPurged` | src/synth.js:98-110 | a system message (channel -1) is never purged; it is either sent or kept |
| `Scheduler.PurgedNeverSent` | src/synth.js:98-110 | an event purged by a channel kill is not sent by the next tick, whatever batch arrives in between, unless that batch contains the same event object |
| `Synth.Apply` | src/synth.js:77-110 | the state after one `onMidi` or `onTimer` call; no ensures of its own, `OnMidi` and `OnTimer` are proved to perform it |
| `Synth.SentBy` | src/synth.js:98-112 | the events one call hands to the synthesizer; no ensures of its own, `OnTimer` is proved to return it |
| `Synth.Run` | src/synth.js:77-110 | the state after a sequence of calls; no ensures of its own, see `Synth.AbsentNeverSent` |
| `Synth.SentDuring` | src/synth.js:98-112 | everything a sequence of calls sends, in order; no ensures of its own, see `Synth.AbsentNeverSent` |
| `Synth.AbsentNeverSent` | src/synth.js:77-110 | an event that is not buffered and is in no later batch is never sent and never buffered again, over any sequence of batches and ticks |
| `Synth.PurgedNeverSentAgain` | src/synth.js:98-110 | an event purged by a channel kill is never sent by any later sequence of batches and ticks that does not bring the same object again |
| `Synth.SentOnce` | src/synth.js:98-112 | an event sent in a tick is never sent again by any later sequence of batches and ticks that does not bring the same object again |
| `Synth.SynthController.constructor` | src/synth.js:12-14 | a new controller has an empty buffer, offset 0 and has sent nothing |
| `Synth.SynthController.OnMidi` | src/synth.js:77-80 | the buffer becomes the old buffer followed by the batch's events, unmodified and in order; the offset becomes `now - batch.timestamp`, replacing the old one; nothing is sent; the new state is `Apply` of an `Intake` step |
| `Synth.SynthController.OnTimer` | src/synth.js:96-113 | the returned events are `Due` of the old buffer; the buffer becomes `Remaining`; the offset is unchanged; the messages of the sent events are appended to the handler's log in the order sent; the new state is `Apply` of a `Tick` step, and the result is its `SentBy` |
| `Synth.ExampleTick` | src/synth.js:98-110 | for that buffer at local time 100 and offset 0, the due list is the note-on then the All Sound Off, their messages are the two byte strings in that order, and the new buffer is empty although the last event is not due |
| `Synth.ChannelKillExample` | src/synth.js:77-112 | buffer note-on (t=100), All Sound Off on channel 0 (t=100), note-on (t=150) with offset 0, ticked at 100: the note-on and then the All Sound Off are sent, and the buffer ends empty |

## Left out

- The self-rescheduling loop (`startTimer` and `requestAnimationFrame`, src/synth.js:92-94, 114): it never terminates and is driven by the host, so the model has one tick per `OnTimer` call with `now` as a parameter.
- `window.performance.now()` is a floating-point clock. The model uses an integer `now`. The code reads the clock again for every buffered event inside the filter callback (src/synth.js:99); the model reads it once per tick, so a tick that spans a clock change is not modelled.
- `handler.processMidiMessage` (src/synth.js:112) is an external synthesizer call and is modelled only as appending the message to `processed`.
- Message elements are modelled as bytes (`bv8`). Values outside 0..255 or non-numbers in a message are not modelled.
- Recorder setup, `startRecording` and `stopRecording` (src/synth.js:33-75): they drive a foreign recording library, Web Audio and file writes.
- `loadSoundFont` (src/synth.js:82-90): asynchronous file I/O whose result is forwarded to the synthesis engine.
- `SynthApp.init` (src/synth.js:118-140): message wiring over the Electron IPC channel and the readiness notification.
- The constructor's audio graph and synthesizer construction (src/synth.js:18-31). The model's constructor only sets the field initial values; the tick that `startTimer` runs at construction sees an empty buffer and changes nothing.
- Timestamps: the batch and event timestamps are JavaScript numbers sent by the host (src/synth.js:77, 98-99). The model takes them as unbounded integers, so fractional times, infinities and NaN are not modelled.
- src/main/components/ExportDialog/ExportProgressDialog.tsx and src/main/components/Head/Head.tsx: user-interface components with no scheduling logic.
