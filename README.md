# Live Meeting Translator — a Dafny model of the audio codec and the session state

The Live Meeting Translator is a single-page web app. It streams microphone
audio to a live speech model and plays back the spoken translation. It also
shows the running transcription of both sides on two bounded lines. This
project models two parts of it in Dafny and proves properties of them:

- **the PCM codec** of `services/audioUtils.ts` (module `AudioUtils`):
  - `createPcmBlob` clamps each float sample to [-1, 1], stores it into a
    16-bit signed integer (scale 32768 below zero, 32767 otherwise) and packs
    the result as little-endian bytes;
  - `decode` copies the character codes of `atob`'s result into bytes;
  - `decodeAudioData` views the bytes as 16-bit little-endian values and
    divides each by 32768;
- **the page's non-UI state** from `App.tsx` (modules `Transcript`, `Playback`
  and `Session`): the class `Session.Translator` holds the component's refs and
  state as fields. Each browser callback is one method:
  - `startSession` and `stopSession`;
  - the session's `onopen`, `onmessage`, `onerror` and `onclose` callbacks;
  - the capture callback, the sending of a text question and the text box's `onChange`;
  - a played source's `onended`;
  - the animation frame that renders the transcript;
  - the four-second silence timer.

Samples are exact reals. The engine's conversions on a typed-array store are
written out: truncation toward zero, then reduction modulo 2^16. Clocks
(`Date.now()` and the output context's `currentTime`) are method parameters.
The browser's base64 decoder `atob` is a function parameter; `None` means it
threw. The session states are the four of `types.ts`, and no code in the page
ever sets `Error`.

Playback is modelled twice:

- `Playback.Schedule` and `Playback.QueueEnd` give the gapless schedule of a
  list of chunks as a reference definition: each chunk starts at the later of
  the queue end and the clock, and the queue end advances by its duration.
- `Session.PlayAll` enqueues chunks one at a time, as the page does.

`Session.PlayAllIsSchedule` proves the two agree.

Five behaviours of the code are worth knowing, and the model keeps them as written:

- Stopping a session does not reset the playback queue end
  (`nextStartTimeRef`), and a restart creates a new output context whose
  clock starts again from zero. The first chunk of the next session therefore
  waits for the old queue end; `Session.RestartKeepsQueueEnd` shows this with
  concrete numbers.
- `stopSession` does not clear the gain node reference.
- A sample read back is not always within one step (1/32768) of the
  clamped input. Non-negative samples are scaled by 32767 but read back
  through 32768, so the bound is (-2/32768, 1/32768).
  `AudioUtils.EncodeDecodeError` proves that bound, and
  `AudioUtils.EncodeDecodeErrorExceedsOneStep` exhibits a sample (0.99999)
  that misses the one-step bound.
- The silence timer of a completed turn compares the time it fires with the
  newest message, not with the turn. A message that arrives within 500 ms
  after the turn completed is more than 3500 ms old when the timer fires 4000
  ms after the turn, so it is cleared with the rest.
  `Session.EarlyActivityIsCleared` shows this: after "hello" at 100 ms, the
  turn's timer at 4000 ms leaves the English buffer empty.
- The main button calls `startSession` in every state but Connected,
  including while a start is still Connecting. A second start stores new
  contexts, a new stream and a new session over the old references, so the
  old ones are never closed. The `orphaned` field of `Session.Translator`
  counts such unreferenced resources. `Session.StartWhileConnectingOrphans`
  shows two starts and a stop ending with the page stopped and four
  resources orphaned.

## Model

| member | source | states |
|---|---|---|
| AudioUtils.Clamp | services/audioUtils.ts:6 | the clamped sample lies in [-1, 1] and equals the input when the input is already in range |
| AudioUtils.Truncate | services/audioUtils.ts:8 | the stored integer is the real truncated toward zero: never larger in magnitude, less than one away, same sign |
| AudioUtils.WrapInt16 | services/audioUtils.ts:8 | the stored value is congruent to the integer modulo 2^16, and equals it when it already fits in 16 bits |
| AudioUtils.EncodeSample | services/audioUtils.ts:6-8 | the stored value is the clamped sample scaled by 32767 (non-negative) or 32768 (negative), truncated toward zero, without wrapping |
| AudioUtils.EncodeSampleNoWrap | services/audioUtils.ts:6-8 | after the clamp, the scaled value always fits in 16 bits, so the Int16Array store never wraps |
| AudioUtils.EncodeSampleExtremes | services/audioUtils.ts:6-8 | inputs at or above 1 store 32767, at or below -1 store -32768, and 0 stores 0 |
| AudioUtils.EncodeSampleSign | services/audioUtils.ts:6-8 | a negative sample stores a non-positive value and a non-negative one a non-negative value |
| AudioUtils.EncodeSampleMonotonic | services/audioUtils.ts:6-8 | a larger sample never stores a smaller value |
| AudioUtils.UnclampedStoreWraps | services/audioUtils.ts:8 | without the clamp, 2.0 scaled by 0x7FFF would store as -2 |
| AudioUtils.DecodeSample | services/audioUtils.ts:32 | every 16-bit value reads back into [-1, 1) with its sign kept |
| AudioUtils.EncodeDecodeError | services/audioUtils.ts:6-8 | reading back a stored sample gives the clamped input to within (-2/32768, 1/32768) |
| AudioUtils.EncodeDecodeErrorExceedsOneStep | services/audioUtils.ts:8 | for input 0.99999 the read-back error exceeds one step of 1/32768 |
| AudioUtils.PackLE | services/audioUtils.ts:10 | the buffer of an Int16Array holds two bytes per value |
| AudioUtils.PackLEAt | services/audioUtils.ts:10 | value i occupies byte 2i (low byte) and byte 2i+1 (high byte), in two's complement |
| AudioUtils.UnpackLE | services/audioUtils.ts:28 | an Int16Array view over an even-length buffer has one value per two bytes |
| AudioUtils.UnpackPackLE | services/audioUtils.ts:28 | little-endian packing followed by an Int16Array view returns the original values |
| AudioUtils.PackUnpackLE | services/audioUtils.ts:28 | an even-length buffer viewed as 16-bit values and packed again is the same buffer |
| AudioUtils.CreatePcmBlob | services/audioUtils.ts:1-11 | the blob has two bytes per sample, and bytes 2i and 2i+1 read as little-endian give the stored value of sample i |
| AudioUtils.BinaryStringOfCharCodes | services/audioUtils.ts:17-19 | for a string of code points below 256, the copied bytes spell the same string |
| AudioUtils.Decode | services/audioUtils.ts:13-21 | the result is absent exactly when atob throws; otherwise it has one byte per character, each that character's code modulo 256 |
| AudioUtils.DecodeAudioData | services/audioUtils.ts:23-35 | rejects odd byte lengths and empty buffers, in both directions; otherwise gives n/2 samples at the requested rate, each the little-endian pair divided by 32768, all in [-1, 1) |
| AudioUtils.FrameRoundTrip | services/audioUtils.ts:1-35 | a captured frame, sent and read back, gives one sample per captured sample, each within the error bound of the clamped input |
| Transcript.DisplaySlice | App.tsx:32-37 | the view is never longer than the limit; a short buffer is shown whole; otherwise the view is "..." followed by exactly its last characters, which are a suffix of the buffer |
| Transcript.EnglishView | App.tsx:32-34 | the English line shows at most 100 characters: the buffer, or "..." and its last 90 characters |
| Transcript.KoreanView | App.tsx:35-37 | the Korean line shows at most 80 characters: the buffer, or "..." and its last 75 characters |
| Transcript.ViewKeepsNewestText | App.tsx:32-37 | every view ends with the newest text of the buffer |
| Transcript.SourceIsSpaceJoined | App.tsx:135-141 | the English buffer, started empty, is the non-empty transcription pieces joined by single spaces |
| Transcript.AppendSourceKeepsBuffer | App.tsx:137-138 | an English piece keeps the buffer in front and ends it, with one space between them exactly when both are non-empty |
| Transcript.AppendTargetKeepsBuffer | App.tsx:145-146 | a Korean piece keeps the buffer in front and follows it directly |
| Transcript.TargetIsConcatenated | App.tsx:143-149 | the Korean buffer is its starting text followed by every piece, with no separator |
| Transcript.Trim | App.tsx:66-67 | trim yields "" exactly when the text is all whitespace; otherwise the result neither starts nor ends with whitespace and is a slice of the text with only whitespace around it |
| Transcript.QuestionPromptQuotesQuery | App.tsx:70-72 | the prompt is the opening marker and quote, the question verbatim, then the closing quote and the instruction to answer in English |
| Playback.Schedule | App.tsx:156-167 | one slot per chunk, in arrival order |
| Playback.QueueEnd | App.tsx:156-167 | the queue end never comes earlier than the old end plus the total duration of the chunks |
| Playback.SequencedNeverOverlaps | App.tsx:166-167 | in a list of started chunks that keeps the queue discipline, every chunk ends before every later one starts and before the queue end |
| Playback.ScheduleSnoc | App.tsx:156-167 | one more chunk appends one slot, at the later of the queue end and the clock, and moves the queue end past it |
| Playback.ScheduleRespectsQueue | App.tsx:153-170 | no chunk starts before its arrival; the first starts no earlier than the queue end, and, when no duration is negative, none does; durations are kept; consecutive chunks never overlap; the queue end is the end of the last chunk |
| Playback.ScheduleNeverOverlaps | App.tsx:153-170 | when no duration is negative, every chunk ends before every later chunk starts |
| Playback.BurstIsBackToBack | App.tsx:153-170 | while chunks arrive no later than the queue end, each starts exactly at the queue end plus the durations before it |
| Playback.TwoChunksAtTen | App.tsx:156-167 | two half-second chunks arriving together at clock 10.0 play at 10.0 and 10.5, and the queue then ends at 11.0 |
| Session.PartChunk | App.tsx:154-157 | a part that plays has a positive duration |
| Session.PlanParts | App.tsx:151-171 | the durations a part list plays are all positive, at most one per part |
| Session.PlanStopsAtFailure | App.tsx:153-170 | once a part throws, the parts after it change nothing |
| Session.CatchUpMovesEnd | App.tsx:156 | catching up moves the queue end to the later of itself and the clock, and changes nothing else |
| Session.EnqueueStartsAtQueueEnd | App.tsx:156-168 | an enqueued chunk keeps the earlier slots and adds one, starting at the later of the queue end and the clock, with its duration; the queue end becomes its end; its source is the next creation index |
| Session.DecodeChunk | App.tsx:157 | decoding and decodeAudioData fail exactly when the part's plan throws, and otherwise give the positive duration the plan plays |
| Session.EnqueueKeepsInvariant | App.tsx:156-168 | enqueueing a chunk keeps the queue invariant: only created sources play, there is one slot per source, and the slots stay sequenced |
| Session.CatchUpKeepsInvariant | App.tsx:156 | moving the queue end up to the clock keeps the queue invariant |
| Session.PlayAllKeepsInvariant | App.tsx:153-170 | enqueueing any chunks of non-negative duration keeps the queue invariant |
| Session.PlayAllIsSchedule | App.tsx:153-170 | enqueueing chunks one by one gives the reference gapless schedule: its slots, its queue end, and the next creation indices as new sources |
| Session.Translator.constructor | App.tsx:9-26 | the page starts disconnected, with empty buffers, no sources, queue end 0, and the invariant holding |
| Session.Translator.RequestDisplayUpdate | App.tsx:28-30 | a frame is pending afterwards, and nothing changes when one was already pending |
| Session.Translator.AnimationFrame | App.tsx:30-40 | the rendered transcript is the two bounded views of the buffers, and the frame is released |
| Session.Translator.StopSession | App.tsx:43-63 | disconnected, with session, stream, sources, both contexts and the transcript released or cleared; the queue end, the gain node and a pending frame are kept; idempotent |
| Session.Translator.StartSession | App.tsx:82-192 | on success, everything is acquired and the state is Connecting; a failure at any step ends stopped, keeping the gain node exactly when it was created before the failure; the orphaned count grows by the resources the start overwrote or created without storing |
| Session.Translator.TryStart | App.tsx:83-187 | the try block throws exactly when a step fails; at each failure point it states the session state, the four held references, the gain node and the orphaned count: a throw creating a context changes no state or reference, one while resuming leaves Connecting with the references unchanged, one at microphone access leaves Connecting with both new contexts stored and stream and session unchanged |
| Session.Translator.OnOpen | App.tsx:120-131 | the session is Connected and the capture callback is wired |
| Session.Translator.OnError | App.tsx:183 | ends stopped |
| Session.Translator.OnClose | App.tsx:184 | ends stopped |
| Session.Translator.OnAudioProcess | App.tsx:123-127 | while a session is held, the frame's PCM bytes are appended to what is sent; otherwise nothing is sent |
| Session.Translator.SetTextInput | App.tsx:263 | the text box holds the typed text |
| Session.Translator.HandleSendText | App.tsx:65-80 | a blank box, a missing session or a rejected send changes nothing; otherwise the trimmed question is sent in the prompt template, the box is cleared, both buffers hold their placeholder, and a display update is pending |
| Session.Translator.OnEnded | App.tsx:162-165 | the source leaves the set, and the speaking indicator drops exactly when the set becomes empty |
| Session.Translator.PlayPart | App.tsx:154-169 | a part with data, while the output context and the gain node are held, catches the queue end up and then either throws or enqueues one chunk; any other part changes nothing |
| Session.Translator.PlayParts | App.tsx:151-171 | the queue after the loop is the plan's chunks enqueued in order, and a throw stops the loop with the queue end caught up |
| Session.Translator.TakeTranscription | App.tsx:135-149 | the buffers grow as the accumulation functions say, and a display update is requested exactly when a text was non-empty |
| Session.Translator.OnMessage | App.tsx:132-182 | activity time, both transcription buffers, the playback queue after the parts, and one new silence timer exactly when the turn completed without a throw |
| Session.Translator.SilenceCheck | App.tsx:173-181 | both buffers are cleared exactly when more than 3500 ms passed since the last message, and always when nothing arrived after the turn |
| Session.RestartKeepsQueueEnd | App.tsx:43-63 | after a restart, a one-second chunk arriving at clock 0.0 of the new context is queued behind the previous session's queue end, ending at 101.0 |
| Session.StartWhileConnectingOrphans | App.tsx:85-187 | two starts and a stop leave the page stopped with the first start's two contexts, stream and session orphaned |
| Session.EarlyActivityIsCleared | App.tsx:173-181 | a message 100 ms after a completed turn is cleared by that turn's timer at 4000 ms |

## Left out

- Float32 rounding, NaN and infinities: samples are exact reals, so the model does not capture IEEE rounding in the scale or in the division by 32768.
- The `await` points are modelled as running to completion, so interleavings with other callbacks are not captured. They are: stopSession waiting on the session promise (App.tsx:46), startSession resuming the contexts (App.tsx:95-96) and opening the microphone (App.tsx:102), handleSendText waiting on the session (App.tsx:69), and the decode inside the part loop (App.tsx:157).
- Rejection of the `ai.live.connect` promise, and a failing `session.close()` (swallowed at App.tsx:47): the model takes connect to hand over its promise and close to succeed.
- The Web Audio graph, the live model service, the microphone and `Blob`: only their effect on the page state is modelled, through held/released flags, a list of sent messages and the `atob` and clock parameters.
- `createBuffer`'s sample-rate range check: the only rate used is 24000, which is valid.
- String lengths and slices count Unicode scalar values, where JavaScript counts UTF-16 code units; the two agree on text in the Basic Multilingual Plane.
- Session.Translator.StartSession: orphaned resources are only counted. The model does not capture that they stay live (an orphaned microphone stream keeps capturing). It also does not capture that an orphaned session's callbacks keep firing, so its onmessage and onclose still act on the page.
- The volume control (App.tsx:194-199), the JSX rendering and `components/Visualizer.tsx`: presentation only.
- The `TranscriptionEntry` interface of types.ts: no code uses it.
