/**
 * The non-UI state of the translator page (App.tsx) as one object whose
 * fields mirror the component's refs and state: the transcript buffers, the
 * playback queue end, the set of playing sources, the speaking indicator,
 * the time of the last inbound message, the pending animation frame, the
 * session state, and whether the session, the microphone stream and the
 * audio contexts are held.
 *
 * Every browser callback is one method, run to completion as one event:
 * the inbound message handler (with the chunk decode taken as synchronous),
 * the end of a played source, the animation frame, the silence timer, the
 * capture callback and the session's open/error/close callbacks. Clocks
 * (Date.now(), the output context's currentTime) are parameters; the
 * base64 decoder atob is a function parameter.
 */
module Session {
  import opened Wrappers
  import opened AudioUtils
  import opened Transcript
  import opened Playback

  /** The session states of types.ts. No code in the page ever sets Error. */
  datatype SessionState = Disconnected | Connecting | Connected | Error

  /** The transcript that is rendered (the liveTranscript state). */
  datatype LiveTranscript = LiveTranscript(english: string, korean: string)

  /** What the page hands to the live session: captured audio or a text turn. */
  datatype Outbound = Media(pcm: seq<Byte>) | Text(text: string)

  /** One part of a model turn; data is "" when the part carries no inline audio. */
  datatype Part = Part(data: string)

  /**
   * One inbound server message. An absent or empty transcription text is "",
   * an absent part list is [].
   */
  datatype ServerMessage = ServerMessage(inputText: string, outputText: string, parts: seq<Part>, turnComplete: bool)

  /**
   * Where startSession can throw: creating the input or the output audio
   * context, resuming them, or creating the client and opening the microphone.
   */
  datatype StartFailure = InputContextCreation | OutputContextCreation | ContextResume | MediaAccess

  /** One for a held resource, none otherwise. */
  function Count(held: bool): nat {
    if held then 1 else 0
  }

  /** Milliseconds of silence after which a completed turn's transcript is cleared. */
  const SilenceThreshold: int := 3500
  /** Milliseconds after a completed turn at which the silence check runs. */
  const SilenceDelay: int := 4000

  /** What the message handler does with one part. */
  datatype ChunkPlan = Skip | Play(duration: real) | Fail

  /**
   * A part without data is skipped; one whose base64 atob rejects, or whose
   * bytes decodeAudioData rejects, throws; otherwise it plays for
   * (bytes / 2) / 24000 seconds.
   */
  function PartChunk(part: Part, atob: string -> Option<string>): (plan: ChunkPlan)
    ensures plan.Play? ==> 0.0 < plan.duration
  {
    if part.data == "" then Skip
    else match atob(part.data)
      case None => Fail
      case Some(binary) =>
        if |binary| % 2 == 1 || |binary| == 0 then Fail
        else Play((|binary| / 2) as real / OutputSampleRate as real)
  }

  /** The durations of the chunks a part list plays, and whether the handler throws after them. */
  datatype PlayPlan = PlayPlan(durations: seq<real>, failed: bool)

  /**
   * The plan of a part list, built part by part as the handler's loop goes:
   * once a part has thrown, the parts after it are never looked at.
   */
  function PlanParts(parts: seq<Part>, atob: string -> Option<string>): (plan: PlayPlan)
    ensures forall k :: 0 <= k < |plan.durations| ==> 0.0 < plan.durations[k]
    ensures |plan.durations| <= |parts|
    decreases |parts|
  {
    if parts == [] then PlayPlan([], false)
    else
      var before := PlanParts(parts[..|parts| - 1], atob);
      if before.failed then before
      else match PartChunk(parts[|parts| - 1], atob)
        case Skip => before
        case Fail => PlayPlan(before.durations, true)
        case Play(d) => PlayPlan(before.durations + [d], false)
  }

  /** A throw ends the handler: whatever parts follow the failing one change nothing. */
  lemma {:induction false} PlanStopsAtFailure(parts: seq<Part>, rest: seq<Part>, atob: string -> Option<string>)
    requires PlanParts(parts, atob).failed
    ensures PlanParts(parts + rest, atob) == PlanParts(parts, atob)
    decreases |rest|
  {
    if rest != [] {
      var init := rest[..|rest| - 1];
      PlanStopsAtFailure(parts, init, atob);
      assert (parts + rest)[..|parts + rest| - 1] == parts + init;
    } else {
      assert parts + rest == parts;
    }
  }

  /**
   * The decode of one part's payload: decode, then decodeAudioData at
   * 24 kHz. It fails exactly when the part's plan is a throw, and otherwise
   * gives the duration of the buffer, the one the plan plays.
   */
  method DecodeChunk(part: Part, atob: string -> Option<string>) returns (duration: Option<real>)
    requires part.data != ""
    ensures duration.None? <==> PartChunk(part, atob).Fail?
    ensures duration.Some? ==> PartChunk(part, atob) == Play(duration.value) && 0.0 < duration.value
  {
    var bytes := Decode(part.data, atob);
    if bytes.None? {
      assert atob(part.data).None?;
      return None;
    }
    var audioBuffer := DecodeAudioData(bytes.value, OutputSampleRate);
    assert |bytes.value| == |atob(part.data).value|;
    if audioBuffer.Failure? {
      assert audioBuffer.error.OddByteLength? || audioBuffer.error.EmptyBuffer?;
      assert audioBuffer == Failure(OddByteLength) || audioBuffer == Failure(EmptyBuffer);
      return None;
    }
    return Some(Duration(audioBuffer.value));
  }

  /** Chunks of the given durations all arriving at one clock reading. */
  function AtClock(now: real, durations: seq<real>): (arrivals: seq<Arrival>)
    ensures |arrivals| == |durations|
    ensures forall k :: 0 <= k < |durations| ==> arrivals[k] == Arrival(now, durations[k])
  {
    seq(|durations|, k requires 0 <= k < |durations| => Arrival(now, durations[k]))
  }

  /** The sources created with indices from lo up to hi. */
  function SourceIds(lo: nat, hi: nat): set<nat>
    decreases hi
  {
    if hi <= lo then {} else SourceIds(lo, hi - 1) + {hi - 1}
  }

  /**
   * The playback side of the page: the queue end, how many sources were
   * created, the ones still playing (named by creation index), and every
   * slot started so far.
   */
  datatype Queue = Queue(next: real, created: nat, playing: set<nat>, started: seq<Slot>)

  /** Only created sources play, one slot per created source, and the slots keep the queue discipline. */
  predicate QueueInvariant(q: Queue) {
    (forall id :: id in q.playing ==> id < q.created) &&
    q.created == |q.started| &&
    Sequenced(q.started, q.next)
  }

  /** The queue end moves up to the clock, as it does before each decode. */
  function CatchUp(q: Queue, now: real): Queue {
    q.(next := Max(q.next, now))
  }

  /** One chunk starts at the caught-up queue end, its source joins the set, and the end advances. */
  function Enqueue(q: Queue, now: real, duration: real): Queue {
    var start := Max(q.next, now);
    Queue(start + duration, q.created + 1, q.playing + {q.created}, q.started + [Slot(start, duration)])
  }

  /** Chunks of the given durations enqueued one after another while the clock reads now. */
  function PlayAll(q: Queue, now: real, durations: seq<real>): Queue
    decreases |durations|
  {
    if durations == [] then q
    else Enqueue(PlayAll(q, now, durations[..|durations| - 1]), now, durations[|durations| - 1])
  }

  /** The queue after a part list's plan: its chunks are enqueued, and a throw leaves the end caught up. */
  function AfterPlan(q: Queue, now: real, plan: PlayPlan): Queue {
    var played := PlayAll(q, now, plan.durations);
    if plan.failed then CatchUp(played, now) else played
  }

  /** Catching up moves the queue end to the later of itself and the clock, and touches nothing else. */
  lemma CatchUpMovesEnd(q: Queue, now: real)
    ensures var r := CatchUp(q, now);
            q.next <= r.next && now <= r.next && (r.next == q.next || r.next == now) &&
            r.created == q.created && r.playing == q.playing && r.started == q.started
  {
  }

  /**
   * Enqueueing keeps the slots started so far and adds one, starting at the
   * later of the queue end and the clock, with the chunk's duration; the
   * queue end becomes its end; the new source is the next creation index.
   */
  lemma EnqueueStartsAtQueueEnd(q: Queue, now: real, duration: real)
    ensures var r := Enqueue(q, now, duration);
            |r.started| == |q.started| + 1 && r.started[..|q.started|] == q.started &&
            r.started[|q.started|].start == Max(q.next, now) &&
            q.next <= r.started[|q.started|].start && now <= r.started[|q.started|].start &&
            r.started[|q.started|].duration == duration && r.next == End(r.started[|q.started|]) &&
            r.created == q.created + 1 && r.playing == q.playing + {q.created}
  {
  }

  lemma CatchUpKeepsInvariant(q: Queue, now: real)
    requires QueueInvariant(q)
    ensures QueueInvariant(CatchUp(q, now))
  {
    SequencedLater(q.started, q.next, Max(q.next, now));
  }

  lemma EnqueueKeepsInvariant(q: Queue, now: real, duration: real)
    requires QueueInvariant(q) && 0.0 <= duration
    ensures QueueInvariant(Enqueue(q, now, duration))
  {
    SequencedSnoc(q.started, q.next, Max(q.next, now), duration);
  }

  /**
   * Enqueueing chunks one by one is the gapless schedule of the chunks
   * arriving at that clock reading: the slots are Schedule's, the end is
   * QueueEnd's, and the new sources are the next creation indices.
   */
  lemma {:induction false} PlayAllIsSchedule(q: Queue, now: real, durations: seq<real>)
    ensures PlayAll(q, now, durations) ==
            Queue(QueueEnd(q.next, AtClock(now, durations)), q.created + |durations|,
                  q.playing + SourceIds(q.created, q.created + |durations|),
                  q.started + Schedule(q.next, AtClock(now, durations)))
    decreases |durations|
  {
    if durations != [] {
      var init := durations[..|durations| - 1];
      var d := durations[|durations| - 1];
      PlayAllIsSchedule(q, now, init);
      ScheduleSnoc(q.next, AtClock(now, init), Arrival(now, d));
      assert AtClock(now, durations) == AtClock(now, init) + [Arrival(now, d)];
    }
  }

  /** The plan's chunks all have positive durations, so playing them keeps the queue invariant. */
  lemma {:induction false} PlayAllKeepsInvariant(q: Queue, now: real, durations: seq<real>)
    requires QueueInvariant(q)
    requires forall k :: 0 <= k < |durations| ==> 0.0 <= durations[k]
    ensures QueueInvariant(PlayAll(q, now, durations))
    decreases |durations|
  {
    if durations != [] {
      var init := durations[..|durations| - 1];
      PlayAllKeepsInvariant(q, now, init);
      EnqueueKeepsInvariant(PlayAll(q, now, init), now, durations[|durations| - 1]);
    }
  }

  /**
   * How many resources a start orphans, given which references were held
   * when it began: on success every held reference is overwritten; a throw
   * while creating the output context loses the input context just made; a
   * throw while resuming loses both new contexts; a throw at the microphone
   * comes after the contexts were stored over the old ones.
   */
  function StartOrphans(failure: Option<StartFailure>, inputHeld: bool, outputHeld: bool,
                        streamHeld: bool, sessionHeld: bool): nat
  {
    match failure
    case None => Count(inputHeld) + Count(outputHeld) + Count(streamHeld) + Count(sessionHeld)
    case Some(InputContextCreation) => 0
    case Some(OutputContextCreation) => 1
    case Some(ContextResume) => 2
    case Some(MediaAccess) => Count(inputHeld) + Count(outputHeld)
  }

  class Translator {
    var sessionState: SessionState
    var speaking: bool                 // isModelSpeaking
    var liveTranscript: LiveTranscript
    var textInput: string
    var inputContextHeld: bool         // audioContextRef
    var outputContextHeld: bool        // outAudioContextRef
    var gainHeld: bool                 // gainNodeRef
    var nextStart: real                // nextStartTimeRef
    var sources: set<nat>              // sourcesRef, sources named by creation index
    var sourcesCreated: nat
    var sessionHeld: bool              // sessionPromiseRef
    var streamHeld: bool               // streamRef
    var english: string                // englishBuffer
    var korean: string                 // koreanBuffer
    var lastActivity: int              // lastActivityTime
    var framePending: bool             // frameRef
    var captureWired: bool             // a script processor feeds the live input context
    var outbox: seq<Outbound>          // everything sent to the live session, in order
    var orphaned: nat                  // contexts, streams and sessions created and no longer referenced
    ghost var scheduled: seq<Slot>     // every source started, with its start time and duration
    ghost var silenceChecks: multiset<int>  // pending silence timers, by the time of their turn

    /** The playback fields as one value. */
    ghost function QueueOf(): Queue
      reads this`nextStart, this`sourcesCreated, this`sources, this`scheduled
    {
      Queue(nextStart, sourcesCreated, sources, scheduled)
    }

    ghost predicate Valid()
      reads this`speaking, this`sources, this`sourcesCreated, this`scheduled, this`nextStart, this`liveTranscript
    {
      (speaking <==> sources != {}) &&
      QueueInvariant(QueueOf()) &&
      |liveTranscript.english| <= EnglishLimit && |liveTranscript.korean| <= KoreanLimit
    }

    /** Everything stopSession releases or clears is released or cleared. */
    predicate Stopped()
      reads this
    {
      sessionState == Disconnected && !sessionHeld && !streamHeld && sources == {} &&
      !inputContextHeld && !outputContextHeld && !captureWired && !speaking &&
      english == "" && korean == "" && liveTranscript == LiveTranscript("", "")
    }

    /** The page as first rendered at time mountTime. */
    constructor (mountTime: int)
      ensures Valid() && Stopped()
      ensures nextStart == 0.0 && lastActivity == mountTime && !framePending && !gainHeld
      ensures textInput == "" && outbox == [] && sourcesCreated == 0
      ensures scheduled == [] && silenceChecks == multiset{} && orphaned == 0
    {
      sessionState := Disconnected;
      speaking := false;
      liveTranscript := LiveTranscript("", "");
      textInput := "";
      inputContextHeld, outputContextHeld, gainHeld := false, false, false;
      nextStart := 0.0;
      sources, sourcesCreated := {}, 0;
      sessionHeld, streamHeld := false, false;
      english, korean := "", "";
      lastActivity := mountTime;
      framePending := false;
      captureWired := false;
      outbox := [];
      orphaned := 0;
      scheduled, silenceChecks := [], multiset{};
    }

    /** updateTranscriptState: requests an animation frame unless one is already pending. */
    method RequestDisplayUpdate()
      modifies this`framePending
      ensures framePending
      ensures old(framePending) ==> unchanged(this)
    {
      if framePending {
        return;
      }
      framePending := true;
    }

    /** The pending animation frame runs: the bounded views are rendered and the frame is released. */
    method AnimationFrame()
      requires Valid() && framePending
      modifies this`liveTranscript, this`framePending
      ensures Valid() && !framePending
      ensures liveTranscript == LiveTranscript(EnglishView(english), KoreanView(korean))
    {
      liveTranscript := LiveTranscript(EnglishView(english), KoreanView(korean));
      framePending := false;
    }

    /**
     * stopSession: disconnects, releases the session, the stream, every
     * source and both contexts, and clears the transcript; the playback
     * queue end, the gain node and any pending frame are kept.
     */
    method StopSession()
      requires Valid()
      modifies this`sessionState, this`sessionHeld, this`streamHeld, this`sources, this`inputContextHeld,
               this`outputContextHeld, this`captureWired, this`speaking, this`english, this`korean, this`liveTranscript
      ensures Valid() && Stopped()
      ensures old(Stopped()) ==> unchanged(this)
    {
      sessionState := Disconnected;
      sessionHeld, streamHeld := false, false;
      sources := {};
      // closing the input context also ends its script processor
      inputContextHeld, outputContextHeld, captureWired := false, false, false;
      speaking := false;
      english, korean := "", "";
      liveTranscript := LiveTranscript("", "");
    }

    /**
     * startSession, up to handing over the session promise: contexts, gain
     * node, microphone and session are acquired in turn; a failure at any of
     * these steps is caught and ends in stopSession, keeping what was done
     * before it that stopSession does not undo (the gain node). The button
     * calls it in every state but Connected, so a start while Connecting
     * overwrites the held references: the resources they named are never
     * released and count as orphaned, as do contexts created before a throw
     * and not yet stored.
     */
    method StartSession(failure: Option<StartFailure>)
      requires Valid()
      requires sessionState != Connected
      modifies this`sessionState, this`gainHeld, this`inputContextHeld, this`outputContextHeld, this`streamHeld,
               this`sessionHeld, this`sources, this`captureWired, this`speaking, this`english, this`korean,
               this`liveTranscript, this`orphaned
      ensures Valid()
      ensures failure.None? ==> sessionState == Connecting && gainHeld && inputContextHeld && outputContextHeld &&
                                streamHeld && sessionHeld
      ensures failure.None? ==> sources == old(sources) && speaking == old(speaking) &&
                                captureWired == old(captureWired) && english == old(english) &&
                                korean == old(korean) && liveTranscript == old(liveTranscript)
      ensures failure.Some? ==> Stopped() &&
                                gainHeld == (old(gainHeld) || !(failure == Some(InputContextCreation) ||
                                                                failure == Some(OutputContextCreation)))
      ensures orphaned == old(orphaned) + StartOrphans(failure, old(inputContextHeld), old(outputContextHeld),
                                                       old(streamHeld), old(sessionHeld))
    {
      var threw := TryStart(failure);
      if threw {
        // the catch block
        StopSession();
      }
    }

    /**
     * The try block of startSession, stopping where failure says it throws.
     * A throw while creating the input context does nothing; one while
     * creating the output context loses the input context; from then on the
     * state is Connecting and the gain node is held; a throw while resuming
     * loses both new contexts; after that the contexts are stored over the
     * old references, and on success so are the stream and the session.
     */
    method TryStart(failure: Option<StartFailure>) returns (threw: bool)
      modifies this`sessionState, this`gainHeld, this`inputContextHeld, this`outputContextHeld, this`streamHeld,
               this`sessionHeld, this`orphaned
      ensures threw == failure.Some?
      ensures orphaned == old(orphaned) + StartOrphans(failure, old(inputContextHeld), old(outputContextHeld),
                                                       old(streamHeld), old(sessionHeld))
      ensures failure.None? ==> sessionState == Connecting && gainHeld && inputContextHeld && outputContextHeld &&
                                streamHeld && sessionHeld
      ensures gainHeld == (old(gainHeld) || !(failure == Some(InputContextCreation) ||
                                              failure == Some(OutputContextCreation)))
      ensures failure == Some(InputContextCreation) || failure == Some(OutputContextCreation) ==>
                sessionState == old(sessionState) && inputContextHeld == old(inputContextHeld) &&
                outputContextHeld == old(outputContextHeld) && streamHeld == old(streamHeld) &&
                sessionHeld == old(sessionHeld)
      ensures failure == Some(ContextResume) ==>
                sessionState == Connecting && inputContextHeld == old(inputContextHeld) &&
                outputContextHeld == old(outputContextHeld) && streamHeld == old(streamHeld) &&
                sessionHeld == old(sessionHeld)
      ensures failure == Some(MediaAccess) ==>
                sessionState == Connecting && inputContextHeld && outputContextHeld &&
                streamHeld == old(streamHeld) && sessionHeld == old(sessionHeld)
    {
      threw := true;
      if failure == Some(InputContextCreation) {
        return;
      }
      if failure == Some(OutputContextCreation) {
        orphaned := orphaned + 1;
        return;
      }
      sessionState := Connecting;
      gainHeld := true;
      if failure == Some(ContextResume) {
        orphaned := orphaned + 2;
        return;
      }
      orphaned := orphaned + Count(inputContextHeld) + Count(outputContextHeld);
      inputContextHeld, outputContextHeld := true, true;
      if failure.Some? {
        // MediaAccess
        return;
      }
      orphaned := orphaned + Count(streamHeld) + Count(sessionHeld);
      streamHeld, sessionHeld := true, true;
      threw := false;
    }

    /** onopen: the session is connected and the microphone is wired to the capture callback. */
    method OnOpen()
      requires Valid()
      modifies this`sessionState, this`captureWired
      ensures Valid()
      ensures sessionState == Connected && captureWired
    {
      sessionState := Connected;
      captureWired := true;
    }

    /** onerror: stopSession. */
    method OnError()
      requires Valid()
      modifies this`sessionState, this`sessionHeld, this`streamHeld, this`sources, this`inputContextHeld,
               this`outputContextHeld, this`captureWired, this`speaking, this`english, this`korean, this`liveTranscript
      ensures Valid() && Stopped()
    {
      StopSession();
    }

    /** onclose: stopSession. */
    method OnClose()
      requires Valid()
      modifies this`sessionState, this`sessionHeld, this`streamHeld, this`sources, this`inputContextHeld,
               this`outputContextHeld, this`captureWired, this`speaking, this`english, this`korean, this`liveTranscript
      ensures Valid() && Stopped()
    {
      StopSession();
    }

    /**
     * onaudioprocess: a captured frame is encoded and sent whenever a session
     * promise is held, whatever the session state.
     */
    method OnAudioProcess(frame: array<real>)
      requires Valid() && captureWired
      modifies this`outbox
      ensures sessionHeld ==> outbox == old(outbox) + [Media(PackLE(EncodeFrame(frame[..])))]
      ensures !sessionHeld ==> outbox == old(outbox)
    {
      if sessionHeld {
        var pcmBlob := CreatePcmBlob(frame);
        outbox := outbox + [Media(pcmBlob)];
      }
    }

    /** The text box's onChange. */
    method SetTextInput(text: string)
      modifies this`textInput
      ensures textInput == text
    {
      textInput := text;
    }

    /**
     * handleSendText: with a non-blank text box and a held session, sends the
     * trimmed question in the prompt template; once the send is accepted the
     * text box is cleared and both buffers show their placeholder.
     */
    method HandleSendText(sendAccepted: bool)
      requires Valid()
      modifies this`outbox, this`textInput, this`english, this`korean, this`framePending
      ensures Valid()
      ensures Trim(old(textInput)) == "" || !sessionHeld ==> unchanged(this)
      ensures !sendAccepted ==> unchanged(this)
      ensures Trim(old(textInput)) != "" && sessionHeld && sendAccepted ==>
                outbox == old(outbox) + [Text(QuestionPrompt(Trim(old(textInput))))] &&
                textInput == "" && english == SyncingPlaceholder && korean == PendingAnswerPlaceholder &&
                framePending
    {
      if Trim(textInput) == "" || !sessionHeld {
        return;
      }
      var textToSend := Trim(textInput);
      if !sendAccepted {
        return;
      }
      outbox := outbox + [Text(QuestionPrompt(textToSend))];
      textInput := "";
      english := SyncingPlaceholder;
      korean := PendingAnswerPlaceholder;
      RequestDisplayUpdate();
    }

    /** A started source's onended: it leaves the set, and the indicator drops once the set is empty. */
    method OnEnded(id: nat)
      requires Valid()
      modifies this`sources, this`speaking
      ensures Valid()
      ensures sources == old(sources) - {id}
      ensures speaking == (old(speaking) && sources != {})
    {
      sources := sources - {id};
      if sources == {} {
        speaking := false;
      }
    }

    /**
     * One iteration of the loop over a model turn's parts: a part with data,
     * while the output context and gain node are held, moves the queue end up
     * to the clock, is decoded, and starts at the queue end, which then
     * advances by its duration; its source joins the set and the indicator
     * turns on. A decode failure throws (played is false) after the queue
     * end has moved.
     */
    method PlayPart(part: Part, ctxTime: real, atob: string -> Option<string>) returns (played: bool)
      requires Valid()
      modifies this`nextStart, this`sources, this`sourcesCreated, this`speaking, this`scheduled
      ensures Valid()
      ensures var chunk := if outputContextHeld && gainHeld then PartChunk(part, atob) else Skip;
              && played == !chunk.Fail?
              && QueueOf() == (match chunk
                               case Skip => old(QueueOf())
                               case Fail => CatchUp(old(QueueOf()), ctxTime)
                               case Play(d) => Enqueue(old(QueueOf()), ctxTime, d))
              && speaking == (old(speaking) || chunk.Play?)
    {
      played := true;
      if part.data == "" || !outputContextHeld || !gainHeld {
        return;
      }
      CatchUpKeepsInvariant(QueueOf(), ctxTime);
      nextStart := Max(nextStart, ctxTime);
      var duration := DecodeChunk(part, atob);
      if duration.None? {
        return false;
      }
      EnqueueKeepsInvariant(QueueOf(), ctxTime, duration.value);
      var source := sourcesCreated;
      sourcesCreated := sourcesCreated + 1;
      speaking := true;
      scheduled := scheduled + [Slot(nextStart, duration.value)];
      nextStart := nextStart + duration.value;
      sources := sources + {source};
    }

    /**
     * The loop over a model turn's parts, all handled while the output clock
     * reads ctxTime. It stops at the first part whose decode throws
     * (completed is false).
     */
    method PlayParts(parts: seq<Part>, ctxTime: real, atob: string -> Option<string>) returns (completed: bool)
      requires Valid()
      modifies this`nextStart, this`sources, this`sourcesCreated, this`speaking, this`scheduled
      ensures Valid()
      ensures var plan := if outputContextHeld && gainHeld then PlanParts(parts, atob) else PlayPlan([], false);
              completed == !plan.failed && QueueOf() == AfterPlan(old(QueueOf()), ctxTime, plan)
    {
      ghost var canPlay := outputContextHeld && gainHeld;
      ghost var start := QueueOf();
      ghost var done: seq<real> := [];
      completed := true;
      var i := 0;
      while i < |parts| && completed
        invariant 0 <= i <= |parts|
        invariant Valid()
        invariant canPlay ==> PlanParts(parts[..i], atob) == PlayPlan(done, !completed)
        invariant !canPlay ==> done == [] && completed
        invariant QueueOf() == if completed then PlayAll(start, ctxTime, done)
                               else CatchUp(PlayAll(start, ctxTime, done), ctxTime)
      {
        var part := parts[i];
        assert parts[..i + 1][..i] == parts[..i];
        var played := PlayPart(part, ctxTime, atob);
        if !played {
          completed := false;
        } else if canPlay && PartChunk(part, atob).Play? {
          var duration := PartChunk(part, atob).duration;
          assert (done + [duration])[..|done|] == done;
          done := done + [duration];
        }
        i := i + 1;
      }
      if !completed {
        PlanStopsAtFailure(parts[..i], parts[i..], atob);
        assert parts[..i] + parts[i..] == parts;
      } else {
        assert parts[..i] == parts;
      }
    }

    /**
     * The transcription half of onmessage: a non-empty input transcription
     * joins the English buffer with a space, a non-empty output transcription
     * is appended to the Korean buffer, and either requests a display update.
     */
    method TakeTranscription(inputText: string, outputText: string)
      modifies this`english, this`korean, this`framePending
      ensures english == AppendSource(old(english), inputText)
      ensures korean == AppendTarget(old(korean), outputText)
      ensures framePending == (old(framePending) || inputText != "" || outputText != "")
    {
      if inputText != "" {
        english := english + (if english == "" then "" else " ") + inputText;
        RequestDisplayUpdate();
      }
      if outputText != "" {
        korean := korean + outputText;
        RequestDisplayUpdate();
      }
    }

    /**
     * onmessage, received at wall-clock time now while the output clock reads
     * ctxTime: records the activity, takes the transcription texts, schedules
     * every audio part back to back, and on a completed turn starts the
     * silence timer. A part whose payload fails to decode throws, which ends
     * the handler there (completed is false): later parts and the turn's
     * timer are skipped.
     */
    method OnMessage(msg: ServerMessage, now: int, ctxTime: real, atob: string -> Option<string>)
      returns (completed: bool)
      requires Valid()
      modifies this`lastActivity, this`english, this`korean, this`framePending, this`nextStart, this`sources,
               this`sourcesCreated, this`speaking, this`scheduled, this`silenceChecks
      ensures Valid()
      ensures lastActivity == now
      ensures english == AppendSource(old(english), msg.inputText)
      ensures korean == AppendTarget(old(korean), msg.outputText)
      ensures framePending == (old(framePending) || msg.inputText != "" || msg.outputText != "")
      ensures var plan := if outputContextHeld && gainHeld then PlanParts(msg.parts, atob) else PlayPlan([], false);
              completed == !plan.failed && QueueOf() == AfterPlan(old(QueueOf()), ctxTime, plan)
      ensures silenceChecks == old(silenceChecks) + (if msg.turnComplete && completed then multiset{now} else multiset{})
    {
      lastActivity := now;
      TakeTranscription(msg.inputText, msg.outputText);
      completed := PlayParts(msg.parts, ctxTime, atob);
      if msg.turnComplete && completed {
        silenceChecks := silenceChecks + multiset{now};
      }
    }

    /**
     * The silence timer of a turn completed at turnTime fires at now: both
     * buffers are cleared, and a display update requested, only when more
     * than 3500 ms have passed since the last inbound message.
     */
    method SilenceCheck(turnTime: int, now: int)
      requires Valid()
      requires turnTime in silenceChecks
      requires turnTime + SilenceDelay <= now
      modifies this`english, this`korean, this`framePending, this`silenceChecks
      ensures Valid()
      ensures silenceChecks == old(silenceChecks) - multiset{turnTime}
      ensures now - lastActivity > SilenceThreshold ==> english == "" && korean == "" && framePending
      ensures now - lastActivity <= SilenceThreshold ==>
                english == old(english) && korean == old(korean) && framePending == old(framePending)
      ensures lastActivity <= turnTime ==> english == "" && korean == ""
    {
      silenceChecks := silenceChecks - multiset{turnTime};
      if now - lastActivity > SilenceThreshold {
        english, korean := "", "";
        RequestDisplayUpdate();
      }
    }
  }

  /** A stand-in for atob that decodes every payload to one second of 24 kHz audio. */
  function OneSecondDecoder(data: string): Option<string> {
    Some(seq(2 * OutputSampleRate, _ => 'A'))
  }

  lemma OneSecondPlan(ctxTime: real, q: Queue)
    ensures PlanParts([Part("AAAA")], OneSecondDecoder) == PlayPlan([1.0], false)
    ensures AfterPlan(q, ctxTime, PlayPlan([1.0], false)).next == Max(q.next, ctxTime) + 1.0
  {
    assert |OneSecondDecoder("AAAA").value| == 48000;
    assert PartChunk(Part("AAAA"), OneSecondDecoder) == Play(1.0);
    assert [Part("AAAA")][..0] == [];
    assert [1.0][..0] == [];
  }

  /** A model turn with one part of one second of audio arrives while the output clock reads ctxTime. */
  method ReceiveOneSecond(page: Translator, now: int, ctxTime: real)
    requires page.Valid() && page.outputContextHeld && page.gainHeld
    modifies page
    ensures page.Valid()
    ensures page.outputContextHeld && page.gainHeld
    ensures page.nextStart == Max(old(page.nextStart), ctxTime) + 1.0
  {
    OneSecondPlan(ctxTime, page.QueueOf());
    var completed := page.OnMessage(ServerMessage("", "", [Part("AAAA")], false), now, ctxTime, OneSecondDecoder);
  }

  /** stopSession, then startSession and onopen with every step succeeding. */
  method Restart(page: Translator)
    requires page.Valid()
    modifies page
    ensures page.Valid()
    ensures page.outputContextHeld && page.gainHeld && page.sessionState == Connected
    ensures page.nextStart == old(page.nextStart)
  {
    page.StopSession();
    page.StartSession(None);
    page.OnOpen();
  }

  /**
   * A restart keeps the queue end. A first session queues a one-second
   * chunk while the output clock reads 99.0; after stopSession and a new
   * startSession the output clock of the new context reads 0.0, yet the
   * next one-second chunk is queued behind the old one and ends at 101.0.
   */
  method RestartKeepsQueueEnd() returns (queueEnd: real)
    ensures queueEnd == 101.0
  {
    var page := new Translator(0);
    page.StartSession(None);
    page.OnOpen();
    ReceiveOneSecond(page, 1000, 99.0);
    Restart(page);
    ReceiveOneSecond(page, 2000, 0.0);
    queueEnd := page.nextStart;
  }

  /**
   * A second start while the first is still Connecting overwrites all four
   * references. Once stopSession has run, the page reads as stopped while
   * the first session's two contexts, stream and session are still open,
   * with nothing left that could release them.
   */
  method StartWhileConnectingOrphans() returns (orphans: nat, stopped: bool)
    ensures orphans == 4 && stopped
  {
    var page := new Translator(0);
    page.StartSession(None);
    page.StartSession(None);
    page.StopSession();
    orphans := page.orphaned;
    stopped := page.Stopped();
  }

  /**
   * The silence timer looks only at the newest message, not at whether one
   * came after the turn. A turn completes at 0 ms and "hello" arrives at
   * 100 ms; when the turn's timer fires at 4000 ms, 3900 ms have passed,
   * which is more than 3500, so "hello" is cleared with the rest.
   */
  method EarlyActivityIsCleared() returns (before: string, after: string)
    ensures before == "hello" && after == ""
  {
    var page := new Translator(0);
    var turnDone := page.OnMessage(ServerMessage("", "", [], true), 0, 0.0, OneSecondDecoder);
    var helloDone := page.OnMessage(ServerMessage("hello", "", [], false), 100, 0.0, OneSecondDecoder);
    before := page.english;
    page.SilenceCheck(0, 4000);
    after := page.english;
  }
}
