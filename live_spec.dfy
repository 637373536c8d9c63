/** The behaviour of the live consultation page (components/LiveConsultationPage.tsx) as pure
    step functions over views of its state: the transcript accumulator, the gapless playback
    scheduler with barge-in, and the tool-call dispatcher with its evidence store. The page
    itself (live_consultation.dfy) is proved to update its fields exactly as these say.

    Audio time is counted in integer ticks (samples of the 24 kHz output context); `now`
    stands for `outputAudioContext.currentTime`. */
module LiveSpec {
  import opened Types
  import opened Strings
  import Gemini

  // ---------------------------------------------------------------------------------------
  // Messages from the live model
  // ---------------------------------------------------------------------------------------

  /** A call the model makes: `{ id, name, args }`, with string-valued arguments. */
  datatype FunctionCall = FunctionCall(id: string, name: string, args: map<string, string>)

  /** The parts of a `LiveServerMessage` the page reads: output and input transcription
      text, `turnComplete`, the tool calls, the first model-turn part's inline audio, and
      `interrupted`. */
  datatype ServerMessage = ServerMessage(
    outputTranscription: Option<string>,
    inputTranscription: Option<string>,
    turnComplete: bool,
    functionCalls: seq<FunctionCall>,
    audio: Option<string>,
    interrupted: bool)

  /** `if (audioData)`: present and non-empty. */
  predicate HasAudioData(m: ServerMessage)
  {
    m.audio.Some? && m.audio.value != ""
  }

  // ---------------------------------------------------------------------------------------
  // Transcript accumulator
  // ---------------------------------------------------------------------------------------

  /** `currentChunkRef.current`, the shown speech chunk, the last complete instruction and
      the user's transcription. */
  datatype Transcript = Transcript(chunk: string, shown: string, instruction: string, user: string)

  /** One message's effect on the transcript: output text is appended, input text replaces,
      and `turnComplete` promotes the accumulated chunk to the instruction and clears the
      rest. The output of the same message is appended before the turn is completed. */
  function TranscriptStep(t: Transcript, output: Option<string>, input: Option<string>, turnComplete: bool): Transcript
  {
    var t1 := if output.Some? then t.(chunk := t.chunk + output.value, shown := t.chunk + output.value) else t;
    var t2 := if input.Some? then t1.(user := input.value) else t1;
    if turnComplete then t2.(instruction := t2.chunk, shown := "", chunk := "", user := "") else t2
  }

  /** The transcript after a run of messages, each applied in arrival order. */
  function TranscriptRun(t: Transcript, msgs: seq<ServerMessage>): Transcript
  {
    if msgs == [] then t
    else
      var m := msgs[|msgs| - 1];
      TranscriptStep(TranscriptRun(t, msgs[..|msgs| - 1]), m.outputTranscription, m.inputTranscription, m.turnComplete)
  }

  /** All output-transcription text of a run of messages, in arrival order. */
  function OutputText(msgs: seq<ServerMessage>): string
  {
    if msgs == [] then ""
    else
      var m := msgs[|msgs| - 1];
      OutputText(msgs[..|msgs| - 1]) + (if m.outputTranscription.Some? then m.outputTranscription.value else "")
  }

  predicate NoTurnComplete(msgs: seq<ServerMessage>)
  {
    forall i :: 0 <= i < |msgs| ==> !msgs[i].turnComplete
  }

  /** Within a turn, output fragments are concatenated in arrival order and nothing else of
      the finished instruction changes. */
  lemma {:induction false} TranscriptAccumulates(t: Transcript, msgs: seq<ServerMessage>)
    requires NoTurnComplete(msgs)
    ensures TranscriptRun(t, msgs).chunk == t.chunk + OutputText(msgs)
    ensures TranscriptRun(t, msgs).instruction == t.instruction
  {
    if msgs != [] {
      var init := msgs[..|msgs| - 1];
      assert NoTurnComplete(init) by {
        forall i | 0 <= i < |init| ensures !init[i].turnComplete {
          assert init[i] == msgs[i];
        }
      }
      TranscriptAccumulates(t, init);
    }
  }

  /** A message that completes the turn makes the instruction exactly the turn's output
      text, its own output included, and clears the chunk, the shown text and the user's
      transcription. */
  lemma TurnCompletes(t: Transcript, msgs: seq<ServerMessage>, last: ServerMessage)
    requires NoTurnComplete(msgs)
    requires last.turnComplete
    ensures TranscriptRun(t, msgs + [last]).instruction == t.chunk + OutputText(msgs + [last])
    ensures TranscriptRun(t, msgs + [last]).chunk == ""
    ensures TranscriptRun(t, msgs + [last]).shown == ""
    ensures TranscriptRun(t, msgs + [last]).user == ""
  {
    var all := msgs + [last];
    assert all[..|all| - 1] == msgs;
    TranscriptAccumulates(t, msgs);
  }

  /** Input transcription replaces rather than appends. */
  lemma InputReplaces(t: Transcript, output: Option<string>, text: string)
    ensures TranscriptStep(t, output, Some(text), false).user == text
  {
  }

  // ---------------------------------------------------------------------------------------
  // Playback scheduler
  // ---------------------------------------------------------------------------------------

  /** A scheduled buffer source: an identity, its start time and its duration, in ticks. */
  datatype Source = Source(id: nat, start: nat, duration: nat)

  function End(s: Source): nat
  {
    s.start + s.duration
  }

  /** The `nextStartTime` cursor, the `sources` set in insertion order, every source that
      has been stopped, and the number of sources created so far. */
  datatype Playback = Playback(cursor: nat, sources: seq<Source>, stopped: seq<Source>, created: nat)

  function Max(a: nat, b: nat): nat
  {
    if a < b then b else a
  }

  /** A decoded chunk of `duration` ticks arriving at `now` starts at `max(cursor, now)`
      and moves the cursor to its end. */
  function Schedule(p: Playback, now: nat, duration: nat): (r: Playback)
    ensures |r.sources| == |p.sources| + 1 && r.sources[..|p.sources|] == p.sources
    ensures r.sources[|p.sources|] == Source(p.created, Max(p.cursor, now), duration)
    ensures r.cursor == Max(p.cursor, now) + duration
  {
    var start := Max(p.cursor, now);
    p.(cursor := start + duration, sources := p.sources + [Source(p.created, start, duration)], created := p.created + 1)
  }

  /** A chunk whose decode fails adds no source; the cursor has already been moved up to
      the clock. */
  function ScheduleChunk(p: Playback, now: nat, decoded: Option<nat>): Playback
  {
    match decoded
    case None => p.(cursor := Max(p.cursor, now))
    case Some(duration) => Schedule(p, now, duration)
  }

  /** Barge-in: every tracked source is stopped and forgotten, and the cursor returns to 0. */
  function Interrupt(p: Playback): (r: Playback)
    ensures r.sources == [] && r.cursor == 0
    ensures r.stopped == p.stopped + p.sources
  {
    p.(cursor := 0, sources := [], stopped := p.stopped + p.sources)
  }

  /** One message's effect on playback: its audio is scheduled first, then the interrupt
      flag is honoured. */
  function PlaybackStep(p: Playback, hasAudio: bool, now: nat, decoded: Option<nat>, interrupted: bool): Playback
  {
    var p1 := if hasAudio then ScheduleChunk(p, now, decoded) else p;
    if interrupted then Interrupt(p1) else p1
  }

  /** The `ended` event: the source leaves the set. */
  function RemoveSource(sources: seq<Source>, id: nat): (r: seq<Source>)
    ensures |r| <= |sources|
    ensures forall s :: s in r <==> s in sources && s.id != id
  {
    if sources == [] then []
    else
      var rest := RemoveSource(sources[..|sources| - 1], id);
      var last := sources[|sources| - 1];
      assert forall s :: s in sources[..|sources| - 1] ==> s in sources;
      assert forall s :: s in sources ==> s in sources[..|sources| - 1] || s == last;
      if last.id == id then rest else rest + [last]
  }

  /** Removing a source keeps the others in their order: any two remaining sources come
      from two positions of the original list, in the same order. */
  lemma {:induction false} RemoveSourceKeepsOrder(sources: seq<Source>, id: nat, i: nat, j: nat)
    requires i < j < |RemoveSource(sources, id)|
    ensures exists i', j' :: 0 <= i' < j' < |sources|
              && RemoveSource(sources, id)[i] == sources[i'] && RemoveSource(sources, id)[j] == sources[j']
  {
    var init := sources[..|sources| - 1];
    var last := sources[|sources| - 1];
    var rest := RemoveSource(init, id);
    var r := RemoveSource(sources, id);
    if j < |rest| {
      assert r[i] == rest[i] && r[j] == rest[j];
      RemoveSourceKeepsOrder(init, id, i, j);
      var i', j' :| 0 <= i' < j' < |init| && rest[i] == init[i'] && rest[j] == init[j'];
      assert sources[i'] == init[i'] && sources[j'] == init[j'];
    } else {
      assert r == rest + [last] && r[j] == last && r[i] == rest[i];
      assert rest[i] in rest;
      var i' :| 0 <= i' < |init| && init[i'] == rest[i];
      assert sources[i'] == init[i'] && sources[|sources| - 1] == last;
    }
  }

  /** The scheduler's invariant: every tracked source ends by the cursor, sources never
      overlap and lie in start order, and identities are increasing and below the count of
      created sources. */
  predicate PlaybackValid(p: Playback)
  {
    && (forall i :: 0 <= i < |p.sources| ==> End(p.sources[i]) <= p.cursor)
    && (forall i, j :: 0 <= i < j < |p.sources| ==> End(p.sources[i]) <= p.sources[j].start)
    && (forall i, j :: 0 <= i < j < |p.sources| ==> p.sources[i].id < p.sources[j].id)
    && (forall i :: 0 <= i < |p.sources| ==> p.sources[i].id < p.created)
  }

  lemma PlaybackStepPreservesValid(p: Playback, hasAudio: bool, now: nat, decoded: Option<nat>, interrupted: bool)
    requires PlaybackValid(p)
    ensures PlaybackValid(PlaybackStep(p, hasAudio, now, decoded, interrupted))
  {
  }

  lemma SourceEndedPreservesValid(p: Playback, id: nat)
    requires PlaybackValid(p)
    ensures PlaybackValid(p.(sources := RemoveSource(p.sources, id)))
  {
    var r := RemoveSource(p.sources, id);
    forall i, j | 0 <= i < j < |r| ensures End(r[i]) <= r[j].start && r[i].id < r[j].id {
      RemoveSourceKeepsOrder(p.sources, id, i, j);
      var i', j' :| 0 <= i' < j' < |p.sources| && r[i] == p.sources[i'] && r[j] == p.sources[j'];
    }
    forall i | 0 <= i < |r| ensures End(r[i]) <= p.cursor && r[i].id < p.created {
      assert r[i] in p.sources;
    }
  }

  /** A chunk that arrives together with an interrupt is scheduled and then stopped at
      once: nothing is left playing and the cursor is back at 0. */
  lemma AudioWithInterruptIsStopped(p: Playback, now: nat, duration: nat)
    ensures var r := PlaybackStep(p, true, now, Some(duration), true);
            && r.sources == [] && r.cursor == 0
            && Source(p.created, Max(p.cursor, now), duration) in r.stopped
            && r.stopped == p.stopped + p.sources + [Source(p.created, Max(p.cursor, now), duration)]
  {
    var r := PlaybackStep(p, true, now, Some(duration), true);
    assert r.stopped[|p.stopped| + |p.sources|] == Source(p.created, Max(p.cursor, now), duration);
  }

  /** After an interrupt the next chunk starts at the current clock time. */
  lemma NextChunkAfterInterruptStartsNow(p: Playback, now: nat, duration: nat)
    ensures Schedule(Interrupt(p), now, duration).sources == [Source(p.created, now, duration)]
  {
  }

  /** A chunk whose decode fails adds no source and advances the cursor by no duration. */
  lemma FailedDecodeAddsNothing(p: Playback, now: nat)
    ensures PlaybackStep(p, true, now, None, false).sources == p.sources
    ensures PlaybackStep(p, true, now, None, false).cursor == Max(p.cursor, now)
  {
  }

  /** A decoded chunk as it arrives: arrival time and duration. */
  datatype Chunk = Chunk(arrival: nat, duration: nat)

  function ScheduleAll(p: Playback, chunks: seq<Chunk>): Playback
  {
    if chunks == [] then p
    else
      var c := chunks[|chunks| - 1];
      Schedule(ScheduleAll(p, chunks[..|chunks| - 1]), c.arrival, c.duration)
  }

  function TotalDuration(chunks: seq<Chunk>): nat
  {
    if chunks == [] then 0 else TotalDuration(chunks[..|chunks| - 1]) + chunks[|chunks| - 1].duration
  }

  /** Sources laid end to end from `start`, one per chunk, with consecutive identities. */
  function BackToBack(firstId: nat, start: nat, chunks: seq<Chunk>): (r: seq<Source>)
    ensures |r| == |chunks|
  {
    if chunks == [] then []
    else
      var init := chunks[..|chunks| - 1];
      BackToBack(firstId, start, init)
      + [Source(firstId + |init|, start + TotalDuration(init), chunks[|chunks| - 1].duration)]
  }

  /** The arrival condition of `GaplessWhenAhead` holds for every prefix of the chunks. */
  lemma AheadOfInit(p: Playback, chunks: seq<Chunk>)
    requires chunks != []
    requires forall i :: 0 <= i < |chunks| ==> chunks[i].arrival <= p.cursor + TotalDuration(chunks[..i])
    ensures var init := chunks[..|chunks| - 1];
            forall i :: 0 <= i < |init| ==> init[i].arrival <= p.cursor + TotalDuration(init[..i])
  {
    var init := chunks[..|chunks| - 1];
    forall i | 0 <= i < |init| ensures init[i].arrival <= p.cursor + TotalDuration(init[..i]) {
      assert init[i] == chunks[i] && init[..i] == chunks[..i];
    }
  }

  /** Gapless playback: chunks that each arrive before the chunks already scheduled have
      finished playing (the running cursor) play back to back from the cursor, with no gap
      and no overlap, and the cursor ends after all of them. */
  lemma {:induction false} GaplessWhenAhead(p: Playback, chunks: seq<Chunk>)
    requires forall i :: 0 <= i < |chunks| ==> chunks[i].arrival <= p.cursor + TotalDuration(chunks[..i])
    ensures ScheduleAll(p, chunks).sources == p.sources + BackToBack(p.created, p.cursor, chunks)
    ensures ScheduleAll(p, chunks).cursor == p.cursor + TotalDuration(chunks)
    ensures ScheduleAll(p, chunks).created == p.created + |chunks|
  {
    if chunks != [] {
      var n := |chunks| - 1;
      AheadOfInit(p, chunks);
      GaplessWhenAhead(p, chunks[..n]);
      assert chunks[..n] == chunks[..|chunks| - 1];
    }
  }

  // ---------------------------------------------------------------------------------------
  // Tool-call dispatcher and evidence store
  // ---------------------------------------------------------------------------------------

  /** A `sendToolResponse` with one function response `{ id, name, response: { result } }`. */
  datatype ToolResponse = ToolResponse(id: string, name: string, result: string)

  /** Every modality the `captureFrameFor` declaration offers is stored under an attachment
      property of the patient record, and no two of them share a key. */
  lemma DeclaredModalitiesHaveEvidenceKeys()
    ensures forall m :: m in Gemini.CaptureModalities ==> EvidenceKey(m) in AttachmentKeys
    ensures forall i, j :: 0 <= i < j < |Gemini.CaptureModalities| ==>
              EvidenceKey(Gemini.CaptureModalities[i]) != EvidenceKey(Gemini.CaptureModalities[j])
  {
  }

  /** `mediaRecorderRef.current`: the call its `onstop` answers, and whether it still records. */
  datatype Recorder = Recorder(callId: string, callName: string, recording: bool)

  /** What the page can read from its camera elements: whether the video element, the
      canvas and its 2-D context exist, and the base64 payload of the JPEG frame that
      `toDataURL` would produce. */
  datatype Camera = Camera(hasVideo: bool, hasCanvas: bool, hasContext: bool, frame: string)

  /** The state the tool handlers touch: the evidence map (`capturedData`), the previews,
      the status line and capture indicator, pending 700 ms flash and 5000 ms cough timers,
      the recorder, the tool responses sent, the hand-offs made and the session close
      requests. */
  datatype Tools = Tools(
    evidence: PatientRecord,
    previews: map<string, string>,
    status: string,
    capturing: Option<string>,
    flashTimers: nat,
    recorder: Option<Recorder>,
    coughTimers: nat,
    responses: seq<ToolResponse>,
    handoffs: seq<PatientRecord>,
    closeRequests: nat)

  /** `modality === 'rdtPhoto' ? 'photo' : modality` */
  function EvidenceKey(modality: string): string
  {
    if modality == "rdtPhoto" then PhotoKey else modality
  }

  /** `modality.replace('Photo', '')` */
  function CaptureLabel(modality: string): string
  {
    RemoveFirst(modality, "Photo")
  }

  function CaptureResult(modality: string): string
  {
    "Successfully captured " + CaptureLabel(modality) + "."
  }

  const RecordingCough := "Recording cough for 5s..."
  const CoughResult := "Successfully recorded cough audio."
  const JpegUrlPrefix := "data:image/jpeg;base64,"

  /** The camera has what `handleCaptureFrame` needs to store a frame. */
  predicate CameraReady(cam: Camera)
  {
    cam.hasVideo && cam.hasCanvas && cam.hasContext
  }

  /** `handleCaptureFrame(modality, id, name)`. Without video or canvas it returns at once;
      a missing modality argument throws at `modality.replace` before any update. Otherwise
      the status and indicator show the capture and a flash timer starts; without a 2-D
      context it stops there. With one the frame is stored under the evidence key, the
      data URL under the modality, and the call is answered. */
  function CaptureFrame(s: Tools, modality: Option<string>, id: string, name: string, cam: Camera): Tools
  {
    if !cam.hasVideo || !cam.hasCanvas || modality.None? then s
    else
      var m := modality.value;
      var shown := "Capturing " + CaptureLabel(m) + "...";
      var s1 := s.(status := shown, capturing := Some(shown), flashTimers := s.flashTimers + 1);
      if !cam.hasContext then s1
      else s1.(
        evidence := s.evidence[EvidenceKey(m) := Attached(Media(cam.frame, "image/jpeg"))],
        previews := s.previews[m := JpegUrlPrefix + cam.frame],
        responses := s.responses + [ToolResponse(id, name, CaptureResult(m))])
  }

  /** `handleRecordCough(id, name)`: without a stream nothing happens; otherwise a new
      recorder for this call replaces the previous one and a 5 s timer starts. */
  function RecordCough(s: Tools, id: string, name: string, hasStream: bool): Tools
  {
    if !hasStream then s
    else s.(status := RecordingCough, capturing := Some(RecordingCough),
            recorder := Some(Recorder(id, name, true)), coughTimers := s.coughTimers + 1)
  }

  /** The payload `triggerDiagnosis` hands off: the evidence with the call's arguments
      spread over it, so arguments win on shared keys. */
  function Handoff(evidence: PatientRecord, args: map<string, string>): (r: PatientRecord)
    ensures forall k :: k in args ==> k in r && r[k] == Text(args[k])
    ensures forall k :: k in evidence && k !in args ==> k in r && r[k] == evidence[k]
    ensures forall k :: k in r ==> k in evidence || k in args
  {
    evidence + map k | k in args :: Text(args[k])
  }

  /** `triggerDiagnosis`: the session is asked to close and the payload is handed off. */
  function TriggerDiagnosis(s: Tools, args: map<string, string>): Tools
  {
    s.(handoffs := s.handoffs + [Handoff(s.evidence, args)], closeRequests := s.closeRequests + 1)
  }

  function ArgOf(args: map<string, string>, key: string): Option<string>
  {
    if key in args then Some(args[key]) else None
  }

  /** One iteration of the `switch (fc.name)`; an unknown name has no case. */
  function DispatchCall(s: Tools, fc: FunctionCall, cam: Camera, hasStream: bool): Tools
  {
    if fc.name == "captureFrameFor" then CaptureFrame(s, ArgOf(fc.args, "modality"), fc.id, fc.name, cam)
    else if fc.name == "recordCoughSample" then RecordCough(s, fc.id, fc.name, hasStream)
    else if fc.name == "triggerDiagnosis" then TriggerDiagnosis(s, fc.args)
    else s
  }

  /** The calls of one message, handled in list order. */
  function DispatchCalls(s: Tools, calls: seq<FunctionCall>, cam: Camera, hasStream: bool): Tools
  {
    if calls == [] then s
    else DispatchCall(DispatchCalls(s, calls[..|calls| - 1], cam, hasStream), calls[|calls| - 1], cam, hasStream)
  }

  /** The response a call gets while its message is handled, if any: only a capture with
      a ready camera and a modality argument is answered at once. */
  function ImmediateResponse(fc: FunctionCall, cam: Camera): Option<ToolResponse>
  {
    if fc.name == "captureFrameFor" && CameraReady(cam) && "modality" in fc.args
    then Some(ToolResponse(fc.id, fc.name, CaptureResult(fc.args["modality"])))
    else None
  }

  function ImmediateResponses(calls: seq<FunctionCall>, cam: Camera): (r: seq<ToolResponse>)
    ensures |r| <= |calls|
  {
    if calls == [] then []
    else
      ImmediateResponses(calls[..|calls| - 1], cam)
      + match ImmediateResponse(calls[|calls| - 1], cam)
        case None => []
        case Some(resp) => [resp]
  }

  /** The responses sent while a message's calls are handled are exactly the immediate
      responses of those calls, in call order, after the earlier ones. */
  lemma {:induction false} DispatchResponses(s: Tools, calls: seq<FunctionCall>, cam: Camera, hasStream: bool)
    ensures DispatchCalls(s, calls, cam, hasStream).responses == s.responses + ImmediateResponses(calls, cam)
  {
    if calls != [] {
      DispatchResponses(s, calls[..|calls| - 1], cam, hasStream);
    }
  }

  /** Every immediate response echoes the id and name of one of the calls. */
  lemma {:induction false} ResponsesEchoCalls(calls: seq<FunctionCall>, cam: Camera)
    ensures forall r :: r in ImmediateResponses(calls, cam) ==>
              exists i :: 0 <= i < |calls| && r.id == calls[i].id && r.name == calls[i].name && r.name == "captureFrameFor"
  {
    if calls != [] {
      var init := calls[..|calls| - 1];
      ResponsesEchoCalls(init, cam);
      forall r | r in ImmediateResponses(calls, cam)
        ensures exists i :: 0 <= i < |calls| && r.id == calls[i].id && r.name == calls[i].name && r.name == "captureFrameFor"
      {
        if r in ImmediateResponses(init, cam) {
          var i :| 0 <= i < |init| && r.id == init[i].id && r.name == init[i].name && r.name == "captureFrameFor";
          assert calls[i] == init[i];
        } else {
          assert calls[|calls| - 1].id == r.id;
        }
      }
    }
  }

  /** A completed capture stores the JPEG frame under its evidence key (re-capture
      overwrites), leaves every other evidence key as it was, and sends exactly one
      response carrying the call's own id and name. */
  lemma CaptureStoresFrame(s: Tools, m: string, id: string, cam: Camera)
    requires CameraReady(cam)
    ensures var r := CaptureFrame(s, Some(m), id, "captureFrameFor", cam);
            && EvidenceKey(m) in r.evidence
            && r.evidence[EvidenceKey(m)] == Attached(Media(cam.frame, "image/jpeg"))
            && (forall k :: k != EvidenceKey(m) ==> (k in r.evidence <==> k in s.evidence))
            && (forall k :: k != EvidenceKey(m) && k in s.evidence ==> r.evidence[k] == s.evidence[k])
            && r.responses == s.responses + [ToolResponse(id, "captureFrameFor", CaptureResult(m))]
  {
  }

  /** `rdtPhoto` is stored under `photo`; every other modality under its own name. */
  lemma EvidenceKeyOfModality(m: Modality)
    ensures EvidenceKey("rdtPhoto") == PhotoKey
    ensures EvidenceKey(ModalityKey(m)) == ModalityKey(m)
  {
  }

  /** When the camera cannot deliver a frame, nothing is stored and nothing is answered. */
  lemma CaptureWithoutFrameStoresNothing(s: Tools, m: Option<string>, id: string, name: string, cam: Camera)
    requires !CameraReady(cam) || m.None?
    ensures CaptureFrame(s, m, id, name, cam).evidence == s.evidence
    ensures CaptureFrame(s, m, id, name, cam).responses == s.responses
  {
  }

  /** A call with an unknown name changes nothing. */
  lemma UnknownCallIgnored(s: Tools, fc: FunctionCall, cam: Camera, hasStream: bool)
    requires fc.name !in {"captureFrameFor", "recordCoughSample", "triggerDiagnosis"}
    ensures DispatchCall(s, fc, cam, hasStream) == s
  {
  }

  /** The recorder's 5 s timer fires: `mediaRecorderRef.current?.stop()`. A recorder that
      still records stops, and its `onstop` stores the cough audio (base64 of the recorded
      WebM blob) and answers the call it was made for; otherwise nothing happens. */
  function CoughTimerFired(s: Tools, blobBase64: string): Tools
  {
    var s1 := s.(coughTimers := if s.coughTimers > 0 then s.coughTimers - 1 else 0);
    match s.recorder
    case Some(r) =>
      if !r.recording then s1
      else s1.(
        evidence := s.evidence[ModalityKey(CoughAudio) := Attached(Media(blobBase64, "audio/webm"))],
        previews := s.previews[ModalityKey(CoughAudio) := "recorded"],
        capturing := None,
        recorder := Some(r.(recording := false)),
        responses := s.responses + [ToolResponse(r.callId, r.callName, CoughResult)])
    case None => s1
  }

  /** The 700 ms flash timer fires: the capture indicator is cleared, whatever it shows. */
  function FlashTimerFired(s: Tools): Tools
  {
    s.(capturing := None, flashTimers := if s.flashTimers > 0 then s.flashTimers - 1 else 0)
  }

  /** A cough recording answers the call that started it, once. */
  lemma CoughAnsweredOnce(s: Tools, id: string, name: string, b1: string, b2: string)
    ensures var r := CoughTimerFired(CoughTimerFired(RecordCough(s, id, name, true), b1), b2);
            && r.responses == s.responses + [ToolResponse(id, name, CoughResult)]
            && r.evidence[ModalityKey(CoughAudio)] == Attached(Media(b1, "audio/webm"))
  {
  }

  /** Two cough requests before the first timer fires: the second recorder replaces the
      first, both timers stop the second, and the first call is never answered. */
  lemma OverlappingCoughLeavesFirstUnanswered(s: Tools, id1: string, id2: string, name: string, b1: string, b2: string)
    requires id1 != id2
    ensures var r := CoughTimerFired(CoughTimerFired(RecordCough(RecordCough(s, id1, name, true), id2, name, true), b1), b2);
            && r.responses == s.responses + [ToolResponse(id2, name, CoughResult)]
            && (forall k :: |s.responses| <= k < |r.responses| ==> r.responses[k].id != id1)
  {
  }

  // ---------------------------------------------------------------------------------------
  // The hand-off payload
  // ---------------------------------------------------------------------------------------

  /** The hand-off as written: `{ ...capturedData, ...fc.args }` reads the `capturedData`
      of the render in which the session was started, not the evidence collected since. */
  function TriggerDiagnosisAsWritten(s: Tools, evidenceAtStart: PatientRecord, args: map<string, string>): Tools
  {
    s.(handoffs := s.handoffs + [Handoff(evidenceAtStart, args)], closeRequests := s.closeRequests + 1)
  }

  /** A session started with no evidence captures a rash photo and then triggers the
      diagnosis: the payload handed off as written has no rash photo, while the intended
      payload carries the captured frame. */
  lemma StaleEvidenceInHandoff(s: Tools, cam: Camera, args: map<string, string>)
    requires s.evidence == map[] && CameraReady(cam)
    requires "rashPhoto" !in args
    ensures var captured := CaptureFrame(s, Some("rashPhoto"), "c1", "captureFrameFor", cam);
            var asWritten := TriggerDiagnosisAsWritten(captured, s.evidence, args);
            var intended := TriggerDiagnosis(captured, args);
            && "rashPhoto" !in asWritten.handoffs[|asWritten.handoffs| - 1]
            && "rashPhoto" in intended.handoffs[|intended.handoffs| - 1]
            && intended.handoffs[|intended.handoffs| - 1]["rashPhoto"] == Attached(Media(cam.frame, "image/jpeg"))
  {
    assert EvidenceKey("rashPhoto") == "rashPhoto";
  }

  /** The intended hand-off carries every piece of evidence held when the diagnosis is
      triggered, unless an argument of the same name overrides it. */
  lemma HandoffCarriesCurrentEvidence(s: Tools, args: map<string, string>)
    ensures var h := TriggerDiagnosis(s, args).handoffs[|s.handoffs|];
            && (forall k :: k in s.evidence && k !in args ==> k in h && h[k] == s.evidence[k])
            && (forall k :: k in args ==> k in h && h[k] == Text(args[k]))
  {
  }
}
