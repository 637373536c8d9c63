/** The live consultation page (components/LiveConsultationPage.tsx) as an object whose fields
    are the page's state, refs and the locals its session callbacks close over. Each callback
    is a method, proved to change the fields exactly as the step functions of `LiveSpec`
    describe. Device and network results (the media stream, camera frames, decoded audio
    durations, the clock, error messages) are parameters. */
module LiveConsultation {
  import opened Types
  import opened Strings
  import opened LiveSpec

  datatype Permission = Pending | Granted | Denied

  /** The two audio contexts behind `audioContextRef.current`, and whether each is closed. */
  datatype AudioContexts = AudioContexts(inputClosed: bool, outputClosed: bool)

  /** How a start attempt ends: the media stream is granted, or the attempt throws. */
  datatype StartOutcome = StreamGranted(hasVideoElement: bool) | StartFailed(message: string)

  /** The session-level state that the message and tool handlers never touch. */
  datatype Session = Session(
    permission: Permission,
    active: bool,
    hasStream: bool,
    tracksStopped: bool,
    videoAttached: bool,
    processorConnected: bool,
    audioContexts: Option<AudioContexts>,
    contextCloseCalls: nat,
    evidenceAtStart: PatientRecord,
    endRequests: nat)

  const CameraMicrophoneError := "Could not access camera/microphone. Please ensure permissions are granted."
  const LiveSessionError := "An error occurred during live session."

  /** The status shown when starting fails. */
  function StartFailureStatus(message: string): (s: string)
    ensures Contains(message, "API_KEY") ==> s == message
    ensures !Contains(message, "API_KEY") ==> s == CameraMicrophoneError
  {
    if Contains(message, "API_KEY") then message else CameraMicrophoneError
  }

  /** The status shown by `onerror`: the error's message, or a fixed text when it is empty. */
  function ErrorStatus(message: string): (s: string)
    ensures message != "" ==> s == message
    ensures message == "" ==> s == LiveSessionError
  {
    if message != "" then message else LiveSessionError
  }

  /** How many `close()` calls a teardown makes on the contexts it finds. */
  function ClosesNeeded(contexts: Option<AudioContexts>): nat
  {
    match contexts
    case None => 0
    case Some(c) => (if c.inputClosed then 0 else 1) + (if c.outputClosed then 0 else 1)
  }

  /** The page's state, grouped by concern. `transcript` holds the transcript state and the
      running session's `currentChunkRef`; `playback` holds the session's `nextStartTime`
      and `sources` locals plus what has been stopped; `tools` holds `capturedData`,
      `capturedPreviews`, `statusMessage`, `isCapturing`, the recorder ref and the timers
      and responses of the tool handlers; `session` holds the permission, activity and
      device refs. */
  class LiveConsultationPage {
    var transcript: Transcript
    var playback: Playback
    var tools: Tools
    var session: Session

    /** The page as first rendered. */
    constructor ()
      ensures session == Session(Pending, false, false, false, false, false, None, 0, map[], 0)
      ensures tools == Tools(map[], map[], "Ready to start consultation.", None, 0, None, 0, [], [], 0)
      ensures transcript == Transcript("", "", "", "")
      ensures playback == Playback(0, [], [], 0) && PlaybackValid(playback)
    {
      session := Session(Pending, false, false, false, false, false, None, 0, map[], 0);
      tools := Tools(map[], map[], "Ready to start consultation.", None, 0, None, 0, [], [], 0);
      transcript := Transcript("", "", "", "");
      playback := Playback(0, [], [], 0);
    }

    /** `startSession`: ignored while a session is active. A granted stream activates the
        session with fresh audio contexts, an empty transcript chunk, a zero cursor and an
        empty source set, and snapshots the evidence its callbacks will read. A failure
        denies permission and shows the error only when it concerns the API key. */
    method StartSession(outcome: StartOutcome)
      modifies this
      ensures old(session.active) ==>
                session == old(session) && tools == old(tools) && transcript == old(transcript) && playback == old(playback)
      ensures !old(session.active) && outcome.StreamGranted? ==>
                && session == old(session).(
                     hasStream := true, tracksStopped := false,
                     videoAttached := old(session).videoAttached || outcome.hasVideoElement,
                     permission := Granted, active := true,
                     audioContexts := Some(AudioContexts(false, false)),
                     evidenceAtStart := old(tools).evidence)
                && tools == old(tools).(status := "Starting session...")
                && transcript == old(transcript).(chunk := "")
                && playback == old(playback).(cursor := 0, sources := [])
      ensures !old(session.active) && outcome.StartFailed? ==>
                && session == old(session).(permission := Denied, active := false)
                && tools == old(tools).(status := StartFailureStatus(outcome.message))
                && transcript == old(transcript) && playback == old(playback)
      ensures PlaybackValid(old(playback)) ==> PlaybackValid(playback)
    {
      if session.active {
        return;
      }
      tools := tools.(status := "Requesting permissions...");
      match outcome
      case StreamGranted(hasVideoElement) =>
        session := session.(hasStream := true, tracksStopped := false);
        if hasVideoElement {
          session := session.(videoAttached := true);
        }
        session := session.(permission := Granted);
        tools := tools.(status := "Starting session...");
        session := session.(active := true);
        transcript := transcript.(chunk := "");
        session := session.(audioContexts := Some(AudioContexts(false, false)));
        playback := playback.(cursor := 0, sources := []);
        session := session.(evidenceAtStart := tools.evidence);
      case StartFailed(message) =>
        tools := tools.(status := StartFailureStatus(message));
        session := session.(permission := Denied, active := false);
    }

    /** `onopen`. */
    method OnOpen()
      modifies this
      ensures tools == old(tools).(status := "Connected. AI is ready to talk.")
      ensures session == old(session).(processorConnected := true)
      ensures transcript == old(transcript) && playback == old(playback)
    {
      tools := tools.(status := "Connected. AI is ready to talk.");
      session := session.(processorConnected := true);
    }

    /** `handleCaptureFrame(modality, callId, callName)`. */
    method HandleCaptureFrame(modality: Option<string>, callId: string, callName: string, cam: Camera)
      modifies this
      ensures tools == CaptureFrame(old(tools), modality, callId, callName, cam)
      ensures session == old(session) && transcript == old(transcript) && playback == old(playback)
    {
      if !cam.hasVideo || !cam.hasCanvas {
        return;
      }
      if modality.None? {
        return;
      }
      var m := modality.value;
      tools := tools.(status := "Capturing " + CaptureLabel(m) + "...");
      tools := tools.(capturing := Some("Capturing " + CaptureLabel(m) + "..."));
      tools := tools.(flashTimers := tools.flashTimers + 1);
      if !cam.hasContext {
        return;
      }
      var dataUrl := JpegUrlPrefix + cam.frame;
      var keyToUpdate := if m == "rdtPhoto" then PhotoKey else m;
      tools := tools.(evidence := tools.evidence[keyToUpdate := Attached(Media(cam.frame, "image/jpeg"))]);
      tools := tools.(previews := tools.previews[m := dataUrl]);
      tools := tools.(responses := tools.responses + [ToolResponse(callId, callName, CaptureResult(m))]);
    }

    /** `handleRecordCough(callId, callName)`. */
    method HandleRecordCough(callId: string, callName: string)
      modifies this
      ensures tools == RecordCough(old(tools), callId, callName, session.hasStream)
      ensures session == old(session) && transcript == old(transcript) && playback == old(playback)
    {
      if !session.hasStream {
        return;
      }
      tools := tools.(status := RecordingCough, capturing := Some(RecordingCough));
      tools := tools.(recorder := Some(Recorder(callId, callName, true)));
      tools := tools.(coughTimers := tools.coughTimers + 1);
    }

    /** `onmessage`: the transcript, then the tool calls in list order, then the audio chunk
        (its decoded duration, or `None` when decoding throws), then the interrupt. */
    method OnMessage(msg: ServerMessage, now: nat, decoded: Option<nat>, cam: Camera)
      modifies this
      ensures transcript == TranscriptStep(old(transcript), msg.outputTranscription,
                                           msg.inputTranscription, msg.turnComplete)
      ensures tools == DispatchCalls(old(tools), msg.functionCalls, cam, session.hasStream)
      ensures playback == PlaybackStep(old(playback), HasAudioData(msg), now, decoded, msg.interrupted)
      ensures session == old(session)
    {
      UpdateTranscript(msg);
      HandleFunctionCalls(msg.functionCalls, cam);
      if HasAudioData(msg) {
        PlayChunk(now, decoded);
      }
      if msg.interrupted {
        StopAllSources();
      }
    }

    /** The transcription part of `onmessage`. */
    method UpdateTranscript(msg: ServerMessage)
      modifies this
      ensures transcript == TranscriptStep(old(transcript), msg.outputTranscription,
                                           msg.inputTranscription, msg.turnComplete)
      ensures tools == old(tools) && playback == old(playback) && session == old(session)
    {
      var t := transcript;
      if msg.outputTranscription.Some? {
        var chunk := t.chunk + msg.outputTranscription.value;
        t := t.(chunk := chunk, shown := chunk);
      }
      if msg.inputTranscription.Some? {
        t := t.(user := msg.inputTranscription.value);
      }
      if msg.turnComplete {
        t := t.(instruction := t.chunk, shown := "", chunk := "", user := "");
      }
      transcript := t;
    }

    /** The `for (const fc of functionCalls)` loop of `onmessage`. */
    method HandleFunctionCalls(calls: seq<FunctionCall>, cam: Camera)
      modifies this
      ensures tools == DispatchCalls(old(tools), calls, cam, session.hasStream)
      ensures transcript == old(transcript) && playback == old(playback) && session == old(session)
    {
      for i := 0 to |calls|
        invariant tools == DispatchCalls(old(tools), calls[..i], cam, session.hasStream)
        invariant transcript == old(transcript) && playback == old(playback) && session == old(session)
      {
        var fc := calls[i];
        assert calls[..i + 1][..i] == calls[..i];
        if fc.name == "captureFrameFor" {
          HandleCaptureFrame(ArgOf(fc.args, "modality"), fc.id, fc.name, cam);
        } else if fc.name == "recordCoughSample" {
          HandleRecordCough(fc.id, fc.name);
        } else if fc.name == "triggerDiagnosis" {
          tools := tools.(closeRequests := tools.closeRequests + 1,
                          handoffs := tools.handoffs + [Handoff(tools.evidence, fc.args)]);
        }
      }
      assert calls[..|calls|] == calls;
    }

    /** The audio part of `onmessage`: the cursor moves up to the clock, and a decoded
        chunk is started there and moves the cursor past its end. */
    method PlayChunk(now: nat, decoded: Option<nat>)
      modifies this
      ensures playback == ScheduleChunk(old(playback), now, decoded)
      ensures transcript == old(transcript) && tools == old(tools) && session == old(session)
    {
      var nextStartTime := Max(playback.cursor, now);
      if decoded.Some? {
        var source := Source(playback.created, nextStartTime, decoded.value);
        playback := playback.(
          cursor := nextStartTime + decoded.value,
          sources := playback.sources + [source],
          created := playback.created + 1);
      } else {
        playback := playback.(cursor := nextStartTime);
      }
    }

    /** The interrupt part of `onmessage`: every source is stopped and removed, one at a
        time, and the cursor returns to 0. */
    method StopAllSources()
      modifies this
      ensures playback == Interrupt(old(playback))
      ensures transcript == old(transcript) && tools == old(tools) && session == old(session)
    {
      var sources := playback.sources;
      var stopped := playback.stopped;
      while sources != []
        invariant stopped + sources == old(playback).stopped + old(playback).sources
        decreases |sources|
      {
        stopped := stopped + [sources[0]];
        sources := sources[1..];
      }
      assert stopped == old(playback).stopped + old(playback).sources;
      playback := playback.(cursor := 0, sources := sources, stopped := stopped);
    }

    /** The 700 ms flash timer fires. */
    method OnFlashTimer()
      modifies this
      ensures tools == FlashTimerFired(old(tools))
      ensures session == old(session) && transcript == old(transcript) && playback == old(playback)
    {
      tools := tools.(capturing := None);
      if tools.flashTimers > 0 {
        tools := tools.(flashTimers := tools.flashTimers - 1);
      }
    }

    /** The 5000 ms cough timer fires; `blobBase64` is the recorded blob as base64. */
    method OnCoughTimer(blobBase64: string)
      modifies this
      ensures tools == CoughTimerFired(old(tools), blobBase64)
      ensures session == old(session) && transcript == old(transcript) && playback == old(playback)
    {
      var r := tools.recorder;
      if tools.coughTimers > 0 {
        tools := tools.(coughTimers := tools.coughTimers - 1);
      }
      if r.Some? && r.value.recording {
        tools := tools.(recorder := Some(r.value.(recording := false)));
        tools := tools.(evidence := tools.evidence[ModalityKey(CoughAudio) := Attached(Media(blobBase64, "audio/webm"))]);
        tools := tools.(previews := tools.previews[ModalityKey(CoughAudio) := "recorded"]);
        tools := tools.(capturing := None);
        tools := tools.(responses := tools.responses + [ToolResponse(r.value.callId, r.value.callName, CoughResult)]);
      }
    }

    /** A source's `ended` event. */
    method OnSourceEnded(id: nat)
      modifies this
      ensures playback == old(playback).(sources := RemoveSource(old(playback).sources, id))
      ensures PlaybackValid(old(playback)) ==> PlaybackValid(playback)
      ensures session == old(session) && transcript == old(transcript) && tools == old(tools)
    {
      ghost var before := playback;
      playback := playback.(sources := RemoveSource(playback.sources, id));
      if PlaybackValid(before) {
        SourceEndedPreservesValid(before, id);
      }
    }

    /** The teardown shared by `onclose` and `onerror`: each audio context is closed only
        if it is not closed yet and the reference is cleared, so tearing down twice makes
        no further `close()` call; the stream's tracks stop, the video is detached and the
        processor disconnected. */
    method Teardown()
      modifies this
      ensures session == old(session).(
                audioContexts := None,
                contextCloseCalls := old(session).contextCloseCalls + ClosesNeeded(old(session).audioContexts),
                tracksStopped := old(session).tracksStopped || old(session).hasStream,
                videoAttached := false,
                processorConnected := false)
      ensures tools == old(tools) && transcript == old(transcript) && playback == old(playback)
    {
      var closeCalls := 0;
      if session.audioContexts.Some? {
        var contexts := session.audioContexts.value;
        if !contexts.inputClosed {
          closeCalls := closeCalls + 1;
        }
        if !contexts.outputClosed {
          closeCalls := closeCalls + 1;
        }
      }
      session := session.(
        audioContexts := None,
        contextCloseCalls := session.contextCloseCalls + closeCalls,
        tracksStopped := session.tracksStopped || session.hasStream,
        videoAttached := false,
        processorConnected := false);
    }

    /** `onclose`. */
    method OnClose()
      modifies this
      ensures tools == old(tools).(status := "Session ended.")
      ensures session == old(session).(
                active := false, permission := Pending,
                audioContexts := None,
                contextCloseCalls := old(session).contextCloseCalls + ClosesNeeded(old(session).audioContexts),
                tracksStopped := old(session).tracksStopped || old(session).hasStream,
                videoAttached := false,
                processorConnected := false)
      ensures transcript == old(transcript) && playback == old(playback)
    {
      tools := tools.(status := "Session ended.");
      session := session.(active := false, permission := Pending);
      Teardown();
    }

    /** `onerror`: unlike `onclose` it leaves the permission as it was. */
    method OnError(message: string)
      modifies this
      ensures tools == old(tools).(status := ErrorStatus(message))
      ensures session == old(session).(
                active := false,
                audioContexts := None,
                contextCloseCalls := old(session).contextCloseCalls + ClosesNeeded(old(session).audioContexts),
                tracksStopped := old(session).tracksStopped || old(session).hasStream,
                videoAttached := false,
                processorConnected := false)
      ensures transcript == old(transcript) && playback == old(playback)
    {
      tools := tools.(status := ErrorStatus(message));
      session := session.(active := false);
      Teardown();
    }

    /** The End Consultation button: the session is asked to close and the page is left. */
    method EndConsultation()
      modifies this
      ensures tools == old(tools).(closeRequests := old(tools).closeRequests + 1)
      ensures session == old(session).(endRequests := old(session).endRequests + 1)
      ensures transcript == old(transcript) && playback == old(playback)
    {
      tools := tools.(closeRequests := tools.closeRequests + 1);
      session := session.(endRequests := session.endRequests + 1);
    }

    /** The cleanup of the effect on `isSessionActive`, run when that flag changes and on
        unmount: when the render being cleaned up had an active session, `stopSession()`
        asks the session to close. `wasActive` is that render's `isSessionActive`. */
    method EffectCleanup(wasActive: bool)
      modifies this
      ensures wasActive ==> tools == old(tools).(closeRequests := old(tools).closeRequests + 1)
      ensures !wasActive ==> tools == old(tools)
      ensures session == old(session) && transcript == old(transcript) && playback == old(playback)
    {
      if wasActive {
        tools := tools.(closeRequests := tools.closeRequests + 1);
      }
    }
  }

  /** Every message keeps the playback invariant, so tracked sources never overlap. */
  lemma OnMessageKeepsPlaybackValid(p: Playback, msg: ServerMessage, now: nat, decoded: Option<nat>)
    requires PlaybackValid(p)
    ensures PlaybackValid(PlaybackStep(p, HasAudioData(msg), now, decoded, msg.interrupted))
  {
    PlaybackStepPreservesValid(p, HasAudioData(msg), now, decoded, msg.interrupted);
  }
}
