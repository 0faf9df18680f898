/** The recording component: one session runs the browser's continuous speech
    recognition (live captions) and a chunked audio recorder side by side, keeps the
    final recognition segments and the non-empty audio chunks in order, restarts
    recognition by policy while recording, and at stop builds one upload.
    The recognition object, the microphone, the recorder, the clock and the server's
    reply are not modelled: their events and outcomes are parameters. */
module Recorder {
  import opened Wrappers
  import opened Text
  import Js
  import Http

  /** One entry of a recognition event's result list: the text of its first
      alternative and whether the recognizer has finalised it. */
  datatype SpeechResult = SpeechResult(transcript: string, isFinal: bool)

  /** A finalised segment as kept by the session, with the time it was received. */
  datatype Part = Part(text: string, timestamp: string)

  /** One flush of the audio recorder. */
  type Chunk = seq<bv8>

  /** Whether microphone acquisition and the recorder's start succeeded; on failure,
      the message of the error (empty when it has none). */
  datatype MicOutcome = Granted | Denied(message: string)

  /** The transcript part of the upload: `{fullText, segments, timestamp}`. */
  datatype Payload = Payload(fullText: string, segments: seq<Part>, timestamp: string)

  /** The multipart upload: the audio blob and the transcript payload. */
  datatype Upload = Upload(audio: seq<bv8>, transcript: Payload)

  /** What is handed to the parent component after a successful upload. */
  datatype Emitted = Emitted(payload: Payload, audio: seq<bv8>, serverResponse: Js.Value)

  /** What stopping produces: the upload that was sent, and what reached the parent. */
  datatype StopResult = StopResult(upload: Upload, emitted: Option<Emitted>)

  /** The message of the InvalidStateError that `start()` on an already running
      recognition throws (Chromium's wording). */
  const AlreadyStarted := "Failed to execute 'start' on 'SpeechRecognition': recognition has already started."
  const StartFallback := "Error starting recording"

  /** The entries from `from` on: the range a result handler looks at. */
  function Window(results: seq<SpeechResult>, from: nat): seq<SpeechResult>
  {
    if from <= |results| then results[from..] else []
  }

  /** The segments a result handler appends for the results `rs`: the final ones,
      in order, with their text unaltered. */
  function FinalParts(rs: seq<SpeechResult>, now: string): seq<Part>
    decreases |rs|
  {
    if rs == [] then []
    else
      var last := rs[|rs| - 1];
      FinalParts(rs[..|rs| - 1], now) + (if last.isFinal then [Part(last.transcript, now)] else [])
  }

  /** The final part of the live caption: every final text followed by one space. */
  function FinalCaption(rs: seq<SpeechResult>): string
    decreases |rs|
  {
    if rs == [] then ""
    else
      var last := rs[|rs| - 1];
      FinalCaption(rs[..|rs| - 1]) + (if last.isFinal then last.transcript + " " else "")
  }

  /** The interim part of the live caption: the interim texts run together. */
  function InterimCaption(rs: seq<SpeechResult>): string
    decreases |rs|
  {
    if rs == [] then ""
    else
      var last := rs[|rs| - 1];
      InterimCaption(rs[..|rs| - 1]) + (if last.isFinal then "" else last.transcript)
  }

  /** The live caption shown after a result event. */
  function Caption(rs: seq<SpeechResult>): string
  {
    FinalCaption(rs) + InterimCaption(rs)
  }

  /** How many of `rs` are final. */
  function CountFinal(rs: seq<SpeechResult>): nat
    decreases |rs|
  {
    if rs == [] then 0 else CountFinal(rs[..|rs| - 1]) + (if rs[|rs| - 1].isFinal then 1 else 0)
  }

  function Texts(parts: seq<Part>): (ts: seq<string>)
    ensures |ts| == |parts|
    ensures forall i :: 0 <= i < |parts| ==> ts[i] == parts[i].text
  {
    seq(|parts|, i requires 0 <= i < |parts| => parts[i].text)
  }

  /** The segments joined by single spaces: the `fullText` built at stop. */
  function FullText(parts: seq<Part>): string
  {
    Join(Texts(parts), " ")
  }

  /** The chunks run together: the audio blob built at stop. */
  function Concat(chunks: seq<Chunk>): seq<bv8>
    decreases |chunks|
  {
    if chunks == [] then [] else Concat(chunks[..|chunks| - 1]) + chunks[|chunks| - 1]
  }

  /** `err.message || 'Error starting recording'`. */
  function StartMessage(message: string): (m: string)
    ensures m != ""
    ensures message != "" ==> m == message
    ensures message == "" ==> m == StartFallback
  {
    if message == "" then StartFallback else message
  }

  /** A reply the upload treats as success: ok status and a JSON body. */
  predicate Accepted(outcome: Http.Fetch) {
    outcome.Response? && Http.IsOk(outcome.status) && outcome.body.Json?
  }

  /** One more result extends the segments and both captions by its own part. */
  lemma ExtendWindow(rs: seq<SpeechResult>, r: SpeechResult, now: string)
    ensures FinalParts(rs + [r], now) == FinalParts(rs, now) + (if r.isFinal then [Part(r.transcript, now)] else [])
    ensures FinalCaption(rs + [r]) == FinalCaption(rs) + (if r.isFinal then r.transcript + " " else "")
    ensures InterimCaption(rs + [r]) == InterimCaption(rs) + (if r.isFinal then "" else r.transcript)
  {
    assert (rs + [r])[..|rs|] == rs;
  }

  /** As many segments as there are final results. */
  lemma {:induction false} FinalPartsLength(rs: seq<SpeechResult>, now: string)
    ensures |FinalParts(rs, now)| == CountFinal(rs)
    decreases |rs|
  {
    if rs != [] {
      FinalPartsLength(rs[..|rs| - 1], now);
    }
  }

  /** Every final result's text is kept, at the position given by the number of final
      results before it: so in order, and unaltered. */
  lemma {:induction false} FinalPartsComplete(rs: seq<SpeechResult>, now: string, j: nat)
    requires j < |rs| && rs[j].isFinal
    ensures CountFinal(rs[..j]) < |FinalParts(rs, now)|
    ensures FinalParts(rs, now)[CountFinal(rs[..j])] == Part(rs[j].transcript, now)
    decreases |rs|
  {
    var init := rs[..|rs| - 1];
    FinalPartsLength(init, now);
    if j < |rs| - 1 {
      assert init[..j] == rs[..j];
      FinalPartsComplete(init, now, j);
    } else {
      assert init == rs[..j];
    }
  }

  /** Every kept segment is the text of a final result, the one with as many final
      results before it as the segment's position: interim results never enter. */
  lemma {:induction false} FinalPartsSound(rs: seq<SpeechResult>, now: string, k: nat)
    requires k < |FinalParts(rs, now)|
    ensures exists j :: 0 <= j < |rs| && rs[j].isFinal && CountFinal(rs[..j]) == k &&
                        FinalParts(rs, now)[k] == Part(rs[j].transcript, now)
    decreases |rs|
  {
    var init := rs[..|rs| - 1];
    FinalPartsLength(init, now);
    if k < |FinalParts(init, now)| {
      FinalPartsSound(init, now, k);
      var j :| 0 <= j < |init| && init[j].isFinal && CountFinal(init[..j]) == k &&
               FinalParts(init, now)[k] == Part(init[j].transcript, now);
      assert init[..j] == rs[..j];
    } else {
      assert init == rs[..|rs| - 1];
      assert rs[|rs| - 1].isFinal;
    }
  }

  /** One more segment adds one space and its text to the full text. */
  lemma FullTextSnoc(ps: seq<Part>, p: Part)
    ensures FullText(ps + [p]) == if ps == [] then p.text else FullText(ps) + " " + p.text
  {
    assert Texts(ps + [p]) == Texts(ps) + [p.text];
    JoinSnoc(Texts(ps), p.text, " ");
  }

  /** The final part of the live caption is the text the same segments give at stop,
      plus one trailing space. */
  lemma {:induction false} FinalCaptionIsFullText(rs: seq<SpeechResult>, now: string)
    ensures FinalCaption(rs) == if CountFinal(rs) == 0 then "" else FullText(FinalParts(rs, now)) + " "
    decreases |rs|
  {
    if rs != [] {
      var init := rs[..|rs| - 1];
      var last := rs[|rs| - 1];
      FinalCaptionIsFullText(init, now);
      FinalPartsLength(init, now);
      var ps := FinalParts(init, now);
      if last.isFinal {
        var p := Part(last.transcript, now);
        assert FinalParts(rs, now) == ps + [p];
        FullTextSnoc(ps, p);
        assert FinalCaption(rs) == FinalCaption(init) + (last.transcript + " ");
        assert CountFinal(init) == 0 <==> ps == [];
      } else {
        assert FinalParts(rs, now) == ps;
        assert FinalCaption(rs) == FinalCaption(init);
      }
    }
  }

  /** The upload's text locates every segment: segment `k` starts at the total length
      of the segments before it plus one space each. */
  lemma FullTextSegmentAt(parts: seq<Part>, k: nat)
    requires k < |parts|
    ensures Offset(Texts(parts), " ", k) + |parts[k].text| <= |FullText(parts)|
    ensures FullText(parts)[Offset(Texts(parts), " ", k)..Offset(Texts(parts), " ", k) + |parts[k].text|] == parts[k].text
    ensures k + 1 < |parts| ==>
              Offset(Texts(parts), " ", k) + |parts[k].text| < |FullText(parts)| &&
              FullText(parts)[Offset(Texts(parts), " ", k) + |parts[k].text|] == ' '
  {
    JoinPartAt(Texts(parts), " ", k);
    if k + 1 < |parts| {
      JoinSepAfter(Texts(parts), " ", k);
      var o := Offset(Texts(parts), " ", k) + |parts[k].text|;
      assert FullText(parts)[o..o + 1] == " ";
    }
  }

  /** The result handler's loop over `results[resultIndex..]`: the parts it pushes, in
      order, and the final and interim captions it accumulates. */
  method ScanResults(results: seq<SpeechResult>, resultIndex: nat, now: string)
    returns (pushed: seq<Part>, finalTranscript: string, interimTranscript: string)
    ensures pushed == FinalParts(Window(results, resultIndex), now)
    ensures finalTranscript == FinalCaption(Window(results, resultIndex))
    ensures interimTranscript == InterimCaption(Window(results, resultIndex))
  {
    pushed, finalTranscript, interimTranscript := [], "", "";
    var i := resultIndex;
    ghost var done: seq<SpeechResult> := [];
    while i < |results|
      invariant resultIndex <= |results| ==> resultIndex <= i <= |results| && done == results[resultIndex..i]
      invariant resultIndex > |results| ==> i == resultIndex && done == []
      invariant pushed == FinalParts(done, now)
      invariant finalTranscript == FinalCaption(done)
      invariant interimTranscript == InterimCaption(done)
    {
      ExtendWindow(done, results[i], now);
      var result := results[i];
      if result.isFinal {
        finalTranscript := finalTranscript + (result.transcript + " ");
        pushed := pushed + [Part(result.transcript, now)];
      } else {
        interimTranscript := interimTranscript + result.transcript;
      }
      assert results[resultIndex..i + 1] == results[resultIndex..i] + [result];
      done := done + [result];
      i := i + 1;
    }
    assert Window(results, resultIndex) == done;
  }

  /** The array `transcriptPartsRef.current` points to. startRecording replaces it by
      a new one, so an object that captured the old array keeps seeing it. */
  class PartBuffer {
    var items: seq<Part>

    constructor ()
      ensures items == []
    {
      items := [];
    }
  }

  /** The recording component's state. */
  class Recorder {
    /** Whether the browser provides speech recognition. */
    const supported: bool
    var isRecording: bool
    var error: Option<string>
    /** The live caption. */
    var currentTranscript: string
    /** `transcriptPartsRef.current`. */
    var parts: PartBuffer
    var audioChunks: seq<Chunk>
    /** Whether the recognition is running. */
    var recognizing: bool
    /** Restart timers scheduled after a network error and not yet fired. */
    var pendingRestarts: nat
    /** Whether a media recorder has been created (its data events may arrive). */
    var hasRecorder: bool
    /** Whether the media recorder is in its recording state. */
    var recorderActive: bool

    ghost predicate Valid()
      reads this
    {
      && (!supported ==> !recognizing && pendingRestarts == 0)
      && (recorderActive <==> isRecording)
      && (recorderActive ==> hasRecorder)
    }

    constructor (supported: bool)
      ensures Valid() && this.supported == supported
      ensures !isRecording && error == None && currentTranscript == ""
      ensures fresh(parts) && parts.items == [] && audioChunks == []
      ensures !recognizing && pendingRestarts == 0 && !hasRecorder
    {
      this.supported := supported;
      isRecording := false;
      error := None;
      currentTranscript := "";
      parts := new PartBuffer();
      audioChunks := [];
      recognizing := false;
      pendingRestarts := 0;
      hasRecorder := false;
      recorderActive := false;
    }

    /** startRecording. Both buffers are emptied first, whatever happens next; the
        session is recording only when recognition could be started (or is absent)
        and the microphone and recorder started. */
    method Start(mic: MicOutcome)
      requires Valid() && !isRecording
      modifies this
      ensures Valid()
      ensures fresh(parts) && parts.items == [] && audioChunks == []
      ensures recognizing == supported
      ensures isRecording == (!(supported && old(recognizing)) && mic.Granted?)
      ensures error == if supported && old(recognizing) then Some(AlreadyStarted)
                       else if mic.Denied? then Some(StartMessage(mic.message))
                       else None
      ensures hasRecorder == (old(hasRecorder) || isRecording)
      ensures currentTranscript == old(currentTranscript) && pendingRestarts == old(pendingRestarts)
    {
      error := None;
      parts := new PartBuffer();
      audioChunks := [];
      if supported {
        if recognizing {
          error := Some(AlreadyStarted);
          return;
        }
        recognizing := true;
      }
      match mic
      case Denied(message) =>
        error := Some(StartMessage(message));
      case Granted =>
        hasRecorder := true;
        recorderActive := true;
        isRecording := true;
    }

    /** The recognition's result handler: appends the final results of the window and
        shows the window's caption. */
    method OnResult(resultIndex: nat, results: seq<SpeechResult>, now: string)
      requires Valid() && supported
      modifies this`currentTranscript, parts
      ensures Valid()
      ensures parts.items == old(parts.items) + FinalParts(Window(results, resultIndex), now)
      ensures currentTranscript == Caption(Window(results, resultIndex))
    {
      var pushed, finalTranscript, interimTranscript := ScanResults(results, resultIndex, now);
      parts.items := parts.items + pushed;
      currentTranscript := finalTranscript + interimTranscript;
    }

    /** The recorder's data handler: a chunk is kept exactly when it is not empty. */
    method OnData(chunk: Chunk)
      requires Valid() && hasRecorder
      modifies this`audioChunks
      ensures Valid()
      ensures audioChunks == old(audioChunks) + (if |chunk| > 0 then [chunk] else [])
    {
      if |chunk| > 0 {
        audioChunks := audioChunks + [chunk];
      }
    }

    /** The recognition's end handler: it is started again exactly while recording. */
    method OnEnd()
      requires Valid() && supported
      modifies this`recognizing
      ensures Valid()
      ensures recognizing == isRecording
    {
      recognizing := false;
      if isRecording {
        recognizing := true;
      }
    }

    /** The recognition's error handler: only a 'network' error, and only while
        recording, stops the recognition and schedules a delayed restart. */
    method OnError(kind: string)
      requires Valid() && supported
      modifies this`recognizing, this`pendingRestarts
      ensures Valid()
      ensures kind == "network" && isRecording ==> !recognizing && pendingRestarts == old(pendingRestarts) + 1
      ensures !(kind == "network" && isRecording) ==>
                recognizing == old(recognizing) && pendingRestarts == old(pendingRestarts)
    {
      if kind == "network" {
        RestartRecognition();
      }
    }

    /** restartRecognition: stop now, start again when the timer fires. */
    method RestartRecognition()
      requires Valid()
      modifies this`recognizing, this`pendingRestarts
      ensures Valid()
      ensures supported && isRecording ==> !recognizing && pendingRestarts == old(pendingRestarts) + 1
      ensures !(supported && isRecording) ==>
                recognizing == old(recognizing) && pendingRestarts == old(pendingRestarts)
    {
      if supported && isRecording {
        recognizing := false;
        pendingRestarts := pendingRestarts + 1;
      }
    }

    /** A scheduled restart fires: recognition is started only if still recording
        (starting a running recognition throws, and the error is swallowed). */
    method FireRestart()
      requires Valid() && pendingRestarts > 0
      modifies this`recognizing, this`pendingRestarts
      ensures Valid()
      ensures pendingRestarts == old(pendingRestarts) - 1
      ensures recognizing == (old(recognizing) || isRecording)
    {
      pendingRestarts := pendingRestarts - 1;
      if isRecording {
        recognizing := true;
      }
    }

    /** stopRecording up to its await on sendAudioToServer: both subsystems stop and
        the upload is built from the segments joined by single spaces, the segments
        themselves, the stop time and all chunks. `staged` is the parts array the
        handler's `transcriptData.segments` keeps pointing to. */
    method BeginStop(now: string) returns (upload: Upload, staged: PartBuffer)
      requires Valid()
      modifies this`isRecording, this`recognizing, this`recorderActive
      ensures Valid()
      ensures !isRecording && !recognizing && !recorderActive
      ensures staged == parts
      ensures upload == Upload(Concat(audioChunks), Payload(FullText(parts.items), parts.items, now))
    {
      isRecording := false;
      if supported {
        recognizing := false;
      }
      if hasRecorder && recorderActive {
        recorderActive := false;
      }
      staged := parts;
      upload := Upload(Concat(audioChunks), Payload(FullText(parts.items), parts.items, now));
    }

    /** The rest of stopRecording once the upload has settled. Only an accepted reply
        reaches the parent, with the text and timestamp of the upload but the segments
        `staged` holds now, and clears the caption, whatever happened meanwhile; a
        failed upload throws out of the handler. */
    method FinishStop(upload: Upload, staged: PartBuffer, outcome: Http.Fetch) returns (emitted: Option<Emitted>)
      modifies this`currentTranscript
      ensures emitted.Some? <==> Accepted(outcome)
      ensures Accepted(outcome) ==>
                emitted == Some(Emitted(Payload(upload.transcript.fullText, staged.items, upload.transcript.timestamp),
                                        upload.audio, outcome.body.data))
      ensures currentTranscript == if Accepted(outcome) then "" else old(currentTranscript)
    {
      if Accepted(outcome) {
        emitted := Some(Emitted(Payload(upload.transcript.fullText, staged.items, upload.transcript.timestamp),
                                upload.audio, outcome.body.data));
        currentTranscript := "";
      } else {
        emitted := None;
      }
    }

    /** A whole stop with no other event while the upload is in flight: the parent
        receives exactly what was uploaded. */
    method Stop(outcome: Http.Fetch, now: string) returns (r: StopResult)
      requires Valid()
      modifies this
      ensures Valid()
      ensures !isRecording && !recognizing && !recorderActive
      ensures r.upload == Upload(Concat(audioChunks), Payload(FullText(parts.items), parts.items, now))
      ensures r.emitted.Some? <==> Accepted(outcome)
      ensures Accepted(outcome) ==>
                r.emitted == Some(Emitted(r.upload.transcript, r.upload.audio, outcome.body.data))
      ensures currentTranscript == if Accepted(outcome) then "" else old(currentTranscript)
      ensures parts == old(parts) && parts.items == old(parts.items) && audioChunks == old(audioChunks)
      ensures error == old(error) && pendingRestarts == old(pendingRestarts) && hasRecorder == old(hasRecorder)
    {
      var upload, staged := BeginStop(now);
      var emitted := FinishStop(upload, staged, outcome);
      r := StopResult(upload, emitted);
    }
  }

  /** An event delivered to a recording session by the browser. */
  datatype Event =
    | Result(resultIndex: nat, results: seq<SpeechResult>, now: string)
    | Data(chunk: Chunk)
    | End
    | RecognitionError(kind: string)
    | RestartTimer

  /** The segments a sequence of events leaves in the session. */
  function SessionParts(events: seq<Event>): seq<Part>
    decreases |events|
  {
    if events == [] then []
    else
      var e := events[|events| - 1];
      SessionParts(events[..|events| - 1]) +
        (if e.Result? then FinalParts(Window(e.results, e.resultIndex), e.now) else [])
  }

  /** The chunks a sequence of events leaves in the session. */
  function SessionChunks(events: seq<Event>): seq<Chunk>
    decreases |events|
  {
    if events == [] then []
    else
      var e := events[|events| - 1];
      SessionChunks(events[..|events| - 1]) + (if e.Data? && |e.chunk| > 0 then [e.chunk] else [])
  }

  /** A recording session in a browser with speech recognition: start with the
      microphone granted and deliver the events in order. */
  method Record(events: seq<Event>) returns (recorder: Recorder)
    ensures fresh(recorder) && fresh(recorder.parts)
    ensures recorder.Valid() && recorder.supported && recorder.isRecording && recorder.hasRecorder
    ensures recorder.parts.items == SessionParts(events)
    ensures recorder.audioChunks == SessionChunks(events)
  {
    recorder := new Recorder(true);
    recorder.Start(Granted);
    var i := 0;
    while i < |events|
      invariant 0 <= i <= |events|
      invariant recorder.Valid() && recorder.supported && recorder.isRecording && recorder.hasRecorder
      invariant fresh(recorder.parts)
      invariant recorder.parts.items == SessionParts(events[..i])
      invariant recorder.audioChunks == SessionChunks(events[..i])
    {
      assert events[..i + 1][..i] == events[..i];
      match events[i] {
        case Result(resultIndex, results, now) => recorder.OnResult(resultIndex, results, now);
        case Data(chunk) => recorder.OnData(chunk);
        case End => recorder.OnEnd();
        case RecognitionError(kind) => recorder.OnError(kind);
        case RestartTimer =>
          if recorder.pendingRestarts > 0 {
            recorder.FireRestart();
          }
      }
      i := i + 1;
    }
    assert events[..|events|] == events;
  }

  /** A whole session, then stop. The upload carries exactly the final segments of all
      result events, in emission order and joined by single spaces, and the non-empty
      chunks in order. */
  method RunSession(events: seq<Event>, outcome: Http.Fetch, stoppedAt: string) returns (r: StopResult)
    ensures r.upload.transcript.segments == SessionParts(events)
    ensures r.upload.transcript.fullText == FullText(SessionParts(events))
    ensures r.upload.audio == Concat(SessionChunks(events))
    ensures r.emitted.Some? <==> Accepted(outcome)
  {
    var recorder := Record(events);
    r := recorder.Stop(outcome, stoppedAt);
  }

  /** Final results that arrive while the upload is in flight (stopping the recognition
      flushes pending speech) are not uploaded and not in the text the parent receives,
      but they are in the segments it receives, which share the handler's array. */
  method LateResultsDuringUpload(events: seq<Event>, late: seq<SpeechResult>, at: string,
                                 outcome: Http.Fetch, stoppedAt: string)
    returns (uploaded: Upload, emitted: Option<Emitted>)
    ensures uploaded.transcript.segments == SessionParts(events)
    ensures uploaded.transcript.fullText == FullText(SessionParts(events))
    ensures emitted.Some? <==> Accepted(outcome)
    ensures Accepted(outcome) ==>
              && emitted.value.payload.segments == SessionParts(events) + FinalParts(late, at)
              && emitted.value.payload.fullText == FullText(SessionParts(events))
  {
    var recorder := Record(events);
    var staged;
    uploaded, staged := recorder.BeginStop(stoppedAt);
    recorder.OnResult(0, late, at);
    assert Window(late, 0) == late;
    emitted := recorder.FinishStop(uploaded, staged, outcome);
  }

  /** A new recording started while the previous upload is in flight: its results go
      to a new parts array, so the parent still receives the old segments, but an
      accepted reply clears the new recording's caption. */
  method RestartDuringUpload(events: seq<Event>, next: seq<SpeechResult>, at: string,
                             outcome: Http.Fetch, stoppedAt: string)
    returns (emitted: Option<Emitted>, caption: string, recording: bool)
    ensures recording
    ensures emitted.Some? <==> Accepted(outcome)
    ensures Accepted(outcome) ==> emitted.value.payload.segments == SessionParts(events)
    ensures caption == if Accepted(outcome) then "" else Caption(next)
  {
    var recorder := Record(events);
    var uploaded, staged := recorder.BeginStop(stoppedAt);
    recorder.Start(Granted);
    recorder.OnResult(0, next, at);
    assert Window(next, 0) == next;
    emitted := recorder.FinishStop(uploaded, staged, outcome);
    caption := recorder.currentTranscript;
    recording := recorder.isRecording;
  }
}
