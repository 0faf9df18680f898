# Voice recorder, relay and transcript store — a Dafny model

This project models the bookkeeping of a voice-transcription application: a browser
recording component that combines live speech recognition with a chunked audio
recorder into one upload, a Node relay that stages the upload, forwards it to a Python
service and always removes the staged file, the Python service's in-memory store of
transcripts and its question-answering endpoint, and a chat view that appends a question
and its answer to a message list. Speech recognition, audio capture, HTTP, the clock,
the file system, JSON parsing and the language model are outside the model: their
events and outcomes are parameters.

Modules, one per source file plus three shared ones:

- `Recorder` (`Recorder.dfy`) — `src/components/AudioRecorder.jsx`. A class `Recorder`
  with the component's state (the parts array `transcriptPartsRef.current` as an object
  of its own, `PartBuffer`, then `audioChunks`, `isRecording`, the live caption
  `currentTranscript`, `error`) and the recognition/recorder flags; one method per event
  handler, with stopping split at its await (`BeginStop`, `FinishStop`); and drivers
  that deliver a sequence of browser events to a fresh recorder (`Record`,
  `RunSession`, and two scenarios with events during the upload).
- `Relay` (`Relay.dfy`) — `server/server.js`. The two handlers as methods returning the
  reply and the list of effects issued (`PostAudio`, `PostQuery`, `Unlink`), the staging
  name scheme, the transcript parse fallback and the error-message selection.
- `TranscriptStore` (`TranscriptStore.dfy`) — `python_service/app.py`. A class `Store`
  holding the insertion-ordered `transcriptions` dictionary as keys-in-order plus a map,
  the two endpoints as methods, the combined transcript and the prompt as functions.
- `Chat` (`Chat.dfy`) — `src/components/ChatInterface.jsx`. A class `ChatLog` with
  `messages`, `input`, `loading`, `error` and the submit handler.
- `Js` (JavaScript values, property access that throws on null/undefined, truthiness,
  `String()`), `Http` (what `fetch` can come back with), `Text` (join, decimal digits),
  `Wrappers` (Option, Result).

Behaviour of the code worth knowing, all of it modelled as written:

- A failed upload does not reach the parent component: `sendAudioToServer` rethrows,
  so `stopRecording` stops before `onTranscriptionReceived` and before the caption is
  cleared (`Recorder.Recorder.Stop`).
- Segments are joined as received, without trimming: two final segments `"hello "` and
  `"world "` give the text `"hello  world "`.
- The staged file is unlinked twice when the service answers with a `null` body: the
  first unlink runs, then reading `data.response` throws and the catch block unlinks
  again (`Relay.Transcribe`, `Relay.ThrowsAfterUnlink`). A request without a
  `transcript` field is never forwarded: the fallback `{fullText: undefined}` makes the
  `.length` access throw, and the reply is 500.
- Stopping builds the upload before it awaits the server, but the object handed to
  the parent afterwards shares the live parts array: a final result that arrives during
  the upload is in the parent's `segments` but not in its text or in the upload, unless
  a new recording has replaced the array meanwhile; an accepted reply clears the caption
  even of a recording started during the upload (`Recorder.LateResultsDuringUpload`,
  `Recorder.RestartDuringUpload`). The recorder's last data chunk, delivered after its
  stop, is not in the blob already built.
- In the Python service a `fullText` that `len()` rejects (null, a boolean, a number) is
  stored first and the reply is 500 afterwards (`Store.ProcessAudio`).

## Model

| member | source | states |
|---|---|---|
| `Recorder.Recorder.constructor` | src/components/AudioRecorder.jsx:6-12 | a new component is idle, with no error, an empty caption and both buffers empty |
| `Recorder.Recorder.Start` | src/components/AudioRecorder.jsx:110-146 | both buffers are emptied whatever follows; recording starts only if recognition could be started and the microphone and recorder started; starting an already running recognition or a microphone failure sets the error (the error's message, else "Error starting recording") and leaves the session not recording |
| `Recorder.StartMessage` | src/components/AudioRecorder.jsx:144 | the error shown is the failure's message when it is non-empty, and 'Error starting recording' when it is empty |
| `Recorder.Recorder.OnResult` | src/components/AudioRecorder.jsx:23-43 | the loop appends exactly the final results of `[resultIndex, results.length)`, in order, text unaltered, and sets the caption to the final texts each followed by a space and then the interim texts |
| `Recorder.ScanResults` | src/components/AudioRecorder.jsx:24-39 | the loop over `results[resultIndex..]` pushes exactly the final results' parts in order, and accumulates each final text followed by a space and the interim texts; an index past the end scans nothing |
| `Recorder.FinalPartsLength` | src/components/AudioRecorder.jsx:27-39 | a result event adds one segment per final result in its window |
| `Recorder.FinalPartsComplete` | src/components/AudioRecorder.jsx:27-39 | every final result's text is kept, at the position given by the number of final results before it (so order is preserved) |
| `Recorder.FinalPartsSound` | src/components/AudioRecorder.jsx:27-39 | every kept segment is the unaltered text of a final result; interim results never enter the segments |
| `Recorder.FinalCaptionIsFullText` | src/components/AudioRecorder.jsx:24-42 | the final part of the live caption equals the text the same segments give at stop plus one trailing space, and is empty when no result is final |
| `Recorder.Recorder.OnData` | src/components/AudioRecorder.jsx:133-137 | a chunk is appended if and only if its size is positive; earlier chunks are kept in order |
| `Recorder.Recorder.OnEnd` | src/components/AudioRecorder.jsx:45-50 | after an end event the recognition runs again exactly when the session is recording |
| `Recorder.Recorder.OnError` | src/components/AudioRecorder.jsx:52-57 | only a 'network' error while recording stops recognition and schedules one restart; any other error changes nothing |
| `Recorder.Recorder.RestartRecognition` | src/components/AudioRecorder.jsx:61-67 | with recognition available and the session recording, recognition is stopped and one delayed restart scheduled; otherwise nothing happens |
| `Recorder.Recorder.FireRestart` | src/components/AudioRecorder.jsx:68-76 | a scheduled restart fires and starts recognition only if the session is still recording |
| `Recorder.Recorder.BeginStop` | src/components/AudioRecorder.jsx:148-177 | recording, recognition and recorder stop; the upload carries the segments joined by single spaces, the segments themselves, the stop time and all chunks concatenated; the parts array is captured by reference |
| `Recorder.Recorder.FinishStop` | src/components/AudioRecorder.jsx:80-190 | only an ok reply with a JSON body reaches the parent, with the uploaded text, time and audio, the segments the captured array holds at that moment, and the server's body, and it clears the caption; any other reply emits nothing and leaves the caption |
| `Recorder.Recorder.Stop` | src/components/AudioRecorder.jsx:148-190 | with nothing happening during the upload, the parent receives exactly what was uploaded, and only on an accepted reply; the buffers are kept |
| `Recorder.Record` | src/components/AudioRecorder.jsx:23-146 | after starting with the microphone granted and any events, the session is recording, its segments are the final results of all result events in order, and its chunks the non-empty chunks in order |
| `Recorder.FullTextSnoc` | src/components/AudioRecorder.jsx:163-165 | one more segment adds exactly one space and its text to the full text |
| `Recorder.FullTextSegmentAt` | src/components/AudioRecorder.jsx:163-165 | each segment appears verbatim in the full text at the sum of the earlier segments' lengths plus one space each, and a single space follows every segment but the last |
| `Recorder.RunSession` | src/components/AudioRecorder.jsx:23-190 | over any sequence of events in a recording session, the uploaded segments are exactly the final results of all result events in emission order, the full text is their space-join, the audio is the non-empty chunks in order, and the parent is told exactly on success |
| `Recorder.LateResultsDuringUpload` | src/components/AudioRecorder.jsx:163-187 | final results delivered while the upload is in flight are neither uploaded nor in the parent's text, but are appended to the parent's segments |
| `Recorder.RestartDuringUpload` | src/components/AudioRecorder.jsx:110-189 | a recording started during the upload keeps recording, its results do not reach the parent's segments, and an accepted reply clears its caption |
| `Text.Join` | src/components/AudioRecorder.jsx:163-165 | joining no parts gives the empty string and joining one part gives that part; `JoinSnoc`, `JoinPartAt` and `JoinSepAfter` pin down the rest |
| `Text.JoinEnds` | python_service/app.py:108-111 | a join of at least one part starts with the first part and ends with the last |
| `Text.JoinSnoc` | src/components/AudioRecorder.jsx:163-165 | joining one more part appends exactly one separator and that part |
| `Text.JoinPartAt` | python_service/app.py:108-111 | in a joined string every part appears verbatim at its offset |
| `Text.JoinSepAfter` | python_service/app.py:108-111 | in a joined string exactly the separator follows every part but the last |
| `Text.NatToString` | server/server.js:25 | the decimal form of a number is a non-empty run of digits |
| `Text.ParseNatToString` | server/server.js:25 | reading the decimal form back gives the number |
| `Text.NatToStringInjective` | server/server.js:25 | distinct numbers have distinct decimal forms |
| `Js.Member` | server/server.js:66 | reading a property throws exactly on null and undefined; a missing property reads as undefined |
| `Js.OptionalMember` | server/server.js:108 | optional chaining never throws and gives undefined on null and undefined |
| `Js.ToStr` | src/components/ChatInterface.jsx:59 | `String(v)`: a string is itself, undefined and null give their names, an object gives '[object Object]', an empty array '' and a one-element array its element's string |
| `Js.Or` | server/server.js:108 | `a \|\| b` is `a` when truthy and `b` otherwise, so truthy whenever `b` is |
| `Relay.RandomSuffix` | server/server.js:25 | the random suffix is an integer between 0 and 10^9 inclusive |
| `Relay.Stage` | server/server.js:23-27 | the `filename` callback stages a file under the field name, the clock and a rounded draw of Math.random, so its suffix is at most 10^9 |
| `Relay.StageOnto` | server/server.js:25 | every staged file whose suffix is at most 10^9 is what the callback names for some draw in [0, 1), so the handler's precondition excludes no file multer can stage |
| `Relay.StagedName` | server/server.js:26 | the staged name starts with the field name and a dash and ends with '.webm' |
| `Relay.StagedPath` | server/server.js:17-27 | the staged path is the staged name inside the 'uploads' directory |
| `Relay.StagedNameInjective` | server/server.js:23-27 | the staged name `fieldname-millis-suffix.webm` determines field name, clock and suffix, so two uploads share a file only if all three coincide |
| `Relay.StagedPathInjective` | server/server.js:15-28 | two staged files share a path only if field name, clock and suffix all coincide |
| `Relay.LengthThrows` | server/server.js:66 | `transcriptData.fullText.length` throws exactly when the parsed transcript or its `fullText` is null or undefined |
| `Relay.ParseTranscript` | server/server.js:57-62 | a transcript field that JSON.parse rejects becomes an object whose `fullText` is the raw string; a missing field becomes one whose `fullText` is undefined; a parsable one is used as parsed |
| `Relay.ErrorText` | server/server.js:107-109 | the error reply carries the upstream `data.response` when truthy; the fallback when the error has no response, its data is null or undefined, or its `response` is falsy; never falsy |
| `Relay.TranscribeLogShape` | server/server.js:75-105 | a log of the forward (if any), an unlink and the second unlink (if any) of the staged file ends with an unlink, unlinks it once or twice, and holds a forward exactly when the forward was made, as its first effect |
| `Relay.ForwardAudio` | server/server.js:75-110 | from the forward on, the log is exactly the post of the staged file, its unlink and, for a null body, the unlink of the catch block; a resolved post with a body replies with the upstream status and `{response, id}`; a rejected one 500 with the upstream message or 'Failed to process audio'; a null body 500 'Failed to process audio' |
| `Relay.Transcribe` | server/server.js:48-111 | no file: 400 `{error: 'No audio file provided'}` and no effects; with a file the log is exactly the forward of the staged path with the parsed or fallback transcript (made exactly when `fullText.length` does not throw), then its unlink, then a second unlink when the service's body is null; hence the last effect unlinks the staged file, once or twice; success replies with the upstream status and `{response, id}` from the upstream body; every other path replies 500 with the upstream message or 'Failed to process audio' |
| `Relay.Query` | server/server.js:115-133 | forwards `{query}` once; replies 200 `{response}` from the upstream body, or 500 with the upstream message or 'Failed to process query' |
| `TranscriptStore.FileId` | python_service/app.py:46 | the id is the clock text with its dots removed: no dot remains |
| `TranscriptStore.FileIdOfReading` | python_service/app.py:46 | the id of a reading `whole.frac` is its digits run together |
| `TranscriptStore.FileIdInjective` | python_service/app.py:46 | readings with the same number of whole-second digits get the same id exactly when they are the same reading |
| `TranscriptStore.ReadFields` | python_service/app.py:59-61 | a dictionary gives its `fullText` (default `''`) and `segments` (default `[]`); any other value raises "'<type>' object has no attribute 'get'" |
| `TranscriptStore.Store.constructor` | python_service/app.py:34 | the store starts empty |
| `TranscriptStore.Store.ProcessAudio` | python_service/app.py:39-81 | invalid JSON or a failed file write gives 500 with the error's text and leaves the store unchanged; otherwise the audio path is `stored_audio/<id>.webm` and the store changes at key `id` only (a new key goes last, an existing one keeps its place); the reply is 200 `{"response": "Audio processed successfully", "id": id}`, or 500 when `len()` rejects the stored text |
| `TranscriptStore.PyStr` | python_service/app.py:109 | the f-string conversion: a string is itself, None gives 'None', booleans 'True'/'False', lists and dictionaries their str() |
| `TranscriptStore.Combine` | python_service/app.py:108-111 | the combined transcript is empty exactly when the store is, and otherwise starts with the first entry's rendering |
| `TranscriptStore.CombineInsertNew` | python_service/app.py:108-111 | storing a new key extends the combined transcript by a blank line and the new entry, keeping all earlier text |
| `TranscriptStore.CombineReplace` | python_service/app.py:59-64 | overwriting an existing key changes only that entry's rendering, in place |
| `TranscriptStore.CombineEntryAt` | python_service/app.py:108-111 | every entry's `"(timestamp) transcript"` appears verbatim in the combined transcript, in insertion order at its offset |
| `TranscriptStore.Prompt` | python_service/app.py:83-98 | the prompt starts with the template's head, ends with its tail, and is as long as the template plus transcript and question |
| `TranscriptStore.PromptEmbeds` | python_service/app.py:83-98 | the prompt contains the combined transcript and the question verbatim, at fixed places of the template |
| `TranscriptStore.Store.ProcessQuery` | python_service/app.py:102-122 | an empty store gives 404 "No transcripts found" and no model call; otherwise exactly one prompt, built from the combined transcript and the query, is sent and the answer is returned with 200, or its error with 500 |
| `Chat.Trim` | src/components/ChatInterface.jsx:33 | `input.trim()` is the slice of the input between its leading and its trailing white space, neither starting nor ending with white space, and empty exactly when every character is white space (JavaScript's white space and line terminators) |
| `Chat.Settle` | src/components/ChatInterface.jsx:47-79 | a failed fetch or an unparsable body gives that error's message; an ok reply gives `data.response`; a non-ok reply gives `String(data.response \|\| 'Failed to process query')` |
| `Chat.NonOkMessage` | src/components/ChatInterface.jsx:58-60 | a non-ok reply with a falsy `response` gives 'Failed to process query'; one with a non-empty string gives that string |
| `Chat.ReplyMessage` | src/components/ChatInterface.jsx:63-79 | the reply message is from the AI, with the answer as text, or `Error: <message>` on failure |
| `Chat.ChatLog.constructor` | src/components/ChatInterface.jsx:26-29 | no messages, empty input, not loading, no error |
| `Chat.ChatLog.SetInput` | src/components/ChatInterface.jsx:118 | the input becomes the typed text |
| `Chat.ChatLog.BeginSubmit` | src/components/ChatInterface.jsx:31-54 | blank input changes nothing and sends nothing; otherwise while the request is in flight the user's message is appended, the input is cleared, loading is true and the error cleared, and `{query: input}` is posted |
| `Chat.ChatLog.FinishSubmit` | src/components/ChatInterface.jsx:56-82 | once the request settles, exactly one AI message is appended, a failure's message becomes the error, and loading ends |
| `Chat.ChatLog.HandleSubmit` | src/components/ChatInterface.jsx:31-83 | blank input changes nothing and sends nothing; otherwise the question is posted, earlier messages are kept, exactly the user's message and then one AI message are appended, the input is cleared, loading ends false and the error is the failure's message or cleared |

## Left out

- Timing: the 1000 ms restart delay and the 1000 ms recorder flush are not modelled; a pending restart is a counter and its firing an explicit event.
- React scheduling: state updates take effect at once, and the effect that re-creates the recognition handlers (with stale `isRecording` closures) on every toggle is replaced by handlers that read the current flag.
- Recorder.Recorder.Start: the await between starting recognition and acquiring the microphone is not a separate step, so events arriving in that window are not interleaved; the audio constraints passed to getUserMedia are not modelled.
- Recorder.Recorder.OnResult: the event's final segments, collected by the loop in `ScanResults`, are pushed onto the parts array together after the loop rather than one per iteration; nothing else runs during the synchronous handler, so no observer sees the difference.
- Recorder.Recorder.OnResult: only the first alternative of each result is modelled, and all segments of one result event get the same timestamp.
- Recorder.Recorder.Stop: the blob is the chunks' bytes concatenated (its MIME type is not modelled) and the object URL is represented by the blob itself. Stop is one step without events during the upload; BeginStop and FinishStop are the two halves around the await for sessions with such events.
- Chat.ChatLog.HandleSubmit: one step without events while the request is in flight; BeginSubmit and FinishSubmit are the two halves around the awaits, so that in-flight state is stated there.
- The browser platform (SpeechRecognition, MediaRecorder, getUserMedia, fetch, Blob, URL) and console logging.
- Express, multer, CORS and body-size limits, `listen`, and the 300 s axios timeout (which appears only as a rejected forward); the multipart encoding and JSON.stringify of forwarded bodies (an effect carries the value sent); errors of fs.unlink, which are only logged.
- JavaScript numbers are integers; floating point is not modelled, and neither is JSON floats on the Python side.
- Js.Member: a string's `length` counts code points, not UTF-16 code units; only whether the access throws matters where it is used.
- TranscriptStore.PyStr: str() of a stored list or dictionary transcript is an uninterpreted function passed in, because Python's repr formatting is not modelled.
- FastAPI, the file write (one outcome for makedirs, open and write), `datetime` (the clock readings are parameters, already converted to text) and ChatGroq (an uninterpreted function from prompt to answer or error message).
- src/components/TranscriptionDisplay.jsx, src/App.jsx, src/components/QueryResponse.jsx and src/config.js are not part of this model (presentation, page composition, an unused component and constants), nor are the endpoint URL strings.
