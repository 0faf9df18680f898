/** The relay server: `/api/transcribe` stages the uploaded audio, forwards it with the
    transcript to the transcription service, replies with the service's answer and
    removes the staged file on every path; `/api/query` forwards a question.
    Express, multer and axios are not modelled: the staged file, the JSON parser and
    the forward's outcome are parameters, and the handler returns its reply together
    with the effects it issued (forwards and unlinks), in order. */
module Relay {
  import opened Wrappers
  import opened Text
  import opened Js

  /** The file multer staged for the request: its form field name, the clock in
      milliseconds when it was staged and its random suffix. */
  datatype StagedFile = StagedFile(fieldname: string, millis: nat, suffix: nat)
  {
    /** Where multer wrote it. */
    function Path(): string {
      StagedPath(fieldname, millis, suffix)
    }

    /** Whether the suffix is one `Math.round(random * 1E9)` can give. */
    predicate Staged() {
      suffix <= 1_000_000_000
    }
  }

  /** A transcribe request: the staged file (if one was uploaded) and the raw
      `transcript` form field (if present). */
  datatype TranscribeRequest = TranscribeRequest(file: Option<StagedFile>, transcript: Option<string>)

  /** How an axios post settles: resolved with the service's status and parsed body,
      or rejected, with `error.response?.data` (None when the error has no response). */
  datatype Forward = Resolved(status: int, data: Value) | Rejected(responseData: Option<Value>)

  /** A side effect of a handler. */
  datatype Effect =
    | PostAudio(path: string, transcript: Value)   // multipart post to /process-audio
    | PostQuery(body: Value)                       // JSON post to /query
    | Unlink(path: string)                         // fs.unlink of the staged file

  datatype Reply = Reply(status: int, body: Value)

  const UploadDir := "uploads"
  const NoAudioFile := "No audio file provided"
  const AudioFailure := "Failed to process audio"
  const QueryFailure := "Failed to process query"

  /** `Math.round(random * 1E9)` for `random` from Math.random. */
  function RandomSuffix(random: real): (n: nat)
    requires 0.0 <= random < 1.0
    ensures n <= 1_000_000_000
  {
    (random * 1000000000.0 + 0.5).Floor
  }

  /** The file the `filename` callback names for a field, the clock and a draw of
      Math.random. */
  function Stage(fieldname: string, millis: nat, random: real): (f: StagedFile)
    requires 0.0 <= random < 1.0
    ensures f.Staged()
    ensures f.fieldname == fieldname && f.millis == millis && f.suffix == RandomSuffix(random)
  {
    StagedFile(fieldname, millis, RandomSuffix(random))
  }

  /** Every staged file is one the callback can name: some draw gives its suffix. */
  lemma StageOnto(f: StagedFile)
    requires f.Staged()
    ensures exists random :: 0.0 <= random < 1.0 && Stage(f.fieldname, f.millis, random) == f
  {
    var random := if f.suffix == 0 then 0.0 else (f.suffix as real - 0.25) / 1000000000.0;
    assert random * 1000000000.0 + 0.5 == f.suffix as real + (if f.suffix == 0 then 0.5 else 0.25);
    assert Stage(f.fieldname, f.millis, random) == f;
  }

  /** The name multer stages a file under: field name, the clock in milliseconds and
      the random suffix, separated by dashes, with the `.webm` extension. */
  function StagedName(fieldname: string, millis: nat, suffix: nat): (name: string)
    ensures |fieldname| + 1 <= |name| && name[..|fieldname| + 1] == fieldname + "-"
    ensures 5 <= |name| && name[|name| - 5..] == ".webm"
  {
    fieldname + "-" + NatToString(millis) + "-" + NatToString(suffix) + ".webm"
  }

  /** The staged file's path, inside the upload directory. */
  function StagedPath(fieldname: string, millis: nat, suffix: nat): (path: string)
    ensures |UploadDir| + 1 <= |path| && path[..|UploadDir| + 1] == UploadDir + "/"
    ensures path[|UploadDir| + 1..] == StagedName(fieldname, millis, suffix)
  {
    UploadDir + "/" + StagedName(fieldname, millis, suffix)
  }

  lemma DashAt(x: string, d: string)
    ensures (x + "-" + d)[|x|] == '-'
  {
  }

  /** Splitting at the last dash before a run of digits is unambiguous. */
  lemma DashDigits(x1: string, d1: string, x2: string, d2: string)
    requires AllDigits(d1) && AllDigits(d2)
    requires x1 + "-" + d1 == x2 + "-" + d2
    ensures x1 == x2 && d1 == d2
  {
    var s := x1 + "-" + d1;
    if |d1| < |d2| {
      DashAt(x1, d1);
      assert false;
    } else if |d2| < |d1| {
      DashAt(x2, d2);
      assert false;
    }
    assert d1 == s[|s| - |d1|..] && d2 == s[|s| - |d2|..];
    assert x1 == s[..|x1|] && x2 == s[..|x2|];
  }

  /** The staging name determines the field name, the millisecond clock and the
      suffix: two uploads get different files unless all three coincide. */
  lemma StagedNameInjective(f1: string, m1: nat, n1: nat, f2: string, m2: nat, n2: nat)
    requires StagedName(f1, m1, n1) == StagedName(f2, m2, n2)
    ensures f1 == f2 && m1 == m2 && n1 == n2
  {
    var a1 := f1 + "-" + NatToString(m1) + "-" + NatToString(n1);
    var a2 := f2 + "-" + NatToString(m2) + "-" + NatToString(n2);
    assert a1 == StagedName(f1, m1, n1)[..|a1|];
    assert a2 == StagedName(f2, m2, n2)[..|a2|];
    DashDigits(f1 + "-" + NatToString(m1), NatToString(n1), f2 + "-" + NatToString(m2), NatToString(n2));
    DashDigits(f1, NatToString(m1), f2, NatToString(m2));
    NatToStringInjective(m1, m2);
    NatToStringInjective(n1, n2);
  }

  /** Two staged files share a path only if they are the same staged file. */
  lemma StagedPathInjective(a: StagedFile, b: StagedFile)
    requires a.Path() == b.Path()
    ensures a == b
  {
    StagedNameInjective(a.fieldname, a.millis, a.suffix, b.fieldname, b.millis, b.suffix);
  }

  /** JSON.parse of the transcript field, falling back to `{fullText: raw}` when it
      throws (JSON.parse(undefined) throws too). `parse` gives what JSON.parse returns,
      or None when it throws. */
  function ParseTranscript(raw: Option<string>, parse: string -> Option<Value>): (data: Value)
    ensures raw.Some? && parse(raw.value).None? ==> Member(data, "fullText") == Got(Str(raw.value))
    ensures raw.None? ==> Member(data, "fullText") == Got(Undefined)
    ensures raw.Some? && parse(raw.value).Some? ==> data == parse(raw.value).value
  {
    match raw
    case None => Obj(map["fullText" := Undefined])
    case Some(s) =>
      match parse(s)
      case Some(v) => v
      case None => Obj(map["fullText" := Str(s)])
  }

  /** Whether `transcriptData.fullText.length` throws: exactly when the parsed
      transcript or its `fullText` is null or undefined (`length` of any other value
      is at worst undefined). */
  function LengthThrows(data: Value): (throws: bool)
    ensures throws <==> Nullish(data) || Nullish(Member(data, "fullText").value)
  {
    Member(data, "fullText").Thrown? || Member(Member(data, "fullText").value, "length").Thrown?
  }

  /** `error.response?.data?.response || fallback`. */
  function ErrorText(responseData: Option<Value>, fallback: string): (r: Value)
    requires fallback != ""
    ensures Truthy(r)
    ensures responseData.None? ==> r == Str(fallback)
    ensures responseData.Some? &&
            (Nullish(responseData.value) || !Truthy(Member(responseData.value, "response").value)) ==>
              r == Str(fallback)
    ensures responseData.Some? && !Nullish(responseData.value) &&
            Truthy(Member(responseData.value, "response").value) ==>
              r == Member(responseData.value, "response").value
  {
    Or(match responseData case None => Undefined case Some(d) => OptionalMember(d, "response"), Str(fallback))
  }

  /** The number of unlinks of `path` among the effects. */
  function Unlinks(effects: seq<Effect>, path: string): nat
  {
    multiset(effects)[Unlink(path)]
  }

  /** Whether the request reaches the forward: a file was staged and the length access
      on the transcript's `fullText` did not throw. */
  predicate Forwards(req: TranscribeRequest, parse: string -> Option<Value>) {
    req.file.Some? && !LengthThrows(ParseTranscript(req.transcript, parse))
  }

  /** Whether the handler throws after its first unlink: the service answered with a
      null body, so reading `data.response` throws. */
  predicate ThrowsAfterUnlink(req: TranscribeRequest, parse: string -> Option<Value>, forward: Forward) {
    Forwards(req, parse) && forward.Resolved? && Nullish(forward.data)
  }

  /** What the transcribe handler's log, an optional forward, an unlink and an
      optional second unlink of the staged file, says about forwards and unlinks. */
  lemma TranscribeLogShape(req: TranscribeRequest, parse: string -> Option<Value>, forward: Forward,
                           effects: seq<Effect>)
    requires req.file.Some?
    requires effects == (if Forwards(req, parse)
                         then [PostAudio(req.file.value.Path(), ParseTranscript(req.transcript, parse))]
                         else [])
                        + [Unlink(req.file.value.Path())]
                        + (if ThrowsAfterUnlink(req, parse, forward) then [Unlink(req.file.value.Path())] else [])
    ensures |effects| > 0 && effects[|effects| - 1] == Unlink(req.file.value.Path())
    ensures Unlinks(effects, req.file.value.Path()) == (if ThrowsAfterUnlink(req, parse, forward) then 2 else 1)
    ensures (exists e :: e in effects && e.PostAudio?) <==> Forwards(req, parse)
    ensures Forwards(req, parse) ==>
              effects[0] == PostAudio(req.file.value.Path(), ParseTranscript(req.transcript, parse))
  {
    if Forwards(req, parse) {
      assert effects[0] in effects;
    }
  }

  /** The `/api/transcribe` handler from the forward on: the handler posts the staged
      file at `path`, unlinks it once the post resolves and replies with the service's
      answer; a rejected post, or a null body whose `response` cannot be read, lands in
      the catch block, which unlinks the file (again) and replies 500. */
  method ForwardAudio(path: string, transcriptData: Value, forward: Forward)
    returns (reply: Reply, effects: seq<Effect>)
    ensures effects == [PostAudio(path, transcriptData), Unlink(path)]
                       + (if forward.Resolved? && Nullish(forward.data) then [Unlink(path)] else [])
    ensures forward.Resolved? && !Nullish(forward.data) ==>
              reply == Reply(forward.status, Obj(map["response" := Member(forward.data, "response").value,
                                                     "id" := Member(forward.data, "id").value]))
    ensures forward.Rejected? ==>
              reply == Reply(500, Obj(map["response" := ErrorText(forward.responseData, AudioFailure)]))
    ensures forward.Resolved? && Nullish(forward.data) ==>
              reply == Reply(500, Obj(map["response" := Str(AudioFailure)]))
  {
    effects := [PostAudio(path, transcriptData)];
    // error.response?.data of the exception caught
    var caught: Option<Value> := None;
    match forward {
      case Rejected(responseData) =>
        caught := responseData;
      case Resolved(status, data) =>
        effects := effects + [Unlink(path)];
        var response := Member(data, "response");
        if response.Got? {
          reply := Reply(status, Obj(map["response" := response.value, "id" := Member(data, "id").value]));
          return;
        }
    }
    effects := effects + [Unlink(path)];
    reply := Reply(500, Obj(map["response" := ErrorText(caught, AudioFailure)]));
  }

  /** The `/api/transcribe` handler. */
  method Transcribe(req: TranscribeRequest, parse: string -> Option<Value>, forward: Forward)
    returns (reply: Reply, effects: seq<Effect>)
    requires req.file.Some? ==> req.file.value.Staged()
    ensures req.file.None? ==> reply == Reply(400, Obj(map["error" := Str(NoAudioFile)])) && effects == []
    ensures req.file.Some? ==>
              effects == (if Forwards(req, parse)
                          then [PostAudio(req.file.value.Path(), ParseTranscript(req.transcript, parse))]
                          else [])
                         + [Unlink(req.file.value.Path())]
                         + (if ThrowsAfterUnlink(req, parse, forward) then [Unlink(req.file.value.Path())] else [])
    ensures req.file.Some? ==>
              && |effects| > 0 && effects[|effects| - 1] == Unlink(req.file.value.Path())
              && Unlinks(effects, req.file.value.Path()) == (if ThrowsAfterUnlink(req, parse, forward) then 2 else 1)
    ensures (exists e :: e in effects && e.PostAudio?) <==> Forwards(req, parse)
    ensures Forwards(req, parse) ==>
              effects[0] == PostAudio(req.file.value.Path(), ParseTranscript(req.transcript, parse))
    ensures Forwards(req, parse) && forward.Resolved? && !Nullish(forward.data) ==>
              reply == Reply(forward.status, Obj(map["response" := Member(forward.data, "response").value,
                                                     "id" := Member(forward.data, "id").value]))
    ensures Forwards(req, parse) && forward.Rejected? ==>
              reply == Reply(500, Obj(map["response" := ErrorText(forward.responseData, AudioFailure)]))
    ensures req.file.Some? && !(Forwards(req, parse) && forward.Rejected?) &&
            !(Forwards(req, parse) && forward.Resolved? && !Nullish(forward.data)) ==>
              reply == Reply(500, Obj(map["response" := Str(AudioFailure)]))
  {
    if req.file.None? {
      reply := Reply(400, Obj(map["error" := Str(NoAudioFile)]));
      effects := [];
      return;
    }
    var path := req.file.value.Path();
    var transcriptData := ParseTranscript(req.transcript, parse);
    if LengthThrows(transcriptData) {
      // the length access throws before the forward: the catch block unlinks and replies
      effects := [Unlink(path)];
      reply := Reply(500, Obj(map["response" := ErrorText(None, AudioFailure)]));
      assert !Forwards(req, parse) && !ThrowsAfterUnlink(req, parse, forward);
    } else {
      reply, effects := ForwardAudio(path, transcriptData, forward);
      assert Forwards(req, parse);
      assert ThrowsAfterUnlink(req, parse, forward) <==> forward.Resolved? && Nullish(forward.data);
    }
    TranscribeLogShape(req, parse, forward, effects);
  }

  /** The `/api/query` handler: `query` is `req.body.query`. */
  method Query(query: Value, forward: Forward) returns (reply: Reply, effects: seq<Effect>)
    ensures effects == [PostQuery(Obj(map["query" := query]))]
    ensures forward.Resolved? && !Nullish(forward.data) ==>
              reply == Reply(200, Obj(map["response" := Member(forward.data, "response").value]))
    ensures forward.Resolved? && Nullish(forward.data) ==>
              reply == Reply(500, Obj(map["response" := Str(QueryFailure)]))
    ensures forward.Rejected? ==>
              reply == Reply(500, Obj(map["response" := ErrorText(forward.responseData, QueryFailure)]))
  {
    effects := [PostQuery(Obj(map["query" := query]))];
    var caught: Option<Value> := None;
    match forward {
      case Rejected(responseData) =>
        caught := responseData;
      case Resolved(_, data) =>
        var response := Member(data, "response");
        if response.Got? {
          reply := Reply(200, Obj(map["response" := response.value]));
          return;
        }
    }
    reply := Reply(500, Obj(map["response" := ErrorText(caught, QueryFailure)]));
  }
}
