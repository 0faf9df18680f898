/** The transcription service: `process_audio` stores each upload's transcript in an
    in-memory, insertion-ordered dictionary keyed by a clock-derived id, and
    `process_query` answers a question from all stored transcripts through a language
    model. The clock, the file system, json.loads and the model are parameters. */
module TranscriptStore {
  import opened Wrappers
  import opened Text

  /** A value json.loads produces (numbers are integers here). */
  datatype PyJson =
    | PNone
    | PBool(b: bool)
    | PInt(i: int)
    | PStr(s: string)
    | PList(items: seq<PyJson>)
    | PDict(fields: map<string, PyJson>)

  /** One stored transcription. */
  datatype Entry = Entry(transcript: PyJson, segments: PyJson, audioPath: string, timestamp: string)

  /** A JSON reply: status, the `response` field and, on a stored upload, the `id` field. */
  datatype ServiceReply = ServiceReply(status: int, response: string, id: Option<string>)

  const AudioDir := "stored_audio"
  const Processed := "Audio processed successfully"
  const NoTranscripts := "No transcripts found"

  /** `str(timestamp).replace(".", "")`: the clock reading's text without its dots. */
  function FileId(stamp: string): (id: string)
    ensures '.' !in id
    ensures |id| <= |stamp|
    decreases |stamp|
  {
    if stamp == [] then [] else (if stamp[0] == '.' then [] else [stamp[0]]) + FileId(stamp[1..])
  }

  /** Removing dots from a concatenation removes them from each side. */
  lemma {:induction false} FileIdAppend(a: string, b: string)
    ensures FileId(a + b) == FileId(a) + FileId(b)
    decreases |a|
  {
    if a == [] {
      assert a + b == b;
    } else {
      var ab := a + b;
      assert ab[0] == a[0] && ab[1..] == a[1..] + b;
      FileIdAppend(a[1..], b);
      var c := if a[0] == '.' then [] else [a[0]];
      assert FileId(ab) == c + FileId(a[1..] + b);
      assert FileId(a) == c + FileId(a[1..]);
    }
  }

  /** A text without dots is its own id. */
  lemma {:induction false} FileIdNoDot(a: string)
    requires '.' !in a
    ensures FileId(a) == a
    decreases |a|
  {
    if a != [] {
      assert a[0] != '.';
      FileIdNoDot(a[1..]);
    }
  }

  /** The id of a decimal reading `whole.frac` is its digits run together. */
  lemma FileIdOfReading(whole: string, frac: string)
    requires '.' !in whole && '.' !in frac
    ensures FileId(whole + "." + frac) == whole + frac
  {
    FileIdAppend(whole + ".", frac);
    FileIdAppend(whole, ".");
    assert FileId(".") == [];
    FileIdNoDot(whole);
    FileIdNoDot(frac);
    assert FileId(whole + ".") == whole;
  }

  /** Two readings with as many whole-second digits get the same id exactly when they
      are the same reading. */
  lemma FileIdInjective(w1: string, f1: string, w2: string, f2: string)
    requires '.' !in w1 && '.' !in f1 && '.' !in w2 && '.' !in f2
    requires |w1| == |w2|
    ensures FileId(w1 + "." + f1) == FileId(w2 + "." + f2) <==> w1 == w2 && f1 == f2
  {
    FileIdOfReading(w1, f1);
    FileIdOfReading(w2, f2);
    assert w1 == (w1 + f1)[..|w1|] && w2 == (w2 + f2)[..|w2|];
    assert f1 == (w1 + f1)[|w1|..] && f2 == (w2 + f2)[|w2|..];
  }

  /** Where process_audio writes the audio of upload `id`. */
  function AudioPath(id: string): string
  {
    AudioDir + "/" + id + ".webm"
  }

  /** Python's name for the type of a parsed value. */
  function TypeName(v: PyJson): string
  {
    match v
    case PNone => "NoneType"
    case PBool(_) => "bool"
    case PInt(_) => "int"
    case PStr(_) => "str"
    case PList(_) => "list"
    case PDict(_) => "dict"
  }

  /** Whether len() accepts the value. */
  predicate Sized(v: PyJson) {
    v.PStr? || v.PList? || v.PDict?
  }

  /** `transcript_data.get('fullText', '')` and `transcript_data.get('segments', [])`:
      the AttributeError's message when the parsed value is not a dictionary. */
  function ReadFields(data: PyJson): (r: Result<(PyJson, PyJson), string>)
    ensures r.Err? <==> !data.PDict?
    ensures !data.PDict? ==> r.error == "'" + TypeName(data) + "' object has no attribute 'get'"
    ensures data.PDict? ==> r.value.0 == (if "fullText" in data.fields then data.fields["fullText"] else PStr(""))
    ensures data.PDict? ==> r.value.1 == (if "segments" in data.fields then data.fields["segments"] else PList([]))
  {
    match data
    case PDict(fields) =>
      Ok((if "fullText" in fields then fields["fullText"] else PStr(""),
          if "segments" in fields then fields["segments"] else PList([])))
    case _ => Err("'" + TypeName(data) + "' object has no attribute 'get'")
  }

  /** The message of the TypeError len() raises on an unsized value. */
  function NoLen(v: PyJson): string
  {
    "object of type '" + TypeName(v) + "' has no len()"
  }

  /** str() of a stored transcript: exact for strings and scalars; for lists and
      dictionaries it is `show`. */
  function PyStr(v: PyJson, show: PyJson -> string): (r: string)
    ensures v.PStr? ==> r == v.s
    ensures v.PNone? ==> r == "None"
    ensures v.PBool? ==> r == if v.b then "True" else "False"
    ensures v.PList? || v.PDict? ==> r == show(v)
  {
    match v
    case PNone => "None"
    case PBool(b) => if b then "True" else "False"
    case PInt(i) => IntToString(i)
    case PStr(s) => s
    case _ => show(v)
  }

  /** One entry as it appears in the combined transcript: `"(timestamp) transcript"`. */
  function Render(e: Entry, show: PyJson -> string): string
  {
    "(" + e.timestamp + ") " + PyStr(e.transcript, show)
  }

  function Rendered(values: seq<Entry>, show: PyJson -> string): (rs: seq<string>)
    ensures |rs| == |values|
    ensures forall i :: 0 <= i < |values| ==> rs[i] == Render(values[i], show)
  {
    seq(|values|, i requires 0 <= i < |values| => Render(values[i], show))
  }

  /** The combined transcript: every entry rendered, separated by blank lines. */
  function Combine(values: seq<Entry>, show: PyJson -> string): (r: string)
    ensures r == "" <==> values == []
    ensures values != [] ==> |Render(values[0], show)| <= |r| && r[..|Render(values[0], show)|] == Render(values[0], show)
  {
    Join(Rendered(values, show), "\n\n")
  }

  predicate Distinct(keys: seq<string>) {
    forall i, j :: 0 <= i < j < |keys| ==> keys[i] != keys[j]
  }

  /** The dictionary's values in insertion order. */
  function ValuesOf(order: seq<string>, entries: map<string, Entry>): (vs: seq<Entry>)
    requires forall k :: k in order ==> k in entries
    ensures |vs| == |order|
    ensures forall i :: 0 <= i < |order| ==> vs[i] == entries[order[i]]
  {
    seq(|order|, i requires 0 <= i < |order| => entries[order[i]])
  }

  /** A new key goes last: the combined transcript gains one blank line and the new
      entry, and keeps everything it had. */
  lemma CombineInsertNew(order: seq<string>, entries: map<string, Entry>, key: string, e: Entry, show: PyJson -> string)
    requires forall k :: k in order ==> k in entries
    requires key !in order
    ensures forall k :: k in order + [key] ==> k in entries[key := e]
    ensures Combine(ValuesOf(order + [key], entries[key := e]), show) ==
            if order == [] then Render(e, show)
            else Combine(ValuesOf(order, entries), show) + "\n\n" + Render(e, show)
  {
    var before := ValuesOf(order, entries);
    var after := ValuesOf(order + [key], entries[key := e]);
    assert after == before + [e];
    assert Rendered(after, show) == Rendered(before, show) + [Render(e, show)];
    JoinSnoc(Rendered(before, show), Render(e, show), "\n\n");
  }

  /** An existing key keeps its place: only its own rendering changes. */
  lemma CombineReplace(order: seq<string>, entries: map<string, Entry>, i: nat, e: Entry, show: PyJson -> string)
    requires Distinct(order)
    requires forall k :: k in order ==> k in entries
    requires i < |order|
    ensures forall k :: k in order ==> k in entries[order[i] := e]
    ensures Rendered(ValuesOf(order, entries[order[i] := e]), show) ==
            Rendered(ValuesOf(order, entries), show)[i := Render(e, show)]
  {
  }

  /** Entry `i` appears verbatim in the combined transcript, at its offset. */
  lemma CombineEntryAt(values: seq<Entry>, show: PyJson -> string, i: nat)
    requires i < |values|
    ensures var o := Offset(Rendered(values, show), "\n\n", i);
      o + |Render(values[i], show)| <= |Combine(values, show)| &&
      Combine(values, show)[o..o + |Render(values[i], show)|] == Render(values[i], show)
  {
    JoinPartAt(Rendered(values, show), "\n\n", i);
  }

  const PromptHead := "\n        You are a helpful assistant.\n\n        Only use the information from the following transcript to answer.\n\n        Transcript:\n        \"\"\"\n        "
  const PromptMiddle := "\n        \"\"\"\n\n        If the answer is not found in the transcript, respond:\n        \"No relevant data found.\"\n\n        Question: "
  const PromptTail := "\n        Answer:\n    "

  /** The prompt query_groq_llm sends to the model. */
  function Prompt(transcript: string, query: string): (p: string)
    ensures |p| == |PromptHead| + |transcript| + |PromptMiddle| + |query| + |PromptTail|
    ensures p[..|PromptHead|] == PromptHead
    ensures p[|p| - |PromptTail|..] == PromptTail
  {
    PromptHead + transcript + PromptMiddle + query + PromptTail
  }

  /** The prompt carries the transcript and the question verbatim, at fixed places. */
  lemma PromptEmbeds(transcript: string, query: string)
    ensures var p := Prompt(transcript, query); var t := |PromptHead|; var q := t + |transcript| + |PromptMiddle|;
      |p| == q + |query| + |PromptTail| &&
      p[t..t + |transcript|] == transcript && p[q..q + |query|] == query
  {
    var p := Prompt(transcript, query);
    var t := |PromptHead|;
    var q := t + |transcript| + |PromptMiddle|;
    assert p[t..t + |transcript|] == transcript;
    assert p[q..q + |query|] == query;
  }

  /** The module-level `transcriptions` dictionary: `order` lists its keys in insertion
      order, `entries` maps them to their values. */
  class Store {
    var order: seq<string>
    var entries: map<string, Entry>

    ghost predicate Valid()
      reads this
    {
      Distinct(order) && (forall k :: k in order <==> k in entries)
    }

    constructor ()
      ensures Valid() && order == [] && entries == map[]
    {
      order := [];
      entries := map[];
    }

    function Values(): (vs: seq<Entry>)
      reads this
      requires Valid()
    {
      ValuesOf(order, entries)
    }

    /** The `/process-audio` handler. `stamp` is str() of the clock reading,
        `loads` json.loads (its error as str(e)), `write` the failure of saving the
        audio (None when it is saved) and `storedAt` the second clock reading.
        `saved` is the path of the audio file written. */
    method ProcessAudio(stamp: string, transcript: string, loads: string -> Result<PyJson, string>,
                        write: Option<string>, storedAt: string)
      returns (reply: ServiceReply, saved: Option<string>)
      requires Valid()
      modifies this
      ensures Valid()
      ensures loads(transcript).Err? ==>
                reply == ServiceReply(500, loads(transcript).error, None) && saved == None
      ensures loads(transcript).Ok? && write.Some? ==>
                reply == ServiceReply(500, write.value, None) && saved == None
      ensures loads(transcript).Ok? && write.None? ==> saved == Some(AudioPath(FileId(stamp)))
      ensures loads(transcript).Ok? && write.None? && ReadFields(loads(transcript).value).Err? ==>
                reply == ServiceReply(500, ReadFields(loads(transcript).value).error, None)
      ensures !(loads(transcript).Ok? && write.None? && ReadFields(loads(transcript).value).Ok?) ==>
                order == old(order) && entries == old(entries)
      ensures loads(transcript).Ok? && write.None? && ReadFields(loads(transcript).value).Ok? ==>
                var id := FileId(stamp);
                var (text, segments) := ReadFields(loads(transcript).value).value;
                && entries == old(entries)[id := Entry(text, segments, AudioPath(id), storedAt)]
                && order == (if id in old(entries) then old(order) else old(order) + [id])
                && reply == if Sized(text) then ServiceReply(200, Processed, Some(id))
                            else ServiceReply(500, NoLen(text), None)
      ensures forall k :: k != FileId(stamp) ==>
                (k in entries <==> k in old(entries)) && (k in entries ==> entries[k] == old(entries)[k])
    {
      saved := None;
      var fileId := FileId(stamp);
      var parsed := loads(transcript);
      if parsed.Err? {
        reply := ServiceReply(500, parsed.error, None);
        return;
      }
      var filePath := AudioPath(fileId);
      if write.Some? {
        reply := ServiceReply(500, write.value, None);
        return;
      }
      saved := Some(filePath);
      var fields := ReadFields(parsed.value);
      if fields.Err? {
        reply := ServiceReply(500, fields.error, None);
        return;
      }
      var (text, segments) := fields.value;
      if fileId !in entries {
        order := order + [fileId];
      }
      entries := entries[fileId := Entry(text, segments, filePath, storedAt)];
      if !Sized(text) {
        reply := ServiceReply(500, NoLen(text), None);
        return;
      }
      reply := ServiceReply(200, Processed, Some(fileId));
    }

    /** The `/query` handler. `llm` is the model call (its error as str(e)); `prompts`
        lists the prompts sent to it. */
    method ProcessQuery(query: string, show: PyJson -> string, llm: string -> Result<string, string>)
      returns (reply: ServiceReply, prompts: seq<string>)
      requires Valid()
      ensures entries == map[] ==> reply == ServiceReply(404, NoTranscripts, None) && prompts == []
      ensures entries != map[] ==>
                && prompts == [Prompt(Combine(Values(), show), query)]
                && reply == match llm(prompts[0])
                            case Ok(answer) => ServiceReply(200, answer, None)
                            case Err(message) => ServiceReply(500, message, None)
    {
      if entries == map[] {
        return ServiceReply(404, NoTranscripts, None), [];
      }
      var combined := Combine(Values(), show);
      var prompt := Prompt(combined, query);
      prompts := [prompt];
      match llm(prompt) {
        case Ok(answer) => reply := ServiceReply(200, answer, None);
        case Err(message) => reply := ServiceReply(500, message, None);
      }
    }
  }
}
