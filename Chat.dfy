/** The chat view: a submitted question is appended to the message list, sent to the
    relay's query endpoint, and followed by exactly one reply message, the answer or
    the error. The fetch and the clock are parameters. */
module Chat {
  import opened Wrappers
  import Js
  import Http

  datatype Sender = User | Ai

  /** A chat message. The AI's text is whatever `data.response` was. */
  datatype Message = Message(id: int, text: Js.Value, sender: Sender)

  const QueryFailure := "Failed to process query"

  /** The characters String.prototype.trim removes: white space and line terminators. */
  predicate IsWhitespace(c: char) {
    || c == '\t' || c == '\n' || c == '\U{B}' || c == '\U{C}' || c == '\r' || c == ' '
    || c == '\U{A0}' || c == '\U{1680}' || ('\U{2000}' <= c <= '\U{200A}')
    || c == '\U{2028}' || c == '\U{2029}' || c == '\U{202F}' || c == '\U{205F}'
    || c == '\U{3000}' || c == '\U{FEFF}'
  }

  /** Drops the leading white space: what remains is a suffix of `s` that does not
      start with white space. */
  function TrimStart(s: string): (r: string)
    ensures |r| <= |s| && r == s[|s| - |r|..]
    ensures forall i :: 0 <= i < |s| - |r| ==> IsWhitespace(s[i])
    ensures r != "" ==> !IsWhitespace(r[0])
    decreases |s|
  {
    if s != [] && IsWhitespace(s[0]) then TrimStart(s[1..]) else s
  }

  /** Drops the trailing white space: what remains is a prefix of `s` that does not
      end with white space. */
  function TrimEnd(s: string): (r: string)
    ensures |r| <= |s| && r == s[..|r|]
    ensures forall i :: |r| <= i < |s| ==> IsWhitespace(s[i])
    ensures r != "" ==> !IsWhitespace(r[|r| - 1])
    decreases |s|
  {
    if s != [] && IsWhitespace(s[|s| - 1]) then TrimEnd(s[..|s| - 1]) else s
  }

  /** `s.trim()`: the slice of `s` between its leading and trailing white space. It is
      empty exactly when every character of `s` is white space. */
  function Trim(s: string): (r: string)
    ensures var k := |s| - |TrimStart(s)|; k + |r| <= |s| && r == s[k..k + |r|]
    ensures var k := |s| - |TrimStart(s)|; forall i :: k + |r| <= i < |s| ==> IsWhitespace(s[i])
    ensures r != "" ==> !IsWhitespace(r[0]) && !IsWhitespace(r[|r| - 1])
    ensures r == "" <==> forall i :: 0 <= i < |s| ==> IsWhitespace(s[i])
  {
    TrimEnd(TrimStart(s))
  }

  /** What the submit handler's try block settles on: the AI's text, or the message of
      the Error caught (the fetch's, the JSON parse's, a TypeError's, or the one thrown
      for a non-ok status). */
  function Settle(reply: Http.Fetch): (r: Result<Js.Value, string>)
    ensures reply.NetworkFailure? ==> r == Err(reply.message)
    ensures reply.Response? && reply.body.NotJson? ==> r == Err(reply.body.message)
    ensures reply.Response? && reply.body.Json? && Js.Nullish(reply.body.data) ==> r.Err?
    ensures reply.Response? && reply.body.Json? && !Js.Nullish(reply.body.data) ==>
              var response := Js.Member(reply.body.data, "response").value;
              r == if Http.IsOk(reply.status) then Ok(response)
                   else Err(Js.ToStr(Js.Or(response, Js.Str(QueryFailure))))
  {
    match reply
    case NetworkFailure(message) => Err(message)
    case Response(status, body) =>
      match body
      case NotJson(message) => Err(message)
      case Json(data) =>
        match Js.Member(data, "response")
        case Thrown(message) => Err(message)
        case Got(response) =>
          if Http.IsOk(status) then Ok(response)
          else Err(Js.ToStr(Js.Or(response, Js.Str(QueryFailure))))
  }

  /** A non-ok reply whose body has a falsy `response` gives the fallback message; a
      non-empty string `response` is the message itself. */
  lemma NonOkMessage(status: int, data: Js.Value)
    requires !Http.IsOk(status) && !Js.Nullish(data)
    ensures !Js.Truthy(Js.Member(data, "response").value) ==>
              Settle(Http.Response(status, Http.Json(data))) == Err(QueryFailure)
    ensures Js.Member(data, "response").value.Str? && Js.Member(data, "response").value.s != "" ==>
              Settle(Http.Response(status, Http.Json(data))) == Err(Js.Member(data, "response").value.s)
  {
  }

  /** The message appended after the user's: the answer, or `Error: <message>`. */
  function ReplyMessage(settled: Result<Js.Value, string>, at: int): (m: Message)
    ensures m.sender == Ai && m.id == at + 1
    ensures settled.Ok? ==> m.text == settled.value
    ensures settled.Err? ==> m.text == Js.Str("Error: " + settled.error)
  {
    match settled
    case Ok(answer) => Message(at + 1, answer, Ai)
    case Err(message) => Message(at + 1, Js.Str("Error: " + message), Ai)
  }

  /** The chat component's state. */
  class ChatLog {
    var messages: seq<Message>
    var input: string
    var loading: bool
    var error: Option<string>

    constructor ()
      ensures messages == [] && input == "" && !loading && error == None
    {
      messages := [];
      input := "";
      loading := false;
      error := None;
    }

    /** The input field's change handler. */
    method SetInput(text: string)
      modifies this`input
      ensures input == text
    {
      input := text;
    }

    /** handleSubmit up to its first await: a non-blank question is shown at once,
        the input is cleared and the view is loading (which disables the input and
        the send button) while the request is in flight. `request` is the body
        posted, if any. */
    method BeginSubmit(sentAt: int) returns (request: Option<Js.Value>)
      modifies this
      ensures Trim(old(input)) == "" ==>
                && request == None
                && messages == old(messages) && input == old(input)
                && loading == old(loading) && error == old(error)
      ensures Trim(old(input)) != "" ==>
                && request == Some(Js.Obj(map["query" := Js.Str(old(input))]))
                && messages == old(messages) + [Message(sentAt, Js.Str(old(input)), User)]
                && input == "" && loading && error == None
    {
      if Trim(input) == "" {
        return None;
      }
      loading := true;
      error := None;
      var query := input;
      messages := messages + [Message(sentAt, Js.Str(query), User)];
      input := "";
      request := Some(Js.Obj(map["query" := Js.Str(query)]));
    }

    /** The rest of handleSubmit, once the request has settled at `repliedAt`: one AI
        message is appended, a failure's message becomes the error, and loading ends. */
    method FinishSubmit(reply: Http.Fetch, repliedAt: int)
      modifies this`messages, this`loading, this`error
      ensures messages == old(messages) + [ReplyMessage(Settle(reply), repliedAt)]
      ensures !loading
      ensures error == if Settle(reply).Err? then Some(Settle(reply).error) else old(error)
    {
      var settled := Settle(reply);
      if settled.Err? {
        error := Some(settled.error);
      }
      messages := messages + [ReplyMessage(settled, repliedAt)];
      loading := false;
    }

    /** A whole submit with no other event while the request is in flight. */
    method HandleSubmit(reply: Http.Fetch, sentAt: int, repliedAt: int) returns (request: Option<Js.Value>)
      modifies this
      ensures Trim(old(input)) == "" ==>
                && request == None
                && messages == old(messages) && input == old(input)
                && loading == old(loading) && error == old(error)
      ensures Trim(old(input)) != "" ==>
                && request == Some(Js.Obj(map["query" := Js.Str(old(input))]))
                && |messages| == |old(messages)| + 2
                && messages[..|old(messages)|] == old(messages)
                && messages[|old(messages)|] == Message(sentAt, Js.Str(old(input)), User)
                && messages[|old(messages)| + 1] == ReplyMessage(Settle(reply), repliedAt)
                && input == "" && !loading
                && error == (if Settle(reply).Err? then Some(Settle(reply).error) else None)
    {
      request := BeginSubmit(sentAt);
      if request.Some? {
        FinishSubmit(reply, repliedAt);
      }
    }
  }
}
