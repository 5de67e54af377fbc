/**
 * Command requests and the display of command responses (pipe/src/commands/command_stream.rs).
 *
 * JSON values are opaque; serde's conversions (`serde_json::to_string_pretty`, and the
 * serialization of `ListCommandResponse`) are function parameters. The parsing side of the
 * file is not part of this model.
 *
 * `display_command_responses` reads a stream: it waits for the next response, then keeps
 * polling while more responses are ready at once. The stream is modelled as the sequence of
 * what those reads see: `Item(response)`, or `Pending` when a poll finds nothing ready yet;
 * the end of the sequence is the end of the stream. Each yielded string is one element of the
 * output.
 */
module CommandStreams {
  import opened Wrappers
  import opened SceneTypes

  /** A `serde_json::Value` (opaque). */
  datatype JsonValue = JsonValue(key: nat)

  /** `CommandName` */
  datatype CommandName = CommandName(name: string)

  /** `VariableName` */
  datatype VariableName = VariableName(name: string)

  /** `CommandRequest` (lines 48-53). */
  datatype CommandRequest =
    | Command(command: CommandName, argument: JsonValue)
    | Pipe(from: CommandRequest, to: CommandRequest)
    | Assign(variable: VariableName, source: CommandRequest)
    | ForTarget(target: StreamTarget, request: CommandRequest)

  /** A `BoxStream` of JSON values (opaque). */
  datatype BackgroundStreamHandle = BackgroundStreamHandle(key: nat)

  /** `CommandResponse` (lines 58-73). */
  datatype CommandResponse =
    | Message(message: string)
    | Json(json: JsonValue)
    | BackgroundStream(stream: BackgroundStreamHandle)
    | Error(error: string)

  /** `CommandError` (commands crate); only the variant this file produces is named. */
  datatype CommandError = CannotConvertResponse | OtherCommandError(debugText: string)

  /** `ListCommandResponse` (opaque). */
  datatype ListCommandResponse = ListCommandResponse(key: nat)

  // ---------------------------------------------------------------------------------------
  // Conversions

  /** `Into<String> for CommandName` (lines 78-83): the inner string, unchanged. */
  function CommandNameIntoString(name: CommandName): (s: string)
    ensures CommandName(s) == name
  {
    name.name
  }

  /** The `{:?}` text of a command error. */
  function CommandErrorDebug(e: CommandError): string
  {
    match e
    case CannotConvertResponse => "CannotConvertResponse"
    case OtherCommandError(text) => text
  }

  /** `From<CommandError> for CommandResponse` (lines 85-89): always an `Error` response. */
  function ResponseFromError(e: CommandError): (r: CommandResponse)
    ensures r.Error? && r.error == CommandErrorDebug(e)
  {
    Error(CommandErrorDebug(e))
  }

  /** `From<ListCommandResponse> for CommandResponse` (lines 91-95): the serialized list as JSON. */
  function ResponseFromList(list: ListCommandResponse, serialize: ListCommandResponse -> JsonValue): (r: CommandResponse)
    ensures r.Json? && r.json == serialize(list)
  {
    Json(serialize(list))
  }

  /**
   * `TryInto<ListCommandResponse>` (lines 97-111): a JSON response is deserialized, and fails
   * with `CannotConvertResponse` when that fails; any other response fails the same way.
   */
  function TryIntoList(response: CommandResponse, deserialize: JsonValue -> Option<ListCommandResponse>): (r: Result<ListCommandResponse, CommandError>)
    ensures !response.Json? ==> r == Err(CannotConvertResponse)
    ensures r.Err? ==> r.error == CannotConvertResponse
    ensures r.Ok? <==> response.Json? && deserialize(response.json).Some?
  {
    match response
    case Json(json) =>
      (match deserialize(json)
       case Some(list) => Ok(list)
       case None => Err(CannotConvertResponse))
    case _ => Err(CannotConvertResponse)
  }

  /** A list converted to a response converts back, when serde's deserialization inverts its serialization. */
  lemma ListRoundTrip(list: ListCommandResponse, serialize: ListCommandResponse -> JsonValue, deserialize: JsonValue -> Option<ListCommandResponse>)
    requires deserialize(serialize(list)) == Some(list)
    ensures TryIntoList(ResponseFromList(list, serialize), deserialize) == Ok(list)
  {
  }

  // ---------------------------------------------------------------------------------------
  // Retargeting

  /**
   * `with_new_target` (lines 127-137): a `ForTarget` request gets the new target and keeps its
   * inner request; any other request is wrapped once.
   */
  function WithNewTarget(request: CommandRequest, newTarget: StreamTarget): (r: CommandRequest)
    ensures r.ForTarget? && r.target == newTarget
    ensures request.ForTarget? ==> r.request == request.request
    ensures !request.ForTarget? ==> r.request == request
  {
    match request
    case ForTarget(_, inner) => ForTarget(newTarget, inner)
    case _ => ForTarget(newTarget, request)
  }

  /** A request that is not a `ForTarget` directly inside a `ForTarget`. */
  predicate Flat(request: CommandRequest)
  {
    request.ForTarget? ==> !request.request.ForTarget?
  }

  /** Retargeting a flat request gives a flat request: `ForTarget` never nests directly in `ForTarget`. */
  lemma WithNewTargetFlat(request: CommandRequest, newTarget: StreamTarget)
    requires Flat(request)
    ensures Flat(WithNewTarget(request, newTarget))
  {
  }

  /** Retargeting twice is retargeting once, to the second target. */
  lemma WithNewTargetTwice(request: CommandRequest, first: StreamTarget, second: StreamTarget)
    ensures WithNewTarget(WithNewTarget(request, first), second) == WithNewTarget(request, second)
  {
  }

  // ---------------------------------------------------------------------------------------
  // Display

  /** `msg.replace("\n", "\n  ")`. */
  function Indent(s: string): (r: string)
    ensures |r| == |s| + 2 * NewlineCount(s)
  {
    if |s| == 0 then ""
    else (if s[0] == '\n' then "\n  " else [s[0]]) + Indent(s[1..])
  }

  /** The number of newlines in `s`. */
  function NewlineCount(s: string): nat
  {
    if |s| == 0 then 0 else (if s[0] == '\n' then 1 else 0) + NewlineCount(s[1..])
  }

  /** Removes the two spaces after each newline that is followed by them. */
  function Unindent(s: string): string
  {
    if |s| == 0 then ""
    else if |s| >= 3 && s[..3] == "\n  " then "\n" + Unindent(s[3..])
    else [s[0]] + Unindent(s[1..])
  }

  /** Indenting loses nothing: removing the indentation gives back the message. */
  lemma {:induction false} UnindentIndent(s: string)
    ensures Unindent(Indent(s)) == s
  {
    if |s| > 0 {
      UnindentIndent(s[1..]);
      var rest := Indent(s[1..]);
      if s[0] == '\n' {
        assert Indent(s) == "\n  " + rest;
        assert (Indent(s))[..3] == "\n  ";
        assert (Indent(s))[3..] == rest;
      } else {
        assert Indent(s) == [s[0]] + rest;
        assert (Indent(s))[1..] == rest;
        assert |Indent(s)| >= 3 ==> (Indent(s))[..3][0] == s[0];
      }
    }
  }

  /** Every newline of an indented message is followed by two spaces. */
  lemma {:induction false} IndentedNewlines(s: string, i: nat)
    requires i < |Indent(s)| && Indent(s)[i] == '\n'
    ensures i + 2 < |Indent(s)| && Indent(s)[i + 1] == ' ' && Indent(s)[i + 2] == ' '
  {
    var head := if s[0] == '\n' then "\n  " else [s[0]];
    assert Indent(s) == head + Indent(s[1..]);
    if i >= |head| {
      IndentedNewlines(s[1..], i - |head|);
    }
  }

  /** The `{:?}` text of the literal `"Could not format JSON response"`, quotes included. */
  const CouldNotFormatJson := "\"Could not format JSON response\""

  /**
   * `display_response` (lines 200-228): a message is indented by two spaces on every line, JSON
   * is pretty-printed (or an error is shown when that fails) and an error is shown after
   * `!!! `; each ends with a newline. A background stream is not displayed (`todo!()`).
   */
  function DisplayResponse(response: CommandResponse, pretty: JsonValue -> Option<string>): (out: seq<string>)
    requires !response.BackgroundStream?
    ensures |out| == 1
    ensures response.Message? ==> out[0] == "  " + Indent(response.message) + "\n"
    ensures response.Error? ==> out[0] == "!!! " + response.error + "\n"
    ensures response.Json? && pretty(response.json).Some? ==> out[0] == pretty(response.json).value + "\n"
    ensures response.Json? && pretty(response.json).None? ==> out[0] == "!!! " + CouldNotFormatJson + "\n"
  {
    match response
    case Message(msg) => ["  " + Indent(msg) + "\n"]
    case Json(json) =>
      (match pretty(json)
       case Some(text) => [text + "\n"]
       case None => ["!!! " + CouldNotFormatJson + "\n"])
    case Error(e) => ["!!! " + e + "\n"]
  }

  /** A command error is displayed as `!!! ` and its debug text. */
  lemma DisplayCommandError(e: CommandError, pretty: JsonValue -> Option<string>)
    ensures DisplayResponse(ResponseFromError(e), pretty) == ["!!! " + CommandErrorDebug(e) + "\n"]
  {
  }

  /** What one read of the response stream sees. */
  datatype StreamEvent = Item(response: CommandResponse) | Pending

  predicate NoBackgroundStreams(events: seq<StreamEvent>)
  {
    forall i :: 0 <= i < |events| && events[i].Item? ==> !events[i].response.BackgroundStream?
  }

  /**
   * The output from read `i` of the stream on, after the opening prompt. Waiting for a response
   * (`draining` false) skips the reads that find nothing; each response is shown after a newline
   * and switches to polling (`draining` true); a poll that finds nothing shows the prompt and
   * goes back to waiting. The end of the stream signs out, without a prompt.
   */
  function Render(events: seq<StreamEvent>, i: nat, draining: bool, pretty: JsonValue -> Option<string>): seq<string>
    requires NoBackgroundStreams(events) && i <= |events|
    decreases |events| - i
  {
    if i == |events| then ["\n\n.\n"]
    else match events[i]
      case Item(response) => ["\n"] + DisplayResponse(response, pretty) + Render(events, i + 1, true, pretty)
      case Pending =>
        if draining then ["\n> "] + Render(events, i + 1, false, pretty)
        else Render(events, i + 1, false, pretty)
  }

  /** The whole output of `display_command_responses` for a stream. */
  function Transcript(events: seq<StreamEvent>, pretty: JsonValue -> Option<string>): seq<string>
    requires NoBackgroundStreams(events)
  {
    ["\n\n> "] + Render(events, 0, false, pretty)
  }

  /**
   * `display_command_responses` (lines 262-309): the prompt, then for each response a newline
   * and the response, a prompt whenever the stream has nothing more ready, and the sign-off at
   * the end.
   */
  method DisplayCommandResponses(events: seq<StreamEvent>, pretty: JsonValue -> Option<string>) returns (out: seq<string>)
    requires NoBackgroundStreams(events)
    ensures out == Transcript(events, pretty)
  {
    out := ["\n\n> "];
    var i := 0;
    while i < |events|
      invariant 0 <= i <= |events|
      invariant out + Render(events, i, false, pretty) == Transcript(events, pretty)
      decreases |events| - i
    {
      // Wait for the next response
      while i < |events| && events[i].Pending?
        invariant 0 <= i <= |events|
        invariant out + Render(events, i, false, pretty) == Transcript(events, pretty)
        decreases |events| - i
      {
        i := i + 1;
      }
      if i == |events| {
        break;
      }
      var shown := ["\n"] + DisplayResponse(events[i].response, pretty);
      assert out + Render(events, i, false, pretty) == (out + shown) + Render(events, i + 1, true, pretty);
      out := out + shown;
      i := i + 1;
      // Display the responses that are ready at once
      while i < |events| && events[i].Item?
        invariant 0 <= i <= |events|
        invariant out + Render(events, i, true, pretty) == Transcript(events, pretty)
        decreases |events| - i
      {
        shown := ["\n"] + DisplayResponse(events[i].response, pretty);
        assert out + Render(events, i, true, pretty) == (out + shown) + Render(events, i + 1, true, pretty);
        out := out + shown;
        i := i + 1;
      }
      if i == |events| {
        break;
      }
      assert out + Render(events, i, true, pretty) == (out + ["\n> "]) + Render(events, i + 1, false, pretty);
      out := out + ["\n> "];
      i := i + 1;
    }
    out := out + ["\n\n.\n"];
  }

  /** The output always ends with the sign-off. */
  lemma {:induction false} RenderEndsWithSignOff(events: seq<StreamEvent>, i: nat, draining: bool, pretty: JsonValue -> Option<string>)
    requires NoBackgroundStreams(events) && i <= |events|
    ensures |Render(events, i, draining, pretty)| > 0
    ensures Render(events, i, draining, pretty)[|Render(events, i, draining, pretty)| - 1] == "\n\n.\n"
    decreases |events| - i
  {
    if i < |events| {
      RenderEndsWithSignOff(events, i + 1, events[i].Item?, pretty);
    }
  }

  /** Framing: the transcript opens with the prompt `"\n\n> "` and closes with the sign-off `"\n\n.\n"`. */
  lemma TranscriptFraming(events: seq<StreamEvent>, pretty: JsonValue -> Option<string>)
    requires NoBackgroundStreams(events)
    ensures Transcript(events, pretty)[0] == "\n\n> "
    ensures Transcript(events, pretty)[|Transcript(events, pretty)| - 1] == "\n\n.\n"
  {
    RenderEndsWithSignOff(events, 0, false, pretty);
  }

  /** Each response after a newline, in order. */
  function Shown(responses: seq<CommandResponse>, pretty: JsonValue -> Option<string>): seq<string>
    requires forall k :: 0 <= k < |responses| ==> !responses[k].BackgroundStream?
  {
    if |responses| == 0 then []
    else ["\n"] + DisplayResponse(responses[0], pretty) + Shown(responses[1..], pretty)
  }

  /** The stream events of responses that are all ready at once. */
  function Burst(responses: seq<CommandResponse>): (events: seq<StreamEvent>)
    ensures |events| == |responses|
    ensures forall k :: 0 <= k < |events| ==> events[k] == Item(responses[k])
  {
    if |responses| == 0 then [] else [Item(responses[0])] + Burst(responses[1..])
  }

  /** Responses that are all ready at once are shown in order, with no prompt between them, then the sign-off. */
  lemma {:induction false} RenderBurst(responses: seq<CommandResponse>, i: nat, draining: bool, pretty: JsonValue -> Option<string>)
    requires forall k :: 0 <= k < |responses| ==> !responses[k].BackgroundStream?
    requires i <= |responses|
    ensures NoBackgroundStreams(Burst(responses))
    ensures Render(Burst(responses), i, draining, pretty) == Shown(responses[i..], pretty) + ["\n\n.\n"]
    decreases |responses| - i
  {
    if i < |responses| {
      RenderBurst(responses, i + 1, true, pretty);
      assert responses[i..][1..] == responses[i + 1..];
    }
  }
}
