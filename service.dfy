/**
 * The conversation state of `AIService` and the steps that change it:
 * starting a turn, streaming the response into the buffer, committing the
 * answer or an error message, and clearing the history. The network exchange
 * is an input value; the JSON text parser is a parameter.
 */
module ChatService {
  import opened Wrappers
  import opened JsonValues
  import opened Text
  import opened Sse
  import opened Conversation

  /** The settings read from user defaults: API key, endpoint and model name. */
  datatype Config = Config(apiKey: string, baseURL: string, modelName: string)

  /** The response head: an HTTP status code, or a response that is not HTTP at all. */
  datatype Status = NotHttp | Http(code: int)

  /** How the body's line sequence ends: it runs out, or the transport throws. */
  datatype StreamEnd = Finished | Broken(description: string)

  /**
   * What the request stage delivers: the endpoint string is not a URL, the
   * transport throws before a response, or a response with its body lines.
   * A `description` is the error's localized text.
   */
  datatype Exchange =
    | BadURL(description: string)
    | ConnectFailed(description: string)
    | Responded(status: Status, lines: seq<string>, end: StreamEnd)

  /** The code that the status error reports; -1 when the response is not HTTP. */
  function StatusCode(status: Status): int {
    match status
    case NotHttp => -1
    case Http(c) => c
  }

  /** The status guard: an HTTP response with a code in 200...299. */
  predicate Accepted(status: Status) {
    status.Http? && 200 <= status.code <= 299
  }

  /** The localized description of the status error. */
  function StatusDescription(code: int): string {
    "Server returned status code " + DecimalString(code)
  }

  const ErrorPrefix: string := "Error: "

  /** The assistant turn that reports a failed exchange. */
  function ErrorMessage(description: string): Message {
    Message(AssistantRole, ErrorPrefix + description)
  }

  /** The four published fields of the service. */
  datatype State = State(
    messages: seq<Message>,
    isStreaming: bool,
    currentStreamingMessage: string,
    inputText: string)

  const Initial: State := State([], false, "", "")

  /** The text a send uses: the argument if one is given, the input field otherwise. */
  function TextToSend(s: State, text: Option<string>): string {
    text.GetOr(s.inputText)
  }

  /** The start of a turn: clear the input, append the user turn, mark streaming, reset the buffer. */
  function AfterStart(s: State, t: string): State {
    State(s.messages + [Message(UserRole, t)], true, "", "")
  }

  /** The state after the stream stage, and the error it throws, if any. */
  datatype Streamed = Streamed(state: State, failure: Option<string>)

  /**
   * The stream stage: errors before the body leave the state alone; body lines
   * add their fragments to the buffer; a clean end commits the buffer as an
   * assistant turn, clears it and marks the service idle.
   */
  function AfterStream(s: State, exchange: Exchange, parse: string -> Option<Json>): Streamed {
    match exchange
    case BadURL(d) => Streamed(s, Some(d))
    case ConnectFailed(d) => Streamed(s, Some(d))
    case Responded(status, lines, end) =>
      if !Accepted(status) then Streamed(s, Some(StatusDescription(StatusCode(status))))
      else
        var buffer := s.currentStreamingMessage + Fragments(lines, parse);
        match end
        case Broken(d) => Streamed(s.(currentStreamingMessage := buffer), Some(d))
        case Finished =>
          Streamed(s.(messages := s.messages + [Message(AssistantRole, buffer)],
                      currentStreamingMessage := "", isStreaming := false), None)
  }

  /** The error handler of a send: append the error turn and mark idle; the buffer stays. */
  function AfterError(s: State, description: string): State {
    s.(messages := s.messages + [ErrorMessage(description)], isStreaming := false)
  }

  /** A whole send, from the guard to the last state change. */
  function AfterSend(s: State, text: Option<string>, exchange: Exchange, parse: string -> Option<Json>): State {
    var t := TextToSend(s, text);
    if AllWhitespace(t) then s
    else
      var streamed := AfterStream(AfterStart(s, t), exchange, parse);
      match streamed.failure
      case None => streamed.state
      case Some(d) => AfterError(streamed.state, d)
  }

  /** The request body handed to the transport, if the stream stage gets that far. */
  function SentBody(history: seq<Message>, config: Config, exchange: Exchange): Option<Json> {
    if exchange.BadURL? then None else Some(RequestBody(history, config.modelName))
  }

  /** A blank text (after trimming whitespace and newlines) leaves every field as it was. */
  lemma SendBlankChangesNothing(s: State, text: Option<string>, exchange: Exchange, parse: string -> Option<Json>)
    requires AllWhitespace(TextToSend(s, text))
    ensures AfterSend(s, text, exchange, parse) == s
  {
  }

  /**
   * Every send of a non-blank text, whatever the exchange, appends exactly two
   * turns after the untouched earlier ones, the user's text and then an
   * assistant turn, clears the input and leaves the service idle. Nothing
   * checks `isStreaming` first: a send during a session goes ahead as well.
   */
  lemma SendAppendsTwoTurns(s: State, text: Option<string>, exchange: Exchange, parse: string -> Option<Json>)
    requires !AllWhitespace(TextToSend(s, text))
    ensures var r := AfterSend(s, text, exchange, parse);
      |r.messages| == |s.messages| + 2
      && r.messages[..|s.messages|] == s.messages
      && r.messages[|s.messages|] == Message(UserRole, TextToSend(s, text))
      && r.messages[|s.messages| + 1].role == AssistantRole
      && !r.isStreaming && r.inputText == ""
  {
  }

  /**
   * A response accepted and read to its end: the assistant turn holds the
   * fragments of all its lines, in order, even when there are none; the
   * buffer is empty again.
   */
  lemma SendCompleted(s: State, text: Option<string>, status: Status, lines: seq<string>, parse: string -> Option<Json>)
    requires !AllWhitespace(TextToSend(s, text)) && Accepted(status)
    ensures var r := AfterSend(s, text, Responded(status, lines, Finished), parse);
      r.messages == s.messages + [Message(UserRole, TextToSend(s, text)), Message(AssistantRole, Fragments(lines, parse))]
      && r.currentStreamingMessage == "" && !r.isStreaming && r.inputText == ""
  {
    var t := TextToSend(s, text);
    assert "" + Fragments(lines, parse) == Fragments(lines, parse);
    assert s.messages + [Message(UserRole, t)] + [Message(AssistantRole, Fragments(lines, parse))]
      == s.messages + [Message(UserRole, t), Message(AssistantRole, Fragments(lines, parse))];
  }

  /**
   * A transport failure in the middle of the body: the error turn follows the
   * user turn, no turn carries the fragments, and the buffer keeps the
   * fragments of the lines read before the failure.
   */
  lemma SendBroken(s: State, text: Option<string>, status: Status, lines: seq<string>, d: string, parse: string -> Option<Json>)
    requires !AllWhitespace(TextToSend(s, text)) && Accepted(status)
    ensures var r := AfterSend(s, text, Responded(status, lines, Broken(d)), parse);
      r.messages == s.messages + [Message(UserRole, TextToSend(s, text)), Message(AssistantRole, "Error: " + d)]
      && r.currentStreamingMessage == Fragments(lines, parse) && !r.isStreaming
  {
  }

  /**
   * A status outside 200...299 (or a non-HTTP response, code -1): the error
   * turn names the code and no line of the body is read.
   */
  lemma SendRejected(s: State, text: Option<string>, status: Status, lines: seq<string>, end: StreamEnd, parse: string -> Option<Json>)
    requires !AllWhitespace(TextToSend(s, text)) && !Accepted(status)
    ensures var r := AfterSend(s, text, Responded(status, lines, end), parse);
      r.messages == s.messages + [Message(UserRole, TextToSend(s, text)),
                                  ErrorMessage("Server returned status code " + DecimalString(StatusCode(status)))]
      && r.currentStreamingMessage == "" && !r.isStreaming
      && r == AfterSend(s, text, Responded(status, [], Finished), parse)
  {
  }

  /** A bad endpoint or a failed connection: the error turn carries the error's description. */
  lemma SendFailedEarly(s: State, text: Option<string>, exchange: Exchange, parse: string -> Option<Json>)
    requires !AllWhitespace(TextToSend(s, text)) && (exchange.BadURL? || exchange.ConnectFailed?)
    ensures var r := AfterSend(s, text, exchange, parse);
      r.messages == s.messages + [Message(UserRole, TextToSend(s, text)), Message(AssistantRole, "Error: " + exchange.description)]
      && r.currentStreamingMessage == "" && !r.isStreaming
  {
  }

  /** The status error text determines the status code. */
  lemma StatusDescriptionInjective(c1: int, c2: int)
    ensures StatusDescription(c1) == StatusDescription(c2) ==> c1 == c2
  {
    if StatusDescription(c1) == StatusDescription(c2) {
      var p := "Server returned status code ";
      assert DecimalString(c1) == StatusDescription(c1)[|p|..];
      assert DecimalString(c2) == StatusDescription(c2)[|p|..];
      DecimalStringInjective(c1, c2);
    }
  }

  /** A status of 500 is reported as `Error: Server returned status code 500`. */
  lemma Status500Example()
    ensures ErrorMessage(StatusDescription(StatusCode(Http(500)))).content
      == ErrorPrefix + ("Server returned status code " + "500")
  {
  }

  /** A response that is not HTTP is reported with code -1. */
  lemma NotHttpExample()
    ensures ErrorMessage(StatusDescription(StatusCode(NotHttp))).content
      == ErrorPrefix + ("Server returned status code " + "-1")
  {
  }

  /**
   * The body handed to the transport reads back as the configured model, the
   * store's full history including the new user turn, and `stream: true`.
   */
  lemma SentBodyCarriesStore(s: State, t: string, config: Config, exchange: Exchange)
    requires !exchange.BadURL?
    ensures var sent := SentBody(AfterStart(s, t).messages, config, exchange);
      sent.Some? && BodyContents(sent.value) == Some((config.modelName, s.messages + [Message(UserRole, t)], true))
  {
    RequestBodyRoundTrip(s.messages + [Message(UserRole, t)], config.modelName);
  }

  class AIService {
    var messages: seq<Message>
    var isStreaming: bool
    var currentStreamingMessage: string
    var inputText: string

    /** The published fields as one value. */
    function Snapshot(): State
      reads this
    {
      State(messages, isStreaming, currentStreamingMessage, inputText)
    }

    constructor ()
      ensures Snapshot() == Initial
    {
      messages := [];
      isStreaming := false;
      currentStreamingMessage := "";
      inputText := "";
    }

    /**
     * `sendMessage(text)`: `text` None stands for the call without argument,
     * which sends the input field. Returns the request body the transport was
     * given, if any.
     */
    method SendMessage(text: Option<string>, config: Config, exchange: Exchange, parse: string -> Option<Json>)
      returns (sent: Option<Json>)
      modifies this
      ensures Snapshot() == AfterSend(old(Snapshot()), text, exchange, parse)
      ensures var t := TextToSend(old(Snapshot()), text);
        sent == if AllWhitespace(t) then None else SentBody(old(messages) + [Message(UserRole, t)], config, exchange)
    {
      var started := BeginSend(text);
      if started.None? {
        return None;
      }
      var failure;
      sent, failure := StreamResponse(messages, config, exchange, parse);
      match failure {
        case Some(d) =>
          messages := messages + [ErrorMessage(d)];
          isStreaming := false;
        case None =>
      }
    }

    /**
     * The part of `sendMessage` before the request: the blank guard, then
     * clearing the input, appending the user turn, marking the service as
     * streaming and resetting the buffer. Returns the text sent, if any.
     */
    method BeginSend(text: Option<string>) returns (started: Option<string>)
      modifies this
      ensures var t := TextToSend(old(Snapshot()), text);
        started == if AllWhitespace(t) then None else Some(t)
      ensures started.None? ==> Snapshot() == old(Snapshot())
      ensures started.Some? ==>
        messages == old(messages) + [Message(UserRole, started.value)]
        && isStreaming && currentStreamingMessage == "" && inputText == ""
    {
      var textToSend := text.GetOr(inputText);
      var blank := IsBlank(textToSend);
      BlankIffAllWhitespace(textToSend);
      if blank {
        return None;
      }
      inputText := "";
      var userMsg := Message(UserRole, textToSend);
      messages := messages + [userMsg];
      isStreaming := true;
      currentStreamingMessage := "";
      started := Some(textToSend);
    }

    /**
     * `streamResponse(for: history)`: returns the request body handed to the
     * transport, if any, and the error thrown, if any.
     */
    method StreamResponse(history: seq<Message>, config: Config, exchange: Exchange, parse: string -> Option<Json>)
      returns (sent: Option<Json>, failure: Option<string>)
      modifies this
      ensures Streamed(Snapshot(), failure) == AfterStream(old(Snapshot()), exchange, parse)
      ensures sent == SentBody(history, config, exchange)
    {
      if exchange.BadURL? {
        return None, Some(exchange.description);
      }
      sent := Some(RequestBody(history, config.modelName));
      if exchange.ConnectFailed? {
        return sent, Some(exchange.description);
      }
      var status := exchange.status;
      if !Accepted(status) {
        return sent, Some(StatusDescription(StatusCode(status)));
      }
      ReadLines(exchange.lines, parse);
      if exchange.end.Broken? {
        return sent, Some(exchange.end.description);
      }
      messages := messages + [Message(AssistantRole, currentStreamingMessage)];
      currentStreamingMessage := "";
      isStreaming := false;
      failure := None;
    }

    /**
     * The read loop `for try await line in result.lines`: each line's
     * fragment goes at the end of the buffer; skipped lines `continue`.
     */
    method ReadLines(lines: seq<string>, parse: string -> Option<Json>)
      modifies this`currentStreamingMessage
      ensures currentStreamingMessage == old(currentStreamingMessage) + Fragments(lines, parse)
    {
      var i := 0;
      while i < |lines|
        invariant 0 <= i <= |lines|
        invariant currentStreamingMessage == old(currentStreamingMessage) + Fragments(lines[..i], parse)
      {
        var line := lines[i];
        FragmentsSnoc(lines[..i], line, parse);
        assert lines[..i + 1] == lines[..i] + [line];
        i := i + 1;
        var delta := DecodeLine(line, parse);
        if delta.Skip? {
          continue;
        }
        currentStreamingMessage := currentStreamingMessage + delta.text;
      }
      assert lines[..i] == lines;
    }

    /** `clearHistory()`: empties the transcript; a session in flight carries on. */
    method ClearHistory()
      modifies this`messages
      ensures messages == []
      ensures isStreaming == old(isStreaming) && currentStreamingMessage == old(currentStreamingMessage)
      ensures inputText == old(inputText)
    {
      messages := [];
    }

    /**
     * The Return-key handler of the chat view: it sends the input field only
     * while no session is streaming.
     */
    method SendIfIdle(config: Config, exchange: Exchange, parse: string -> Option<Json>)
      returns (sent: Option<Json>)
      modifies this
      ensures old(isStreaming) ==> Snapshot() == old(Snapshot()) && sent == None
      ensures !old(isStreaming) ==> Snapshot() == AfterSend(old(Snapshot()), None, exchange, parse)
      ensures !old(isStreaming) ==>
        sent == if AllWhitespace(old(inputText)) then None
                else SentBody(old(messages) + [Message(UserRole, old(inputText))], config, exchange)
    {
      sent := None;
      if !isStreaming {
        sent := SendMessage(None, config, exchange, parse);
      }
    }
  }
}
