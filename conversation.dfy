/**
 * Conversation messages and the JSON request body built from them
 * (`history.map { ["role": $0.role, "content": $0.content] }` together with
 * the model name and `"stream": true`).
 */
module Conversation {
  import opened Wrappers
  import opened JsonValues

  /** A chat turn as `AIService` stores it; the role is a plain string. */
  datatype Message = Message(role: string, content: string)

  const UserRole: string := "user"
  const AssistantRole: string := "assistant"

  /** One history entry as a request dictionary with exactly `role` and `content`. */
  function MessageJson(m: Message): Json {
    JObject(map["role" := JString(m.role), "content" := JString(m.content)])
  }

  /** The `messages` array of the request: one dictionary per history entry, in order. */
  function MessagesJson(history: seq<Message>): (r: seq<Json>)
    ensures |r| == |history|
    ensures forall i :: 0 <= i < |history| ==>
      r[i].JObject? && r[i].fields.Keys == {"role", "content"}
      && r[i].fields["role"] == JString(history[i].role)
      && r[i].fields["content"] == JString(history[i].content)
  {
    if history == [] then [] else [MessageJson(history[0])] + MessagesJson(history[1..])
  }

  /** The request body `{"model": …, "messages": […], "stream": true}`. */
  function RequestBody(history: seq<Message>, modelName: string): Json {
    JObject(map["model" := JString(modelName), "messages" := JArray(MessagesJson(history)), "stream" := JBool(true)])
  }

  /** Reads a request dictionary back as a message, if it has string `role` and `content`. */
  function MessageOf(j: Json): Option<Message> {
    if j.JObject? && "role" in j.fields && "content" in j.fields
       && j.fields["role"].JString? && j.fields["content"].JString?
    then Some(Message(j.fields["role"].text, j.fields["content"].text))
    else None
  }

  /** Reads a `messages` array back as a history; None when some element is not a message. */
  function HistoryOf(items: seq<Json>): Option<seq<Message>> {
    if items == [] then Some([])
    else
      match (MessageOf(items[0]), HistoryOf(items[1..]))
      case (Some(m), Some(rest)) => Some([m] + rest)
      case _ => None
  }

  /** Reads the parts of a request body back: the model name, the history and the stream flag. */
  function BodyContents(body: Json): Option<(string, seq<Message>, bool)> {
    if body.JObject? && "model" in body.fields && "messages" in body.fields && "stream" in body.fields
       && body.fields["model"].JString? && body.fields["messages"].JArray? && body.fields["stream"].JBool?
    then
      match HistoryOf(body.fields["messages"].items)
      case Some(h) => Some((body.fields["model"].text, h, body.fields["stream"].boolValue))
      case None => None
    else None
  }

  /** A request dictionary reads back as the message it was built from. */
  lemma MessageRoundTrip(m: Message)
    ensures MessageOf(MessageJson(m)) == Some(m)
  {
  }

  lemma {:induction false} HistoryRoundTrip(history: seq<Message>)
    ensures HistoryOf(MessagesJson(history)) == Some(history)
  {
    if history != [] {
      var items := MessagesJson(history);
      assert items == [MessageJson(history[0])] + MessagesJson(history[1..]);
      assert items[0] == MessageJson(history[0]);
      assert items[1..] == MessagesJson(history[1..]);
      MessageRoundTrip(history[0]);
      HistoryRoundTrip(history[1..]);
      assert [history[0]] + history[1..] == history;
    }
  }

  /**
   * The request body loses nothing: reading it back yields the configured
   * model name, the history with every role and content in the same order,
   * and `stream` set to true.
   */
  lemma RequestBodyRoundTrip(history: seq<Message>, modelName: string)
    ensures BodyContents(RequestBody(history, modelName)) == Some((modelName, history, true))
  {
    HistoryRoundTrip(history);
  }

  /**
   * The body has exactly the keys `model`, `messages` and `stream`, holding
   * the model name, an array as long as the history, and true.
   */
  lemma RequestBodyShape(history: seq<Message>, modelName: string)
    ensures
      var body := RequestBody(history, modelName);
      body.fields.Keys == {"model", "messages", "stream"}
      && body.fields["model"] == JString(modelName)
      && body.fields["stream"] == JBool(true)
      && body.fields["messages"].JArray?
      && |body.fields["messages"].items| == |history|
  {
  }

  /** Element i of the body's `messages` array carries the role and content of history[i]. */
  lemma RequestBodyElement(history: seq<Message>, modelName: string, i: int)
    requires 0 <= i < |history|
    ensures
      var items := RequestBody(history, modelName).fields["messages"].items;
      i < |items| && items[i] == MessageJson(history[i]) && MessageOf(items[i]) == Some(history[i])
  {
    MessageRoundTrip(history[i]);
  }
}
