/**
 * The server-sent-events line decoder used by `streamResponse`: a response
 * line carries a chat-completion chunk when it starts with `data: `, space
 * included, and the text fragment is `choices[0].delta.content`. This is
 * narrower than the field rule of section 9.2, "Server-sent events", of the
 * WHATWG HTML Living Standard, where the space after `data:` is optional: a
 * line such as `data:{...}` is skipped here. The JSON text parser is a
 * parameter.
 */
module Sse {
  import opened Wrappers
  import opened JsonValues
  import opened Text

  const DataPrefix: string := "data: "
  const DoneLine: string := "data: [DONE]"

  /** What one line contributes: nothing, or a piece of the assistant's text. */
  datatype Delta = Skip | Fragment(text: string)

  /** The text a delta adds to the buffer. */
  function DeltaText(d: Delta): string {
    match d
    case Skip => ""
    case Fragment(t) => t
  }

  /** Where the fragment sits in a chunk: `choices[0].delta.content`. */
  const ContentPath: seq<Step> := [Key("choices"), Index(0), Key("delta"), Key("content")]

  /**
   * The `guard let` chain of the decoder: the chunk is a dictionary whose
   * `choices` is an array of dictionaries with a first element, whose
   * `delta` is a dictionary, whose `content` is a string.
   */
  function ContentOf(chunk: Json): Option<string> {
    if !chunk.JObject? || "choices" !in chunk.fields then None
    else
      var choices := chunk.fields["choices"];
      if !choices.JArray? || !AllObjects(choices.items) || |choices.items| == 0 then None
      else
        var firstChoice := choices.items[0];
        if "delta" !in firstChoice.fields then None
        else
          var delta := firstChoice.fields["delta"];
          if !delta.JObject? || "content" !in delta.fields then None
          else
            var content := delta.fields["content"];
            if content.JString? then Some(content.text) else None
  }

  /**
   * A chunk yields the fragment `t` exactly when the string `t` sits at
   * `choices[0].delta.content` and every element of `choices` is an object.
   */
  lemma ContentOfIff(chunk: Json, t: string)
    ensures ContentOf(chunk) == Some(t) <==>
      Get(chunk, ContentPath) == Some(JString(t))
      && chunk.fields["choices"].JArray? && AllObjects(chunk.fields["choices"].items)
  {
  }

  /** One line of the streamed body turned into a delta. */
  function DecodeLine(line: string, parse: string -> Option<Json>): (d: Delta)
    ensures !HasPrefix(line, DataPrefix) ==> d == Skip
    ensures line == DoneLine ==> d == Skip
  {
    if !HasPrefix(line, DataPrefix) || line == DoneLine then Skip
    else
      match parse(line[|DataPrefix|..])
      case None => Skip
      case Some(chunk) =>
        match ContentOf(chunk)
        case None => Skip
        case Some(t) => Fragment(t)
  }

  /**
   * A line yields a fragment exactly when it is a `data: ` line other than
   * `data: [DONE]` whose remainder after the six-character prefix parses to a
   * chunk carrying that content.
   */
  lemma DecodeFragmentIff(line: string, parse: string -> Option<Json>, t: string)
    ensures DecodeLine(line, parse) == Fragment(t) <==>
      HasPrefix(line, DataPrefix) && line != DoneLine
      && parse(line[6..]).Some? && ContentOf(parse(line[6..]).value) == Some(t)
  {
  }

  /** The chunk `{"choices":[{"delta":{"content":"Hi"}}]}`. */
  const HiChunk: Json :=
    JObject(map["choices" := JArray([JObject(map["delta" := JObject(map["content" := JString("Hi")])])])])

  /**
   * `data: ` followed by any JSON object text that parses to `HiChunk`
   * (such as `{"choices":[{"delta":{"content":"Hi"}}]}`) yields `Hi`.
   */
  lemma DecodeExample(payload: string, parse: string -> Option<Json>)
    requires |payload| > 0 && payload[0] == '{' && parse(payload) == Some(HiChunk)
    ensures DecodeLine(DataPrefix + payload, parse) == Fragment("Hi")
  {
  }

  /** What the read loop appends to the buffer for `lines`: the fragments in arrival order. */
  function Fragments(lines: seq<string>, parse: string -> Option<Json>): string {
    if lines == [] then "" else DeltaText(DecodeLine(lines[0], parse)) + Fragments(lines[1..], parse)
  }

  /** Processing two batches of lines one after the other concatenates their fragments. */
  lemma {:induction false} FragmentsAppend(a: seq<string>, b: seq<string>, parse: string -> Option<Json>)
    ensures Fragments(a + b, parse) == Fragments(a, parse) + Fragments(b, parse)
  {
    if a == [] {
      assert a + b == b;
    } else {
      assert (a + b)[1..] == a[1..] + b;
      FragmentsAppend(a[1..], b, parse);
    }
  }

  /** The buffer after one more line: the line's fragment goes at the end. */
  lemma FragmentsSnoc(lines: seq<string>, line: string, parse: string -> Option<Json>)
    ensures Fragments(lines + [line], parse) == Fragments(lines, parse) + DeltaText(DecodeLine(line, parse))
  {
    FragmentsAppend(lines, [line], parse);
  }

  /** A skipped line leaves the buffer as it was, wherever it occurs. */
  lemma FragmentsSkipLine(a: seq<string>, line: string, b: seq<string>, parse: string -> Option<Json>)
    requires DecodeLine(line, parse) == Skip
    ensures Fragments(a + [line] + b, parse) == Fragments(a + b, parse)
  {
    FragmentsAppend(a + [line], b, parse);
    FragmentsAppend(a, [line], parse);
    FragmentsAppend(a, b, parse);
  }

  /** `data: [DONE]` does not end the read: fragments after it are still accumulated. */
  lemma DoneDoesNotStop(a: seq<string>, b: seq<string>, parse: string -> Option<Json>)
    ensures Fragments(a + [DoneLine] + b, parse) == Fragments(a, parse) + Fragments(b, parse)
  {
    FragmentsSkipLine(a, DoneLine, b, parse);
    FragmentsAppend(a, b, parse);
  }
}
