/**
 * The JSON values the chains hand to the front end. A text reply is the
 * object {"type": "text", "content": ...}; a chart reply is an object with
 * "type": "chart" and the chart fields the answer prompt declares.
 */
module ChatReply {
  import opened Wrappers

  datatype Json =
    | JNull
    | JBool(b: bool)
    | JNumber(literal: string)
    | JString(s: string)
    | JArray(items: seq<Json>)
    | JObject(fields: map<string, Json>)

  /** The dict {"type": "text", "content": content}. */
  function TextReply(content: string): (r: Json)
    ensures r.JObject? && r.fields.Keys == {"type", "content"}
  {
    JObject(map["type" := JString("text"), "content" := JString(content)])
  }

  /** The text a reply carries, when it is a text reply. */
  function TextContent(reply: Json): Option<string> {
    if reply.JObject? && "type" in reply.fields && reply.fields["type"] == JString("text")
       && "content" in reply.fields && reply.fields["content"].JString?
    then Some(reply.fields["content"].s)
    else None
  }

  /** A text reply carries exactly the text it was built from. */
  lemma TextReplyContent(content: string)
    ensures TextContent(TextReply(content)) == Some(content)
  {
  }

  /** Different texts give different replies. */
  lemma TextReplyInjective(a: string, b: string)
    requires TextReply(a) == TextReply(b)
    ensures a == b
  {
    TextReplyContent(a);
    TextReplyContent(b);
  }
}
