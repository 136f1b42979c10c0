/** What the chat-completion request hands back to both scripts. The request
    itself is network I/O: its answer is a parameter here. */
module Completion {
  import opened JsonValue

  /** The request either answers, with message content that may be `None`,
      or raises. */
  datatype Reply = Answered(content: Option<string>) | TransportError

  /** `resp.choices[0].message.content or "{}"`: missing or empty content
      becomes the empty JSON object; any other content is kept as it is. */
  function ContentText(content: Option<string>): (text: string)
    ensures |text| > 0
    ensures content.Some? && content.value != "" ==> text == content.value
    ensures text == "{}" <==> content == None || content == Some("") || content == Some("{}")
  {
    match content
    case Some(c) => if c == "" then "{}" else c
    case None => "{}"
  }
}
