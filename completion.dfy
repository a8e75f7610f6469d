/**
 * The request to the chat-completion endpoint (`get_llm_response`): the message
 * list it sends and the text it hands back. The HTTP exchange itself is not
 * modelled; its outcome is a value.
 */
module Completion {
  import opened Wrappers

  datatype Role = System | User | Assistant

  /** One `{"role": ..., "content": ...}` record. */
  datatype Message = Message(role: Role, content: string)

  const SystemPrompt := "You are a helpful assistant."
  const ErrorPrefix := "Error communicating with the API: "

  /**
   * How one POST ends: a reply whose `choices[0].message.content` is `content`;
   * a `RequestException` (connection, timeout, HTTP status, undecodable JSON)
   * whose text is `detail`; or a decoded body without that field, whose lookup
   * raises, inside the `try`, an error (`KeyError`, `IndexError`, `TypeError`)
   * that the `except RequestException` clause does not catch, so it is not
   * turned into text.
   */
  datatype CallOutcome = Replied(content: string) | RequestFailed(detail: string) | MalformedReply

  /** The `messages` list of the payload: the system turn, the history, then the new user turn. */
  function Payload(history: seq<Message>, promptText: string): (r: seq<Message>)
    ensures |r| == |history| + 2
    ensures r[0] == Message(System, SystemPrompt)
    ensures r[1..|r| - 1] == history
    ensures r[|r| - 1] == Message(User, promptText)
  {
    [Message(System, SystemPrompt)] + history + [Message(User, promptText)]
  }

  /**
   * The string `get_llm_response` returns, or `None` when it raises instead.
   * A request failure still gives a string: the error message.
   */
  function ReplyText(outcome: CallOutcome): (r: Option<string>)
    ensures r.None? <==> outcome.MalformedReply?
    ensures outcome.Replied? ==> r == Some(outcome.content)
    ensures outcome.RequestFailed? ==>
      r.Some? && |r.value| >= |ErrorPrefix| && r.value[..|ErrorPrefix|] == ErrorPrefix && r.value[|ErrorPrefix|..] == outcome.detail
  {
    match outcome
    case Replied(content) => Some(content)
    case RequestFailed(detail) => Some(ErrorPrefix + detail)
    case MalformedReply => None
  }
}
