/** The tool `improve_user_query_for_flux`: a system message holding the FLUX prompting guide and a user
    message holding the trigger word and the caller's query, sent to a chat model whose structured reply
    carries the improved prompt. */
module PromptTool {
  import opened Wrappers

  datatype Message = Message(role: string, content: string)

  /** What is sent to the chat model. */
  datatype ChatRequest = ChatRequest(model: string, messages: seq<Message>, temperature: real)

  const TriggerWord: string := "Esteban"
  const TriggerLabel: string := "trigger_word: "
  const QueryLabel: string := "\nquery: "

  /** The chat model's answer: the `prompt` field of the parsed reply, None when the reply held no parsed
      object, or the message of the exception the client raised. */
  type Complete = ChatRequest -> Result<Option<string>>

  /** The user message text: the trigger word, then the query. */
  function UserContent(triggerWord: string, userQuery: string): string
  {
    TriggerLabel + triggerWord + QueryLabel + userQuery
  }

  /** The two messages, system first; the system text is the prompting guide as given. */
  function ImproveMessages(systemPrompt: string, userQuery: string): (ms: seq<Message>)
    ensures |ms| == 2 && ms[0].role == "system" && ms[1].role == "user"
    ensures ms[0].content == systemPrompt
    ensures ms[1].content == "trigger_word: Esteban\nquery: " + userQuery
  {
    [Message("system", systemPrompt), Message("user", UserContent(TriggerWord, userQuery))]
  }

  /** `improve_user_query_for_flux(user_query)`, with the guide text and the chat call as parameters.
      Failures are not caught here: an `Err` is an exception leaving the tool. */
  function ImproveUserQueryForFlux(systemPrompt: string, userQuery: string, complete: Complete): (r: Result<string>)
    ensures var reply := complete(ChatRequest("gpt-4o", ImproveMessages(systemPrompt, userQuery), 0.7));
      && (reply.Ok? && reply.value.Some? <==> r.Ok?)
      && (r.Ok? ==> reply == Ok(Some(r.value)))
      && (reply.Err? ==> r == Err(reply.msg))
      && (reply == Ok(None) ==> r == Err("'NoneType' object has no attribute 'prompt'"))
  {
    match complete(ChatRequest("gpt-4o", ImproveMessages(systemPrompt, userQuery), 0.7))
    case Err(e) => Err(e)
    case Ok(None) => Err("'NoneType' object has no attribute 'prompt'")
    case Ok(Some(p)) => Ok(p)
  }

  /** The system message does not vary with the query, and the user message starts with the trigger-word
      label and the trigger word. */
  lemma TriggerInUserMessageOnly(systemPrompt: string, q1: string, q2: string)
    ensures ImproveMessages(systemPrompt, q1)[0] == ImproveMessages(systemPrompt, q2)[0]
    ensures ImproveMessages(systemPrompt, q1)[1].content[..|TriggerLabel| + |TriggerWord|] == TriggerLabel + TriggerWord
  {
  }

  /** The query can be read back from the user message: distinct queries give distinct messages. */
  lemma {:induction false} UserContentDeterminesQuery(q1: string, q2: string)
    requires UserContent(TriggerWord, q1) == UserContent(TriggerWord, q2)
    ensures q1 == q2
  {
    var n := |TriggerLabel + TriggerWord + QueryLabel|;
    assert UserContent(TriggerWord, q1)[n..] == q1;
    assert UserContent(TriggerWord, q2)[n..] == q2;
  }
}
