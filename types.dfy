/** The shared vocabulary of the chat front-end: the persona enumeration and
    the conversation turn (types.ts), plus the Option and Result wrappers the
    rest of the model uses for absent values and thrown errors. */
module Types {

  datatype Option<+T> = None | Some(value: T)

  /** A value, or the error a call threw. */
  datatype Result<+T, +E> = Success(value: T) | Failure(error: E)

  /** The closed set of personas the selector offers. */
  datatype ModelId = Gemini3 | ChatGpt | Grok | DeepSeek {
    /** The string the enum member stands for at run time; the persona
        lookups switch on this value. */
    function Code(): (c: string)
      ensures c != ""
    {
      match this
      case Gemini3 => "gemini-3"
      case ChatGpt => "chatgpt"
      case Grok => "grok"
      case DeepSeek => "deepseek"
    }
  }

  /** Distinct personas have distinct run-time codes, so a lookup on the code
      sees which persona was selected. */
  lemma CodeInjective(a: ModelId, b: ModelId)
    ensures a.Code() == b.Code() ==> a == b
  {
  }

  datatype Role = User | Assistant | System

  /** One turn of the conversation. `id` is unique within a conversation;
      `modelUsed` tags the assistant turns with the persona that answered. */
  datatype Message = Message(
    role: Role,
    content: string,
    id: nat,
    timestamp: nat,
    modelUsed: Option<ModelId>)
}
