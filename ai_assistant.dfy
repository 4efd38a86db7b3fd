/**
 * The study assistant's chat transcript. `handleSend` runs across an await:
 * `BeginSend` is the part before it, and `Complete` and `Fail` are the two
 * ways it resumes, with the reply text supplied by the caller.
 */
module AIAssistant {
  import opened Wrappers
  import opened Types
  import opened JsBuiltins

  /** What a send asks the chat service for: the transcript before the new message, and the message. */
  datatype ChatRequest = ChatRequest(history: seq<ChatMessage>, message: string)

  function UserMessage(text: string): ChatMessage {
    ChatMessage(User, [Part(text)])
  }

  function ModelMessage(text: string): ChatMessage {
    ChatMessage(Model, [Part(text)])
  }

  /** The send guard: some input that is not all white space, and no request in flight. */
  predicate CanSend(input: string, isLoading: bool)
    ensures CanSend(input, isLoading) ==> !isLoading && input != ""
  {
    Trim(input) != "" && !isLoading
  }

  /** A send goes out exactly when nothing is loading and the input has a character that is not white space. */
  lemma CanSendIffVisibleInput(input: string, isLoading: bool)
    ensures CanSend(input, isLoading) <==>
      !isLoading && exists i :: 0 <= i < |input| && !IsJsWhiteSpace(input[i])
  {
    TrimEmptyIffBlank(input);
  }

  /** The transcript after one whole exchange: the user's message, then the reply if one came back. */
  function Exchanged(history: seq<ChatMessage>, input: string, reply: Option<string>): seq<ChatMessage> {
    history + [UserMessage(input)] + (if reply.Some? then [ModelMessage(reply.value)] else [])
  }

  /**
   * An exchange only appends: the earlier transcript is kept as it was, the
   * user's text follows it, and the reply, when there is one, comes right after.
   */
  lemma ExchangeAppendsOnly(history: seq<ChatMessage>, input: string, reply: Option<string>)
    ensures var after := Exchanged(history, input, reply);
      after[..|history|] == history &&
      |after| == |history| + (if reply.Some? then 2 else 1) &&
      after[|history|] == UserMessage(input) &&
      (reply.Some? ==> after[|history| + 1] == ModelMessage(reply.value))
  {
    var after := Exchanged(history, input, reply);
    assert after[..|history|] == history;
  }

  class Assistant {
    var messages: seq<ChatMessage>
    var input: string
    var isLoading: bool

    /** While a request is in flight the transcript ends with the user's message. */
    ghost predicate Valid()
      reads this
    {
      isLoading ==> messages != [] && messages[|messages| - 1].role == User
    }

    constructor ()
      ensures Valid()
      ensures messages == [] && input == "" && !isLoading
    {
      messages, input, isLoading := [], "", false;
    }

    /** Typing in the input box. */
    method SetInput(text: string)
      requires Valid()
      modifies this
      ensures Valid()
      ensures input == text && messages == old(messages) && isLoading == old(isLoading)
    {
      input := text;
    }

    /**
     * `handleSend` up to the await: when the guard lets it through, the user's
     * message is appended, the input cleared, loading set, and the request
     * carries the transcript and input as they were before.
     */
    method BeginSend() returns (request: Option<ChatRequest>)
      requires Valid()
      modifies this
      ensures Valid()
      ensures !CanSend(old(input), old(isLoading)) ==>
        request == None &&
        messages == old(messages) && input == old(input) && isLoading == old(isLoading)
      ensures CanSend(old(input), old(isLoading)) ==>
        request == Some(ChatRequest(old(messages), old(input))) &&
        messages == old(messages) + [UserMessage(old(input))] && input == "" && isLoading
    {
      if Trim(input) == "" || isLoading {
        return None;
      }
      var text := input;
      var history := messages;
      messages := messages + [UserMessage(text)];
      input := "";
      isLoading := true;
      request := Some(ChatRequest(history, text));
    }

    /** The request resolved: exactly one model message with the reply, and loading ends. */
    method Complete(reply: string)
      requires Valid() && isLoading
      modifies this
      ensures Valid()
      ensures messages == old(messages) + [ModelMessage(reply)] && !isLoading && input == old(input)
    {
      messages := messages + [ModelMessage(reply)];
      isLoading := false;
    }

    /** The request threw: nothing is appended, and loading ends. */
    method Fail()
      requires Valid() && isLoading
      modifies this
      ensures Valid()
      ensures messages == old(messages) && !isLoading && input == old(input)
    {
      isLoading := false;
    }
  }

  /**
   * One whole `handleSend` from an idle assistant: the transcript becomes the
   * exchange of the typed input and the outcome (`None` for a thrown request).
   */
  method Send(assistant: Assistant, outcome: Option<string>) returns (request: Option<ChatRequest>)
    requires assistant.Valid() && !assistant.isLoading
    modifies assistant
    ensures assistant.Valid() && !assistant.isLoading
    ensures !CanSend(old(assistant.input), false) ==>
      request == None && assistant.messages == old(assistant.messages) && assistant.input == old(assistant.input)
    ensures CanSend(old(assistant.input), false) ==>
      request == Some(ChatRequest(old(assistant.messages), old(assistant.input))) &&
      assistant.messages == Exchanged(old(assistant.messages), old(assistant.input), outcome) &&
      assistant.input == ""
  {
    request := assistant.BeginSend();
    if request.None? {
      return;
    }
    match outcome
    case Some(reply) => assistant.Complete(reply);
    case None => assistant.Fail();
  }
}
