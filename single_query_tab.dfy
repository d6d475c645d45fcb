/** The single-query tab: a conversation in which each submitted text adds
    the user's message and, once `/analyze` settles, one bot message. The
    awaited request is split into `Submit` (up to the `await`) and
    `Complete` (the rest of the handler, given how the request settled). */
module SingleQueryTab {
  import opened Common
  import opened ChatMessage

  /** The body posted to `/analyze`. */
  datatype AnalyzeRequest = AnalyzeRequest(message: string, modelType: string, modelName: string, apiKey: string)

  /** The reply's fields as the tab reads them; `None` is a field the
      reply lacks. */
  datatype AnalyzeResponse = AnalyzeResponse(
    intent: Option<string>,
    confidence: Option<real>,
    entities: Option<map<string, string>>)

  const ErrorContent := "Error analyzing message"

  /** The bot message added when the request settles: the submitted text
      with the reply's fields on success; on failure the fixed error
      message, intent `error`, confidence 0 and one `error` entity holding
      the exception's message (or `Unknown error`). */
  function Reply(text: string, outcome: Settled<AnalyzeResponse>): (m: Message)
    ensures m.role == Bot
    ensures outcome.Resolved? ==> m == Message(Bot, text, outcome.value.intent, outcome.value.confidence, outcome.value.entities)
    ensures outcome.Rejected? ==>
              && m.content == ErrorContent && m.intent == Some("error") && m.confidence == Some(0.0)
              && m.entities == Some(map["error" := ErrorText(outcome.thrown, "Unknown error")])
  {
    match outcome
    case Resolved(r) => Message(Bot, text, r.intent, r.confidence, r.entities)
    case Rejected(t) =>
      Message(Bot, ErrorContent, Some("error"), Some(0.0), Some(map["error" := ErrorText(t, "Unknown error")]))
  }

  class SingleQueryTab {
    var messages: seq<Message>
    var input: string
    var isLoading: bool

    constructor ()
      ensures messages == [] && input == "" && !isLoading
    {
      messages := [];
      input := "";
      isLoading := false;
    }

    /** Typing into the field. */
    method Type(text: string)
      modifies this
      ensures input == text
      ensures messages == old(messages) && isLoading == old(isLoading)
    {
      input := text;
    }

    /** `handleSubmit` up to the `await`. A blank input or a submit while
        loading does nothing and sends nothing. Otherwise the trimmed text
        becomes one new user message, the field is cleared, loading starts,
        and the request carries the trimmed text, the props and an empty
        key. */
    method Submit(modelType: string, modelName: string) returns (request: Option<AnalyzeRequest>)
      modifies this
      ensures Strip(Js, old(input)) == "" || old(isLoading) ==>
                request.None? && messages == old(messages) && input == old(input) && isLoading == old(isLoading)
      ensures Strip(Js, old(input)) != "" && !old(isLoading) ==>
                && request == Some(AnalyzeRequest(Strip(Js, old(input)), modelType, modelName, ""))
                && messages == old(messages) + [Message(User, Strip(Js, old(input)), None, None, None)]
                && input == "" && isLoading
    {
      var text := Strip(Js, input);
      if text == "" || isLoading {
        return None;
      }
      messages := messages + [Message(User, text, None, None, None)];
      input := "";
      isLoading := true;
      request := Some(AnalyzeRequest(text, modelType, modelName, ""));
    }

    /** The rest of `handleSubmit` once the request settled: one bot message
        is appended and loading ends. What was typed meanwhile stays. */
    method Complete(request: AnalyzeRequest, outcome: Settled<AnalyzeResponse>)
      modifies this
      ensures messages == old(messages) + [Reply(request.message, outcome)]
      ensures !isLoading && input == old(input)
    {
      messages := messages + [Reply(request.message, outcome)];
      isLoading := false;
    }

    /** A whole `handleSubmit` with nothing interleaved: an accepted submit
        grows the conversation by exactly two messages, the user's and the
        reply, and earlier messages are never touched. */
    method Exchange(modelType: string, modelName: string, outcome: Settled<AnalyzeResponse>)
      modifies this
      ensures Strip(Js, old(input)) == "" || old(isLoading) ==> messages == old(messages)
      ensures Strip(Js, old(input)) != "" && !old(isLoading) ==>
                && |messages| == |old(messages)| + 2
                && messages[..|old(messages)|] == old(messages)
                && messages[|old(messages)|] == Message(User, Strip(Js, old(input)), None, None, None)
                && messages[|old(messages)| + 1] == Reply(Strip(Js, old(input)), outcome)
                && !isLoading
    {
      var request := Submit(modelType, modelName);
      if request.Some? {
        Complete(request.value, outcome);
      }
    }
  }

  /** A successful reply is drawn with the user's own text as its raw line
      (not anything the model produced), and the reply's fields under
      their usual conditions. */
  lemma SuccessReplyRendering(text: string, r: AnalyzeResponse, showRaw: bool)
    ensures Render(Reply(text, Resolved(r)), showRaw).raw == (if showRaw then Some(text) else None)
    ensures Render(Reply(text, Resolved(r)), showRaw).intent.Some? <==> Truthy(r.intent)
  {
  }

  /** A failed request is drawn with the `error` intent badge, a red bar at
      0 and one `error` chip, whether or not the exception had a message. */
  lemma FailureReplyRendering(text: string, t: Thrown, showRaw: bool)
    ensures var b := Render(Reply(text, Rejected(t)), showRaw);
            && b.intent == Some("error")
            && b.confidence == Some(Bar(0.0, "bg-destructive"))
            && b.entities.Some? && b.entities.value.Keys == {"error"}
  {
  }
}
