/** The reply normalisation of the Ollama-backed classifier: it turns
    whatever text the local model printed into a dict that always has the
    keys `intent`, `confidence`, `entities` and `response`. Running the
    `ollama` process is not modelled; its decoded stdout is the input. */
module GemmaNlu {
  import opened Common
  import opened Json
  import BraceSpan

  const Apology := "I'm sorry, I couldn't generate a specific response. How can I help you?"
  const Clarify := "I'm here to help! Could you please clarify your request or provide more details?"

  /** The four keys of every reply. */
  const ReplyKeys: set<string> := {"intent", "confidence", "entities", "response"}

  /** `_fallback()` */
  function Fallback(): (r: map<string, Json>)
    ensures r.Keys == ReplyKeys
  {
    map["intent" := JStr("unknown"), "confidence" := JNum(0.0),
        "entities" := JObj(map[]), "response" := JStr(Clarify)]
  }

  /** The reply used when the model printed prose and no JSON object. */
  function Conversation(text: string): (r: map<string, Json>)
    ensures r.Keys == ReplyKeys
  {
    map["intent" := JStr("general_conversation"), "confidence" := JNum(0.5),
        "entities" := JObj(map[]), "response" := JStr(text)]
  }

  /** `_normalize(parsed)`; `None` when it raises: `.get` on something that
      is not a dict, or `float()` rejecting the confidence. */
  function Normalize(rt: Runtime, parsed: Json): (r: Option<map<string, Json>>)
    ensures r.Some? <==> parsed.JObj? && ToFloat(rt, Get(parsed.fields, "confidence", JNum(0.5))).Some?
    ensures r.Some? ==> r.value.Keys == ReplyKeys && r.value["confidence"].JNum?
    ensures r.Some? ==> forall k :: k in ReplyKeys && k != "confidence" && k in parsed.fields ==> r.value[k] == parsed.fields[k]
    ensures r.Some? ==> r.value["confidence"] == JNum(ToFloat(rt, Get(parsed.fields, "confidence", JNum(0.5))).value)
    ensures r.Some? && "intent" !in parsed.fields ==> r.value["intent"] == JStr("unknown")
    ensures r.Some? && "confidence" !in parsed.fields ==> r.value["confidence"] == JNum(0.5)
    ensures r.Some? && "entities" !in parsed.fields ==> r.value["entities"] == JObj(map[])
    ensures r.Some? && "response" !in parsed.fields ==> r.value["response"] == JStr(Apology)
  {
    match parsed
    case JObj(d) =>
      (match ToFloat(rt, Get(d, "confidence", JNum(0.5)))
       case None => None
       case Some(c) =>
         Some(map["intent" := Get(d, "intent", JStr("unknown")),
                  "confidence" := JNum(c),
                  "entities" := Get(d, "entities", JObj(map[])),
                  "response" := Get(d, "response", JStr(Apology))]))
    case _ => None
  }

  /** `_safe_parse(raw_output)` */
  function SafeParse(rt: Runtime, raw: string): (r: map<string, Json>)
    ensures r.Keys == ReplyKeys && "error" !in r
    ensures r["confidence"].JNum?
    ensures BraceSpan.Extract(raw).None? && |Strip(Py, raw)| > 5 ==> r == Conversation(Strip(Py, raw))
    ensures BraceSpan.Extract(raw).None? && |Strip(Py, raw)| <= 5 ==> r == Fallback()
    ensures BraceSpan.Extract(raw).Some? && rt.loads(BraceSpan.Extract(raw).value).None? ==> r == Fallback()
    ensures forall p :: BraceSpan.Extract(raw).Some? && rt.loads(BraceSpan.Extract(raw).value) == Some(p) ==>
              r == (if Normalize(rt, p).Some? then Normalize(rt, p).value else Fallback())
  {
    match BraceSpan.Extract(raw)
    case None =>
      if raw != "" && |Strip(Py, raw)| > 5 then Conversation(Strip(Py, raw)) else Fallback()
    case Some(span) =>
      match rt.loads(span)
      case None => Fallback()
      case Some(parsed) =>
        match Normalize(rt, parsed)
        case None => Fallback()
        case Some(reply) => reply
  }

  /** A model that printed an object with a string intent and a numeric
      confidence is answered with that intent and that confidence, and keeps
      its own entities and response when it gave them. */
  lemma ParsedReplyKept(rt: Runtime, raw: string, fields: map<string, Json>, intent: string, c: real)
    requires BraceSpan.Extract(raw).Some? && rt.loads(BraceSpan.Extract(raw).value) == Some(JObj(fields))
    requires "intent" in fields && fields["intent"] == JStr(intent)
    requires "confidence" in fields && fields["confidence"] == JNum(c)
    ensures SafeParse(rt, raw)["intent"] == JStr(intent) && SafeParse(rt, raw)["confidence"] == JNum(c)
    ensures "entities" in fields ==> SafeParse(rt, raw)["entities"] == fields["entities"]
    ensures "response" in fields ==> SafeParse(rt, raw)["response"] == fields["response"]
  {
    assert Normalize(rt, JObj(fields)).Some?;
  }

  /** A parsed object with none of the keys gets every default: intent
      `unknown`, confidence 0.5, no entities and the apology text. */
  lemma NormalizeDefaults(rt: Runtime)
    ensures Normalize(rt, JObj(map[])) == Some(map["intent" := JStr("unknown"), "confidence" := JNum(0.5),
                                                    "entities" := JObj(map[]), "response" := JStr(Apology)])
  {
  }
}
