/** The reply normalisation of the Gemini-backed classifier. It differs from
    the Ollama one in three ways: no `response` key, no prose branch (text
    without a JSON object is the fallback), and an exception from the API
    call becomes a dict carrying an `error` key. The SDK call itself is not
    modelled; its outcome is the input. */
module GeminiNlu {
  import opened Common
  import opened Json
  import BraceSpan
  import GemmaNlu

  /** The three keys of a reply from a call that did not raise. */
  const ReplyKeys: set<string> := {"intent", "confidence", "entities"}

  /** How `client.models.generate_content(...)` ended: the reply text, or
      an exception whose `str()` is `message`. */
  datatype ApiCall = Replied(text: string) | Raised(message: string)

  /** `_fallback()` */
  function Fallback(): (r: map<string, Json>)
    ensures r.Keys == ReplyKeys
  {
    map["intent" := JStr("unknown"), "confidence" := JNum(0.0), "entities" := JObj(map[])]
  }

  /** `_normalize(parsed)`; `None` when it raises. */
  function Normalize(rt: Runtime, parsed: Json): (r: Option<map<string, Json>>)
    ensures r.Some? <==> parsed.JObj? && ToFloat(rt, Get(parsed.fields, "confidence", JNum(0.5))).Some?
    ensures r.Some? ==> r.value.Keys == ReplyKeys && r.value["confidence"].JNum?
    ensures r.Some? ==> forall k :: k in ReplyKeys && k != "confidence" && k in parsed.fields ==> r.value[k] == parsed.fields[k]
    ensures r.Some? ==> r.value["confidence"] == JNum(ToFloat(rt, Get(parsed.fields, "confidence", JNum(0.5))).value)
    ensures r.Some? && "intent" !in parsed.fields ==> r.value["intent"] == JStr("unknown")
    ensures r.Some? && "confidence" !in parsed.fields ==> r.value["confidence"] == JNum(0.5)
    ensures r.Some? && "entities" !in parsed.fields ==> r.value["entities"] == JObj(map[])
  {
    match parsed
    case JObj(d) =>
      (match ToFloat(rt, Get(d, "confidence", JNum(0.5)))
       case None => None
       case Some(c) =>
         Some(map["intent" := Get(d, "intent", JStr("unknown")),
                  "confidence" := JNum(c),
                  "entities" := Get(d, "entities", JObj(map[]))]))
    case _ => None
  }

  /** `_safe_parse(raw_output)` */
  function SafeParse(rt: Runtime, raw: string): (r: map<string, Json>)
    ensures r.Keys == ReplyKeys
    ensures BraceSpan.Extract(raw).None? ==> r == Fallback()
    ensures BraceSpan.Extract(raw).Some? && rt.loads(BraceSpan.Extract(raw).value).None? ==> r == Fallback()
    ensures forall p :: BraceSpan.Extract(raw).Some? && rt.loads(BraceSpan.Extract(raw).value) == Some(p) ==>
              r == (if Normalize(rt, p).Some? then Normalize(rt, p).value else Fallback())
  {
    match BraceSpan.Extract(raw)
    case None => Fallback()
    case Some(span) =>
      match rt.loads(span)
      case None => Fallback()
      case Some(parsed) =>
        match Normalize(rt, parsed)
        case None => Fallback()
        case Some(reply) => reply
  }

  /** `predict`, from the point where the API call has returned or raised. */
  function Predict(rt: Runtime, call: ApiCall): (r: map<string, Json>)
    ensures "error" in r <==> call.Raised?
    ensures call.Raised? ==> r.Keys == ReplyKeys + {"error"}
    ensures call.Raised? ==> r["error"] == JStr("Gemini error: " + call.message)
    ensures call.Raised? ==> r["intent"] == JStr("unknown") && r["confidence"] == JNum(0.0) && r["entities"] == JObj(map[])
    ensures call.Replied? ==> r.Keys == ReplyKeys && r == SafeParse(rt, call.text)
  {
    match call
    case Raised(m) =>
      map["intent" := JStr("unknown"), "confidence" := JNum(0.0),
          "entities" := JObj(map[]), "error" := JStr("Gemini error: " + m)]
    case Replied(text) => SafeParse(rt, text)
  }

  /** A reply text holding an object with a string intent and a numeric
      confidence is answered with that intent and that confidence. */
  lemma ParsedReplyKept(rt: Runtime, text: string, fields: map<string, Json>, intent: string, c: real)
    requires BraceSpan.Extract(text).Some? && rt.loads(BraceSpan.Extract(text).value) == Some(JObj(fields))
    requires "intent" in fields && fields["intent"] == JStr(intent)
    requires "confidence" in fields && fields["confidence"] == JNum(c)
    ensures Predict(rt, Replied(text))["intent"] == JStr(intent)
    ensures Predict(rt, Replied(text))["confidence"] == JNum(c)
    ensures "entities" in fields ==> Predict(rt, Replied(text))["entities"] == fields["entities"]
    ensures "error" !in Predict(rt, Replied(text))
  {
    assert Normalize(rt, JObj(fields)).Some?;
  }

  /** Prose without a `{`, which the Ollama wrapper answers as
      `general_conversation` when it is longer than five characters, is the
      plain fallback here. */
  lemma ProseIsFallback(rt: Runtime, text: string)
    requires forall k :: 0 <= k < |text| ==> text[k] != '{'
    ensures Predict(rt, Replied(text)) == Fallback()
    ensures |Strip(Py, text)| > 5 ==> GemmaNlu.SafeParse(rt, text) == GemmaNlu.Conversation(Strip(Py, text))
  {
    assert FirstIndex(text, '{').None?;
  }
}
