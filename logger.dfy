/** The query history of the back end: `log_query` appends one JSON entry
    per line to `logs/history.jsonl`, and `read_logs` reads them back in the
    shape the console's history tab shows, newest first. The file is a
    `LogFile` object; the clock reading is a parameter. */
module Logger {
  import opened Common
  import opened Json

  /** The entry `log_query` writes. The logged intent comes from a dict
      result only (`unknown` otherwise or when absent), the confidence too
      (`None` otherwise), and the model is `model_name` unless that is
      missing or empty. */
  function Entry(timestamp: string, message: string, modelType: string, result: Json, modelName: Option<string>): (e: Json)
    ensures e.JObj? && e.fields.Keys == {"timestamp", "message", "model_type", "model", "intent", "confidence", "result"}
    ensures e.fields["model"] == JStr(if Truthy(modelName) then modelName.value else modelType)
    ensures e.fields["intent"] == (if result.JObj? && "intent" in result.fields then result.fields["intent"] else JStr("unknown"))
    ensures !result.JObj? ==> e.fields["confidence"] == JNull
    ensures e.fields["result"] == result && e.fields["message"] == JStr(message)
  {
    var intent := if result.JObj? then Get(result.fields, "intent", JStr("unknown")) else JStr("unknown");
    var confidence := if result.JObj? then Get(result.fields, "confidence", JNull) else JNull;
    var model := if Truthy(modelName) then modelName.value else modelType;
    JObj(map["timestamp" := JStr(timestamp), "message" := JStr(message), "model_type" := JStr(modelType),
             "model" := JStr(model), "intent" := intent, "confidence" := confidence, "result" := result])
  }

  /** One row of the history as `read_logs` returns it. */
  datatype LogItem = LogItem(timestamp: Json, input: Json, model: Json, intent: Json, confidence: Json)

  /** `to_item(l)`; `None` when it raises: `l` is not a dict, or the entry
      has no confidence and its `result` is truthy but not a dict. */
  function ToItem(l: Json): (r: Option<LogItem>)
    ensures r.Some? <==> l.JObj? && (Get(l.fields, "confidence", JNull) != JNull
                                    || PyOr(Get(l.fields, "result", JNull), JObj(map[])).JObj?)
    ensures r.Some? ==> r.value.input == PyOr(Get(l.fields, "message", JNull), Get(l.fields, "input", JNull))
    ensures r.Some? ==> r.value.model == PyOr(Get(l.fields, "model", JNull), Get(l.fields, "model_type", JNull))
    ensures r.Some? ==> r.value.timestamp == Get(l.fields, "timestamp", JNull) && r.value.intent == Get(l.fields, "intent", JNull)
    ensures r.Some? && Get(l.fields, "confidence", JNull) != JNull ==> r.value.confidence == l.fields["confidence"]
    ensures r.Some? && Get(l.fields, "confidence", JNull) == JNull ==>
              r.value.confidence == Get(PyOr(Get(l.fields, "result", JNull), JObj(map[])).fields, "confidence", JNull)
  {
    match l
    case JObj(d) =>
      var confidence := Get(d, "confidence", JNull);
      var item := LogItem(Get(d, "timestamp", JNull),
                          PyOr(Get(d, "message", JNull), Get(d, "input", JNull)),
                          PyOr(Get(d, "model", JNull), Get(d, "model_type", JNull)),
                          Get(d, "intent", JNull),
                          confidence);
      if confidence != JNull then Some(item)
      else
        var result := PyOr(Get(d, "result", JNull), JObj(map[]));
        if result.JObj? then Some(item.(confidence := Get(result.fields, "confidence", JNull))) else None
    case _ => None
  }

  /** An entry logged without a confidence of its own shows the confidence
      its stored result carries. */
  lemma ConfidenceFromResult(c: Json)
    requires c != JNull
    ensures var l := JObj(map["confidence" := JNull, "result" := JObj(map["confidence" := c])]);
            ToItem(l).Some? && ToItem(l).value.confidence == c
  {
  }

  /** `[to_item(l) for l in logs]`: every item, or `None` if any raises. */
  function ToItems(ls: seq<Json>): (r: Option<seq<LogItem>>)
    ensures r.Some? <==> forall i :: 0 <= i < |ls| ==> ToItem(ls[i]).Some?
    ensures r.Some? ==> |r.value| == |ls| && forall i :: 0 <= i < |ls| ==> r.value[i] == ToItem(ls[i]).value
  {
    if ls == [] then Some([])
    else
      match ToItem(ls[0])
      case None => None
      case Some(x) =>
        match ToItems(ls[1..])
        case None => None
        case Some(xs) => Some([x] + xs)
  }

  /** `s[::-1]` */
  function Reverse<T>(s: seq<T>): (r: seq<T>)
    ensures |r| == |s| && forall i :: 0 <= i < |s| ==> r[i] == s[|s| - 1 - i]
  {
    if s == [] then [] else Reverse(s[1..]) + [s[0]]
  }

  /** Where Python's `s[-limit:]` starts in a list of length `n`: a
      positive limit keeps the last `limit`, while `-0` is `0` and so keeps
      everything, and a negative limit drops the first `-limit`. */
  function TailStart(n: nat, limit: int): (k: nat)
    ensures k <= n
  {
    if limit > 0 then (if limit >= n then 0 else n - limit)
    else if -limit >= n then n
    else -limit
  }

  /** `items[-limit:][::-1]`: a tail of the history, newest first. */
  function NewestFirst<T>(items: seq<T>, limit: int): (r: seq<T>)
    ensures |r| <= |items|
    ensures limit > 0 ==> |r| == (if limit < |items| then limit else |items|)
    ensures limit == 0 ==> |r| == |items|
    ensures limit < 0 ==> |r| == (if |items| + limit > 0 then |items| + limit else 0)
    ensures forall i :: 0 <= i < |r| ==> r[i] == items[|items| - 1 - i]
  {
    Reverse(items[TailStart(|items|, limit)..])
  }

  /** The history file. `present` is false until the first entry is written. */
  class LogFile {
    var present: bool
    var entries: seq<Json>

    /** A deployment with no history yet. */
    constructor ()
      ensures !present && entries == []
    {
      present := false;
      entries := [];
    }

    /** `log_query(...)`: creates the file if needed and appends one entry. */
    method LogQuery(timestamp: string, message: string, modelType: string, result: Json, modelName: Option<string>)
      modifies this
      ensures present
      ensures entries == old(entries) + [Entry(timestamp, message, modelType, result, modelName)]
    {
      present := true;
      entries := entries + [Entry(timestamp, message, modelType, result, modelName)];
    }

    /** `read_logs(limit)`: `[]` without a file; otherwise the last `limit`
        entries newest first, or `None` when shaping an entry raises. */
    function ReadLogs(limit: int): (r: Option<seq<LogItem>>)
      reads this
      ensures !present ==> r == Some([])
      ensures present ==> (r.Some? <==> forall i :: 0 <= i < |entries| ==> ToItem(entries[i]).Some?)
      ensures present && r.Some? && limit > 0 ==> |r.value| == (if limit < |entries| then limit else |entries|)
      ensures present && r.Some? ==> |r.value| <= |entries|
      ensures present && r.Some? ==>
                forall i :: 0 <= i < |r.value| ==> r.value[i] == ToItem(entries[|entries| - 1 - i]).value
    {
      if !present then Some([])
      else
        match ToItems(entries)
        case None => None
        case Some(items) => Some(NewestFirst(items, limit))
    }
  }

  /** An entry logged for a dict result reads back with the message as its
      input, the logged model, the result's intent and the result's own
      confidence; a confidence of 0 is kept, not replaced. */
  lemma ItemOfDictEntry(timestamp: string, message: string, modelType: string, result: Json, modelName: Option<string>)
    requires result.JObj?
    ensures ToItem(Entry(timestamp, message, modelType, result, modelName)) == Some(LogItem(
              JStr(timestamp),
              if message != "" then JStr(message) else JNull,
              JStr(if Truthy(modelName) then modelName.value else modelType),
              Get(result.fields, "intent", JStr("unknown")),
              Get(result.fields, "confidence", JNull)))
  {
    var e := Entry(timestamp, message, modelType, result, modelName);
    assert Get(e.fields, "input", JNull) == JNull;
    var m := if Truthy(modelName) then modelName.value else modelType;
    if m == "" {
      assert modelType == "";
    }
  }

  /** `log_query` accepts a result that is not a dict, but once a truthy one
      is in the file every `read_logs` call raises. */
  lemma NonDictResultBreaksReading(timestamp: string, message: string, modelType: string, result: Json, modelName: Option<string>,
                                   before: seq<Json>, limit: int)
    requires !result.JObj? && PyTruthy(result)
    ensures ToItem(Entry(timestamp, message, modelType, result, modelName)).None?
    ensures ToItems(before + [Entry(timestamp, message, modelType, result, modelName)]).None?
  {
    var e := Entry(timestamp, message, modelType, result, modelName);
    var ls := before + [e];
    assert ls[|ls| - 1] == e;
  }

  /** A limit of 0 returns the whole history, because `-0` is `0`. */
  lemma ZeroLimitIsEverything<T>(items: seq<T>)
    ensures NewestFirst(items, 0) == Reverse(items)
  {
  }
}
