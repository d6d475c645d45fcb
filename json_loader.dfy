/** `load_intents(json_path)`: reads the intent schema file and checks that
    it has an `intents` list whose every entry has a `name` and at least one
    example. The file system and `json.load` are inputs: the file is missing,
    unparsable, or parsed to a JSON value. */
module JsonLoader {
  import opened Common
  import opened Json

  datatype FileContent = Missing | Unparsable | Parsed(data: Json)

  /** What `load_intents` raises. `TypeError` stands for every error Python
      raises when the data has the wrong type for an operation (`in` on a
      number, a string subscripted by a key, `len` of a number). */
  datatype LoadError =
    | FileNotFound(path: string)
    | DecodeError
    | IntentsMissing
    | NameMissing
    | NoExamples(name: Json)
    | TypeError

  /** The text of the `FileNotFoundError` and `ValueError`s the loader raises
      itself; `None` for the others, and for a name that is not a string,
      whose `str()` is not modelled. */
  function Message(e: LoadError): (m: Option<string>)
    ensures e.FileNotFound? ==> m == Some("File not found: " + e.path)
    ensures e == IntentsMissing ==> m == Some("Invalid schema: 'intents' key missing")
    ensures e == NameMissing ==> m == Some("Each intent must have a 'name'")
    ensures e.NoExamples? && e.name.JStr? ==> m == Some("Intent '" + e.name.s + "' has no examples")
    ensures m.Some? <==> !(e == DecodeError || e == TypeError || (e.NoExamples? && !e.name.JStr?))
  {
    match e
    case FileNotFound(p) => Some("File not found: " + p)
    case IntentsMissing => Some("Invalid schema: 'intents' key missing")
    case NameMissing => Some("Each intent must have a 'name'")
    case NoExamples(JStr(n)) => Some("Intent '" + n + "' has no examples")
    case _ => None
  }

  /** What the loader accepts as one intent: a dict with a `name` and an
      `examples` value of length at least 1. */
  predicate ValidIntent(intent: Json)
  {
    && intent.JObj?
    && "name" in intent.fields
    && "examples" in intent.fields
    && PyLen(intent.fields["examples"]).Some?
    && PyLen(intent.fields["examples"]).value >= 1
  }

  /** The body of the loop for one intent: the name check, then the
      examples check. `None` when the intent passes. */
  function CheckIntent(intent: Json): (r: Option<LoadError>)
    ensures r.None? <==> ValidIntent(intent)
    ensures Contains(intent, "name") == Some(false) ==> r == Some(NameMissing)
    ensures intent.JObj? && "name" in intent.fields && r.Some? ==> r == Some(NoExamples(intent.fields["name"])) || r == Some(TypeError)
  {
    match Contains(intent, "name")
    case None => Some(TypeError)
    case Some(false) => Some(NameMissing)
    case Some(true) =>
      match Contains(intent, "examples")
      case None => Some(TypeError)
      case Some(false) =>
        (match Subscript(intent, "name")
         case None => Some(TypeError)
         case Some(n) => Some(NoExamples(n)))
      case Some(true) =>
        match Subscript(intent, "examples")
        case None => Some(TypeError)
        case Some(examples) =>
          match PyLen(examples)
          case None => Some(TypeError)
          case Some(n) =>
            if n >= 1 then None
            else
              match Subscript(intent, "name")
              case None => Some(TypeError)
              case Some(name) => Some(NoExamples(name))
  }

  /** The first intent that fails its check, and how. */
  datatype Failure = Failure(index: nat, error: LoadError)

  /** The loop over the intents, in list order, stopping at the first
      failure. */
  function CheckAll(intents: seq<Json>): (r: Option<Failure>)
    ensures r.None? <==> forall i :: 0 <= i < |intents| ==> ValidIntent(intents[i])
    ensures r.Some? ==> r.value.index < |intents| && CheckIntent(intents[r.value.index]) == Some(r.value.error)
    ensures r.Some? ==> forall i :: 0 <= i < r.value.index ==> ValidIntent(intents[i])
  {
    if intents == [] then None
    else
      match CheckIntent(intents[0])
      case Some(e) => Some(Failure(0, e))
      case None =>
        match CheckAll(intents[1..])
        case None => None
        case Some(f) => Some(Failure(f.index + 1, f.error))
  }

  /** What a successful load guarantees: a dict whose `intents` is a list
      (or another iterable) of valid intents. */
  predicate ValidSchema(rt: Runtime, data: Json)
  {
    && data.JObj?
    && "intents" in data.fields
    && Iterate(rt, data.fields["intents"]).Some?
    && forall i :: 0 <= i < |Iterate(rt, data.fields["intents"]).value| ==>
         ValidIntent(Iterate(rt, data.fields["intents"]).value[i])
  }

  /** `load_intents(path)`: the parsed data, unchanged, when it is valid. */
  function LoadIntents(rt: Runtime, path: string, file: FileContent): (r: Result<Json, LoadError>)
    ensures file.Missing? ==> r == Err(FileNotFound(path))
    ensures file.Unparsable? ==> r == Err(DecodeError)
    ensures file.Parsed? && file.data.JObj? && "intents" !in file.data.fields ==> r == Err(IntentsMissing)
    ensures r.Ok? ==> file == Parsed(r.value)
    ensures file.Parsed? ==> (r.Ok? <==> ValidSchema(rt, file.data))
  {
    match file
    case Missing => Err(FileNotFound(path))
    case Unparsable => Err(DecodeError)
    case Parsed(data) =>
      match Contains(data, "intents")
      case None => Err(TypeError)
      case Some(false) => Err(IntentsMissing)
      case Some(true) =>
        match Subscript(data, "intents")
        case None => Err(TypeError)
        case Some(intents) =>
          match Iterate(rt, intents)
          case None => Err(TypeError)
          case Some(xs) =>
            match CheckAll(xs)
            case Some(f) => Err(f.error)
            case None => Ok(data)
  }

  /** The error reported concerns the first offending intent: every intent
      before it is valid, and it fails the name check when it has no name. */
  lemma {:induction false} ReportsFirstOffender(rt: Runtime, path: string, data: Json, j: nat)
    requires data.JObj? && "intents" in data.fields && data.fields["intents"].JArr?
    requires j < |data.fields["intents"].items|
    requires forall i :: 0 <= i < j ==> ValidIntent(data.fields["intents"].items[i])
    requires data.fields["intents"].items[j] == JObj(map[])
    ensures LoadIntents(rt, path, Parsed(data)) == Err(NameMissing)
  {
    var xs := data.fields["intents"].items;
    CheckAllStopsAt(xs, j);
  }

  lemma {:induction false} CheckAllStopsAt(xs: seq<Json>, j: nat)
    requires j < |xs| && CheckIntent(xs[j]).Some?
    requires forall i :: 0 <= i < j ==> ValidIntent(xs[i])
    ensures CheckAll(xs) == Some(Failure(j, CheckIntent(xs[j]).value))
  {
    if j > 0 {
      CheckAllStopsAt(xs[1..], j - 1);
    }
  }
}
