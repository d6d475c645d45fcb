/** The FastAPI back end's `/analyze` handler: which model and name to use,
    which API key, and how every failure turns into an HTTP error. The
    classifier's `predict` is a parameter. */
module Server {
  import opened Common
  import opened Json

  /** `load_config()`: the parsed YAML file, or `{}` when the file is
      missing (`None` here). */
  function LoadConfig(file: Option<Json>): (config: Json)
    ensures file.None? ==> config == JObj(map[])
    ensures file.Some? ==> config == file.value
  {
    match file
    case None => JObj(map[])
    case Some(j) => j
  }

  datatype AnalysisRequest = AnalysisRequest(
    message: string,
    modelType: string,
    modelName: Option<string>,
    apiKey: Option<string>,
    temperature: Option<real>)

  /** The model object the handler builds. */
  datatype ModelChoice =
    | Gemma(name: Json)
    | Gemini(name: Json, key: Json, temperature: Option<real>)

  /** What `str(e)` gives for an exception raised inside the handler's `try`. */
  datatype Detail =
    | HttpDetail(status: int, detail: Json)  // an HTTPException: "<status>: <detail>"
    | NoGetAttribute(receiver: Json)         // AttributeError from `.get` on a value that is not a dict
    | Raised(message: string)                // building the model or predicting raised

  /** The `HTTPException` the handler lets escape. */
  datatype HttpError = HttpError(status: int, detail: Detail)

  /** `config.get(section, {})` */
  function Section(config: Json, section: string): (r: Result<Json, Detail>)
    ensures !config.JObj? ==> r == Err(NoGetAttribute(config))
    ensures config.JObj? && section !in config.fields ==> r == Ok(JObj(map[]))
    ensures config.JObj? && section in config.fields ==> r == Ok(config.fields[section])
  {
    if config.JObj? then Ok(Get(config.fields, section, JObj(map[]))) else Err(NoGetAttribute(config))
  }

  /** `config.get(section, {}).get(key, default)` */
  function Setting(config: Json, section: string, key: string, default: Json): (r: Result<Json, Detail>)
    ensures !config.JObj? ==> r == Err(NoGetAttribute(config))
    ensures config.JObj? && section !in config.fields ==> r == Ok(default)
    ensures config.JObj? && section in config.fields && !config.fields[section].JObj? ==>
              r == Err(NoGetAttribute(config.fields[section]))
    ensures config.JObj? && section in config.fields && config.fields[section].JObj? ==>
              r == Ok(Get(config.fields[section].fields, key, default))
  {
    match Section(config, section)
    case Err(e) => Err(e)
    case Ok(s) => if s.JObj? then Ok(Get(s.fields, key, default)) else Err(NoGetAttribute(s))
  }

  /** `req.field or <configured value>`: a missing or empty request value
      falls through to the configuration, which is only read then. */
  function RequestOr(field: Option<string>, configured: Result<Json, Detail>): (r: Result<Json, Detail>)
    ensures Truthy(field) ==> r == Ok(JStr(field.value))
    ensures !Truthy(field) ==> r == configured
  {
    if Truthy(field) then Ok(JStr(field.value)) else configured
  }

  const InvalidKey := JStr("Invalid Gemini API Key")
  const UnknownType := JStr("Unknown model type")
  const PlaceholderKey := JStr("YOUR_GEMINI_API_KEY")

  /** The model the handler builds, or what it raises before predicting. */
  function ResolveModel(config: Json, req: AnalysisRequest): (r: Result<ModelChoice, Detail>)
    ensures req.modelType != "gemma" && req.modelType != "gemini" ==> r == Err(HttpDetail(400, UnknownType))
    ensures r.Ok? ==> (r.value.Gemma? <==> req.modelType == "gemma")
    ensures r.Ok? && r.value.Gemini? ==> PyTruthy(r.value.key) && r.value.key != PlaceholderKey
    ensures r.Ok? && Truthy(req.modelName) ==> r.value.name == JStr(req.modelName.value)
    ensures r.Ok? && r.value.Gemini? && Truthy(req.apiKey) ==> r.value.key == JStr(req.apiKey.value)
    // gemma: the request's name, else `ollama.model_name`, else `gemma`; only
    // reading the configuration can fail.
    ensures req.modelType == "gemma" && Truthy(req.modelName) ==> r == Ok(Gemma(JStr(req.modelName.value)))
    ensures req.modelType == "gemma" && !Truthy(req.modelName) ==>
              var name := Setting(config, "ollama", "model_name", JStr("gemma"));
              r == (if name.Ok? then Ok(Gemma(name.value)) else Err(name.error))
    // gemini: the name first, then the key, then the key check.
    ensures req.modelType == "gemini" ==>
              var name := RequestOr(req.modelName, Setting(config, "gemini", "model_name", JStr("gemini-1.5-flash")));
              var key := RequestOr(req.apiKey, Setting(config, "gemini", "api_key", JNull));
              && (name.Err? ==> r == Err(name.error))
              && (name.Ok? && key.Err? ==> r == Err(key.error))
              && (name.Ok? && key.Ok? && (!PyTruthy(key.value) || key.value == PlaceholderKey) ==>
                    r == Err(HttpDetail(400, InvalidKey)))
              && (name.Ok? && key.Ok? && PyTruthy(key.value) && key.value != PlaceholderKey ==>
                    r == Ok(Gemini(name.value, key.value, req.temperature)))
  {
    if req.modelType == "gemma" then
      match RequestOr(req.modelName, Setting(config, "ollama", "model_name", JStr("gemma")))
      case Err(e) => Err(e)
      case Ok(name) => Ok(Gemma(name))
    else if req.modelType == "gemini" then
      match RequestOr(req.modelName, Setting(config, "gemini", "model_name", JStr("gemini-1.5-flash")))
      case Err(e) => Err(e)
      case Ok(name) =>
        match RequestOr(req.apiKey, Setting(config, "gemini", "api_key", JNull))
        case Err(e) => Err(e)
        case Ok(key) =>
          if !PyTruthy(key) || key == PlaceholderKey then Err(HttpDetail(400, InvalidKey))
          else Ok(Gemini(name, key, req.temperature))
    else
      Err(HttpDetail(400, UnknownType))
  }

  /** `model.predict(message, intents_data)`: the reply dict, or the text of
      what it raised. */
  type Predictor = (ModelChoice, string) -> Result<map<string, Json>, string>

  /** `analyze_query(req)`: the classifier's reply, unchanged, or an HTTP
      error. The catch-all re-raises everything, the 400s included, as a
      500 whose detail is the text of the original exception. */
  function AnalyzeQuery(config: Json, req: AnalysisRequest, predict: Predictor): (r: Result<map<string, Json>, HttpError>)
    ensures r.Err? ==> r.error.status == 500
    ensures r.Ok? <==> ResolveModel(config, req).Ok?
                       && predict(ResolveModel(config, req).value, req.message).Ok?
                       && "error" !in predict(ResolveModel(config, req).value, req.message).value
    ensures r.Ok? ==> r.value == predict(ResolveModel(config, req).value, req.message).value
    ensures ResolveModel(config, req).Err? ==> r == Err(HttpError(500, ResolveModel(config, req).error))
  {
    match ResolveModel(config, req)
    case Err(e) => Err(HttpError(500, e))
    case Ok(model) =>
      match predict(model, req.message)
      case Err(m) => Err(HttpError(500, Raised(m)))
      case Ok(result) =>
        if "error" in result then Err(HttpError(500, HttpDetail(500, result["error"])))
        else Ok(result)
  }

  /** A reply carrying an `error` key becomes a 500 carrying that value. */
  lemma ErrorReplyBecomes500(config: Json, req: AnalysisRequest, predict: Predictor)
    requires ResolveModel(config, req).Ok?
    requires predict(ResolveModel(config, req).value, req.message).Ok?
    requires "error" in predict(ResolveModel(config, req).value, req.message).value
    ensures AnalyzeQuery(config, req, predict)
            == Err(HttpError(500, HttpDetail(500, predict(ResolveModel(config, req).value, req.message).value["error"])))
  {
  }

  /** Without a configuration file a Gemini request without its own key is
      refused before any prediction, whatever the predictor would say. */
  lemma NoConfigNoGeminiKey(req: AnalysisRequest, p: Predictor, q: Predictor)
    requires req.modelType == "gemini" && !Truthy(req.apiKey)
    ensures AnalyzeQuery(LoadConfig(None), req, p) == AnalyzeQuery(LoadConfig(None), req, q)
            == Err(HttpError(500, HttpDetail(400, InvalidKey)))
  {
  }

  /** Without a configuration file the built-in names apply. */
  lemma NoConfigDefaultNames(req: AnalysisRequest)
    requires !Truthy(req.modelName)
    ensures req.modelType == "gemma" ==> ResolveModel(LoadConfig(None), req) == Ok(Gemma(JStr("gemma")))
    ensures req.modelType == "gemini" && Truthy(req.apiKey) && req.apiKey.value != "YOUR_GEMINI_API_KEY" ==>
              ResolveModel(LoadConfig(None), req) == Ok(Gemini(JStr("gemini-1.5-flash"), JStr(req.apiKey.value), req.temperature))
  {
    assert Setting(JObj(map[]), "gemini", "model_name", JStr("gemini-1.5-flash")) == Ok(JStr("gemini-1.5-flash"));
    if req.modelType == "gemini" && Truthy(req.apiKey) && req.apiKey.value != "YOUR_GEMINI_API_KEY" {
      assert RequestOr(req.apiKey, Setting(JObj(map[]), "gemini", "api_key", JNull)) == Ok(JStr(req.apiKey.value));
      assert PyTruthy(JStr(req.apiKey.value));
    }
  }

  /** An empty configuration file loads as `None`: a request that names its
      model never reads it, one that does not fails on `.get`. */
  lemma EmptyConfigFile(req: AnalysisRequest)
    requires req.modelType == "gemma"
    ensures Truthy(req.modelName) ==> ResolveModel(LoadConfig(Some(JNull)), req).Ok?
    ensures !Truthy(req.modelName) ==> ResolveModel(LoadConfig(Some(JNull)), req) == Err(NoGetAttribute(JNull))
  {
  }

  /** A dict configuration with a dict `gemini` section and a real key
      serves a Gemini request that brings neither name nor key. */
  lemma ConfiguredGemini(config: Json, req: AnalysisRequest, section: map<string, Json>, key: string)
    requires req.modelType == "gemini" && !Truthy(req.modelName) && !Truthy(req.apiKey)
    requires config.JObj? && "gemini" in config.fields && config.fields["gemini"] == JObj(section)
    requires "api_key" in section && section["api_key"] == JStr(key) && key != "" && key != "YOUR_GEMINI_API_KEY"
    ensures ResolveModel(config, req) == Ok(Gemini(Get(section, "model_name", JStr("gemini-1.5-flash")), JStr(key), req.temperature))
  {
    assert PyTruthy(JStr(key)) && JStr(key) != PlaceholderKey;
  }

  /** The console sends `api_key: ''`, which is falsy, so the configured key
      is the one used. */
  lemma EmptyRequestKeyUsesConfig(config: Json, req: AnalysisRequest)
    requires req.modelType == "gemini" && req.apiKey == Some("")
    requires ResolveModel(config, req).Ok?
    ensures Setting(config, "gemini", "api_key", JNull).Ok?
    ensures ResolveModel(config, req).value.key == Setting(config, "gemini", "api_key", JNull).value
  {
  }
}
