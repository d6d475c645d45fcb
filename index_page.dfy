/** The console's page: the session settings shared by the sidebar and the
    single-query tab, the configuration merge run once on mount, and the
    routing from the active tab to its content. */
module IndexPage {
  import opened Common
  import opened Json
  import Server

  /** JavaScript truthiness of a value that may be `undefined` (`None`). */
  predicate JsTruthy(v: Option<Json>)
  {
    match v
    case None => false
    case Some(JNull) => false
    case Some(JBool(b)) => b
    case Some(JNum(x)) => x != 0.0
    case Some(JStr(s)) => s != ""
    case Some(JArr(_)) => true
    case Some(JObj(_)) => true
  }

  /** `v.key` on a parsed JSON value: `undefined` and `null` throw a
      `TypeError` (`Err`); an object yields the member or `undefined`; any
      other value has no such member. */
  function Member(v: Option<Json>, key: string): (r: Result<Option<Json>, ()>)
    ensures r.Err? <==> v.None? || v == Some(JNull)
    ensures r.Ok? && r.value.Some? <==> v.Some? && v.value.JObj? && key in v.value.fields
    ensures r.Ok? && r.value.Some? ==> r.value.value == v.value.fields[key]
  {
    match v
    case None => Err(())
    case Some(JNull) => Err(())
    case Some(JObj(f)) => Ok(if key in f then Some(f[key]) else None)
    case Some(_) => Ok(None)
  }

  /** `config.section.key`: the inner access only runs when the outer one
      did not throw. */
  function Path(config: Json, section: string, key: string): Result<Option<Json>, ()>
  {
    match Member(Some(config), section)
    case Err(e) => Err(e)
    case Ok(s) => Member(s, key)
  }

  /** What the main area shows. */
  datatype TabContent =
    | SingleQuery(modelType: Json, modelName: Json, showRawPrompt: bool)
    | Batch
    | Evaluation
    | Schema
    | Comparison
    | Nothing

  /** The tabs the header offers, in its order. */
  const HeaderTabs: seq<string> := ["query", "batch", "evaluation", "schema", "comparison", "history"]

  class IndexPage {
    var activeTab: string
    var modelType: Json
    var ollamaModelName: Json
    var showRawPrompt: bool

    constructor ()
      ensures activeTab == "query" && modelType == JStr("gemma")
      ensures ollamaModelName == JStr("gemma3") && !showRawPrompt
    {
      activeTab := "query";
      modelType := JStr("gemma");
      ollamaModelName := JStr("gemma3");
      showRawPrompt := false;
    }

    /** `loadConfig` once `/config` settled. A truthy `llm.default_model`
        replaces the model type, then a truthy `ollama.model_name` replaces
        the model name. The first access that throws ends the merge and is
        swallowed, but what was set before it stays; a failed request
        changes nothing. */
    method LoadConfig(outcome: Settled<Json>)
      modifies this
      ensures outcome.Rejected? ==> modelType == old(modelType) && ollamaModelName == old(ollamaModelName)
      ensures outcome.Resolved? ==>
                var modelPath := Path(outcome.value, "llm", "default_model");
                var namePath := Path(outcome.value, "ollama", "model_name");
                && modelType == (if modelPath.Ok? && JsTruthy(modelPath.value) then modelPath.value.value else old(modelType))
                && ollamaModelName == (if modelPath.Ok? && namePath.Ok? && JsTruthy(namePath.value)
                                       then namePath.value.value else old(ollamaModelName))
      ensures activeTab == old(activeTab) && showRawPrompt == old(showRawPrompt)
    {
      if outcome.Rejected? {
        return;
      }
      var config := outcome.value;
      var modelPath := Path(config, "llm", "default_model");
      if modelPath.Err? {
        return;
      }
      if JsTruthy(modelPath.value) {
        modelType := modelPath.value.value;
      }
      var namePath := Path(config, "ollama", "model_name");
      if namePath.Err? {
        return;
      }
      if JsTruthy(namePath.value) {
        ollamaModelName := namePath.value.value;
      }
    }

    /** The sidebar's model-type setter: the model name is left alone. */
    method SetModelType(t: Json)
      modifies this
      ensures modelType == t
      ensures ollamaModelName == old(ollamaModelName) && activeTab == old(activeTab) && showRawPrompt == old(showRawPrompt)
    {
      modelType := t;
    }

    method SetOllamaModelName(n: Json)
      modifies this
      ensures ollamaModelName == n
      ensures modelType == old(modelType) && activeTab == old(activeTab) && showRawPrompt == old(showRawPrompt)
    {
      ollamaModelName := n;
    }

    method SetShowRawPrompt(b: bool)
      modifies this
      ensures showRawPrompt == b
      ensures modelType == old(modelType) && ollamaModelName == old(ollamaModelName) && activeTab == old(activeTab)
    {
      showRawPrompt := b;
    }

    /** The header's tab setter. */
    method SetActiveTab(tab: string)
      modifies this
      ensures activeTab == tab
      ensures modelType == old(modelType) && ollamaModelName == old(ollamaModelName) && showRawPrompt == old(showRawPrompt)
    {
      activeTab := tab;
    }

    function Content(): TabContent
      reads this
    {
      RenderTabContent(activeTab, modelType, ollamaModelName, showRawPrompt)
    }
  }

  /** `renderTabContent`: the single-query tab gets the session settings,
      the model name whatever the model type; four other tabs take no
      settings; anything else shows nothing. */
  function RenderTabContent(tab: string, modelType: Json, modelName: Json, showRaw: bool): (c: TabContent)
    ensures c.SingleQuery? <==> tab == "query"
    ensures c.SingleQuery? ==> c == SingleQuery(modelType, modelName, showRaw)
    ensures c.Nothing? <==> tab !in {"query", "batch", "evaluation", "schema", "comparison"}
  {
    match tab
    case "query" => SingleQuery(modelType, modelName, showRaw)
    case "batch" => Batch
    case "evaluation" => Evaluation
    case "schema" => Schema
    case "comparison" => Comparison
    case _ => Nothing
  }

  /** Of the six tabs the header offers, exactly the last one, history, has
      no content. */
  lemma HistoryTabShowsNothing(i: nat)
    requires i < |HeaderTabs|
    ensures RenderTabContent(HeaderTabs[i], JNull, JNull, false).Nothing? <==> i == 5
  {
  }

  /** Without a configuration file the server answers `{}`: reading
      `llm.default_model` throws at once, so the page keeps its defaults. */
  method NoConfigFileKeepsDefaults() returns (page: IndexPage)
    ensures page.modelType == JStr("gemma") && page.ollamaModelName == JStr("gemma3")
  {
    page := new IndexPage();
    page.LoadConfig(Resolved(Server.LoadConfig(None)));
  }

  /** A configuration with `llm.default_model` but no `ollama` section
      applies the model type and then throws: the merge is half done. */
  method HalfAppliedMerge() returns (page: IndexPage)
    ensures page.modelType == JStr("gemini") && page.ollamaModelName == JStr("gemma3")
  {
    page := new IndexPage();
    page.LoadConfig(Resolved(JObj(map["llm" := JObj(map["default_model" := JStr("gemini")])])));
  }
}
