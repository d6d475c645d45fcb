# NLU engine console — a Dafny model

This project models the core of a natural-language-understanding demo.
Each module below is named after the part of the system it models.

- **Prediction back ends.** Two back ends turn a text into an intent, a
  confidence and entities. `GemmaNLU` runs a local model; `GeminiNLU` calls a
  hosted one.
  - Reply parsing: the first-`{`-to-last-`}` span is cut out of the model's
    output (`BraceSpan`), parsed, and normalised (`GemmaNlu`, `GeminiNlu`).
    Anything that does not parse becomes a fixed fallback reply.
- **FastAPI server** (`Server`):
  - `load_config` and the `/config` answer;
  - `/analyze`: picks a back end from the request and the configuration,
    refuses an invalid Gemini key or an unknown model type, and turns every
    failure into a 500.
- **Query log** (`Logger`): `log_query` appends one JSON line per query.
  `read_logs` returns the newest entries first in the shape the history tab
  reads.
- **Intent file tools**:
  - `load_intents` validates the intent schema and reports the first
    offending intent (`JsonLoader`);
  - `generate_csv` flattens it into one `(text, intent)` row per example
    (`JsonToDataframe`).
- **Streamlit demo** (`App`):
  - the fallback configuration and the sidebar's model gate;
  - the batch, evaluation and comparison loops with their progress values;
  - the schema tab's "... and N more" rule.
- **React console**:
  - the page's session settings, configuration merge and tab routing
    (`IndexPage`);
  - the single-query conversation (`SingleQueryTab`) and how each message is
    drawn (`ChatMessage`);
  - the batch-testing, evaluation, model-comparison, history and
    intent-schema tabs.

Modelling conventions:

- **State.** Components and objects that keep state are classes whose methods
  update their fields. The log file is `Logger.LogFile`, and each React tab is
  a class whose fields are its `useState` variables.
- **Awaited requests.** Each awaited request is split in two: a method up to
  the `await`, and a method for the rest of the handler. The second method is
  given how the promise settled (`Common.Settled`).
- **Pure code.** Normalisation, routing, rendering and validation are
  functions.
- **Loops.** The Python loops (`generate_csv` and the Streamlit loops) are
  methods with `while` loops. Each is proved equal to a specification function.
- **Environment.** Whatever the code takes from the environment is a
  parameter: the parsed configuration or intent file, a model's raw output,
  the predictor, the outcome of an HTTP call. JSON parsing, `float()` and
  dictionary iteration order are fields of `Json.Runtime`.

Where the interface's own text or naming suggests one behaviour and the
code does another, the model follows the code:

- **History tab.** A failed "Clear History" throws before the reload, so
  nothing is reloaded.
- **Model type.** Changing the model type leaves the model name alone.
- **Batch tab.** The batch table does colour confidences by band.
- **Endpoints.** The front end calls `/batch_test`, `/evaluate`,
  `/compare_models` and `/history`, which `server.py` does not define. Their
  answers are inputs here.

## Model

| member | source | states |
|---|---|---|
| BraceSpan.Search | src/components/gemma_nlu.py:37 | the `\{.*\}` DOTALL match exists iff some `{` precedes some `}`; it runs from the first `{` to the last `}` |
| BraceSpan.Extract | src/components/gemini_nlu.py:40 | the matched text exists iff the search succeeds, and starts with `{` and ends with `}` |
| BraceSpan.SearchIgnoresSurroundings | src/components/gemma_nlu.py:37 | a JSON body wrapped in brace-free prose (a markdown fence, say) is extracted exactly |
| GemmaNlu.Fallback | src/components/gemma_nlu.py:66-72 | the fallback reply has exactly the four reply keys |
| GemmaNlu.Conversation | src/components/gemma_nlu.py:41-47 | the plain-text reply has exactly the four reply keys |
| GemmaNlu.Normalize | src/components/gemma_nlu.py:58-64 | normalising succeeds iff the parsed value is a dict whose confidence `float()` accepts; the result has the four keys, the confidence is `float(parsed.get("confidence", 0.5))`, every present field is kept, and each absent key gets its default (`unknown`, 0.5, `{}`, the apology) |
| GemmaNlu.SafeParse | src/components/gemma_nlu.py:32-56 | the reply always has the four keys, a numeric confidence and no `error`. With no braces, a stripped output longer than 5 becomes a general_conversation reply and anything shorter the fallback. Unparsable JSON gives the fallback; a span that parses gives its normalised reply, or the fallback when normalising raises |
| GemmaNlu.ParsedReplyKept | src/components/gemma_nlu.py:50-63 | a printed object with a string intent and a numeric confidence is answered with that intent and confidence, and its own entities and response |
| GemmaNlu.NormalizeDefaults | src/components/gemma_nlu.py:60-63 | an empty dict normalises to intent `unknown`, confidence 0.5, no entities and the apology response |
| GeminiNlu.Fallback | src/components/gemini_nlu.py:58-63 | the fallback has exactly intent, confidence and entities |
| GeminiNlu.Normalize | src/components/gemini_nlu.py:51-56 | as for Gemma, with three keys: the confidence is `float(parsed.get("confidence", 0.5))`, present fields are kept and absent ones get `unknown`, 0.5 and `{}` |
| GeminiNlu.SafeParse | src/components/gemini_nlu.py:39-49 | three keys always; no brace span or unparsable JSON gives the fallback; a span that parses gives its normalised reply, or the fallback when normalising raises |
| GeminiNlu.Predict | src/components/gemini_nlu.py:18-37 | an `error` key appears iff the API call raised; it then holds `Gemini error: ` + the message, with intent `unknown`, confidence 0 and no entities; a reply is `_safe_parse` of its text |
| GeminiNlu.ParsedReplyKept | src/components/gemini_nlu.py:27-28 | a reply holding an object with a string intent and a numeric confidence is answered with that intent, confidence and entities, and no `error` |
| GeminiNlu.ProseIsFallback | src/components/gemini_nlu.py:42-43 | for brace-free output Gemini gives the fallback, while Gemma returns the text itself once it is longer than 5 |
| Server.LoadConfig | server.py:23-28 | a missing config file gives `{}`; otherwise the parsed file |
| Server.Setting | server.py:54 | `config.get(section, {}).get(key, default)`: a non-dict config or section raises `AttributeError`, a missing section or key gives the default |
| Server.ResolveModel | server.py:53-65 | an unknown type is a 400 `Unknown model type`. Gemma always resolves to the request's name, else the configured one, unless reading the configuration raises. Gemini reads the name, then the key; a falsy or placeholder key is a 400 `Invalid Gemini API Key`, any other key resolves with that name, key and temperature |
| Server.EmptyConfigFile | server.py:54 | an empty config file loads as `None`: a gemma request with a name resolves, one without fails on `.get` |
| Server.ConfiguredGemini | server.py:57-63 | a dict `gemini` section with a real key serves a Gemini request that brings neither name nor key |
| Server.AnalyzeQuery | server.py:49-76 | every error is a 500; success iff the model resolves and the prediction neither raises nor carries `error`; success returns the prediction unchanged; a resolve error is wrapped in a 500 |
| Server.ErrorReplyBecomes500 | server.py:70-72 | a reply carrying `error` surfaces as a 500 whose detail is that error |
| Server.NoConfigNoGeminiKey | server.py:58-61 | without a config file and without a request key, a Gemini request fails the same way whatever the predictor |
| Server.NoConfigDefaultNames | server.py:54-57 | without a config file the default names `gemma` and `gemini-1.5-flash` are used |
| Server.EmptyRequestKeyUsesConfig | server.py:58 | an empty request key falls back to the configured key |
| Logger.Entry | src/utils/logger.py:9-31 | an entry has the seven keys; model is the name if truthy else the type; intent is the dict's intent or `unknown`; a non-dict result logs a null confidence |
| Logger.ToItem | src/utils/logger.py:49-56 | `to_item` succeeds iff the entry is a dict whose confidence is set or whose `result or {}` is a dict; timestamp and intent are the entry's own; input and model follow the `or` fallbacks; a null confidence is replaced by the confidence of `result or {}` |
| Logger.ConfidenceFromResult | src/utils/logger.py:55 | an entry with a null confidence and a result carrying confidence `c` reads back with confidence `c` |
| Logger.ToItems | src/utils/logger.py:58 | all entries convert or the read fails; item `i` is entry `i` converted |
| Logger.NewestFirst | src/utils/logger.py:59 | `items[-limit:][::-1]`: length `min(limit, n)` for a positive limit, `n` for 0 and `n + limit` clamped for a negative one; element `i` is the `i`-th newest |
| Logger.LogFile.LogQuery | src/utils/logger.py:9-34 | the file exists afterwards and gains exactly one entry at the end |
| Logger.LogFile.ReadLogs | src/utils/logger.py:37-59 | no file gives `[]`; reading fails iff some entry does not convert; the result holds the newest entries in reverse order |
| Logger.ItemOfDictEntry | src/utils/logger.py:23-31 | an entry logged for a dict result reads back as its timestamp, message, model, intent and confidence |
| Logger.NonDictResultBreaksReading | src/utils/logger.py:18-19 | a truthy non-dict result logged once makes every later read fail |
| Logger.ZeroLimitIsEverything | src/utils/logger.py:59 | `items[-0:]` is the whole list, so a zero limit returns everything reversed |
| JsonLoader.Message | src/components/json_loader.py:9-21 | the error texts of the four raised errors |
| JsonLoader.CheckIntent | src/components/json_loader.py:18-21 | an intent passes iff it has a name and at least one example; a missing name is reported before missing examples |
| JsonLoader.CheckAll | src/components/json_loader.py:17-21 | no failure iff every intent is valid; a failure names the first invalid intent |
| JsonLoader.LoadIntents | src/components/json_loader.py:5-23 | a missing file, undecodable JSON or a missing `intents` key are the matching errors; success returns the data unchanged, and a parsed file succeeds iff its schema is valid |
| JsonLoader.ReportsFirstOffender | src/components/json_loader.py:17-19 | an empty intent after valid ones is reported as the missing name |
| JsonLoader.CheckAllStopsAt | src/components/json_loader.py:17-21 | checking stops at the first invalid intent |
| JsonToDataframe.RowsOf | src/components/json_to_dataframe.py:13-17 | one intent contributes one row per example, in order, all carrying its name |
| JsonToDataframe.GenerateCsv | src/components/json_to_dataframe.py:5-17 | fails exactly as loading fails, otherwise yields the flattened rows |
| JsonToDataframe.Flatten | src/components/json_to_dataframe.py:11-17 | the nested loop appends exactly the intent-major rows |
| JsonToDataframe.RowAt | src/components/json_to_dataframe.py:12-17 | example `k` of intent `i` is the row at the intent's offset plus `k` |
| JsonToDataframe.RowCount | src/components/json_to_dataframe.py:11-17 | the row count is the sum of the example counts |
| Json.Iterate | src/components/json_to_dataframe.py:12-13 | `for x in j` visits `len(j)` items, and for a dict exactly its keys, when the runtime visits each key once |
| JsonToDataframe.EveryIntentContributes | src/components/json_to_dataframe.py:12-13 | with list, string or dict examples there are at least as many rows as intents |
| App.LoadConfig | app.py:14-24 | a missing config file gives the built-in fallback configuration |
| App.SelectModel | app.py:32-43 | gemma always binds a model; gemini is refused iff the key is empty or the placeholder; any other type binds nothing |
| App.FallbackRefusesGemini | app.py:20-24 | under the fallback configuration the Gemini key is empty, so the sidebar refuses Gemini |
| App.ComparisonAcceptsPlaceholder | app.py:228-231 | the comparison tab accepts the placeholder key the sidebar refuses |
| App.RunBatch | app.py:115-131 | one row per tested example, in order, with the first `num_samples` examples; progress stays in (0, 1] and ends at 1 |
| App.TestsOf | app.py:148-150 | an intent's tests are its first `k` examples labelled with its name |
| App.TestsAreLabelled | app.py:146-150 | every test is one of the first `k` examples of an intent with that label |
| App.TestsBound | app.py:146-150 | there are at most `k` tests per intent |
| App.BuildTests | app.py:146-150 | the loop builds exactly the test list |
| App.RunEvaluation | app.py:158-163 | the labels and predictions are those of the tests, of equal length as the evaluator demands |
| App.RunComparison | app.py:239-259 | both prediction lists and the labels cover the first `num_intents` intents; progress value `i` is `(i + 1) / total`, with `total = num_intents * samples_per_intent`, so within (0, 1] |
| App.CompareIntent | app.py:248-259 | one intent's inner loop appends its labels, both predictions and progress `(count + i + 1) / total` |
| App.SchemaLines | app.py:194-197 | at most ten example lines, plus `... and N more.` with `N = n - 10` exactly when there are more than ten |
| NumberInput.CoerceCount | frontend/src/components/tabs/BatchTestingTab.tsx:83 | `parseInt(value) \|\| 1` is never 0: 1 for non-numeric input or 0, the parsed value otherwise |
| NumberInput.ParseShowInt | frontend/src/components/tabs/EvaluationTab.tsx:47 | `parseInt` reads back any integer written in decimal |
| NumberInput.CoerceShownCount | frontend/src/components/tabs/ModelComparisonTab.tsx:127 | a typed integer is kept, except 0, which becomes 1 |
| NumberInput.CoerceKeepsNegative | frontend/src/components/tabs/ModelComparisonTab.tsx:140 | a negative count is accepted |
| NumberInput.CoerceTruncatesFraction | frontend/src/components/tabs/BatchTestingTab.tsx:83 | a fractional count is truncated |
| Common.StripEmptyIffBlank | frontend/src/components/tabs/SingleQueryTab.tsx:43 | the trimmed input is empty iff the input is all whitespace |
| Common.ReplaceFirst | frontend/src/components/tabs/BatchTestingTab.tsx:67 | `replace` with a string pattern changes only the first occurrence |
| Common.SingleUnderscoreLabel | frontend/src/components/tabs/EvaluationTab.tsx:127 | a name with one underscore is shown without underscores |
| Common.BandOf | frontend/src/components/tabs/BatchTestingTab.tsx:43-47 | the bands are good from 0.8, moderate from 0.5, poor below |
| ChatMessage.BarColour | frontend/src/components/ChatMessage.tsx:87-93 | green, amber and red exactly on the three bands |
| ChatMessage.Render | frontend/src/components/ChatMessage.tsx:55-104 | a user message shows its text only; a bot message shows the raw line iff `showRaw`, the intent iff it is a non-empty string, the confidence iff defined, and the entities iff there is one |
| ChatMessage.ZeroConfidenceShown | frontend/src/components/ChatMessage.tsx:77 | a zero confidence is still drawn, as a red bar |
| SingleQueryTab.Reply | frontend/src/components/tabs/SingleQueryTab.tsx:63-82 | success echoes the fields of the answer; failure gives the fixed error message with intent `error`, confidence 0 and the exception text |
| SingleQueryTab.SingleQueryTab.Submit | frontend/src/components/tabs/SingleQueryTab.tsx:41-61 | a blank input or a submit while loading changes nothing; otherwise exactly one user message is appended, the input clears and loading starts |
| SingleQueryTab.SingleQueryTab.Complete | frontend/src/components/tabs/SingleQueryTab.tsx:63-85 | exactly one bot message is appended and loading ends |
| SingleQueryTab.SingleQueryTab.Exchange | frontend/src/components/tabs/SingleQueryTab.tsx:41-86 | an accepted submit grows the conversation by the user's message and the reply, and earlier messages stay |
| SingleQueryTab.FailureReplyRendering | frontend/src/components/tabs/SingleQueryTab.tsx:73-82 | a failure is drawn with the `error` badge, a red bar at 0 and one `error` chip |
| BatchTestingTab.ConfidenceColor | frontend/src/components/tabs/BatchTestingTab.tsx:43-47 | text-success, text-warning and text-destructive exactly on the three bands |
| BatchTestingTab.Table | frontend/src/components/tabs/BatchTestingTab.tsx:152-179 | one row per result in order; a row matches iff its prediction equals the currently selected intent |
| BatchTestingTab.BatchTestingTab.EnterSamples | frontend/src/components/tabs/BatchTestingTab.tsx:83 | the count becomes the coerced value and nothing else changes |
| BatchTestingTab.BatchTestingTab.StartRun | frontend/src/components/tabs/BatchTestingTab.tsx:26-34 | loading starts, the error clears, the results stay, and the request carries the selection and count |
| BatchTestingTab.BatchTestingTab.CompleteRun | frontend/src/components/tabs/BatchTestingTab.tsx:35-40 | success replaces the results; failure keeps them and records the message or `Failed to run batch test`; loading ends |
| BatchTestingTab.ReselectAfterRun | frontend/src/components/tabs/BatchTestingTab.tsx:174 | after a run, choosing another intent re-marks the same results against it, so rows of the run's own intent stop matching |
| BatchTestingTab.EmptyMessageShowsEmptyState | frontend/src/components/tabs/BatchTestingTab.tsx:189 | an error with an empty message is falsy, so the empty state shows |
| EvaluationTab.MetricColor | frontend/src/components/tabs/EvaluationTab.tsx:26-30 | the three tile classes exactly on the three bands |
| EvaluationTab.Cards | frontend/src/components/tabs/EvaluationTab.tsx:118-172 | one card per report entry, titled by the label, with each metric tinted by its own band |
| EvaluationTab.EvaluationTab.CompleteRun | frontend/src/components/tabs/EvaluationTab.tsx:16-23 | success replaces the data; failure keeps it and records `Failed to evaluate` or the message |
| EvaluationTab.FailureAfterSuccess | frontend/src/components/tabs/EvaluationTab.tsx:183 | after one success a later failure shows its error beside the old data, never the empty state |
| ModelComparisonTab.Winner | frontend/src/components/tabs/ModelComparisonTab.tsx:100-107 | gemma wins iff its mean score is strictly higher, qwen likewise; a tie or no data gives no winner |
| ModelComparisonTab.WinnerSymmetric | frontend/src/components/tabs/ModelComparisonTab.tsx:102-106 | swapping the two metric sets swaps the winner |
| ModelComparisonTab.DominantModelWins | frontend/src/components/tabs/ModelComparisonTab.tsx:102-104 | a model at least as good on every metric and different wins |
| ModelComparisonTab.ScoreIsFraction | frontend/src/components/tabs/ModelComparisonTab.tsx:94 | the overall score of fractional metrics is a fraction |
| ModelComparisonTab.ReplaceFirstText | frontend/src/components/tabs/ModelComparisonTab.tsx:46 | `replace` with a string pattern: no occurrence leaves the text unchanged; an occurrence at the start is replaced and the rest kept |
| ModelComparisonTab.ReplacesFirstOccurrence | frontend/src/components/tabs/ModelComparisonTab.tsx:46 | when the first occurrence of the pattern starts at position i, the result is the text before i, the replacement, then the text after that occurrence, unchanged |
| ModelComparisonTab.ModelCard | frontend/src/components/tabs/ModelComparisonTab.tsx:52-97 | the four bars in order with fills bg-primary, bg-success, bg-accent and bg-warning; the overall percentage is 100 times the mean |
| ModelComparisonTab.Cards | frontend/src/components/tabs/ModelComparisonTab.tsx:176-180 | with data, the gemma card then the qwen card, each badged iff it is the winner |
| ModelComparisonTab.AtMostOneWinnerBadge | frontend/src/components/tabs/ModelComparisonTab.tsx:178-179 | at most one badge, and exactly one unless the scores tie |
| ModelComparisonTab.BadgeOnHigherPercent | frontend/src/components/tabs/ModelComparisonTab.tsx:94 | the badged card shows the higher overall percentage |
| ModelComparisonTab.ModelComparisonTab.CompleteRun | frontend/src/components/tabs/ModelComparisonTab.tsx:17-27 | success replaces the data; failure keeps it and records `Failed to compare models` or the message |
| HistoryTab.HistoryTab.constructor | frontend/src/components/tabs/HistoryTab.tsx:14-15 | the tab starts empty and loading |
| HistoryTab.HistoryTab.CompleteLoad | frontend/src/components/tabs/HistoryTab.tsx:17-26 | success replaces the list; failure keeps it; loading ends either way |
| HistoryTab.HistoryTab.HandleClear | frontend/src/components/tabs/HistoryTab.tsx:32-35 | a rejected clear escapes and changes nothing, with no reload; otherwise the history is reloaded |
| HistoryTab.HistoryTab.Shown | frontend/src/components/tabs/HistoryTab.tsx:49-55 | loading text iff loading; "No history yet" iff idle and empty; otherwise the items in order |
| HistoryTab.StaleAfterFailedReload | frontend/src/components/tabs/HistoryTab.tsx:32-35 | a clear whose reload fails still shows the old entries |
| HistoryTab.FailedFirstLoadLooksEmpty | frontend/src/components/tabs/HistoryTab.tsx:21-24 | a failed first load shows "No history yet" |
| IndexPage.Member | frontend/src/pages/Index.tsx:23-26 | a property read on undefined or null throws; an object yields its member or undefined |
| IndexPage.IndexPage.constructor | frontend/src/pages/Index.tsx:13-16 | the defaults are query, gemma, gemma3 and no raw prompt |
| IndexPage.IndexPage.LoadConfig | frontend/src/pages/Index.tsx:20-32 | a truthy `llm.default_model` replaces the model type, then a truthy `ollama.model_name` replaces the name; the first throwing access stops the merge but keeps earlier updates; a failed request changes nothing |
| IndexPage.IndexPage.SetModelType | frontend/src/pages/Index.tsx:67-73 | changing the model type leaves the model name alone |
| IndexPage.RenderTabContent | frontend/src/pages/Index.tsx:36-57 | query gets the model type, the model name and the raw flag; anything but the five known tabs shows nothing |
| IndexPage.HistoryTabShowsNothing | frontend/src/components/Header.tsx:26-33 | of the six offered tabs only history has no content |
| IndexPage.NoConfigFileKeepsDefaults | frontend/src/pages/Index.tsx:23 | the server's `{}` for a missing config file leaves the defaults in place |
| IndexPage.HalfAppliedMerge | frontend/src/pages/Index.tsx:23-28 | a config with `llm` but no `ollama` section applies the model type and then stops |
| IntentSchemaTab.SchemaMatchesBatchIntents | frontend/src/components/tabs/IntentSchemaTab.tsx:12-73 | ten intents, named as in the batch tab's list and in its order |
| IntentSchemaTab.SchemaNamesDistinct | frontend/src/components/tabs/IntentSchemaTab.tsx:12-73 | the ten names are pairwise distinct |
| IntentSchemaTab.Toggled | frontend/src/components/tabs/IntentSchemaTab.tsx:78-88 | the toggled name flips membership and every other name keeps its own |
| IntentSchemaTab.ToggledTwice | frontend/src/components/tabs/IntentSchemaTab.tsx:78-88 | toggling twice restores the set |
| IntentSchemaTab.NameSet | frontend/src/components/tabs/IntentSchemaTab.tsx:91 | the set holds exactly the schema's names |
| IntentSchemaTab.CardOf | frontend/src/components/tabs/IntentSchemaTab.tsx:132-205 | a card is expanded iff its name is in the set; the entities block shows iff the list is non-empty |
| IntentSchemaTab.IntentSchemaTab.ToggleIntent | frontend/src/components/tabs/IntentSchemaTab.tsx:78-88 | the new set is the old one toggled at the name |
| IntentSchemaTab.IntentSchemaTab.ExpandAll | frontend/src/components/tabs/IntentSchemaTab.tsx:90-92 | the set becomes the schema's names |
| IntentSchemaTab.IntentSchemaTab.CollapseAll | frontend/src/components/tabs/IntentSchemaTab.tsx:94-96 | the set becomes empty |
| IntentSchemaTab.ExpandAllOpensEveryCard | frontend/src/components/tabs/IntentSchemaTab.tsx:90-96 | after expand-all every card is open; after collapse-all none is |
| IntentSchemaTab.ToggleAffectsOneCard | frontend/src/components/tabs/IntentSchemaTab.tsx:144 | a click opens or closes that card and leaves every other card as it was |
| IntentSchemaTab.OnlyFarewellLacksEntities | frontend/src/components/tabs/IntentSchemaTab.tsx:205 | among open cards only farewell lacks the entities block |

## Left out

- Process, network and file I/O are not modelled; their results are parameters:
  - the `ollama` subprocess and the Gemini SDK call (`Server.Predictor`, `App.Predictor`, `GeminiNlu.ApiCall`);
  - reading and writing `config.yaml`, the intent file, `history.jsonl` and the CSV;
  - the axios calls.
- The prompt builder (`build_nlu_prompt`) is not modelled. It only formats text for the model, so predictors receive the raw text.
- `json.loads`, `float()` and dictionary iteration order are not modelled; they are the uninterpreted fields of `Json.Runtime`. That each key of a dict is visited exactly once is `Json.KeysOnce`, assumed by the lemmas that count visited items; the order of the keys stays unconstrained.
- `yaml.safe_load` is not modelled. `App.LoadConfig` and `Server.LoadConfig` take the already parsed file as their `file: Option<Json>` parameter, so a YAML syntax error raised out of `load_config` (server.py:23-28, app.py:14-24) is not represented.
- The JSON serialisation of a log line is not modelled. Entries are stored as `Json` values, so a `json.dumps`/`json.loads` round trip is the identity.
- The evaluator's metrics (sklearn's accuracy, classification report and confusion matrix) are not modelled. Only its precondition is kept: the label and prediction lists have equal length (`App.EvaluatorAccepts`).
- Floating point is not modelled. Scores and confidences are exact reals, and `toFixed`, percentage formatting and date formatting are left out.
- The Streamlit widgets, the React markup, animations, CSS text transforms such as `capitalize`, and the message ids taken from the clock are left out.
- `App.Intent`: the Streamlit loops take an intent's `examples` as a list of strings. `load_intents` also accepts a string or a dict there, for which `[:k]` slices characters and `for` visits characters or keys; the Streamlit loops are not modelled for those.
- `App.RunComparison`: the slider bounds are a precondition (`num_intents >= 5`, `1 <= samples_per_intent <= 5`).
- React's state batching and re-entrant clicks are not modelled. Each handler runs to its `await` and then to its end with nothing interleaved.
- `NumberInput.ParseInt`: digit strings have no length limit. JavaScript's loss of precision beyond 2^53 is not modelled.
- The Streamlit single-query tab and its raw-prompt display are not modelled. They only show what `predict` returns.
- `SingleQueryTab.SingleQueryTab.Submit`: the tab's props are strings, while `IndexPage` carries the configured values as raw JSON values. A well-formed config supplies strings there.
- `ChatMessage.Render`: a confidence that arrives as JSON `null` is not modelled. The answer's fields are optional values of their declared types, and `null !== undefined` would draw a bar at 0.
