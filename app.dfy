/** The Streamlit demo: the configuration fallback, the sidebar's model
    gate, and the loops that build and run the batch, evaluation and
    comparison test sets. Widgets are inputs; a model's `predict` is a
    parameter; the intents come from the loaded schema, each as its name
    and its list of example strings. */
module App {
  import opened Common
  import opened Json
  import NumberInput

  /** `load_config()`: the YAML file, or the built-in fallback when the file
      is missing. */
  function LoadConfig(file: Option<Json>): (config: Json)
    ensures file.Some? ==> config == file.value
    ensures file.None? ==> config == FallbackConfig
  {
    if file.Some? then file.value else FallbackConfig
  }

  const FallbackConfig: Json := JObj(map[
    "llm" := JObj(map["available_models" := JArr([JStr("gemma"), JStr("gemini")])]),
    "ollama" := JObj(map["model_name" := JStr("gemma")]),
    "gemini" := JObj(map["model_name" := JStr("gemini-1.5-flash"), "temperature" := JNum(0.3)])])

  /** `config[section].get(key, default)`; `None` when Python raises. */
  function Setting(config: Json, section: string, key: string, default: Json): Option<Json>
  {
    if config.JObj? && section in config.fields && config.fields[section].JObj? then
      Some(Get(config.fields[section].fields, key, default))
    else None
  }

  datatype Model = Gemma(name: string) | Gemini(name: string, key: string, temperature: real)

  /** The `model` variable after the sidebar: unbound when the selected
      type is neither `gemma` nor `gemini`, `None` when the Gemini key is
      refused, a model otherwise. */
  datatype Gate = Unbound | Refused | Ready(model: Model)

  /** The sidebar's model construction from the widgets' values. */
  function SelectModel(modelType: string, modelName: string, apiKey: string, temperature: real): (g: Gate)
    ensures modelType == "gemma" ==> g == Ready(Gemma(modelName))
    ensures modelType == "gemini" ==> (g.Refused? <==> apiKey == "" || apiKey == "YOUR_GEMINI_API_KEY")
    ensures g.Ready? && g.model.Gemini? ==> g.model.key == apiKey && apiKey != "" && apiKey != "YOUR_GEMINI_API_KEY"
    ensures modelType != "gemma" && modelType != "gemini" ==> g.Unbound?
  {
    if modelType == "gemma" then Ready(Gemma(modelName))
    else if modelType == "gemini" then
      if apiKey == "" || apiKey == "YOUR_GEMINI_API_KEY" then Refused
      else Ready(Gemini(modelName, apiKey, temperature))
    else Unbound
  }

  /** With the fallback configuration the Gemini key field starts empty, so
      choosing Gemini leaves no model until a key is typed. */
  lemma FallbackRefusesGemini(modelName: string, temperature: real)
    ensures Setting(LoadConfig(None), "gemini", "api_key", JStr("")) == Some(JStr(""))
    ensures Setting(LoadConfig(None), "ollama", "model_name", JStr("gemma")) == Some(JStr("gemma"))
    ensures SelectModel("gemini", modelName, "", temperature) == Refused
  {
  }

  /** The comparison tab reads the key from the configuration and only
      stops when it is falsy: the placeholder key, which the sidebar
      refuses, is accepted there. */
  predicate ComparisonKeyAccepted(key: Json)
  {
    PyTruthy(key)
  }

  lemma ComparisonAcceptsPlaceholder(modelName: string, temperature: real)
    ensures ComparisonKeyAccepted(JStr("YOUR_GEMINI_API_KEY"))
    ensures SelectModel("gemini", modelName, "YOUR_GEMINI_API_KEY", temperature) == Refused
  {
  }

  /** The reply a model's `predict` gives for a text. */
  type Predictor = string -> map<string, Json>

  datatype Intent = Intent(name: string, examples: seq<string>)

  /** `s[:k]` for `k >= 0`. */
  function Take<T>(s: seq<T>, k: nat): (r: seq<T>)
    ensures |r| == (if k < |s| then k else |s|) && r == s[..|r|]
  {
    if k < |s| then s[..k] else s
  }

  // ---------------------------------------------------------------------
  // Batch test

  datatype BatchRow = BatchRow(text: string, predictedIntent: Json, confidence: Json, entities: Json)

  /** The result row for one sample. */
  function BatchRowOf(predict: Predictor, text: string): BatchRow
  {
    var res := predict(text);
    BatchRow(text, Get(res, "intent", JNull), Get(res, "confidence", JNull), Get(res, "entities", JNull))
  }

  /** The "Run Batch Test" loop: one row per sample among the first
      `numSamples` examples, in order, and the progress bar's value after
      each one, rising to 1. */
  method RunBatch(examples: seq<string>, numSamples: nat, predict: Predictor)
    returns (results: seq<BatchRow>, progress: seq<real>)
    ensures |results| == |progress| == |Take(examples, numSamples)|
    ensures forall i :: 0 <= i < |results| ==> results[i] == BatchRowOf(predict, examples[i])
    ensures forall i :: 0 <= i < |progress| ==> 0.0 < progress[i] <= 1.0
    ensures progress != [] ==> progress[|progress| - 1] == 1.0
  {
    var samples := Take(examples, numSamples);
    results := [];
    progress := [];
    var idx := 0;
    while idx < |samples|
      invariant 0 <= idx <= |samples|
      invariant |results| == |progress| == idx
      invariant forall i :: 0 <= i < idx ==> results[i] == BatchRowOf(predict, examples[i])
      invariant forall i :: 0 <= i < idx ==> 0.0 < progress[i] <= 1.0
      invariant idx > 0 ==> progress[idx - 1] == idx as real / |samples| as real
    {
      assert samples[idx] == examples[idx];
      var fraction := (idx + 1) as real / |samples| as real;
      FractionInUnit(idx + 1, |samples|);
      results := results + [BatchRowOf(predict, samples[idx])];
      progress := progress + [fraction];
      idx := idx + 1;
    }
    if idx > 0 {
      FractionInUnit(idx, idx);
    }
  }

  /** A count out of a larger total is a fraction in (0, 1], and 1 exactly
      at the total. */
  lemma FractionInUnit(done: nat, total: nat)
    requires 0 < done <= total
    ensures 0.0 < done as real / total as real <= 1.0
    ensures done == total ==> done as real / total as real == 1.0
  {
  }

  // ---------------------------------------------------------------------
  // Evaluation

  datatype Test = Test(text: string, trueIntent: string)

  /** The tests one intent contributes: its first `k` examples. */
  function TestsOf(intent: Intent, k: nat): (r: seq<Test>)
    ensures |r| == |Take(intent.examples, k)|
    ensures forall i :: 0 <= i < |r| ==> r[i] == Test(intent.examples[i], intent.name)
  {
    seq(|Take(intent.examples, k)|, i requires 0 <= i < |Take(intent.examples, k)| => Test(intent.examples[i], intent.name))
  }

  /** `all_tests`: each intent's tests, intent after intent. */
  function Tests(intents: seq<Intent>, k: nat): seq<Test>
  {
    if intents == [] then [] else Tests(intents[..|intents| - 1], k) + TestsOf(intents[|intents| - 1], k)
  }

  /** Every test is labelled with one of the intents' names and holds one
      of that intent's examples. */
  lemma {:induction false} TestsAreLabelled(intents: seq<Intent>, k: nat, t: Test)
    requires t in Tests(intents, k)
    ensures exists i :: 0 <= i < |intents| && intents[i].name == t.trueIntent && t.text in Take(intents[i].examples, k)
  {
    var n := |intents|;
    if t in TestsOf(intents[n - 1], k) {
      var j :| 0 <= j < |TestsOf(intents[n - 1], k)| && TestsOf(intents[n - 1], k)[j] == t;
      assert Take(intents[n - 1].examples, k)[j] == t.text;
    } else {
      TestsAreLabelled(intents[..n - 1], k, t);
      var i :| 0 <= i < n - 1 && intents[..n - 1][i].name == t.trueIntent && t.text in Take(intents[..n - 1][i].examples, k);
      assert intents[i] == intents[..n - 1][i];
    }
  }

  /** No intent contributes more than `k` tests. */
  lemma {:induction false} TestsBound(intents: seq<Intent>, k: nat)
    ensures |Tests(intents, k)| <= |intents| * k
  {
    if intents != [] {
      var n := |intents|;
      TestsBound(intents[..n - 1], k);
      assert |Tests(intents, k)| == |Tests(intents[..n - 1], k)| + |TestsOf(intents[n - 1], k)|;
      assert |TestsOf(intents[n - 1], k)| <= k;
      MulStep(n - 1, k);
    }
  }

  /** Arithmetic helper: one more intent adds `k` to the bound. */
  lemma MulStep(m: nat, k: nat)
    ensures m * k + k == (m + 1) * k
  {
  }

  /** The loop that assembles `all_tests`. */
  method BuildTests(intents: seq<Intent>, k: nat) returns (tests: seq<Test>)
    ensures tests == Tests(intents, k)
  {
    tests := [];
    var n := 0;
    while n < |intents|
      invariant 0 <= n <= |intents|
      invariant tests == Tests(intents[..n], k)
    {
      var intent := intents[n];
      var samples := Take(intent.examples, k);
      ghost var before := tests;
      var j := 0;
      while j < |samples|
        invariant 0 <= j <= |samples|
        invariant tests == before + TestsOf(intent, k)[..j]
      {
        assert TestsOf(intent, k)[..j + 1] == TestsOf(intent, k)[..j] + [Test(samples[j], intent.name)];
        tests := tests + [Test(samples[j], intent.name)];
        j := j + 1;
      }
      assert TestsOf(intent, k)[..j] == TestsOf(intent, k);
      assert intents[..n + 1][..n] == intents[..n];
      n := n + 1;
    }
    assert intents[..n] == intents;
  }

  /** `res.get("intent", "unknown")` */
  function PredictedIntent(predict: Predictor, text: string): Json
  {
    Get(predict(text), "intent", JStr("unknown"))
  }

  /** `Evaluator.evaluate` raises unless both label lists have the same
      length; the metrics themselves are not modelled. */
  predicate EvaluatorAccepts<A, B>(yTrue: seq<A>, yPred: seq<B>)
  {
    |yTrue| == |yPred|
  }

  /** The true labels of a list of tests. */
  function Labels(tests: seq<Test>): (r: seq<string>)
    ensures |r| == |tests| && forall i :: 0 <= i < |tests| ==> r[i] == tests[i].trueIntent
  {
    seq(|tests|, i requires 0 <= i < |tests| => tests[i].trueIntent)
  }

  /** A model's predicted labels for a list of tests. */
  function Predictions(predict: Predictor, tests: seq<Test>): (r: seq<Json>)
    ensures |r| == |tests| && forall i :: 0 <= i < |tests| ==> r[i] == PredictedIntent(predict, tests[i].text)
  {
    seq(|tests|, i requires 0 <= i < |tests| => PredictedIntent(predict, tests[i].text))
  }

  /** The prediction loop: `y_true` and `y_pred` grow in lockstep, one
      entry per test. */
  method RunEvaluation(tests: seq<Test>, predict: Predictor) returns (yTrue: seq<string>, yPred: seq<Json>)
    ensures yTrue == Labels(tests) && yPred == Predictions(predict, tests)
    ensures EvaluatorAccepts(yTrue, yPred)
  {
    yTrue := [];
    yPred := [];
    var idx := 0;
    while idx < |tests|
      invariant 0 <= idx <= |tests|
      invariant |yTrue| == |yPred| == idx
      invariant forall i :: 0 <= i < idx ==> yTrue[i] == tests[i].trueIntent
      invariant forall i :: 0 <= i < idx ==> yPred[i] == PredictedIntent(predict, tests[i].text)
    {
      yTrue := yTrue + [tests[idx].trueIntent];
      yPred := yPred + [PredictedIntent(predict, tests[idx].text)];
      idx := idx + 1;
    }
  }

  // ---------------------------------------------------------------------
  // Model comparison

  /** The comparison loop over the first `numIntents` intents. The sliders
      keep `numIntents` at 5 or more and `samplesPerIntent` between 1 and
      5. The three label lists stay the same length, and `count` never
      passes `total`, so every progress value is in (0, 1]. */
  method RunComparison(intents: seq<Intent>, numIntents: nat, samplesPerIntent: nat, gemma: Predictor, gemini: Predictor)
    returns (yTrue: seq<string>, gemmaPreds: seq<Json>, geminiPreds: seq<Json>, progress: seq<real>)
    requires numIntents >= 5 && 1 <= samplesPerIntent <= 5
    ensures yTrue == Labels(Tests(Take(intents, numIntents), samplesPerIntent))
    ensures gemmaPreds == Predictions(gemma, Tests(Take(intents, numIntents), samplesPerIntent))
    ensures geminiPreds == Predictions(gemini, Tests(Take(intents, numIntents), samplesPerIntent))
    ensures EvaluatorAccepts(yTrue, gemmaPreds) && EvaluatorAccepts(yTrue, geminiPreds)
    ensures |progress| == |yTrue| <= numIntents * samplesPerIntent
    ensures forall i :: 0 <= i < |progress| ==> progress[i] == (i + 1) as real / (numIntents * samplesPerIntent) as real
    ensures forall i :: 0 <= i < |progress| ==> 0.0 < progress[i] <= 1.0
  {
    var selected := Take(intents, numIntents);
    var total := numIntents * samplesPerIntent;
    var count := 0;
    yTrue, gemmaPreds, geminiPreds, progress := [], [], [], [];
    var n := 0;
    while n < |selected|
      invariant 0 <= n <= |selected|
      invariant count == |Tests(selected[..n], samplesPerIntent)| == |progress|
      invariant yTrue == Labels(Tests(selected[..n], samplesPerIntent))
      invariant gemmaPreds == Predictions(gemma, Tests(selected[..n], samplesPerIntent))
      invariant geminiPreds == Predictions(gemini, Tests(selected[..n], samplesPerIntent))
      invariant CountsUp(progress, total)
    {
      SelectedRoom(selected, n, samplesPerIntent, numIntents);
      var labels, gemmaMore, geminiMore, progressMore := CompareIntent(selected[n], samplesPerIntent, count, total, gemma, gemini);
      ComparisonStep(selected, n, samplesPerIntent, gemma, gemini);
      ProgressAppend(progress, progressMore, count, total);
      yTrue := yTrue + labels;
      gemmaPreds := gemmaPreds + gemmaMore;
      geminiPreds := geminiPreds + geminiMore;
      progress := progress + progressMore;
      count := count + |labels|;
      n := n + 1;
    }
    assert selected[..n] == selected;
    TestsBound(selected, samplesPerIntent);
    assert |selected| * samplesPerIntent <= total by {
      MulMono(|selected|, numIntents, samplesPerIntent);
    }
    CountsUpInUnit(progress, total);
  }

  /** The inner loop of the comparison for one intent: both models predict
      each of its first `k` examples, `count` goes up by one per sample and
      the progress bar shows `count / total`. */
  method CompareIntent(intent: Intent, k: nat, count: nat, total: nat, gemma: Predictor, gemini: Predictor)
    returns (labels: seq<string>, gemmaPreds: seq<Json>, geminiPreds: seq<Json>, progress: seq<real>)
    requires count + |TestsOf(intent, k)| <= total
    ensures labels == Labels(TestsOf(intent, k))
    ensures gemmaPreds == Predictions(gemma, TestsOf(intent, k))
    ensures geminiPreds == Predictions(gemini, TestsOf(intent, k))
    ensures |progress| == |labels|
    ensures forall i :: 0 <= i < |progress| ==> progress[i] == (count + i + 1) as real / total as real
    ensures forall i :: 0 <= i < |progress| ==> 0.0 < progress[i] <= 1.0
  {
    var samples := Take(intent.examples, k);
    labels, gemmaPreds, geminiPreds, progress := [], [], [], [];
    var c := count;
    var j := 0;
    while j < |samples|
      invariant 0 <= j <= |samples| && c == count + j
      invariant labels == Labels(TestsOf(intent, k)[..j])
      invariant gemmaPreds == Predictions(gemma, TestsOf(intent, k)[..j])
      invariant geminiPreds == Predictions(gemini, TestsOf(intent, k)[..j])
      invariant |progress| == j
      invariant forall i :: 0 <= i < j ==> progress[i] == (count + i + 1) as real / total as real
      invariant forall i :: 0 <= i < j ==> 0.0 < progress[i] <= 1.0
    {
      var text := samples[j];
      var t := Test(text, intent.name);
      assert TestsOf(intent, k)[..j + 1] == TestsOf(intent, k)[..j] + [t];
      Concat(TestsOf(intent, k)[..j], [t], gemma, gemini);
      labels := labels + [intent.name];
      gemmaPreds := gemmaPreds + [PredictedIntent(gemma, text)];
      geminiPreds := geminiPreds + [PredictedIntent(gemini, text)];
      c := c + 1;
      FractionInUnit(c, total);
      progress := progress + [c as real / total as real];
      j := j + 1;
    }
    assert TestsOf(intent, k)[..j] == TestsOf(intent, k);
  }

  /** The progress bar after each sample reads `count / total`. */
  predicate CountsUp(progress: seq<real>, total: nat)
  {
    total > 0 && forall i :: 0 <= i < |progress| ==> progress[i] == (i + 1) as real / total as real
  }

  /** While no more samples are counted than the total, every progress
      value is in (0, 1]. */
  lemma CountsUpInUnit(progress: seq<real>, total: nat)
    requires CountsUp(progress, total) && |progress| <= total
    ensures forall i :: 0 <= i < |progress| ==> 0.0 < progress[i] <= 1.0
  {
    forall i | 0 <= i < |progress|
      ensures 0.0 < progress[i] <= 1.0
    {
      FractionInUnit(i + 1, total);
    }
  }

  /** Progress values that each read `count / total` for the sample just
      counted still do after the next intent's values are appended. */
  lemma ProgressAppend(progress: seq<real>, more: seq<real>, count: nat, total: nat)
    requires CountsUp(progress, total) && |progress| == count
    requires forall i :: 0 <= i < |more| ==> more[i] == (count + i + 1) as real / total as real
    ensures CountsUp(progress + more, total)
  {
    forall i | 0 <= i < |progress + more|
      ensures (progress + more)[i] == (i + 1) as real / total as real
    {
      if i >= |progress| {
        assert (progress + more)[i] == more[i - |progress|];
      }
    }
  }

  /** Label lists of concatenated tests are concatenated. */
  lemma Concat(a: seq<Test>, b: seq<Test>, gemma: Predictor, gemini: Predictor)
    ensures Labels(a + b) == Labels(a) + Labels(b)
    ensures Predictions(gemma, a + b) == Predictions(gemma, a) + Predictions(gemma, b)
    ensures Predictions(gemini, a + b) == Predictions(gemini, a) + Predictions(gemini, b)
  {
  }

  /** Comparing one more intent extends the tests, the labels and both
      prediction lists by that intent's own. */
  lemma ComparisonStep(selected: seq<Intent>, n: nat, k: nat, gemma: Predictor, gemini: Predictor)
    requires n < |selected|
    ensures var before := Tests(selected[..n], k);
            var more := TestsOf(selected[n], k);
            && Tests(selected[..n + 1], k) == before + more
            && Labels(Tests(selected[..n + 1], k)) == Labels(before) + Labels(more)
            && Predictions(gemma, Tests(selected[..n + 1], k)) == Predictions(gemma, before) + Predictions(gemma, more)
            && Predictions(gemini, Tests(selected[..n + 1], k)) == Predictions(gemini, before) + Predictions(gemini, more)
  {
    assert selected[..n + 1][..n] == selected[..n];
    Concat(Tests(selected[..n], k), TestsOf(selected[n], k), gemma, gemini);
  }

  /** Arithmetic helper: multiplying by a natural number keeps the order. */
  lemma MulMono(a: nat, b: nat, k: nat)
    requires a <= b
    ensures a * k <= b * k
  {
  }

  /** The tests before intent `n` and its own tests fit in `total`. */
  lemma SelectedRoom(selected: seq<Intent>, n: nat, k: nat, numIntents: nat)
    requires n < |selected| <= numIntents
    ensures |Tests(selected[..n], k)| + |TestsOf(selected[n], k)| <= numIntents * k
  {
    assert selected[..n + 1][..n] == selected[..n];
    TestsBound(selected[..n + 1], k);
    MulMono(n + 1, numIntents, k);
  }

  // ---------------------------------------------------------------------
  // Intent schema listing

  /** The text lines the schema tab writes for one intent's examples: at
      most ten, then "... and N more." exactly when there are more than
      ten. */
  method SchemaLines(examples: seq<string>) returns (lines: seq<string>)
    ensures |lines| == (if |examples| > 10 then 11 else |examples|)
    ensures forall i :: 0 <= i < |lines| && i < 10 && i < |examples| ==> lines[i] == "- " + examples[i]
    ensures |examples| > 10 ==> lines[10] == "... and " + NumberInput.ShowNat(|examples| - 10) + " more."
  {
    lines := [];
    var shown := Take(examples, 10);
    var i := 0;
    while i < |shown|
      invariant 0 <= i <= |shown|
      invariant |lines| == i
      invariant forall k :: 0 <= k < i ==> lines[k] == "- " + examples[k]
    {
      lines := lines + ["- " + shown[i]];
      i := i + 1;
    }
    if |examples| > 10 {
      lines := lines + ["... and " + NumberInput.ShowNat(|examples| - 10) + " more."];
    }
  }
}
