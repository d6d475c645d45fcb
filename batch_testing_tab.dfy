/** The batch-testing tab: pick one of the sample intents and a sample
    count, run `/batch_test`, and list each sample with its predicted
    intent, a coloured confidence and a match mark. */
module BatchTestingTab {
  import opened Common
  import NumberInput

  const SampleIntents: seq<string> := ["greeting", "farewell", "help_request", "order_status", "product_inquiry",
                                       "complaint", "feedback", "booking", "cancellation", "payment"]

  datatype BatchTestResult = BatchTestResult(text: string, predictedIntent: string, confidence: real, entities: map<string, string>)

  /** The body posted to `/batch_test`. */
  datatype BatchTestRequest = BatchTestRequest(intent: string, numSamples: int)

  /** `getConfidenceColor` */
  function ConfidenceColor(confidence: real): (c: string)
    ensures c == "text-success" <==> 0.8 <= confidence
    ensures c == "text-warning" <==> 0.5 <= confidence < 0.8
    ensures c == "text-destructive" <==> confidence < 0.5
  {
    "text-" + Hue(BandOf(confidence))
  }

  /** One table row as drawn. */
  datatype RowView = RowView(text: string, predicted: string, colour: string, matched: bool)

  /** The table: one row per result in order; the match mark compares each
      prediction with the intent selected now, not the one the run used. */
  function Table(results: seq<BatchTestResult>, selectedIntent: string): (rows: seq<RowView>)
    ensures |rows| == |results|
    ensures forall i :: 0 <= i < |rows| ==>
              && rows[i].text == results[i].text && rows[i].predicted == results[i].predictedIntent
              && rows[i].colour == ConfidenceColor(results[i].confidence)
              && (rows[i].matched <==> results[i].predictedIntent == selectedIntent)
  {
    seq(|results|, i requires 0 <= i < |results| =>
      RowView(results[i].text, results[i].predictedIntent, ConfidenceColor(results[i].confidence),
              results[i].predictedIntent == selectedIntent))
  }

  const RunFailed := "Failed to run batch test"

  class BatchTestingTab {
    var selectedIntent: string
    var numSamples: int
    var results: seq<BatchTestResult>
    var isLoading: bool
    var error: Option<string>

    constructor ()
      ensures selectedIntent == "greeting" && numSamples == 5
      ensures results == [] && !isLoading && error == None
    {
      selectedIntent := "greeting";
      numSamples := 5;
      results := [];
      isLoading := false;
      error := None;
    }

    /** Choosing an intent in the drop-down. */
    method SelectIntent(intent: string)
      modifies this
      ensures selectedIntent == intent
      ensures numSamples == old(numSamples) && results == old(results)
      ensures isLoading == old(isLoading) && error == old(error)
    {
      selectedIntent := intent;
    }

    /** Editing the sample count: `parseInt(value) || 1`. */
    method EnterSamples(raw: string)
      modifies this
      ensures numSamples == NumberInput.CoerceCount(raw) && numSamples != 0
      ensures selectedIntent == old(selectedIntent) && results == old(results)
      ensures isLoading == old(isLoading) && error == old(error)
    {
      numSamples := NumberInput.CoerceCount(raw);
    }

    /** The run button is disabled while a run is in flight. */
    predicate RunEnabled()
      reads this
    {
      !isLoading
    }

    /** `handleRunTest` up to the `await`: loading starts, the error is
        cleared, the results stay, and the request carries the current
        selection and count. */
    method StartRun() returns (request: BatchTestRequest)
      modifies this
      ensures isLoading && error == None
      ensures request == BatchTestRequest(selectedIntent, numSamples)
      ensures selectedIntent == old(selectedIntent) && numSamples == old(numSamples) && results == old(results)
    {
      isLoading := true;
      error := None;
      request := BatchTestRequest(selectedIntent, numSamples);
    }

    /** The rest of `handleRunTest`: success replaces the results
        wholesale; failure records the message and keeps the old results;
        loading ends either way. */
    method CompleteRun(outcome: Settled<seq<BatchTestResult>>)
      modifies this
      ensures outcome.Resolved? ==> results == outcome.value && error == old(error)
      ensures outcome.Rejected? ==> results == old(results) && error == Some(ErrorText(outcome.thrown, RunFailed))
      ensures !isLoading
      ensures selectedIntent == old(selectedIntent) && numSamples == old(numSamples)
    {
      match outcome {
      case Resolved(r) => results := r;
      case Rejected(t) => error := Some(ErrorText(t, RunFailed));
      }
      isLoading := false;
    }

    /** "No Results Yet" shows exactly when nothing is loading, there are no
        results and no (non-empty) error. */
    predicate EmptyState()
      reads this
    {
      !isLoading && |results| == 0 && !Truthy(error)
    }

    /** The results table as currently drawn. */
    function Rows(): (rows: seq<RowView>)
      reads this
      ensures |rows| == |results|
      ensures forall i :: 0 <= i < |rows| ==> (rows[i].matched <==> results[i].predictedIntent == selectedIntent)
    {
      Table(results, selectedIntent)
    }
  }

  /** A run for the default intent comes back, then another intent is
      chosen: the same results are re-marked against the new choice, so the
      rows the run's own intent predicted stop matching. */
  method ReselectAfterRun(results: seq<BatchTestResult>, other: string) returns (tab: BatchTestingTab)
    requires other != "greeting"
    ensures tab.results == results && tab.selectedIntent == other
    ensures |tab.Rows()| == |results|
    ensures forall i :: 0 <= i < |results| ==> (tab.Rows()[i].matched <==> results[i].predictedIntent == other)
    ensures forall i :: 0 <= i < |results| && results[i].predictedIntent == "greeting" ==> !tab.Rows()[i].matched
  {
    tab := new BatchTestingTab();
    var request := tab.StartRun();
    assert request.intent == "greeting";
    tab.CompleteRun(Resolved(results));
    tab.SelectIntent(other);
  }

  /** A rejection whose error has an empty message shows no error banner,
      and with no earlier results the empty state comes back. */
  method EmptyMessageShowsEmptyState() returns (tab: BatchTestingTab)
    ensures tab.EmptyState()
  {
    tab := new BatchTestingTab();
    var _ := tab.StartRun();
    tab.CompleteRun(Rejected(ErrorObject("")));
  }
}
