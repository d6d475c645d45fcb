/** The evaluation tab: run `/evaluate` with a number of samples per intent
    and show the overall accuracy and one card per intent of the
    classification report, each metric tinted by its band. */
module EvaluationTab {
  import opened Common
  import NumberInput

  datatype IntentMetrics = IntentMetrics(precision: real, recall: real, f1: real, support: int)

  /** The reply; the report's entries are listed in the order
      `Object.entries` yields them. */
  datatype EvaluateResponse = EvaluateResponse(overallAccuracy: real, report: seq<(string, IntentMetrics)>)

  /** The body posted to `/evaluate`. */
  datatype EvaluateRequest = EvaluateRequest(samplesPerIntent: int)

  /** The classes of a metric tile drawn in hue `h`. */
  function Tile(h: string): string
  {
    "from-" + h + "/20 to-" + h + "/5 border-" + h + "/30 text-" + h
  }

  /** Different hues give different tiles: the hue is read back from the
      tile's length and its text after `from-`. */
  lemma TileInjective(h1: string, h2: string)
    requires Tile(h1) == Tile(h2)
    ensures h1 == h2
  {
    assert |Tile(h1)| == 4 * |h1| + 31;
    assert |Tile(h2)| == 4 * |h2| + 31;
    assert Tile(h1)[5..5 + |h1|] == h1;
    assert Tile(h2)[5..5 + |h2|] == h2;
  }

  /** Each band has a tile of its own. */
  lemma TileOfHue(b: Band)
    ensures Tile(Hue(b)) == Tile("success") <==> b == Good
    ensures Tile(Hue(b)) == Tile("warning") <==> b == Moderate
    ensures Tile(Hue(b)) == Tile("destructive") <==> b == Poor
  {
    if Tile(Hue(b)) == Tile("success") { TileInjective(Hue(b), "success"); }
    if Tile(Hue(b)) == Tile("warning") { TileInjective(Hue(b), "warning"); }
    if Tile(Hue(b)) == Tile("destructive") { TileInjective(Hue(b), "destructive"); }
  }

  /** `getMetricColor`: the tint of one metric tile. */
  function MetricColor(value: real): (c: string)
    ensures c == Tile("success") <==> BandOf(value) == Good
    ensures c == Tile("warning") <==> BandOf(value) == Moderate
    ensures c == Tile("destructive") <==> BandOf(value) == Poor
  {
    TileOfHue(BandOf(value));
    Tile(Hue(BandOf(value)))
  }

  /** One intent card as drawn: the label and the tints of the precision,
      recall and F1 tiles; support is shown untinted. */
  datatype Card = Card(title: string, precision: string, recall: string, f1: string, support: int)

  /** One card per report entry, in the report's order. */
  function Cards(report: seq<(string, IntentMetrics)>): (cards: seq<Card>)
    ensures |cards| == |report|
    ensures forall i :: 0 <= i < |cards| ==>
              && cards[i].title == IntentLabel(report[i].0)
              && cards[i].precision == MetricColor(report[i].1.precision)
              && cards[i].recall == MetricColor(report[i].1.recall)
              && cards[i].f1 == MetricColor(report[i].1.f1)
              && cards[i].support == report[i].1.support
  {
    seq(|report|, i requires 0 <= i < |report| =>
      Card(IntentLabel(report[i].0), MetricColor(report[i].1.precision), MetricColor(report[i].1.recall),
           MetricColor(report[i].1.f1), report[i].1.support))
  }

  /** A perfect intent gets three green tiles and a useless one three red
      tiles, whatever its support. */
  lemma PerfectAndUselessCards(name: string, support: int)
    ensures var c := Cards([(name, IntentMetrics(1.0, 1.0, 1.0, support))])[0];
            c.precision == c.recall == c.f1 == Tile("success")
    ensures var c := Cards([(name, IntentMetrics(0.0, 0.0, 0.0, support))])[0];
            c.precision == c.recall == c.f1 == Tile("destructive")
  {
  }

  const EvaluateFailed := "Failed to evaluate"

  class EvaluationTab {
    var samplesPerIntent: int
    var data: Option<EvaluateResponse>
    var isLoading: bool
    var error: Option<string>

    constructor ()
      ensures samplesPerIntent == 10 && data == None && !isLoading && error == None
    {
      samplesPerIntent := 10;
      data := None;
      isLoading := false;
      error := None;
    }

    /** Editing the count: `parseInt(value) || 1`. */
    method EnterSamples(raw: string)
      modifies this
      ensures samplesPerIntent == NumberInput.CoerceCount(raw) && samplesPerIntent != 0
      ensures data == old(data) && isLoading == old(isLoading) && error == old(error)
    {
      samplesPerIntent := NumberInput.CoerceCount(raw);
    }

    predicate RunEnabled()
      reads this
    {
      !isLoading
    }

    /** `handleEvaluate` up to the `await`; earlier data stays on screen. */
    method StartRun() returns (request: EvaluateRequest)
      modifies this
      ensures isLoading && error == None
      ensures request == EvaluateRequest(samplesPerIntent)
      ensures samplesPerIntent == old(samplesPerIntent) && data == old(data)
    {
      isLoading := true;
      error := None;
      request := EvaluateRequest(samplesPerIntent);
    }

    /** The rest of `handleEvaluate`: success replaces the data, failure
        records the message and keeps the old data; loading ends. */
    method CompleteRun(outcome: Settled<EvaluateResponse>)
      modifies this
      ensures outcome.Resolved? ==> data == Some(outcome.value) && error == old(error)
      ensures outcome.Rejected? ==> data == old(data) && error == Some(ErrorText(outcome.thrown, EvaluateFailed))
      ensures !isLoading && samplesPerIntent == old(samplesPerIntent)
    {
      match outcome {
      case Resolved(r) => data := Some(r);
      case Rejected(t) => error := Some(ErrorText(t, EvaluateFailed));
      }
      isLoading := false;
    }

    /** "No Evaluation Data": idle, nothing loaded, no (non-empty) error. */
    predicate EmptyState()
      reads this
    {
      !isLoading && data.None? && !Truthy(error)
    }

    /** The report cards, drawn whenever data is present. */
    function Shown(): (cards: Option<seq<Card>>)
      reads this
      ensures cards.Some? <==> data.Some?
      ensures cards.Some? ==> |cards.value| == |data.value.report|
    {
      if data.Some? then Some(Cards(data.value.report)) else None
    }
  }

  /** Once an evaluation has succeeded, a later failure shows its error next
      to the earlier results and the empty state never returns. */
  method FailureAfterSuccess(first: EvaluateResponse, t: Thrown) returns (tab: EvaluationTab)
    ensures tab.data == Some(first) && !tab.EmptyState()
    ensures tab.error == Some(ErrorText(t, EvaluateFailed))
  {
    tab := new EvaluationTab();
    var _ := tab.StartRun();
    tab.CompleteRun(Resolved(first));
    var _ := tab.StartRun();
    tab.CompleteRun(Rejected(t));
  }
}
