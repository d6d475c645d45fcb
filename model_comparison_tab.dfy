/** The model-comparison tab: run `/compare_models` and show one card per
    model with its four metrics, its overall score (the mean of the four)
    and a winner badge on the model whose score is strictly higher. */
module ModelComparisonTab {
  import opened Common
  import NumberInput

  datatype ModelMetrics = ModelMetrics(accuracy: real, precision: real, recall: real, f1: real)

  datatype CompareModelsResponse = CompareModelsResponse(gemma: ModelMetrics, qwen: ModelMetrics)

  /** The body posted to `/compare_models`. */
  datatype CompareRequest = CompareRequest(numIntents: int, samplesPerIntent: int)

  datatype Side = Gemma | Qwen

  /** The mean of the four metrics (exact arithmetic; the browser's
      floating point is not modelled). */
  function Score(m: ModelMetrics): real
  {
    (m.accuracy + m.precision + m.recall + m.f1) / 4.0
  }

  /** When every metric is a fraction, so is the score. */
  lemma ScoreIsFraction(m: ModelMetrics)
    requires 0.0 <= m.accuracy <= 1.0 && 0.0 <= m.precision <= 1.0
    requires 0.0 <= m.recall <= 1.0 && 0.0 <= m.f1 <= 1.0
    ensures 0.0 <= Score(m) <= 1.0
  {
  }

  /** `getWinner`: the side with the strictly higher score; a tie and the
      absence of data give no winner. */
  function Winner(data: Option<CompareModelsResponse>): (w: Option<Side>)
    ensures data.None? ==> w.None?
    ensures data.Some? ==> (w == Some(Gemma) <==> Score(data.value.gemma) > Score(data.value.qwen))
    ensures data.Some? ==> (w == Some(Qwen) <==> Score(data.value.qwen) > Score(data.value.gemma))
    ensures data.Some? ==> (w.None? <==> Score(data.value.gemma) == Score(data.value.qwen))
  {
    match data
    case None => None
    case Some(d) =>
      if Score(d.gemma) > Score(d.qwen) then Some(Gemma)
      else if Score(d.qwen) > Score(d.gemma) then Some(Qwen)
      else None
  }

  function Swap(d: CompareModelsResponse): CompareModelsResponse
  {
    CompareModelsResponse(d.qwen, d.gemma)
  }

  function Other(s: Side): Side
  {
    match s
    case Gemma => Qwen
    case Qwen => Gemma
  }

  /** The winner depends on the scores only, not on which side a model
      sits: swapping the two metric sets swaps the winner. */
  lemma WinnerSymmetric(d: CompareModelsResponse)
    ensures Winner(Some(Swap(d))) == (if Winner(Some(d)).Some? then Some(Other(Winner(Some(d)).value)) else None)
  {
  }

  /** A model at least as good on every metric and better on one wins. */
  lemma DominantModelWins(d: CompareModelsResponse)
    requires d.gemma.accuracy >= d.qwen.accuracy && d.gemma.precision >= d.qwen.precision
    requires d.gemma.recall >= d.qwen.recall && d.gemma.f1 >= d.qwen.f1
    requires d.gemma != d.qwen
    ensures Winner(Some(d)) == Some(Gemma)
  {
  }

  /** `pattern` occurs in `s` at position `i`. */
  predicate At(s: string, pattern: string, i: int)
  {
    0 <= i && i + |pattern| <= |s| && s[i..i + |pattern|] == pattern
  }

  /** `i` is the first position where `pattern` occurs in `s`. */
  predicate FirstAt(s: string, pattern: string, i: int)
  {
    At(s, pattern, i) && forall j :: 0 <= j < i ==> !At(s, pattern, j)
  }

  /** `s.replace(pattern, replacement)` with a string pattern: text without
      an occurrence is unchanged, and a leading occurrence is replaced
      (`ReplacesFirstOccurrence` covers the general case). */
  function ReplaceFirstText(s: string, pattern: string, replacement: string): (r: string)
    requires pattern != []
    ensures (forall i :: !At(s, pattern, i)) ==> r == s
    ensures At(s, pattern, 0) ==> r == replacement + s[|pattern|..]
    decreases |s|
  {
    if At(s, pattern, 0) then replacement + s[|pattern|..]
    else if s == [] then []
    else
      assert forall i :: At(s[1..], pattern, i) ==> At(s, pattern, i + 1) by {
        forall i | At(s[1..], pattern, i)
          ensures At(s, pattern, i + 1)
        {
          assert s[1..][i..i + |pattern|] == s[i + 1..i + 1 + |pattern|];
        }
      }
      [s[0]] + ReplaceFirstText(s[1..], pattern, replacement)
  }

  /** A slice of the tail of `s` is the slice of `s` one position further. */
  lemma TailSlice(s: string, a: nat, b: nat)
    requires s != [] && a <= b <= |s| - 1
    ensures s[1..][a..b] == s[a + 1..b + 1]
  {
  }

  /** An occurrence in the tail of `s` is an occurrence in `s` one position
      further, and the other way round. */
  lemma TailAt(s: string, pattern: string, j: nat)
    requires s != []
    ensures At(s[1..], pattern, j) <==> At(s, pattern, j + 1)
  {
    if j + |pattern| <= |s| - 1 {
      TailSlice(s, j, j + |pattern|);
    }
  }

  /** The first occurrence in `s`, when not at the start, is the first
      occurrence in its tail one position earlier. */
  lemma FirstAtTail(s: string, pattern: string, i: nat)
    requires i > 0 && FirstAt(s, pattern, i)
    ensures s != [] && !At(s, pattern, 0) && FirstAt(s[1..], pattern, i - 1)
  {
    TailAt(s, pattern, i - 1);
    forall j | 0 <= j < i - 1
      ensures !At(s[1..], pattern, j)
    {
      TailAt(s, pattern, j);
    }
  }

  /** Without a leading occurrence the first character is kept. */
  lemma ReplaceFirstTextStep(s: string, pattern: string, replacement: string)
    requires pattern != [] && s != [] && !At(s, pattern, 0)
    ensures ReplaceFirstText(s, pattern, replacement) == [s[0]] + ReplaceFirstText(s[1..], pattern, replacement)
  {
  }

  /** Putting the first character back in front of a split tail. */
  lemma ConsSplit(s: string, i: nat, k: nat, replacement: string)
    requires 0 < i && i + k <= |s|
    ensures [s[0]] + (s[1..][..i - 1] + replacement + s[1..][i - 1 + k..]) == s[..i] + replacement + s[i + k..]
  {
    assert s[1..][..i - 1] == s[1..i];
    assert s[1..][i - 1 + k..] == s[i + k..];
    assert [s[0]] + s[1..i] == s[..i];
  }

  /** Only the first occurrence is replaced: the text before it and after
      it is kept as it was. */
  lemma {:induction false} ReplacesFirstOccurrence(s: string, pattern: string, replacement: string, i: nat)
    requires pattern != [] && FirstAt(s, pattern, i)
    ensures ReplaceFirstText(s, pattern, replacement) == s[..i] + replacement + s[i + |pattern|..]
    decreases i
  {
    if i == 0 {
      assert s[..0] + replacement == replacement;
    } else {
      FirstAtTail(s, pattern, i);
      ReplacesFirstOccurrence(s[1..], pattern, replacement, i - 1);
      ReplaceFirstTextStep(s, pattern, replacement);
      ConsSplit(s, i, |pattern|, replacement);
    }
  }

  /** One metric bar: its caption, its value and the class of its fill. */
  datatype MetricBar = MetricBar(caption: string, value: real, fill: string)

  function Bar(caption: string, value: real, colour: string): MetricBar
  {
    MetricBar(caption, value, ReplaceFirstText(colour, "text-", "bg-"))
  }

  /** A `text-` colour class becomes the `bg-` class of the same colour. */
  lemma TextToBackground(colour: string)
    ensures ReplaceFirstText("text-" + colour, "text-", "bg-") == "bg-" + colour
  {
    assert At("text-" + colour, "text-", 0);
    assert ("text-" + colour)[5..] == colour;
  }

  /** The fills of the four bars. */
  lemma FillClasses()
    ensures ReplaceFirstText("text-primary", "text-", "bg-") == "bg-primary"
    ensures ReplaceFirstText("text-success", "text-", "bg-") == "bg-success"
    ensures ReplaceFirstText("text-accent", "text-", "bg-") == "bg-accent"
    ensures ReplaceFirstText("text-warning", "text-", "bg-") == "bg-warning"
  {
    TextToBackground("primary");
    assert "text-" + "primary" == "text-primary" && "bg-" + "primary" == "bg-primary";
    TextToBackground("success");
    assert "text-" + "success" == "text-success" && "bg-" + "success" == "bg-success";
    TextToBackground("accent");
    assert "text-" + "accent" == "text-accent" && "bg-" + "accent" == "bg-accent";
    TextToBackground("warning");
    assert "text-" + "warning" == "text-warning" && "bg-" + "warning" == "bg-warning";
  }

  /** A model card as drawn. */
  datatype CardView = CardView(
    name: string, avatar: string, subtitle: string, bars: seq<MetricBar>, overallPercent: real, winnerBadge: bool)

  /** `ModelCard`: the four bars in a fixed order and colour, the overall
      score as a percentage; the blue avatar is for `gemma` only. */
  function ModelCard(name: string, m: ModelMetrics, winner: bool): (c: CardView)
    ensures c.bars == [MetricBar("Accuracy", m.accuracy, "bg-primary"), MetricBar("Precision", m.precision, "bg-success"),
                       MetricBar("Recall", m.recall, "bg-accent"), MetricBar("F1 Score", m.f1, "bg-warning")]
    ensures c.overallPercent == Score(m) * 100.0
    ensures c.winnerBadge == winner
    ensures c.subtitle == "Ollama Local"
  {
    FillClasses();
    CardView(
      name,
      if name == "gemma" then "from-blue-500 to-cyan-500" else "from-purple-500 to-pink-500",
      if name == "gemma" then "Ollama Local" else "Ollama Local",
      [Bar("Accuracy", m.accuracy, "text-primary"), Bar("Precision", m.precision, "text-success"),
       Bar("Recall", m.recall, "text-accent"), Bar("F1 Score", m.f1, "text-warning")],
      ((m.accuracy + m.precision + m.recall + m.f1) / 4.0) * 100.0,
      winner)
  }

  /** The two cards drawn when data is present, gemma first. */
  function Cards(data: Option<CompareModelsResponse>): (cards: seq<CardView>)
    ensures data.None? ==> cards == []
    ensures data.Some? ==> |cards| == 2 && cards[0].name == "gemma" && cards[1].name == "qwen"
    ensures data.Some? ==> cards[0].winnerBadge == (Winner(data) == Some(Gemma))
    ensures data.Some? ==> cards[1].winnerBadge == (Winner(data) == Some(Qwen))
  {
    match data
    case None => []
    case Some(d) =>
      [ModelCard("gemma", d.gemma, Winner(data) == Some(Gemma)), ModelCard("qwen", d.qwen, Winner(data) == Some(Qwen))]
  }

  /** At most one card carries the winner badge, and exactly one unless
      the scores tie. */
  lemma AtMostOneWinnerBadge(data: CompareModelsResponse)
    ensures !(Cards(Some(data))[0].winnerBadge && Cards(Some(data))[1].winnerBadge)
    ensures Cards(Some(data))[0].winnerBadge || Cards(Some(data))[1].winnerBadge <==> Score(data.gemma) != Score(data.qwen)
  {
  }

  /** The badge goes to the card with the higher overall percentage. */
  lemma BadgeOnHigherPercent(data: CompareModelsResponse, i: nat)
    requires i < 2 && Cards(Some(data))[i].winnerBadge
    ensures Cards(Some(data))[i].overallPercent > Cards(Some(data))[1 - i].overallPercent
  {
  }

  const CompareFailed := "Failed to compare models"

  class ModelComparisonTab {
    var numIntents: int
    var samplesPerIntent: int
    var data: Option<CompareModelsResponse>
    var isLoading: bool
    var error: Option<string>

    constructor ()
      ensures numIntents == 5 && samplesPerIntent == 10
      ensures data == None && !isLoading && error == None
    {
      numIntents := 5;
      samplesPerIntent := 10;
      data := None;
      isLoading := false;
      error := None;
    }

    /** Editing the intent count: `parseInt(value) || 1`. */
    method EnterIntents(raw: string)
      modifies this
      ensures numIntents == NumberInput.CoerceCount(raw) && numIntents != 0
      ensures samplesPerIntent == old(samplesPerIntent) && data == old(data)
      ensures isLoading == old(isLoading) && error == old(error)
    {
      numIntents := NumberInput.CoerceCount(raw);
    }

    /** Editing the per-intent count: `parseInt(value) || 1`. */
    method EnterSamples(raw: string)
      modifies this
      ensures samplesPerIntent == NumberInput.CoerceCount(raw) && samplesPerIntent != 0
      ensures numIntents == old(numIntents) && data == old(data)
      ensures isLoading == old(isLoading) && error == old(error)
    {
      samplesPerIntent := NumberInput.CoerceCount(raw);
    }

    predicate RunEnabled()
      reads this
    {
      !isLoading
    }

    /** `handleCompare` up to the `await`. */
    method StartRun() returns (request: CompareRequest)
      modifies this
      ensures isLoading && error == None
      ensures request == CompareRequest(numIntents, samplesPerIntent)
      ensures numIntents == old(numIntents) && samplesPerIntent == old(samplesPerIntent) && data == old(data)
    {
      isLoading := true;
      error := None;
      request := CompareRequest(numIntents, samplesPerIntent);
    }

    /** The rest of `handleCompare`. */
    method CompleteRun(outcome: Settled<CompareModelsResponse>)
      modifies this
      ensures outcome.Resolved? ==> data == Some(outcome.value) && error == old(error)
      ensures outcome.Rejected? ==> data == old(data) && error == Some(ErrorText(outcome.thrown, CompareFailed))
      ensures !isLoading
      ensures numIntents == old(numIntents) && samplesPerIntent == old(samplesPerIntent)
    {
      match outcome {
      case Resolved(r) => data := Some(r);
      case Rejected(t) => error := Some(ErrorText(t, CompareFailed));
      }
      isLoading := false;
    }

    /** "Compare Models": idle, no data, no (non-empty) error. */
    predicate EmptyState()
      reads this
    {
      !isLoading && data.None? && !Truthy(error)
    }
  }
}
