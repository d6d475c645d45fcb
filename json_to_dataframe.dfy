/** `generate_csv`: flattens the loaded intent schema into one
    `{text, intent}` row per example, intent by intent. Writing the CSV file
    and printing are not modelled; the rows are the result. */
module JsonToDataframe {
  import opened Common
  import opened Json
  import opened JsonLoader

  datatype Row = Row(text: Json, intent: Json)

  /** The intents `for intent in data["intents"]` visits. */
  function Intents(rt: Runtime, data: Json): seq<Json>
    requires ValidSchema(rt, data)
  {
    Iterate(rt, data.fields["intents"]).value
  }

  /** The examples `for example in intent["examples"]` visits. */
  function Examples(rt: Runtime, intent: Json): seq<Json>
    requires ValidIntent(intent)
  {
    Iterate(rt, intent.fields["examples"]).value
  }

  /** The rows one intent contributes, its examples in their order. */
  function RowsOf(rt: Runtime, intent: Json): (rows: seq<Row>)
    requires ValidIntent(intent)
    ensures |rows| == |Examples(rt, intent)|
    ensures forall k :: 0 <= k < |rows| ==> rows[k] == Row(Examples(rt, intent)[k], intent.fields["name"])
  {
    seq(|Examples(rt, intent)|, k requires 0 <= k < |Examples(rt, intent)| => Row(Examples(rt, intent)[k], intent.fields["name"]))
  }

  /** The rows of a list of intents, intent-major. */
  function Rows(rt: Runtime, intents: seq<Json>): seq<Row>
    requires forall i :: 0 <= i < |intents| ==> ValidIntent(intents[i])
  {
    if intents == [] then [] else RowsOf(rt, intents[0]) + Rows(rt, intents[1..])
  }

  /** `generate_csv(path)`: the load error, or the rows the nested loop
      appends. */
  method GenerateCsv(rt: Runtime, path: string, file: FileContent) returns (r: Result<seq<Row>, LoadError>)
    ensures r.Err? <==> LoadIntents(rt, path, file).Err?
    ensures r.Err? ==> r.error == LoadIntents(rt, path, file).error
    ensures r.Ok? ==> r.value == Rows(rt, Intents(rt, LoadIntents(rt, path, file).value))
  {
    var loaded := LoadIntents(rt, path, file);
    if loaded.Err? {
      return Err(loaded.error);
    }
    var rows := Flatten(rt, Intents(rt, loaded.value));
    return Ok(rows);
  }

  /** The nested loop of `generate_csv`, appending one row per example. */
  method Flatten(rt: Runtime, intents: seq<Json>) returns (rows: seq<Row>)
    requires forall i :: 0 <= i < |intents| ==> ValidIntent(intents[i])
    ensures rows == Rows(rt, intents)
  {
    rows := [];
    var i := 0;
    while i < |intents|
      invariant 0 <= i <= |intents|
      invariant rows == Rows(rt, intents[..i])
    {
      var intent := intents[i];
      var examples := Examples(rt, intent);
      ghost var before := rows;
      var j := 0;
      while j < |examples|
        invariant 0 <= j <= |examples|
        invariant rows == before + RowsOf(rt, intent)[..j]
      {
        assert RowsOf(rt, intent)[..j + 1] == RowsOf(rt, intent)[..j] + [Row(examples[j], intent.fields["name"])];
        rows := rows + [Row(examples[j], intent.fields["name"])];
        j := j + 1;
      }
      assert RowsOf(rt, intent)[..j] == RowsOf(rt, intent);
      RowsSnoc(rt, intents[..i + 1]);
      assert intents[..i + 1][..i] == intents[..i];
      i := i + 1;
    }
    assert intents[..i] == intents;
  }

  /** Adding an intent at the end adds its rows at the end. */
  lemma {:induction false} RowsSnoc(rt: Runtime, intents: seq<Json>)
    requires intents != []
    requires forall i :: 0 <= i < |intents| ==> ValidIntent(intents[i])
    ensures Rows(rt, intents) == Rows(rt, intents[..|intents| - 1]) + RowsOf(rt, intents[|intents| - 1])
  {
    if |intents| > 1 {
      RowsSnoc(rt, intents[1..]);
      assert intents[1..][..|intents| - 2] == intents[..|intents| - 1][1..];
    }
  }

  /** Where the rows of intent `i` start: the example counts of the intents
      before it. */
  function Offset(rt: Runtime, intents: seq<Json>, i: nat): nat
    requires i <= |intents|
    requires forall k :: 0 <= k < |intents| ==> ValidIntent(intents[k])
  {
    if i == 0 then 0 else |Examples(rt, intents[0])| + Offset(rt, intents[1..], i - 1)
  }

  /** Example `k` of intent `i` is the row at `Offset(i) + k`, carrying that
      example and that intent's name: one row per (intent, example) pair,
      intent-major, in file order. */
  lemma {:induction false} RowAt(rt: Runtime, intents: seq<Json>, i: nat, k: nat)
    requires forall n :: 0 <= n < |intents| ==> ValidIntent(intents[n])
    requires i < |intents| && k < |Examples(rt, intents[i])|
    ensures Offset(rt, intents, i) + k < |Rows(rt, intents)|
    ensures Rows(rt, intents)[Offset(rt, intents, i) + k] == Row(Examples(rt, intents[i])[k], intents[i].fields["name"])
  {
    if i == 0 {
    } else {
      RowAt(rt, intents[1..], i - 1, k);
      RowsLength(rt, intents);
    }
  }

  lemma RowsLength(rt: Runtime, intents: seq<Json>)
    requires forall n :: 0 <= n < |intents| ==> ValidIntent(intents[n])
    requires intents != []
    ensures |Rows(rt, intents)| == |Examples(rt, intents[0])| + |Rows(rt, intents[1..])|
  {
  }

  /** The row count is the total of the example counts. */
  lemma {:induction false} RowCount(rt: Runtime, intents: seq<Json>)
    requires forall n :: 0 <= n < |intents| ==> ValidIntent(intents[n])
    ensures |Rows(rt, intents)| == Offset(rt, intents, |intents|)
  {
    if intents != [] {
      RowCount(rt, intents[1..]);
      RowsLength(rt, intents);
    }
  }

  /** Every loaded intent has at least one example, whether a list, a
      string or a dict, and so contributes at least one row: there are at
      least as many rows as intents. */
  lemma {:induction false} EveryIntentContributes(rt: Runtime, intents: seq<Json>)
    requires KeysOnce(rt)
    requires forall n :: 0 <= n < |intents| ==> ValidIntent(intents[n])
    ensures |Rows(rt, intents)| >= |intents|
  {
    if intents != [] {
      EveryIntentContributes(rt, intents[1..]);
    }
  }
}
