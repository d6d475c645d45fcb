/** `re.search(r"\{.*\}", raw_output, re.DOTALL)` as both NLU wrappers use
    it to cut a JSON object out of a model's reply. With DOTALL the dot
    matches every character, the search takes the leftmost start (the first
    `{`) and the greedy `.*` runs to the last `}` after it. */
module BraceSpan {
  import opened Common

  /** A match of the pattern: the half-open range `[start, end)` of `s`. */
  datatype Match = Match(start: nat, end: nat)

  /** The match exists exactly when some `}` follows some `{`; it starts at
      the first `{` of the text and ends just after its last `}`. */
  function Search(s: string): (r: Option<Match>)
    ensures r.None? <==> forall i, j :: 0 <= i < j < |s| && s[i] == '{' ==> s[j] != '}'
    ensures r.Some? ==> r.value.start < r.value.end <= |s|
    ensures r.Some? ==> s[r.value.start] == '{' && s[r.value.end - 1] == '}'
    ensures r.Some? ==> forall k :: 0 <= k < r.value.start ==> s[k] != '{'
    ensures r.Some? ==> forall k :: r.value.end <= k < |s| ==> s[k] != '}'
  {
    match FirstIndex(s, '{')
    case None => None
    case Some(a) =>
      match LastIndex(s, '}')
      case None => None
      case Some(b) => if a < b then Some(Match(a, b + 1)) else None
  }

  /** `match.group()`: the matched text, which opens with `{` and closes with `}`. */
  function Extract(s: string): (r: Option<string>)
    ensures r.Some? <==> Search(s).Some?
    ensures r.Some? ==> |r.value| >= 2 && r.value[0] == '{' && r.value[|r.value| - 1] == '}'
  {
    match Search(s)
    case None => None
    case Some(m) => Some(s[m.start..m.end])
  }

  /** Text before the first `{` and after the last `}` never changes the span. */
  lemma {:induction false} SearchIgnoresSurroundings(pre: string, body: string, post: string)
    requires forall k :: 0 <= k < |pre| ==> pre[k] != '{'
    requires forall k :: 0 <= k < |post| ==> post[k] != '}'
    requires |body| >= 2 && body[0] == '{' && body[|body| - 1] == '}'
    ensures Extract(pre + body + post) == Some(body)
  {
    var s := pre + body + post;
    assert s[|pre|] == '{';
    assert s[|pre| + |body| - 1] == '}';
    var m := Search(s).value;
    assert s[m.start..m.end] == body;
  }
}
