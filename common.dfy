/** Values shared by the console's tabs and the Python back end: optional
    values, the outcome of an awaited request, whitespace stripping in the
    JavaScript and the Python sense, and the three-way score banding. */
module Common {

  datatype Option<+T> = None | Some(value: T)

  datatype Result<+T, +E> = Ok(value: T) | Err(error: E)

  /** What a `catch (err)` block receives: an `Error` object carrying its
      message, or any other thrown value. */
  datatype Thrown = ErrorObject(message: string) | OtherValue

  /** How an awaited promise settled. */
  datatype Settled<+T> = Resolved(value: T) | Rejected(thrown: Thrown)

  /** `err instanceof Error ? err.message : fallback` */
  function ErrorText(t: Thrown, fallback: string): string
  {
    match t
    case ErrorObject(m) => m
    case OtherValue => fallback
  }

  /** JavaScript truthiness of a `string | null` state field. */
  predicate Truthy(s: Option<string>)
  {
    s.Some? && s.value != ""
  }

  // ---------------------------------------------------------------------
  // Searching

  /** Position of the first `c` in `s`. */
  function FirstIndex(s: string, c: char): (r: Option<nat>)
    ensures r.Some? ==> r.value < |s| && s[r.value] == c
    ensures r.Some? ==> forall k :: 0 <= k < r.value ==> s[k] != c
    ensures r.None? ==> forall k :: 0 <= k < |s| ==> s[k] != c
  {
    if s == [] then None
    else if s[0] == c then Some(0)
    else match FirstIndex(s[1..], c)
      case None => None
      case Some(i) => Some(i + 1)
  }

  /** Position of the last `c` in `s`. */
  function LastIndex(s: string, c: char): (r: Option<nat>)
    ensures r.Some? ==> r.value < |s| && s[r.value] == c
    ensures r.Some? ==> forall k :: r.value < k < |s| ==> s[k] != c
    ensures r.None? ==> forall k :: 0 <= k < |s| ==> s[k] != c
  {
    if s == [] then None
    else if s[|s| - 1] == c then Some(|s| - 1)
    else LastIndex(s[..|s| - 1], c)
  }

  /** `s.replace(from, to)` with a string pattern of one character: only
      the first occurrence is replaced. */
  function ReplaceFirst(s: string, from: char, to: char): (r: string)
    ensures FirstIndex(s, from).None? ==> r == s
    ensures FirstIndex(s, from).Some? ==>
              var k := FirstIndex(s, from).value; r == s[..k] + [to] + s[k + 1..]
  {
    if s == [] then []
    else if s[0] == from then [to] + s[1..]
    else [s[0]] + ReplaceFirst(s[1..], from, to)
  }

  /** How an intent name is shown as a label: `intent.replace('_', ' ')`. */
  function IntentLabel(intent: string): string
  {
    ReplaceFirst(intent, '_', ' ')
  }

  /** Only the first underscore becomes a space. */
  lemma LabelKeepsLaterUnderscores()
    ensures IntentLabel("a_b_c") == "a b_c"
  {
    assert FirstIndex("a_b_c", '_') == Some(1);
  }

  /** An intent name with a single underscore, like the sample
      `help_request`, gets a label with no underscore and the same length. */
  lemma SingleUnderscoreLabel(s: string, k: nat)
    requires k < |s| && s[k] == '_'
    requires forall j :: 0 <= j < |s| && j != k ==> s[j] != '_'
    ensures '_' !in IntentLabel(s) && |IntentLabel(s)| == |s|
  {
    assert FirstIndex(s, '_') == Some(k);
  }

  // ---------------------------------------------------------------------
  // Whitespace stripping

  /** Whose notion of whitespace: `String.prototype.trim` or `str.strip`. */
  datatype Flavour = Js | Py

  /** ECMAScript WhiteSpace and LineTerminator code points (what `trim` removes). */
  predicate JsSpace(c: char)
  {
    || ('\U{9}' <= c <= '\U{D}')
    || c == ' ' || c == '\U{A0}' || c == '\U{1680}'
    || ('\U{2000}' <= c <= '\U{200A}')
    || c == '\U{2028}' || c == '\U{2029}' || c == '\U{202F}' || c == '\U{205F}'
    || c == '\U{3000}' || c == '\U{FEFF}'
  }

  /** Python's `str.isspace` code points (what `strip()` with no argument removes). */
  predicate PySpace(c: char)
  {
    || ('\U{9}' <= c <= '\U{D}')
    || ('\U{1C}' <= c <= '\U{1F}')
    || c == ' ' || c == '\U{85}' || c == '\U{A0}' || c == '\U{1680}'
    || ('\U{2000}' <= c <= '\U{200A}')
    || c == '\U{2028}' || c == '\U{2029}' || c == '\U{202F}' || c == '\U{205F}'
    || c == '\U{3000}'
  }

  predicate IsSpace(f: Flavour, c: char)
  {
    match f
    case Js => JsSpace(c)
    case Py => PySpace(c)
  }

  /** Drops leading whitespace: the result is a suffix of `s` that does not
      start with whitespace, and everything dropped was whitespace. */
  function StripStart(f: Flavour, s: string): (r: string)
    ensures |r| <= |s| && r == s[|s| - |r|..]
    ensures r != [] ==> !IsSpace(f, r[0])
    ensures forall i :: 0 <= i < |s| - |r| ==> IsSpace(f, s[i])
  {
    if s != [] && IsSpace(f, s[0]) then StripStart(f, s[1..]) else s
  }

  /** Drops trailing whitespace: the result is a prefix of `s` that does not
      end with whitespace, and everything dropped was whitespace. */
  function StripEnd(f: Flavour, s: string): (r: string)
    ensures |r| <= |s| && r == s[..|r|]
    ensures r != [] ==> !IsSpace(f, r[|r| - 1])
    ensures forall i :: |r| <= i < |s| ==> IsSpace(f, s[i])
  {
    if s != [] && IsSpace(f, s[|s| - 1]) then StripEnd(f, s[..|s| - 1]) else s
  }

  /** `s.trim()` for `Js`, `s.strip()` for `Py`. */
  function Strip(f: Flavour, s: string): string
  {
    StripEnd(f, StripStart(f, s))
  }

  predicate Blank(f: Flavour, s: string)
  {
    forall i :: 0 <= i < |s| ==> IsSpace(f, s[i])
  }

  /** Stripping leaves nothing exactly when the text is all whitespace. */
  lemma StripEmptyIffBlank(f: Flavour, s: string)
    ensures Strip(f, s) == [] <==> Blank(f, s)
  {
    var t := StripStart(f, s);
    if Strip(f, s) == [] {
      // `t` does not start with whitespace, yet `StripEnd` dropped all of it.
      assert t == [];
    } else {
      assert t != [] && s[|s| - |t|] == t[0];
    }
  }

  /** Stripping twice is stripping once. */
  lemma StripIdempotent(f: Flavour, s: string)
    ensures Strip(f, Strip(f, s)) == Strip(f, s)
  {
    var r := Strip(f, s);
    assert StripStart(f, r) == r;
    assert StripEnd(f, r) == r;
  }

  // ---------------------------------------------------------------------
  // Score banding

  /** The three colour bands every score display uses. */
  datatype Band = Good | Moderate | Poor

  /** `v >= 0.8` is good, `v >= 0.5` moderate, anything lower poor. */
  function BandOf(v: real): (b: Band)
    ensures b == Good <==> 0.8 <= v
    ensures b == Moderate <==> 0.5 <= v < 0.8
    ensures b == Poor <==> v < 0.5
  {
    if v >= 0.8 then Good else if v >= 0.5 then Moderate else Poor
  }

  /** The theme colour each band is drawn in. */
  function Hue(b: Band): (h: string)
    ensures h == "success" <==> b == Good
    ensures h == "warning" <==> b == Moderate
    ensures h == "destructive" <==> b == Poor
  {
    match b
    case Good => "success"
    case Moderate => "warning"
    case Poor => "destructive"
  }

  function Rank(b: Band): nat
  {
    match b
    case Poor => 0
    case Moderate => 1
    case Good => 2
  }

  /** A higher score never lands in a lower band. */
  lemma BandMonotonic(v: real, w: real)
    requires v <= w
    ensures Rank(BandOf(v)) <= Rank(BandOf(w))
  {
  }
}
