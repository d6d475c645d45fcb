/** Python-side JSON values (what `json.loads` and `yaml.safe_load` return)
    and the few Python operations the back end applies to them. */
module Json {
  import opened Common

  datatype Json =
    | JNull
    | JBool(b: bool)
    | JNum(n: real)
    | JStr(s: string)
    | JArr(items: seq<Json>)
    | JObj(fields: map<string, Json>)

  /** Python truthiness: `None`, `False`, zero and empty containers are falsy. */
  predicate PyTruthy(j: Json)
  {
    match j
    case JNull => false
    case JBool(b) => b
    case JNum(n) => n != 0.0
    case JStr(s) => s != ""
    case JArr(xs) => xs != []
    case JObj(m) => m != map[]
  }

  /** `a or b` */
  function PyOr(a: Json, b: Json): Json
  {
    if PyTruthy(a) then a else b
  }

  /** `d.get(k, default)` on a dict. */
  function Get(d: map<string, Json>, k: string, default: Json): Json
  {
    if k in d then d[k] else default
  }

  /** Foreign code the back end calls and this model does not define:
      `json.loads` (`None` when it raises) and `float()` applied to a
      string (`None` when it raises `ValueError`), and the insertion order
      of a dict's keys, which a `map` does not keep. */
  datatype Runtime = Runtime(loads: string -> Option<Json>, floatOfStr: string -> Option<real>,
                             keyOrder: map<string, Json> -> seq<string>)

  /** Python's `for k in d` visits every key of `d` exactly once: the
      runtime's key order lists the keys of the dict and has its size. */
  ghost predicate KeysOnce(rt: Runtime)
  {
    forall m: map<string, Json> ::
      |rt.keyOrder(m)| == |m| && forall k :: k in m <==> k in rt.keyOrder(m)
  }

  /** `float(j)`; `None` when Python raises. */
  function ToFloat(rt: Runtime, j: Json): Option<real>
  {
    match j
    case JNum(n) => Some(n)
    case JBool(b) => Some(if b then 1.0 else 0.0)
    case JStr(s) => rt.floatOfStr(s)
    case _ => None
  }

  /** `a` occurs in `s` as a contiguous run. */
  predicate IsInfix(a: string, s: string)
    decreases |s|
  {
    (|a| <= |s| && s[..|a|] == a) || (s != [] && IsInfix(a, s[1..]))
  }

  /** `key in j` for a string key; `None` when Python raises `TypeError`. */
  function Contains(j: Json, key: string): Option<bool>
  {
    match j
    case JObj(m) => Some(key in m)
    case JArr(xs) => Some(JStr(key) in xs)
    case JStr(s) => Some(IsInfix(key, s))
    case _ => None
  }

  /** `j[key]` for a string key; `None` when Python raises. */
  function Subscript(j: Json, key: string): (r: Option<Json>)
    ensures r.Some? <==> j.JObj? && key in j.fields
  {
    if j.JObj? && key in j.fields then Some(j.fields[key]) else None
  }

  /** `len(j)`; `None` when Python raises `TypeError`. */
  function PyLen(j: Json): Option<nat>
  {
    match j
    case JStr(s) => Some(|s|)
    case JArr(xs) => Some(|xs|)
    case JObj(m) => Some(|m|)
    case _ => None
  }

  /** The one-character strings of `s`, as iterating over a `str` yields them. */
  function Chars(s: string): (r: seq<Json>)
    ensures |r| == |s| && forall i :: 0 <= i < |s| ==> r[i] == JStr([s[i]])
  {
    seq(|s|, i requires 0 <= i < |s| => JStr([s[i]]))
  }

  /** What `for x in j` visits: list items, the characters of a string, or
      a dict's keys in insertion order; `None` when `j` is not iterable. */
  function Iterate(rt: Runtime, j: Json): (r: Option<seq<Json>>)
    ensures r.Some? <==> PyLen(j).Some?
    ensures r.Some? && (!j.JObj? || KeysOnce(rt)) ==> |r.value| == PyLen(j).value
    ensures j.JObj? && KeysOnce(rt) ==> forall k :: k in j.fields <==> JStr(k) in r.value
  {
    match j
    case JArr(xs) => Some(xs)
    case JStr(s) => Some(Chars(s))
    case JObj(m) => Some(KeyItems(rt, m))
    case _ => None
  }

  /** The keys of `m`, as strings, in the runtime's order. */
  function KeyItems(rt: Runtime, m: map<string, Json>): (r: seq<Json>)
    ensures |r| == |rt.keyOrder(m)|
    ensures forall k :: JStr(k) in r <==> k in rt.keyOrder(m)
  {
    var keys := rt.keyOrder(m);
    var r := seq(|keys|, i requires 0 <= i < |keys| => JStr(keys[i]));
    assert forall k :: k in keys ==> JStr(k) in r by {
      forall k | k in keys
        ensures JStr(k) in r
      {
        var i :| 0 <= i < |keys| && keys[i] == k;
        assert r[i] == JStr(k);
      }
    }
    r
  }
}
