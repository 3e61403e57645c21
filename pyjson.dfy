/**
 * The values the coq-lsp server sends (decoded JSON) and the handful of
 * Python built-in operations the decoders apply to them: `key in d`,
 * `d[key]`, `t[n]`, `for x in xs`, truthiness, and `C(**d)`.
 * Each operation returns the exception Python would raise instead of a value.
 */
module PyJson {
  import opened Wrappers

  /** A decoded JSON value; `JNull` is Python's `None`. */
  datatype Json =
    | JNull
    | JBool(b: bool)
    | JInt(i: int)
    | JStr(s: string)
    | JList(items: seq<Json>)
    | JObject(fields: map<string, Json>)

  /** The Python exception classes the decoders can raise. */
  datatype PyError =
    | KeyError(key: Json)      // `d[k]` on a dict without `k`
    | TypeError                // wrong kind of operand, or bad keyword arguments
    | IndexError               // `t[n]` past the end of a list or string
    | ValueError(value: Json)  // an enumeration called with a value it does not have

  type Res<T> = Result<T, PyError>

  /** `k` occurs as a contiguous piece of `s` (Python's `k in s` on strings). */
  predicate IsSubstring(k: string, s: string)
    decreases |s|
  {
    k <= s || (|s| > 0 && IsSubstring(k, s[1..]))
  }

  /** Python's `key in container`. */
  function Contains(key: string, container: Json): (r: Res<bool>)
    ensures container.JObject? ==> r == Ok(key in container.fields)
    ensures container.JList? ==> r == Ok(JStr(key) in container.items)
    ensures r.Err? <==> !(container.JObject? || container.JList? || container.JStr?)
  {
    match container
    case JObject(m) => Ok(key in m)
    case JList(xs) => Ok(JStr(key) in xs)
    case JStr(s) => Ok(IsSubstring(key, s))
    case _ => Err(TypeError)
  }

  /** Python's `d[key]` with a string key. */
  function GetKey(d: Json, key: string): (r: Res<Json>)
    ensures r.Ok? <==> d.JObject? && key in d.fields
    ensures r.Ok? ==> r.value == d.fields[key]
    ensures d.JObject? && key !in d.fields ==> r == Err(KeyError(JStr(key)))
  {
    match d
    case JObject(m) => if key in m then Ok(m[key]) else Err(KeyError(JStr(key)))
    case _ => Err(TypeError)
  }

  /** Python's `t[n]` with a non-negative integer index. */
  function Index(t: Json, n: nat): (r: Res<Json>)
    ensures t.JList? ==> (r.Ok? <==> n < |t.items|)
    ensures t.JList? && n < |t.items| ==> r.value == t.items[n]
  {
    match t
    case JList(xs) => if n < |xs| then Ok(xs[n]) else Err(IndexError)
    case JStr(s) => if n < |s| then Ok(JStr([s[n]])) else Err(IndexError)
    case JObject(_) => Err(KeyError(JInt(n)))
    case _ => Err(TypeError)
  }

  /** The elements `for x in xs` visits. */
  function Iterate(xs: Json): (r: Res<seq<Json>>)
    ensures r.Ok? <==> xs.JList?
    ensures r.Ok? ==> r.value == xs.items
  {
    match xs
    case JList(items) => Ok(items)
    case _ => Err(TypeError)
  }

  /** Python's truth value of a JSON value. */
  predicate Truthy(j: Json) {
    match j
    case JNull => false
    case JBool(b) => b
    case JInt(i) => i != 0
    case JStr(s) => s != ""
    case JList(xs) => xs != []
    case JObject(m) => m != map[]
  }

  /**
   * The keyword arguments `C(**d)` passes to a constructor whose parameters
   * are `params`, of which `required` have no default.
   */
  function KwArgs(d: Json, params: set<string>, required: set<string>): (r: Res<map<string, Json>>)
    ensures r.Ok? <==> d.JObject? && required <= d.fields.Keys <= params
    ensures r.Ok? ==> r.value == d.fields
    ensures r.Err? ==> r.error == TypeError
  {
    match d
    case JObject(m) =>
      if !(m.Keys <= params) then Err(TypeError)        // unexpected keyword argument
      else if !(required <= m.Keys) then Err(TypeError) // missing required argument
      else Ok(m)
    case _ => Err(TypeError)                            // argument after ** must be a mapping
  }

  /** The value a keyword parameter receives: the argument, or its default. */
  function ArgOr(args: map<string, Json>, name: string, default: Json): (v: Json)
    ensures name in args ==> v == args[name]
    ensures name !in args ==> v == default
  {
    if name in args then args[name] else default
  }

  /**
   * Python's `[f(x) for x in xs]` (and the equivalent append loop): apply `f`
   * in order, stopping at the first exception.
   */
  function Traverse<A, B>(xs: seq<A>, f: A -> Res<B>): (r: Res<seq<B>>)
    ensures r.Ok? <==> forall i :: 0 <= i < |xs| ==> f(xs[i]).Ok?
    ensures r.Ok? ==> |r.value| == |xs| && forall i :: 0 <= i < |xs| ==> r.value[i] == f(xs[i]).value
    ensures forall i :: 0 <= i < |xs| && f(xs[i]).Err? && (forall k :: 0 <= k < i ==> f(xs[k]).Ok?)
              ==> r == Err(f(xs[i]).error)
  {
    if xs == [] then Ok([])
    else
      var y :- f(xs[0]);
      var ys :- Traverse(xs[1..], f);
      assert forall i :: 1 <= i < |xs| ==> xs[1..][i - 1] == xs[i];
      Ok([y] + ys)
  }

  /** Traverse with a decoder that inverts `enc` gives back the encoded values. */
  lemma {:induction false} TraverseInverse<A, B>(ys: seq<B>, enc: B -> A, f: A -> Res<B>)
    requires forall y :: y in ys ==> f(enc(y)) == Ok(y)
    ensures Traverse(Map(ys, enc), f) == Ok(ys)
  {
    var xs := Map(ys, enc);
    assert forall i :: 0 <= i < |xs| ==> f(xs[i]) == Ok(ys[i]);
    var r := Traverse(xs, f);
    assert r.Ok? && |r.value| == |ys|;
    assert forall i :: 0 <= i < |ys| ==> r.value[i] == ys[i];
    assert r.value == ys;
  }

  /** The elementwise image of a sequence. */
  function Map<A, B>(xs: seq<A>, f: A -> B): (r: seq<B>)
    ensures |r| == |xs| && forall i :: 0 <= i < |xs| ==> r[i] == f(xs[i])
  {
    seq(|xs|, i requires 0 <= i < |xs| => f(xs[i]))
  }
}
