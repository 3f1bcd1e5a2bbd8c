/**
 * A decoded report payload, as Python's `json.loads` hands it to the core, and
 * the Python operations the core applies to it, each with the exception it
 * raises on a value of the wrong kind.
 */
module Json {
  import opened Wrappers
  import opened Collections

  /**
   * A decoded JSON value. Integers and floats are kept apart, as `json.loads`
   * does; a float is represented by the exact value of the decoded double.
   * An object keeps its members in document order: lookup returns the last
   * binding of a key and iteration yields each key once, at its first position,
   * which is how the dict built by `json.loads` behaves when a key repeats.
   */
  datatype JSON =
    | JNull
    | JBool(b: bool)
    | JInt(i: int)
    | JFloat(f: real)
    | JStr(s: string)
    | JArray(items: seq<JSON>)
    | JObject(fields: seq<(string, JSON)>)

  /** The exceptions the core can raise. */
  datatype Error =
    | KeyError(key: JSON)                  // `d[k]` with `k` not a key of `d`, or a lookup-table miss
    | IndexError(index: int)               // `xs[i]` past the end of a list or a string
    | TypeError                            // an operation applied to a value of the wrong kind
    | AttributeError                       // `.get` on a value that is not a dict
    | Unrendered(value: JSON)              // `str()` of a float, list or dict: not modelled
    | UnsupportedTemplate(template: JSON)  // the current chooser's ValueError
    | UnknownTemplate(template: JSON)      // the old detector's exit on an unknown template

  predicate HasKey(j: JSON, key: string) {
    j.JObject? && key in Columns(j.fields)
  }

  /** The value bound to `key`: its last binding, or KeyError when there is none. */
  function Lookup(fields: seq<(string, JSON)>, key: string): (r: Result<JSON, Error>)
    ensures r.Success? <==> key in Columns(fields)
    ensures r.Failure? ==> r.error == KeyError(JStr(key))
    ensures r.Success? ==>
              exists i :: 0 <= i < |fields| && fields[i] == (key, r.value) &&
                          forall j :: i < j < |fields| ==> fields[j].0 != key
    decreases |fields|
  {
    if |fields| == 0 then Failure(KeyError(JStr(key)))
    else
      var n := |fields| - 1;
      assert Columns(fields) == Columns(fields[..n]) + [fields[n].0];
      if fields[n].0 == key then
        Success(fields[n].1)
      else
        Lookup(fields[..n], key)
  }

  /** `j[key]` for a string key. */
  function Get(j: JSON, key: string): Result<JSON, Error>
  {
    match j
    case JObject(fields) => Lookup(fields, key)
    case _ => Failure(TypeError)
  }

  /** `j.get(key, default)`. */
  function GetOr(j: JSON, key: string, default: JSON): (r: Result<JSON, Error>)
    ensures j.JObject? <==> r.Success?
    ensures HasKey(j, key) ==> r == Get(j, key)
    ensures j.JObject? && !HasKey(j, key) ==> r == Success(default)
  {
    match j
    case JObject(fields) => if key in Columns(fields) then Lookup(fields, key) else Success(default)
    case _ => Failure(AttributeError)
  }

  /** `j[i]` for a non-negative integer literal `i`: a list element, a one-character string, or an error. */
  function At(j: JSON, i: nat): Result<JSON, Error>
  {
    match j
    case JArray(items) => if i < |items| then Success(items[i]) else Failure(IndexError(i))
    case JStr(s) => if i < |s| then Success(JStr([s[i]])) else Failure(IndexError(i))
    case JObject(_) => Failure(KeyError(JInt(i)))  // the keys of a decoded object are strings
    case _ => Failure(TypeError)
  }

  /** What `for x in j` visits: list items, one-character strings, or a dict's keys. */
  function Items(j: JSON): Result<seq<JSON>, Error>
  {
    match j
    case JArray(items) => Success(items)
    case JStr(s) => Success(seq(|s|, k requires 0 <= k < |s| => JStr([s[k]])))
    case JObject(fields) => Success(Map(k => JStr(k), Dedupe(Columns(fields))))
    case _ => Failure(TypeError)
  }

  /** `len(j)`: the number of items a `for` loop over `j` visits. */
  function Length(j: JSON): (r: Result<nat, Error>)
    ensures r.Success? <==> Items(j).Success?
    ensures r.Success? ==> r.value == |Items(j).value|
  {
    match j
    case JArray(items) => Success(|items|)
    case JStr(s) => Success(|s|)
    case JObject(fields) => Success(|Dedupe(Columns(fields))|)
    case _ => Failure(TypeError)
  }

  /** Python truthiness: None, False, zero and empty containers are false. */
  predicate Truthy(j: JSON) {
    match j
    case JNull => false
    case JBool(b) => b
    case JInt(i) => i != 0
    case JFloat(f) => f != 0.0
    case JStr(s) => s != ""
    case JArray(items) => items != []
    case JObject(fields) => fields != []
  }

  /** The numeric value Python's `==` and `hash` see: bools are the integers 0 and 1. */
  function NumericValue(j: JSON): Option<real> {
    match j
    case JBool(b) => Some(if b then 1.0 else 0.0)
    case JInt(i) => Some(i as real)
    case JFloat(f) => Some(f)
    case _ => None
  }

  /** A value Python refuses to hash, so that using it as a dict key raises TypeError. */
  predicate Unhashable(j: JSON) {
    j.JArray? || j.JObject?
  }

  // ---------------------------------------------------------------------------
  // str(): what an f-string placeholder prints

  function DigitChar(d: nat): (c: char)
    requires d < 10
    ensures '0' <= c <= '9' && (c as int) - ('0' as int) == d
  {
    (('0' as int) + d) as char
  }

  predicate IsDigits(s: string) {
    forall k :: 0 <= k < |s| ==> '0' <= s[k] <= '9'
  }

  /** The decimal digits of a natural number, without leading zeros. */
  function NatText(n: nat): (s: string)
    ensures |s| > 0 && IsDigits(s)
    ensures |s| > 1 ==> s[0] != '0'
    decreases n
  {
    if n < 10 then [DigitChar(n)] else NatText(n / 10) + [DigitChar(n % 10)]
  }

  /** The number a string of decimal digits denotes. */
  function DigitsValue(s: string): nat
    requires IsDigits(s)
    decreases |s|
  {
    if |s| == 0 then 0
    else DigitsValue(s[..|s| - 1]) * 10 + ((s[|s| - 1] as int) - ('0' as int))
  }

  /** `str(i)` for an int. */
  function IntText(i: int): string {
    if i < 0 then "-" + NatText(-i) else NatText(i)
  }

  /** `str(j)`, for the kinds of value whose text the model renders. */
  function Text(j: JSON): (r: Result<string, Error>)
    ensures r.Failure? <==> j.JFloat? || j.JArray? || j.JObject?
    ensures r.Failure? ==> r.error == Unrendered(j)
    ensures j.JStr? ==> r == Success(j.s)
  {
    match j
    case JNull => Success("None")
    case JBool(b) => Success(if b then "True" else "False")
    case JInt(i) => Success(IntText(i))
    case JStr(s) => Success(s)
    case _ => Failure(Unrendered(j))
  }

  /** Reading the digits back gives the number: `int(str(n)) == n`. */
  lemma {:induction false} NatTextRoundTrip(n: nat)
    ensures DigitsValue(NatText(n)) == n
    decreases n
  {
    if n >= 10 {
      NatTextRoundTrip(n / 10);
      var s := NatText(n);
      assert s[..|s| - 1] == NatText(n / 10);
    }
  }

  /** `str(i)` is the sign, if any, followed by the digits of `|i|`, so it determines `i`. */
  lemma IntTextInjective(i: int, k: int)
    requires IntText(i) == IntText(k)
    ensures i == k
  {
    NatTextRoundTrip(if i < 0 then -i else i);
    NatTextRoundTrip(if k < 0 then -k else k);
    if i < 0 && k < 0 {
      assert NatText(-i) == IntText(i)[1..];
    }
  }
}
