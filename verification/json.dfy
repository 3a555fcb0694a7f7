/** JSON values as `json.load` hands them to the scripts. */
module Json {
  import opened Common

  /** A decoded JSON document. Numbers keep the decimal mantissa and exponent
      of their literal (value = mantissa * 10^exponent); the scripts only ask
      whether a number is zero. Python reads a literal with a fraction or an
      exponent as a float, whose rounding (an underflow to 0.0, say) is not
      modelled, and `NaN` and `Infinity` have no representation. An object
      keeps its members in document order, duplicates included. */
  datatype Json =
    | JNull
    | JBool(b: bool)
    | JNumber(mantissa: int, exponent: int)
    | JString(str: string)
    | JArray(items: seq<Json>)
    | JObject(members: seq<(string, Json)>)

  /** Python truthiness of a decoded value (`if value:`). */
  predicate Truthy(v: Json) {
    match v
    case JNull => false
    case JBool(b) => b
    case JNumber(m, _) => m != 0
    case JString(s) => |s| > 0
    case JArray(xs) => |xs| > 0
    case JObject(ms) => |ms| > 0
  }

  /** Does some member carry this key? */
  predicate HasKey(ms: seq<(string, Json)>, key: string) {
    exists i :: 0 <= i < |ms| && ms[i].0 == key
  }

  /** `d.get(key)` on the dict `json.loads` builds from the members: when a key
      repeats, the last occurrence wins. */
  function Get(ms: seq<(string, Json)>, key: string): (r: Option<Json>)
    ensures r.None? <==> !HasKey(ms, key)
    ensures r.Some? ==>
              exists i :: 0 <= i < |ms| && ms[i] == (key, r.value) &&
                          forall j :: i < j < |ms| ==> ms[j].0 != key
  {
    if |ms| == 0 then None
    else if ms[|ms| - 1].0 == key then Some(ms[|ms| - 1].1)
    else
      var r := Get(ms[..|ms| - 1], key);
      assert forall i :: 0 <= i < |ms| - 1 ==> ms[..|ms| - 1][i] == ms[i];
      r
  }

  /** The member at `i` is what `Get` finds when no later member repeats its key. */
  lemma GetAt(ms: seq<(string, Json)>, i: int)
    requires 0 <= i < |ms|
    requires forall j :: i < j < |ms| ==> ms[j].0 != ms[i].0
    ensures Get(ms, ms[i].0) == Some(ms[i].1)
  {
    var key := ms[i].0;
    assert HasKey(ms, key);
    var k :| 0 <= k < |ms| && ms[k] == (key, Get(ms, key).value) &&
             forall j :: k < j < |ms| ==> ms[j].0 != key;
    assert k == i;
  }

  /** A key present in the later members is read from them alone. */
  lemma GetAppend(a: seq<(string, Json)>, b: seq<(string, Json)>, key: string)
    requires HasKey(b, key)
    ensures Get(a + b, key) == Get(b, key)
  {
    var i :| 0 <= i < |b| && b[i] == (key, Get(b, key).value) &&
             forall j :: i < j < |b| ==> b[j].0 != key;
    var ms := a + b;
    assert ms[|a| + i] == b[i];
    assert forall j :: |a| + i < j < |ms| ==> ms[j] == b[j - |a|];
    GetAt(ms, |a| + i);
  }

  /** `d.get(key, default)`. */
  function GetOr(ms: seq<(string, Json)>, key: string, default: Json): Json {
    Get(ms, key).GetOr(default)
  }
}
