/**
 * Parsed JSON values as the gateway's REST API and the saved gateway file
 * deliver them once decoded. A JSON object is the ordered list of its
 * members, so that iterating over it (`dict.items()`) follows the order the
 * decoder produced.
 */
module JsonValues {
  import opened Wrappers

  datatype Json =
    | Null
    | Bool(b: bool)
    | Num(n: int)
    | Str(s: string)
    | Arr(items: seq<Json>)
    | Obj(members: Fields)

  /** The members of a JSON object, in iteration order. */
  type Fields = seq<(string, Json)>

  /** `obj[k]`: the value of the first member named `k`, if any. */
  function Get(fs: Fields, k: string): (r: Option<Json>)
    ensures r.Some? <==> exists i :: 0 <= i < |fs| && fs[i].0 == k
    ensures r.Some? ==> exists i :: 0 <= i < |fs| && fs[i] == (k, r.value)
  {
    if fs == [] then None
    else if fs[0].0 == k then Some(fs[0].1)
    else
      var r := Get(fs[1..], k);
      assert forall i :: 0 < i < |fs| ==> fs[i] == fs[1..][i - 1];
      r
  }

  /** True when some member of `fs` has the value `v`. */
  predicate HasValue(fs: Fields, v: Json) {
    exists i :: 0 <= i < |fs| && fs[i].1 == v
  }

  /** A sensor id as the gateway sends it: a non-empty string of decimal digits. */
  predicate IsDecimal(s: string) {
    |s| > 0 && forall i :: 0 <= i < |s| ==> '0' <= s[i] <= '9'
  }

  /** `int(s)` for a string of decimal digits. */
  function DecimalValue(s: string): (n: nat)
    requires forall i :: 0 <= i < |s| ==> '0' <= s[i] <= '9'
  {
    if s == [] then 0
    else DecimalValue(s[..|s| - 1]) * 10 + (s[|s| - 1] - '0') as nat
  }
}
