/** The few pieces of JavaScript value semantics the application relies on:
    optional values, truthiness of strings, `a || b` and `Array.prototype.slice`. */
module Js {

  /** An optional value: `None` stands for `undefined` or `null`. */
  datatype Option<+T> = None | Some(value: T) {

    /** `x ?? d`: the value when present, otherwise the default. */
    function GetOr(default: T): T {
      match this
      case Some(v) => v
      case None => default
    }
  }

  /** A string is falsy when it is missing or empty. */
  predicate Truthy(s: Option<string>) {
    s.Some? && s.value != ""
  }

  function Min(a: int, b: int): int {
    if a < b then a else b
  }

  /** `a || b` on optional strings: the first operand when it is truthy, else the second. */
  function Or(a: Option<string>, b: Option<string>): (r: Option<string>)
    ensures r == a || r == b
    ensures Truthy(r) <==> Truthy(a) || Truthy(b)
    ensures Truthy(a) ==> r == a
    ensures !Truthy(a) ==> r == b
  {
    if Truthy(a) then a else b
  }

  /** `s.slice(begin, end)` for non-negative indices: both clamp to the length,
      and an empty range yields the empty sequence. */
  function Slice<T>(s: seq<T>, begin: nat, end: nat): (r: seq<T>)
    ensures |r| == if begin < Min(end, |s|) then Min(end, |s|) - begin else 0
    ensures forall k :: 0 <= k < |r| ==> r[k] == s[begin + k]
  {
    var e := Min(end, |s|);
    if begin < e then s[begin..e] else []
  }

  /** `s?.slice(0, n)` on an optional string. */
  function Prefix(s: Option<string>, n: nat): (r: Option<string>)
    ensures r.Some? <==> s.Some?
    ensures r.Some? ==> |r.value| == Min(n, |s.value|) && r.value <= s.value
  {
    match s
    case None => None
    case Some(v) => Some(Slice(v, 0, n))
  }
}
