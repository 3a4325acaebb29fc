/** Small shared vocabulary: an optional value, the first-match search that
    both the resolver and the reply-extraction cascade perform, and Python's
    prefix slice `s[:n]`. */
module Prelude {

  datatype Option<+T> = None | Some(value: T)

  /** Index of the first element of `s` that satisfies `ok`, or -1 when none
      does: the shape of a `for ... if ...: return` loop. */
  function FirstWhere<T>(s: seq<T>, ok: T -> bool): (i: int)
    ensures -1 <= i < |s|
    ensures i == -1 <==> forall k :: 0 <= k < |s| ==> !ok(s[k])
    ensures 0 <= i ==> ok(s[i]) && forall k :: 0 <= k < i ==> !ok(s[k])
    decreases |s|
  {
    if s == [] then -1
    else if ok(s[0]) then 0
    else
      var j := FirstWhere(s[1..], ok);
      if j == -1 then -1 else j + 1
  }


  /** Python's slice `s[:n]` for a non-negative bound. */
  function Take<T>(s: seq<T>, n: nat): (r: seq<T>)
    ensures r <= s
    ensures |r| == if |s| <= n then |s| else n
  {
    if |s| <= n then s else s[..n]
  }
}
