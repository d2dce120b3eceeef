/** Optional values: the model's stand-in for `undefined`/`null` where the
    source's types allow a missing value. */
module Common {

  datatype Option<+T> = None | Some(value: T) {

    /** `x ?? d` for a value that is either missing or present. */
    function GetOr(default: T): T {
      match this
      case Some(v) => v
      case None => default
    }
  }

  function Min(a: int, b: int): int { if a <= b then a else b }

  function Max(a: int, b: int): int { if a >= b then a else b }

  /** `xs.slice(0, n)` */
  function Take<T>(xs: seq<T>, n: nat): (r: seq<T>)
    ensures |r| == Min(|xs|, n)
    ensures forall i :: 0 <= i < |r| ==> r[i] == xs[i]
  {
    if |xs| <= n then xs else xs[..n]
  }

  /** `[x, ...xs].slice(0, cap)`: the newest-first capped log used throughout
      the source. */
  function PushCapped<T>(x: T, xs: seq<T>, cap: nat): (r: seq<T>)
    requires cap > 0
    ensures |r| == Min(|xs| + 1, cap)
    ensures r[0] == x
    ensures forall i :: 1 <= i < |r| ==> r[i] == xs[i - 1]
  {
    Take([x] + xs, cap)
  }
}
