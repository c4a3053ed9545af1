// Optional values: the model's rendering of Python's `None`-or-value results.
module Wrappers {

  datatype Option<T> = None | Some(value: T)
  {
    function GetOr(default: T): T
    {
      match this
      case None => default
      case Some(v) => v
    }
  }

  /** The first defined value among `f(k)`, ..., `f(n - 1)`: a first-match search over an ordered table. */
  function FirstSome<T>(f: nat -> Option<T>, k: nat, n: nat): (r: Option<T>)
    requires k <= n
    ensures r.Some? ==> exists j :: k <= j < n && f(j) == r && forall i :: k <= i < j ==> f(i).None?
    ensures r.None? <==> forall j :: k <= j < n ==> f(j).None?
    decreases n - k
  {
    if k == n then None else if f(k).Some? then f(k) else FirstSome(f, k + 1, n)
  }
}
