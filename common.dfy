// Shared value wrappers: Go's nil pointers and (value, error) pairs.
module Common {

  /** A Go pointer field or a "comma ok" lookup: absent or present. */
  datatype Option<T> = None | Some(value: T)
  {
    function GetOr(default: T): T
    {
      if Some? then value else default
    }
  }

  /** A Go (value, error) return. */
  datatype Result<T, E> = Ok(value: T) | Err(error: E)

  /** A Go map read: the stored value, or the zero value when the key is missing. */
  function MapGet<K, V>(m: map<K, V>, k: K, zero: V): (v: V)
    ensures k in m ==> v == m[k]
    ensures k !in m ==> v == zero
  {
    if k in m then m[k] else zero
  }

  /**
   * The index of the first element that satisfies `p`, as a Go loop that
   * returns on its first hit finds it.
   */
  function FirstWhere<T>(xs: seq<T>, p: T -> bool): (r: Option<nat>)
    ensures r.Some? ==> r.value < |xs| && p(xs[r.value])
    ensures r.Some? ==> forall j :: 0 <= j < r.value ==> !p(xs[j])
    ensures r.None? <==> forall j :: 0 <= j < |xs| ==> !p(xs[j])
  {
    if |xs| == 0 then None
    else if p(xs[0]) then Some(0)
    else
      match FirstWhere(xs[1..], p)
      case None => None
      case Some(k) => Some(k + 1)
  }
}
