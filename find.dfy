/** JavaScript's `Array.prototype.find`, reporting the index of the element it settles on. */
module Find {
  import opened Wrappers

  /** The index of the first element of `s` satisfying `p`, or None when no element does. */
  function First<T>(s: seq<T>, p: T -> bool): (k: Option<nat>)
    ensures k.Some? ==> k.value < |s| && p(s[k.value])
    ensures k.Some? ==> forall j :: 0 <= j < k.value ==> !p(s[j])
    ensures k.None? <==> forall j :: 0 <= j < |s| ==> !p(s[j])
  {
    if s == [] then None
    else if p(s[0]) then Some(0)
    else
      match First(s[1..], p)
      case None => None
      case Some(j) => Some(j + 1)
  }
}
