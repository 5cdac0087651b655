/** Small value types shared by every module of the model. */
module Common {

  /** Bevy's integer vector `IVec3`. */
  datatype IVec3 = IVec3(x: int, y: int, z: int)

  /** Rust's `Option<T>`. */
  datatype Option<T> = None | Some(value: T)

  /** The first index of `s` holding `x`, if any (Rust's `iter().position`). */
  function IndexOf<T(==)>(s: seq<T>, x: T): (r: Option<nat>)
    ensures r.None? <==> x !in s
    ensures r.Some? ==> r.value < |s| && s[r.value] == x && x !in s[..r.value]
  {
    if |s| == 0 then None
    else if s[0] == x then Some(0)
    else match IndexOf(s[1..], x)
      case None => None
      case Some(i) => assert s[1..][..i] == s[1..i + 1]; Some(i + 1)
  }

  /** True when no element of `s` occurs twice. */
  predicate NoDuplicates<T(==)>(s: seq<T>) {
    forall i, j :: 0 <= i < j < |s| ==> s[i] != s[j]
  }
}
