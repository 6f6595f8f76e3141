/** Small shared vocabulary: an optional value, the volume clamp both audio
    players use, and duplicate-freedom of sequences. */
module Common {

  datatype Option<T> = None | Some(value: T) {
    function GetOr(default: T): T {
      match this
      case Some(v) => v
      case None => default
    }
  }

  /** `Math.max(0, Math.min(1, v))`. */
  function Clamp01(v: real): (r: real)
    ensures 0.0 <= r <= 1.0
    ensures 0.0 <= v <= 1.0 ==> r == v
    ensures v < 0.0 ==> r == 0.0
    ensures v > 1.0 ==> r == 1.0
  {
    if v < 0.0 then 0.0 else if v > 1.0 then 1.0 else v
  }

  /** No element occurs twice. */
  predicate NoDup<T(==)>(s: seq<T>) {
    forall i, j :: 0 <= i < j < |s| ==> s[i] != s[j]
  }
}
