/** Small value types shared by every component of the harvesting pipeline. */
module Common {

  /** A value that may be absent: a missing dictionary key, a `None` argument. */
  datatype Option<+T> = None | Some(value: T) {
    function GetOr(default: T): T {
      match this
      case Some(v) => v
      case None => default
    }
  }

  /** A percentage as the scripts store it, reduced to the only branch the
      model keeps: `NoTotal` is the literal `0` (or `"0%"`) written when the
      denominator is zero, `Ratio(p, w)` stands for `p / w * 100` with `w > 0`. */
  datatype Rate = NoTotal | Ratio(part: nat, whole: nat)

  /** The guarded percentage `round(part / whole * 100, 2) if whole > 0 else 0`. */
  function Percentage(part: nat, whole: nat): (r: Rate)
    ensures r == NoTotal <==> whole == 0
    ensures r.Ratio? ==> r.whole > 0 && r.part == part && r.whole == whole
  {
    if whole > 0 then Ratio(part, whole) else NoTotal
  }

  /** Python truthiness of an optional string: `None` and `""` are false. */
  predicate Truthy(s: Option<string>) {
    s.Some? && s.value != ""
  }

  /** Python's `a or b` on two optional strings. */
  function PyOr(a: Option<string>, b: Option<string>): (r: Option<string>)
    ensures Truthy(a) ==> r == a
    ensures !Truthy(a) ==> r == b
  {
    if Truthy(a) then a else b
  }

  function Min(a: int, b: int): int {
    if a <= b then a else b
  }
}
