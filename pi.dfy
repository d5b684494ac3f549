/** The batch estimator of utils/pi.ts: validate the points, count those
    inside the unit circle and return `4 * inside / total`. */
module Estimator {
  import opened Points

  /** The `points` argument: either not an array at all, or an array of
      values that are supposed to be points. */
  datatype PointsArg = NotAnArray | Array(points: seq<Elem>)

  /** The three ways `pi` can throw. `NullPointTypeError` is the TypeError
      the engine raises when the validation callback reads `.x` of `null` or
      `undefined`; its text is the engine's, not the program's. */
  datatype PiError = NotArrayError | NonNumericPointError | NullPointTypeError
  {
    function Message(): (m: Option<string>)
      ensures m.None? <==> this == NullPointTypeError
    {
      match this
      case NotArrayError => Some("Invalid input: 'points' must be an array.")
      case NonNumericPointError => Some("Invalid input: Each point must have numeric 'x' and 'y' properties.")
      case NullPointTypeError => None
    }
  }

  datatype Result = Ok(value: real) | Err(error: PiError)

  /** The error raised by `points.some(p => typeof p.x !== "number" || ...)`,
      which visits the elements in order and stops at the first one for which
      the callback returns true or throws. */
  function FirstFault(s: seq<Elem>): (r: Option<PiError>)
    ensures r.None? <==> forall i :: 0 <= i < |s| ==> IsNumericPoint(s[i])
    ensures r.Some? ==> exists j :: 0 <= j < |s| && !IsNumericPoint(s[j]) &&
                          (forall i :: 0 <= i < j ==> IsNumericPoint(s[i])) &&
                          r.value == (if s[j].Nullish? then NullPointTypeError else NonNumericPointError)
  {
    if s == [] then None
    else if s[0].Nullish? then Some(NullPointTypeError)
    else if !IsNumericPoint(s[0]) then Some(NonNumericPointError)
    else
      var r := FirstFault(s[1..]);
      assert forall i :: 1 <= i < |s| ==> s[i] == s[1..][i - 1];
      r
  }

  /** The value `pi` returns on valid points: exactly 0 for an empty list,
      otherwise `(inside / total) * 4` with the caller's `total`. */
  function PiValue(points: seq<Elem>, total: real): (v: real)
    requires points != [] ==> total != 0.0
    ensures points == [] ==> v == 0.0
    ensures points != [] ==> v * total == 4.0 * CountInside(points) as real
  {
    if |points| == 0 then 0.0 else (CountInside(points) as real / total) * 4.0
  }

  /** `pi({points, total})`. The division is reached only for a non-empty
      valid array; there `total` must be non-zero (JavaScript would return
      Infinity or NaN). */
  method Pi(arg: PointsArg, total: real) returns (r: Result)
    requires arg.Array? && arg.points != [] && FirstFault(arg.points).None? ==> total != 0.0
    ensures arg.NotAnArray? ==> r == Err(NotArrayError)
    ensures arg.Array? && FirstFault(arg.points).Some? ==> r == Err(FirstFault(arg.points).value)
    ensures arg.Array? && FirstFault(arg.points).None? ==> r == Ok(PiValue(arg.points, total))
    ensures r.Err? <==> (arg.NotAnArray? || exists i :: 0 <= i < |arg.points| && !IsNumericPoint(arg.points[i]))
  {
    if arg.NotAnArray? {
      return Err(NotArrayError);
    }
    var points := arg.points;
    var fault := FirstFault(points);
    if fault.Some? {
      return Err(fault.value);
    }
    var inside := 0;
    var i := 0;
    while i < |points|
      invariant 0 <= i <= |points|
      invariant inside == CountInside(points[..i])
    {
      var p := points[i];
      CountInsideStep(points, i);
      if p.x.value * p.x.value + p.y.value * p.y.value <= 1.0 {
        inside := inside + 1;
      }
      i := i + 1;
    }
    assert points[..i] == points;
    if |points| == 0 {
      return Ok(0.0);
    }
    r := Ok((inside as real / total) * 4.0);
  }

  /** An empty list gives exactly 0, whatever `total` is. */
  lemma EmptyGivesZero(total: real)
    ensures PiValue([], total) == 0.0
  {
  }

  /** When `total` is the number of points, the estimate lies in [0, 4]. */
  lemma PiValueRange(points: seq<Elem>)
    ensures 0.0 <= PiValue(points, |points| as real) <= 4.0
  {
    if points != [] {
      var c := CountInside(points) as real;
      var t := |points| as real;
      assert 0.0 <= c <= t;
      assert c / t <= 1.0 by {
        assert c / t * t == c;
      }
    }
  }

  /** The estimate is 4 exactly when every point is inside and 0 exactly when
      none is (for a non-empty list whose `total` is its length). */
  lemma PiValueExtremes(points: seq<Elem>)
    requires points != []
    ensures PiValue(points, |points| as real) == 4.0 <==> forall i :: 0 <= i < |points| ==> CountsInside(points[i])
    ensures PiValue(points, |points| as real) == 0.0 <==> forall i :: 0 <= i < |points| ==> !CountsInside(points[i])
  {
    CountInsideAll(points);
    CountInsideNone(points);
    var c := CountInside(points) as real;
    var t := |points| as real;
    var v := PiValue(points, t);
    assert v * t == 4.0 * c;
    if c == t {
      ScaleInjective(v, 4.0, t);
    }
    if c == 0.0 {
      ScaleInjective(v, 0.0, t);
    }
  }

  /** Multiplying by a positive number is injective. */
  lemma ScaleInjective(v: real, w: real, t: real)
    requires t > 0.0 && v * t == w * t
    ensures v == w
  {
  }

  /** A point exactly on the circle counts as inside. */
  lemma OnCircleCounts(x: real, y: real)
    requires x * x + y * y == 1.0
    ensures CountInside([Obj(Some(x), Some(y))]) == 1
    ensures PiValue([Obj(Some(x), Some(y))], 1.0) == 4.0
  {
    assert [Obj(Some(x), Some(y))][..0] == [];
  }

  /** The four-point example: three inside, one outside, 4 * 3 / 4 = 3. */
  method FourPointExample() returns (r: Result)
    ensures r == Ok(3.0)
  {
    var points := [Obj(Some(0.5), Some(0.5)), Obj(Some(0.7), Some(0.7)),
                   Obj(Some(-0.3), Some(-0.4)), Obj(Some(1.2), Some(1.2))];
    assert points[..0] == [];
    CountInsideStep(points, 0);
    CountInsideStep(points, 1);
    CountInsideStep(points, 2);
    CountInsideStep(points, 3);
    assert points[..4] == points;
    r := Pi(Array(points), |points| as real);
  }
}
