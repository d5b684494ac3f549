/** Points and the inside-circle count shared by the estimator, the producer
    and the stream consumer. Coordinates are mathematical reals: IEEE
    rounding, NaN and Infinity are not modelled. */
module Points {

  datatype Option<+T> = None | Some(value: T)

  /** A JavaScript value standing where a point is expected. `Nullish` is
      `null` or `undefined`, on which reading `.x` throws a TypeError. Any
      other value is an `Obj` whose `x` and `y` properties are either numbers
      (`Some`) or anything else, missing included (`None`). */
  datatype Elem = Nullish | Obj(x: Option<real>, y: Option<real>)

  /** `typeof e.x === "number" && typeof e.y === "number"` */
  predicate IsNumericPoint(e: Elem)
  {
    e.Obj? && e.x.Some? && e.y.Some?
  }

  /** The membership test `x ** 2 + y ** 2 <= 1`: points on the circle are inside. */
  predicate InsideCircle(x: real, y: real): (b: bool)
    ensures x * x + y * y == 1.0 ==> b
    ensures b ==> -1.0 <= x <= 1.0 && -1.0 <= y <= 1.0
  {
    SquareBound(x, y * y);
    SquareBound(y, x * x);
    x * x + y * y <= 1.0
  }

  /** A coordinate whose square, plus something non-negative, is at most 1
      lies in [-1, 1]. */
  lemma SquareBound(x: real, r: real)
    requires r >= 0.0
    ensures x * x + r <= 1.0 ==> -1.0 <= x <= 1.0
  {
    if x > 1.0 {
      assert x * x > x * 1.0;
    } else if x < -1.0 {
      assert x * x > (-x) * 1.0;
    }
  }

  /** An element that a counting loop counts. */
  predicate CountsInside(e: Elem)
  {
    IsNumericPoint(e) && InsideCircle(e.x.value, e.y.value)
  }

  /** Number of elements of `s` with numeric coordinates inside the unit
      circle. Defined from the back, as a loop that appends would build it. */
  function CountInside(s: seq<Elem>): (c: nat)
    ensures c <= |s|
  {
    if s == [] then 0
    else CountInside(s[..|s| - 1]) + (if CountsInside(s[|s| - 1]) then 1 else 0)
  }

  /** The indices of `s` whose element is counted. */
  ghost function InsideIndices(s: seq<Elem>): set<int>
  {
    set i | 0 <= i < |s| && CountsInside(s[i])
  }

  /** One step of a counting loop: the count of a prefix one longer. */
  lemma CountInsideStep(s: seq<Elem>, i: nat)
    requires i < |s|
    ensures CountInside(s[..i + 1]) == CountInside(s[..i]) + (if CountsInside(s[i]) then 1 else 0)
  {
    assert s[..i + 1][..i] == s[..i];
  }

  /** The count of a concatenation is the sum of the counts of its parts. */
  lemma {:induction false} CountInsideAppend(a: seq<Elem>, b: seq<Elem>)
    ensures CountInside(a + b) == CountInside(a) + CountInside(b)
    decreases |b|
  {
    if b == [] {
      assert a + b == a;
    } else {
      var b' := b[..|b| - 1];
      assert (a + b)[..|a + b| - 1] == a + b';
      assert (a + b)[|a + b| - 1] == b[|b| - 1];
      CountInsideAppend(a, b');
    }
  }

  /** The count agrees with an independent definition: the number of counted
      indices. */
  lemma {:induction false} CountInsideIsCardinality(s: seq<Elem>)
    ensures CountInside(s) == |InsideIndices(s)|
    decreases |s|
  {
    if s != [] {
      var p := s[..|s| - 1];
      CountInsideIsCardinality(p);
      var last := |s| - 1;
      var prev := set i | 0 <= i < |p| && CountsInside(p[i]);
      var now := set i | 0 <= i < |s| && CountsInside(s[i]);
      if CountsInside(s[last]) {
        assert now == prev + {last};
      } else {
        assert now == prev;
      }
    }
  }

  /** Every element is counted exactly when the count is the length. */
  lemma {:induction false} CountInsideAll(s: seq<Elem>)
    ensures CountInside(s) == |s| <==> forall i :: 0 <= i < |s| ==> CountsInside(s[i])
    decreases |s|
  {
    if s != [] {
      var p := s[..|s| - 1];
      CountInsideAll(p);
      if forall i :: 0 <= i < |s| ==> CountsInside(s[i]) {
        assert forall i :: 0 <= i < |p| ==> CountsInside(p[i]) by {
          forall i | 0 <= i < |p| ensures CountsInside(p[i]) { assert p[i] == s[i]; }
        }
      } else if !CountsInside(s[|s| - 1]) {
        assert CountInside(p) <= |p|;
      } else {
        var j :| 0 <= j < |s| && !CountsInside(s[j]);
        assert p[j] == s[j];
      }
    }
  }

  /** No element is counted exactly when the count is zero. */
  lemma {:induction false} CountInsideNone(s: seq<Elem>)
    ensures CountInside(s) == 0 <==> forall i :: 0 <= i < |s| ==> !CountsInside(s[i])
    decreases |s|
  {
    if s != [] {
      var p := s[..|s| - 1];
      CountInsideNone(p);
      if forall i :: 0 <= i < |s| ==> !CountsInside(s[i]) {
        forall i | 0 <= i < |p| ensures !CountsInside(p[i]) { assert p[i] == s[i]; }
      } else if !CountsInside(s[|s| - 1]) {
        var j :| 0 <= j < |s| && CountsInside(s[j]);
        assert p[j] == s[j];
      }
    }
  }
}
