/** The stream consumer of app/hooks/use-sse.ts. The hook becomes a class
    whose fields are its state (`isLoading`, `error`, `estimation`), the
    closure counter `pointsInsideCircle` and the event source (created or
    not, closed or not, and how many times `close()` was called); its
    handlers become methods a client may call in any order. */
module Consumer {
  import opened Points

  const StreamErrorMessage: string := "An error occurred while streaming data."
  const InitErrorMessage: string := "Failed to initialize the EventSource connection."
  const EndpointPrefix: string := "/api/estimate?n="

  /** The `data` of a received event, already decoded: the `[DONE]` sentinel,
      text `JSON.parse` rejects, a JSON value that is not an array, or an
      array of values. */
  datatype Frame = Done | Unparseable | NonArray | Array(elems: seq<Elem>)

  /** `calculatePIEstimation`: `4 * pointsInsideCircle / totalPoints`, or 0
      when `totalPoints` is not positive. */
  function CalculatePIEstimation(totalPoints: int, pointsInsideCircle: nat): (e: real)
    ensures totalPoints <= 0 ==> e == 0.0
    ensures totalPoints > 0 ==> e * (totalPoints as real) == 4.0 * (pointsInsideCircle as real)
  {
    if totalPoints > 0 then (4 * pointsInsideCircle) as real / totalPoints as real else 0.0
  }

  /** With at most `totalPoints` points inside, the estimate lies in [0, 4]. */
  lemma EstimationRange(totalPoints: int, c: nat)
    requires c <= totalPoints
    ensures 0.0 <= CalculatePIEstimation(totalPoints, c) <= 4.0
  {
    if totalPoints > 0 {
      var e := CalculatePIEstimation(totalPoints, c);
      var t := totalPoints as real;
      assert e * t == 4.0 * (c as real);
      assert e * t <= 4.0 * t;
    }
  }

  /** A larger count never gives a smaller estimate. */
  lemma EstimationMonotone(totalPoints: int, c: nat, d: nat)
    requires c <= d
    ensures CalculatePIEstimation(totalPoints, c) <= CalculatePIEstimation(totalPoints, d)
  {
    if totalPoints > 0 {
      var t := totalPoints as real;
      var e := CalculatePIEstimation(totalPoints, c);
      var f := CalculatePIEstimation(totalPoints, d);
      assert e * t <= f * t;
    }
  }

  /** The index of the first `null`/`undefined` element of a chunk, where
      reading `point.x` throws and the rest of the chunk is abandoned; the
      length when there is none. */
  function FirstNullish(s: seq<Elem>): (k: nat)
    ensures k <= |s|
    ensures forall i :: 0 <= i < k ==> s[i].Obj?
    ensures k < |s| ==> s[k].Nullish?
  {
    if s == [] then 0
    else if s[0].Nullish? then 0
    else
      var k := FirstNullish(s[1..]);
      assert forall i :: 1 <= i < |s| ==> s[i] == s[1..][i - 1];
      k + 1
  }

  predicate IsDigit(c: char)
  {
    '0' <= c <= '9'
  }

  function DigitChar(d: nat): (c: char)
    requires d < 10
    ensures IsDigit(c) && c as int - '0' as int == d
  {
    ('0' as int + d) as char
  }

  /** The decimal text of `n`, as a template literal renders an integer below 10^21. */
  function Decimal(n: nat): (s: string)
    ensures |s| >= 1 && (forall i :: 0 <= i < |s| ==> IsDigit(s[i]))
    ensures |s| > 1 ==> s[0] != '0'
  {
    if n < 10 then [DigitChar(n)] else Decimal(n / 10) + [DigitChar(n % 10)]
  }

  /** The number a string of decimal digits denotes. */
  function DecimalValue(s: string): nat
    requires forall i :: 0 <= i < |s| ==> IsDigit(s[i])
  {
    if s == [] then 0
    else
      assert IsDigit(s[|s| - 1]);
      DecimalValue(s[..|s| - 1]) * 10 + (s[|s| - 1] as int - '0' as int)
  }

  /** Reading the decimal text of `n` back gives `n`. */
  lemma {:induction false} DecimalRoundTrip(n: nat)
    ensures DecimalValue(Decimal(n)) == n
    decreases n
  {
    if n >= 10 {
      DecimalRoundTrip(n / 10);
      var s := Decimal(n);
      assert s[..|s| - 1] == Decimal(n / 10);
    }
  }

  class UseSse {
    const totalPoints: int
    var isLoading: bool
    var error: Option<string>
    var estimation: real
    /** The URL the `EventSource` constructor was called with, if it was. */
    var requestedUrl: Option<string>
    /** `eventSource !== null`: the constructor was called and did not throw. */
    var hasSource: bool
    var closed: bool
    var closeCount: nat
    var pointsInsideCircle: nat
    /** The count the current `estimation` was computed from. */
    ghost var published: nat
    /** How many chunk elements the message handler has processed. */
    ghost var seen: nat

    ghost predicate Valid()
      reads this
    {
      estimation == CalculatePIEstimation(totalPoints, published) &&
      published <= pointsInsideCircle <= seen &&
      (requestedUrl.Some? <==> totalPoints > 0) &&
      (totalPoints > 0 ==> requestedUrl == Some(EndpointPrefix + Decimal(totalPoints))) &&
      (hasSource ==> totalPoints > 0 && (error.None? || error == Some(StreamErrorMessage))) &&
      (!hasSource ==> !isLoading && !closed && closeCount == 0 && seen == 0 &&
                      error == (if totalPoints > 0 then Some(InitErrorMessage) else None)) &&
      (closed <==> closeCount > 0)
    }

    /** Mounting the hook: the initial state, then the effect. For
        `totalPoints <= 0` no event source is requested; otherwise the
        constructor is called and `constructorThrows` says whether it threw. */
    constructor (totalPoints: int, constructorThrows: bool)
      ensures Valid()
      ensures this.totalPoints == totalPoints
      ensures !isLoading && estimation == 0.0 && pointsInsideCircle == 0
      ensures !closed && closeCount == 0 && seen == 0
      ensures totalPoints <= 0 ==> requestedUrl.None? && !hasSource && error.None?
      ensures totalPoints > 0 ==> requestedUrl == Some(EndpointPrefix + Decimal(totalPoints)) &&
                                  hasSource == !constructorThrows &&
                                  error == (if constructorThrows then Some(InitErrorMessage) else None)
    {
      this.totalPoints := totalPoints;
      isLoading := false;
      error := None;
      estimation := 0.0;
      pointsInsideCircle := 0;
      published := 0;
      seen := 0;
      closed := false;
      closeCount := 0;
      hasSource := false;
      requestedUrl := None;
      if totalPoints > 0 {
        requestedUrl := Some(EndpointPrefix + Decimal(totalPoints));
        if constructorThrows {
          error := Some(InitErrorMessage);
          isLoading := false;
        } else {
          hasSource := true;
        }
      }
    }

    /** `onopen`: loading starts. */
    method OnOpen()
      requires Valid() && hasSource
      modifies this
      ensures Valid() && hasSource
      ensures isLoading
      ensures error == old(error) && estimation == old(estimation) && requestedUrl == old(requestedUrl)
      ensures closed == old(closed) && closeCount == old(closeCount)
      ensures pointsInsideCircle == old(pointsInsideCircle) && seen == old(seen)
    {
      isLoading := true;
    }

    /** `onmessage`. The sentinel closes the source and ends loading. A frame
        that does not parse or is not an array changes nothing. An array
        raises the count by its elements with numeric coordinates inside the
        circle, skipping other objects, then publishes the new estimate; a
        `null`/`undefined` element throws, so the count keeps what the chunk
        added before it and the estimate is not published. */
    method OnMessage(frame: Frame)
      requires Valid() && hasSource
      modifies this
      ensures Valid() && hasSource
      ensures error == old(error) && requestedUrl == old(requestedUrl)
      ensures pointsInsideCircle >= old(pointsInsideCircle)
      ensures frame.Done? ==> closed && closeCount == old(closeCount) + 1 && !isLoading &&
                              pointsInsideCircle == old(pointsInsideCircle) && seen == old(seen) &&
                              estimation == old(estimation)
      ensures frame.Unparseable? || frame.NonArray? ==>
                isLoading == old(isLoading) && closed == old(closed) && closeCount == old(closeCount) &&
                pointsInsideCircle == old(pointsInsideCircle) && seen == old(seen) &&
                estimation == old(estimation)
      ensures frame.Array? ==>
                var k := FirstNullish(frame.elems);
                isLoading == old(isLoading) && closed == old(closed) && closeCount == old(closeCount) &&
                pointsInsideCircle == old(pointsInsideCircle) + CountInside(frame.elems[..k]) &&
                seen == old(seen) + k &&
                estimation == (if k == |frame.elems| then CalculatePIEstimation(totalPoints, pointsInsideCircle)
                               else old(estimation))
    {
      match frame
      case Done =>
        closed, closeCount := true, closeCount + 1;
        isLoading := false;
      case Unparseable =>
      case NonArray =>
      case Array(elems) =>
        CountChunk(elems);
    }

    /** The body of `onmessage` for an array: the `for` loop over its
        elements, then `setEstimation` if the loop ran to the end. */
    method CountChunk(elems: seq<Elem>)
      requires Valid() && hasSource
      modifies this
      ensures Valid() && hasSource
      ensures error == old(error) && requestedUrl == old(requestedUrl)
      ensures isLoading == old(isLoading) && closed == old(closed) && closeCount == old(closeCount)
      ensures var k := FirstNullish(elems);
              pointsInsideCircle == old(pointsInsideCircle) + CountInside(elems[..k]) &&
              seen == old(seen) + k &&
              estimation == (if k == |elems| then CalculatePIEstimation(totalPoints, pointsInsideCircle)
                             else old(estimation))
    {
      var i := 0;
      while i < |elems|
        invariant i <= |elems| && i <= FirstNullish(elems)
        invariant pointsInsideCircle == old(pointsInsideCircle) + CountInside(elems[..i])
        invariant seen == old(seen) + i
        invariant published == old(published) && estimation == old(estimation)
        invariant isLoading == old(isLoading) && error == old(error) && requestedUrl == old(requestedUrl)
        invariant hasSource && closed == old(closed) && closeCount == old(closeCount)
      {
        var point := elems[i];
        if point.Nullish? {
          // reading `point.x` throws; the catch abandons the rest of the chunk
          break;
        }
        CountInsideStep(elems, i);
        if point.x.Some? && point.y.Some? {
          if point.x.value * point.x.value + point.y.value * point.y.value <= 1.0 {
            pointsInsideCircle := pointsInsideCircle + 1;
          }
        }
        seen := seen + 1;
        i := i + 1;
      }
      if i == |elems| {
        estimation := CalculatePIEstimation(totalPoints, pointsInsideCircle);
        published := pointsInsideCircle;
      }
    }

    /** `onerror`: the fixed error message, loading ends, the source is closed. */
    method OnError()
      requires Valid() && hasSource
      modifies this
      ensures Valid() && hasSource
      ensures error == Some(StreamErrorMessage) && !isLoading
      ensures closed && closeCount == old(closeCount) + 1
      ensures estimation == old(estimation) && requestedUrl == old(requestedUrl)
      ensures pointsInsideCircle == old(pointsInsideCircle) && seen == old(seen)
    {
      error := Some(StreamErrorMessage);
      isLoading := false;
      closed, closeCount := true, closeCount + 1;
    }

    /** The listener for a `close` event: loading ends. */
    method OnCloseEvent()
      requires Valid() && hasSource
      modifies this
      ensures Valid() && hasSource
      ensures !isLoading
      ensures error == old(error) && estimation == old(estimation) && requestedUrl == old(requestedUrl)
      ensures closed == old(closed) && closeCount == old(closeCount)
      ensures pointsInsideCircle == old(pointsInsideCircle) && seen == old(seen)
    {
      isLoading := false;
    }

    /** The effect's cleanup: closes the event source if one was created. */
    method Cleanup()
      requires Valid()
      modifies this
      ensures Valid()
      ensures hasSource == old(hasSource)
      ensures closeCount == old(closeCount) + (if hasSource then 1 else 0)
      ensures closed == (old(closed) || hasSource)
      ensures isLoading == old(isLoading) && error == old(error) && estimation == old(estimation)
      ensures requestedUrl == old(requestedUrl)
      ensures pointsInsideCircle == old(pointsInsideCircle) && seen == old(seen)
    {
      if hasSource {
        closed, closeCount := true, closeCount + 1;
      }
    }
  }

  /** Mounting with no points requests nothing and reports no error. */
  method InitialDefaults(totalPoints: int, constructorThrows: bool)
    returns (isLoading: bool, error: Option<string>, estimation: real, requested: bool)
    requires totalPoints <= 0
    ensures !isLoading && error.None? && estimation == 0.0 && !requested
  {
    var hook := new UseSse(totalPoints, constructorThrows);
    return hook.isLoading, hook.error, hook.estimation, hook.requestedUrl.Some?;
  }

  /** A throwing constructor: the fixed error, not loading, estimate 0. */
  method InitFailure(totalPoints: int) returns (isLoading: bool, error: Option<string>, estimation: real)
    requires totalPoints > 0
    ensures !isLoading && error == Some(InitErrorMessage) && estimation == 0.0
  {
    var hook := new UseSse(totalPoints, true);
    return hook.isLoading, hook.error, hook.estimation;
  }

  function P(x: real, y: real): Elem
  {
    Obj(Some(x), Some(y))
  }

  /** The two chunks of the streaming scenario hold three and two points
      inside the circle, and no `null`. */
  lemma ScenarioChunks(first: seq<Elem>, second: seq<Elem>)
    requires first == [P(0.5, 0.5), P(1.5, 1.5), P(0.3, 0.4), P(2.0, 2.0), P(0.1, 0.2)]
    requires second == [P(0.6, 0.7), P(3.0, 3.0), P(0.8, 0.9), P(4.0, 4.0), P(0.2, 0.3)]
    ensures FirstNullish(first) == 5 && CountInside(first[..5]) == 3
    ensures FirstNullish(second) == 5 && CountInside(second[..5]) == 2
  {
    assert first[..0] == [] && second[..0] == [];
    CountInsideStep(first, 0); CountInsideStep(first, 1); CountInsideStep(first, 2);
    CountInsideStep(first, 3); CountInsideStep(first, 4);
    CountInsideStep(second, 0); CountInsideStep(second, 1); CountInsideStep(second, 2);
    CountInsideStep(second, 3); CountInsideStep(second, 4);
  }

  /** The streaming scenario: ten points requested, two chunks of five (three
      and two inside), then the sentinel. The estimate is 4 * 5 / 10 and
      `close` is called once. */
  method StreamingScenario()
    returns (url: Option<string>, isLoading: bool, error: Option<string>, estimation: real, closes: nat)
    ensures url == Some("/api/estimate?n=10")
    ensures !isLoading && error.None? && estimation == 2.0 && estimation > 0.0 && closes == 1
  {
    var hook := new UseSse(10, false);
    var first := [P(0.5, 0.5), P(1.5, 1.5), P(0.3, 0.4), P(2.0, 2.0), P(0.1, 0.2)];
    var second := [P(0.6, 0.7), P(3.0, 3.0), P(0.8, 0.9), P(4.0, 4.0), P(0.2, 0.3)];
    ScenarioChunks(first, second);
    hook.OnMessage(Array(first));
    hook.OnMessage(Array(second));
    hook.OnMessage(Done);
    assert hook.estimation == CalculatePIEstimation(10, 5);
    assert Decimal(1) == "1" && DigitChar(0) == '0';
    assert Decimal(10) == "10";
    assert EndpointPrefix + "10" == "/api/estimate?n=10";
    return hook.requestedUrl, hook.isLoading, hook.error, hook.estimation, hook.closeCount;
  }

  /** A `null` in a chunk: the point before it is counted and stays counted,
      the point after it is never looked at, and the estimate is not
      published for that chunk. */
  method NullElementScenario() returns (inside: nat, estimation: real, loading: bool, closes: nat)
    ensures inside == 1 && estimation == 0.0 && loading && closes == 0
  {
    var hook := new UseSse(4, false);
    hook.OnOpen();
    var chunk := [P(0.0, 0.0), Nullish, P(0.5, 0.5)];
    assert FirstNullish(chunk) == 1 by {
      assert chunk[1..] == [Nullish, P(0.5, 0.5)];
    }
    assert CountInside(chunk[..1]) == 1 by {
      assert chunk[..1][..0] == [];
    }
    hook.OnMessage(Array(chunk));
    return hook.pointsInsideCircle, hook.estimation, hook.isLoading, hook.closeCount;
  }
}
