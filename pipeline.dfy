/** The producer's stream fed into the consumer: every point the server
    draws is counted once, in order, and the estimate the client ends with is
    the batch estimator's value on the same points. */
module Pipeline {
  import opened Points
  import Estimator
  import Producer
  import Consumer

  function ToElem(p: Producer.Point): Elem
  {
    Obj(Some(p.x), Some(p.y))
  }

  /** A chunk as the client sees it after `JSON.parse(JSON.stringify(chunk))`. */
  function ToElems(ps: seq<Producer.Point>): (es: seq<Elem>)
    ensures |es| == |ps|
  {
    if ps == [] then [] else ToElems(ps[..|ps| - 1]) + [ToElem(ps[|ps| - 1])]
  }

  lemma {:induction false} ToElemsAt(ps: seq<Producer.Point>, i: nat)
    requires i < |ps|
    ensures ToElems(ps)[i] == ToElem(ps[i])
    decreases |ps|
  {
    if i < |ps| - 1 {
      ToElemsAt(ps[..|ps| - 1], i);
    }
  }

  lemma {:induction false} ToElemsAppend(a: seq<Producer.Point>, b: seq<Producer.Point>)
    ensures ToElems(a + b) == ToElems(a) + ToElems(b)
    decreases |b|
  {
    if b == [] {
      assert a + b == a;
    } else {
      var b' := b[..|b| - 1];
      assert (a + b)[..|a + b| - 1] == a + b';
      assert (a + b)[|a + b| - 1] == b[|b| - 1];
      ToElemsAppend(a, b');
    }
  }

  /** A produced chunk has no `null` in it, so the client reads all of it. */
  lemma ToElemsComplete(ps: seq<Producer.Point>)
    ensures Consumer.FirstNullish(ToElems(ps)) == |ps|
    ensures ToElems(ps)[..|ps|] == ToElems(ps)
  {
    var es := ToElems(ps);
    var k := Consumer.FirstNullish(es);
    if k < |ps| {
      ToElemsAt(ps, k);
    }
  }

  /** The event the client receives for a produced message. */
  function Received(m: Producer.Message): (f: Consumer.Frame)
    ensures f.Done? <==> m.Done?
    ensures m.Data? ==> f.Array? && |f.elems| == |m.chunk| && Consumer.FirstNullish(f.elems) == |m.chunk|
  {
    match m
    case Done => Consumer.Done
    case Data(chunk) => ToElemsComplete(chunk); Consumer.Array(ToElems(chunk))
  }

  /** The client's `event.data === "[DONE]"` test on the wire frame picks out
      exactly the sentinel, as long as no chunk's JSON text is `[DONE]`. */
  lemma SentinelRecognised(m: Producer.Message, stringify: seq<Producer.Point> -> string)
    requires m.Data? ==> Producer.NoNewline(stringify(m.chunk)) && stringify(m.chunk) != "[DONE]"
    ensures Producer.Unframe(Producer.Wire(m, stringify)) == Some("[DONE]") <==> Received(m).Done?
  {
    Producer.FrameRoundTrip(m, stringify);
  }

  /** Delivering one more data message adds its chunk to the points sent. */
  lemma PointsOfStep(actions: seq<Producer.Action>, i: nat)
    requires i < |actions| && Producer.IsChunk(actions[i], 1, Producer.ChunkSize)
    ensures Producer.PointsOf(actions[..i + 1]) == Producer.PointsOf(actions[..i]) + actions[i].message.chunk
  {
    assert actions[..i + 1][..i] == actions[..i];
  }

  /** The sentinel and the close carry no points. */
  lemma PointsOfWithoutTail(actions: seq<Producer.Action>)
    requires Producer.WellFramed(actions)
    ensures Producer.PointsOf(actions[..|actions| - 2]) == Producer.PointsOf(actions)
  {
    var n := |actions|;
    assert actions[..n - 1][..n - 2] == actions[..n - 2];
    assert actions[..n] == actions;
  }

  /** The running estimate `4 * c / n` of the hook is the batch estimator's
      `(c / n) * 4`. */
  lemma IncrementalMatchesBatch(points: seq<Elem>, n: int)
    requires n > 0
    ensures Consumer.CalculatePIEstimation(n, CountInside(points)) ==
            if points == [] then 0.0 else Estimator.PiValue(points, n as real)
  {
    var c := CountInside(points) as real;
    var t := n as real;
    assert (4.0 * c) / t == (c / t) * 4.0;
  }

  /** What `GET` answers for a positive `n`: a well-framed stream carrying
      exactly the `n` drawn points. */
  lemma ProducedStream(n: int, draw: nat -> real)
    requires n > 0
    ensures Producer.ValidN(Producer.Present(Some(n)))
    ensures Producer.WellFramed(Producer.StreamFrom(0, n, draw))
    ensures Producer.PointsOf(Producer.StreamFrom(0, n, draw)) == Producer.Samples(0, n, draw)
  {
    assert Producer.ValidN(Producer.Present(Some(n)));
    var s := Producer.StreamFrom(0, n, draw);
    assert Producer.WellFramed(s) by {
      Producer.StreamShape(0, n, draw);
    }
    assert Producer.PointsOf(s) == Producer.Samples(0, n, draw) by {
      Producer.StreamDelivers(0, n, draw);
    }
  }

  /** The client's `onmessage` on every data message of a well-framed
      stream, in order: it ends with the count of all the points and the
      estimate published for that count, still loading and not closed. */
  method DeliverChunks(hook: Consumer.UseSse, actions: seq<Producer.Action>)
    requires Producer.WellFramed(actions)
    requires hook.Valid() && hook.hasSource && hook.isLoading && hook.error.None?
    requires !hook.closed && hook.pointsInsideCircle == 0 && hook.seen == 0
    modifies hook
    ensures hook.Valid() && hook.hasSource && hook.isLoading && hook.error.None?
    ensures !hook.closed && hook.closeCount == old(hook.closeCount)
    ensures hook.pointsInsideCircle == CountInside(ToElems(Producer.PointsOf(actions)))
    ensures hook.seen == |Producer.PointsOf(actions)|
    ensures hook.estimation == Consumer.CalculatePIEstimation(hook.totalPoints, hook.pointsInsideCircle)
  {
    assert actions[..0] == [];
    assert hook.estimation == Consumer.CalculatePIEstimation(hook.totalPoints, 0) by {
      assert hook.published == 0;
    }
    var i := 0;
    while i < |actions| - 2
      invariant 0 <= i <= |actions| - 2
      invariant hook.Valid() && hook.hasSource
      invariant hook.pointsInsideCircle == CountInside(ToElems(Producer.PointsOf(actions[..i])))
      invariant hook.seen == |Producer.PointsOf(actions[..i])|
      invariant hook.estimation == Consumer.CalculatePIEstimation(hook.totalPoints, hook.pointsInsideCircle)
      invariant hook.isLoading && hook.error.None? && !hook.closed && hook.closeCount == old(hook.closeCount)
    {
      assert Producer.IsChunk(actions[i], 1, Producer.ChunkSize);
      var chunk := actions[i].message.chunk;
      ghost var before := Producer.PointsOf(actions[..i]);
      ghost var after := Producer.PointsOf(actions[..i + 1]);
      ghost var count := hook.pointsInsideCircle;
      ghost var seen := hook.seen;
      assert after == before + chunk by {
        PointsOfStep(actions, i);
      }
      assert CountInside(ToElems(after)) == count + CountInside(ToElems(chunk)) by {
        ToElemsAppend(before, chunk);
        CountInsideAppend(ToElems(before), ToElems(chunk));
      }
      ghost var es := ToElems(chunk);
      var frame := Received(actions[i].message);
      assert frame == Consumer.Array(es);
      assert Consumer.FirstNullish(es) == |es| && es[..|es|] == es by {
        ToElemsComplete(chunk);
      }
      hook.OnMessage(frame);
      assert hook.pointsInsideCircle == count + CountInside(es);
      assert hook.seen == seen + |chunk|;
      i := i + 1;
    }
    PointsOfWithoutTail(actions);
  }

  /** `GET /api/estimate?n=<n>` with the hook mounted for `n`; the stream's
      messages are delivered in order. The hook inspects every drawn point
      exactly once, ends with the estimate of all of them, in [0, 4], equal
      to `pi` on the same points, calls `close` once and stops loading. */
  method EndToEnd(n: int, draw: nat -> real)
    returns (estimation: real, inside: nat, isLoading: bool, error: Option<string>, closes: nat)
    requires n > 0
    ensures inside == CountInside(ToElems(Producer.Samples(0, n, draw))) && inside <= n
    ensures estimation == Consumer.CalculatePIEstimation(n, inside)
    ensures estimation == Estimator.PiValue(ToElems(Producer.Samples(0, n, draw)), n as real)
    ensures 0.0 <= estimation <= 4.0
    ensures !isLoading && error.None? && closes == 1
  {
    var hook := new Consumer.UseSse(n, false);
    // The server reads `n` back from the digits of the URL the hook requested.
    var query := hook.requestedUrl.value[|Consumer.EndpointPrefix|..];
    assert query == Consumer.Decimal(n);
    var requested := Consumer.DecimalValue(query);
    assert requested == n by {
      Consumer.DecimalRoundTrip(n);
    }
    var resp := Producer.Get(Producer.Present(Some(requested)), draw);
    ghost var samples := Producer.Samples(0, n, draw);
    ProducedStream(n, draw);
    var actions := resp.actions;
    hook.OnOpen();
    DeliverChunks(hook, actions);
    hook.OnMessage(Received(actions[|actions| - 2].message));
    ghost var c := hook.pointsInsideCircle;
    assert c == CountInside(ToElems(samples)) && c <= n;
    assert 0.0 <= hook.estimation <= 4.0 by {
      Consumer.EstimationRange(n, c);
    }
    assert hook.estimation == Estimator.PiValue(ToElems(samples), n as real) by {
      IncrementalMatchesBatch(ToElems(samples), n);
    }
    return hook.estimation, hook.pointsInsideCircle, hook.isLoading, hook.error, hook.closeCount;
  }
}
