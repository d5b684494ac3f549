/** The point producer of app/api/estimate/route.ts: `GET /api/estimate?n=`
    validates `n`, then streams the points in chunks of at most 1000, each
    framed as a server-sent event, and ends with a `[DONE]` event and a close.
    The self-rescheduling `sendChunk` becomes a loop; `Math.random` becomes
    the parameter `draw`, the i-th point being `(draw(2i), draw(2i+1))`. */
module Producer {
  import opened Points

  const ChunkSize: nat := 1000
  const InvalidNMessage: string := "Invalid value for 'n'. Please provide a positive integer."
  const DoneFrame: string := "data: [DONE]\n\n"

  /** The query parameter `n`. `Absent` stands for a missing or empty
      parameter, which `|| "0"` replaces by "0"; `Present(v)` holds what
      `parseInt(text, 10)` gives for the text (`None` for NaN). */
  datatype NParam = Absent | Present(parsed: Option<int>)

  /** `parseInt(searchParams.get("n") || "0", 10)`, NaN being `None`. */
  function RequestedN(p: NParam): Option<int>
  {
    match p
    case Absent => Some(0)
    case Present(v) => v
  }

  predicate ValidN(p: NParam): (ok: bool)
    ensures ok <==> p.Present? && p.parsed.Some? && p.parsed.value >= 1
  {
    RequestedN(p).Some? && RequestedN(p).value > 0
  }

  datatype Point = Point(x: real, y: real)

  /** What `sendChunk` hands to `controller.enqueue`: a chunk of points or the
      end-of-stream sentinel. */
  datatype Message = Data(chunk: seq<Point>) | Done

  /** The calls the producer makes on the stream controller, in order. */
  datatype Action = Enqueue(message: Message) | CloseStream

  datatype Response = BadRequest(status: nat, error: string) | EventStream(actions: seq<Action>)

  /** The point drawn by the i-th pass of the chunk loop. */
  function Sample(i: nat, draw: nat -> real): Point
  {
    Point(draw(2 * i), draw(2 * i + 1))
  }

  /** The points with indices `from .. from + count`, in order. */
  function Samples(from: nat, count: nat, draw: nat -> real): (ps: seq<Point>)
    ensures |ps| == count
  {
    if count == 0 then [] else Samples(from, count - 1, draw) + [Sample(from + count - 1, draw)]
  }

  function Min(a: nat, b: nat): nat
  {
    if a <= b then a else b
  }

  /** What the producer enqueues from the moment `pointsSent == sent` on: one
      invocation of `sendChunk` per element, the last two being the sentinel
      and the close. */
  function StreamFrom(sent: nat, n: nat, draw: nat -> real): seq<Action>
    decreases n - sent
  {
    if sent >= n then [Enqueue(Done), CloseStream]
    else
      var k := Min(ChunkSize, n - sent);
      [Enqueue(Data(Samples(sent, k, draw)))] + StreamFrom(sent + k, n, draw)
  }

  /** One invocation of `sendChunk` with `pointsSent` points already sent:
      either the sentinel and the close, or one chunk of the next
      `min(1000, n - pointsSent)` points. Returns what it enqueued, the new
      `pointsSent` and whether the stream is now closed. */
  method SendChunk(n: nat, pointsSent: nat, draw: nat -> real) returns (emitted: seq<Action>, sentAfter: nat, closed: bool)
    requires pointsSent <= n
    ensures closed <==> pointsSent >= n
    ensures closed ==> sentAfter == pointsSent && emitted == StreamFrom(pointsSent, n, draw)
    ensures !closed ==> pointsSent < sentAfter <= n && |emitted| == 1 &&
                        emitted + StreamFrom(sentAfter, n, draw) == StreamFrom(pointsSent, n, draw)
  {
    if pointsSent >= n {
      return [Enqueue(Done), CloseStream], pointsSent, true;
    }
    var chunk: seq<Point> := [];
    var sent := pointsSent;
    var i := 0;
    while i < ChunkSize && sent < n
      invariant i <= ChunkSize
      invariant sent == pointsSent + i <= n
      invariant chunk == Samples(pointsSent, i, draw)
    {
      var x := draw(2 * sent);
      var y := draw(2 * sent + 1);
      chunk := chunk + [Point(x, y)];
      sent := sent + 1;
      i := i + 1;
    }
    assert i == Min(ChunkSize, n - pointsSent);
    StreamStep(pointsSent, n, draw);
    return [Enqueue(Data(chunk))], sent, false;
  }

  /** `GET`: a 400 response for a non-numeric or non-positive `n` (no stream
      is created), otherwise the stream of actions the controller receives,
      `sendChunk` being invoked until it closes the stream. */
  method Get(param: NParam, draw: nat -> real) returns (resp: Response)
    ensures !ValidN(param) <==> resp == BadRequest(400, InvalidNMessage)
    ensures ValidN(param) ==> resp == EventStream(StreamFrom(0, RequestedN(param).value, draw))
  {
    var parsed := RequestedN(param);
    if parsed.None? || parsed.value <= 0 {
      return BadRequest(400, InvalidNMessage);
    }
    var n: nat := parsed.value;
    var pointsSent: nat := 0;
    var out: seq<Action> := [];
    var closed := false;
    while !closed
      invariant pointsSent <= n
      invariant !closed ==> out + StreamFrom(pointsSent, n, draw) == StreamFrom(0, n, draw)
      invariant closed ==> out == StreamFrom(0, n, draw)
      decreases n - pointsSent, !closed
    {
      var emitted, sentAfter, nowClosed := SendChunk(n, pointsSent, draw);
      if !nowClosed {
        assert out + StreamFrom(pointsSent, n, draw) == (out + emitted) + StreamFrom(sentAfter, n, draw);
      }
      out := out + emitted;
      pointsSent, closed := sentAfter, nowClosed;
    }
    resp := EventStream(out);
  }

  /** A missing `n` is read as "0" and therefore rejected. */
  lemma MissingNRejected()
    ensures !ValidN(Absent)
  {
  }

  /** All points carried by the data messages of `actions`, in order. */
  function PointsOf(actions: seq<Action>): seq<Point>
  {
    if actions == [] then []
    else PointsOf(actions[..|actions| - 1]) + Carried(actions[|actions| - 1])
  }

  /** The points one action carries: a data message's chunk, or none. */
  function Carried(a: Action): seq<Point>
  {
    if a.Enqueue? && a.message.Data? then a.message.chunk else []
  }

  /** The number of data messages in `actions`. */
  function DataCount(actions: seq<Action>): nat
  {
    if actions == [] then 0
    else
      var last := actions[|actions| - 1];
      DataCount(actions[..|actions| - 1]) + (if last.Enqueue? && last.message.Data? then 1 else 0)
  }

  lemma PointsOfAppend(a: seq<Action>, b: seq<Action>)
    ensures PointsOf(a + b) == PointsOf(a) + PointsOf(b)
    ensures DataCount(a + b) == DataCount(a) + DataCount(b)
  {
    PointsOfConcat(a, b);
    DataCountConcat(a, b);
  }

  lemma {:induction false} PointsOfConcat(a: seq<Action>, b: seq<Action>)
    ensures PointsOf(a + b) == PointsOf(a) + PointsOf(b)
    decreases |b|
  {
    if b == [] {
      assert a + b == a;
    } else {
      var ab := a + b;
      var b' := b[..|b| - 1];
      var x := b[|b| - 1];
      assert ab[..|ab| - 1] == a + b';
      assert ab[|ab| - 1] == x;
      assert PointsOf(ab) == PointsOf(a + b') + Carried(x);
      PointsOfConcat(a, b');
      assert PointsOf(b) == PointsOf(b') + Carried(x);
      assert (PointsOf(a) + PointsOf(b')) + Carried(x) == PointsOf(a) + (PointsOf(b') + Carried(x));
    }
  }

  lemma {:induction false} DataCountConcat(a: seq<Action>, b: seq<Action>)
    ensures DataCount(a + b) == DataCount(a) + DataCount(b)
    decreases |b|
  {
    if b == [] {
      assert a + b == a;
    } else {
      var b' := b[..|b| - 1];
      assert (a + b)[..|a + b| - 1] == a + b';
      assert (a + b)[|a + b| - 1] == b[|b| - 1];
      DataCountConcat(a, b');
    }
  }

  lemma {:induction false} SamplesAppend(from: nat, k: nat, m: nat, draw: nat -> real)
    ensures Samples(from, k, draw) + Samples(from + k, m, draw) == Samples(from, k + m, draw)
    decreases m
  {
    if m == 0 {
      assert Samples(from, k, draw) + [] == Samples(from, k, draw);
    } else {
      SamplesAppend(from, k, m - 1, draw);
      assert Samples(from + k, m, draw) == Samples(from + k, m - 1, draw) + [Sample(from + k + m - 1, draw)];
    }
  }

  /** The i-th sample is the point of the i-th pass. */
  lemma {:induction false} SamplesAt(from: nat, count: nat, draw: nat -> real, k: nat)
    requires k < count
    ensures Samples(from, count, draw)[k] == Sample(from + k, draw)
    decreases count
  {
    if k < count - 1 {
      SamplesAt(from, count - 1, draw, k);
    }
  }

  /** One invocation of `sendChunk` that does not yet find `pointsSent >= n`. */
  lemma StreamStep(sent: nat, n: nat, draw: nat -> real)
    requires sent < n
    ensures StreamFrom(sent, n, draw) ==
      [Enqueue(Data(Samples(sent, Min(ChunkSize, n - sent), draw)))] + StreamFrom(sent + Min(ChunkSize, n - sent), n, draw)
  {
  }

  /** An action that enqueues a data chunk of `lo` to `hi` points. */
  predicate IsChunk(a: Action, lo: nat, hi: nat)
  {
    a.Enqueue? && a.message.Data? && lo <= |a.message.chunk| <= hi
  }

  /** Every action before the last two enqueues a data chunk of 1 to 1000
      points; the last two are the sentinel and the close. */
  predicate WellFramed(s: seq<Action>)
  {
    |s| >= 2 && s[|s| - 1] == CloseStream && s[|s| - 2] == Enqueue(Done) &&
    forall i :: 0 <= i < |s| - 2 ==> IsChunk(s[i], 1, ChunkSize)
  }

  /** Every data chunk but the last holds exactly 1000 points. */
  predicate FullBeforeLast(s: seq<Action>)
  {
    forall i :: 0 <= i < |s| - 3 ==> IsChunk(s[i], ChunkSize, ChunkSize)
  }

  /** The sentinel appears exactly once in a well-framed stream, and no
      data chunk follows it. */
  lemma SentinelOnce(s: seq<Action>, i: nat)
    requires WellFramed(s) && i < |s| && s[i] == Enqueue(Done)
    ensures i == |s| - 2
  {
  }

  /** Shape of the stream: data chunks of 1 to 1000 points, then the
      `[DONE]` sentinel, then the close, and nothing after it. */
  lemma {:induction false} StreamShape(sent: nat, n: nat, draw: nat -> real)
    ensures WellFramed(StreamFrom(sent, n, draw))
    decreases n - sent
  {
    if sent < n {
      var k := Min(ChunkSize, n - sent);
      StreamStep(sent, n, draw);
      StreamShape(sent + k, n, draw);
      var s := StreamFrom(sent, n, draw);
      var rest := StreamFrom(sent + k, n, draw);
      assert s[|s| - 1] == rest[|rest| - 1];
      assert s[|s| - 2] == rest[|rest| - 2];
      forall i | 0 <= i < |s| - 2
        ensures IsChunk(s[i], 1, ChunkSize)
      {
        if i > 0 {
          assert s[i] == rest[i - 1];
        }
      }
    }
  }

  /** Every data chunk but the last holds exactly 1000 points. */
  lemma {:induction false} StreamFullChunks(sent: nat, n: nat, draw: nat -> real)
    ensures FullBeforeLast(StreamFrom(sent, n, draw))
    decreases n - sent
  {
    if sent < n {
      var k := Min(ChunkSize, n - sent);
      StreamStep(sent, n, draw);
      StreamFullChunks(sent + k, n, draw);
      var s := StreamFrom(sent, n, draw);
      var rest := StreamFrom(sent + k, n, draw);
      if k < ChunkSize {
        assert |rest| == 2;
      }
      forall i | 0 <= i < |s| - 3
        ensures IsChunk(s[i], ChunkSize, ChunkSize)
      {
        if i > 0 {
          assert s[i] == rest[i - 1];
        }
      }
    }
  }

  /** The points of one data message and of the closing pair. */
  lemma PointsOfSmall(chunk: seq<Point>)
    ensures PointsOf([Enqueue(Data(chunk))]) == chunk
    ensures PointsOf([Enqueue(Done), CloseStream]) == []
    ensures DataCount([Enqueue(Data(chunk))]) == 1
    ensures DataCount([Enqueue(Done), CloseStream]) == 0
  {
    var one := [Enqueue(Data(chunk))];
    var tail := [Enqueue(Done), CloseStream];
    assert one[..0] == [];
    assert tail[..1] == [Enqueue(Done)];
    assert [Enqueue(Done)][..0] == [];
  }

  /** Exactly the points `sent .. n` are delivered, each once and in order,
      so the chunk sizes sum to `n - sent`. */
  lemma {:induction false} StreamDelivers(sent: nat, n: nat, draw: nat -> real)
    requires sent <= n
    ensures PointsOf(StreamFrom(sent, n, draw)) == Samples(sent, n - sent, draw)
    decreases n - sent
  {
    if sent == n {
      PointsOfSmall([]);
    } else {
      var k := Min(ChunkSize, n - sent);
      StreamDelivers(sent + k, n, draw);
      DeliversStep(sent, n, draw);
    }
  }

  /** The step of `StreamDelivers`: one chunk followed by the rest. */
  lemma DeliversStep(sent: nat, n: nat, draw: nat -> real)
    requires sent < n
    requires PointsOf(StreamFrom(sent + Min(ChunkSize, n - sent), n, draw)) ==
             Samples(sent + Min(ChunkSize, n - sent), n - sent - Min(ChunkSize, n - sent), draw)
    ensures PointsOf(StreamFrom(sent, n, draw)) == Samples(sent, n - sent, draw)
  {
    var k := Min(ChunkSize, n - sent);
    var m: nat := n - sent - k;
    FirstChunk(sent, n, draw);
    SamplesAppend(sent, k, m, draw);
  }

  /** The points of a stream that has not yet reached `n`: the next chunk,
      then the points of the rest. */
  lemma FirstChunk(sent: nat, n: nat, draw: nat -> real)
    requires sent < n
    ensures PointsOf(StreamFrom(sent, n, draw)) ==
            Samples(sent, Min(ChunkSize, n - sent), draw) + PointsOf(StreamFrom(sent + Min(ChunkSize, n - sent), n, draw))
  {
    var k := Min(ChunkSize, n - sent);
    var chunk := Samples(sent, k, draw);
    var rest := StreamFrom(sent + k, n, draw);
    var whole := StreamFrom(sent, n, draw);
    assert whole == [Enqueue(Data(chunk))] + rest by {
      StreamStep(sent, n, draw);
    }
    ChunkThenRest(chunk, rest);
  }

  /** A data message in front of a stream adds its chunk in front of the
      stream's points. */
  lemma ChunkThenRest(chunk: seq<Point>, rest: seq<Action>)
    ensures PointsOf([Enqueue(Data(chunk))] + rest) == chunk + PointsOf(rest)
  {
    PointsOfAppend([Enqueue(Data(chunk))], rest);
    PointsOfSmall(chunk);
  }

  /** There are ⌈(n - sent) / 1000⌉ data chunks. */
  lemma {:induction false} StreamChunkCount(sent: nat, n: nat, draw: nat -> real)
    requires sent <= n
    ensures DataCount(StreamFrom(sent, n, draw)) == (n - sent + ChunkSize - 1) / ChunkSize
    decreases n - sent
  {
    if sent == n {
      PointsOfSmall([]);
    } else {
      var k := Min(ChunkSize, n - sent);
      var chunk := Samples(sent, k, draw);
      var rest := StreamFrom(sent + k, n, draw);
      assert StreamFrom(sent, n, draw) == [Enqueue(Data(chunk))] + rest by {
        StreamStep(sent, n, draw);
      }
      assert DataCount([Enqueue(Data(chunk))] + rest) == 1 + DataCount(rest) by {
        PointsOfAppend([Enqueue(Data(chunk))], rest);
        PointsOfSmall(chunk);
      }
      assert DataCount(rest) == (n - sent - k + ChunkSize - 1) / ChunkSize by {
        StreamChunkCount(sent + k, n, draw);
      }
      var m := n - sent;
      if m <= ChunkSize {
        assert (m + ChunkSize - 1) / ChunkSize == 1;
      } else {
        assert (m + ChunkSize - 1) / ChunkSize == 1 + (m - ChunkSize + ChunkSize - 1) / ChunkSize;
      }
    }
  }

  /** The data field of the frame for `m`. */
  function Payload(m: Message, stringify: seq<Point> -> string): string
  {
    if m.Done? then "[DONE]" else stringify(m.chunk)
  }

  /** The event-stream text of a message: `"data: " + payload + "\n\n"`, where
      the payload of a chunk is `stringify(chunk)` (JSON.stringify, a
      parameter here) and the sentinel's frame is the literal
      `"data: [DONE]\n\n"`. */
  function Wire(m: Message, stringify: seq<Point> -> string): (w: string)
    ensures w == "data: " + Payload(m, stringify) + "\n\n"
  {
    match m
    case Done => DoneFrame
    case Data(chunk) => "data: " + stringify(chunk) + "\n\n"
  }

  predicate NoNewline(s: string)
  {
    forall i :: 0 <= i < |s| ==> s[i] != '\n'
  }

  predicate NoBlankLine(s: string)
  {
    forall i :: 0 <= i < |s| - 1 ==> !(s[i] == '\n' && s[i + 1] == '\n')
  }

  /** The inverse of `Wire` on texts of the form `"data: " + payload + "\n\n"`
      whose only blank line is the final one. It is not an event-stream
      reader: a `\n` or `\r` inside the payload, which such a reader takes
      as a line end, is kept here as part of the data. */
  function Unframe(frame: string): (r: Option<string>)
    ensures r.Some? ==> frame == "data: " + r.value + "\n\n"
    ensures r.Some? ==> forall i :: 0 <= i < |frame| - 2 ==> !(frame[i] == '\n' && frame[i + 1] == '\n')
  {
    if |frame| >= 8 && frame[..6] == "data: " && frame[|frame| - 2..] == "\n\n" && NoBlankLine(frame[..|frame| - 1])
    then
      assert frame == frame[..6] + frame[6..|frame| - 2] + frame[|frame| - 2..];
      Some(frame[6..|frame| - 2])
    else None
  }

  /** Every frame is well formed and carries exactly its payload: the
      sentinel's data is `[DONE]`, a chunk's data is its JSON text, which
      holds no raw newline (`JSON.stringify` without indentation escapes
      them). */
  lemma FrameRoundTrip(m: Message, stringify: seq<Point> -> string)
    requires m.Data? ==> NoNewline(stringify(m.chunk))
    ensures Unframe(Wire(m, stringify)) == Some(Payload(m, stringify))
  {
    var w := Wire(m, stringify);
    var p := Payload(m, stringify);
    assert w[..6] == "data: ";
    assert w[|w| - 2..] == "\n\n";
    assert w[6..|w| - 2] == p;
    forall i | 0 <= i < |w| - 2
      ensures w[i] != '\n'
    {
      if i < 6 {
        assert w[i] == "data: "[i];
      } else {
        assert w[i] == p[i - 6];
      }
    }
    assert NoBlankLine(w[..|w| - 1]);
  }

  /** Text holding two events is not read as one whose data contains the
      blank line. */
  lemma TwoEventsNotOneFrame()
    ensures Unframe("data: a\n\nb\n\n") == None
  {
    var f := "data: a\n\nb\n\n";
    assert f[..|f| - 1][7] == '\n' && f[..|f| - 1][8] == '\n';
  }
}
