# estimate-pi: a Dafny model of the streaming Monte Carlo estimator

The application estimates π by drawing random points in the unit square and
reporting `4 * inside / total`, where `inside` counts the points with
`x² + y² ≤ 1`. This project models its three cores and proves what they promise:

- **Estimator** (`utils/pi.ts`, module `Estimator` in `pi.dfy`): `pi({points, total})`.
  It throws on a non-array and on the first point without numeric `x`/`y`.
  Otherwise it counts the points inside the circle in a loop and returns 0 for an
  empty list and `(inside / total) * 4` otherwise, with the caller's `total`.
- **Point producer** (`app/api/estimate/route.ts`, module `Producer` in `route.dfy`): `GET /api/estimate?n=`.
  A missing, non-numeric or non-positive `n` gets a 400 response and no stream.
  Otherwise `sendChunk` runs until it closes the stream, modelled as a loop.
  Each invocation enqueues one chunk of at most 1000 points as `"data: " + JSON + "\n\n"`.
  Once `pointsSent >= n` it enqueues `"data: [DONE]\n\n"` and closes.
- **Stream consumer** (`app/hooks/use-sse.ts`, module `Consumer` in `use_sse.dfy`): the `useSSE` hook as class `UseSse`.
  The fields are `isLoading`, `error`, `estimation`, the closure counter
  `pointsInsideCircle`, and the event source: created or not, closed or not,
  and how many times `close()` was called. The handlers `onopen`, `onmessage`,
  `onerror`, the `close` listener and the effect cleanup are methods. The
  constructor runs the effect once on a freshly mounted hook, including the
  guard for `totalPoints <= 0` and the path where the `EventSource`
  constructor throws.
- `points.dfy` (module `Points`) holds what the three share: a point-like value `Elem` and the inside-circle count.
- `pipeline.dfy` (module `Pipeline`) feeds the producer's stream for `n` into a hook mounted for `n`.

Modelling choices:

- Coordinates are `real`. `Elem` is `Nullish` (null or undefined, where reading `.x` throws) or `Obj(x, y)`. Each coordinate is `Some(number)` or `None` (not a number, or missing).
- `Math.random` is the parameter `draw: nat -> real`; point `i` is `(draw(2i), draw(2i+1))`.
- `parseInt` is not modelled. The parameter is `NParam`: `Absent` (missing or empty, read as "0") or `Present(parsed)` with `parsed: Option<int>`, where `None` is NaN.
- `JSON.stringify` is the parameter `stringify` of `Producer.Wire`. On the client a frame is already decoded into `Consumer.Frame`. `Pipeline.Received` assumes `JSON.parse(JSON.stringify(chunk))` gives back the chunk.
- The producer's output is the sequence of calls it makes on the stream controller (`Enqueue(message)` or `CloseStream`). `Producer.Get` is proved equal to the recursive `StreamFrom`, which mirrors the self-rescheduling `sendChunk`.
- The hook's handlers require that the event source exists (`hasSource`), because the handlers are installed only on a source that was created. Ghost fields `published` (the count behind the current estimate) and `seen` (elements processed) carry the class invariant `Valid()`.

Where the code's behaviour may surprise a reader, the model follows the code:

- `pi` returns 0 only for an empty `points`. For a non-empty valid list it divides by `total` whatever `total` is. `total == 0` is therefore a precondition in that case only.
- A `null` or `undefined` element in a chunk is not simply skipped. Reading `point.x` throws, and the outer `catch` abandons the rest of the chunk. The increments made before it persist, but the estimate is not recomputed for that chunk (`Consumer.UseSse.CountChunk`, `Consumer.NullElementScenario`).
- Only the event-stream transport appears in the modelled files; no newline-delimited consumer or worker thread is modelled.

## Model

| member | source | states |
|---|---|---|
| Points.IsNumericPoint | utils/pi.ts:14 | the `typeof` test on x and y, as a definition with no contract of its own; FirstFault, Pi and UseSse.CountChunk state their contracts in its terms |
| Points.InsideCircle | utils/pi.ts:25 | a point on the circle passes the test; every point that passes lies in the square [-1, 1]² |
| Points.CountsInside | app/hooks/use-sse.ts:44-50 | the counted-element test (numeric x and y, inside the circle), as a definition with no contract of its own; CountInsideIsCardinality and CountInsideStep state the count in its terms |
| Points.CountInside | utils/pi.ts:22-28 | the inside count never exceeds the number of points |
| Points.CountInsideAppend | utils/pi.ts:24-28 | the count of a concatenation is the sum of the counts of the parts |
| Points.CountInsideIsCardinality | utils/pi.ts:24-28 | the count equals the number of indices whose point has numeric coordinates with x²+y² ≤ 1 |
| Points.CountInsideAll | utils/pi.ts:24-28 | the count equals the length exactly when every point is inside |
| Points.CountInsideNone | utils/pi.ts:24-28 | the count is zero exactly when no point is inside |
| Points.CountInsideStep | app/hooks/use-sse.ts:43-54 | one more element raises the count by one exactly when it is a numeric point inside the circle |
| Estimator.FirstFault | utils/pi.ts:12-20 | no error exactly when every element has numeric x and y; otherwise the error of the first faulty element (TypeError for null, the validation error otherwise) |
| Estimator.PiError.Message | utils/pi.ts:8-20 | the error carries a message exactly when it is one of the two thrown `Error`s; the TypeError from reading `.x` of null has none of its own |
| Estimator.PiValue | utils/pi.ts:30-35 | 0 for an empty list; for a non-empty one the value times total equals 4 times the inside count |
| Estimator.Pi | utils/pi.ts:1-36 | non-array input throws the array error, a faulty point throws before anything is counted, and valid input returns 0 when empty and 4·inside/total otherwise; an error is returned exactly when the input is not an array or some point is not numeric |
| Estimator.EmptyGivesZero | utils/pi.ts:30-32 | an empty list gives exactly 0 whatever total is |
| Estimator.PiValueRange | utils/pi.ts:22-35 | with total equal to the number of points the estimate lies in [0, 4] |
| Estimator.PiValueExtremes | utils/pi.ts:22-35 | for a non-empty list with total = length, the estimate is 4 exactly when all points are inside and 0 exactly when none is |
| Estimator.OnCircleCounts | utils/pi.ts:25 | a point with x²+y² = 1 is counted as inside |
| Estimator.FourPointExample | utils/pi.test.ts:4-14 | (0.5,0.5), (0.7,0.7), (-0.3,-0.4), (1.2,1.2) with total 4 give exactly 3 |
| Producer.RequestedN | app/api/estimate/route.ts:4 | the `\|\| "0"` default before parsing, as a definition with no contract of its own; ValidN, MissingNRejected and Get state its consequences |
| Producer.ValidN | app/api/estimate/route.ts:4-6 | n is accepted exactly when the parameter is present, parses to a number and that number is at least 1 |
| Producer.MissingNRejected | app/api/estimate/route.ts:4-6 | a missing n is read as 0 and rejected |
| Producer.StreamFrom | app/api/estimate/route.ts:18-36 | the stream from pointsSent on, defined by the recursion of sendChunk (no contract of its own; Get is proved equal to it and StreamShape, StreamDelivers and StreamChunkCount state its properties) |
| Producer.SendChunk | app/api/estimate/route.ts:18-36 | at or past n it enqueues the sentinel and the close and leaves pointsSent alone; otherwise it enqueues one chunk, pointsSent strictly grows and stays ≤ n, and the rest of the stream continues from the new pointsSent |
| Producer.Get | app/api/estimate/route.ts:3-45 | a 400 response with the fixed message exactly when n is non-numeric or ≤ 0; otherwise the controller receives exactly the stream StreamFrom(0, n) |
| Producer.Samples | app/api/estimate/route.ts:26-30 | the count points drawn from index from on, in draw order, one `{x: Math.random(), y: Math.random()}` per pass; its length is count |
| Producer.SamplesAt | app/api/estimate/route.ts:27-30 | the k-th point of a chunk is the one drawn on pass k of the loop |
| Producer.SamplesAppend | app/api/estimate/route.ts:27-30 | consecutive runs of the point loop concatenate to one run |
| Producer.StreamShape | app/api/estimate/route.ts:16-34 | every action but the last two enqueues a chunk of 1 to 1000 points; the last two are the [DONE] sentinel and the close |
| Producer.SentinelOnce | app/api/estimate/route.ts:20-24 | in such a stream the sentinel occurs only once, right before the close |
| Producer.StreamFullChunks | app/api/estimate/route.ts:27 | every data chunk before the last holds exactly 1000 points |
| Producer.StreamDelivers | app/api/estimate/route.ts:20-30 | the chunks concatenate to exactly the points sent..n, each once and in order, so their sizes sum to n − sent |
| Producer.StreamChunkCount | app/api/estimate/route.ts:20-30 | there are ⌈(n − sent)/1000⌉ data chunks |
| Producer.Wire | app/api/estimate/route.ts:20-34 | every frame, the sentinel included, is "data: " + payload + "\n\n", the payload being [DONE] or the chunk's JSON text |
| Producer.Unframe | app/api/estimate/route.ts:33 | a text read as one event is "data: " + its data + "\n\n", and its only blank line is the final one |
| Producer.FrameRoundTrip | app/api/estimate/route.ts:32-34 | for a payload with no raw newline, reading the frame back gives exactly the payload: [DONE] for the sentinel and the chunk's JSON text for a chunk |
| Producer.TwoEventsNotOneFrame | app/api/estimate/route.ts:33 | text holding two events is not read as a single event whose data contains the blank line |
| Consumer.CalculatePIEstimation | app/hooks/use-sse.ts:12-17 | 0 when totalPoints ≤ 0; otherwise the estimate times totalPoints equals 4 times the count |
| Consumer.EstimationRange | app/hooks/use-sse.ts:12-17 | a count of at most totalPoints gives an estimate in [0, 4] |
| Consumer.EstimationMonotone | app/hooks/use-sse.ts:12-17 | a larger count never gives a smaller estimate |
| Consumer.FirstNullish | app/hooks/use-sse.ts:43-47 | the position of the first null/undefined element, where the loop throws; every element before it is an object |
| Consumer.Decimal | app/hooks/use-sse.ts:99 | the decimal text of totalPoints is non-empty, all digits, and has no leading zero |
| Consumer.DecimalRoundTrip | app/hooks/use-sse.ts:99 | reading the decimal text back gives the number |
| Consumer.UseSse.constructor | app/hooks/use-sse.ts:93-101 | for totalPoints ≤ 0 no EventSource is requested, isLoading is false, error is null and estimation 0; otherwise "/api/estimate?n=" + totalPoints is requested, and a throwing constructor leaves no source, the fixed init error, isLoading false and estimation 0 |
| Consumer.UseSse.OnOpen | app/hooks/use-sse.ts:26-28 | isLoading becomes true and nothing else changes |
| Consumer.UseSse.OnMessage | app/hooks/use-sse.ts:32-63 | [DONE] closes the source once more and ends loading without touching count or estimate; an unparseable or non-array frame changes nothing; an array is counted as in CountChunk; the count never decreases |
| Consumer.UseSse.CountChunk | app/hooks/use-sse.ts:39-56 | the count rises by the inside points before the first null element; the estimate becomes CalculatePIEstimation of the new count only if there is no null element, and stays otherwise |
| Consumer.UseSse.OnError | app/hooks/use-sse.ts:65-72 | error becomes the fixed streaming message, loading ends, the source is closed once more, count and estimate unchanged |
| Consumer.UseSse.OnCloseEvent | app/hooks/use-sse.ts:74-77 | loading ends and nothing else changes |
| Consumer.UseSse.Cleanup | app/hooks/use-sse.ts:84-88 | closes the source if one was created, and does nothing else |
| Consumer.InitialDefaults | app/hooks/use-sse.test.ts:33-39 | with totalPoints ≤ 0: not loading, no error, estimation 0, no request |
| Consumer.InitFailure | app/hooks/use-sse.test.ts:84-98 | a throwing constructor gives isLoading false, the init error message and estimation 0 |
| Consumer.ScenarioChunks | app/hooks/use-sse.test.ts:51-69 | the test's two chunks hold 3 and 2 points inside and no null |
| Consumer.StreamingScenario | app/hooks/use-sse.test.ts:41-82 | requesting 10 points, two chunks then [DONE]: URL /api/estimate?n=10, not loading, no error, estimation 2 (> 0), close called once |
| Consumer.NullElementScenario | app/hooks/use-sse.ts:43-62 | a chunk (0,0), null, (0.5,0.5) adds 1 to the count, leaves the estimate unpublished and the source open |
| Pipeline.ToElems | app/hooks/use-sse.ts:40 | the chunk as the client sees it after `JSON.parse(JSON.stringify(chunk))`; it has the same length as the chunk |
| Pipeline.ToElemsAt | app/hooks/use-sse.ts:40 | element i of the decoded chunk is an object whose x and y are point i's numbers |
| Pipeline.Received | app/hooks/use-sse.ts:33-42 | the client sees [DONE] exactly for the sentinel, and for a chunk an array of the same length with no null element |
| Pipeline.SentinelRecognised | app/hooks/use-sse.ts:33 | when no chunk's JSON text is [DONE] and none holds a raw newline, the client's `event.data === "[DONE]"` test on the wire frame holds exactly for the sentinel |
| Pipeline.ToElemsComplete | app/hooks/use-sse.ts:43-47 | a chunk produced by the server has no null element, so the client reads all of it |
| Pipeline.IncrementalMatchesBatch | app/hooks/use-sse.ts:14 | the hook's 4·c/n equals pi's (c/n)·4 on the same points |
| Pipeline.ProducedStream | app/api/estimate/route.ts:13-45 | for n > 0 the response is a well-framed stream carrying exactly the n drawn points |
| Pipeline.DeliverChunks | app/hooks/use-sse.ts:42-56 | delivering every data message of a well-framed stream leaves the count of all its points, that many points seen, the estimate for that count, and the source still open |
| Pipeline.EndToEnd | app/hooks/use-sse.ts:30-56 | a hook for n requests its URL, the server reads n back from the URL's digits, and the stream it produces is fed to the hook: every drawn point is seen once; the final count is ≤ n and the estimate lies in [0, 4] and equals pi on the same points; close is called once and loading ends |

## Left out

- React scheduling (`useState`, `useEffect`, `useCallback`, re-renders) is not modelled. The hook is a class whose handlers may be called in any order, and state updates take effect at once.
- The browser's `EventSource` is not modelled: connection, reconnection, event dispatch and the parsing of the event-stream text. `Producer.Unframe` reads one event only, as the partner of `Producer.Wire`: a text whose first blank line is not its end is not read as one event.
- `NextResponse`, `ReadableStream`, the response headers and the 10 ms `setTimeout` pacing are not modelled. The pacing is only scheduling.
- The producer's `catch` and `controller.error` path (app/api/estimate/route.ts:37-40) is left out. After the reader cancels the stream, when the client disconnects, `controller.enqueue` or `controller.close` throws; the `catch` then errors the stream and `sendChunk` is not rescheduled. `Producer.Get` assumes the reader never cancels.
- `Math.random` is the parameter `draw`. The statistical test of 10000 random points is left out, since it is not a property of every run.
- `JSON.parse` and `JSON.stringify` are left out: frames arrive decoded, and the payload text is a parameter.
- `parseInt` is left out. Its result is given as `Option<int>`.
- Producer.Get: the model's stream always ends, but two kinds of `n` make the real one run until the client disconnects, and neither is modelled. An `n` that parses to `Infinity` (a numeral of about 1.8·10^308 or more) passes the `isNaN(n) || n <= 0` guard at app/api/estimate/route.ts:6, and `pointsSent >= n` at line 20 never holds. Any `n` above 2^53 does the same, because the floating-point `pointsSent++` at line 29 stops increasing at 2^53. Counters are unbounded integers here.
- Arrays with holes are not modelled: `seq<Elem>` has a value at every index. In such an array `some` at utils/pi.ts:13 skips the hole, and `for (const {x, y} of points)` at line 24 then throws a TypeError destructuring `undefined`. A hole followed by a non-numeric point therefore throws the validation error, where a `Nullish` at that index gives `NullPointTypeError`.
- IEEE floating point is left out: NaN, Infinity and rounding. NaN coordinates, which JavaScript counts as numbers but never as inside, are not modelled.
- Console output (`console.warn`, `console.error`, `console.log`) is left out.
- Consumer.UseSse.constructor: models one run of the effect on a freshly mounted hook. A later run for a new `totalPoints`, after the old cleanup, is not modelled: it keeps the earlier `error` and `estimation` (nothing resets them) and restarts only the closure counter `pointsInsideCircle`.
- Producer.FrameRoundTrip: holds only for payloads without a raw newline. That is what `JSON.stringify` without indentation produces, but the exact JSON text is not modelled.
- app/page.tsx is not part of this model (rendering and a submit guard).
