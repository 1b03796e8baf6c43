# CLIP 2 bridge connection of the openHAB Hue binding, modelled in Dafny

`Clip2Bridge` is the client side of a Philips Hue bridge's CLIP 2 API in the openHAB Hue
binding. It holds one HTTP/2 session to the bridge and moves it through the states CLOSED,
PASSIVE (session open, keep-alive pings running) and ACTIVE (an SSE event stream is also
open). Over that session it:

- serves GET and PUT requests for resources, at most three at a time, 50 ms apart;
- turns HTTP/2 stream and session events (idle, timeout, close, reset, failure, GOAWAY,
  401/403) into fatal errors, which run one second later and close the connection or
  schedule a restart;
- splits the SSE stream into messages and passes their `data:` payloads to the bridge handler;
- tells the handler when the connection goes online or offline.

The project models that class:

| Module | File | What it models |
|---|---|---|
| `Text` | `text.dfy` | the Java string operations the class relies on (`stripLeading`, `trim`, `isBlank`, `toLowerCase`, `Long.parseLong`) |
| `Collector` | `collector.dfy` | `DataFrameCollector`, a class over a byte array that grows as the source's `append` grows it |
| `Sse` | `sse.dfy` | the framing of the event stream: `BufferedReader.readLine` line splitting, the blank line that ends a message, and the joining of `data:` fields |
| `Errors` | `errors.dfy` | `Http2Error`, `Http2Exception`, and which listener callback reports which error |
| `Awaiter` | `awaiter.dfy` | the `CompletableFuture` each listener completes, and the caller's bounded wait on it |
| `Listeners` | `listeners.dfy` | the three stream listeners as classes, each owning its future, its content type and, for the SSE stream, its line buffer |
| `Requests` | `requests.dfy` | URL building, `prepareHeaders` and `isClip2Supported` |
| `Connection` | `connection.dfy` | the connection as a value (`BridgeState`): one function per method of the class, per scheduler job and per network callback, with `Apply`/`Run` over any sequence of them, for the code as written (`AsWritten`) or corrected (`Corrected`) |
| `ConnectionInvariant` | `connection_invariant.dfy` | the invariant every reachable state keeps: a weaker one for the code as written, a stronger one once the defects in `throttle` and `fatalErrorDelayed` are corrected |
| `ConnectionLemmas` | `connection_lemmas.dfy` | the behavioural properties |
| `Bridge` | `bridge.dfy` | `Clip2Bridge` itself, as a class whose fields the methods update in the source's statement order; each method is proved to reach the state the matching `Connection` function describes, and the public methods and callbacks keep the invariant; the class runs the corrected steps |
| `Findings` | `findings.dfy` | the three defects below, each as written and corrected |

The environment is a set of parameters, so no step does real I/O:

- the network: whether a session or stream opens, what the bridge answers, whether the JSON parses;
- the clock: `now` in milliseconds;
- the scheduler: which pending job runs next;
- interrupts: whether and where a thread is interrupted.

Scheduled jobs carry ids. The pending restart, keep-alive and fatal-error jobs are part of
the state, so cancelling a task is modelled by removing its job.

A call that blocks is split in two:

- `getResources`, `putResource` and `testConnectionState` are each a `Begin…` step, which
  runs up to sending the request and holds a permit;
- `EndCall` is the step that takes the bridge's response and gives the permit back.

A `Begin…` step that would wait, for a running restart task or for a permit, returns
`None`. The step is then re-evaluated when it can go on.

## Model

| member | source | states |
|---|---|---|
| Text.StripLeading | bundles/org.openhab.binding.hue/src/main/java/org/openhab/binding/hue/internal/connection/Clip2Bridge.java:285 | the result is a suffix of the input, everything dropped is whitespace, and it does not start with whitespace (`String.stripLeading`) |
| Text.StripLeadingEmptyIffBlank | bundles/org.openhab.binding.hue/src/main/java/org/openhab/binding/hue/internal/connection/Clip2Bridge.java:272-285 | stripping leading whitespace leaves nothing exactly when the text is blank (`isBlank`) |
| Text.Trim | bundles/org.openhab.binding.hue/src/main/java/org/openhab/binding/hue/internal/connection/Clip2Bridge.java:288-289 | the result is an infix of the input such that everything before and after it is a character up to U+0020; it neither starts nor ends with such a character, and text that already does not is returned unchanged (`String.trim`) |
| Text.ToLower | bundles/org.openhab.binding.hue/src/main/java/org/openhab/binding/hue/internal/connection/Clip2Bridge.java:160 | same length; ASCII upper-case letters become lower-case, every other character is kept (`toLowerCase`) |
| Text.ParseLongRoundTrip | bundles/org.openhab.binding.hue/src/main/java/org/openhab/binding/hue/internal/connection/Clip2Bridge.java:443 | `Long.parseLong` reads back every 64-bit value `Long.toString` writes |
| Text.ParseLong | bundles/org.openhab.binding.hue/src/main/java/org/openhab/binding/hue/internal/connection/Clip2Bridge.java:443 | `Long.parseLong` on ASCII text: a value is returned only for an optional sign followed by at least one decimal digit, and it lies in the 64-bit range; a lone "-" or "+" gives none; a digit string, or one after "+" or "-", is read as its (negated) value when that fits in 64 bits and gives none otherwise |
| Collector.CapacityAfter | bundles/org.openhab.binding.hue/src/main/java/org/openhab/binding/hue/internal/connection/Clip2Bridge.java:215-219 | the buffer is reallocated only when the needed size exceeds the capacity; then the new capacity is exactly the needed size for chunks under 4096 bytes, and exactly the larger of twice the old capacity and the needed size otherwise; it is never below the needed size |
| Collector.CopyOf | bundles/org.openhab.binding.hue/src/main/java/org/openhab/binding/hue/internal/connection/Clip2Bridge.java:218 | `Arrays.copyOf`: a fresh array of the new length holding the old prefix, padded with zeros |
| Collector.GetInto | bundles/org.openhab.binding.hue/src/main/java/org/openhab/binding/hue/internal/connection/Clip2Bridge.java:220 | `ByteBuffer.get` of a whole chunk: the destination then holds its earlier bytes up to the offset followed by the chunk |
| Collector.DataFrameCollector.constructor | bundles/org.openhab.binding.hue/src/main/java/org/openhab/binding/hue/internal/connection/Clip2Bridge.java:209-211 | a new collector has capacity 512 and holds nothing |
| Collector.DataFrameCollector.Append | bundles/org.openhab.binding.hue/src/main/java/org/openhab/binding/hue/internal/connection/Clip2Bridge.java:213-222 | the buffered bytes are the old ones followed by the chunk; the capacity follows the growth rule, and the same array is kept when the chunk fits |
| Collector.DataFrameCollector.ContentAsString | bundles/org.openhab.binding.hue/src/main/java/org/openhab/binding/hue/internal/connection/Clip2Bridge.java:224-226 | returns the buffered bytes as text and changes nothing |
| Collector.DataFrameCollector.Reset | bundles/org.openhab.binding.hue/src/main/java/org/openhab/binding/hue/internal/connection/Clip2Bridge.java:232-234 | the collector holds nothing afterwards, and the array and its capacity are kept |
| Sse.LinesRoundTrip | bundles/org.openhab.binding.hue/src/main/java/org/openhab/binding/hue/internal/connection/Clip2Bridge.java:267-269 | lines without line breaks, each terminated by a newline, are split back into the same lines |
| Sse.LinesAfterUnlines | bundles/org.openhab.binding.hue/src/main/java/org/openhab/binding/hue/internal/connection/Clip2Bridge.java:267-269 | splitting terminated lines followed by more text yields those lines, then the lines of the rest |
| Sse.MessageTextComplete | bundles/org.openhab.binding.hue/src/main/java/org/openhab/binding/hue/internal/connection/Clip2Bridge.java:271-273 | a message (its lines, then a blank line) splits into its lines and one blank line, so it is complete |
| Sse.ProperPrefixIncomplete | bundles/org.openhab.binding.hue/src/main/java/org/openhab/binding/hue/internal/connection/Clip2Bridge.java:271-273 | no proper prefix of a message whose lines do not start with whitespace is complete |
| Sse.PayloadAppend | bundles/org.openhab.binding.hue/src/main/java/org/openhab/binding/hue/internal/connection/Clip2Bridge.java:282-287 | the payload of two runs of lines is the two payloads joined with no separator |
| Sse.PayloadIgnoresOtherLines | bundles/org.openhab.binding.hue/src/main/java/org/openhab/binding/hue/internal/connection/Clip2Bridge.java:283-287 | lines other than `data:` lines contribute nothing to the payload |
| Sse.PayloadNonEmptyIff | bundles/org.openhab.binding.hue/src/main/java/org/openhab/binding/hue/internal/connection/Clip2Bridge.java:284-288 | the payload is non-empty exactly when some `data:` line has a non-blank remainder |
| Sse.FrameText | bundles/org.openhab.binding.hue/src/main/java/org/openhab/binding/hue/internal/connection/Clip2Bridge.java:267-290 | a scan of the buffered text is complete exactly when its last line is blank, and it delivers an event exactly when, in addition, some `data:` line has a non-blank remainder |
| Sse.OnChunk | bundles/org.openhab.binding.hue/src/main/java/org/openhab/binding/hue/internal/connection/Clip2Bridge.java:262-292 | one `onData`: a message completes exactly when the lines of the buffer plus the chunk end with a blank line; then the buffer is emptied, otherwise it holds the old text followed by the chunk; an event is delivered only with a completed message |
| Sse.Feed | bundles/org.openhab.binding.hue/src/main/java/org/openhab/binding/hue/internal/connection/Clip2Bridge.java:262-292 | a run of `onData` calls delivers at most one event per completed message and completes at most one message per chunk; while none completes, the buffer is the old text followed by every chunk and nothing is delivered |
| Sse.FeedSplit | bundles/org.openhab.binding.hue/src/main/java/org/openhab/binding/hue/internal/connection/Clip2Bridge.java:262-292 | feeding two runs of chunks is feeding the first, then the second from the buffer the first leaves, with counts and events added up |
| Sse.FeedAccumulates | bundles/org.openhab.binding.hue/src/main/java/org/openhab/binding/hue/internal/connection/Clip2Bridge.java:262-276 | chunks that complete no message keep every buffered character, append each chunk, and deliver nothing |
| Sse.FeedAccumulatesUntilComplete | bundles/org.openhab.binding.hue/src/main/java/org/openhab/binding/hue/internal/connection/Clip2Bridge.java:262-290 | after chunks that complete nothing, the first chunk that completes a message empties the buffer and delivers the events of all the text gathered so far |
| Sse.LeadingWhitespaceLineSplitsMessage | bundles/org.openhab.binding.hue/src/main/java/org/openhab/binding/hue/internal/connection/Clip2Bridge.java:267-273 | a message with a line that starts with whitespace depends on the chunking: `data:a`, ` x`, `data:b` delivers `ab` in one chunk, but `a` and then `b` when cut after `data:a` and the line break and space, because the partial line ` ` is blank |
| Sse.FeedEmptyChunks | bundles/org.openhab.binding.hue/src/main/java/org/openhab/binding/hue/internal/connection/Clip2Bridge.java:262-291 | chunks that together are empty complete nothing, deliver nothing and leave the buffer empty |
| Sse.FeedRestOfMessage | bundles/org.openhab.binding.hue/src/main/java/org/openhab/binding/hue/internal/connection/Clip2Bridge.java:262-291 | for a message whose lines do not start with whitespace: whatever part of it is already buffered, the rest of it in any chunking completes exactly one message and delivers its event |
| Sse.MessageChunkingInvariant | bundles/org.openhab.binding.hue/src/main/java/org/openhab/binding/hue/internal/connection/Clip2Bridge.java:262-291 | a message whose lines do not start with whitespace, split across any number of chunks, completes once and delivers the same events as in one chunk |
| Sse.EventsOfMessage | bundles/org.openhab.binding.hue/src/main/java/org/openhab/binding/hue/internal/connection/Clip2Bridge.java:282-290 | a message delivers one event, the trimmed payload, when the payload is non-empty, and nothing otherwise |
| Sse.DataLinesJoinedWithoutSeparator | bundles/org.openhab.binding.hue/src/main/java/org/openhab/binding/hue/internal/connection/Clip2Bridge.java:284-286 | two `data:` lines "ab" and "cd" deliver the single event "abcd", in any chunking |
| Sse.CommentOnlyMessageDeliversNothing | bundles/org.openhab.binding.hue/src/main/java/org/openhab/binding/hue/internal/connection/Clip2Bridge.java:271-290 | a comment-only message is complete but delivers no event |
| Errors.Classify | bundles/org.openhab.binding.hue/src/main/java/org/openhab/binding/hue/internal/connection/Clip2Bridge.java:195-381 | which lifecycle callbacks are fatal for which listener: idle and timeout for GET/PUT streams; close and reset for the SSE stream; close, failure, GOAWAY and reset for the session; idle timeouts of the SSE stream and session are ignored |
| Errors.HeaderError | bundles/org.openhab.binding.hue/src/main/java/org/openhab/binding/hue/internal/connection/Clip2Bridge.java:148-162 | a HEADERS frame is fatal exactly when it is a response with status 401 or 403, and then the error is UNAUTHORIZED |
| Errors.ErrorMessage | bundles/org.openhab.binding.hue/src/main/java/org/openhab/binding/hue/internal/connection/Clip2Bridge.java:331-333 | the exception text is `HTTP 2 stream ` followed by the enum constant's name lower-cased |
| Errors.ErrorMessageInjective | bundles/org.openhab.binding.hue/src/main/java/org/openhab/binding/hue/internal/connection/Clip2Bridge.java:331-332 | distinct errors give distinct exception texts |
| Awaiter.Complete | bundles/org.openhab.binding.hue/src/main/java/org/openhab/binding/hue/internal/connection/Clip2Bridge.java:186-187 | completing takes effect only on a future not yet done, and leaves it done |
| Awaiter.CompleteExceptionally | bundles/org.openhab.binding.hue/src/main/java/org/openhab/binding/hue/internal/connection/Clip2Bridge.java:133-140 | failing takes effect only on a future not yet done, and leaves it done |
| Awaiter.ExceptionFor | bundles/org.openhab.binding.hue/src/main/java/org/openhab/binding/hue/internal/connection/Clip2Bridge.java:133-140 | UNAUTHORIZED becomes the separate authorisation failure; every other error is wrapped with its kind |
| Awaiter.DoneIsFinal | bundles/org.openhab.binding.hue/src/main/java/org/openhab/binding/hue/internal/connection/Clip2Bridge.java:186-187 | a done future never changes again, whatever is written to it later |
| Awaiter.FirstWriteWins | bundles/org.openhab.binding.hue/src/main/java/org/openhab/binding/hue/internal/connection/Clip2Bridge.java:278-280 | the first write to a fresh future decides its value; later ones are ignored |
| Awaiter.Await | bundles/org.openhab.binding.hue/src/main/java/org/openhab/binding/hue/internal/connection/Clip2Bridge.java:120-122 | the wait yields the value or the failure of a done future; on a future not yet done it times out, or is interrupted |
| Listeners.BaseStreamListener.constructor | bundles/org.openhab.binding.hue/src/main/java/org/openhab/binding/hue/internal/connection/Clip2Bridge.java:116-118 | a new listener has an incomplete future and the content type "UNDEFINED" |
| Listeners.BaseStreamListener.Complete | bundles/org.openhab.binding.hue/src/main/java/org/openhab/binding/hue/internal/connection/Clip2Bridge.java:186-187 | completes the future unless it is already done |
| Listeners.BaseStreamListener.HandleHttp2Error | bundles/org.openhab.binding.hue/src/main/java/org/openhab/binding/hue/internal/connection/Clip2Bridge.java:133-142 | fails the future, unless it is done, with the authorisation failure for UNAUTHORIZED and the wrapped error otherwise |
| Listeners.BaseStreamListener.OnHeaders | bundles/org.openhab.binding.hue/src/main/java/org/openhab/binding/hue/internal/connection/Clip2Bridge.java:148-162 | a 401/403 response fails the future as unauthorised and is reported; every response records its content type lower-cased, the unauthorised ones included |
| Listeners.BaseStreamListener.AwaitResult | bundles/org.openhab.binding.hue/src/main/java/org/openhab/binding/hue/internal/connection/Clip2Bridge.java:120-122 | the waiting thread gets what `Await` yields for the future |
| Listeners.ContentStreamListener.OnData | bundles/org.openhab.binding.hue/src/main/java/org/openhab/binding/hue/internal/connection/Clip2Bridge.java:181-192 | the chunk is collected; at the end of the stream a future not yet done is completed with the trimmed text of all the data, and the collector is emptied |
| Listeners.ContentStreamListener.OnSignal | bundles/org.openhab.binding.hue/src/main/java/org/openhab/binding/hue/internal/connection/Clip2Bridge.java:195-204 | idle timeout and timeout fail the future and are reported; the other callbacks are ignored |
| Listeners.EventStreamListener.OnData | bundles/org.openhab.binding.hue/src/main/java/org/openhab/binding/hue/internal/connection/Clip2Bridge.java:262-294 | the buffered text after the chunk, whether a message completed, the future completed with TRUE on the first complete message, and the event delivered, all as `Sse.OnChunk` computes them |
| Listeners.EventStreamListener.OnSignal | bundles/org.openhab.binding.hue/src/main/java/org/openhab/binding/hue/internal/connection/Clip2Bridge.java:257-304 | being closed or reset fails the future and is reported; idle timeouts are ignored |
| Requests.GetUrl | bundles/org.openhab.binding.hue/src/main/java/org/openhab/binding/hue/internal/connection/Clip2Bridge.java:732-736 | the URL starts with the resource base URL, then the type; it is longer than that exactly when the id is present and non-empty |
| Requests.GetUrlRoundTrip | bundles/org.openhab.binding.hue/src/main/java/org/openhab/binding/hue/internal/connection/Clip2Bridge.java:732-736 | the type and the id (absent or empty meaning all resources) can be read back from the URL |
| Requests.PrepareHeaders | bundles/org.openhab.binding.hue/src/main/java/org/openhab/binding/hue/internal/connection/Clip2Bridge.java:952-965 | the frame carries the method, URL and HTTP/2.0; Accept first and the application key last; Content-Type only when given and Content-Length only when non-negative; it ends the stream exactly when the length is at most zero |
| Requests.PrepareGetHeaders | bundles/org.openhab.binding.hue/src/main/java/org/openhab/binding/hue/internal/connection/Clip2Bridge.java:938-940 | a plain GET is the general header builder with method GET, no content length and no content type: the frame carries GET, the URL and HTTP/2.0, the Accept and application-key fields, no Content-Type and no Content-Length, and it ends the stream |
| Requests.ContentLengthRoundTrip | bundles/org.openhab.binding.hue/src/main/java/org/openhab/binding/hue/internal/connection/Clip2Bridge.java:958-960 | a reader of the Content-Length field gets the body length back |
| Requests.IsClip2Supported | bundles/org.openhab.binding.hue/src/main/java/org/openhab/binding/hue/internal/connection/Clip2Bridge.java:436-451 | support only when the version is present and parses as a 64-bit number at least 1948086000 |
| Requests.Clip2SupportedIffAtLeastMinimum | bundles/org.openhab.binding.hue/src/main/java/org/openhab/binding/hue/internal/connection/Clip2Bridge.java:443 | for a version reported as a number, support is exactly the comparison with the minimum |
| Connection.Init | bundles/org.openhab.binding.hue/src/main/java/org/openhab/binding/hue/internal/connection/Clip2Bridge.java:465-475 | a new client is closed, has no session, and satisfies the invariant |
| Connection.FatalErrorDelayedAsWritten | bundles/org.openhab.binding.hue/src/main/java/org/openhab/binding/hue/internal/connection/Clip2Bridge.java:637-645 | as written, a new job gets the next job id and is filed under the current size of the job map, and the map then sends that index to the new job |
| Connection.Apply | bundles/org.openhab.binding.hue/src/main/java/org/openhab/binding/hue/internal/connection/Clip2Bridge.java:454-463 | no operation, in either build, changes the host name or the application key, takes back a notification or a frame sent (each list only grows at its end), or moves the next job id or the next call id backwards |
| Connection.Run | bundles/org.openhab.binding.hue/src/main/java/org/openhab/binding/hue/internal/connection/Clip2Bridge.java:454-463 | the same holds for any sequence of operations |
| Connection.ThrottleDelay | bundles/org.openhab.binding.hue/src/main/java/org/openhab/binding/hue/internal/connection/Clip2Bridge.java:1124-1129 | the delay is positive exactly when `now` is within 50 ms of the last request, and `now` plus the delay is the last request time plus 50 ms |
| Connection.StartTime | bundles/org.openhab.binding.hue/src/main/java/org/openhab/binding/hue/internal/connection/Clip2Bridge.java:1124-1129 | a request starts no earlier than it arrives and at least 50 ms after the last request time |
| Connection.ThrottleAsWritten | bundles/org.openhab.binding.hue/src/main/java/org/openhab/binding/hue/internal/connection/Clip2Bridge.java:1122-1132 | the throttle as written: an interrupted sleep throws with one permit taken and nothing else changed; otherwise one permit is taken, the start time returned, and the time before the sleep recorded |
| Connection.ThrottleIn | bundles/org.openhab.binding.hue/src/main/java/org/openhab/binding/hue/internal/connection/Clip2Bridge.java:1122-1132 | the first half of `throttle`, in either build: it waits (None) exactly when no permit is free and it is not interrupted while acquiring; it changes only the permits and the last request time; a request let through has taken one permit; an interrupted sleep keeps the permit as written and changes nothing once corrected |
| Connection.Throttle | bundles/org.openhab.binding.hue/src/main/java/org/openhab/binding/hue/internal/connection/Clip2Bridge.java:1122-1132 | the corrected throttle: waits for a permit when none is free; an interrupted sleep leaves the state unchanged; otherwise one permit is taken and the start time recorded |
| Connection.GetOutcome | bundles/org.openhab.binding.hue/src/main/java/org/openhab/binding/hue/internal/connection/Clip2Bridge.java:690-720 | a GET returns a body only when the stream opened and the response arrived, and then returns that response |
| Connection.PutOutcome | bundles/org.openhab.binding.hue/src/main/java/org/openhab/binding/hue/internal/connection/Clip2Bridge.java:990-1017 | a PUT returns nothing, and never surfaces an authorisation failure as such |
| ConnectionInvariant.Close2KeepsInv | bundles/org.openhab.binding.hue/src/main/java/org/openhab/binding/hue/internal/connection/Clip2Bridge.java:552-579 | `close2` keeps the invariant of either build: a session whenever not CLOSED, at most one kind of restart, permits plus calls in flight at most 3 (exactly 3 once corrected), and every map entry naming a job still due (and, once corrected, every job still due in the map) |
| ConnectionInvariant.FatalErrorKeepsInv | bundles/org.openhab.binding.hue/src/main/java/org/openhab/binding/hue/internal/connection/Clip2Bridge.java:601-628 | `fatalError` keeps the invariant of either build |
| ConnectionInvariant.FileFatalErrorKeepsInv | bundles/org.openhab.binding.hue/src/main/java/org/openhab/binding/hue/internal/connection/Clip2Bridge.java:637-645 | filing a delayed fatal error keeps the invariant of either build: as written an entry may be overwritten, so only the weaker invariant survives; corrected every job has its own key |
| ConnectionInvariant.RunFatalErrorTaskKeepsInv | bundles/org.openhab.binding.hue/src/main/java/org/openhab/binding/hue/internal/connection/Clip2Bridge.java:640-643 | running a delayed fatal-error job keeps the invariant of either build |
| ConnectionInvariant.SetExternalRestartScheduledKeepsInv | bundles/org.openhab.binding.hue/src/main/java/org/openhab/binding/hue/internal/connection/Clip2Bridge.java:1070-1076 | `setExternalRestartScheduled` keeps the invariant of either build |
| ConnectionInvariant.CloseKeepsInv | bundles/org.openhab.binding.hue/src/main/java/org/openhab/binding/hue/internal/connection/Clip2Bridge.java:541-547 | `close` keeps the invariant of either build |
| ConnectionInvariant.CheckAliveKeepsInv | bundles/org.openhab.binding.hue/src/main/java/org/openhab/binding/hue/internal/connection/Clip2Bridge.java:515-527 | the keep-alive check keeps the invariant of either build |
| ConnectionInvariant.OpenSessionKeepsInv | bundles/org.openhab.binding.hue/src/main/java/org/openhab/binding/hue/internal/connection/Clip2Bridge.java:912-929 | `openSession` keeps the invariant of either build and leaves a session when it returns |
| ConnectionInvariant.OpenPassiveKeepsInv | bundles/org.openhab.binding.hue/src/main/java/org/openhab/binding/hue/internal/connection/Clip2Bridge.java:891-904 | `openPassive` keeps the invariant of either build |
| ConnectionInvariant.OpenEventStreamKeepsInv | bundles/org.openhab.binding.hue/src/main/java/org/openhab/binding/hue/internal/connection/Clip2Bridge.java:855-883 | `openEventStream` keeps the invariant of either build |
| ConnectionInvariant.OpenActiveKeepsInv | bundles/org.openhab.binding.hue/src/main/java/org/openhab/binding/hue/internal/connection/Clip2Bridge.java:829-834 | `openActive` keeps the invariant of either build |
| ConnectionInvariant.OpenKeepsInv | bundles/org.openhab.binding.hue/src/main/java/org/openhab/binding/hue/internal/connection/Clip2Bridge.java:816-821 | `open` keeps the invariant of either build |
| ConnectionInvariant.RunRestartTaskKeepsInv | bundles/org.openhab.binding.hue/src/main/java/org/openhab/binding/hue/internal/connection/Clip2Bridge.java:743-760 | the restart task keeps the invariant of either build |
| ConnectionInvariant.ThrottleInKeepsInv | bundles/org.openhab.binding.hue/src/main/java/org/openhab/binding/hue/internal/connection/Clip2Bridge.java:1122-1132 | a throttle that throws keeps the invariant of its build; one that lets the request through has taken a free permit |
| ConnectionInvariant.BeginExchangeKeepsInv | bundles/org.openhab.binding.hue/src/main/java/org/openhab/binding/hue/internal/connection/Clip2Bridge.java:678-690 | beginning an exchange keeps the invariant of either build, whether the request begins, waits or throws |
| ConnectionInvariant.CloseOnApiFailureKeepsInv | bundles/org.openhab.binding.hue/src/main/java/org/openhab/binding/hue/internal/connection/Clip2Bridge.java:1104-1113 | closing after a failed connection test keeps the invariant of either build |
| ConnectionInvariant.BeginGetResourcesKeepsInv | bundles/org.openhab.binding.hue/src/main/java/org/openhab/binding/hue/internal/connection/Clip2Bridge.java:661-690 | `getResources` up to sending keeps the invariant of either build |
| ConnectionInvariant.BeginPutResourceKeepsInv | bundles/org.openhab.binding.hue/src/main/java/org/openhab/binding/hue/internal/connection/Clip2Bridge.java:974-995 | `putResource` up to sending keeps the invariant of either build |
| ConnectionInvariant.BeginTestConnectionKeepsInv | bundles/org.openhab.binding.hue/src/main/java/org/openhab/binding/hue/internal/connection/Clip2Bridge.java:1104-1113 | `testConnectionState` up to sending keeps the invariant of either build |
| ConnectionInvariant.ReleaseKeepsInv | bundles/org.openhab.binding.hue/src/main/java/org/openhab/binding/hue/internal/connection/Clip2Bridge.java:1137-1139 | a call that ends and gives its permit back keeps the invariant of either build: permits plus calls in flight are unchanged |
| ConnectionInvariant.EndCallKeepsInv | bundles/org.openhab.binding.hue/src/main/java/org/openhab/binding/hue/internal/connection/Clip2Bridge.java:717-720 | the end of a call (the `finally` that releases its permit) keeps the invariant of either build |
| ConnectionInvariant.OnSessionSignalKeepsInv | bundles/org.openhab.binding.hue/src/main/java/org/openhab/binding/hue/internal/connection/Clip2Bridge.java:348-382 | a session callback keeps the invariant of either build: a closed session stays present, and its job is filed like any other |
| ConnectionInvariant.OnEventStreamSignalKeepsInv | bundles/org.openhab.binding.hue/src/main/java/org/openhab/binding/hue/internal/connection/Clip2Bridge.java:257-304 | a callback of the SSE stream keeps the invariant of either build |
| ConnectionInvariant.OnContentStreamSignalKeepsInv | bundles/org.openhab.binding.hue/src/main/java/org/openhab/binding/hue/internal/connection/Clip2Bridge.java:195-204 | a callback of a GET/PUT stream keeps the invariant of either build |
| ConnectionInvariant.OnHeadersKeepsInv | bundles/org.openhab.binding.hue/src/main/java/org/openhab/binding/hue/internal/connection/Clip2Bridge.java:148-162 | a HEADERS frame keeps the invariant of either build |
| ConnectionInvariant.ApplyKeepsInv | bundles/org.openhab.binding.hue/src/main/java/org/openhab/binding/hue/internal/connection/Clip2Bridge.java:104-1139 | every operation of the client, scheduler job and network callback keeps the invariant of either build |
| ConnectionInvariant.RunKeepsInv | bundles/org.openhab.binding.hue/src/main/java/org/openhab/binding/hue/internal/connection/Clip2Bridge.java:104-1139 | any sequence of operations keeps the invariant of either build |
| ConnectionInvariant.ReachableInv | bundles/org.openhab.binding.hue/src/main/java/org/openhab/binding/hue/internal/connection/Clip2Bridge.java:485-500 | every state reachable from a new client satisfies the invariant of its build: as written, at most three calls in flight and no map entry naming a finished job; corrected, also exactly three permits and calls together and every job still due in the map |
| ConnectionLemmas.CloseIsSilent | bundles/org.openhab.binding.hue/src/main/java/org/openhab/binding/hue/internal/connection/Clip2Bridge.java:541-579 | `close` sets `closing`, clears both restart flags, cancels the restart, keep-alive and fatal-error tasks, drops the session, and never tells the handler |
| ConnectionLemmas.Close2CancelsEveryJob | bundles/org.openhab.binding.hue/src/main/java/org/openhab/binding/hue/internal/connection/Clip2Bridge.java:558-561 | closing cancels every pending fatal-error job |
| ConnectionLemmas.OpenPassiveFrame | bundles/org.openhab.binding.hue/src/main/java/org/openhab/binding/hue/internal/connection/Clip2Bridge.java:891-904 | opening passively touches neither the close request, nor the restart flags and task, nor the handler |
| ConnectionLemmas.OpenEventStreamFrame | bundles/org.openhab.binding.hue/src/main/java/org/openhab/binding/hue/internal/connection/Clip2Bridge.java:855-883 | opening the SSE stream touches neither the close request, nor the restart flags and task, nor the handler |
| ConnectionLemmas.OpenActiveFrame | bundles/org.openhab.binding.hue/src/main/java/org/openhab/binding/hue/internal/connection/Clip2Bridge.java:829-834 | opening actively touches neither the close request, nor the restart flags and task, nor the handler |
| ConnectionLemmas.RunRestartTaskKeepsRequests | bundles/org.openhab.binding.hue/src/main/java/org/openhab/binding/hue/internal/connection/Clip2Bridge.java:743-760 | a restart leaves the close request and the external-restart flag alone |
| ConnectionLemmas.BeginExchangeKeepsRequests | bundles/org.openhab.binding.hue/src/main/java/org/openhab/binding/hue/internal/connection/Clip2Bridge.java:678-690 | beginning a request leaves the close request and the external-restart flag alone |
| ConnectionLemmas.BeginTestConnectionKeepsRequests | bundles/org.openhab.binding.hue/src/main/java/org/openhab/binding/hue/internal/connection/Clip2Bridge.java:1104-1113 | a connection test leaves the close request and the external-restart flag alone |
| ConnectionLemmas.BeginGetResourcesKeepsRequests | bundles/org.openhab.binding.hue/src/main/java/org/openhab/binding/hue/internal/connection/Clip2Bridge.java:661-690 | a GET leaves the close request and the external-restart flag alone |
| ConnectionLemmas.BeginPutResourceKeepsRequests | bundles/org.openhab.binding.hue/src/main/java/org/openhab/binding/hue/internal/connection/Clip2Bridge.java:974-995 | a PUT leaves the close request and the external-restart flag alone |
| ConnectionLemmas.OpenKeepsRequests | bundles/org.openhab.binding.hue/src/main/java/org/openhab/binding/hue/internal/connection/Clip2Bridge.java:816-821 | `open` leaves the close request and the external-restart flag alone |
| ConnectionLemmas.EndCallKeepsRequests | bundles/org.openhab.binding.hue/src/main/java/org/openhab/binding/hue/internal/connection/Clip2Bridge.java:690-720 | ending a call leaves the close request and the external-restart flag alone |
| ConnectionLemmas.RunFatalErrorTaskKeepsRequests | bundles/org.openhab.binding.hue/src/main/java/org/openhab/binding/hue/internal/connection/Clip2Bridge.java:601-645 | a fatal-error job leaves the close request and the external-restart flag alone |
| ConnectionLemmas.CallbacksKeepRequests | bundles/org.openhab.binding.hue/src/main/java/org/openhab/binding/hue/internal/connection/Clip2Bridge.java:348-382 | the keep-alive check, pings and session and SSE callbacks leave the close request and the external-restart flag alone |
| ConnectionLemmas.FilingKeepsConnection | bundles/org.openhab.binding.hue/src/main/java/org/openhab/binding/hue/internal/connection/Clip2Bridge.java:637-645 | filing a delayed fatal error, as written or corrected, leaves the close request, both restart flags, the session, the online state and the handler's notifications as they are |
| ConnectionLemmas.SessionSignalKeepsRequests | bundles/org.openhab.binding.hue/src/main/java/org/openhab/binding/hue/internal/connection/Clip2Bridge.java:348-382 | a session callback leaves the close request and the external-restart flag alone |
| ConnectionLemmas.EventStreamSignalKeepsRequests | bundles/org.openhab.binding.hue/src/main/java/org/openhab/binding/hue/internal/connection/Clip2Bridge.java:296-304 | a callback of the SSE stream leaves the close request and the external-restart flag alone |
| ConnectionLemmas.OtherOpsKeepRequests | bundles/org.openhab.binding.hue/src/main/java/org/openhab/binding/hue/internal/connection/Clip2Bridge.java:104-1139 | every operation but `close` and `setExternalRestartScheduled` leaves the close request and the external-restart flag alone |
| ConnectionLemmas.ClosingIsPermanent | bundles/org.openhab.binding.hue/src/main/java/org/openhab/binding/hue/internal/connection/Clip2Bridge.java:543 | once set, `closing` is never cleared by any operation |
| ConnectionLemmas.ClosedBridgeIgnoresFatalErrors | bundles/org.openhab.binding.hue/src/main/java/org/openhab/binding/hue/internal/connection/Clip2Bridge.java:601-604 | after a close was requested, every later fatal error is ignored, whatever happens in between |
| ConnectionLemmas.ContentErrorsLeaveConnection | bundles/org.openhab.binding.hue/src/main/java/org/openhab/binding/hue/internal/connection/Clip2Bridge.java:606-608 | errors reported by GET/PUT streams never change the connection |
| ConnectionLemmas.FatalErrorGuard | bundles/org.openhab.binding.hue/src/main/java/org/openhab/binding/hue/internal/connection/Clip2Bridge.java:601-608 | `fatalError` changes something only with no restart scheduled, not CLOSED, no close requested, and an error not from a GET/PUT stream |
| ConnectionLemmas.GoAwayIsSoft | bundles/org.openhab.binding.hue/src/main/java/org/openhab/binding/hue/internal/connection/Clip2Bridge.java:609-619 | a GOAWAY closes the connection, schedules a restart and tells the handler nothing |
| ConnectionLemmas.HardErrorNotifiesOnce | bundles/org.openhab.binding.hue/src/main/java/org/openhab/binding/hue/internal/connection/Clip2Bridge.java:620-627 | any other error of an ACTIVE connection closes it and tells the handler exactly once; later fatal errors are ignored |
| ConnectionLemmas.GoAwayRestartReopensPassive | bundles/org.openhab.binding.hue/src/main/java/org/openhab/binding/hue/internal/connection/Clip2Bridge.java:614-619 | the restart after a GOAWAY reopens only passively, because the task reads the online state when it runs, after the close |
| ConnectionLemmas.RestartFailureCloses | bundles/org.openhab.binding.hue/src/main/java/org/openhab/binding/hue/internal/connection/Clip2Bridge.java:743-757 | a restart whose reopening fails ends the restart and leaves the connection closed, without telling the handler |
| ConnectionLemmas.InterruptedRestartKeepsFlag | bundles/org.openhab.binding.hue/src/main/java/org/openhab/binding/hue/internal/connection/Clip2Bridge.java:758-759 | a restart interrupted while connecting leaves the restart flag set, so fatal errors stay ignored |
| ConnectionLemmas.ExternalRestartIsSilent | bundles/org.openhab.binding.hue/src/main/java/org/openhab/binding/hue/internal/connection/Clip2Bridge.java:1070-1076 | an external restart closes without telling the handler and cancels any internal restart |
| ConnectionLemmas.ExternalFlagClearedOnlyByClose | bundles/org.openhab.binding.hue/src/main/java/org/openhab/binding/hue/internal/connection/Clip2Bridge.java:1070-1076 | no operation but `close` clears the external-restart flag |
| ConnectionLemmas.KeepaliveExpiry | bundles/org.openhab.binding.hue/src/main/java/org/openhab/binding/hue/internal/connection/Clip2Bridge.java:515-527 | an ACTIVE connection past its session deadline closes at the next keep-alive check and tells the handler |
| ConnectionLemmas.PingKeepsAlive | bundles/org.openhab.binding.hue/src/main/java/org/openhab/binding/hue/internal/connection/Clip2Bridge.java:533-536 | after a ping the keep-alive check does nothing for the next ten minutes |
| ConnectionLemmas.OpenFromInitIsActive | bundles/org.openhab.binding.hue/src/main/java/org/openhab/binding/hue/internal/connection/Clip2Bridge.java:816-821 | a new client whose open succeeds is ACTIVE on a fresh session with the SSE stream, has sent the SSE GET, and has told the handler it is online |
| ConnectionLemmas.OnlineOnlyAfterOpen | bundles/org.openhab.binding.hue/src/main/java/org/openhab/binding/hue/internal/connection/Clip2Bridge.java:816-821 | the handler hears "online" exactly when `open` returns, and then the connection is ACTIVE |
| ConnectionLemmas.FailedTestCloses | bundles/org.openhab.binding.hue/src/main/java/org/openhab/binding/hue/internal/connection/Clip2Bridge.java:1104-1113 | a connection test whose client or session fails to start closes the connection |
| ConnectionLemmas.RequestsWaitForRestart | bundles/org.openhab.binding.hue/src/main/java/org/openhab/binding/hue/internal/connection/Clip2Bridge.java:1084-1094 | while a restart task is pending, GET and PUT wait for it |
| ConnectionLemmas.CancelledRestartWaitThrows | bundles/org.openhab.binding.hue/src/main/java/org/openhab/binding/hue/internal/connection/Clip2Bridge.java:1070-1094 | `close` and `setExternalRestartScheduled` cancel and drop a pending restart task; a GET or PUT waiting on it throws `CancellationException`, changes nothing and sends nothing |
| ConnectionLemmas.OfflineGetRejected | bundles/org.openhab.binding.hue/src/main/java/org/openhab/binding/hue/internal/connection/Clip2Bridge.java:661-666 | a GET while CLOSED throws "getResources() offline" and sends nothing |
| ConnectionLemmas.OfflinePutDropped | bundles/org.openhab.binding.hue/src/main/java/org/openhab/binding/hue/internal/connection/Clip2Bridge.java:974-978 | a PUT while CLOSED returns silently and sends nothing |
| ConnectionLemmas.ClosedSessionRejected | bundles/org.openhab.binding.hue/src/main/java/org/openhab/binding/hue/internal/connection/Clip2Bridge.java:680-683 | a request on a missing or closed session fails before it takes a permit or sends anything |
| ConnectionLemmas.BeginSendsHeaders | bundles/org.openhab.binding.hue/src/main/java/org/openhab/binding/hue/internal/connection/Clip2Bridge.java:684-692 | a request that begins sends exactly its HEADERS frame and holds one more permit |
| ConnectionLemmas.GetRequestTargetsResource | bundles/org.openhab.binding.hue/src/main/java/org/openhab/binding/hue/internal/connection/Clip2Bridge.java:685-686 | a GET's URL names the requested resource |
| ConnectionLemmas.AdmissionBound | bundles/org.openhab.binding.hue/src/main/java/org/openhab/binding/hue/internal/connection/Clip2Bridge.java:463 | in either build, at most three requests are ever in flight, and with three a fourth cannot begin |
| ConnectionLemmas.EndCallReleasesPermit | bundles/org.openhab.binding.hue/src/main/java/org/openhab/binding/hue/internal/connection/Clip2Bridge.java:717-720 | ending a call always gives its permit back, whatever the response |
| ConnectionLemmas.UnauthorizedAsymmetry | bundles/org.openhab.binding.hue/src/main/java/org/openhab/binding/hue/internal/connection/Clip2Bridge.java:710-716 | an authorisation failure reaches a GET's caller as such, but a PUT's caller only as a generic failure |
| ConnectionLemmas.GetSucceedsIff | bundles/org.openhab.binding.hue/src/main/java/org/openhab/binding/hue/internal/connection/Clip2Bridge.java:690-707 | a GET returns exactly when the stream opened, the body arrived, it is declared JSON, and it parses |
| ConnectionLemmas.OnEventDataGate | bundles/org.openhab.binding.hue/src/main/java/org/openhab/binding/hue/internal/connection/Clip2Bridge.java:769-772 | events reach the handler exactly when ACTIVE and the data holds resources |
| ConnectionLemmas.LateSignalsSparePresentSession | bundles/org.openhab.binding.hue/src/main/java/org/openhab/binding/hue/internal/connection/Clip2Bridge.java:348-382 | a late callback of a session or SSE stream already replaced leaves the present session as it is and only files its job; a close, failure or GOAWAY of the present session marks it closed |
| ConnectionLemmas.UnauthorizedEventStreamCloses | bundles/org.openhab.binding.hue/src/main/java/org/openhab/binding/hue/internal/connection/Clip2Bridge.java:154-157 | a 401/403 on the SSE stream files an authorisation job that, once run on an ACTIVE connection, closes it and tells the handler |
| Findings.ThrottleAsWrittenStartsTogether | bundles/org.openhab.binding.hue/src/main/java/org/openhab/binding/hue/internal/connection/Clip2Bridge.java:1122-1132 | as written, arrivals at 0, 0 and 50 ms start at 0, 50 and 50 ms |
| Findings.ThrottleSpacesSameArrivals | bundles/org.openhab.binding.hue/src/main/java/org/openhab/binding/hue/internal/connection/Clip2Bridge.java:1122-1132 | corrected, the same arrivals start at 0, 50 and 100 ms |
| Findings.ThrottleSpacing | bundles/org.openhab.binding.hue/src/main/java/org/openhab/binding/hue/internal/connection/Clip2Bridge.java:1122-1132 | corrected, requests start no earlier than they arrive, at least 50 ms after the previous one, and n requests span at least (n - 1) × 50 ms |
| Findings.ThrottleAsWrittenLeaksPermit | bundles/org.openhab.binding.hue/src/main/java/org/openhab/binding/hue/internal/connection/Clip2Bridge.java:684 | as written, an interrupted sleep throws with the permit still taken, so permits plus calls fall to 2 |
| Findings.LeakedPermitsBlockForever | bundles/org.openhab.binding.hue/src/main/java/org/openhab/binding/hue/internal/connection/Clip2Bridge.java:684 | as written, three such interrupts on an idle client leave no permit and no call to return one, so every later request waits for ever |
| Findings.ThrottleInterruptKeepsPermit | bundles/org.openhab.binding.hue/src/main/java/org/openhab/binding/hue/internal/connection/Clip2Bridge.java:1122-1132 | corrected, an interrupted sleep leaves the state as it was |
| Findings.OpenWhenAllSucceeds | bundles/org.openhab.binding.hue/src/main/java/org/openhab/binding/hue/internal/connection/Clip2Bridge.java:816-821 | opening with no session when everything works ends ACTIVE, leaves the jobs alone and tells the handler |
| Findings.KeysCollideFiling | bundles/org.openhab.binding.hue/src/main/java/org/openhab/binding/hue/internal/connection/Clip2Bridge.java:637-645 | as written, the first two jobs are filed under keys 0 and 1 |
| Findings.KeysCollideFirstRun | bundles/org.openhab.binding.hue/src/main/java/org/openhab/binding/hue/internal/connection/Clip2Bridge.java:640-643 | as written, the first job's run removes key 0 and leaves an ACTIVE connection alone |
| Findings.KeysCollideOverwrite | bundles/org.openhab.binding.hue/src/main/java/org/openhab/binding/hue/internal/connection/Clip2Bridge.java:639 | as written, the next job is filed under the map size 1 and replaces the live entry |
| Findings.KeysCollideClose | bundles/org.openhab.binding.hue/src/main/java/org/openhab/binding/hue/internal/connection/Clip2Bridge.java:558-561 | as written, closing then cancels only the job still in the map |
| Findings.FatalErrorKeysCollide | bundles/org.openhab.binding.hue/src/main/java/org/openhab/binding/hue/internal/connection/Clip2Bridge.java:637-645 | as written, the session failure's job survives the close of the connection |
| Findings.FilingAsWrittenOverwrites | bundles/org.openhab.binding.hue/src/main/java/org/openhab/binding/hue/internal/connection/Clip2Bridge.java:637-645 | as written, in any state: filing while the map size is a key in use leaves the map the same size, and the job that key held stays due but is no longer in the map, so no close cancels it |
| Findings.StaleJobClosesReopened | bundles/org.openhab.binding.hue/src/main/java/org/openhab/binding/hue/internal/connection/Clip2Bridge.java:601-628 | as written, the surviving job closes the reopened connection and tells the handler it is offline |
| Findings.KeysDistinctFilings | bundles/org.openhab.binding.hue/src/main/java/org/openhab/binding/hue/internal/connection/Clip2Bridge.java:637-645 | corrected, filing the three jobs and running the first keeps the invariant and leaves the rest of the connection unchanged |
| Findings.FatalErrorKeysDistinct | bundles/org.openhab.binding.hue/src/main/java/org/openhab/binding/hue/internal/connection/Clip2Bridge.java:637-645 | corrected, the same trace leaves no job behind after the close |
| Bridge.Clip2Bridge.constructor | bundles/org.openhab.binding.hue/src/main/java/org/openhab/binding/hue/internal/connection/Clip2Bridge.java:485-500 | a new client is `Connection.Init` and satisfies the invariant |
| Bridge.Clip2Bridge.Close2 | bundles/org.openhab.binding.hue/src/main/java/org/openhab/binding/hue/internal/connection/Clip2Bridge.java:552-579 | the new state is `Connection.Close2` of the old one |
| Bridge.Clip2Bridge.Close | bundles/org.openhab.binding.hue/src/main/java/org/openhab/binding/hue/internal/connection/Clip2Bridge.java:541-547 | the new state is `Connection.Close` of the old one; the invariant is kept |
| Bridge.Clip2Bridge.FatalError | bundles/org.openhab.binding.hue/src/main/java/org/openhab/binding/hue/internal/connection/Clip2Bridge.java:601-628 | the new state is `Connection.FatalError` of the old one |
| Bridge.Clip2Bridge.FatalErrorDelayed | bundles/org.openhab.binding.hue/src/main/java/org/openhab/binding/hue/internal/connection/Clip2Bridge.java:637-645 | the new state is the corrected `Connection.FatalErrorDelayed` of the old one |
| Bridge.Clip2Bridge.RunFatalErrorTask | bundles/org.openhab.binding.hue/src/main/java/org/openhab/binding/hue/internal/connection/Clip2Bridge.java:640-643 | the new state is `Connection.RunFatalErrorTask` of the old one; the invariant is kept |
| Bridge.Clip2Bridge.SetExternalRestartScheduled | bundles/org.openhab.binding.hue/src/main/java/org/openhab/binding/hue/internal/connection/Clip2Bridge.java:1070-1076 | the new state is `Connection.SetExternalRestartScheduled` of the old one; the invariant is kept |
| Bridge.Clip2Bridge.CheckAliveOk | bundles/org.openhab.binding.hue/src/main/java/org/openhab/binding/hue/internal/connection/Clip2Bridge.java:533-536 | the new state is `Connection.CheckAliveOk` of the old one |
| Bridge.Clip2Bridge.CheckAlive | bundles/org.openhab.binding.hue/src/main/java/org/openhab/binding/hue/internal/connection/Clip2Bridge.java:515-527 | the new state is `Connection.CheckAlive` of the old one |
| Bridge.Clip2Bridge.RunCheckAliveTask | bundles/org.openhab.binding.hue/src/main/java/org/openhab/binding/hue/internal/connection/Clip2Bridge.java:839-847 | the new state is `Connection.RunCheckAliveTask` of the old one; the invariant is kept |
| Bridge.Clip2Bridge.OnPing | bundles/org.openhab.binding.hue/src/main/java/org/openhab/binding/hue/internal/connection/Clip2Bridge.java:371-377 | the new state is `Connection.OnPing` of the old one; the invariant is kept |
| Bridge.Clip2Bridge.OpenSession | bundles/org.openhab.binding.hue/src/main/java/org/openhab/binding/hue/internal/connection/Clip2Bridge.java:912-929 | the new state and outcome are `Connection.OpenSession` of the old state |
| Bridge.Clip2Bridge.OpenPassive | bundles/org.openhab.binding.hue/src/main/java/org/openhab/binding/hue/internal/connection/Clip2Bridge.java:891-904 | the new state and outcome are `Connection.OpenPassive` of the old state |
| Bridge.Clip2Bridge.OpenEventStream | bundles/org.openhab.binding.hue/src/main/java/org/openhab/binding/hue/internal/connection/Clip2Bridge.java:855-883 | the new state and outcome are `Connection.OpenEventStream` of the old state |
| Bridge.Clip2Bridge.OpenActive | bundles/org.openhab.binding.hue/src/main/java/org/openhab/binding/hue/internal/connection/Clip2Bridge.java:829-834 | the new state and outcome are `Connection.OpenActive` of the old state |
| Bridge.Clip2Bridge.Open | bundles/org.openhab.binding.hue/src/main/java/org/openhab/binding/hue/internal/connection/Clip2Bridge.java:816-821 | the new state and outcome are `Connection.Open` of the old state; the invariant is kept |
| Bridge.Clip2Bridge.InternalRestart | bundles/org.openhab.binding.hue/src/main/java/org/openhab/binding/hue/internal/connection/Clip2Bridge.java:743-760 | the new state is `Connection.InternalRestart` of the old one |
| Bridge.Clip2Bridge.RunRestartTask | bundles/org.openhab.binding.hue/src/main/java/org/openhab/binding/hue/internal/connection/Clip2Bridge.java:614-617 | the new state is `Connection.RunRestartTask` of the old one; the invariant is kept |
| Bridge.Clip2Bridge.SleepDuringRestart | bundles/org.openhab.binding.hue/src/main/java/org/openhab/binding/hue/internal/connection/Clip2Bridge.java:1084-1094 | the new state and outcome are `Connection.SleepDuringRestart` of the old state; a call that must wait changes nothing |
| Bridge.Clip2Bridge.Throttle | bundles/org.openhab.binding.hue/src/main/java/org/openhab/binding/hue/internal/connection/Clip2Bridge.java:1122-1132 | the new state and outcome are the corrected `Connection.Throttle` of the old state; a call that must wait changes nothing |
| Bridge.Clip2Bridge.ThrottleDone | bundles/org.openhab.binding.hue/src/main/java/org/openhab/binding/hue/internal/connection/Clip2Bridge.java:1137-1139 | the new state is `Connection.ThrottleDone` of the old one |
| Bridge.Clip2Bridge.BeginExchange | bundles/org.openhab.binding.hue/src/main/java/org/openhab/binding/hue/internal/connection/Clip2Bridge.java:680-692 | the new state and outcome are `Connection.BeginExchange` of the old state |
| Bridge.Clip2Bridge.BeginGetResources | bundles/org.openhab.binding.hue/src/main/java/org/openhab/binding/hue/internal/connection/Clip2Bridge.java:661-692 | the new state and outcome are `Connection.BeginGetResources` of the old state; the invariant is kept |
| Bridge.Clip2Bridge.BeginPutResource | bundles/org.openhab.binding.hue/src/main/java/org/openhab/binding/hue/internal/connection/Clip2Bridge.java:974-995 | the new state and outcome are `Connection.BeginPutResource` of the old state; the invariant is kept |
| Bridge.Clip2Bridge.BeginTestConnection | bundles/org.openhab.binding.hue/src/main/java/org/openhab/binding/hue/internal/connection/Clip2Bridge.java:1104-1113 | the new state and outcome are `Connection.BeginTestConnection` of the old state; one that must wait has opened passively; the invariant is kept |
| Bridge.Clip2Bridge.CompleteCall | bundles/org.openhab.binding.hue/src/main/java/org/openhab/binding/hue/internal/connection/Clip2Bridge.java:692-720 | the new state and outcome are `Connection.EndCall` of the old state |
| Bridge.Clip2Bridge.EndCall | bundles/org.openhab.binding.hue/src/main/java/org/openhab/binding/hue/internal/connection/Clip2Bridge.java:692-720 | as `CompleteCall`, and the invariant is kept |
| Bridge.Clip2Bridge.OnEventData | bundles/org.openhab.binding.hue/src/main/java/org/openhab/binding/hue/internal/connection/Clip2Bridge.java:769-808 | the new state is `Connection.OnEventData` of the old one; the invariant is kept |
| Bridge.Clip2Bridge.OnSessionSignal | bundles/org.openhab.binding.hue/src/main/java/org/openhab/binding/hue/internal/connection/Clip2Bridge.java:348-382 | the new state is `Connection.OnSessionSignal` of the old one; the invariant is kept |
| Bridge.Clip2Bridge.OnEventStreamSignal | bundles/org.openhab.binding.hue/src/main/java/org/openhab/binding/hue/internal/connection/Clip2Bridge.java:257-304 | the new state is `Connection.OnEventStreamSignal` of the old one; the invariant is kept |
| Bridge.Clip2Bridge.OnContentStreamSignal | bundles/org.openhab.binding.hue/src/main/java/org/openhab/binding/hue/internal/connection/Clip2Bridge.java:195-204 | the new state is `Connection.OnContentStreamSignal` of the old one; the invariant is kept |
| Bridge.Clip2Bridge.OnHeaders | bundles/org.openhab.binding.hue/src/main/java/org/openhab/binding/hue/internal/connection/Clip2Bridge.java:148-162 | the new state is `Connection.OnHeaders` of the old one; the invariant is kept |

## Left out

- Jetty itself is not modelled: the HTTP/2 client's start and stop, TLS, sockets and the frames on the wire. Each open, send and response is an outcome passed in as a parameter. Replies to the bridge's pings are not modelled either.
- It is assumed from Jetty that a session or stream reporting close, failure, GOAWAY or reset is closed afterwards. The model marks the present session closed in those callbacks, or its SSE stream ended. A callback carries whether it comes from the present session; a late one from a session already replaced only files its job.
- Concurrency is not modelled. Each operation is one atomic step, and the interleavings are the order of the steps. Some consequences:
  - `synchronized` is not modelled;
  - that `throttle` keeps the bridge's monitor while it waits is not modelled;
  - that `cancel(true)` interrupts a running job is not modelled;
  - jobs run in any order the environment chooses, which includes the scheduler's real order.
- JSON is out of scope. Gson parsing and serialisation are not modelled. Whether a body parses and whether event data holds resources are parameters.
- UTF-8 decoding is not modelled. Bytes are read as the characters with the same code, and `contentStreamReader` is not used by the class.
- A response without a Content-Type header makes `onHeaders` throw a `NullPointerException` in Jetty's thread. The model always has a content type.
- Logging is left out, and so are the `cause` chains of exceptions; only their kinds and messages are kept.
- `registerApplicationKey` is not part of this model. It is a one-off HTTP/1 POST with its own JSON.
- `isClip2Supported` is modelled from the reported version string on; its HTTP/1 fetch of the config is a parameter.
- `Collector.DataFrameCollector.Append`: `usedSize` is a Java `int`, and its overflow past 2 GiB is not modelled.
- `Collector.DataFrameCollector.Append`: the chunk stands for the whole capacity of the `ByteBuffer`, which is what the source copies (`data.capacity()`). The `BufferUnderflowException` that `data.get` throws when fewer bytes than that remain is not modelled.
- `Text.ToLower`: only the ASCII letters are lowered. Java's `toLowerCase` also lowers Latin-1 and the rest of Unicode and follows the default locale (a Turkish locale maps 'I' to a dotless i). The model lowers as in an English locale. It is applied to the error names, the response content type and the resource type in a URL; under a Turkish locale the error names with an 'I' (`FAILURE`, `IDLE`, `UNAUTHORIZED`) would differ, and so would any non-ASCII letter.
- `Text.ParseLong`: only the ASCII digits are read. Java's `parseLong` also accepts the decimal digits of other scripts.
- `Collector.CapacityAfter`: a chunk of 4096 bytes or more grows the buffer to the larger of twice the old capacity and the needed size. For smaller chunks the growth is exactly the needed size, so the buffer can be reallocated on every small chunk.
- `Bridge.Clip2Bridge.BeginGetResources`, `Bridge.Clip2Bridge.BeginPutResource`: a call that must wait has already run `sleepDuringRestart` up to its wait. The class keeps that partial state, and `Connection.Apply` leaves the state unchanged until the call can go on.
- `Bridge.Clip2Bridge.BeginTestConnection`: a call that must wait for a permit has already opened passively. The class keeps that state, and `Connection.Apply` leaves it unchanged.
- `HttpUnauthorizedException` is treated as a kind of `ApiException`:
  - `testConnectionState` closes the connection on it;
  - `putResource` wraps it in an `ApiException`.
  The class is not part of this model.
- `handleHttp2Error` is split across two modules:
  - `Listeners` models how it fails the listener's future;
  - `Connection.OnContentStreamSignal`, `OnEventStreamSignal`, `OnSessionSignal` and `OnHeaders` model how it files a fatal-error job.
- `Bridge.Clip2Bridge` runs the corrected steps (`Build` `Corrected`) only. The steps as written are the `Connection` functions with `Build` `AsWritten`: `Connection.Apply` and `Connection.Run` take either build, and `ConnectionInvariant.ReachableInv`, `ConnectionLemmas.AdmissionBound`, `ConnectionLemmas.ClosingIsPermanent` and `ConnectionLemmas.ClosedBridgeIgnoresFatalErrors` are proved for both. For the code as written only the weaker invariant holds: permits plus calls in flight at most 3, and every map entry naming a job still due.
- The javadoc of `getResources` says it turns an `HttpUnauthorizedException` into an `ApiException`. The code does not: the exception reaches the caller. The model follows the code (`ConnectionLemmas.UnauthorizedAsymmetry`).
- The event stream's framing differs from sections 9.2.5 and 9.2.6 of the WHATWG HTML Living Standard:
  - `data:` fields are joined without a newline;
  - all leading whitespace of a field value is stripped, not one space;
  - fields other than `data:` (`event:`, `id:`, `retry:`) are ignored.
  - two complete messages that arrive in one scan of the buffer are delivered as one event with their payloads joined, because `onData` clears the whole buffer once its last line is blank.
  `Sse` follows the code.
- `Sse.ProperPrefixIncomplete`, `Sse.FeedRestOfMessage`, `Sse.MessageChunkingInvariant`: these hold only for messages whose lines do not start with whitespace. `onData` re-reads the whole buffer on every chunk and ends a message when its last line, even a partial one, is blank. A chunk that ends just after a line break and some whitespace therefore ends the message early; `Sse.LeadingWhitespaceLineSplitsMessage` shows one such message delivered as two events.

## Findings

| source | as written | input that shows it | evidently intended | confidence | as-written member | corrected member |
|---|---|---|---|---|---|---|
| bundles/org.openhab.binding.hue/src/main/java/org/openhab/binding/hue/internal/connection/Clip2Bridge.java:1122-1132 | `throttle` acquires a permit, then sleeps. It is called at lines 684 and 983, before the `try` whose `finally` calls `throttleDone`, so an `InterruptedException` from the sleep escapes with the permit still taken | three requests, each interrupted during the 50 ms sleep, on an idle client: no permit is left and no call is in flight to return one, so every later request waits for ever | the permit is given back whenever the request does not go ahead (release the permit when the sleep is interrupted) | not executed | Findings.ThrottleAsWrittenLeaksPermit, Findings.LeakedPermitsBlockForever | Connection.Throttle, Findings.ThrottleInterruptKeepsPermit |
| bundles/org.openhab.binding.hue/src/main/java/org/openhab/binding/hue/internal/connection/Clip2Bridge.java:1122-1132 | `lastRequestTime` is set to `now`, the time read before the sleep, not the time the request starts after it | requests arriving at 0, 0 and 50 ms start at 0, 50 and 50 ms: the last two start together | successive requests start at least 50 ms apart (record the time after the sleep) | not executed | Findings.ThrottleAsWrittenStartsTogether | Findings.ThrottleSpacing, Findings.ThrottleSpacesSameArrivals |
| bundles/org.openhab.binding.hue/src/main/java/org/openhab/binding/hue/internal/connection/Clip2Bridge.java:637-645 | `fatalErrorDelayed` files each job under `fatalErrorTasks.size()`, and each job removes its own index when it runs. After an earlier job has run, the next job reuses a live index, and the job filed there before is no longer in the map | on an ACTIVE connection: a content-stream idle and a session failure are filed (keys 0, 1); the first job runs (removes 0); a content-stream timeout is filed under 1, replacing the failure's job; the keep-alive check then closes the connection, cancelling only the timeout's job. After `open`, the orphaned failure job runs and closes the new connection | every pending fatal-error job is cancelled by `close2`, so a closed and reopened connection is not closed by an error of the old one (distinct keys) | not executed | Findings.FatalErrorKeysCollide, Findings.StaleJobClosesReopened | Connection.FatalErrorDelayed, Findings.FatalErrorKeysDistinct |
