/**
 * The connection state machine of the CLIP 2 bridge client, as pure functions over a value
 * of its whole state. Outcomes that depend on the network, the clock or the scheduler are
 * parameters: what a connect attempt or a wait ends with, the current time in milliseconds,
 * and which scheduled job runs next.
 *
 * Each GET, PUT or connection test is split into two steps so that other operations can
 * interleave with it: `Begin…` does the checks, takes a stream permit, spaces the request
 * and sends the HEADERS frame; `EndCall` takes the response apart and releases the permit.
 */
module Connection {
  import opened Wrappers
  import Errors
  import opened Awaiter
  import opened Requests
  import Collector

  const MAX_CONCURRENT_STREAMS: int := 3
  const REQUEST_INTERVAL_MILLISECS: int := 50
  const CHECK_ALIVE_SECONDS: int := 300
  /** How long a session stays alive without a ping from the bridge: twice the check interval. */
  const SESSION_WINDOW_MILLISECS: int := CHECK_ALIVE_SECONDS * 2 * 1000
  const RESTART_AFTER_SECONDS: int := 5
  const TIMEOUT_SECONDS: int := 10

  /** CLOSED: no session; PASSIVE: session open for requests; ACTIVE: also receiving SSE events. */
  datatype OnlineState = Closed | Passive | Active

  /** The HTTP/2 session: whether Jetty reports it closed, and whether it carries the tagged SSE stream. */
  datatype Session = Session(closed: bool, eventStream: bool)

  /** The scheduled restart task: none, waiting to run, or finished. */
  datatype TaskHandle = NoTask | Pending | Ran

  /** A delayed fatal-error job: the map index it was filed under, who reported, and what. */
  datatype FatalJob = FatalJob(index: int, listener: Errors.ListenerKind, error: Errors.Http2Error)

  /** Calls into the bridge handler. */
  datatype Notification = Online | Offline | ResourcesEvent(data: string, resourceCount: nat)

  /** `CancellationException` is the unchecked exception `Future.get` throws when the awaited task was cancelled. */
  datatype Exception = ApiException(message: string) | HttpUnauthorizedException(message: string) | InterruptedException
                     | CancellationException

  datatype Outcome<T> = Returned(value: T) | Threw(exception: Exception)

  /** The state after an operation, and what the operation returned or threw. */
  datatype Step<T> = Step(state: BridgeState, outcome: Outcome<T>)

  /** The kind of a call in flight; a PUT carries the body it sends once its stream is open. */
  datatype CallKind = GetResourcesCall | PutResourceCall(body: seq<Collector.byte>) | TestConnectionCall

  /** What the bridge has written to the network: request HEADERS frames and PUT bodies. */
  datatype Frame = HeadersOut(headers: HeadersFrame) | DataOut(body: seq<Collector.byte>)

  datatype BridgeState = BridgeState(
    hostName: string,
    applicationKey: string,
    onlineState: OnlineState,
    closing: bool,
    internalRestartScheduled: bool,
    externalRestartScheduled: bool,
    http2Session: Option<Session>,
    checkAliveTask: bool,
    internalRestartTask: TaskHandle,
    /** Fatal-error jobs not yet run or cancelled, by the index they were filed under. */
    fatalErrorTasks: map<int, nat>,
    /** Every fatal-error job still due to run, by job id, including those no longer in the map. */
    scheduledJobs: map<nat, FatalJob>,
    nextJobId: nat,
    /** None stands for `Instant.MAX`: no deadline yet. */
    sessionExpireTime: Option<int>,
    lastRequestTime: Option<int>,
    /** Free permits of the fair semaphore that bounds the concurrent streams. */
    permits: int,
    calls: map<nat, CallKind>,
    nextCallId: nat,
    sent: seq<Frame>,
    notifications: seq<Notification>)

  /**
   * Which code runs where the source has a defect: the code as written, or the code with
   * `throttle` and `fatalErrorDelayed` corrected.
   */
  datatype Build = AsWritten | Corrected

  /** A new bridge client: closed, nothing scheduled, every stream permit free. */
  function Init(hostName: string, applicationKey: string): (s: BridgeState)
    ensures Inv(AsWritten, s) && Inv(Corrected, s) && s.onlineState == Closed && s.http2Session.None?
  {
    BridgeState(hostName, applicationKey, Closed, false, false, false, None, false, NoTask,
                map[], map[], 0, None, None, MAX_CONCURRENT_STREAMS, map[], 0, [], [])
  }

  /**
   * The invariant every reachable state of a build keeps: a session exists whenever the
   * connection is not closed; at most one kind of restart is scheduled, and an internal one
   * has a task; no more calls are in flight than the stream limit allows; every index in the
   * job map refers to a job still due that was filed under that index. The corrected build
   * keeps more: free permits and calls add up to the limit, and every job still due is in
   * the map.
   */
  ghost predicate Inv(b: Build, s: BridgeState) {
    && (s.onlineState != Closed ==> s.http2Session.Some?)
    && !(s.internalRestartScheduled && s.externalRestartScheduled)
    && (s.internalRestartScheduled ==> s.internalRestartTask != NoTask)
    && CallsInv(b, s.permits, s.calls, s.nextCallId)
    && JobsInv(b, s.fatalErrorTasks, s.scheduledJobs, s.nextJobId)
  }

  /**
   * Free permits and calls in flight add up to at most the stream limit, and in the corrected
   * build to exactly the limit; call ids are below the next one.
   */
  ghost predicate CallsInv(b: Build, permits: int, calls: map<nat, CallKind>, nextCallId: nat) {
    && permits >= 0
    && permits + |calls| <= MAX_CONCURRENT_STREAMS
    && (b == Corrected ==> permits + |calls| == MAX_CONCURRENT_STREAMS)
    && (forall id :: id in calls ==> id < nextCallId)
  }

  /**
   * Every index in the job map refers to a job still due that was filed under it; job ids are
   * below the next one. In the corrected build every job still due is in the map under its own id.
   */
  ghost predicate JobsInv(b: Build, fatalErrorTasks: map<int, nat>, scheduledJobs: map<nat, FatalJob>, nextJobId: nat) {
    && (forall k :: k in fatalErrorTasks ==>
          fatalErrorTasks[k] in scheduledJobs && scheduledJobs[fatalErrorTasks[k]].index == k)
    && (forall id :: id in scheduledJobs ==> id < nextJobId)
    && (b == Corrected ==> forall id :: id in scheduledJobs ==>
          scheduledJobs[id].index == id && id in fatalErrorTasks && fatalErrorTasks[id] == id)
  }

  // ---------------------------------------------------------------------------------------
  // Closing and fatal errors

  /** Whether closing now tells the handler that the connection went offline. */
  predicate NotifiesOffline(s: BridgeState) {
    s.onlineState == Active && !s.internalRestartScheduled && !s.externalRestartScheduled && !s.closing
  }

  /**
   * `close2`: the connection becomes CLOSED; the fatal-error jobs in the map are cancelled and
   * the map cleared; the restart task is cancelled unless a restart is under way; the
   * keep-alive task and the session go. The handler hears of it only when an ACTIVE
   * connection closes with no restart scheduled and no close requested.
   */
  function Close2(s: BridgeState): (r: BridgeState)
    ensures Extends(s, r)
  {
    s.(onlineState := Closed,
       fatalErrorTasks := map[],
       scheduledJobs := s.scheduledJobs - s.fatalErrorTasks.Values,
       internalRestartTask := if s.internalRestartScheduled then s.internalRestartTask else NoTask,
       checkAliveTask := false,
       http2Session := None,
       notifications := s.notifications + (if NotifiesOffline(s) then [Offline] else []))
  }

  /** `close`: a requested close; it is never undone, and it cancels any scheduled restart. */
  function Close(s: BridgeState): BridgeState {
    Close2(s.(closing := true, externalRestartScheduled := false, internalRestartScheduled := false))
  }

  /** Whether `fatalError` returns at once: a restart is scheduled, the connection is closed, or closing was requested. */
  predicate FatalErrorInert(s: BridgeState) {
    s.externalRestartScheduled || s.internalRestartScheduled || s.onlineState == Closed || s.closing
  }

  /**
   * `fatalError`: errors of GET/PUT streams are left to their caller; a GOAWAY schedules a
   * restart and closes silently; any other error closes.
   */
  function FatalError(s: BridgeState, listener: Errors.ListenerKind, error: Errors.Http2Error): (r: BridgeState)
    ensures Extends(s, r)
  {
    if FatalErrorInert(s) then s
    else if listener == Errors.ContentListener then s
    else if error == Errors.GoAway then Close2(s.(internalRestartScheduled := true, internalRestartTask := Pending))
    else Close2(s)
  }

  /**
   * `fatalErrorDelayed` as written: files a job to run `fatalError` later, under the current
   * size of the job map. Once a job has removed its entry, the size can equal a key still in
   * use, and the new job overwrites that entry.
   */
  function FatalErrorDelayedAsWritten(s: BridgeState, listener: Errors.ListenerKind, error: Errors.Http2Error): (r: BridgeState)
    ensures r.nextJobId == s.nextJobId + 1 && s.nextJobId in r.scheduledJobs
    ensures r.scheduledJobs[s.nextJobId].index == |s.fatalErrorTasks|
    ensures |s.fatalErrorTasks| in r.fatalErrorTasks && r.fatalErrorTasks[|s.fatalErrorTasks|] == s.nextJobId
  {
    var index := |s.fatalErrorTasks|;
    var id := s.nextJobId;
    var tasks := s.fatalErrorTasks[index := id];
    var jobs := s.scheduledJobs[id := FatalJob(index, listener, error)];
    s.(fatalErrorTasks := tasks, scheduledJobs := jobs, nextJobId := id + 1)
  }

  /** `fatalErrorDelayed` corrected: every job is filed under a key of its own, so the map holds every job still due. */
  function FatalErrorDelayed(s: BridgeState, listener: Errors.ListenerKind, error: Errors.Http2Error): BridgeState {
    var id := s.nextJobId;
    s.(fatalErrorTasks := s.fatalErrorTasks[id := id],
       scheduledJobs := s.scheduledJobs[id := FatalJob(id, listener, error)],
       nextJobId := id + 1)
  }

  /** `fatalErrorDelayed` in a build. */
  function FileFatalError(b: Build, s: BridgeState, listener: Errors.ListenerKind, error: Errors.Http2Error): (r: BridgeState)
    ensures Extends(s, r)
  {
    if b == AsWritten then FatalErrorDelayedAsWritten(s, listener, error) else FatalErrorDelayed(s, listener, error)
  }

  /** The scheduler runs job `id`, if it is still due: `fatalError`, then removal of the job's index from the map. */
  function RunFatalErrorTask(s: BridgeState, id: nat): (r: BridgeState)
    ensures Extends(s, r)
  {
    if id !in s.scheduledJobs then s
    else
      var job := s.scheduledJobs[id];
      var after := FatalError(s.(scheduledJobs := s.scheduledJobs - {id}), job.listener, job.error);
      after.(fatalErrorTasks := after.fatalErrorTasks - {job.index})
  }

  /** `setExternalRestartScheduled`: the handler will restart; any internal restart is cancelled and the connection closes. */
  function SetExternalRestartScheduled(s: BridgeState): BridgeState {
    Close2(s.(externalRestartScheduled := true, internalRestartScheduled := false, internalRestartTask := NoTask))
  }

  // ---------------------------------------------------------------------------------------
  // Keep-alive

  /** `checkAliveOk`: a ping arrived, so the session lives for another window. */
  function CheckAliveOk(s: BridgeState, now: int): BridgeState {
    s.(sessionExpireTime := Some(now + SESSION_WINDOW_MILLISECS))
  }

  /** `checkAlive`: an open connection whose deadline has passed fails with a timeout. */
  function CheckAlive(s: BridgeState, now: int): BridgeState {
    if s.onlineState == Closed then s
    else if s.sessionExpireTime.Some? && now > s.sessionExpireTime.value then FatalError(s, Errors.BridgeSelf, Errors.Timeout)
    else s
  }

  /** The periodic keep-alive task runs, if it is scheduled. */
  function RunCheckAliveTask(s: BridgeState, now: int): BridgeState {
    if s.checkAliveTask then CheckAlive(s, now) else s
  }

  // ---------------------------------------------------------------------------------------
  // Opening

  /** How a network attempt ends: success, failure or timeout, or an interrupt of the waiting thread. */
  datatype Attempt = Succeeded | Failed | Interrupted

  /**
   * What the network does while the connection opens: the time, whether the HTTP/2 client
   * starts, how connecting a session and opening the SSE stream end, how far the first SSE
   * message has got, and whether the wait for it is interrupted.
   */
  datatype OpenEnv = OpenEnv(now: int, clientStarts: bool, connect: Attempt, streamOpen: Attempt,
                             firstMessage: Completion<bool>, interruptedWaiting: bool)

  /** `openSession`: keeps a session that is still open, or connects a new one and starts its keep-alive window. */
  function OpenSession(s: BridgeState, env: OpenEnv): (r: Step<()>)
    ensures Extends(s, r.state)
  {
    if s.http2Session.Some? && !s.http2Session.value.closed then Step(s, Returned(()))
    else
      match env.connect
      case Succeeded => Step(CheckAliveOk(s.(http2Session := Some(Session(false, false))), env.now), Returned(()))
      case Failed => Step(s, Threw(ApiException("Error opening HTTP 2 session")))
      case Interrupted => Step(s, Threw(InterruptedException))
  }

  /** `openPassive`: CLOSED first; then the client and the session; then the keep-alive task and PASSIVE. */
  function OpenPassive(s: BridgeState, env: OpenEnv): (r: Step<()>)
    ensures Extends(s, r.state)
  {
    var closed := s.(onlineState := Closed);
    if !env.clientStarts then Step(closed, Threw(ApiException("Error starting HTTP/2 client")))
    else
      var reached := OpenSession(closed, env);
      if reached.outcome.Threw? then reached
      else Step(reached.state.(checkAliveTask := true, onlineState := Passive), Returned(()))
  }

  /**
   * `openEventStream`: needs an open session; keeps an SSE stream already tagged; otherwise
   * sends the SSE GET, tags the new stream and waits for the first message. A failure or
   * timeout resets the stream; an interrupt leaves it tagged.
   */
  function OpenEventStream(s: BridgeState, env: OpenEnv): (r: Step<()>)
    ensures Extends(s, r.state)
  {
    if s.http2Session.None? || s.http2Session.value.closed then
      Step(s, Threw(ApiException("HTTP 2 session is null or closed")))
    else if s.http2Session.value.eventStream then Step(s, Returned(()))
    else
      var headers := PrepareGetHeaders(EventUrl(s.hostName), SERVER_SENT_EVENTS, s.applicationKey);
      var requested := s.(sent := s.sent + [HeadersOut(headers)]);
      match env.streamOpen
      case Failed => Step(requested, Threw(ApiException("Error opening event stream")))
      case Interrupted => Step(requested, Threw(InterruptedException))
      case Succeeded =>
        var tagged := requested.(http2Session := Some(requested.http2Session.value.(eventStream := true)));
        match Await(env.firstMessage, env.interruptedWaiting)
        case Got(_) => Step(tagged, Returned(()))
        case WaitInterrupted => Step(tagged, Threw(InterruptedException))
        case _ => Step(requested, Threw(ApiException("Error opening event stream")))
  }

  /** `openActive`: opens the SSE stream if need be, then ACTIVE. */
  function OpenActive(s: BridgeState, env: OpenEnv): (r: Step<()>)
    ensures Extends(s, r.state)
  {
    var reached := OpenEventStream(s, env);
    if reached.outcome.Threw? then reached
    else Step(reached.state.(onlineState := Active), Returned(()))
  }

  /** `open`: passive, then active, then the handler hears the connection is online. */
  function Open(s: BridgeState, env: OpenEnv): (r: Step<()>)
    ensures Extends(s, r.state)
  {
    var passive := OpenPassive(s, env);
    if passive.outcome.Threw? then passive
    else
      var active := OpenActive(passive.state, env);
      if active.outcome.Threw? then active
      else Step(active.state.(notifications := active.state.notifications + [Online]), Returned(()))
  }

  /**
   * `internalRestart`: reopens, actively when asked to. Success ends the restart; an API
   * failure ends it and closes; an interrupt leaves everything, the restart flag included, as it is.
   */
  function InternalRestart(s: BridgeState, active: bool, env: OpenEnv): (r: BridgeState)
    ensures Extends(s, r)
  {
    var passive := OpenPassive(s, env);
    var reopened := if passive.outcome.Returned? && active then OpenActive(passive.state, env) else passive;
    match reopened.outcome
    case Returned(_) => reopened.state.(internalRestartScheduled := false)
    case Threw(InterruptedException) => reopened.state
    case Threw(_) => Close2(reopened.state.(internalRestartScheduled := false))
  }

  /**
   * The scheduler runs the restart task, if one is pending. Whether it reopens actively is
   * decided by the online state when it runs, not when it was scheduled.
   */
  function RunRestartTask(s: BridgeState, env: OpenEnv): (r: BridgeState)
    ensures Extends(s, r)
  {
    if s.internalRestartTask != Pending then s
    else
      var running := s.(internalRestartTask := Ran);
      InternalRestart(running, running.onlineState == Active, env)
  }

  // ---------------------------------------------------------------------------------------
  // Requests

  /**
   * How the wait for a pending restart task ends if the task does not finish first: it times
   * out, the caller is interrupted, or the task is cancelled while the caller waits (by
   * `close` or `setExternalRestartScheduled`, which cancel it and drop it, see
   * `ConnectionLemmas.CancelledRestartWaitThrows`).
   */
  datatype RestartWait = UntilTaskRuns | WaitTimesOut | WaitInterrupted | WaitCancelled

  /**
   * `sleepDuringRestart`: a caller waits for a pending restart task; the wait times out, is
   * interrupted or is cancelled, or lasts until the task has run (None: the call cannot
   * proceed yet). Only a timeout is caught and turned into an API failure; an interrupt and a
   * cancellation reach the caller as they are. With no task pending it clears the restart flag.
   */
  function SleepDuringRestart(s: BridgeState, wait: RestartWait): (r: Option<Step<()>>)
    ensures r.None? <==> s.internalRestartTask == Pending && wait == UntilTaskRuns
    ensures r.Some? && r.value.outcome.Returned? <==> s.internalRestartTask != Pending
    ensures r.Some? && r.value.outcome.Returned? ==> r.value.state == s.(internalRestartScheduled := false)
    ensures r.Some? && r.value.outcome.Threw? ==> r.value.state == s
    ensures s.internalRestartTask == Pending && wait == WaitTimesOut ==>
              r == Some(Step(s, Threw(ApiException("sleepDuringRestart() error"))))
    ensures s.internalRestartTask == Pending && wait == RestartWait.WaitInterrupted ==> r == Some(Step(s, Threw(InterruptedException)))
    ensures s.internalRestartTask == Pending && wait == WaitCancelled ==> r == Some(Step(s, Threw(CancellationException)))
  {
    if s.internalRestartTask == Pending then
      match wait
      case UntilTaskRuns => None
      case WaitTimesOut => Some(Step(s, Threw(ApiException("sleepDuringRestart() error"))))
      case WaitInterrupted => Some(Step(s, Threw(InterruptedException)))
      case WaitCancelled => Some(Step(s, Threw(CancellationException)))
    else Some(Step(s.(internalRestartScheduled := false), Returned(())))
  }

  /** Where an interrupt of the calling thread hits the throttle, if at all. */
  datatype InterruptPoint = NotInterrupted | InAcquire | InSleep

  /** How long a request at `now` must sleep to keep the request interval; zero or less means not at all. */
  function ThrottleDelay(lastRequestTime: Option<int>, now: int): (delay: int)
    ensures lastRequestTime.None? ==> delay <= 0
    ensures lastRequestTime.Some? ==> (delay > 0 <==> now < lastRequestTime.value + REQUEST_INTERVAL_MILLISECS)
    ensures now + delay == (if lastRequestTime.Some? then lastRequestTime.value + REQUEST_INTERVAL_MILLISECS else now)
  {
    if lastRequestTime.None? then 0 else lastRequestTime.value - now + REQUEST_INTERVAL_MILLISECS
  }

  /** When a request taking the throttle at `now` starts: after its sleep, if it has one. */
  function StartTime(lastRequestTime: Option<int>, now: int): (start: int)
    ensures start >= now
    ensures lastRequestTime.Some? ==> start >= lastRequestTime.value + REQUEST_INTERVAL_MILLISECS
    ensures start == now || (lastRequestTime.Some? && start == lastRequestTime.value + REQUEST_INTERVAL_MILLISECS)
  {
    var delay := ThrottleDelay(lastRequestTime, now);
    if delay > 0 then now + delay else now
  }

  /**
   * `throttle` as written: a permit is taken (None: none is free, the caller waits), then the
   * caller sleeps out the request interval and records `now`, the time before the sleep, as
   * the last request time. An interrupt during the sleep leaves the permit taken.
   * The value returned is the time the request starts.
   */
  function ThrottleAsWritten(s: BridgeState, now: int, interrupt: InterruptPoint): (r: Option<Step<int>>)
    ensures r.None? <==> interrupt != InAcquire && s.permits <= 0
    ensures r.Some? && r.value.outcome.Returned? ==>
              && r.value.outcome.value == StartTime(s.lastRequestTime, now)
              && r.value.state == s.(permits := s.permits - 1, lastRequestTime := Some(now))
    ensures interrupt == NotInterrupted && s.permits > 0 ==> r.Some? && r.value.outcome.Returned?
    ensures interrupt == InSleep && s.permits > 0 && ThrottleDelay(s.lastRequestTime, now) > 0 ==>
              r == Some(Step(s.(permits := s.permits - 1), Threw(InterruptedException)))
  {
    if interrupt == InAcquire then Some(Step(s, Threw(InterruptedException)))
    else if s.permits <= 0 then None
    else
      var acquired := s.(permits := s.permits - 1);
      if ThrottleDelay(s.lastRequestTime, now) > 0 && interrupt == InSleep then
        Some(Step(acquired, Threw(InterruptedException)))
      else Some(Step(acquired.(lastRequestTime := Some(now)), Returned(StartTime(s.lastRequestTime, now))))
  }

  /**
   * `throttle` corrected: an interrupted sleep gives its permit back, and the last request
   * time is the time the request actually starts, after the sleep.
   */
  function Throttle(s: BridgeState, now: int, interrupt: InterruptPoint): (r: Option<Step<int>>)
    ensures r.None? <==> interrupt != InAcquire && s.permits <= 0
    ensures r.Some? && r.value.outcome.Threw? ==> r.value.state == s
    ensures r.Some? && r.value.outcome.Returned? ==>
              && r.value.outcome.value == StartTime(s.lastRequestTime, now)
              && r.value.state == s.(permits := s.permits - 1, lastRequestTime := Some(r.value.outcome.value))
    ensures interrupt == NotInterrupted && s.permits > 0 ==> r.Some? && r.value.outcome.Returned?
  {
    if interrupt == InAcquire then Some(Step(s, Threw(InterruptedException)))
    else if s.permits <= 0 then None
    else
      var start := StartTime(s.lastRequestTime, now);
      if ThrottleDelay(s.lastRequestTime, now) > 0 && interrupt == InSleep then Some(Step(s, Threw(InterruptedException)))
      else Some(Step(s.(permits := s.permits - 1, lastRequestTime := Some(start)), Returned(start)))
  }

  /** `throttle` in a build. */
  function ThrottleIn(b: Build, s: BridgeState, now: int, interrupt: InterruptPoint): (r: Option<Step<int>>)
    ensures r.Some? ==> r.value.state == s.(permits := r.value.state.permits, lastRequestTime := r.value.state.lastRequestTime)
    ensures r.Some? && r.value.outcome.Returned? ==> r.value.state.permits == s.permits - 1
    ensures r.Some? ==> r.value.state.permits == s.permits || (s.permits > 0 && r.value.state.permits == s.permits - 1)
    ensures b == Corrected && r.Some? && r.value.outcome.Threw? ==> r.value.state == s
    ensures r.None? <==> interrupt != InAcquire && s.permits <= 0
  {
    if b == AsWritten then ThrottleAsWritten(s, now, interrupt) else Throttle(s, now, interrupt)
  }

  /** `throttleDone`: gives a permit back. */
  function ThrottleDone(s: BridgeState): BridgeState {
    s.(permits := s.permits + 1)
  }

  /**
   * The common start of a request on the current session: the session must be open; then the
   * throttle; then the HEADERS frame goes out and the call is in flight under a new id.
   */
  function BeginExchange(b: Build, s: BridgeState, kind: CallKind, headers: HeadersFrame, now: int, interrupt: InterruptPoint): (r: Option<Step<nat>>)
    ensures Extends(s, StateOf(s, r))
  {
    if s.http2Session.None? || s.http2Session.value.closed then
      Some(Step(s, Threw(ApiException("HTTP 2 session is null or closed"))))
    else
      match ThrottleIn(b, s, now, interrupt)
      case None => None
      case Some(Step(throttled, Threw(e))) => Some(Step(throttled, Threw(e)))
      case Some(Step(throttled, Returned(_))) =>
        var id := throttled.nextCallId;
        Some(Step(throttled.(calls := throttled.calls[id := kind], nextCallId := id + 1,
                             sent := throttled.sent + [HeadersOut(headers)]), Returned(id)))
  }

  /** The HEADERS frame of a GET for a resource reference. */
  function GetHeaders(s: BridgeState, ref: ResourceReference): HeadersFrame {
    PrepareGetHeaders(GetUrl(s.hostName, ref), APPLICATION_JSON, s.applicationKey)
  }

  /** The HEADERS frame of a PUT of a JSON body to a resource. */
  function PutHeaders(s: BridgeState, ref: ResourceReference, body: seq<Collector.byte>): HeadersFrame {
    PrepareHeaders(GetUrl(s.hostName, ref), APPLICATION_JSON, "PUT", |body|, Some(APPLICATION_JSON), s.applicationKey)
  }

  /** `getResources` up to sending its request: wait out a restart; refuse when CLOSED; then `getResourcesImpl`. */
  function BeginGetResources(b: Build, s: BridgeState, ref: ResourceReference, wait: RestartWait, now: int, interrupt: InterruptPoint): (r: Option<Step<nat>>)
    ensures Extends(s, StateOf(s, r))
  {
    match SleepDuringRestart(s, wait)
    case None => None
    case Some(Step(slept, Threw(e))) => Some(Step(slept, Threw(e)))
    case Some(Step(slept, Returned(_))) =>
      if slept.onlineState == Closed then Some(Step(slept, Threw(ApiException("getResources() offline"))))
      else BeginExchange(b, slept, GetResourcesCall, GetHeaders(slept, ref), now, interrupt)
  }

  /** `putResource` up to sending its HEADERS frame: wait out a restart; do nothing at all when CLOSED. */
  function BeginPutResource(b: Build, s: BridgeState, ref: ResourceReference, body: seq<Collector.byte>, wait: RestartWait,
                            now: int, interrupt: InterruptPoint): (r: Option<Step<Option<nat>>>)
    ensures Extends(s, StateOf(s, r))
  {
    match SleepDuringRestart(s, wait)
    case None => None
    case Some(Step(slept, Threw(e))) => Some(Step(slept, Threw(e)))
    case Some(Step(slept, Returned(_))) =>
      if slept.onlineState == Closed then Some(Step(slept, Returned(None)))
      else
        match BeginExchange(b, slept, PutResourceCall(body), PutHeaders(slept, ref, body), now, interrupt)
        case None => None
        case Some(Step(begun, Threw(e))) => Some(Step(begun, Threw(e)))
        case Some(Step(begun, Returned(id))) => Some(Step(begun, Returned(Some(id))))
  }

  /** The bridge resource, fetched to test a connection. */
  const BRIDGE: ResourceReference := ResourceReference("BRIDGE", None)

  /** An API failure of `testConnectionState` (an authorisation failure included) closes the connection before it is rethrown. */
  function CloseOnApiFailure<T>(step: Step<T>): (r: Step<T>)
    ensures Extends(step.state, r.state)
  {
    if step.outcome.Threw? && !step.outcome.exception.InterruptedException? then Step(Close2(step.state), step.outcome)
    else step
  }

  /** `testConnectionState` up to sending its request: open passively, then a GET of the bridge resource. */
  function BeginTestConnection(b: Build, s: BridgeState, env: OpenEnv, now: int, interrupt: InterruptPoint): (r: Option<Step<nat>>)
    ensures Extends(s, StateOf(s, r))
  {
    var passive := OpenPassive(s, env);
    if passive.outcome.Threw? then Some(CloseOnApiFailure(Step(passive.state, Threw(passive.outcome.exception))))
    else
      match BeginExchange(b, passive.state, TestConnectionCall, GetHeaders(passive.state, BRIDGE), now, interrupt)
      case None => None
      case Some(step) => Some(CloseOnApiFailure(step))
  }

  /**
   * How a request's stream and response turn out: how opening the stream ends, the state of
   * the listener's future, whether the wait on it is interrupted, the content type the
   * response declared, and whether its JSON parses.
   */
  datatype Response = Response(streamOpen: Attempt, result: Completion<string>, interruptedWaiting: bool,
                               contentType: string, parses: bool)

  /** What a GET yields: the JSON text; authorisation failures come out as such, other failures as API failures. */
  function GetOutcome(r: Response): (o: Outcome<Option<string>>)
    ensures o.Returned? ==> r.streamOpen == Succeeded && r.result.Completed? && o.value == Some(r.result.value)
  {
    match r.streamOpen
    case Failed => Threw(ApiException("Error sending request"))
    case Interrupted => Threw(InterruptedException)
    case Succeeded =>
      match Await(r.result, r.interruptedWaiting)
      case Got(json) =>
        if r.contentType != APPLICATION_JSON then Threw(ApiException("Unexpected Content-Type: " + r.contentType))
        else if !r.parses then Threw(ApiException("Parsing error"))
        else Returned(Some(json))
      case ExecutionFailed(UnauthorizedException) => Threw(HttpUnauthorizedException("HTTP 2 request not authorized"))
      case ExecutionFailed(_) => Threw(ApiException("Error sending request"))
      case TimedOut => Threw(ApiException("Error sending request"))
      case WaitInterrupted => Threw(InterruptedException)
  }

  /** What a PUT yields: nothing; every failure of the exchange, authorisation included, is one API failure. */
  function PutOutcome(r: Response): (o: Outcome<Option<string>>)
    ensures o.Returned? ==> o.value.None?
    ensures o.Threw? ==> !o.exception.HttpUnauthorizedException?
  {
    match r.streamOpen
    case Failed => Threw(ApiException("putResource() error sending request"))
    case Interrupted => Threw(InterruptedException)
    case Succeeded =>
      match Await(r.result, r.interruptedWaiting)
      case Got(json) =>
        if r.contentType != APPLICATION_JSON then Threw(ApiException("Unexpected Content-Type: " + r.contentType))
        else if !r.parses then Threw(ApiException("Parsing error"))
        else Returned(None)
      case ExecutionFailed(_) => Threw(ApiException("putResource() error sending request"))
      case TimedOut => Threw(ApiException("putResource() error sending request"))
      case WaitInterrupted => Threw(InterruptedException)
  }

  /**
   * The rest of call `id` (None: no such call): a PUT sends its body once the stream is open;
   * the response is taken apart; the permit is given back whatever happened; a failed
   * connection test closes the connection.
   */
  function EndCall(s: BridgeState, id: nat, r: Response): (e: Option<Step<Option<string>>>)
    ensures Extends(s, StateOf(s, e))
  {
    if id !in s.calls then None
    else
      var kind := s.calls[id];
      var done := ThrottleDone(s.(calls := s.calls - {id}));
      match kind
      case GetResourcesCall => Some(Step(done, GetOutcome(r)))
      case TestConnectionCall => Some(CloseOnApiFailure(Step(done, GetOutcome(r))))
      case PutResourceCall(body) =>
        var written := if r.streamOpen == Succeeded then done.(sent := done.sent + [DataOut(body)]) else done;
        Some(Step(written, PutOutcome(r)))
  }

  // ---------------------------------------------------------------------------------------
  // Listener events

  /**
   * `onEventData`: events reach the handler only while ACTIVE, and only when the data holds
   * at least one resource (`resourceCount` stands for the result of decoding the JSON).
   */
  function OnEventData(s: BridgeState, data: string, resourceCount: nat): BridgeState {
    if s.onlineState != Active || resourceCount == 0 then s
    else s.(notifications := s.notifications + [ResourcesEvent(data, resourceCount)])
  }

  /** A ping from the bridge renews the session window. */
  function OnPing(s: BridgeState, now: int): BridgeState {
    CheckAliveOk(s, now)
  }

  /**
   * A session callback: close, failure and GOAWAY leave the session closed; the fatal ones file
   * a delayed job. Every session has its own listener, so a late callback of a session already
   * replaced (`current` false) leaves the present session alone and only files its job.
   */
  function OnSessionSignal(b: Build, s: BridgeState, signal: Errors.Signal, current: bool): BridgeState {
    var ended := if current && signal in {Errors.OnClose, Errors.OnFailure, Errors.OnGoAway} && s.http2Session.Some?
                 then s.(http2Session := Some(s.http2Session.value.(closed := true))) else s;
    match Errors.Classify(Errors.SessionListener, signal)
    case None => ended
    case Some(error) => FileFatalError(b, ended, Errors.SessionListener, error)
  }

  /**
   * A callback of an SSE stream: being closed or reset ends the stream and files a delayed job.
   * A late callback of a stream of a session already replaced (`current` false) only files the job.
   */
  function OnEventStreamSignal(b: Build, s: BridgeState, signal: Errors.Signal, current: bool): BridgeState {
    match Errors.Classify(Errors.EventListener, signal)
    case None => s
    case Some(error) =>
      var ended := if current && s.http2Session.Some? then s.(http2Session := Some(s.http2Session.value.(eventStream := false))) else s;
      FileFatalError(b, ended, Errors.EventListener, error)
  }

  /** A callback of a GET/PUT stream: its fatal ones file a delayed job too (which will be ignored when it runs). */
  function OnContentStreamSignal(b: Build, s: BridgeState, signal: Errors.Signal): BridgeState {
    match Errors.Classify(Errors.ContentListener, signal)
    case None => s
    case Some(error) => FileFatalError(b, s, Errors.ContentListener, error)
  }

  /** A response HEADERS frame on a stream: 401 and 403 file a delayed authorisation job. */
  function OnHeaders(b: Build, s: BridgeState, listener: Errors.ListenerKind, isResponse: bool, status: int): BridgeState {
    match Errors.HeaderError(isResponse, status)
    case None => s
    case Some(error) => FileFatalError(b, s, listener, error)
  }

  // ---------------------------------------------------------------------------------------
  // Runs

  /** Everything that can happen to the bridge: calls from the handler, the scheduler's jobs, and network callbacks. */
  datatype Op =
    | DoOpen(openEnv: OpenEnv)
    | DoClose
    | DoSetExternalRestartScheduled
    | DoBeginGetResources(ref: ResourceReference, wait: RestartWait, now: int, interrupt: InterruptPoint)
    | DoBeginPutResource(ref: ResourceReference, body: seq<Collector.byte>, wait: RestartWait, now: int, interrupt: InterruptPoint)
    | DoBeginTestConnection(openEnv: OpenEnv, now: int, interrupt: InterruptPoint)
    | DoEndCall(id: nat, response: Response)
    | DoRunFatalErrorTask(jobId: nat)
    | DoRunRestartTask(openEnv: OpenEnv)
    | DoRunCheckAliveTask(now: int)
    | DoPing(now: int)
    | DoSessionSignal(signal: Errors.Signal, current: bool)
    | DoEventStreamSignal(signal: Errors.Signal, current: bool)
    | DoContentStreamSignal(signal: Errors.Signal)
    | DoHeaders(listener: Errors.ListenerKind, isResponse: bool, status: int)
    | DoEventData(data: string, resourceCount: nat)

  function StateOf<T>(s: BridgeState, step: Option<Step<T>>): BridgeState {
    if step.None? then s else step.value.state
  }

  /**
   * What no operation changes or takes back: the bridge's host name and application key, what
   * the handler has been told, what has been sent, and the job and call ids handed out.
   */
  predicate Extends(s: BridgeState, r: BridgeState) {
    && r.hostName == s.hostName && r.applicationKey == s.applicationKey
    && s.notifications <= r.notifications && s.sent <= r.sent
    && s.nextJobId <= r.nextJobId && s.nextCallId <= r.nextCallId
  }

  /** The state after an operation of a build; an operation that has to wait leaves the state as it is. */
  function Apply(b: Build, s: BridgeState, op: Op): (r: BridgeState)
    ensures Extends(s, r)
  {
    match op
    case DoOpen(env) => Open(s, env).state
    case DoClose => Close(s)
    case DoSetExternalRestartScheduled => SetExternalRestartScheduled(s)
    case DoBeginGetResources(ref, wait, now, interrupt) => StateOf(s, BeginGetResources(b, s, ref, wait, now, interrupt))
    case DoBeginPutResource(ref, body, wait, now, interrupt) => StateOf(s, BeginPutResource(b, s, ref, body, wait, now, interrupt))
    case DoBeginTestConnection(env, now, interrupt) => StateOf(s, BeginTestConnection(b, s, env, now, interrupt))
    case DoEndCall(id, response) => StateOf(s, EndCall(s, id, response))
    case DoRunFatalErrorTask(id) => RunFatalErrorTask(s, id)
    case DoRunRestartTask(env) => RunRestartTask(s, env)
    case DoRunCheckAliveTask(now) => RunCheckAliveTask(s, now)
    case DoPing(now) => OnPing(s, now)
    case DoSessionSignal(signal, current) => OnSessionSignal(b, s, signal, current)
    case DoEventStreamSignal(signal, current) => OnEventStreamSignal(b, s, signal, current)
    case DoContentStreamSignal(signal) => OnContentStreamSignal(b, s, signal)
    case DoHeaders(listener, isResponse, status) => OnHeaders(b, s, listener, isResponse, status)
    case DoEventData(data, count) => OnEventData(s, data, count)
  }

  /** The state after a sequence of operations of a build. */
  function Run(b: Build, s: BridgeState, ops: seq<Op>): (r: BridgeState)
    ensures Extends(s, r)
    decreases |ops|
  {
    if ops == [] then s else Run(b, Apply(b, s, ops[0]), ops[1..])
  }
}
