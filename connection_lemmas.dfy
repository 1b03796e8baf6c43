/** What the connection state machine promises its handler and its callers. */
module ConnectionLemmas {
  import opened Wrappers
  import Errors
  import opened Awaiter
  import opened Requests
  import opened Connection
  import ConnectionInvariant
  import Collector
  import Text

  // ---------------------------------------------------------------------------------------
  // Closing

  /** `close` ends everything, cancels any restart, and never tells the handler that the connection went offline. */
  lemma CloseIsSilent(s: BridgeState)
    ensures var r := Close(s);
            && r.closing && r.onlineState == Closed && r.http2Session.None?
            && !r.internalRestartScheduled && !r.externalRestartScheduled && r.internalRestartTask == NoTask
            && !r.checkAliveTask && r.fatalErrorTasks == map[]
            && r.notifications == s.notifications
  {
  }

  /** With the job map holding every job still due, closing cancels all pending fatal-error jobs. */
  lemma Close2CancelsEveryJob(s: BridgeState)
    requires Inv(Corrected, s)
    ensures Close2(s).scheduledJobs == map[]
  {
    var r := Close2(s);
    forall id | id in s.scheduledJobs
      ensures id in s.fatalErrorTasks.Values
    {
      assert s.fatalErrorTasks[id] == id;
    }
    assert r.scheduledJobs.Keys == {};
  }

  /** The flags only `close` and `setExternalRestartScheduled` set: the close request and the external restart. */
  predicate SameRequests(a: BridgeState, b: BridgeState) {
    a.closing == b.closing && a.externalRestartScheduled == b.externalRestartScheduled
  }

  /** Opening touches neither the close request, nor the restart flags and task, nor the handler. */
  lemma OpenPassiveFrame(s: BridgeState, env: OpenEnv)
    ensures var r := OpenPassive(s, env).state;
            && SameRequests(s, r) && r.internalRestartScheduled == s.internalRestartScheduled
            && r.internalRestartTask == s.internalRestartTask && r.notifications == s.notifications
  {
    var closed := s.(onlineState := Closed);
    var reached := OpenSession(closed, env);
    assert SameRequests(s, reached.state) && reached.state.notifications == s.notifications;
  }

  lemma OpenEventStreamFrame(s: BridgeState, env: OpenEnv)
    ensures var r := OpenEventStream(s, env).state;
            && SameRequests(s, r) && r.internalRestartScheduled == s.internalRestartScheduled
            && r.internalRestartTask == s.internalRestartTask && r.notifications == s.notifications
  {
    if s.http2Session.Some? && !s.http2Session.value.closed && !s.http2Session.value.eventStream {
      var requested := s.(sent := s.sent + [HeadersOut(PrepareGetHeaders(EventUrl(s.hostName), SERVER_SENT_EVENTS, s.applicationKey))]);
      var tagged := requested.(http2Session := Some(requested.http2Session.value.(eventStream := true)));
      var r := OpenEventStream(s, env).state;
      assert r == tagged || r == requested;
    }
  }

  lemma OpenActiveFrame(s: BridgeState, env: OpenEnv)
    ensures var r := OpenActive(s, env).state;
            && SameRequests(s, r) && r.internalRestartScheduled == s.internalRestartScheduled
            && r.internalRestartTask == s.internalRestartTask && r.notifications == s.notifications
  {
    OpenEventStreamFrame(s, env);
  }

  lemma InternalRestartKeepsRequests(s: BridgeState, active: bool, env: OpenEnv)
    ensures SameRequests(s, InternalRestart(s, active, env))
  {
    OpenPassiveFrame(s, env);
    var passive := OpenPassive(s, env);
    if passive.outcome.Returned? && active {
      OpenActiveFrame(passive.state, env);
    }
    var reopened := if passive.outcome.Returned? && active then OpenActive(passive.state, env) else passive;
    assert SameRequests(s, reopened.state);
    if reopened.outcome.Threw? && reopened.outcome.exception != InterruptedException {
      assert SameRequests(s, Close2(reopened.state.(internalRestartScheduled := false)));
    }
  }

  lemma RunRestartTaskKeepsRequests(s: BridgeState, env: OpenEnv)
    ensures SameRequests(s, RunRestartTask(s, env))
  {
    if s.internalRestartTask == Pending {
      var running := s.(internalRestartTask := Ran);
      InternalRestartKeepsRequests(running, running.onlineState == Active, env);
    }
  }

  lemma BeginExchangeKeepsRequests(b: Build, s: BridgeState, kind: CallKind, headers: HeadersFrame, now: int, interrupt: InterruptPoint)
    ensures SameRequests(s, StateOf(s, BeginExchange(b, s, kind, headers, now, interrupt)))
  {
  }

  lemma BeginTestConnectionKeepsRequests(b: Build, s: BridgeState, env: OpenEnv, now: int, interrupt: InterruptPoint)
    ensures SameRequests(s, StateOf(s, BeginTestConnection(b, s, env, now, interrupt)))
  {
    OpenPassiveFrame(s, env);
    var passive := OpenPassive(s, env);
    if passive.outcome.Returned? {
      var t := passive.state;
      BeginExchangeKeepsRequests(b, t, TestConnectionCall, GetHeaders(t, BRIDGE), now, interrupt);
    }
  }

  lemma BeginGetResourcesKeepsRequests(b: Build, s: BridgeState, ref: ResourceReference, wait: RestartWait, now: int, interrupt: InterruptPoint)
    ensures SameRequests(s, StateOf(s, BeginGetResources(b, s, ref, wait, now, interrupt)))
  {
    var slept := SleepDuringRestart(s, wait);
    if slept.Some? && slept.value.outcome.Returned? {
      var t := slept.value.state;
      assert SameRequests(s, t);
      if t.onlineState != Closed {
        var headers := GetHeaders(t, ref);
        BeginExchangeKeepsRequests(b, t, GetResourcesCall, headers, now, interrupt);
        var begun := BeginExchange(b, t, GetResourcesCall, headers, now, interrupt);
        if begun.Some? {
          assert StateOf(s, BeginGetResources(b, s, ref, wait, now, interrupt)) == begun.value.state;
        }
      }
    }
  }

  lemma BeginPutResourceKeepsRequests(b: Build, s: BridgeState, ref: ResourceReference, body: seq<Collector.byte>,
                                      wait: RestartWait, now: int, interrupt: InterruptPoint)
    ensures SameRequests(s, StateOf(s, BeginPutResource(b, s, ref, body, wait, now, interrupt)))
  {
    if s.internalRestartTask != Pending && s.onlineState != Closed {
      var t := s.(internalRestartScheduled := false);
      BeginExchangeKeepsRequests(b, t, PutResourceCall(body), PutHeaders(t, ref, body), now, interrupt);
      ConnectionInvariant.PutIsExchange(b, s, ref, body, wait, now, interrupt);
    } else if s.internalRestartTask != Pending {
      assert StateOf(s, BeginPutResource(b, s, ref, body, wait, now, interrupt)) == s.(internalRestartScheduled := false);
    } else {
      assert StateOf(s, BeginPutResource(b, s, ref, body, wait, now, interrupt)) == s;
    }
  }

  lemma OpenKeepsRequests(s: BridgeState, env: OpenEnv)
    ensures SameRequests(s, Open(s, env).state)
  {
    OpenPassiveFrame(s, env);
    var passive := OpenPassive(s, env);
    if passive.outcome.Returned? {
      OpenActiveFrame(passive.state, env);
    }
  }

  lemma EndCallKeepsRequests(s: BridgeState, id: nat, r: Response)
    ensures SameRequests(s, StateOf(s, EndCall(s, id, r)))
  {
    if id in s.calls {
      var done := ThrottleDone(s.(calls := s.calls - {id}));
      if s.calls[id].TestConnectionCall? {
        assert EndCall(s, id, r) == Some(CloseOnApiFailure(Step(done, GetOutcome(r))));
      }
    }
  }

  lemma RunFatalErrorTaskKeepsRequests(s: BridgeState, id: nat)
    ensures SameRequests(s, RunFatalErrorTask(s, id))
  {
  }

  /**
   * Filing a delayed fatal error, in either build, leaves the connection as it is: the close
   * request, the restart flags, the session, the online state and what the handler was told.
   */
  lemma FilingKeepsConnection(b: Build, s: BridgeState, listener: Errors.ListenerKind, error: Errors.Http2Error)
    ensures var r := FileFatalError(b, s, listener, error);
            && SameRequests(s, r) && r.internalRestartScheduled == s.internalRestartScheduled
            && r.http2Session == s.http2Session && r.onlineState == s.onlineState && r.notifications == s.notifications
  {
  }

  lemma SessionSignalKeepsRequests(b: Build, s: BridgeState, signal: Errors.Signal, current: bool)
    ensures SameRequests(s, OnSessionSignal(b, s, signal, current))
  {
    var ended := if current && signal in {Errors.OnClose, Errors.OnFailure, Errors.OnGoAway} && s.http2Session.Some?
                 then s.(http2Session := Some(s.http2Session.value.(closed := true))) else s;
    var e := Errors.Classify(Errors.SessionListener, signal);
    if e.Some? { FilingKeepsConnection(b, ended, Errors.SessionListener, e.value); }
  }

  lemma EventStreamSignalKeepsRequests(b: Build, s: BridgeState, signal: Errors.Signal, current: bool)
    ensures SameRequests(s, OnEventStreamSignal(b, s, signal, current))
  {
    var e := Errors.Classify(Errors.EventListener, signal);
    if e.Some? {
      var ended := if current && s.http2Session.Some? then s.(http2Session := Some(s.http2Session.value.(eventStream := false))) else s;
      FilingKeepsConnection(b, ended, Errors.EventListener, e.value);
    }
  }

  lemma CallbacksKeepRequests(b: Build, s: BridgeState, op: Op)
    requires op.DoRunCheckAliveTask? || op.DoPing? || op.DoSessionSignal? || op.DoEventStreamSignal?
             || op.DoContentStreamSignal? || op.DoHeaders? || op.DoEventData?
    ensures SameRequests(s, Apply(b, s, op))
  {
    if op.DoSessionSignal? {
      SessionSignalKeepsRequests(b, s, op.signal, op.current);
    } else if op.DoEventStreamSignal? {
      EventStreamSignalKeepsRequests(b, s, op.signal, op.current);
    } else if op.DoContentStreamSignal? {
      var e := Errors.Classify(Errors.ContentListener, op.signal);
      if e.Some? { FilingKeepsConnection(b, s, Errors.ContentListener, e.value); }
    } else if op.DoHeaders? {
      var e := Errors.HeaderError(op.isResponse, op.status);
      if e.Some? { FilingKeepsConnection(b, s, op.listener, e.value); }
    }
  }

  /** Every operation but `close` and `setExternalRestartScheduled` leaves the close request and the external-restart flag alone. */
  lemma OtherOpsKeepRequests(b: Build, s: BridgeState, op: Op)
    requires !op.DoClose? && !op.DoSetExternalRestartScheduled?
    ensures SameRequests(s, Apply(b, s, op))
  {
    match op
    case DoOpen(env) => OpenKeepsRequests(s, env);
    case DoBeginTestConnection(env, now, interrupt) => BeginTestConnectionKeepsRequests(b, s, env, now, interrupt);
    case DoRunRestartTask(env) => RunRestartTaskKeepsRequests(s, env);
    case DoBeginGetResources(ref, wait, now, interrupt) => BeginGetResourcesKeepsRequests(b, s, ref, wait, now, interrupt);
    case DoBeginPutResource(ref, body, wait, now, interrupt) => BeginPutResourceKeepsRequests(b, s, ref, body, wait, now, interrupt);
    case DoEndCall(id, response) => EndCallKeepsRequests(s, id, response);
    case DoRunFatalErrorTask(id) => RunFatalErrorTaskKeepsRequests(s, id);
    case _ => CallbacksKeepRequests(b, s, op);
  }

  /** A close once requested is never undone: no operation clears the flag. */
  lemma ClosingIsPermanent(b: Build, s: BridgeState, op: Op)
    requires s.closing
    ensures Apply(b, s, op).closing
  {
    if !op.DoClose? && !op.DoSetExternalRestartScheduled? {
      OtherOpsKeepRequests(b, s, op);
    }
  }

  /** Once close was requested, fatal errors are ignored whatever the connection does afterwards. */
  lemma {:induction false} ClosedBridgeIgnoresFatalErrors(b: Build, s: BridgeState, ops: seq<Op>, listener: Errors.ListenerKind, error: Errors.Http2Error)
    requires s.closing
    ensures var r := Run(b, s, ops); r.closing && FatalError(r, listener, error) == r
    decreases |ops|
  {
    if ops != [] {
      ClosingIsPermanent(b, s, ops[0]);
      ClosedBridgeIgnoresFatalErrors(b, Apply(b, s, ops[0]), ops[1..], listener, error);
    }
  }

  // ---------------------------------------------------------------------------------------
  // Fatal errors

  /** An error reported by a GET/PUT stream never affects the connection: its caller handles it. */
  lemma ContentErrorsLeaveConnection(s: BridgeState, error: Errors.Http2Error)
    ensures FatalError(s, Errors.ContentListener, error) == s
  {
  }

  /** `fatalError` does nothing while a restart is scheduled, when closed, or once close was requested. */
  lemma FatalErrorGuard(s: BridgeState, listener: Errors.ListenerKind, error: Errors.Http2Error)
    ensures FatalError(s, listener, error) != s ==>
              !s.externalRestartScheduled && !s.internalRestartScheduled && s.onlineState != Closed && !s.closing
              && listener != Errors.ContentListener
  {
  }

  /**
   * A GOAWAY from an open connection is a soft error: the connection closes without telling
   * the handler, and a restart is scheduled.
   */
  lemma GoAwayIsSoft(s: BridgeState, listener: Errors.ListenerKind)
    requires !FatalErrorInert(s) && listener != Errors.ContentListener
    ensures var r := FatalError(s, listener, Errors.GoAway);
            && r.onlineState == Closed && r.http2Session.None?
            && r.internalRestartScheduled && r.internalRestartTask == Pending
            && r.notifications == s.notifications
  {
  }

  /**
   * Any other error of an ACTIVE connection closes it and tells the handler exactly once:
   * the closed connection ignores every further fatal error, and no restart is scheduled.
   */
  lemma HardErrorNotifiesOnce(s: BridgeState, listener: Errors.ListenerKind, error: Errors.Http2Error,
                              listener2: Errors.ListenerKind, error2: Errors.Http2Error)
    requires !FatalErrorInert(s) && s.onlineState == Active
    requires listener != Errors.ContentListener && error != Errors.GoAway
    ensures var r := FatalError(s, listener, error);
            && r.onlineState == Closed && r.http2Session.None?
            && r.notifications == s.notifications + [Offline]
            && r.internalRestartTask == NoTask
            && FatalError(r, listener2, error2) == r
  {
  }

  // ---------------------------------------------------------------------------------------
  // Restarts

  /** Opening conditions in which everything works. */
  predicate AllSucceed(env: OpenEnv) {
    env.clientStarts && env.connect == Succeeded && env.streamOpen == Succeeded
    && env.firstMessage.Completed? && !env.interruptedWaiting
  }

  /**
   * The restart after a GOAWAY reopens the connection only passively: the task reads the
   * online state when it runs, and by then the GOAWAY has closed the connection. The
   * handler hears nothing, neither offline nor online.
   */
  lemma GoAwayRestartReopensPassive(b: Build, s: BridgeState, listener: Errors.ListenerKind, env: OpenEnv)
    requires Inv(b, s) && !FatalErrorInert(s) && s.onlineState == Active && listener != Errors.ContentListener
    requires AllSucceed(env)
    ensures var r := RunRestartTask(FatalError(s, listener, Errors.GoAway), env);
            && r.onlineState == Passive
            && !r.internalRestartScheduled && r.internalRestartTask == Ran
            && r.http2Session == Some(Session(false, false))
            && r.notifications == s.notifications
  {
  }

  /** A restart whose reopening fails ends the restart and leaves the connection closed, again without a word to the handler. */
  lemma RestartFailureCloses(s: BridgeState, listener: Errors.ListenerKind, env: OpenEnv)
    requires !FatalErrorInert(s) && listener != Errors.ContentListener
    requires !env.clientStarts || env.connect == Failed
    ensures var r := RunRestartTask(FatalError(s, listener, Errors.GoAway), env);
            && r.onlineState == Closed && r.http2Session.None?
            && !r.internalRestartScheduled && r.internalRestartTask == NoTask
            && r.notifications == s.notifications
  {
  }

  /**
   * A restart interrupted while connecting leaves the restart flag set with the task finished,
   * so every fatal error is ignored until a caller's `sleepDuringRestart` clears the flag.
   */
  lemma InterruptedRestartKeepsFlag(s: BridgeState, listener: Errors.ListenerKind, env: OpenEnv,
                                    listener2: Errors.ListenerKind, error2: Errors.Http2Error)
    requires !FatalErrorInert(s) && listener != Errors.ContentListener
    requires env.clientStarts && env.connect == Interrupted
    ensures var r := RunRestartTask(FatalError(s, listener, Errors.GoAway), env);
            && r.internalRestartScheduled && r.internalRestartTask == Ran && r.onlineState == Closed
            && FatalError(r, listener2, error2) == r
            && SleepDuringRestart(r, UntilTaskRuns) == Some(Step(r.(internalRestartScheduled := false), Returned(())))
  {
  }

  /** An external restart closes without telling the handler and cancels any internal restart. */
  lemma ExternalRestartIsSilent(s: BridgeState)
    ensures var r := SetExternalRestartScheduled(s);
            && r.externalRestartScheduled && !r.internalRestartScheduled && r.internalRestartTask == NoTask
            && r.onlineState == Closed && r.notifications == s.notifications
  {
  }

  /** Only `close` clears the external-restart flag; reopening does not, so fatal errors stay ignored until then. */
  lemma ExternalFlagClearedOnlyByClose(b: Build, s: BridgeState, op: Op)
    requires s.externalRestartScheduled && !op.DoClose?
    ensures Apply(b, s, op).externalRestartScheduled
  {
    if !op.DoSetExternalRestartScheduled? {
      OtherOpsKeepRequests(b, s, op);
    }
  }

  // ---------------------------------------------------------------------------------------
  // Keep-alive

  /**
   * An ACTIVE connection whose session deadline has passed fails with a timeout at the next
   * keep-alive check, which closes it and tells the handler.
   */
  lemma KeepaliveExpiry(s: BridgeState, now: int)
    requires s.checkAliveTask && s.onlineState == Active
    requires !s.closing && !s.internalRestartScheduled && !s.externalRestartScheduled
    requires s.sessionExpireTime.Some? && now > s.sessionExpireTime.value
    ensures var r := RunCheckAliveTask(s, now);
            r.onlineState == Closed && r.notifications == s.notifications + [Offline]
  {
  }

  /** A ping from the bridge keeps the connection alive for the next ten minutes, whatever else holds. */
  lemma PingKeepsAlive(s: BridgeState, now: int, later: int)
    requires later <= now + SESSION_WINDOW_MILLISECS
    ensures RunCheckAliveTask(OnPing(s, now), later) == OnPing(s, now)
  {
  }

  // ---------------------------------------------------------------------------------------
  // Opening

  /** A new client that opens with everything working is ACTIVE on a fresh session carrying the SSE stream, and says so. */
  lemma OpenFromInitIsActive(hostName: string, applicationKey: string, env: OpenEnv)
    requires AllSucceed(env)
    ensures var r := Open(Init(hostName, applicationKey), env);
            && r.outcome == Returned(())
            && r.state.onlineState == Active
            && r.state.http2Session == Some(Session(false, true))
            && r.state.checkAliveTask
            && r.state.sessionExpireTime == Some(env.now + SESSION_WINDOW_MILLISECS)
            && r.state.notifications == [Online]
            && r.state.sent == [HeadersOut(PrepareGetHeaders(EventUrl(hostName), SERVER_SENT_EVENTS, applicationKey))]
  {
  }

  /** The handler hears that the connection is online only from an `open` that succeeded, and then the connection is ACTIVE. */
  lemma OnlineOnlyAfterOpen(s: BridgeState, env: OpenEnv)
    ensures var r := Open(s, env);
            (|r.state.notifications| > |s.notifications| ==> r.outcome.Returned? && r.state.onlineState == Active)
            && (r.outcome.Returned? <==> r.state.notifications == s.notifications + [Online])
  {
    OpenPassiveFrame(s, env);
    var passive := OpenPassive(s, env);
    if passive.outcome.Returned? {
      OpenActiveFrame(passive.state, env);
    }
  }

  /** A failed connection test closes the connection, whichever step failed. */
  lemma FailedTestCloses(b: Build, s: BridgeState, env: OpenEnv, now: int, interrupt: InterruptPoint)
    requires !env.clientStarts || (env.connect == Failed && (s.http2Session.None? || s.http2Session.value.closed))
    ensures var r := BeginTestConnection(b, s, env, now, interrupt);
            r.Some? && r.value.outcome.Threw? && r.value.state.onlineState == Closed && r.value.state.http2Session.None?
  {
  }

  // ---------------------------------------------------------------------------------------
  // Requests

  /** While a restart is pending, a request waits for it: it cannot begin. */
  lemma RequestsWaitForRestart(b: Build, s: BridgeState, ref: ResourceReference, body: seq<Collector.byte>, now: int, interrupt: InterruptPoint)
    requires s.internalRestartTask == Pending
    ensures BeginGetResources(b, s, ref, UntilTaskRuns, now, interrupt).None?
    ensures BeginPutResource(b, s, ref, body, UntilTaskRuns, now, interrupt).None?
  {
  }

  /**
   * `close` and `setExternalRestartScheduled` cancel a pending restart task and drop it. A
   * GET or PUT already waiting on that task is woken by the cancellation, which nothing on
   * its way catches: the call throws `CancellationException`, changes nothing and sends
   * nothing. A call made after the cancellation finds no task and goes on.
   */
  lemma CancelledRestartWaitThrows(b: Build, s: BridgeState, ref: ResourceReference, body: seq<Collector.byte>, now: int, interrupt: InterruptPoint)
    requires s.internalRestartTask == Pending
    ensures Close(s).internalRestartTask == NoTask && SetExternalRestartScheduled(s).internalRestartTask == NoTask
    ensures BeginGetResources(b, s, ref, WaitCancelled, now, interrupt) == Some(Step(s, Threw(CancellationException)))
    ensures BeginPutResource(b, s, ref, body, WaitCancelled, now, interrupt) == Some(Step(s, Threw(CancellationException)))
  {
  }

  /** A GET while CLOSED fails at once, and nothing goes out. */
  lemma OfflineGetRejected(b: Build, s: BridgeState, ref: ResourceReference, wait: RestartWait, now: int, interrupt: InterruptPoint)
    requires s.internalRestartTask != Pending && s.onlineState == Closed
    ensures BeginGetResources(b, s, ref, wait, now, interrupt)
            == Some(Step(s.(internalRestartScheduled := false), Threw(ApiException("getResources() offline"))))
  {
  }

  /** A PUT while CLOSED is dropped without an error, and nothing goes out. */
  lemma OfflinePutDropped(b: Build, s: BridgeState, ref: ResourceReference, body: seq<Collector.byte>, wait: RestartWait, now: int, interrupt: InterruptPoint)
    requires s.internalRestartTask != Pending && s.onlineState == Closed
    ensures BeginPutResource(b, s, ref, body, wait, now, interrupt)
            == Some(Step(s.(internalRestartScheduled := false), Returned(None)))
  {
  }

  /** A request on a session that is gone or closed fails before it takes a permit or sends anything. */
  lemma ClosedSessionRejected(b: Build, s: BridgeState, kind: CallKind, headers: HeadersFrame, now: int, interrupt: InterruptPoint)
    requires s.http2Session.None? || s.http2Session.value.closed
    ensures BeginExchange(b, s, kind, headers, now, interrupt) == Some(Step(s, Threw(ApiException("HTTP 2 session is null or closed"))))
  {
  }

  /** A request that begins sends exactly its HEADERS frame and holds one more permit. */
  lemma BeginSendsHeaders(b: Build, s: BridgeState, kind: CallKind, headers: HeadersFrame, now: int, interrupt: InterruptPoint)
    requires Inv(b, s)
    ensures var r := BeginExchange(b, s, kind, headers, now, interrupt);
            r.Some? && r.value.outcome.Returned? ==>
              && r.value.state.sent == s.sent + [HeadersOut(headers)]
              && r.value.state.permits == s.permits - 1
              && r.value.outcome.value !in s.calls
              && r.value.state.calls == s.calls[r.value.outcome.value := kind]
  {
  }

  /** The GET URL of a reference names the resource the PUT or GET is about. */
  lemma GetRequestTargetsResource(s: BridgeState, ref: ResourceReference)
    requires NoSlash(ref.resourceType)
    ensures ParseResourceUrl(s.hostName, GetHeaders(s, ref).uri)
            == Some((Text.ToLower(ref.resourceType), if ref.id.Some? && ref.id.value != [] then ref.id else None))
  {
    GetUrlRoundTrip(s.hostName, ref);
  }

  /**
   * No more than three requests are ever in flight: with three in flight, a fourth on an
   * open session cannot begin until one ends (or its thread is interrupted).
   */
  lemma AdmissionBound(b: Build, s: BridgeState, kind: CallKind, headers: HeadersFrame, now: int, interrupt: InterruptPoint)
    requires Inv(b, s)
    ensures |s.calls| <= MAX_CONCURRENT_STREAMS
    ensures (|s.calls| == MAX_CONCURRENT_STREAMS && s.http2Session.Some? && !s.http2Session.value.closed
             && interrupt != InAcquire) ==> BeginExchange(b, s, kind, headers, now, interrupt).None?
  {
  }

  /** Ending a call always gives its permit back, whatever the response was. */
  lemma EndCallReleasesPermit(s: BridgeState, id: nat, r: Response)
    requires id in s.calls
    ensures var e := EndCall(s, id, r);
            e.Some? && e.value.state.permits == s.permits + 1 && id !in e.value.state.calls
  {
    var done := ThrottleDone(s.(calls := s.calls - {id}));
    if s.calls[id].TestConnectionCall? {
      assert EndCall(s, id, r) == Some(CloseOnApiFailure(Step(done, GetOutcome(r))));
    }
  }

  /**
   * An authorisation failure reaches a GET's caller as such, but a PUT's caller only as a
   * generic API failure.
   */
  lemma UnauthorizedAsymmetry(r: Response)
    requires r.streamOpen == Succeeded && r.result == CompletedExceptionally(UnauthorizedException)
    ensures GetOutcome(r) == Threw(HttpUnauthorizedException("HTTP 2 request not authorized"))
    ensures PutOutcome(r) == Threw(ApiException("putResource() error sending request"))
  {
  }

  /** A GET returns the body exactly when the stream opened, the body arrived, it is declared JSON, and it parses. */
  lemma GetSucceedsIff(r: Response)
    ensures GetOutcome(r).Returned? <==>
              r.streamOpen == Succeeded && r.result.Completed? && r.contentType == APPLICATION_JSON && r.parses
  {
  }

  // ---------------------------------------------------------------------------------------
  // Events

  /** Events reach the handler exactly when the connection is ACTIVE and the data holds resources. */
  lemma OnEventDataGate(s: BridgeState, data: string, resourceCount: nat)
    ensures var r := OnEventData(s, data, resourceCount);
            && (r.notifications != s.notifications <==> s.onlineState == Active && resourceCount > 0)
            && (r.notifications != s.notifications ==> r.notifications == s.notifications + [ResourcesEvent(data, resourceCount)])
            && r.onlineState == s.onlineState
  {
  }

  /**
   * Each session and each SSE stream has its own listener. A late callback from a session or
   * stream already replaced leaves the present session and its stream as they are, and only
   * files its job, if it has one. A close, failure or GOAWAY of the present session marks it closed.
   */
  lemma LateSignalsSparePresentSession(b: Build, s: BridgeState, signal: Errors.Signal)
    ensures OnSessionSignal(b, s, signal, false).http2Session == s.http2Session
    ensures OnEventStreamSignal(b, s, signal, false).http2Session == s.http2Session
    ensures Errors.Classify(Errors.SessionListener, signal).None? ==> OnSessionSignal(b, s, signal, false) == s
    ensures s.http2Session.Some? && signal in {Errors.OnClose, Errors.OnFailure, Errors.OnGoAway} ==>
              OnSessionSignal(b, s, signal, true).http2Session == Some(s.http2Session.value.(closed := true))
  {
    var e := Errors.Classify(Errors.SessionListener, signal);
    if e.Some? {
      FilingKeepsConnection(b, s, Errors.SessionListener, e.value);
      var ended := if signal in {Errors.OnClose, Errors.OnFailure, Errors.OnGoAway} && s.http2Session.Some?
                   then s.(http2Session := Some(s.http2Session.value.(closed := true))) else s;
      FilingKeepsConnection(b, ended, Errors.SessionListener, e.value);
    }
    var f := Errors.Classify(Errors.EventListener, signal);
    if f.Some? {
      FilingKeepsConnection(b, s, Errors.EventListener, f.value);
    }
  }

  /** A 401 or 403 on the SSE stream files an authorisation job; once it runs on an ACTIVE connection, the handler hears it is offline. */
  lemma UnauthorizedEventStreamCloses(b: Build, s: BridgeState, status: int)
    requires Inv(b, s) && !FatalErrorInert(s) && s.onlineState == Active
    requires status == Errors.UNAUTHORIZED_401 || status == Errors.FORBIDDEN_403
    ensures var filed := OnHeaders(b, s, Errors.EventListener, true, status);
            var r := RunFatalErrorTask(filed, s.nextJobId);
            r.onlineState == Closed && r.notifications == s.notifications + [Offline]
  {
    var filed := FileFatalError(b, s, Errors.EventListener, Errors.Unauthorized);
    assert OnHeaders(b, s, Errors.EventListener, true, status) == filed;
    var id := s.nextJobId;
    assert filed.scheduledJobs[id].listener == Errors.EventListener && filed.scheduledJobs[id].error == Errors.Unauthorized;
    var removed := filed.(scheduledJobs := filed.scheduledJobs - {id});
    assert !FatalErrorInert(removed) && NotifiesOffline(removed);
  }
}
