/** Every operation of the connection state machine keeps its invariant. */
module ConnectionInvariant {
  import opened Wrappers
  import Errors
  import opened Connection
  import Requests
  import Collector

  lemma Close2KeepsInv(b: Build, s: BridgeState)
    requires Inv(b, s)
    ensures Inv(b, Close2(s))
  {
    var r := Close2(s);
    assert r.scheduledJobs.Keys <= s.scheduledJobs.Keys;
  }

  lemma FatalErrorKeepsInv(b: Build, s: BridgeState, listener: Errors.ListenerKind, error: Errors.Http2Error)
    requires Inv(b, s)
    ensures Inv(b, FatalError(s, listener, error))
  {
    if FatalErrorInert(s) || listener == Errors.ContentListener {
    } else if error == Errors.GoAway {
      Close2KeepsInv(b, s.(internalRestartScheduled := true, internalRestartTask := Pending));
    } else {
      Close2KeepsInv(b, s);
    }
  }

  lemma FileFatalErrorKeepsInv(b: Build, s: BridgeState, listener: Errors.ListenerKind, error: Errors.Http2Error)
    requires Inv(b, s)
    ensures Inv(b, FileFatalError(b, s, listener, error))
  {
    var r := FileFatalError(b, s, listener, error);
    var id := s.nextJobId;
    var index := if b == AsWritten then |s.fatalErrorTasks| else id;
    forall k | k in r.fatalErrorTasks
      ensures r.fatalErrorTasks[k] in r.scheduledJobs && r.scheduledJobs[r.fatalErrorTasks[k]].index == k
    {
      if k != index {
        assert s.fatalErrorTasks[k] != id;
      }
    }
  }

  lemma RunFatalErrorTaskKeepsInv(b: Build, s: BridgeState, id: nat)
    requires Inv(b, s)
    ensures Inv(b, RunFatalErrorTask(s, id))
  {
    if id in s.scheduledJobs {
      var job := s.scheduledJobs[id];
      var removed := s.(scheduledJobs := s.scheduledJobs - {id});
      var after := FatalError(removed, job.listener, job.error);
      var r := after.(fatalErrorTasks := after.fatalErrorTasks - {job.index});
      if FatalErrorInert(removed) || job.listener == Errors.ContentListener {
        assert after == removed;
        forall k | k in r.fatalErrorTasks
          ensures r.fatalErrorTasks[k] in r.scheduledJobs && r.scheduledJobs[r.fatalErrorTasks[k]].index == k
        {
          assert k in s.fatalErrorTasks && k != job.index;
          assert s.fatalErrorTasks[k] != id;
        }
      } else {
        assert after.fatalErrorTasks == map[];
        var pre := if job.error == Errors.GoAway then removed.(internalRestartScheduled := true, internalRestartTask := Pending) else removed;
        assert after == Close2(pre);
        forall j | j in after.scheduledJobs
          ensures j < after.nextJobId
        {
          assert j in s.scheduledJobs;
        }
      }
    }
  }

  lemma SetExternalRestartScheduledKeepsInv(b: Build, s: BridgeState)
    requires Inv(b, s)
    ensures Inv(b, SetExternalRestartScheduled(s))
  {
    Close2KeepsInv(b, s.(externalRestartScheduled := true, internalRestartScheduled := false, internalRestartTask := NoTask));
  }

  lemma CloseKeepsInv(b: Build, s: BridgeState)
    requires Inv(b, s)
    ensures Inv(b, Close(s))
  {
    Close2KeepsInv(b, s.(closing := true, externalRestartScheduled := false, internalRestartScheduled := false));
  }

  lemma CheckAliveKeepsInv(b: Build, s: BridgeState, now: int)
    requires Inv(b, s)
    ensures Inv(b, RunCheckAliveTask(s, now))
  {
    if s.checkAliveTask && s.onlineState != Closed && s.sessionExpireTime.Some? && now > s.sessionExpireTime.value {
      FatalErrorKeepsInv(b, s, Errors.BridgeSelf, Errors.Timeout);
    }
  }

  lemma OpenSessionKeepsInv(b: Build, s: BridgeState, env: OpenEnv)
    requires Inv(b, s)
    ensures Inv(b, OpenSession(s, env).state)
    ensures OpenSession(s, env).outcome.Returned? ==> OpenSession(s, env).state.http2Session.Some?
  {
    if !(s.http2Session.Some? && !s.http2Session.value.closed) && env.connect == Succeeded {
      var connected := s.(http2Session := Some(Session(false, false)));
      assert Inv(b, connected);
    }
  }

  lemma OpenPassiveKeepsInv(b: Build, s: BridgeState, env: OpenEnv)
    requires Inv(b, s)
    ensures Inv(b, OpenPassive(s, env).state)
  {
    var closed := s.(onlineState := Closed);
    assert Inv(b, closed);
    if env.clientStarts {
      OpenSessionKeepsInv(b, closed, env);
      var reached := OpenSession(closed, env);
      if reached.outcome.Returned? {
        var passive := reached.state.(checkAliveTask := true, onlineState := Passive);
        assert Inv(b, passive);
      }
    }
  }

  lemma OpenEventStreamKeepsInv(b: Build, s: BridgeState, env: OpenEnv)
    requires Inv(b, s)
    ensures Inv(b, OpenEventStream(s, env).state)
    ensures OpenEventStream(s, env).outcome.Returned? ==> OpenEventStream(s, env).state.http2Session.Some?
  {
    if s.http2Session.Some? && !s.http2Session.value.closed && !s.http2Session.value.eventStream {
      var headers := Requests.PrepareGetHeaders(Requests.EventUrl(s.hostName), Requests.SERVER_SENT_EVENTS, s.applicationKey);
      var requested := s.(sent := s.sent + [HeadersOut(headers)]);
      assert Inv(b, requested);
      var tagged := requested.(http2Session := Some(requested.http2Session.value.(eventStream := true)));
      assert Inv(b, tagged);
    }
  }

  lemma OpenActiveKeepsInv(b: Build, s: BridgeState, env: OpenEnv)
    requires Inv(b, s)
    ensures Inv(b, OpenActive(s, env).state)
  {
    OpenEventStreamKeepsInv(b, s, env);
  }

  lemma OpenKeepsInv(b: Build, s: BridgeState, env: OpenEnv)
    requires Inv(b, s)
    ensures Inv(b, Open(s, env).state)
  {
    OpenPassiveKeepsInv(b, s, env);
    var passive := OpenPassive(s, env);
    if passive.outcome.Returned? {
      OpenActiveKeepsInv(b, passive.state, env);
    }
  }

  /** Reopening passively, and then actively when asked to, keeps the invariant. */
  lemma ReopenKeepsInv(b: Build, s: BridgeState, active: bool, env: OpenEnv)
    requires Inv(b, s)
    ensures var passive := OpenPassive(s, env);
            Inv(b, (if passive.outcome.Returned? && active then OpenActive(passive.state, env) else passive).state)
  {
    OpenPassiveKeepsInv(b, s, env);
    var passive := OpenPassive(s, env);
    if passive.outcome.Returned? && active {
      OpenActiveKeepsInv(b, passive.state, env);
    }
  }

  lemma InternalRestartKeepsInv(b: Build, s: BridgeState, active: bool, env: OpenEnv)
    requires Inv(b, s)
    ensures Inv(b, InternalRestart(s, active, env))
  {
    ReopenKeepsInv(b, s, active, env);
    var passive := OpenPassive(s, env);
    var reopened := if passive.outcome.Returned? && active then OpenActive(passive.state, env) else passive;
    var r := InternalRestart(s, active, env);
    if reopened.outcome.Returned? {
      assert r == reopened.state.(internalRestartScheduled := false);
    } else if reopened.outcome.exception.InterruptedException? {
      assert r == reopened.state;
    } else {
      Close2KeepsInv(b, reopened.state.(internalRestartScheduled := false));
      assert r == Close2(reopened.state.(internalRestartScheduled := false));
    }
  }

  lemma RunRestartTaskKeepsInv(b: Build, s: BridgeState, env: OpenEnv)
    requires Inv(b, s)
    ensures Inv(b, RunRestartTask(s, env))
  {
    if s.internalRestartTask == Pending {
      var running := s.(internalRestartTask := Ran);
      assert Inv(b, running);
      InternalRestartKeepsInv(b, running, running.onlineState == Active, env);
    }
  }

  /** A throttle that throws keeps the invariant; one that lets the request through has taken a free permit. */
  lemma ThrottleInKeepsInv(b: Build, s: BridgeState, now: int, interrupt: InterruptPoint)
    requires Inv(b, s)
    ensures var t := ThrottleIn(b, s, now, interrupt);
            && (t.Some? && t.value.outcome.Threw? ==> Inv(b, t.value.state))
            && (t.Some? && t.value.outcome.Returned? ==> s.permits > 0)
  {
    var t := ThrottleIn(b, s, now, interrupt);
    if t.Some? && t.value.outcome.Threw? {
      var r := t.value.state;
      assert r == s.(permits := r.permits, lastRequestTime := r.lastRequestTime);
      if b == Corrected {
        assert r == s;
      } else {
        assert JobsInv(b, r.fatalErrorTasks, r.scheduledJobs, r.nextJobId);
        assert CallsInv(b, r.permits, r.calls, r.nextCallId);
      }
    }
  }

  /** Admitting a call on a permit just taken keeps the invariant. */
  lemma AdmitCallKeepsInv(b: Build, s: BridgeState, kind: CallKind, headers: Requests.HeadersFrame)
    requires Inv(b, s.(permits := s.permits + 1)) && s.permits >= 0
    ensures Inv(b, s.(calls := s.calls[s.nextCallId := kind], nextCallId := s.nextCallId + 1, sent := s.sent + [HeadersOut(headers)]))
  {
    assert s.nextCallId !in s.calls;
    assert |s.calls[s.nextCallId := kind]| == |s.calls| + 1;
  }

  /** A request let through by the throttle is admitted as a call in flight, keeping the invariant. */
  lemma BeginExchangeAdmitsKeepsInv(b: Build, s: BridgeState, kind: CallKind, headers: Requests.HeadersFrame, now: int, interrupt: InterruptPoint)
    requires Inv(b, s) && s.http2Session.Some? && !s.http2Session.value.closed
    requires ThrottleIn(b, s, now, interrupt).Some? && ThrottleIn(b, s, now, interrupt).value.outcome.Returned?
    ensures Inv(b, StateOf(s, BeginExchange(b, s, kind, headers, now, interrupt)))
  {
    var throttled := ThrottleIn(b, s, now, interrupt).value.state;
    assert throttled.(permits := throttled.permits + 1) == s.(lastRequestTime := throttled.lastRequestTime);
    AdmitCallKeepsInv(b, throttled, kind, headers);
    var id := throttled.nextCallId;
    assert StateOf(s, BeginExchange(b, s, kind, headers, now, interrupt))
           == throttled.(calls := throttled.calls[id := kind], nextCallId := id + 1, sent := throttled.sent + [HeadersOut(headers)]);
  }

  lemma BeginExchangeKeepsInv(b: Build, s: BridgeState, kind: CallKind, headers: Requests.HeadersFrame, now: int, interrupt: InterruptPoint)
    requires Inv(b, s)
    ensures Inv(b, StateOf(s, BeginExchange(b, s, kind, headers, now, interrupt)))
  {
    if s.http2Session.Some? && !s.http2Session.value.closed {
      ThrottleInKeepsInv(b, s, now, interrupt);
      var t := ThrottleIn(b, s, now, interrupt);
      if t.Some? && t.value.outcome.Returned? {
        BeginExchangeAdmitsKeepsInv(b, s, kind, headers, now, interrupt);
      } else if t.Some? {
        assert StateOf(s, BeginExchange(b, s, kind, headers, now, interrupt)) == t.value.state;
      }
    }
  }

  lemma CloseOnApiFailureKeepsInv<T>(b: Build, step: Step<T>)
    requires Inv(b, step.state)
    ensures Inv(b, CloseOnApiFailure(step).state)
  {
    if step.outcome.Threw? && !step.outcome.exception.InterruptedException? {
      Close2KeepsInv(b, step.state);
    }
  }

  lemma BeginGetResourcesKeepsInv(b: Build, s: BridgeState, ref: Requests.ResourceReference, wait: RestartWait, now: int, interrupt: InterruptPoint)
    requires Inv(b, s)
    ensures Inv(b, StateOf(s, BeginGetResources(b, s, ref, wait, now, interrupt)))
  {
    match SleepDuringRestart(s, wait)
    case None =>
    case Some(Step(slept, Threw(_))) =>
    case Some(Step(slept, Returned(_))) =>
      if slept.onlineState != Closed {
        BeginExchangeKeepsInv(b, slept, GetResourcesCall, GetHeaders(slept, ref), now, interrupt);
      }
  }

  /** Once the wait is over and the connection is not CLOSED, a PUT is the exchange of its HEADERS frame. */
  lemma PutIsExchange(b: Build, s: BridgeState, ref: Requests.ResourceReference, body: seq<Collector.byte>,
                      wait: RestartWait, now: int, interrupt: InterruptPoint)
    requires s.internalRestartTask != Pending && s.onlineState != Closed
    ensures var t := s.(internalRestartScheduled := false);
            var begun := BeginExchange(b, t, PutResourceCall(body), PutHeaders(t, ref, body), now, interrupt);
            StateOf(s, BeginPutResource(b, s, ref, body, wait, now, interrupt)) == if begun.Some? then begun.value.state else s
  {
    var t := s.(internalRestartScheduled := false);
    var begun := BeginExchange(b, t, PutResourceCall(body), PutHeaders(t, ref, body), now, interrupt);
    if begun.Some? {
      assert StateOf(s, BeginPutResource(b, s, ref, body, wait, now, interrupt)) == begun.value.state;
    }
  }

  lemma BeginPutResourceKeepsInv(b: Build, s: BridgeState, ref: Requests.ResourceReference, body: seq<Collector.byte>,
                                 wait: RestartWait, now: int, interrupt: InterruptPoint)
    requires Inv(b, s)
    ensures Inv(b, StateOf(s, BeginPutResource(b, s, ref, body, wait, now, interrupt)))
  {
    if s.internalRestartTask != Pending && s.onlineState != Closed {
      var t := s.(internalRestartScheduled := false);
      BeginExchangeKeepsInv(b, t, PutResourceCall(body), PutHeaders(t, ref, body), now, interrupt);
      PutIsExchange(b, s, ref, body, wait, now, interrupt);
    } else if s.internalRestartTask != Pending {
      assert StateOf(s, BeginPutResource(b, s, ref, body, wait, now, interrupt)) == s.(internalRestartScheduled := false);
    } else {
      assert StateOf(s, BeginPutResource(b, s, ref, body, wait, now, interrupt)) == s;
    }
  }

  lemma BeginTestConnectionKeepsInv(b: Build, s: BridgeState, env: OpenEnv, now: int, interrupt: InterruptPoint)
    requires Inv(b, s)
    ensures Inv(b, StateOf(s, BeginTestConnection(b, s, env, now, interrupt)))
  {
    OpenPassiveKeepsInv(b, s, env);
    var passive := OpenPassive(s, env);
    if passive.outcome.Threw? {
      CloseOnApiFailureKeepsInv<nat>(b, Step(passive.state, Threw(passive.outcome.exception)));
    } else {
      var t := passive.state;
      BeginExchangeKeepsInv(b, t, TestConnectionCall, GetHeaders(t, BRIDGE), now, interrupt);
      var begun := BeginExchange(b, t, TestConnectionCall, GetHeaders(t, BRIDGE), now, interrupt);
      if begun.Some? {
        CloseOnApiFailureKeepsInv(b, begun.value);
      }
    }
  }

  /** A call that ends gives its permit back: the count of permits and calls is kept. */
  lemma ReleaseKeepsInv(b: Build, s: BridgeState, id: nat)
    requires Inv(b, s) && id in s.calls
    ensures Inv(b, ThrottleDone(s.(calls := s.calls - {id})))
  {
    assert |s.calls - {id}| == |s.calls| - 1;
  }

  lemma EndCallKeepsInv(b: Build, s: BridgeState, id: nat, r: Response)
    requires Inv(b, s)
    ensures Inv(b, StateOf(s, EndCall(s, id, r)))
  {
    if id in s.calls {
      var done := ThrottleDone(s.(calls := s.calls - {id}));
      ReleaseKeepsInv(b, s, id);
      if s.calls[id].TestConnectionCall? {
        CloseOnApiFailureKeepsInv(b, Step(done, GetOutcome(r)));
      }
    }
  }

  /** A session callback keeps the invariant: marking the session closed keeps it present. */
  lemma OnSessionSignalKeepsInv(b: Build, s: BridgeState, signal: Errors.Signal, current: bool)
    requires Inv(b, s)
    ensures Inv(b, OnSessionSignal(b, s, signal, current))
  {
    var ended := if current && signal in {Errors.OnClose, Errors.OnFailure, Errors.OnGoAway} && s.http2Session.Some?
                 then s.(http2Session := Some(s.http2Session.value.(closed := true))) else s;
    var e := Errors.Classify(Errors.SessionListener, signal);
    if e.Some? { FileFatalErrorKeepsInv(b, ended, Errors.SessionListener, e.value); }
  }

  /** A callback of the SSE stream keeps the invariant. */
  lemma OnEventStreamSignalKeepsInv(b: Build, s: BridgeState, signal: Errors.Signal, current: bool)
    requires Inv(b, s)
    ensures Inv(b, OnEventStreamSignal(b, s, signal, current))
  {
    var e := Errors.Classify(Errors.EventListener, signal);
    if e.Some? {
      var ended := if current && s.http2Session.Some? then s.(http2Session := Some(s.http2Session.value.(eventStream := false))) else s;
      FileFatalErrorKeepsInv(b, ended, Errors.EventListener, e.value);
    }
  }

  /** A callback of a GET/PUT stream keeps the invariant. */
  lemma OnContentStreamSignalKeepsInv(b: Build, s: BridgeState, signal: Errors.Signal)
    requires Inv(b, s)
    ensures Inv(b, OnContentStreamSignal(b, s, signal))
  {
    var e := Errors.Classify(Errors.ContentListener, signal);
    if e.Some? { FileFatalErrorKeepsInv(b, s, Errors.ContentListener, e.value); }
  }

  /** A HEADERS frame keeps the invariant. */
  lemma OnHeadersKeepsInv(b: Build, s: BridgeState, listener: Errors.ListenerKind, isResponse: bool, status: int)
    requires Inv(b, s)
    ensures Inv(b, OnHeaders(b, s, listener, isResponse, status))
  {
    var e := Errors.HeaderError(isResponse, status);
    if e.Some? { FileFatalErrorKeepsInv(b, s, listener, e.value); }
  }

  /** Every operation keeps the invariant. */
  lemma LifecycleOpsKeepInv(b: Build, s: BridgeState, op: Op)
    requires Inv(b, s)
    requires op.DoOpen? || op.DoClose? || op.DoSetExternalRestartScheduled? || op.DoRunFatalErrorTask?
             || op.DoRunRestartTask? || op.DoRunCheckAliveTask? || op.DoPing?
    ensures Inv(b, Apply(b, s, op))
  {
    match op
    case DoOpen(env) => OpenKeepsInv(b, s, env);
    case DoClose => CloseKeepsInv(b, s);
    case DoSetExternalRestartScheduled => SetExternalRestartScheduledKeepsInv(b, s);
    case DoRunFatalErrorTask(id) => RunFatalErrorTaskKeepsInv(b, s, id);
    case DoRunRestartTask(env) => RunRestartTaskKeepsInv(b, s, env);
    case DoRunCheckAliveTask(now) => CheckAliveKeepsInv(b, s, now);
    case DoPing(now) => EventDataAndPingKeepInv(b, s, [], 0, now);
  }

  lemma RequestOpsKeepInv(b: Build, s: BridgeState, op: Op)
    requires Inv(b, s)
    requires op.DoBeginGetResources? || op.DoBeginPutResource? || op.DoBeginTestConnection? || op.DoEndCall?
    ensures Inv(b, Apply(b, s, op))
  {
    match op
    case DoBeginGetResources(ref, wait, now, interrupt) => BeginGetResourcesKeepsInv(b, s, ref, wait, now, interrupt);
    case DoBeginPutResource(ref, body, wait, now, interrupt) => BeginPutResourceKeepsInv(b, s, ref, body, wait, now, interrupt);
    case DoBeginTestConnection(env, now, interrupt) => BeginTestConnectionKeepsInv(b, s, env, now, interrupt);
    case DoEndCall(id, response) => EndCallKeepsInv(b, s, id, response);
  }

  /** Event data changes only what the handler is told, and a ping only the session window. */
  lemma EventDataAndPingKeepInv(b: Build, s: BridgeState, data: string, count: nat, now: int)
    requires Inv(b, s)
    ensures Inv(b, OnEventData(s, data, count)) && Inv(b, OnPing(s, now))
  {
  }

  lemma SignalOpsKeepInv(b: Build, s: BridgeState, op: Op)
    requires Inv(b, s)
    requires op.DoSessionSignal? || op.DoEventStreamSignal?
    ensures Inv(b, Apply(b, s, op))
  {
    match op
    case DoSessionSignal(signal, current) => OnSessionSignalKeepsInv(b, s, signal, current);
    case DoEventStreamSignal(signal, current) => OnEventStreamSignalKeepsInv(b, s, signal, current);
  }

  lemma CallbackOpsKeepInv(b: Build, s: BridgeState, op: Op)
    requires Inv(b, s)
    requires op.DoContentStreamSignal? || op.DoHeaders? || op.DoEventData?
    ensures Inv(b, Apply(b, s, op))
  {
    match op
    case DoContentStreamSignal(signal) => OnContentStreamSignalKeepsInv(b, s, signal);
    case DoHeaders(listener, isResponse, status) => OnHeadersKeepsInv(b, s, listener, isResponse, status);
    case DoEventData(data, count) => EventDataAndPingKeepInv(b, s, data, count, 0);
  }

  lemma ApplyKeepsInv(b: Build, s: BridgeState, op: Op)
    requires Inv(b, s)
    ensures Inv(b, Apply(b, s, op))
  {
    if op.DoBeginGetResources? || op.DoBeginPutResource? || op.DoBeginTestConnection? || op.DoEndCall? {
      RequestOpsKeepInv(b, s, op);
    } else if op.DoSessionSignal? || op.DoEventStreamSignal? {
      SignalOpsKeepInv(b, s, op);
    } else if op.DoContentStreamSignal? || op.DoHeaders? || op.DoEventData? {
      CallbackOpsKeepInv(b, s, op);
    } else {
      LifecycleOpsKeepInv(b, s, op);
    }
  }

  /** Every state reachable from a new bridge client satisfies the invariant. */
  lemma {:induction false} RunKeepsInv(b: Build, s: BridgeState, ops: seq<Op>)
    requires Inv(b, s)
    ensures Inv(b, Run(b, s, ops))
    decreases |ops|
  {
    if ops != [] {
      ApplyKeepsInv(b, s, ops[0]);
      RunKeepsInv(b, Apply(b, s, ops[0]), ops[1..]);
    }
  }

  lemma ReachableInv(b: Build, hostName: string, applicationKey: string, ops: seq<Op>)
    ensures Inv(b, Run(b, Init(hostName, applicationKey), ops))
  {
    RunKeepsInv(b, Init(hostName, applicationKey), ops);
  }
}
