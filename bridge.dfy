/**
 * The bridge client as the object it is: a class whose fields the operations update in
 * place. Every method is proved to leave the object in the state the `Connection` function
 * of the same name computes from the state before, so the properties proved of those
 * functions hold of the object; the public operations also keep the connection invariant.
 */
module Bridge {
  import opened Wrappers
  import Errors
  import opened Awaiter
  import opened Requests
  import opened Connection
  import ConnectionInvariant
  import Collector

  /** The step a method that may have to wait describes: None when it cannot begin yet. */
  function Stepped<T>(s: BridgeState, r: Option<Outcome<T>>): Option<Step<T>> {
    if r.None? then None else Some(Step(s, r.value))
  }

  class Clip2Bridge {
    const hostName: string
    const applicationKey: string
    var onlineState: OnlineState
    var closing: bool
    var internalRestartScheduled: bool
    var externalRestartScheduled: bool
    var http2Session: Option<Session>
    var checkAliveTask: bool
    var internalRestartTask: TaskHandle
    var fatalErrorTasks: map<int, nat>
    var scheduledJobs: map<nat, FatalJob>
    var nextJobId: nat
    var sessionExpireTime: Option<int>
    var lastRequestTime: Option<int>
    var permits: int
    var calls: map<nat, CallKind>
    var nextCallId: nat
    var sent: seq<Frame>
    var notifications: seq<Notification>

    /** The object's state as a value. */
    ghost function Snapshot(): BridgeState
      reads this
    {
      BridgeState(hostName, applicationKey, onlineState, closing, internalRestartScheduled, externalRestartScheduled,
                  http2Session, checkAliveTask, internalRestartTask, fatalErrorTasks, scheduledJobs, nextJobId,
                  sessionExpireTime, lastRequestTime, permits, calls, nextCallId, sent, notifications)
    }

    ghost predicate Valid()
      reads this
    {
      Inv(Corrected, Snapshot())
    }

    constructor (hostName: string, applicationKey: string)
      ensures Valid() && Snapshot() == Init(hostName, applicationKey)
    {
      this.hostName := hostName;
      this.applicationKey := applicationKey;
      onlineState := Closed;
      closing := false;
      internalRestartScheduled := false;
      externalRestartScheduled := false;
      http2Session := None;
      checkAliveTask := false;
      internalRestartTask := NoTask;
      fatalErrorTasks := map[];
      scheduledJobs := map[];
      nextJobId := 0;
      sessionExpireTime := None;
      lastRequestTime := None;
      permits := MAX_CONCURRENT_STREAMS;
      calls := map[];
      nextCallId := 0;
      sent := [];
      notifications := [];
    }

    // -------------------------------------------------------------------------------------
    // Closing and fatal errors

    /** Cancels the fatal-error jobs in the map, the restart task unless a restart is current, and the alive check. */
    method CancelTasks()
      modifies this
      ensures Snapshot() == old(Snapshot()).(fatalErrorTasks := map[], scheduledJobs := old(scheduledJobs) - old(fatalErrorTasks).Values,
                                             internalRestartTask := if old(internalRestartScheduled) then old(internalRestartTask) else NoTask,
                                             checkAliveTask := false)
    {
      fatalErrorTasks, scheduledJobs := map[], scheduledJobs - fatalErrorTasks.Values;
      if !internalRestartScheduled {
        internalRestartTask := NoTask;
      }
      checkAliveTask := false;
    }

    /** `close2`: closes the connection and its tasks; the handler hears of it only if the connection was active and nothing else explains the close. */
    method Close2()
      modifies this
      ensures Snapshot() == Connection.Close2(old(Snapshot()))
    {
      var notifyHandler := onlineState == Active && !internalRestartScheduled && !externalRestartScheduled && !closing;
      CancelTasks();
      onlineState, http2Session := Closed, None;
      if notifyHandler {
        notifications := notifications + [Offline];
      }
    }

    method Close()
      requires Valid()
      modifies this
      ensures Valid() && Snapshot() == Connection.Close(old(Snapshot()))
    {
      ghost var before := Snapshot();
      SetFlags(true, false, false, internalRestartTask);
      Close2();
      ConnectionInvariant.CloseKeepsInv(Corrected, before);
    }

    /** Sets the close request, both restart flags and the restart task, and nothing else. */
    method SetFlags(closing: bool, internalRestart: bool, externalRestart: bool, task: TaskHandle)
      modifies this
      ensures Snapshot() == old(Snapshot()).(closing := closing, internalRestartScheduled := internalRestart,
                                             externalRestartScheduled := externalRestart, internalRestartTask := task)
    {
      this.closing, internalRestartScheduled, externalRestartScheduled, internalRestartTask :=
        closing, internalRestart, externalRestart, task;
    }

    method FatalError(listener: Errors.ListenerKind, error: Errors.Http2Error)
      modifies this
      ensures Snapshot() == Connection.FatalError(old(Snapshot()), listener, error)
    {
      if externalRestartScheduled || internalRestartScheduled || onlineState == Closed || closing {
        return;
      }
      if listener == Errors.ContentListener {
        // the caller of a GET or PUT handles the error; the session is still good
      } else if error == Errors.GoAway {
        SetFlags(closing, true, externalRestartScheduled, Pending);
        Close2();
      } else {
        Close2();
      }
    }

    /** Files a fatal-error job under a key of its own (the corrected `fatalErrorDelayed`). */
    method FatalErrorDelayed(listener: Errors.ListenerKind, error: Errors.Http2Error)
      modifies this
      ensures Snapshot() == Connection.FatalErrorDelayed(old(Snapshot()), listener, error)
    {
      var id := nextJobId;
      fatalErrorTasks := fatalErrorTasks[id := id];
      scheduledJobs := scheduledJobs[id := FatalJob(id, listener, error)];
      nextJobId := id + 1;
    }

    method RunFatalErrorTask(id: nat)
      requires Valid()
      modifies this
      ensures Valid() && Snapshot() == Connection.RunFatalErrorTask(old(Snapshot()), id)
    {
      ghost var before := Snapshot();
      ConnectionInvariant.RunFatalErrorTaskKeepsInv(Corrected, before, id);
      if id !in scheduledJobs {
        return;
      }
      var job := TakeJob(id);
      FatalError(job.listener, job.error);
      DropFatalErrorTask(job.index);
    }

    /** The scheduler takes job `id` off the list of jobs due, to run it. */
    method TakeJob(id: nat) returns (job: FatalJob)
      requires id in scheduledJobs
      modifies this
      ensures job == old(scheduledJobs)[id]
      ensures Snapshot() == old(Snapshot()).(scheduledJobs := old(scheduledJobs) - {id})
    {
      job := scheduledJobs[id];
      scheduledJobs := scheduledJobs - {id};
    }

    /** A fatal-error job that has run removes its index from the map. */
    method DropFatalErrorTask(index: int)
      modifies this
      ensures Snapshot() == old(Snapshot()).(fatalErrorTasks := old(fatalErrorTasks) - {index})
    {
      fatalErrorTasks := fatalErrorTasks - {index};
    }

    method SetExternalRestartScheduled()
      requires Valid()
      modifies this
      ensures Valid() && Snapshot() == Connection.SetExternalRestartScheduled(old(Snapshot()))
    {
      ghost var before := Snapshot();
      SetFlags(closing, false, true, NoTask);
      Close2();
      ConnectionInvariant.SetExternalRestartScheduledKeepsInv(Corrected, before);
    }

    // -------------------------------------------------------------------------------------
    // Keep-alive

    method CheckAliveOk(now: int)
      modifies this
      ensures Snapshot() == Connection.CheckAliveOk(old(Snapshot()), now)
    {
      sessionExpireTime := Some(now + SESSION_WINDOW_MILLISECS);
    }

    method CheckAlive(now: int)
      modifies this
      ensures Snapshot() == Connection.CheckAlive(old(Snapshot()), now)
    {
      if onlineState == Closed {
        return;
      }
      if sessionExpireTime.Some? && now > sessionExpireTime.value {
        FatalError(Errors.BridgeSelf, Errors.Timeout);
      }
    }

    method RunCheckAliveTask(now: int)
      requires Valid()
      modifies this
      ensures Valid() && Snapshot() == Connection.RunCheckAliveTask(old(Snapshot()), now)
    {
      ghost var before := Snapshot();
      if checkAliveTask {
        CheckAlive(now);
      }
      ConnectionInvariant.CheckAliveKeepsInv(Corrected, before, now);
    }

    method OnPing(now: int)
      requires Valid()
      modifies this
      ensures Valid() && Snapshot() == Connection.OnPing(old(Snapshot()), now)
    {
      CheckAliveOk(now);
    }

    // -------------------------------------------------------------------------------------
    // Opening

    method OpenSession(env: OpenEnv) returns (outcome: Outcome<()>)
      modifies this
      ensures Step(Snapshot(), outcome) == Connection.OpenSession(old(Snapshot()), env)
    {
      if http2Session.Some? && !http2Session.value.closed {
        return Returned(());
      }
      match env.connect
      case Succeeded =>
        http2Session := Some(Session(false, false));
        CheckAliveOk(env.now);
        outcome := Returned(());
      case Failed =>
        outcome := Threw(ApiException("Error opening HTTP 2 session"));
      case Interrupted =>
        outcome := Threw(InterruptedException);
    }

    method OpenPassive(env: OpenEnv) returns (outcome: Outcome<()>)
      modifies this
      ensures Step(Snapshot(), outcome) == Connection.OpenPassive(old(Snapshot()), env)
    {
      SetOnlineState(Closed, checkAliveTask);
      if !env.clientStarts {
        return Threw(ApiException("Error starting HTTP/2 client"));
      }
      outcome := OpenSession(env);
      if outcome.Threw? {
        return;
      }
      SetOnlineState(Passive, true);
    }

    /** Sets the online state and whether the alive check is scheduled, and nothing else. */
    method SetOnlineState(state: OnlineState, checkAlive: bool)
      modifies this
      ensures Snapshot() == old(Snapshot()).(onlineState := state, checkAliveTask := checkAlive)
    {
      onlineState, checkAliveTask := state, checkAlive;
    }

    method OpenEventStream(env: OpenEnv) returns (outcome: Outcome<()>)
      modifies this
      ensures Step(Snapshot(), outcome) == Connection.OpenEventStream(old(Snapshot()), env)
    {
      if http2Session.None? || http2Session.value.closed {
        return Threw(ApiException("HTTP 2 session is null or closed"));
      }
      if http2Session.value.eventStream {
        return Returned(());
      }
      var headers := PrepareGetHeaders(EventUrl(hostName), SERVER_SENT_EVENTS, applicationKey);
      sent := sent + [HeadersOut(headers)];
      match env.streamOpen
      case Failed =>
        outcome := Threw(ApiException("Error opening event stream"));
      case Interrupted =>
        outcome := Threw(InterruptedException);
      case Succeeded =>
        var session := http2Session.value;
        http2Session := Some(session.(eventStream := true));
        match Await(env.firstMessage, env.interruptedWaiting)
        case Got(_) =>
          outcome := Returned(());
        case WaitInterrupted =>
          outcome := Threw(InterruptedException);
        case _ =>
          // the stream is reset
          http2Session := Some(session);
          outcome := Threw(ApiException("Error opening event stream"));
    }

    method OpenActive(env: OpenEnv) returns (outcome: Outcome<()>)
      modifies this
      ensures Step(Snapshot(), outcome) == Connection.OpenActive(old(Snapshot()), env)
    {
      outcome := OpenEventStream(env);
      if outcome.Returned? {
        onlineState := Active;
      }
    }

    method Open(env: OpenEnv) returns (outcome: Outcome<()>)
      requires Valid()
      modifies this
      ensures Valid() && Step(Snapshot(), outcome) == Connection.Open(old(Snapshot()), env)
    {
      ghost var before := Snapshot();
      ConnectionInvariant.OpenKeepsInv(Corrected, before, env);
      outcome := OpenPassive(env);
      if outcome.Threw? {
        return;
      }
      outcome := OpenActive(env);
      if outcome.Threw? {
        return;
      }
      notifications := notifications + [Online];
    }

    method InternalRestart(active: bool, env: OpenEnv)
      modifies this
      ensures Snapshot() == Connection.InternalRestart(old(Snapshot()), active, env)
    {
      var outcome := OpenPassive(env);
      if outcome.Returned? && active {
        outcome := OpenActive(env);
      }
      if outcome.Returned? {
        SetFlags(closing, false, externalRestartScheduled, internalRestartTask);
      } else if outcome.exception != InterruptedException {
        SetFlags(closing, false, externalRestartScheduled, internalRestartTask);
        Close2();
      }
    }

    method RunRestartTask(env: OpenEnv)
      requires Valid()
      modifies this
      ensures Valid() && Snapshot() == Connection.RunRestartTask(old(Snapshot()), env)
    {
      ghost var before := Snapshot();
      ConnectionInvariant.RunRestartTaskKeepsInv(Corrected, before, env);
      if internalRestartTask != Pending {
        return;
      }
      internalRestartTask := Ran;
      InternalRestart(onlineState == Active, env);
    }

    // -------------------------------------------------------------------------------------
    // Requests

    method SleepDuringRestart(wait: RestartWait) returns (r: Option<Outcome<()>>)
      modifies this
      ensures Stepped(Snapshot(), r) == Connection.SleepDuringRestart(old(Snapshot()), wait)
      ensures r.None? ==> Snapshot() == old(Snapshot())
    {
      if internalRestartTask == Pending {
        match wait
        case UntilTaskRuns =>
          return None;
        case WaitTimesOut =>
          return Some(Threw(ApiException("sleepDuringRestart() error")));
        case WaitInterrupted =>
          return Some(Threw(InterruptedException));
        case WaitCancelled =>
          return Some(Threw(CancellationException));
      }
      internalRestartScheduled := false;
      r := Some(Returned(()));
    }

    /** Takes a stream permit and spaces the request (the corrected `throttle`); the value returned is the start time. */
    method Throttle(now: int, interrupt: InterruptPoint) returns (r: Option<Outcome<int>>)
      modifies this
      ensures Stepped(Snapshot(), r) == Connection.Throttle(old(Snapshot()), now, interrupt)
      ensures r.None? ==> Snapshot() == old(Snapshot())
    {
      if interrupt == InAcquire {
        return Some(Threw(InterruptedException));
      }
      if permits <= 0 {
        // no permit is free: the caller cannot go on until one is released
        return None;
      }
      permits := permits - 1;
      var delay := ThrottleDelay(lastRequestTime, now);
      var start := now;
      if delay > 0 {
        if interrupt == InSleep {
          permits := permits + 1;
          return Some(Threw(InterruptedException));
        }
        start := now + delay;
      }
      lastRequestTime := Some(start);
      r := Some(Returned(start));
    }

    method ThrottleDone()
      modifies this
      ensures Snapshot() == Connection.ThrottleDone(old(Snapshot()))
    {
      permits := permits + 1;
    }

    method BeginExchange(kind: CallKind, headers: HeadersFrame, now: int, interrupt: InterruptPoint) returns (r: Option<Outcome<nat>>)
      modifies this
      ensures Stepped(Snapshot(), r) == Connection.BeginExchange(Corrected, old(Snapshot()), kind, headers, now, interrupt)
      ensures r.None? ==> Snapshot() == old(Snapshot())
    {
      if http2Session.None? || http2Session.value.closed {
        return Some(Threw(ApiException("HTTP 2 session is null or closed")));
      }
      var throttled := Throttle(now, interrupt);
      match throttled
      case None =>
        r := None;
      case Some(Threw(e)) =>
        r := Some(Threw(e));
      case Some(Returned(_)) =>
        var id := AddCall(kind, headers);
        r := Some(Returned(id));
    }

    /** Puts a call in flight under a fresh id and sends its HEADERS frame. */
    method AddCall(kind: CallKind, headers: HeadersFrame) returns (id: nat)
      modifies this
      ensures id == old(nextCallId)
      ensures Snapshot() == old(Snapshot()).(calls := old(calls)[id := kind], nextCallId := id + 1,
                                             sent := old(sent) + [HeadersOut(headers)])
    {
      id := nextCallId;
      calls := calls[id := kind];
      nextCallId := id + 1;
      sent := sent + [HeadersOut(headers)];
    }

    /**
     * `getResources` up to sending its request; None: it has to wait for the restart task
     * or for a permit, and the state is what it was when it started to wait.
     */
    method BeginGetResources(ref: ResourceReference, wait: RestartWait, now: int, interrupt: InterruptPoint)
      returns (r: Option<Outcome<nat>>)
      requires Valid()
      modifies this
      ensures Valid()
      ensures Stepped(Snapshot(), r) == Connection.BeginGetResources(Corrected, old(Snapshot()), ref, wait, now, interrupt)
      ensures r.None? ==> Snapshot() == StateOf(old(Snapshot()), Connection.SleepDuringRestart(old(Snapshot()), wait))
    {
      ghost var before := Snapshot();
      ConnectionInvariant.BeginGetResourcesKeepsInv(Corrected, before, ref, wait, now, interrupt);
      var slept := SleepDuringRestart(wait);
      if slept.None? {
        return None;
      }
      if slept.value.Threw? {
        return Some(Threw(slept.value.exception));
      }
      if onlineState == Closed {
        return Some(Threw(ApiException("getResources() offline")));
      }
      var headers := PrepareGetHeaders(GetUrl(hostName, ref), APPLICATION_JSON, applicationKey);
      r := BeginExchange(GetResourcesCall, headers, now, interrupt);
    }

    /** `putResource` up to sending its HEADERS frame; Some(Returned(None)) when CLOSED, where nothing is sent. */
    method BeginPutResource(ref: ResourceReference, body: seq<Collector.byte>, wait: RestartWait, now: int,
                            interrupt: InterruptPoint) returns (r: Option<Outcome<Option<nat>>>)
      requires Valid()
      modifies this
      ensures Valid()
      ensures Stepped(Snapshot(), r) == Connection.BeginPutResource(Corrected, old(Snapshot()), ref, body, wait, now, interrupt)
      ensures r.None? ==> Snapshot() == StateOf(old(Snapshot()), Connection.SleepDuringRestart(old(Snapshot()), wait))
    {
      ghost var before := Snapshot();
      ConnectionInvariant.BeginPutResourceKeepsInv(Corrected, before, ref, body, wait, now, interrupt);
      var slept := SleepDuringRestart(wait);
      if slept.None? {
        return None;
      }
      if slept.value.Threw? {
        return Some(Threw(slept.value.exception));
      }
      if onlineState == Closed {
        return Some(Returned(None));
      }
      var headers := PrepareHeaders(GetUrl(hostName, ref), APPLICATION_JSON, "PUT", |body|, Some(APPLICATION_JSON), applicationKey);
      var begun := BeginExchange(PutResourceCall(body), headers, now, interrupt);
      match begun
      case None =>
        r := None;
      case Some(Threw(e)) =>
        r := Some(Threw(e));
      case Some(Returned(id)) =>
        r := Some(Returned(Some(id)));
    }

    /**
     * `testConnectionState` up to sending its request; an API failure closes the connection.
     * None: it has to wait for a permit, after the connection has been opened passively.
     */
    method BeginTestConnection(env: OpenEnv, now: int, interrupt: InterruptPoint) returns (r: Option<Outcome<nat>>)
      requires Valid()
      modifies this
      ensures Valid()
      ensures r.Some? ==> Connection.BeginTestConnection(Corrected, old(Snapshot()), env, now, interrupt) == Some(Step(Snapshot(), r.value))
      ensures r.None? ==> Connection.BeginTestConnection(Corrected, old(Snapshot()), env, now, interrupt).None?
                           && Snapshot() == Connection.OpenPassive(old(Snapshot()), env).state
    {
      ghost var before := Snapshot();
      ConnectionInvariant.BeginTestConnectionKeepsInv(Corrected, before, env, now, interrupt);
      ConnectionInvariant.OpenPassiveKeepsInv(Corrected, before, env);
      var passive := OpenPassive(env);
      if passive.Threw? {
        if !passive.exception.InterruptedException? {
          Close2();
        }
        return Some(Threw(passive.exception));
      }
      var headers := PrepareGetHeaders(GetUrl(hostName, BRIDGE), APPLICATION_JSON, applicationKey);
      r := BeginExchange(TestConnectionCall, headers, now, interrupt);
      if r.Some? && r.value.Threw? && !r.value.exception.InterruptedException? {
        Close2();
      }
    }

    /** The rest of call `id`: the PUT body, the response, the permit given back, and for a failed test the close. */
    method CompleteCall(id: nat, response: Response) returns (r: Option<Outcome<Option<string>>>)
      modifies this
      ensures Stepped(Snapshot(), r) == Connection.EndCall(old(Snapshot()), id, response)
      ensures r.None? ==> Snapshot() == old(Snapshot())
    {
      if id !in calls {
        return None;
      }
      var kind := TakeCall(id);
      match kind
      case GetResourcesCall =>
        ThrottleDone();
        r := Some(GetOutcome(response));
      case TestConnectionCall =>
        ThrottleDone();
        var outcome := GetOutcome(response);
        if outcome.Threw? && !outcome.exception.InterruptedException? {
          Close2();
        }
        r := Some(outcome);
      case PutResourceCall(body) =>
        if response.streamOpen == Succeeded {
          sent := sent + [DataOut(body)];
        }
        ThrottleDone();
        r := Some(PutOutcome(response));
    }

    /** Call `id` is no longer in flight. */
    method TakeCall(id: nat) returns (kind: CallKind)
      requires id in calls
      modifies this
      ensures kind == old(calls)[id]
      ensures Snapshot() == old(Snapshot()).(calls := old(calls) - {id})
    {
      kind := calls[id];
      calls := calls - {id};
    }

    /** A call in flight ends; the connection invariant is kept. */
    method EndCall(id: nat, response: Response) returns (r: Option<Outcome<Option<string>>>)
      requires Valid()
      modifies this
      ensures Valid()
      ensures Stepped(Snapshot(), r) == Connection.EndCall(old(Snapshot()), id, response)
      ensures r.None? ==> Snapshot() == old(Snapshot())
    {
      ConnectionInvariant.EndCallKeepsInv(Corrected, Snapshot(), id, response);
      r := CompleteCall(id, response);
    }

    // -------------------------------------------------------------------------------------
    // Listener events

    method OnEventData(data: string, resourceCount: nat)
      requires Valid()
      modifies this
      ensures Valid() && Snapshot() == Connection.OnEventData(old(Snapshot()), data, resourceCount)
    {
      if onlineState != Active {
        return;
      }
      if resourceCount == 0 {
        return;
      }
      notifications := notifications + [ResourcesEvent(data, resourceCount)];
    }

    /** A callback of a session listener; `current` tells whether it is the listener of the present session. */
    method OnSessionSignal(signal: Errors.Signal, current: bool)
      requires Valid()
      modifies this
      ensures Valid() && Snapshot() == Connection.OnSessionSignal(Corrected, old(Snapshot()), signal, current)
    {
      if current && signal in {Errors.OnClose, Errors.OnFailure, Errors.OnGoAway} && http2Session.Some? {
        http2Session := Some(http2Session.value.(closed := true));
      }
      var error := Errors.Classify(Errors.SessionListener, signal);
      if error.Some? {
        ConnectionInvariant.FileFatalErrorKeepsInv(Corrected, Snapshot(), Errors.SessionListener, error.value);
        FatalErrorDelayed(Errors.SessionListener, error.value);
      }
    }

    /** A callback of an SSE stream listener; `current` tells whether the stream belongs to the present session. */
    method OnEventStreamSignal(signal: Errors.Signal, current: bool)
      requires Valid()
      modifies this
      ensures Valid() && Snapshot() == Connection.OnEventStreamSignal(Corrected, old(Snapshot()), signal, current)
    {
      var error := Errors.Classify(Errors.EventListener, signal);
      if error.Some? {
        if current && http2Session.Some? {
          http2Session := Some(http2Session.value.(eventStream := false));
        }
        ConnectionInvariant.FileFatalErrorKeepsInv(Corrected, Snapshot(), Errors.EventListener, error.value);
        FatalErrorDelayed(Errors.EventListener, error.value);
      }
    }

    method OnContentStreamSignal(signal: Errors.Signal)
      requires Valid()
      modifies this
      ensures Valid() && Snapshot() == Connection.OnContentStreamSignal(Corrected, old(Snapshot()), signal)
    {
      var error := Errors.Classify(Errors.ContentListener, signal);
      if error.Some? {
        ConnectionInvariant.FileFatalErrorKeepsInv(Corrected, Snapshot(), Errors.ContentListener, error.value);
        FatalErrorDelayed(Errors.ContentListener, error.value);
      }
    }

    method OnHeaders(listener: Errors.ListenerKind, isResponse: bool, status: int)
      requires Valid()
      modifies this
      ensures Valid() && Snapshot() == Connection.OnHeaders(Corrected, old(Snapshot()), listener, isResponse, status)
    {
      var error := Errors.HeaderError(isResponse, status);
      if error.Some? {
        ConnectionInvariant.FileFatalErrorKeepsInv(Corrected, Snapshot(), listener, error.value);
        FatalErrorDelayed(listener, error.value);
      }
    }
  }
}
