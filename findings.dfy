/**
 * Three places where the code does not do what it evidently means to, each shown on a
 * concrete input against the code as written, next to the corrected behaviour the rest of
 * the model uses.
 */
module Findings {
  import opened Wrappers
  import Errors
  import opened Awaiter
  import opened Connection
  import ConnectionInvariant
  import ConnectionLemmas

  // ---------------------------------------------------------------------------------------
  // 1. The request interval: the recorded time is the time before the sleep.

  /** The start times of requests that take the throttle one after another, each released before the next. */
  function Throttles(s: BridgeState, nows: seq<int>): (starts: seq<int>)
    requires s.permits > 0
    ensures |starts| == |nows|
    decreases |nows|
  {
    if nows == [] then []
    else
      var step := Throttle(s, nows[0], NotInterrupted).value;
      [step.outcome.value] + Throttles(ThrottleDone(step.state), nows[1..])
  }

  function ThrottlesAsWritten(s: BridgeState, nows: seq<int>): (starts: seq<int>)
    requires s.permits > 0
    ensures |starts| == |nows|
    decreases |nows|
  {
    if nows == [] then []
    else
      var step := ThrottleAsWritten(s, nows[0], NotInterrupted).value;
      [step.outcome.value] + ThrottlesAsWritten(ThrottleDone(step.state), nows[1..])
  }

  /**
   * As written: a request that waited for the throttle's monitor while another slept can
   * start at the same instant as that one. At 0 ms two requests arrive; the second sleeps
   * until 50 ms holding the monitor; a third gets the monitor at 50 ms, computes no delay
   * from the recorded 0 ms, and starts at 50 ms too.
   */
  lemma ThrottleAsWrittenStartsTogether(hostName: string, applicationKey: string)
    ensures ThrottlesAsWritten(Init(hostName, applicationKey), [0, 0, 50]) == [0, 50, 50]
  {
    var s0 := Init(hostName, applicationKey);
    var s1 := ThrottleDone(ThrottleAsWritten(s0, 0, NotInterrupted).value.state);
    var s2 := ThrottleDone(ThrottleAsWritten(s1, 0, NotInterrupted).value.state);
    assert s1.lastRequestTime == Some(0) && s1.permits == 3;
    assert s2.lastRequestTime == Some(0) && s2.permits == 3;
    assert ThrottlesAsWritten(s2, [50]) == [50];
    assert ThrottlesAsWritten(s1, [0, 50]) == [50, 50] by {
      assert [0, 50][1..] == [50];
    }
    assert [0, 0, 50][1..] == [0, 50];
  }

  /** Corrected, the same arrivals start 50 ms apart. */
  lemma ThrottleSpacesSameArrivals(hostName: string, applicationKey: string)
    ensures Throttles(Init(hostName, applicationKey), [0, 0, 50]) == [0, 50, 100]
  {
    var s0 := Init(hostName, applicationKey);
    var s1 := ThrottleDone(Throttle(s0, 0, NotInterrupted).value.state);
    var s2 := ThrottleDone(Throttle(s1, 0, NotInterrupted).value.state);
    assert s1.lastRequestTime == Some(0) && s1.permits == 3;
    assert s2.lastRequestTime == Some(50) && s2.permits == 3;
    assert Throttles(s2, [50]) == [100];
    assert Throttles(s1, [0, 50]) == [50, 100] by {
      assert [0, 50][1..] == [50];
    }
    assert [0, 0, 50][1..] == [0, 50];
  }

  /**
   * Corrected: requests start no earlier than they arrive, at least the request interval
   * after the previous request, and so n requests span at least (n - 1) intervals.
   */
  lemma {:induction false} ThrottleSpacing(s: BridgeState, nows: seq<int>)
    requires s.permits > 0
    ensures var starts := Throttles(s, nows);
            && (forall i :: 0 <= i < |starts| ==> starts[i] >= nows[i])
            && (forall i :: 0 < i < |starts| ==> starts[i] >= starts[i - 1] + REQUEST_INTERVAL_MILLISECS)
            && (s.lastRequestTime.Some? && |starts| > 0 ==> starts[0] >= s.lastRequestTime.value + REQUEST_INTERVAL_MILLISECS)
            && (|starts| > 0 ==> starts[|starts| - 1] >= starts[0] + (|starts| - 1) * REQUEST_INTERVAL_MILLISECS)
    decreases |nows|
  {
    if nows != [] {
      var step := Throttle(s, nows[0], NotInterrupted).value;
      var next := ThrottleDone(step.state);
      var starts := Throttles(s, nows);
      var rest := Throttles(next, nows[1..]);
      ThrottleSpacing(next, nows[1..]);
      assert starts == [step.outcome.value] + rest;
      assert next.lastRequestTime == Some(starts[0]);
      forall i | 0 < i < |starts|
        ensures starts[i] >= nows[i] && starts[i] >= starts[i - 1] + REQUEST_INTERVAL_MILLISECS
      {
        assert starts[i] == rest[i - 1];
      }
    }
  }

  // ---------------------------------------------------------------------------------------
  // 2. An interrupted sleep in the throttle keeps its permit.

  /** As written: an interrupt while sleeping out the interval throws with the permit still taken, breaking the permit count. */
  lemma ThrottleAsWrittenLeaksPermit(s: BridgeState, now: int)
    requires Inv(Corrected, s) && s.permits > 0
    requires s.lastRequestTime.Some? && now < s.lastRequestTime.value + REQUEST_INTERVAL_MILLISECS
    ensures var r := ThrottleAsWritten(s, now, InSleep);
            && r == Some(Step(s.(permits := s.permits - 1), Threw(InterruptedException)))
            && r.value.state.permits + |r.value.state.calls| == MAX_CONCURRENT_STREAMS - 1
  {
  }

  /**
   * As written: three such interrupts on an idle bridge take every permit for good: with no
   * call left to give one back, every later request blocks for ever.
   */
  lemma LeakedPermitsBlockForever(s: BridgeState, later: int)
    requires Inv(Corrected, s) && s.calls == map[] && s.lastRequestTime == Some(0)
    ensures var s1 := ThrottleAsWritten(s, 0, InSleep).value.state;
            var s2 := ThrottleAsWritten(s1, 0, InSleep).value.state;
            var s3 := ThrottleAsWritten(s2, 0, InSleep).value.state;
            && s3.permits == 0 && s3.calls == map[]
            && ThrottleAsWritten(s3, later, NotInterrupted).None?
            && Throttle(s3, later, NotInterrupted).None?
  {
    assert s.permits == MAX_CONCURRENT_STREAMS;
  }

  /** Corrected: an interrupted sleep gives the permit back, so the state is as before. */
  lemma ThrottleInterruptKeepsPermit(s: BridgeState, now: int)
    requires s.permits > 0
    requires s.lastRequestTime.Some? && now < s.lastRequestTime.value + REQUEST_INTERVAL_MILLISECS
    ensures Throttle(s, now, InSleep) == Some(Step(s, Threw(InterruptedException)))
  {
  }

  // ---------------------------------------------------------------------------------------
  // 3. Fatal-error jobs keyed by the size of the map.

  /** No close requested and no restart scheduled: a fatal error on an open connection closes it and tells the handler. */
  predicate Quiet(s: BridgeState) {
    !s.closing && !s.internalRestartScheduled && !s.externalRestartScheduled
  }

  /** Opening a connection with no session, when everything works: ACTIVE, the jobs untouched, the handler told. */
  lemma OpenWhenAllSucceeds(s: BridgeState, env: OpenEnv)
    requires ConnectionLemmas.AllSucceed(env) && s.http2Session.None?
    ensures var r := Open(s, env);
            && r.outcome.Returned? && r.state.onlineState == Active && r.state.checkAliveTask
            && r.state.sessionExpireTime == Some(env.now + SESSION_WINDOW_MILLISECS)
            && r.state.fatalErrorTasks == s.fatalErrorTasks && r.state.scheduledJobs == s.scheduledJobs
            && r.state.nextJobId == s.nextJobId
            && (Quiet(s) ==> Quiet(r.state))
            && r.state.notifications == s.notifications + [Online]
  {
    var passive := OpenPassive(s, env);
    ConnectionLemmas.OpenPassiveFrame(s, env);
    assert passive.outcome.Returned? && passive.state.http2Session == Some(Session(false, false));
    var active := OpenActive(passive.state, env);
    ConnectionLemmas.OpenActiveFrame(passive.state, env);
    assert active.outcome.Returned?;
  }

  const IDLE_JOB := FatalJob(0, Errors.ContentListener, Errors.Idle)
  const FAILURE_JOB := FatalJob(1, Errors.SessionListener, Errors.Failure)
  const TIMEOUT_JOB := FatalJob(1, Errors.ContentListener, Errors.Timeout)

  /** As written, first two jobs: the idle timeout under key 0, the session failure under key 1. */
  lemma KeysCollideFiling(s0: BridgeState)
    requires s0.fatalErrorTasks == map[] && s0.scheduledJobs == map[]
    ensures var n := s0.nextJobId;
            var s1 := FatalErrorDelayedAsWritten(s0, Errors.ContentListener, Errors.Idle);
            FatalErrorDelayedAsWritten(s1, Errors.SessionListener, Errors.Failure)
              == s0.(fatalErrorTasks := map[0 := n, 1 := n + 1],
                     scheduledJobs := map[n := IDLE_JOB, n + 1 := FAILURE_JOB],
                     nextJobId := n + 2)
  {
    var s1 := FatalErrorDelayedAsWritten(s0, Errors.ContentListener, Errors.Idle);
    assert |s1.fatalErrorTasks| == 1;
  }

  /** As written: the idle timeout's job runs, leaves an ACTIVE connection alone and removes key 0. */
  lemma KeysCollideFirstRun(s0: BridgeState, s2: BridgeState)
    requires Quiet(s0) && s0.onlineState == Active
    requires var n := s0.nextJobId;
             s2 == s0.(fatalErrorTasks := map[0 := n, 1 := n + 1],
                       scheduledJobs := map[n := IDLE_JOB, n + 1 := FAILURE_JOB],
                       nextJobId := n + 2)
    ensures var n := s0.nextJobId;
            RunFatalErrorTask(s2, n)
              == s0.(fatalErrorTasks := map[1 := n + 1],
                     scheduledJobs := map[n + 1 := FAILURE_JOB],
                     nextJobId := n + 2)
  {
    var n := s0.nextJobId;
    assert s2.scheduledJobs - {n} == map[n + 1 := FAILURE_JOB];
    assert s2.fatalErrorTasks - {0} == map[1 := n + 1];
  }

  /** As written: the third job is filed under the map size, 1, and the session failure's entry is gone. */
  lemma KeysCollideOverwrite(s0: BridgeState, s3: BridgeState)
    requires var n := s0.nextJobId;
             s3 == s0.(fatalErrorTasks := map[1 := n + 1],
                       scheduledJobs := map[n + 1 := FAILURE_JOB],
                       nextJobId := n + 2)
    ensures var n := s0.nextJobId;
            FatalErrorDelayedAsWritten(s3, Errors.ContentListener, Errors.Timeout)
              == s3.(fatalErrorTasks := map[1 := n + 2],
                     scheduledJobs := map[n + 1 := FAILURE_JOB, n + 2 := TIMEOUT_JOB],
                     nextJobId := n + 3)
  {
    var n := s0.nextJobId;
    assert |s3.fatalErrorTasks| == 1 by {
      assert s3.fatalErrorTasks == map[1 := n + 1];
    }
    FilingAsWrittenUnder(s3, Errors.ContentListener, Errors.Timeout, 1);
    assert s3.fatalErrorTasks[1 := n + 2] == map[1 := n + 2];
    assert s3.scheduledJobs[n + 2 := TIMEOUT_JOB] == map[n + 1 := FAILURE_JOB, n + 2 := TIMEOUT_JOB];
  }

  /** The as-written filing, for a map of known size. */
  lemma FilingAsWrittenUnder(s: BridgeState, listener: Errors.ListenerKind, error: Errors.Http2Error, size: nat)
    requires |s.fatalErrorTasks| == size
    ensures FatalErrorDelayedAsWritten(s, listener, error)
              == s.(fatalErrorTasks := s.fatalErrorTasks[size := s.nextJobId],
                    scheduledJobs := s.scheduledJobs[s.nextJobId := FatalJob(size, listener, error)],
                    nextJobId := s.nextJobId + 1)
  {
  }

  /** As written: the keep-alive timeout closes the connection, cancelling job n + 2 and not the session failure. */
  lemma KeysCollideClose(s0: BridgeState, s4: BridgeState, late: int)
    requires Quiet(s0) && s0.onlineState == Active && s0.checkAliveTask
    requires s0.sessionExpireTime.Some? && late > s0.sessionExpireTime.value
    requires var n := s0.nextJobId;
             s4 == s0.(fatalErrorTasks := map[1 := n + 2],
                       scheduledJobs := map[n + 1 := FAILURE_JOB, n + 2 := TIMEOUT_JOB],
                       nextJobId := n + 3)
    ensures var s5 := RunCheckAliveTask(s4, late);
            && s5.onlineState == Closed && s5.http2Session.None? && Quiet(s5)
            && s5.scheduledJobs == map[s0.nextJobId + 1 := FAILURE_JOB]
            && s5.notifications == s0.notifications + [Offline]
  {
    var n := s0.nextJobId;
    assert RunCheckAliveTask(s4, late) == Close2(s4);
    assert s4.fatalErrorTasks.Values == {n + 2} by {
      assert s4.fatalErrorTasks[1] == n + 2;
    }
    assert s4.scheduledJobs - {n + 2} == map[n + 1 := FAILURE_JOB];
  }

  /**
   * As written: an ACTIVE connection files a GET stream idle timeout (key 0) and a session
   * failure (key 1); the first job runs and removes key 0; a GET stream timeout is then filed
   * under the map size, 1, replacing the session failure's entry. A keep-alive timeout closes
   * the connection and cancels only the jobs still in the map: the session failure survives.
   */
  lemma FatalErrorKeysCollide(s0: BridgeState, late: int)
    requires Quiet(s0) && s0.onlineState == Active && s0.checkAliveTask
    requires s0.fatalErrorTasks == map[] && s0.scheduledJobs == map[]
    requires s0.sessionExpireTime.Some? && late > s0.sessionExpireTime.value
    ensures var s1 := FatalErrorDelayedAsWritten(s0, Errors.ContentListener, Errors.Idle);
            var s2 := FatalErrorDelayedAsWritten(s1, Errors.SessionListener, Errors.Failure);
            var s3 := RunFatalErrorTask(s2, s0.nextJobId);
            var s4 := FatalErrorDelayedAsWritten(s3, Errors.ContentListener, Errors.Timeout);
            var s5 := RunCheckAliveTask(s4, late);
            && s4.fatalErrorTasks == map[1 := s0.nextJobId + 2]
            && s5.onlineState == Closed && s5.http2Session.None? && Quiet(s5)
            && s5.scheduledJobs == map[s0.nextJobId + 1 := FAILURE_JOB]
            && s5.notifications == s0.notifications + [Offline]
  {
    var s1 := FatalErrorDelayedAsWritten(s0, Errors.ContentListener, Errors.Idle);
    var s2 := FatalErrorDelayedAsWritten(s1, Errors.SessionListener, Errors.Failure);
    KeysCollideFiling(s0);
    var s3 := RunFatalErrorTask(s2, s0.nextJobId);
    KeysCollideFirstRun(s0, s2);
    var s4 := FatalErrorDelayedAsWritten(s3, Errors.ContentListener, Errors.Timeout);
    KeysCollideOverwrite(s0, s3);
    KeysCollideClose(s0, s4, late);
  }

  /**
   * As written, in any reachable state: filing while the map size is a key in use overwrites
   * that entry. The map does not grow, and the job the entry held stays due but is no longer
   * in the map, so no close can cancel it.
   */
  lemma FilingAsWrittenOverwrites(s: BridgeState, listener: Errors.ListenerKind, error: Errors.Http2Error)
    requires Inv(AsWritten, s) && |s.fatalErrorTasks| in s.fatalErrorTasks
    ensures var r := FatalErrorDelayedAsWritten(s, listener, error);
            var displaced := s.fatalErrorTasks[|s.fatalErrorTasks|];
            && |r.fatalErrorTasks| == |s.fatalErrorTasks|
            && displaced in r.scheduledJobs && displaced !in r.fatalErrorTasks.Values
  {
    var r := FatalErrorDelayedAsWritten(s, listener, error);
    var size := |s.fatalErrorTasks|;
    var displaced := s.fatalErrorTasks[size];
    assert r.fatalErrorTasks.Keys == s.fatalErrorTasks.Keys;
    assert |r.fatalErrorTasks.Keys| == |s.fatalErrorTasks.Keys|;
    forall k | k in r.fatalErrorTasks
      ensures r.fatalErrorTasks[k] != displaced
    {
      if k != size {
        assert s.scheduledJobs[s.fatalErrorTasks[k]].index == k;
      }
    }
  }

  /** The surviving job, run once the handler has reopened the connection, closes the new connection. */
  lemma StaleJobClosesReopened(s5: BridgeState, env: OpenEnv, id: nat)
    requires ConnectionLemmas.AllSucceed(env)
    requires s5.http2Session.None? && Quiet(s5)
    requires id in s5.scheduledJobs && s5.scheduledJobs[id] == FAILURE_JOB
    ensures var s6 := Open(s5, env).state;
            var s7 := RunFatalErrorTask(s6, id);
            && s6.onlineState == Active
            && s7.onlineState == Closed
            && s7.notifications == s5.notifications + [Online, Offline]
  {
    OpenWhenAllSucceeds(s5, env);
  }

  /** Corrected: the three filings and the first job's run keep the invariant and leave the connection as it was. */
  lemma KeysDistinctFilings(s0: BridgeState)
    requires Inv(Corrected, s0) && Quiet(s0) && s0.onlineState == Active
    ensures var s1 := FatalErrorDelayed(s0, Errors.ContentListener, Errors.Idle);
            var s2 := FatalErrorDelayed(s1, Errors.SessionListener, Errors.Failure);
            var s3 := RunFatalErrorTask(s2, s0.nextJobId);
            var s4 := FatalErrorDelayed(s3, Errors.ContentListener, Errors.Timeout);
            && Inv(Corrected, s4) && Quiet(s4)
            && s4.(fatalErrorTasks := s0.fatalErrorTasks, scheduledJobs := s0.scheduledJobs, nextJobId := s0.nextJobId) == s0
  {
    var n := s0.nextJobId;
    var s1 := FatalErrorDelayed(s0, Errors.ContentListener, Errors.Idle);
    ConnectionInvariant.FileFatalErrorKeepsInv(Corrected, s0, Errors.ContentListener, Errors.Idle);
    var s2 := FatalErrorDelayed(s1, Errors.SessionListener, Errors.Failure);
    ConnectionInvariant.FileFatalErrorKeepsInv(Corrected, s1, Errors.SessionListener, Errors.Failure);
    var s3 := RunFatalErrorTask(s2, n);
    ConnectionInvariant.RunFatalErrorTaskKeepsInv(Corrected, s2, n);
    assert s2.scheduledJobs[n] == FatalJob(n, Errors.ContentListener, Errors.Idle);
    assert s3 == s2.(scheduledJobs := s2.scheduledJobs - {n}, fatalErrorTasks := s2.fatalErrorTasks - {n});
    ConnectionInvariant.FileFatalErrorKeepsInv(Corrected, s3, Errors.ContentListener, Errors.Timeout);
  }

  /**
   * Corrected: on the same trace every job has a key of its own, so closing cancels the
   * session failure with the rest, and nothing is left to close a reopened connection.
   */
  lemma FatalErrorKeysDistinct(s0: BridgeState, late: int)
    requires Inv(Corrected, s0) && Quiet(s0) && s0.onlineState == Active && s0.checkAliveTask
    requires s0.sessionExpireTime.Some? && late > s0.sessionExpireTime.value
    ensures var s1 := FatalErrorDelayed(s0, Errors.ContentListener, Errors.Idle);
            var s2 := FatalErrorDelayed(s1, Errors.SessionListener, Errors.Failure);
            var s3 := RunFatalErrorTask(s2, s0.nextJobId);
            var s4 := FatalErrorDelayed(s3, Errors.ContentListener, Errors.Timeout);
            var s5 := RunCheckAliveTask(s4, late);
            && s5.onlineState == Closed
            && s5.scheduledJobs == map[]
            && s5.notifications == s0.notifications + [Offline]
  {
    var s1 := FatalErrorDelayed(s0, Errors.ContentListener, Errors.Idle);
    var s2 := FatalErrorDelayed(s1, Errors.SessionListener, Errors.Failure);
    var s3 := RunFatalErrorTask(s2, s0.nextJobId);
    var s4 := FatalErrorDelayed(s3, Errors.ContentListener, Errors.Timeout);
    KeysDistinctFilings(s0);
    SameApartFromJobs(s4, s0);
    ExpiredQuietCheckCloses(s4, late);
    ConnectionLemmas.Close2CancelsEveryJob(s4);
  }

  /** Two states that differ only in their fatal-error jobs agree on everything `close2` and the keep-alive check read. */
  lemma SameApartFromJobs(s: BridgeState, t: BridgeState)
    requires s.(fatalErrorTasks := t.fatalErrorTasks, scheduledJobs := t.scheduledJobs, nextJobId := t.nextJobId) == t
    ensures s.onlineState == t.onlineState && s.checkAliveTask == t.checkAliveTask
    ensures s.sessionExpireTime == t.sessionExpireTime && s.notifications == t.notifications
    ensures Quiet(s) == Quiet(t)
  {
    var back := s.(fatalErrorTasks := t.fatalErrorTasks, scheduledJobs := t.scheduledJobs, nextJobId := t.nextJobId);
    assert back.onlineState == s.onlineState && back.checkAliveTask == s.checkAliveTask;
    assert back.sessionExpireTime == s.sessionExpireTime && back.notifications == s.notifications;
    assert back.closing == s.closing && back.internalRestartScheduled == s.internalRestartScheduled;
    assert back.externalRestartScheduled == s.externalRestartScheduled;
  }

  /** The keep-alive check of an expired ACTIVE connection with no close or restart pending closes it and tells the handler. */
  lemma ExpiredQuietCheckCloses(s: BridgeState, late: int)
    requires Quiet(s) && s.onlineState == Active && s.checkAliveTask
    requires s.sessionExpireTime.Some? && late > s.sessionExpireTime.value
    ensures RunCheckAliveTask(s, late) == Close2(s)
    ensures Close2(s).onlineState == Closed && Close2(s).notifications == s.notifications + [Offline]
  {
  }
}
