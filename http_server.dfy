/** The server lifecycle: a stopping flag and an in-flight request counter.
    Admission is refused once stopping; every admitted request is counted in
    and out; shutdown closes the server only when no request is in flight,
    and the run loop retries it until it does. Threads, the mutex and the
    atomic loads and stores are left out: the model is the sequential state. */
module HttpServer {
  import opened Common
  import Response

  /** The session counter. */
  class Counter {
    var sessionCount: int32

    constructor ()
      ensures sessionCount == 0
    {
      sessionCount := 0;
    }

    /** `incr`: one more request in flight (`int32` arithmetic). */
    method Incr()
      modifies this
      ensures sessionCount == Wrap32(old(sessionCount) as int + 1)
    {
      sessionCount := Wrap32(sessionCount as int + 1);
    }

    /** `decr`: one request fewer in flight (`int32` arithmetic). */
    method Decr()
      modifies this
      ensures sessionCount == Wrap32(old(sessionCount) as int - 1)
    {
      sessionCount := Wrap32(sessionCount as int - 1);
    }
  }

  /** The counter's unit scenario: 0 after creation, 1 after `incr`, 0 after `decr`. */
  method CounterScenario() returns (initial: int32, afterIncr: int32, afterDecr: int32)
    ensures initial == 0 && afterIncr == 1 && afterDecr == 0
  {
    var count := new Counter();
    initial := count.sessionCount;
    count.Incr();
    afterIncr := count.sessionCount;
    count.Decr();
    afterDecr := count.sessionCount;
  }

  const RejectionBody := "server is shutdowning now."

  const ShutdownFailedPrefix := "server shutdown failed, cur-session count:"
  const ShutdownFailedSuffix := ", shutdown will be success when wait session-count is 0."

  /** The error `Shutdown` reports while requests are in flight. */
  function ShutdownFailedMessage(sessionCount: int32): (msg: string)
    ensures "server shutdown failed" <= msg
  {
    var count := IntToString(sessionCount as int);
    assert "server shutdown failed" <= ShutdownFailedPrefix;
    ShutdownFailedPrefix + (count + ShutdownFailedSuffix)
  }

  /** The refusal names the session count: it reads back from between the
      message's fixed prefix and suffix. */
  lemma ShutdownFailedMessageNamesCount(sessionCount: int32)
    ensures var msg := ShutdownFailedMessage(sessionCount);
            && ShutdownFailedPrefix <= msg && |msg| >= |ShutdownFailedPrefix| + |ShutdownFailedSuffix|
            && msg[|msg| - |ShutdownFailedSuffix|..] == ShutdownFailedSuffix
            && ParseInt(msg[|ShutdownFailedPrefix|..|msg| - |ShutdownFailedSuffix|]) == sessionCount as int
  {
    var msg := ShutdownFailedMessage(sessionCount);
    assert msg[|ShutdownFailedPrefix|..|msg| - |ShutdownFailedSuffix|] == IntToString(sessionCount as int);
    IntToStringRoundTrip(sessionCount as int);
  }

  /** The pre-handler's decision on a request. */
  datatype Admission = Admitted | Rejected(status: int, body: string)

  /** One round of the run loop: what closing the listener reports if it is
      tried, and how many in-flight requests finish during the following sleep. */
  datatype Attempt = Attempt(closeError: Option<string>, finished: nat)

  /** How a run of the loop ends: whether shutdown succeeded, after how many
      attempts, and the session count left. */
  datatype DrainOutcome = DrainOutcome(stopped: bool, attempts: nat, sessions: int)

  /** How many requests finish during rounds `from` up to (not including) `to`. */
  function Finished(schedule: seq<Attempt>, from: nat, to: nat): nat
    requires from <= to <= |schedule|
    decreases |schedule| - from
  {
    if from == to then 0 else schedule[from].finished + Finished(schedule, from + 1, to)
  }

  /** The run loop from round `k` on, with `sessions` requests in flight: an
      attempt succeeds when no request is in flight and closing the listener
      reports no error; otherwise the loop sleeps while some requests finish,
      and tries again. Attempts are counted from round 0. */
  function Drain(sessions: int, schedule: seq<Attempt>, k: nat): (r: DrainOutcome)
    requires k <= |schedule|
    ensures k <= r.attempts <= |schedule|
    ensures r.stopped ==> k < r.attempts && r.sessions <= 0 && schedule[r.attempts - 1].closeError.None?
    ensures !r.stopped ==> r.attempts == |schedule| && r.sessions == sessions - Finished(schedule, k, |schedule|)
    ensures r.stopped ==> r.sessions == sessions - Finished(schedule, k, r.attempts - 1)
    decreases |schedule| - k
  {
    if k == |schedule| then DrainOutcome(false, k, sessions)
    else if sessions <= 0 && schedule[k].closeError.None? then DrainOutcome(true, k + 1, sessions)
    else Drain(sessions - schedule[k].finished, schedule, k + 1)
  }

  /** Shutdown only ever succeeds at the instant the session count is exactly
      zero, when requests finish only while they are in flight. */
  lemma {:induction false} DrainStopsOnlyWhenIdle(sessions: int, schedule: seq<Attempt>, k: nat)
    requires k <= |schedule|
    requires 0 <= sessions && Finished(schedule, k, |schedule|) <= sessions
    ensures Drain(sessions, schedule, k).stopped ==> Drain(sessions, schedule, k).sessions == 0
    decreases |schedule| - k
  {
    if k < |schedule| && !(sessions <= 0 && schedule[k].closeError.None?) {
      DrainStopsOnlyWhenIdle(sessions - schedule[k].finished, schedule, k + 1);
    }
  }

  /** The loop stops at its first chance: if by round `j` every request in
      flight has finished and closing the listener in that round succeeds,
      the loop has stopped by then, at that round or an earlier one. */
  lemma {:induction false} DrainCompletes(sessions: int, schedule: seq<Attempt>, k: nat, j: nat)
    requires k <= j < |schedule|
    requires sessions - Finished(schedule, k, j) <= 0 && schedule[j].closeError.None?
    ensures Drain(sessions, schedule, k).stopped && Drain(sessions, schedule, k).attempts <= j + 1
    decreases j - k
  {
    if k < j && !(sessions <= 0 && schedule[k].closeError.None?) {
      DrainCompletes(sessions - schedule[k].finished, schedule, k + 1, j);
    }
  }

  class HttpServer {
    /** 1 once shutdown has begun; new requests are then rejected. */
    var Stopping: int32
    const counter: Counter
    /** The underlying `http.Server` has been closed. */
    var Closed: bool

    constructor ()
      ensures Stopping == 0 && !Closed
      ensures fresh(counter) && counter.sessionCount == 0
    {
      Stopping := 0;
      Closed := false;
      counter := new Counter();
    }

    /** `Shutdown`: always marks the server stopping; fails while requests
        are in flight, and otherwise closes the server and reports what
        closing reported. */
    method Shutdown(closeError: Option<string>) returns (err: Option<string>)
      modifies this
      ensures Stopping == 1
      ensures counter.sessionCount > 0 ==> err == Some(ShutdownFailedMessage(counter.sessionCount)) && Closed == old(Closed)
      ensures counter.sessionCount <= 0 ==> err == closeError && Closed
    {
      Stopping := 1;
      var sessionCount := counter.sessionCount;
      if sessionCount > 0 {
        return Some(ShutdownFailedMessage(sessionCount));
      }
      Closed := true;
      err := closeError;
    }

    /** `counterPreHandlerFunc`: rejects with 503 when stopping, leaving the
        counter alone; otherwise counts the request in. */
    method CounterPreHandler() returns (admission: Admission)
      modifies counter
      ensures Stopping == 1 ==> admission == Rejected(Response.StatusServiceUnavailable, RejectionBody)
      ensures Stopping == 1 ==> counter.sessionCount == old(counter.sessionCount)
      ensures Stopping != 1 ==> admission == Admitted && counter.sessionCount == Wrap32(old(counter.sessionCount) as int + 1)
    {
      if Stopping == 1 {
        return Rejected(Response.StatusServiceUnavailable, RejectionBody);
      }
      counter.Incr();
      admission := Admitted;
    }

    /** `counterPostHandlerFunc`: counts the request out after the handler. */
    method CounterPostHandler()
      modifies counter
      ensures counter.sessionCount == Wrap32(old(counter.sessionCount) as int - 1)
    {
      counter.Decr();
    }

    /** One request through the middleware chain: the post-handler runs only
        for an admitted request, so the count is the same afterwards whether
        the request was admitted or rejected. */
    method HandleRequest() returns (admission: Admission)
      modifies counter
      ensures counter.sessionCount == old(counter.sessionCount)
      ensures admission.Admitted? <==> Stopping != 1
    {
      admission := CounterPreHandler();
      if admission.Admitted? {
        // the routed handler runs here
        CounterPostHandler();
        IncrDecrRestores(old(counter.sessionCount));
      }
    }

    /** `finished` in-flight requests complete, each counted out by its
        post-handler. */
    method FinishRequests(finished: nat)
      requires finished <= counter.sessionCount as int
      modifies counter
      ensures counter.sessionCount as int == old(counter.sessionCount) as int - finished
    {
      var j := 0;
      while j < finished
        invariant 0 <= j <= finished
        invariant counter.sessionCount as int == old(counter.sessionCount) as int - j
      {
        CounterPostHandler();
        j := j + 1;
      }
    }

    /** `Run` after its context is cancelled: attempt shutdown, and on failure
        sleep while some in-flight requests finish (counted out by their
        post-handlers), then attempt again. The schedule bounds the rounds
        observed; requests finish only while in flight. */
    method Run(schedule: seq<Attempt>) returns (stopped: bool, attempts: nat)
      requires 0 <= counter.sessionCount
      requires Finished(schedule, 0, |schedule|) <= counter.sessionCount as int
      modifies this, counter
      ensures DrainOutcome(stopped, attempts, counter.sessionCount as int) == Drain(old(counter.sessionCount) as int, schedule, 0)
      ensures stopped ==> Closed
      ensures |schedule| > 0 ==> Stopping == 1
    {
      ghost var initial := counter.sessionCount as int;
      var k := 0;
      while k < |schedule|
        invariant 0 <= k <= |schedule|
        invariant 0 <= counter.sessionCount
        invariant Finished(schedule, k, |schedule|) <= counter.sessionCount as int
        invariant Drain(initial, schedule, 0) == Drain(counter.sessionCount as int, schedule, k)
        invariant k > 0 ==> Stopping == 1
      {
        var err := Shutdown(schedule[k].closeError);
        if err.None? {
          return true, k + 1;
        }
        // the 100ms sleep, during which some in-flight requests finish
        FinishRequests(schedule[k].finished);
        k := k + 1;
      }
      stopped, attempts := false, k;
    }
  }

  /** The server's unit scenario: with one request in flight the count is 1
      and shutdown fails with "server shutdown failed"; once the request ends
      the count is 0 and shutdown succeeds. */
  method ShutdownScenario() returns (during: int32, first: Option<string>, after: int32, second: Option<string>)
    ensures during == 1 && first.Some? && "server shutdown failed" <= first.value
    ensures after == 0 && second == None
  {
    var server := new HttpServer();
    var admission := server.CounterPreHandler();
    during := server.counter.sessionCount;
    first := server.Shutdown(None);
    server.CounterPostHandler();
    after := server.counter.sessionCount;
    second := server.Shutdown(None);
  }
}
