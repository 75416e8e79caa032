/**
 * The two-phase task dispatcher of the engine's executor client
 * (engine/client/task_dispatcher.go).
 *
 * A worker is handed to an executor in two phases: a pre-dispatch request,
 * retried at a fixed interval until it succeeds, fails for good or would
 * overrun the caller's deadline, then a confirm-dispatch request that is sent
 * exactly once. Two caller callbacks, startWorkerTimer and abortWorker, fire
 * in a fixed order around the phases.
 *
 * What the dispatcher cannot see is an input here: the executor's replies and
 * the fresh request IDs come from a script, the clock is an integer
 * (milliseconds) that only the retry wait advances, and the context is a value
 * that says when it is cancelled and when its deadline passes.
 */
module EngineClient {
  import opened Wrappers

  /** The fixed pre-dispatch retry interval, one second on the model's millisecond clock. */
  const PreDispatchTaskRetryInterval: nat := 1000

  type RequestId = string

  /** The gRPC status codes the dispatcher tells apart; OtherCode stands for every remaining code. */
  datatype Code = Aborted | AlreadyExists | NotFound | OtherCode

  /** Why a send failed: an error that carries no gRPC status (transport, network), or a status code. */
  datatype SendFailure = Transport | Status(code: Code)

  /** The executor's answer to one request; the response bodies are empty, so success carries nothing. */
  datatype SendOutcome = Ok | Fail(failure: SendFailure)

  /** The two errors a done context reports. */
  datatype CtxErr = Canceled | DeadlineExceeded

  /** The errors the dispatcher returns, each kept as the kind of error and what it wraps. */
  datatype Error =
    | Remote(failure: SendFailure)         // the send error, only traced
    | Ctx(ctxErr: CtxErr)                  // ctx.Err()
    | WouldExceedDeadline                  // context.DeadlineExceeded, annotated "would exceed deadline if waiting"
    | PreDispatchFailed(cause: Error)      // wrapped in ErrExecutorPreDispatchFailed
    | ConfirmDispatchFailed(cause: Error)  // wrapped in ErrExecutorConfirmDispatchFailed

  /**
   * A context on the integer clock: an optional deadline and the optional
   * moment it is cancelled. It is done from the earlier of the two on.
   */
  datatype Context = Context(deadline: Option<int>, cancelAt: Option<int>)
  {
    predicate CanceledBy(t: int) {
      cancelAt.Some? && cancelAt.value <= t
    }

    predicate ExpiredBy(t: int) {
      deadline.Some? && deadline.value <= t
    }

    predicate DoneBy(t: int) {
      CanceledBy(t) || ExpiredBy(t)
    }

    /** ctx.Err() once the context is done: the cause that came first. */
    function Err(t: int): CtxErr
      requires DoneBy(t)
    {
      if CanceledBy(t) && !(ExpiredBy(t) && deadline.value < cancelAt.value) then Canceled
      else DeadlineExceeded
    }
  }

  /** DispatchTaskArgs: the project, the worker, its master, its type and its configuration. */
  datatype DispatchTaskArgs = DispatchTaskArgs(
    tenantId: string,
    projectId: string,
    workerId: string,
    masterId: string,
    workerType: int,
    workerConfig: seq<bv8>)

  /** The two requests the dispatcher sends to the executor. */
  datatype Request =
    | PreDispatchTaskRequest(
        tenantId: string, projectId: string, taskTypeId: int, taskConfig: seq<bv8>,
        masterId: string, workerId: string, requestId: RequestId)
    | ConfirmDispatchTaskRequest(workerId: string, requestId: RequestId)

  function PreDispatchRequest(args: DispatchTaskArgs, requestId: RequestId): Request {
    PreDispatchTaskRequest(args.tenantId, args.projectId, args.workerType, args.workerConfig,
                           args.masterId, args.workerId, requestId)
  }

  /** What the outside world sees of a dispatch: requests sent (with the clock reading) and callbacks fired. */
  datatype Event =
    | Sent(request: Request, at: int)
    | WorkerTimerStarted
    | WorkerAborted(err: Error)

  /** One pre-dispatch attempt as the environment plays it: the fresh uuid and the executor's reply. */
  datatype Attempt = Attempt(requestId: RequestId, reply: SendOutcome)

  // ---------------------------------------------------------------------------
  // Classification of the executor's replies
  // ---------------------------------------------------------------------------

  /** The result of preDispatchTaskOnce: (requestID, nil), (shouldRetry, err), or the AlreadyExists panic. */
  datatype OnceResult =
    | OnceOk(requestId: RequestId)
    | OnceErr(shouldRetry: bool, err: Error)
    | OncePanic(err: Error)

  /** A pre-dispatch reply the retry loop tries again after: a status code other than Aborted and AlreadyExists. */
  predicate Retryable(reply: SendOutcome) {
    reply.Fail? && reply.failure.Status? && reply.failure.code != Aborted && reply.failure.code != AlreadyExists
  }

  /** How preDispatchTaskOnce sorts the reply to the request that carried `requestId`. */
  function ClassifyPreDispatch(requestId: RequestId, reply: SendOutcome): (r: OnceResult)
    ensures r.OnceOk? <==> reply == Ok
    ensures r.OnceOk? ==> r.requestId == requestId
    ensures r.OncePanic? <==> reply == Fail(Status(AlreadyExists))
    ensures r.OnceErr? ==> (r.shouldRetry <==> Retryable(reply))
    ensures reply == Fail(Transport) ==> r == OnceErr(false, Remote(Transport))
    ensures reply == Fail(Status(Aborted)) ==> r == OnceErr(false, Remote(Status(Aborted)))
    ensures reply.Fail? ==> !r.OnceOk? && r.err == Remote(reply.failure)
  {
    match reply
    case Ok => OnceOk(requestId)
    case Fail(Transport) => OnceErr(false, Remote(Transport))
    case Fail(Status(code)) =>
      if code == Aborted then OnceErr(false, Remote(reply.failure))
      else if code == AlreadyExists then OncePanic(Remote(reply.failure))
      else OnceErr(true, Remote(reply.failure))
  }

  /** The result of confirmDispatchTask: (guaranteedFailure, err). */
  datatype ConfirmResult = ConfirmResult(guaranteedFailure: bool, err: Option<Error>)

  /**
   * How confirmDispatchTask sorts the reply. An error without a gRPC status
   * converts to the Unknown code, so it falls in the undetermined case.
   */
  function ClassifyConfirm(reply: SendOutcome): (r: ConfirmResult)
    ensures r.err.None? <==> reply == Ok
    ensures reply.Fail? ==> r.err == Some(Remote(reply.failure))
    ensures r.guaranteedFailure <==> reply == Fail(Status(Aborted)) || reply == Fail(Status(NotFound))
  {
    match reply
    case Ok => ConfirmResult(false, None)
    case Fail(f) =>
      if f == Status(Aborted) || f == Status(NotFound) then ConfirmResult(true, Some(Remote(f)))
      else ConfirmResult(false, Some(Remote(f)))
  }

  // ---------------------------------------------------------------------------
  // The retry loop of pre-dispatch, as a specification function
  // ---------------------------------------------------------------------------

  /**
   * How preDispatchTaskWithRetry ends: with the request ID of the successful
   * attempt (and the clock reading when it was sent), with an error, with the
   * AlreadyExists panic, or, in the model only, still retrying when the
   * environment's script of attempts runs out.
   */
  datatype RetryResult =
    | Dispatched(requestId: RequestId, at: int)
    | Failed(err: Error)
    | Panicked(err: Error)
    | StillRetrying

  /** A run of the retry loop: how it ended and the pre-dispatch requests it sent. */
  datatype LoopRun = LoopRun(result: RetryResult, events: seq<Event>)

  /** A run whose first requests were `sent`, continuing as `rest`. */
  function AfterSent(sent: seq<Event>, rest: LoopRun): LoopRun {
    LoopRun(rest.result, sent + rest.events)
  }

  /**
   * The retry loop started at clock reading `now`, with `script` the attempts
   * still to come. Each round checks cancellation, makes one attempt, stops
   * unless the attempt asks for a retry, stops when the wait would end after
   * the deadline, and otherwise waits `interval`, unless the context is done
   * before the timer fires.
   */
  function RetryLoop(args: DispatchTaskArgs, ctx: Context, interval: nat, now: int, script: seq<Attempt>): (r: LoopRun)
    ensures |r.events| <= |script|
    ensures r.result.StillRetrying? ==> |r.events| == |script|
    ensures r.result.Dispatched? || r.result.Panicked? ==> r.events != []
    decreases |script|
  {
    if ctx.DoneBy(now) then LoopRun(Failed(Ctx(ctx.Err(now))), [])
    else if script == [] then LoopRun(StillRetrying, [])
    else
      var sent := [Sent(PreDispatchRequest(args, script[0].requestId), now)];
      match RoundAfter(ctx, interval, now, ClassifyPreDispatch(script[0].requestId, script[0].reply))
      case Stop(result) => LoopRun(result, sent)
      case Wait => AfterSent(sent, RetryLoop(args, ctx, interval, now + interval, script[1..]))
  }

  /** What a round does after its attempt at clock reading `now`: stop with a result, or wait and go round again. */
  datatype Round = Stop(result: RetryResult) | Wait

  function RoundAfter(ctx: Context, interval: nat, now: int, once: OnceResult): (r: Round)
    ensures once.OnceErr? && once.shouldRetry ==>
      (r == Stop(Failed(WouldExceedDeadline)) <==> ctx.deadline.Some? && now + interval > ctx.deadline.value)
    ensures r.Wait? <==>
      once.OnceErr? && once.shouldRetry && (ctx.deadline.None? || now + interval <= ctx.deadline.value) &&
      !ctx.DoneBy(now + interval - 1)
    ensures r.Stop? && r.result.Dispatched? <==> once.OnceOk?
    ensures r.Stop? ==> !r.result.StillRetrying?
  {
    match once
    case OnceOk(id) => Stop(Dispatched(id, now))
    case OncePanic(e) => Stop(Panicked(e))
    case OnceErr(shouldRetry, e) =>
      if !shouldRetry then Stop(Failed(e))
      else if ctx.deadline.Some? && now + interval > ctx.deadline.value then Stop(Failed(WouldExceedDeadline))
      else if ctx.DoneBy(now + interval - 1) then Stop(Failed(PreDispatchFailed(Ctx(ctx.Err(now + interval - 1)))))
      else Wait
  }

  /** One round of the loop after the requests `sent` so far: the attempt is sent, then the round stops or waits. */
  lemma RetryLoopRound(args: DispatchTaskArgs, ctx: Context, interval: nat, now: int, script: seq<Attempt>,
                       sent: seq<Event>)
    requires !ctx.DoneBy(now) && script != []
    ensures var sent' := sent + [Sent(PreDispatchRequest(args, script[0].requestId), now)];
      AfterSent(sent, RetryLoop(args, ctx, interval, now, script)) ==
        match RoundAfter(ctx, interval, now, ClassifyPreDispatch(script[0].requestId, script[0].reply))
        case Stop(result) => LoopRun(result, sent')
        case Wait => AfterSent(sent', RetryLoop(args, ctx, interval, now + interval, script[1..]))
  {
  }

  /** The clock reading at which attempt `j` of a loop started at `now` is sent. */
  function AttemptTime(now: int, interval: nat, j: nat): int {
    now + j * interval
  }

  lemma AttemptTimeStep(now: int, interval: nat, j: nat)
    ensures AttemptTime(now + interval, interval, j) == AttemptTime(now, interval, j + 1)
  {
    assert (j + 1) * interval == j * interval + interval;
  }

  /**
   * Attempt j sends the pre-dispatch request carrying the j-th fresh ID, at
   * clock reading now + j * interval; no attempt is made once the context is
   * done, and the first attempt is made whenever it is not.
   */
  lemma {:induction false} RetryLoopSends(args: DispatchTaskArgs, ctx: Context, interval: nat, now: int, script: seq<Attempt>)
    ensures var run := RetryLoop(args, ctx, interval, now, script);
      |run.events| <= |script| &&
      (forall j :: 0 <= j < |run.events| ==>
         run.events[j] == Sent(PreDispatchRequest(args, script[j].requestId), AttemptTime(now, interval, j)) &&
         !ctx.DoneBy(AttemptTime(now, interval, j))) &&
      (ctx.DoneBy(now) ==> run == LoopRun(Failed(Ctx(ctx.Err(now))), [])) &&
      (!ctx.DoneBy(now) && script != [] ==> |run.events| >= 1)
    decreases |script|
  {
    var run := RetryLoop(args, ctx, interval, now, script);
    if !ctx.DoneBy(now) && script != [] {
      var a := script[0];
      if RoundAfter(ctx, interval, now, ClassifyPreDispatch(a.requestId, a.reply)) == Wait {
        var rest := RetryLoop(args, ctx, interval, now + interval, script[1..]);
        RetryLoopSends(args, ctx, interval, now + interval, script[1..]);
        assert run.events == [Sent(PreDispatchRequest(args, a.requestId), now)] + rest.events;
        forall j | 1 <= j < |run.events|
          ensures run.events[j] == Sent(PreDispatchRequest(args, script[j].requestId), AttemptTime(now, interval, j))
          ensures !ctx.DoneBy(AttemptTime(now, interval, j))
        {
          AttemptTimeStep(now, interval, j - 1);
          assert run.events[j] == rest.events[j - 1];
          assert script[1..][j - 1] == script[j];
        }
      }
    }
  }

  /**
   * The loop stops at the first attempt that does not ask for a retry, and
   * every way it ends is one the loop has: cancellation at the top of a round,
   * success, a non-retryable error, the AlreadyExists panic, a wait that would
   * overrun the deadline, cancellation during the wait, or (model only) the end
   * of the script.
   */
  lemma {:induction false} RetryLoopEnds(args: DispatchTaskArgs, ctx: Context, interval: nat, now: int, script: seq<Attempt>)
    ensures var run := RetryLoop(args, ctx, interval, now, script);
      var n := |run.events|;
      n <= |script| &&
      (forall j :: 0 <= j < n - 1 ==> Retryable(script[j].reply)) &&
      (run.result.Dispatched? <==> n > 0 && script[n - 1].reply == Ok) &&
      (run.result.Dispatched? ==>
         run.result == Dispatched(script[n - 1].requestId, AttemptTime(now, interval, n - 1))) &&
      (run.result.Panicked? <==> n > 0 && script[n - 1].reply == Fail(Status(AlreadyExists))) &&
      (run.result.Panicked? ==> run.result.err == Remote(Status(AlreadyExists))) &&
      (run.result.Failed? && run.result.err.Remote? <==>
         n > 0 && (script[n - 1].reply == Fail(Transport) || script[n - 1].reply == Fail(Status(Aborted)))) &&
      (run.result.Failed? && run.result.err.Remote? ==> script[n - 1].reply == Fail(run.result.err.failure)) &&
      (run.result.Failed? && run.result.err.Ctx? ==>
         (n == 0 || Retryable(script[n - 1].reply)) && ctx.DoneBy(AttemptTime(now, interval, n)) &&
         run.result.err.ctxErr == ctx.Err(AttemptTime(now, interval, n))) &&
      (run.result == Failed(WouldExceedDeadline) ==>
         n > 0 && Retryable(script[n - 1].reply) && ctx.deadline.Some? &&
         AttemptTime(now, interval, n - 1) + interval > ctx.deadline.value) &&
      (run.result.Failed? && run.result.err.PreDispatchFailed? ==>
         n > 0 && Retryable(script[n - 1].reply) && run.result.err.cause.Ctx? &&
         ctx.DoneBy(AttemptTime(now, interval, n) - 1)) &&
      (run.result.Failed? ==>
         run.result.err.Remote? || run.result.err.Ctx? || run.result.err == WouldExceedDeadline ||
         (run.result.err.PreDispatchFailed? && run.result.err.cause.Ctx?)) &&
      (run.result.StillRetrying? ==> n == |script| && (n == 0 || Retryable(script[n - 1].reply)))
    decreases |script|
  {
    if !ctx.DoneBy(now) && script != [] {
      var a := script[0];
      if RoundAfter(ctx, interval, now, ClassifyPreDispatch(a.requestId, a.reply)) == Wait {
        var run := RetryLoop(args, ctx, interval, now, script);
        var rest := RetryLoop(args, ctx, interval, now + interval, script[1..]);
        RetryLoopEnds(args, ctx, interval, now + interval, script[1..]);
        var m := |rest.events|;
        assert run.result == rest.result && |run.events| == m + 1;
        assert forall j :: 0 <= j < m ==> script[1..][j] == script[j + 1];
        AttemptTimeStep(now, interval, m);
        if m > 0 {
          AttemptTimeStep(now, interval, m - 1);
        }
      } else {
        assert AttemptTime(now, interval, 0) == now;
        assert AttemptTime(now, interval, 1) == now + interval;
      }
    } else {
      assert AttemptTime(now, interval, 0) == now;
    }
  }

  /**
   * Which exit the loop takes is decided by the clock and the context alone
   * once the last attempt asked for a retry: a wait that would end after the
   * deadline returns WouldExceedDeadline without waiting; otherwise a context
   * done before the timer fires returns the wrapped error; otherwise a context
   * done when the next round starts returns the unwrapped error; otherwise the
   * script ran out. With no attempt made, the context was done at the start or
   * the script was empty. These cases exclude one another.
   */
  lemma {:induction false} RetryLoopExit(args: DispatchTaskArgs, ctx: Context, interval: nat, now: int, script: seq<Attempt>)
    ensures var run := RetryLoop(args, ctx, interval, now, script);
      var n := |run.events|;
      var t := AttemptTime(now, interval, n);
      n <= |script| &&
      (n == 0 ==>
         if ctx.DoneBy(now) then run.result == Failed(Ctx(ctx.Err(now)))
         else script == [] && run.result == StillRetrying) &&
      (n > 0 && Retryable(script[n - 1].reply) ==>
         if ctx.deadline.Some? && AttemptTime(now, interval, n - 1) + interval > ctx.deadline.value then
           run.result == Failed(WouldExceedDeadline)
         else if ctx.DoneBy(t - 1) then run.result == Failed(PreDispatchFailed(Ctx(ctx.Err(t - 1))))
         else if ctx.DoneBy(t) then run.result == Failed(Ctx(ctx.Err(t)))
         else n == |script| && run.result == StillRetrying)
    decreases |script|
  {
    assert AttemptTime(now, interval, 0) == now;
    if !ctx.DoneBy(now) && script != [] {
      var a := script[0];
      assert AttemptTime(now, interval, 1) == now + interval;
      if RoundAfter(ctx, interval, now, ClassifyPreDispatch(a.requestId, a.reply)) == Wait {
        var run := RetryLoop(args, ctx, interval, now, script);
        var rest := RetryLoop(args, ctx, interval, now + interval, script[1..]);
        RetryLoopExit(args, ctx, interval, now + interval, script[1..]);
        var m := |rest.events|;
        assert run.result == rest.result && |run.events| == m + 1;
        AttemptTimeStep(now, interval, m);
        if m > 0 {
          assert script[1..][m - 1] == script[m];
          AttemptTimeStep(now, interval, m - 1);
        }
      }
    }
  }

  /**
   * With a deadline, every attempt is sent strictly before it, so at most
   * (deadline - now) / interval + 1 attempts are made when the interval is
   * positive.
   */
  lemma AttemptsBoundedByDeadline(args: DispatchTaskArgs, ctx: Context, interval: nat, now: int, script: seq<Attempt>)
    requires ctx.deadline.Some? && interval > 0
    ensures var n := |RetryLoop(args, ctx, interval, now, script).events|;
      (n > 0 ==> now + (n - 1) * interval < ctx.deadline.value) &&
      (ctx.deadline.value <= now ==> n == 0) &&
      (now < ctx.deadline.value ==> n <= (ctx.deadline.value - now) / interval + 1)
  {
    var run := RetryLoop(args, ctx, interval, now, script);
    var n := |run.events|;
    var d := ctx.deadline.value;
    RetryLoopSends(args, ctx, interval, now, script);
    if n > 0 {
      assert !ctx.DoneBy(AttemptTime(now, interval, n - 1));
      if now < d {
        QuotientBound(n - 1, interval, d - now);
      }
    }
  }

  /** a * b < c with b positive puts a at or below c / b. */
  lemma QuotientBound(a: nat, b: nat, c: int)
    requires b > 0 && c > 0 && a * b < c
    ensures a <= c / b
  {
    var q := c / b;
    assert c == q * b + c % b && c % b < b;
    assert a * b < (q + 1) * b;
    MulCancel(a, q + 1, b);
  }

  lemma MulCancel(x: int, y: int, b: nat)
    requires b > 0 && x * b < y * b
    ensures x < y
  {
    assert (y - x) * b == y * b - x * b;
  }

  /**
   * With a deadline, a script that covers the time up to it is never
   * exhausted: the loop ends by one of the source's own exits.
   */
  lemma {:induction false} DeadlineEndsRetrying(args: DispatchTaskArgs, ctx: Context, interval: nat, now: int, script: seq<Attempt>)
    requires ctx.deadline.Some? && now + |script| * interval >= ctx.deadline.value
    ensures !RetryLoop(args, ctx, interval, now, script).result.StillRetrying?
    decreases |script|
  {
    if !ctx.DoneBy(now) && script != [] {
      var a := script[0];
      if RoundAfter(ctx, interval, now, ClassifyPreDispatch(a.requestId, a.reply)) == Wait {
        assert |script[1..]| * interval == |script| * interval - interval;
        DeadlineEndsRetrying(args, ctx, interval, now + interval, script[1..]);
      }
    }
  }

  /** Fresh IDs from the uuid source make every pre-dispatch request of a run carry a different ID. */
  lemma AttemptIdsDistinct(args: DispatchTaskArgs, ctx: Context, interval: nat, now: int, script: seq<Attempt>)
    requires forall i, j :: 0 <= i < j < |script| ==> script[i].requestId != script[j].requestId
    ensures var evs := RetryLoop(args, ctx, interval, now, script).events;
      forall i, j :: 0 <= i < j < |evs| ==> evs[i].Sent? && evs[j].Sent? && evs[i].request.requestId != evs[j].request.requestId
  {
    RetryLoopSends(args, ctx, interval, now, script);
  }

  // ---------------------------------------------------------------------------
  // The two-phase protocol, as a specification function
  // ---------------------------------------------------------------------------

  /** How DispatchTask ends: returning an error or nil, panicking, or (model only) still in pre-dispatch. */
  datatype DispatchResult = Returned(err: Option<Error>) | Panic(panicErr: Error) | PreDispatchUnfinished

  datatype DispatchRun = DispatchRun(result: DispatchResult, events: seq<Event>)

  /** DispatchTask on the given environment: pre-dispatch with retry, then the callbacks and confirm-dispatch. */
  function TwoPhaseDispatch(args: DispatchTaskArgs, ctx: Context, interval: nat, start: int,
                            script: seq<Attempt>, confirmReply: SendOutcome): (r: DispatchRun)
    ensures var pre := RetryLoop(args, ctx, interval, start, script);
      |pre.events| <= |r.events| && r.events[..|pre.events|] == pre.events &&
      (r.result == Returned(None) <==>
         pre.result.Dispatched? && confirmReply != Fail(Status(Aborted)) && confirmReply != Fail(Status(NotFound))) &&
      (r.result.Panic? <==> pre.result.Panicked?) &&
      (r.result.PreDispatchUnfinished? <==> pre.result.StillRetrying?)
  {
    var pre := RetryLoop(args, ctx, interval, start, script);
    match pre.result
    case Panicked(e) => DispatchRun(Panic(e), pre.events)
    case StillRetrying => DispatchRun(PreDispatchUnfinished, pre.events)
    case Failed(e) => DispatchRun(Returned(Some(PreDispatchFailed(e))), pre.events + [WorkerAborted(e)])
    case Dispatched(id, at) =>
      var confirmed := pre.events + [WorkerTimerStarted] + [Sent(ConfirmDispatchTaskRequest(args.workerId, id), at)];
      var c := ClassifyConfirm(confirmReply);
      if c.err.Some? && c.guaranteedFailure then
        var errOut := ConfirmDispatchFailed(c.err.value);
        DispatchRun(Returned(Some(errOut)), confirmed + [WorkerAborted(errOut)])
      else
        DispatchRun(Returned(None), confirmed)
  }

  /** The errors abortWorker was called with, in order. */
  function AbortErrors(evs: seq<Event>): seq<Error>
    decreases |evs|
  {
    if evs == [] then []
    else AbortErrors(evs[..|evs| - 1]) + (if evs[|evs| - 1].WorkerAborted? then [evs[|evs| - 1].err] else [])
  }

  /** How many times startWorkerTimer was called. */
  function TimerStarts(evs: seq<Event>): nat
    decreases |evs|
  {
    if evs == [] then 0
    else TimerStarts(evs[..|evs| - 1]) + (if evs[|evs| - 1].WorkerTimerStarted? then 1 else 0)
  }

  /** The request IDs of the confirm-dispatch requests sent, in order. */
  function ConfirmsSent(evs: seq<Event>): seq<RequestId>
    decreases |evs|
  {
    if evs == [] then []
    else
      var e := evs[|evs| - 1];
      ConfirmsSent(evs[..|evs| - 1]) +
      (if e.Sent? && e.request.ConfirmDispatchTaskRequest? then [e.request.requestId] else [])
  }

  predicate PreDispatchSendsOnly(evs: seq<Event>) {
    forall j :: 0 <= j < |evs| ==> evs[j].Sent? && evs[j].request.PreDispatchTaskRequest?
  }

  /** A run of pre-dispatch requests fires no callback and sends no confirm-dispatch request. */
  lemma {:induction false} NoCallbacksInPreDispatch(evs: seq<Event>)
    requires PreDispatchSendsOnly(evs)
    ensures AbortErrors(evs) == [] && TimerStarts(evs) == 0 && ConfirmsSent(evs) == []
    decreases |evs|
  {
    if evs != [] {
      NoCallbacksInPreDispatch(evs[..|evs| - 1]);
    }
  }

  lemma RetryLoopSendsOnly(args: DispatchTaskArgs, ctx: Context, interval: nat, now: int, script: seq<Attempt>)
    ensures PreDispatchSendsOnly(RetryLoop(args, ctx, interval, now, script).events)
  {
    RetryLoopSends(args, ctx, interval, now, script);
  }

  /**
   * A failed pre-dispatch calls abortWorker exactly once, with the
   * pre-dispatch error itself, never starts the worker timer, never sends
   * confirm-dispatch, and returns the error wrapped as a pre-dispatch failure.
   */
  lemma PreDispatchFailureAborts(args: DispatchTaskArgs, ctx: Context, interval: nat, start: int,
                                 script: seq<Attempt>, confirmReply: SendOutcome)
    requires RetryLoop(args, ctx, interval, start, script).result.Failed?
    ensures var e := RetryLoop(args, ctx, interval, start, script).result.err;
      var run := TwoPhaseDispatch(args, ctx, interval, start, script, confirmReply);
      run.result == Returned(Some(PreDispatchFailed(e))) &&
      AbortErrors(run.events) == [e] && TimerStarts(run.events) == 0 && ConfirmsSent(run.events) == []
  {
    var pre := RetryLoop(args, ctx, interval, start, script);
    RetryLoopSendsOnly(args, ctx, interval, start, script);
    NoCallbacksInPreDispatch(pre.events);
    var evs := pre.events + [WorkerAborted(pre.result.err)];
    assert evs[..|evs| - 1] == pre.events;
  }

  /**
   * After a successful pre-dispatch, startWorkerTimer runs exactly once,
   * immediately before the one confirm-dispatch request, which carries the ID
   * of the successful attempt. A guaranteed confirm failure calls abortWorker
   * once with the very error returned; an undetermined failure or a success
   * returns nil and calls no abortWorker.
   */
  lemma ConfirmPhase(args: DispatchTaskArgs, ctx: Context, interval: nat, start: int,
                     script: seq<Attempt>, confirmReply: SendOutcome)
    requires RetryLoop(args, ctx, interval, start, script).result.Dispatched?
    ensures var pre := RetryLoop(args, ctx, interval, start, script);
      var id := pre.result.requestId;
      var n := |pre.events|;
      var run := TwoPhaseDispatch(args, ctx, interval, start, script, confirmReply);
      n > 0 && pre.events[n - 1].Sent? && pre.events[n - 1].request.requestId == id &&
      run.events[..n] == pre.events &&
      |run.events| > n + 1 &&
      run.events[n] == WorkerTimerStarted &&
      run.events[n + 1] == Sent(ConfirmDispatchTaskRequest(args.workerId, id), pre.result.at) &&
      TimerStarts(run.events) == 1 && ConfirmsSent(run.events) == [id] &&
      (confirmReply == Fail(Status(Aborted)) || confirmReply == Fail(Status(NotFound)) ==>
         run.result == Returned(Some(ConfirmDispatchFailed(Remote(confirmReply.failure)))) &&
         AbortErrors(run.events) == [run.result.err.value]) &&
      (confirmReply != Fail(Status(Aborted)) && confirmReply != Fail(Status(NotFound)) ==>
         run.result == Returned(None) && AbortErrors(run.events) == [])
  {
    var pre := RetryLoop(args, ctx, interval, start, script);
    var id := pre.result.requestId;
    RetryLoopSends(args, ctx, interval, start, script);
    RetryLoopEnds(args, ctx, interval, start, script);
    RetryLoopSendsOnly(args, ctx, interval, start, script);
    NoCallbacksInPreDispatch(pre.events);
    var e1 := pre.events + [WorkerTimerStarted];
    var e2 := e1 + [Sent(ConfirmDispatchTaskRequest(args.workerId, id), pre.result.at)];
    assert e1[..|e1| - 1] == pre.events;
    assert e2[..|e2| - 1] == e1;
    assert TimerStarts(e1) == 1 && ConfirmsSent(e1) == [] && AbortErrors(e1) == [];
    assert TimerStarts(e2) == 1 && ConfirmsSent(e2) == [id] && AbortErrors(e2) == [];
    var c := ClassifyConfirm(confirmReply);
    if c.err.Some? && c.guaranteedFailure {
      var e3 := e2 + [WorkerAborted(ConfirmDispatchFailed(c.err.value))];
      assert e3[..|e3| - 1] == e2;
      assert TimerStarts(e3) == 1 && ConfirmsSent(e3) == [id];
    }
  }

  /**
   * The result contract of DispatchTask: it returns a non-nil error exactly
   * when abortWorker was called, and then abortWorker was called exactly once;
   * startWorkerTimer and confirm-dispatch happen exactly when pre-dispatch
   * succeeded; a panic fires no callback at all.
   */
  lemma DispatchErrorIffAborted(args: DispatchTaskArgs, ctx: Context, interval: nat, start: int,
                                script: seq<Attempt>, confirmReply: SendOutcome)
    ensures var pre := RetryLoop(args, ctx, interval, start, script);
      var run := TwoPhaseDispatch(args, ctx, interval, start, script, confirmReply);
      |AbortErrors(run.events)| == (if run.result.Returned? && run.result.err.Some? then 1 else 0) &&
      (run.result.Returned? && run.result.err.Some? ==>
         run.result.err.value == AbortErrors(run.events)[0] ||
         run.result.err.value == PreDispatchFailed(AbortErrors(run.events)[0])) &&
      TimerStarts(run.events) == (if pre.result.Dispatched? then 1 else 0) &&
      |ConfirmsSent(run.events)| == (if pre.result.Dispatched? then 1 else 0) &&
      (run.result.Panic? ==> pre.result.Panicked? && run.events == pre.events)
  {
    var pre := RetryLoop(args, ctx, interval, start, script);
    match pre.result
    case Failed(_) => PreDispatchFailureAborts(args, ctx, interval, start, script, confirmReply);
    case Dispatched(_, _) => ConfirmPhase(args, ctx, interval, start, script, confirmReply);
    case Panicked(_) =>
      RetryLoopSendsOnly(args, ctx, interval, start, script);
      NoCallbacksInPreDispatch(pre.events);
    case StillRetrying =>
      RetryLoopSendsOnly(args, ctx, interval, start, script);
      NoCallbacksInPreDispatch(pre.events);
  }

  /**
   * Deadline 2.5 s, retry interval 1 s, every attempt answered with a
   * retryable code: attempts go out at 0, 1 and 2 seconds, and the check
   * after the third sees that waiting until 3 s would pass the deadline, so
   * DispatchTask aborts the worker with that error instead of waiting.
   */
  lemma DeadlineScenario(args: DispatchTaskArgs, ids: seq<RequestId>, confirmReply: SendOutcome)
    requires |ids| == 4
    ensures var ctx := Context(Some(2500), None);
      var script := seq(4, i requires 0 <= i < 4 => Attempt(ids[i], Fail(Status(OtherCode))));
      var pre := RetryLoop(args, ctx, PreDispatchTaskRetryInterval, 0, script);
      var run := TwoPhaseDispatch(args, ctx, PreDispatchTaskRetryInterval, 0, script, confirmReply);
      pre.events == [Sent(PreDispatchRequest(args, ids[0]), 0),
                     Sent(PreDispatchRequest(args, ids[1]), 1000),
                     Sent(PreDispatchRequest(args, ids[2]), 2000)] &&
      pre.result == Failed(WouldExceedDeadline) &&
      run.result == Returned(Some(PreDispatchFailed(WouldExceedDeadline))) &&
      run.events == pre.events + [WorkerAborted(WouldExceedDeadline)]
  {
    var ctx := Context(Some(2500), None);
    var script := seq(4, i requires 0 <= i < 4 => Attempt(ids[i], Fail(Status(OtherCode))));
    var r2 := RetryLoop(args, ctx, 1000, 2000, script[2..]);
    assert r2 == LoopRun(Failed(WouldExceedDeadline), [Sent(PreDispatchRequest(args, ids[2]), 2000)]);
    var r1 := RetryLoop(args, ctx, 1000, 1000, script[1..]);
    assert script[1..][1..] == script[2..];
    assert r1 == AfterSent([Sent(PreDispatchRequest(args, ids[1]), 1000)], r2);
    assert RetryLoop(args, ctx, 1000, 0, script) == AfterSent([Sent(PreDispatchRequest(args, ids[0]), 0)], r1);
  }

  /** AlreadyExists at pre-dispatch halts at once: one request sent, no retry, no callback, a panic. */
  lemma AlreadyExistsScenario(args: DispatchTaskArgs, ctx: Context, interval: nat, start: int,
                              script: seq<Attempt>, confirmReply: SendOutcome)
    requires !ctx.DoneBy(start) && script != [] && script[0].reply == Fail(Status(AlreadyExists))
    ensures var run := TwoPhaseDispatch(args, ctx, interval, start, script, confirmReply);
      run.result == Panic(Remote(Status(AlreadyExists))) &&
      run.events == [Sent(PreDispatchRequest(args, script[0].requestId), start)]
  {
  }

  // ---------------------------------------------------------------------------
  // The dispatcher itself
  // ---------------------------------------------------------------------------

  /**
   * TaskDispatcher: the retry interval fixed at construction, and the ghost
   * trace of everything the dispatcher has done that others can observe.
   */
  class TaskDispatcher {
    const retryInterval: nat
    ghost var trace: seq<Event>

    /** newTaskDispatcher: the retry interval is the one-second constant. */
    constructor ()
      ensures retryInterval == PreDispatchTaskRetryInterval && trace == []
    {
      retryInterval := PreDispatchTaskRetryInterval;
      trace := [];
    }

    /**
     * DispatchTask: pre-dispatch with retry; on failure abortWorker and a
     * wrapped error; on success startWorkerTimer, then one confirm-dispatch.
     */
    method DispatchTask(ctx: Context, args: DispatchTaskArgs, start: int, script: seq<Attempt>, confirmReply: SendOutcome)
      returns (result: DispatchResult)
      modifies this`trace
      ensures var run := TwoPhaseDispatch(args, ctx, retryInterval, start, script, confirmReply);
        result == run.result && trace == old(trace) + run.events
    {
      var pre := PreDispatchTaskWithRetry(ctx, args, start, script);
      match pre
      case Panicked(e) =>
        return Panic(e);
      case StillRetrying =>
        return PreDispatchUnfinished;
      case Failed(e) =>
        trace := trace + [WorkerAborted(e)];
        return Returned(Some(PreDispatchFailed(e)));
      case Dispatched(requestId, at) =>
        trace := trace + [WorkerTimerStarted];
        var confirm := ConfirmDispatchTask(requestId, args.workerId, confirmReply, at);
        if confirm.err.Some? {
          if confirm.guaranteedFailure {
            var errOut := ConfirmDispatchFailed(confirm.err.value);
            trace := trace + [WorkerAborted(errOut)];
            return Returned(Some(errOut));
          }
          // The executor's state is undetermined; this is reported as success.
          return Returned(None);
        }
        return Returned(None);
    }

    /** preDispatchTaskWithRetry: attempts pre-dispatch until the loop's exit conditions stop it. */
    method PreDispatchTaskWithRetry(ctx: Context, args: DispatchTaskArgs, start: int, script: seq<Attempt>)
      returns (result: RetryResult)
      modifies this`trace
      ensures var run := RetryLoop(args, ctx, retryInterval, start, script);
        result == run.result && trace == old(trace) + run.events
    {
      var now := start;
      var remaining := script;
      ghost var sent: seq<Event> := [];
      while true
        invariant trace == old(trace) + sent
        invariant RetryLoop(args, ctx, retryInterval, start, script)
               == AfterSent(sent, RetryLoop(args, ctx, retryInterval, now, remaining))
        decreases |remaining|
      {
        if ctx.DoneBy(now) {
          return Failed(Ctx(ctx.Err(now)));
        }
        if remaining == [] {
          return StillRetrying;
        }
        var attempt := remaining[0];
        RetryLoopRound(args, ctx, retryInterval, now, remaining, sent);
        var once := PreDispatchTaskOnce(args, attempt, now);
        sent := sent + [Sent(PreDispatchRequest(args, attempt.requestId), now)];
        match once
        case OnceOk(requestId) =>
          return Dispatched(requestId, now);
        case OncePanic(e) =>
          return Panicked(e);
        case OnceErr(shouldRetry, e) =>
          if !shouldRetry {
            return Failed(e);
          }
          if ctx.deadline.Some? && now + retryInterval > ctx.deadline.value {
            return Failed(WouldExceedDeadline);
          }
          if ctx.DoneBy(now + retryInterval - 1) {
            return Failed(PreDispatchFailed(Ctx(ctx.Err(now + retryInterval - 1))));
          }
          remaining := remaining[1..];
          now := now + retryInterval;
      }
    }

    /** preDispatchTaskOnce: send the request carrying the attempt's fresh ID and sort the reply. */
    method PreDispatchTaskOnce(args: DispatchTaskArgs, attempt: Attempt, now: int) returns (result: OnceResult)
      modifies this`trace
      ensures trace == old(trace) + [Sent(PreDispatchRequest(args, attempt.requestId), now)]
      ensures result == ClassifyPreDispatch(attempt.requestId, attempt.reply)
    {
      trace := trace + [Sent(PreDispatchRequest(args, attempt.requestId), now)];
      result := ClassifyPreDispatch(attempt.requestId, attempt.reply);
    }

    /** confirmDispatchTask: send confirm-dispatch once and sort the reply. */
    method ConfirmDispatchTask(requestId: RequestId, workerId: string, reply: SendOutcome, now: int)
      returns (result: ConfirmResult)
      modifies this`trace
      ensures trace == old(trace) + [Sent(ConfirmDispatchTaskRequest(workerId, requestId), now)]
      ensures result == ClassifyConfirm(reply)
    {
      trace := trace + [Sent(ConfirmDispatchTaskRequest(workerId, requestId), now)];
      result := ClassifyConfirm(reply);
    }
  }
}
