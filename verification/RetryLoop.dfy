/**
 The retry loop around one Route Registry operation, and the two operations built on it.
 The environment is a script: what each call of the operation returns, and what the
 context and the sleep after it answer. A script may end before the loop does; what the
 loop did so far is then a prefix of a longer run.
 */
module RetryLoop {
  import opened Values
  import opened GoErrors
  import opened Backoff

  /** One iteration: the operation's answer, then (where reached) ctx.Err(), the jitter draw and the sleep. */
  datatype Attempt<+T> = Attempt(outcome: Result<T, Error>, ctxErr: Option<ContextError>,
                                 jitter: real, sleepErr: Option<ContextError>)

  datatype Progress<+T> = Finished(result: Result<T, Error>) | Retrying

  /** The iteration goes to sleep: a retryable failure seen under a live context. */
  predicate Sleeps<T>(a: Attempt<T>) {
    a.outcome.Err? && a.ctxErr.None? && Retryable(a.outcome.error)
  }

  /** The iteration ends the loop. */
  predicate Terminal<T>(a: Attempt<T>) {
    !Sleeps(a) || a.sleepErr.Some?
  }

  /** Success beats cancellation, and cancellation beats the classification of the error. */
  function Verdict<T>(a: Attempt<T>): Result<T, Error> {
    if a.outcome.Ok? then a.outcome
    else if a.ctxErr.Some? then Err(Context(a.ctxErr.value))
    else if Sleeps(a) && a.sleepErr.Some? then Err(Context(a.sleepErr.value))
    else a.outcome
  }

  /** Index of the first terminal attempt, or the length of the script. */
  function FirstTerminal<T>(attempts: seq<Attempt<T>>): (k: nat)
    ensures k <= |attempts|
    ensures forall i | 0 <= i < k :: !Terminal(attempts[i])
    ensures k < |attempts| ==> Terminal(attempts[k])
  {
    if attempts == [] || Terminal(attempts[0]) then 0 else 1 + FirstTerminal(attempts[1..])
  }

  function RetryProgress<T>(attempts: seq<Attempt<T>>): Progress<T> {
    var k := FirstTerminal(attempts);
    if k == |attempts| then Retrying else Finished(Verdict(attempts[k]))
  }

  /** How many times the operation was called. */
  function Calls<T>(attempts: seq<Attempt<T>>): nat {
    Min(FirstTerminal(attempts) + 1, |attempts|)
  }

  /** How many times the loop slept, a sleep that was cut short included. */
  function SleepCount<T>(attempts: seq<Attempt<T>>): nat {
    var k := FirstTerminal(attempts);
    if k < |attempts| && Sleeps(attempts[k]) then k + 1 else k
  }

  /** What the documentation of the loop promises, without reference to how the scripts are scanned. */
  ghost predicate EndsAtFirstTerminal<T>(attempts: seq<Attempt<T>>, progress: Progress<T>, calls: nat, sleeps: nat) {
    && calls <= |attempts|
    && (progress.Retrying? ==>
          calls == sleeps == |attempts| && forall i | 0 <= i < calls :: !Terminal(attempts[i]))
    && (progress.Finished? ==>
          && 0 < calls
          && (forall i | 0 <= i < calls - 1 :: !Terminal(attempts[i]))
          && Terminal(attempts[calls - 1])
          && progress.result == Verdict(attempts[calls - 1])
          && sleeps == if Sleeps(attempts[calls - 1]) then calls else calls - 1)
  }

  /** The promise leaves no freedom: it determines the outcome and both counts. */
  lemma EndsAtFirstTerminalIsUnique<T>(attempts: seq<Attempt<T>>, progress: Progress<T>, calls: nat, sleeps: nat)
    requires EndsAtFirstTerminal(attempts, progress, calls, sleeps)
    ensures progress == RetryProgress(attempts)
    ensures calls == Calls(attempts) && sleeps == SleepCount(attempts)
  {
    FirstTerminalIs(attempts, if progress.Retrying? then calls else calls - 1);
  }

  lemma FirstTerminalIs<T>(attempts: seq<Attempt<T>>, k: nat)
    requires k <= |attempts| && forall i | 0 <= i < k :: !Terminal(attempts[i])
    requires k < |attempts| ==> Terminal(attempts[k])
    ensures FirstTerminal(attempts) == k
  {
  }

  ghost function Jitters<T>(attempts: seq<Attempt<T>>): nat -> real {
    (k: nat) => if k < |attempts| then attempts[k].jitter else 0.0
  }

  /** A failure under a live context that is retried, and a sleep that runs its course, in the program's own terms. */
  ghost predicate IsTransient<T>(a: Attempt<T>) {
    && a.outcome.Err? && a.ctxErr.None? && a.sleepErr.None?
    && exists layers, leaf :: IsLeaf(leaf) && a.outcome.error == Under(layers, leaf) && IsTransientLeaf(layers, leaf)
  }

  ghost predicate IsTransientLeaf(layers: seq<Layer>, leaf: Error) {
    match leaf
    case HttpStatus(code) => code == 408 || code == 429 || 500 <= code <= 599
    case UnexpectedEOF => true
    case Context(DeadlineExceeded) => true
    case _ => exists layer | layer in layers :: layer.NetworkOperation?
  }

  lemma TransientIff<T>(a: Attempt<T>)
    ensures IsTransient(a) <==> !Terminal(a)
  {
    if a.outcome.Err? {
      var layers, leaf := EveryErrorIsUnder(a.outcome.error);
      RetryableIff(layers, leaf);
      forall ls, l | IsLeaf(l) && a.outcome.error == Under(ls, l)
        ensures Retryable(a.outcome.error) <==> IsTransientLeaf(ls, l)
      {
        RetryableIff(ls, l);
      }
    }
  }

  /**
   What the loop makes of any script: it goes on exactly through the transient failures, and
   at the first other attempt it returns the result, or else the error of a context seen
   ended, or else the error of the sleep, or else the failure itself.
   */
  lemma RetryOutcome<T>(attempts: seq<Attempt<T>>, k: nat)
    requires k <= |attempts| && forall i | 0 <= i < k :: IsTransient(attempts[i])
    requires k < |attempts| ==> !IsTransient(attempts[k])
    ensures k == |attempts| ==> RetryProgress(attempts).Retrying?
    ensures k < |attempts| ==>
              RetryProgress(attempts) == Finished(
                match attempts[k]
                case Attempt(Ok(value), _, _, _) => Ok(value)
                case Attempt(Err(_), Some(cause), _, _) => Err(Context(cause))
                case Attempt(Err(e), None, _, Some(cause)) =>
                  if IsTransient(attempts[k].(sleepErr := None)) then Err(Context(cause)) else Err(e)
                case Attempt(Err(e), None, _, None) => Err(e))
    ensures Calls(attempts) == Min(k + 1, |attempts|)
  {
    forall i | 0 <= i < |attempts|
      ensures IsTransient(attempts[i]) <==> !Terminal(attempts[i])
    {
      TransientIff(attempts[i]);
    }
    FirstTerminalIs(attempts, k);
    if k < |attempts| {
      TransientIff(attempts[k].(sleepErr := None));
    }
  }

  /**
   retryRouteRegistry. Besides the first-terminal promise: the k-th sleep is the k-th
   backoff of the configuration jittered by the k-th draw, so no earlier draw matters.
   */
  method RetryRouteRegistry<T>(attempts: seq<Attempt<T>>, config: Config)
    returns (progress: Progress<T>, calls: nat, sleeps: seq<Duration>)
    ensures EndsAtFirstTerminal(attempts, progress, calls, |sleeps|)
    ensures Follows(sleeps, Schedule(config, Jitters(attempts)))
  {
    var previous: Duration := 0;
    calls, sleeps := 0, [];
    ghost var schedule := Schedule(config, Jitters(attempts));
    while calls < |attempts|
      invariant calls == |sleeps| <= |attempts|
      invariant forall i | 0 <= i < calls :: !Terminal(attempts[i])
      invariant previous as int == if calls == 0 then 0 else BackoffAt(config, calls - 1)
      invariant Follows(sleeps, schedule)
    {
      var a := attempts[calls];
      calls := calls + 1;
      if a.outcome.Ok? {
        progress := Finished(a.outcome);
        return;
      }
      if a.ctxErr.Some? {
        progress := Finished(Err(Context(a.ctxErr.value)));
        return;
      }
      if !Retryable(a.outcome.error) {
        progress := Finished(Err(a.outcome.error));
        return;
      }

      var backoff, delay := NextRetryDelay(previous, config.minRetryBackoff, config.maxRetryBackoff, a.jitter);
      previous := backoff;
      assert backoff as int == BackoffAt(config, |sleeps|);
      assert Jitters(attempts)(|sleeps|) == a.jitter;
      FollowsExtended(sleeps, delay, schedule);
      sleeps := sleeps + [delay];
      if a.sleepErr.Some? {
        progress := Finished(Err(Context(a.sleepErr.value)));
        return;
      }
    }
    progress := Retrying;
  }

  // ---------- The wrapped operations ----------

  function WrapFailure<T>(progress: Progress<T>, prefix: string): Progress<T> {
    match progress
    case Finished(Err(e)) => Finished(Err(Wrapped(prefix, e)))
    case _ => progress
  }

  /** refreshJWTWithRetry; registerRouteWithRetry differs only in its operation and its prefix. */
  function RefreshProgress(attempts: seq<Attempt<string>>): Progress<string> {
    WrapFailure(RetryProgress(attempts), "refresh Piko JWT")
  }

  function RegisterProgress<T>(attempts: seq<Attempt<T>>): Progress<T> {
    WrapFailure(RetryProgress(attempts), "register route")
  }

  /** The attempt was answered 401 by the registry and the context was alive when checked. */
  predicate Unauthorized<T>(a: Attempt<T>) {
    a.outcome.Err? && a.ctxErr.None? && AsHttpStatus(a.outcome.error) == Some(401)
  }

  /** The logical refresh failed with a 401 somewhere under its wrappers. */
  predicate RefreshUnauthorized(attempts: seq<Attempt<string>>) {
    match RefreshProgress(attempts)
    case Finished(Err(e)) => AsHttpStatus(e) == Some(STATUS_UNAUTHORIZED)
    case _ => false
  }

  lemma FirstTerminalWasUnauthorized(attempts: seq<Attempt<string>>)
    ensures RefreshUnauthorized(attempts) <==>
            FirstTerminal(attempts) < |attempts| && Unauthorized(attempts[FirstTerminal(attempts)])
  {
    var k := FirstTerminal(attempts);
    if k < |attempts| && Verdict(attempts[k]).Err? {
      var e := Verdict(attempts[k]).error;
      assert AsHttpStatus(Wrapped("refresh Piko JWT", e)) == AsHttpStatus(e);
    }
  }

  /**
   A logical refresh fails with a 401 exactly when its first terminal attempt was itself a
   401 under a live context: 401 is never retried, and neither a cancellation nor a storm
   of retryable errors can turn into one.
   */
  lemma RefreshUnauthorizedIff(attempts: seq<Attempt<string>>)
    ensures RefreshUnauthorized(attempts) <==>
            exists k :: 0 <= k < |attempts| && Unauthorized(attempts[k]) &&
                        forall i | 0 <= i < k :: !Terminal(attempts[i])
  {
    FirstTerminalWasUnauthorized(attempts);
    forall j | 0 <= j < |attempts| && Unauthorized(attempts[j]) && forall i | 0 <= i < j :: !Terminal(attempts[i])
      ensures j == FirstTerminal(attempts)
    {
      assert Terminal(attempts[j]);
    }
  }

  /** A failure that is a cancellation was caused by the context, if the operation is honest about it. */
  lemma CanceledByContext<T>(attempts: seq<Attempt<T>>)
    requires forall i | 0 <= i < |attempts| ::
               attempts[i].outcome.Err? && IsCanceled(attempts[i].outcome.error) ==> attempts[i].ctxErr.Some?
    requires RetryProgress(attempts).Finished? && RetryProgress(attempts).result.Err?
    requires IsCanceled(RetryProgress(attempts).result.error)
    ensures exists k :: 0 <= k < |attempts| &&
                        (attempts[k].ctxErr == Some(Canceled) || attempts[k].sleepErr == Some(Canceled))
  {
    var k := FirstTerminal(attempts);
    assert attempts[k].ctxErr == Some(Canceled) || attempts[k].sleepErr == Some(Canceled);
  }
}
