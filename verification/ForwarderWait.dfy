/**
 waitForForwarder as a step system: a goroutine blocks in the forwarder's Wait and sends
 its result on a channel with room for one value, while the caller selects between that
 channel and the end of the context. Any interleaving of the two, of the forwarder and of
 the context is a schedule.
 */
module ForwarderWait {
  import opened Values
  import opened GoErrors
  import opened Schedules
  import RecoveryMachine

  datatype Forwarder = Running | Exited(err: Option<Error>)

  datatype Waiter = InWait | Sending(err: Option<Error>) | Sent

  /** The caller's position; once returned, it remembers which way it went. */
  datatype Caller = Selecting | Received(err: Option<Error>) | Closing | Returned(wait: RecoveryMachine.Wait)

  datatype State = State(forwarder: Forwarder, ctx: Option<ContextError>, closed: bool,
                         waiter: Waiter, channel: seq<Option<Error>>, caller: Caller)

  const CAPACITY := 1

  datatype Action =
    | ForwarderExits(err: Option<Error>)  // environment
    | ContextEnds(cause: ContextError)    // environment
    | WaitReturns
    | Send
    | Receive
    | CheckContext
    | SeeDone
    | Close

  predicate Enabled(s: State, a: Action) {
    match a
    case ForwarderExits(_) => s.forwarder.Running?
    case ContextEnds(_) => s.ctx.None?
    case WaitReturns => s.waiter.InWait? && s.forwarder.Exited?
    case Send => s.waiter.Sending? && |s.channel| < CAPACITY
    case Receive => s.caller.Selecting? && s.channel != []
    case CheckContext => s.caller.Received?
    case SeeDone => s.caller.Selecting? && s.ctx.Some?
    case Close => s.caller.Closing? && s.ctx.Some?
  }

  function Next(s: State, a: Action): State
    requires Enabled(s, a)
  {
    match a
    case ForwarderExits(err) => s.(forwarder := Exited(err))
    case ContextEnds(cause) => s.(ctx := Some(cause))
    case WaitReturns => s.(waiter := Sending(s.forwarder.err))
    case Send => s.(waiter := Sent, channel := s.channel + [s.waiter.err])
    case Receive => s.(caller := Received(s.channel[0]), channel := s.channel[1..])
    case CheckContext => s.(caller := Returned(RecoveryMachine.Stopped(s.caller.err, s.ctx)))
    case SeeDone => s.(caller := Closing)
    case Close => s.(closed := true, caller := Returned(RecoveryMachine.Interrupted(s.ctx.value)))
  }

  /** The forwarder may have stopped, and the context ended, before the call. */
  predicate Initial(s: State) {
    !s.closed && s.waiter.InWait? && s.channel == [] && s.caller.Selecting?
  }

  function Step(s: State, a: Action): Option<State> {
    if Enabled(s, a) then Some(Next(s, a)) else None
  }

  function Run(s: State, schedule: seq<Action>): Option<State> {
    Execute(Step, s, schedule)
  }

  ghost predicate Inv(s: State) {
    && (!s.waiter.Sent? ==> s.channel == [])
    && |s.channel| <= CAPACITY
    && (s.waiter.Sending? ==> s.forwarder == Exited(s.waiter.err))
    && (s.waiter.Sent? ==> s.forwarder.Exited?)
    && (s.channel != [] ==> s.channel == [s.forwarder.err])
    && (s.channel != [] ==> s.caller.Selecting? || s.caller.Closing? || s.closed)
    && (s.waiter.Sent? && s.channel == [] ==> s.caller.Received? || (s.caller.Returned? && s.caller.wait.Stopped?))
    && (s.closed ==> s.caller.Returned? && s.caller.wait.Interrupted?)
    && match s.caller
       case Selecting => true
       case Received(err) => s.waiter.Sent? && s.forwarder == Exited(err)
       case Closing => s.ctx.Some?
       case Returned(Stopped(err, ctxErr)) =>
         s.waiter.Sent? && s.forwarder == Exited(err) && (ctxErr.Some? ==> ctxErr == s.ctx)
       case Returned(Interrupted(cause)) => s.closed && s.ctx == Some(cause)
       case Returned(StillUp) => false
  }

  lemma ActionKeepsInv(s: State, a: Action)
    requires Inv(s) && Enabled(s, a)
    ensures Inv(Next(s, a))
  {
  }

  lemma ScheduleKeepsInv(s: State, schedule: seq<Action>)
    requires Initial(s) && Run(s, schedule).Some?
    ensures Inv(Run(s, schedule).value)
  {
    forall t, a | Inv(t) && Step(t, a).Some?
      ensures Inv(Step(t, a).value)
    {
      ActionKeepsInv(t, a);
    }
    InvariantHolds(Step, Inv, s, schedule);
  }

  /**
   When the caller has returned, the forwarder's Wait has returned or the forwarder was
   closed, never both and never neither; a stop is reported with the error the forwarder
   stopped with and an interruption with the context's own error.
   */
  lemma ReturnedForwarderIsDone(s: State, schedule: seq<Action>)
    requires Initial(s) && Run(s, schedule).Some?
    ensures var t := Run(s, schedule).value;
            t.caller.Returned? ==>
              match t.caller.wait
              case Stopped(err, ctxErr) => t.waiter.Sent? && !t.closed && t.forwarder == Exited(err) &&
                                           (ctxErr.Some? ==> ctxErr == t.ctx)
              case Interrupted(cause) => t.closed && t.ctx == Some(cause)
              case StillUp => false
  {
    ScheduleKeepsInv(s, schedule);
  }

  /** The goroutine's send never blocks: whenever it is about to send, the channel has room. */
  lemma SendNeverBlocks(s: State, schedule: seq<Action>)
    requires Initial(s) && Run(s, schedule).Some?
    ensures var t := Run(s, schedule).value;
            t.waiter.Sending? ==> Enabled(t, Send)
  {
    ScheduleKeepsInv(s, schedule);
  }

  /**
   No deadlock and no leak. The caller can move unless it has returned or the forwarder is
   running under a live context with nothing to report; the goroutine can move until it has
   sent, as soon as the forwarder is down, even long after the caller is gone.
   */
  lemma NothingIsStuck(s: State, schedule: seq<Action>)
    requires Initial(s) && Run(s, schedule).Some?
    ensures var t := Run(s, schedule).value;
            && (t.forwarder.Exited? && !t.waiter.Sent? ==> Enabled(t, WaitReturns) || Enabled(t, Send))
            && (!t.caller.Returned? && (t.ctx.Some? || t.forwarder.Exited?) ==>
                  Enabled(t, WaitReturns) || Enabled(t, Send) || Enabled(t, Receive)
                  || Enabled(t, CheckContext) || Enabled(t, SeeDone) || Enabled(t, Close))
  {
    ScheduleKeepsInv(s, schedule);
  }

  function Remaining(s: State): nat {
    (if s.forwarder.Running? then 1 else 0) + (if s.ctx.None? then 1 else 0)
    + (match s.waiter case InWait => 2 case Sending(_) => 1 case Sent => 0)
    + (match s.caller case Selecting => 2 case Received(_) => 1 case Closing => 1 case Returned(_) => 0)
  }

  lemma ActionUsesUp(s: State, a: Action)
    requires Enabled(s, a)
    ensures Remaining(Next(s, a)) < Remaining(s)
  {
  }

  /** Every schedule is short: each action uses up one of at most six steps. */
  lemma SchedulesAreShort(s: State, schedule: seq<Action>)
    requires Initial(s) && Run(s, schedule).Some?
    ensures |schedule| + Remaining(Run(s, schedule).value) <= 6
  {
    forall t, a | Step(t, a).Some?
      ensures Remaining(Step(t, a).value) < Remaining(t)
    {
      ActionUsesUp(t, a);
    }
    RankBoundsLength(Step, (t: State) => true, Remaining, s, schedule);
  }

  /** A schedule that cannot go on has the caller returned and the goroutine finished. */
  lemma WaitReturnsInTheEnd(s: State, schedule: seq<Action>)
    requires Initial(s) && Run(s, schedule).Some?
    requires forall a :: !Enabled(Run(s, schedule).value, a)
    ensures Run(s, schedule).value.caller.Returned? && Run(s, schedule).value.waiter.Sent?
  {
    var t := Run(s, schedule).value;
    assert !Enabled(t, ForwarderExits(None)) && !Enabled(t, ContextEnds(Canceled));
    NothingIsStuck(s, schedule);
  }

  /**
   Both outcomes of the race are real: with the forwarder down and the context ended, the
   caller may go either way.
   */
  lemma RaceIsOpen(s: State, err: Option<Error>, cause: ContextError)
    returns (stop: seq<Action>, interrupt: seq<Action>)
    requires Initial(s) && s.forwarder == Exited(err) && s.ctx == Some(cause)
    ensures Run(s, stop).Some?
    ensures Run(s, stop).value.caller == Returned(RecoveryMachine.Stopped(err, Some(cause)))
    ensures Run(s, interrupt).Some?
    ensures Run(s, interrupt).value.caller == Returned(RecoveryMachine.Interrupted(cause))
  {
    var t;
    stop, t := Extend(Step, s, [], s, WaitReturns);
    stop, t := Extend(Step, s, stop, t, Send);
    stop, t := Extend(Step, s, stop, t, Receive);
    stop, t := Extend(Step, s, stop, t, CheckContext);
    interrupt, t := Extend(Step, s, [], s, SeeDone);
    interrupt, t := Extend(Step, s, interrupt, t, Close);
  }

  // ---------- What the recovery is told ----------

  lemma StopIsPossible(s: State, err: Option<Error>, ctxErr: Option<ContextError>) returns (schedule: seq<Action>)
    requires Initial(s) && s.forwarder.Running? && s.ctx.None?
    ensures Run(s, schedule).Some?
    ensures Run(s, schedule).value.caller == Returned(RecoveryMachine.Stopped(err, ctxErr))
  {
    var t;
    schedule, t := Extend(Step, s, [], s, ForwarderExits(err));
    schedule, t := Extend(Step, s, schedule, t, WaitReturns);
    schedule, t := Extend(Step, s, schedule, t, Send);
    schedule, t := Extend(Step, s, schedule, t, Receive);
    if ctxErr.Some? {
      schedule, t := Extend(Step, s, schedule, t, ContextEnds(ctxErr.value));
    }
    schedule, t := Extend(Step, s, schedule, t, CheckContext);
  }

  lemma InterruptionIsPossible(s: State, cause: ContextError) returns (schedule: seq<Action>)
    requires Initial(s) && s.ctx.None?
    ensures Run(s, schedule).Some?
    ensures Run(s, schedule).value.caller == Returned(RecoveryMachine.Interrupted(cause))
  {
    var t;
    schedule, t := Extend(Step, s, [], s, ContextEnds(cause));
    schedule, t := Extend(Step, s, schedule, t, SeeDone);
    schedule, t := Extend(Step, s, schedule, t, Close);
  }

  /**
   The waits that the recovery's rounds are made of are exactly those this race can end in:
   everything but a forwarder still up.
   */
  lemma WaitIsPossibleIff(s: State, wait: RecoveryMachine.Wait)
    requires Initial(s) && s.forwarder.Running? && s.ctx.None?
    ensures (exists schedule :: Run(s, schedule).Some? && Run(s, schedule).value.caller == Returned(wait))
            <==> !wait.StillUp?
  {
    match wait
    case Stopped(err, ctxErr) =>
      var schedule := StopIsPossible(s, err, ctxErr);
    case Interrupted(cause) =>
      var schedule := InterruptionIsPossible(s, cause);
    case StillUp =>
      forall schedule | Run(s, schedule).Some?
        ensures Run(s, schedule).value.caller != Returned(wait)
      {
        ScheduleKeepsInv(s, schedule);
      }
  }

  /**
   The event the recovery logs for a wait is true of the forwarder: it has ended, and it was
   closed exactly if the event says so.
   */
  lemma EndedEventIsTrue(s: State, schedule: seq<Action>)
    requires Initial(s) && Run(s, schedule).Some? && Run(s, schedule).value.caller.Returned?
    ensures var t := Run(s, schedule).value;
            && !t.caller.wait.StillUp?
            && (t.closed || t.forwarder.Exited?)
            && RecoveryMachine.ForwarderEnded(t.closed) == RecoveryMachine.EndOf(t.caller.wait)
  {
    ScheduleKeepsInv(s, schedule);
  }
}
