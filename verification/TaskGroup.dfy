/**
 The task group of openWormhole: Airlock and the tunnel recovery run as siblings under a
 context derived from the caller's. The first error is recorded and then cancels the
 derived context; the recovery's own cancellation is turned into success if the caller's
 context has ended. Every interleaving of these steps is a schedule.
 */
module TaskGroup {
  import opened Schedules
  import opened Values
  import opened GoErrors

  datatype Task = Airlock | SelfHeal

  /** Where a task is: its function runs, has returned an error, holds the once, or is finished. */
  datatype Position =
    | Running
    | Translating(err: Error)          // SelfHeal: Run returned, the caller's context not yet read
    | Failed(err: Error)               // the task's function returned an error
    | Recording(err: Error)            // inside the once: recorded, group context not yet canceled
    | Finished(result: Option<Error>)

  datatype Once = Unused | Held | Used

  datatype State = State(
    parent: Option<ContextError>,      // the caller's context
    derived: Option<ContextError>,     // the group's context
    airlock: Position, selfHeal: Position,
    raw: Option<Error>,                // what selfheal.Run returned
    once: Once, recorded: Option<Error>, owner: Task,
    waited: Option<Option<Error>>)     // the result of Wait, once it has returned

  datatype Action =
    | ParentEnds(cause: ContextError)
    | ParentEndSpreads
    | AirlockReturns(result: Option<Error>)
    | RunReturns(err: Error)
    | Translate
    | EnterOnce(task: Task)
    | SkipOnce(task: Task)
    | CancelGroup(task: Task)
    | WaitReturns

  function PositionOf(s: State, task: Task): Position {
    if task.Airlock? then s.airlock else s.selfHeal
  }

  function Move(s: State, task: Task, position: Position): State {
    if task.Airlock? then s.(airlock := position) else s.(selfHeal := position)
  }

  /**
   selfheal.Run always returns an error, and a cancellation only if the context it was
   given is canceled; Airlock may return anything.
   */
  predicate Enabled(s: State, a: Action) {
    match a
    case ParentEnds(_) => s.parent.None?
    case ParentEndSpreads => s.parent.Some? && s.derived.None?
    case AirlockReturns(_) => s.airlock.Running?
    case RunReturns(err) => s.selfHeal.Running? && (IsCanceled(err) ==> s.derived == Some(Canceled))
    case Translate => s.selfHeal.Translating?
    case EnterOnce(task) => PositionOf(s, task).Failed? && s.once.Unused?
    case SkipOnce(task) => PositionOf(s, task).Failed? && s.once.Used?
    case CancelGroup(task) => PositionOf(s, task).Recording?
    case WaitReturns => s.airlock.Finished? && s.selfHeal.Finished? && s.waited.None?
  }

  function Next(s: State, a: Action): State
    requires Enabled(s, a)
  {
    match a
    case ParentEnds(cause) => s.(parent := Some(cause))
    case ParentEndSpreads => s.(derived := s.parent)
    case AirlockReturns(None) => s.(airlock := Finished(None))
    case AirlockReturns(Some(err)) => s.(airlock := Failed(err))
    case RunReturns(err) => s.(selfHeal := Translating(err), raw := Some(err))
    case Translate =>
      if IsCanceled(s.selfHeal.err) && s.parent.Some? then s.(selfHeal := Finished(None))
      else s.(selfHeal := Failed(s.selfHeal.err))
    case EnterOnce(task) =>
      var err := PositionOf(s, task).err;
      Move(s.(once := Held, recorded := Some(err), owner := task), task, Recording(err))
    case SkipOnce(task) => Move(s, task, Finished(Some(PositionOf(s, task).err)))
    case CancelGroup(task) =>
      Move(s.(once := Used, derived := if s.derived.Some? then s.derived else Some(Canceled)),
           task, Finished(Some(PositionOf(s, task).err)))
    case WaitReturns => s.(waited := Some(s.recorded))
  }

  /** Both tasks launched; the caller's context may have ended already. */
  predicate Initial(s: State) {
    && s.derived.None? && s.airlock.Running? && s.selfHeal.Running? && s.raw.None?
    && s.once.Unused? && s.recorded.None? && s.waited.None?
  }

  function Step(s: State, a: Action): Option<State> {
    if Enabled(s, a) then Some(Next(s, a)) else None
  }

  function Run(s: State, schedule: seq<Action>): Option<State> {
    Execute(Step, s, schedule)
  }

  /** The recorded error is the owner's, and nobody else is inside the once. */
  ghost predicate OnceInv(s: State) {
    && (s.once.Unused? <==> s.recorded.None?)
    && (s.airlock.Recording? ==> s.once.Held? && s.owner.Airlock?)
    && (s.selfHeal.Recording? ==> s.once.Held? && s.owner.SelfHeal?)
    && (s.once.Held? ==> PositionOf(s, s.owner) == Recording(s.recorded.value))
    && (s.once.Used? ==> PositionOf(s, s.owner) == Finished(s.recorded) && s.derived.Some?)
    && (s.airlock.Finished? && s.airlock.result.Some? ==> s.once.Used?)
    && (s.selfHeal.Finished? && s.selfHeal.result.Some? ==> s.once.Used?)
  }

  ghost predicate HealInv(s: State) {
    match s.selfHeal
    case Running => s.raw.None?
    case Translating(err) => s.raw == Some(err) && (IsCanceled(err) ==> s.derived.Some?)
    case Failed(err) => s.raw == Some(err) && (IsCanceled(err) ==> s.recorded.Some? && s.owner.Airlock?)
    case Recording(err) => s.raw == Some(err) && !IsCanceled(err)
    case Finished(None) => s.raw.Some? && IsCanceled(s.raw.value) && s.parent.Some?
    case Finished(Some(err)) => s.raw == Some(err) && (s.owner.SelfHeal? ==> !IsCanceled(err))
  }

  ghost predicate Inv(s: State) {
    && OnceInv(s) && HealInv(s) && !s.airlock.Translating?
    && (s.derived.Some? ==> s.parent == s.derived || (s.recorded.Some? && s.derived == Some(Canceled)))
    && (s.raw.Some? && IsCanceled(s.raw.value) ==> s.derived == Some(Canceled))
    && (s.waited.Some? ==> s.airlock.Finished? && s.selfHeal.Finished? && s.waited == Some(s.recorded))
  }

  lemma ActionKeepsInv(s: State, a: Action)
    requires Inv(s) && Enabled(s, a)
    ensures Inv(Next(s, a))
  {
  }

  lemma ScheduleKeepsInv(s: State, schedule: seq<Action>)
    requires Initial(s) && Run(s, schedule).Some?
    ensures Inv(Run(s, schedule).value)
  {
    forall t, a | Inv(t) && Step(t, a).Some?
      ensures Inv(Step(t, a).value)
    {
      ActionKeepsInv(t, a);
    }
    InvariantHolds(Step, Inv, s, schedule);
  }

  /**
   A sibling's failure is never masked. If the recovery was only canceled, the group's
   result is exactly Airlock's; if it failed by itself, the result is an error of one of
   the two. In particular the recovery's cancellation is never the result.
   */
  lemma SiblingIsNeverMasked(s: State, schedule: seq<Action>)
    requires Initial(s) && Run(s, schedule).Some? && Run(s, schedule).value.waited.Some?
    ensures var t := Run(s, schedule).value;
            var result := t.waited.value;
            && t.airlock.Finished? && t.raw.Some?
            && (IsCanceled(t.raw.value) ==> result == t.airlock.result)
            && (!IsCanceled(t.raw.value) ==> result.Some? && (result == t.raw || result == t.airlock.result))
  {
    ScheduleKeepsInv(s, schedule);
  }

  lemma ErrorIsKept(s: State, a: Action)
    requires Inv(s) && Enabled(s, a) && s.recorded.Some?
    ensures Next(s, a).recorded == s.recorded
  {
  }

  /** The first error to be recorded stays the group's, whatever happens later. */
  lemma {:induction false} FirstErrorWins(s: State, schedule: seq<Action>, k: nat)
    requires Initial(s) && k <= |schedule| && Run(s, schedule).Some?
    requires Run(s, schedule[..k]).Some? && Run(s, schedule[..k]).value.recorded.Some?
    ensures Run(s, schedule).value.recorded == Run(s, schedule[..k]).value.recorded
    decreases |schedule|
  {
    if k == |schedule| {
      assert schedule[..k] == schedule;
    } else {
      var n := |schedule| - 1;
      assert schedule[..n][..k] == schedule[..k];
      FirstErrorWins(s, schedule[..n], k);
      ScheduleKeepsInv(s, schedule[..n]);
      ErrorIsKept(Run(s, schedule[..n]).value, schedule[n]);
    }
  }

  /**
   A failed sibling stops the recovery. Once a task's error is recorded and its function is
   done, the group's context is over, whether or not the caller's is; the recovery can then
   return its cancellation, and the group returns Airlock's error.
   */
  lemma FailureStopsRecovery(s: State, schedule: seq<Action>, err: Error) returns (more: seq<Action>)
    requires Initial(s) && Run(s, schedule).Some?
    requires Run(s, schedule).value.airlock == Finished(Some(err)) && Run(s, schedule).value.selfHeal.Running?
    ensures var t := Run(s, schedule).value;
            && t.derived.Some?
            && (t.parent.None? ==>
                  && t.derived == Some(Canceled)
                  && Run(t, more).Some?
                  && Run(t, more).value.raw == Some(Context(Canceled))
                  && Run(t, more).value.waited == Some(Some(err)))
  {
    ScheduleKeepsInv(s, schedule);
    var t := Run(s, schedule).value;
    more := [];
    if t.parent.None? {
      var u;
      more, u := Extend(Step, t, [], t, RunReturns(Context(Canceled)));
      more, u := Extend(Step, t, more, u, Translate);
      more, u := Extend(Step, t, more, u, SkipOnce(SelfHeal));
      more, u := Extend(Step, t, more, u, WaitReturns);
    }
  }

  /** In every schedule: a task that has failed and is done has ended the group's context. */
  lemma FailureEndsContext(s: State, schedule: seq<Action>, task: Task)
    requires Initial(s) && Run(s, schedule).Some?
    ensures var t := Run(s, schedule).value;
            PositionOf(t, task).Finished? && PositionOf(t, task).result.Some? ==> t.derived.Some?
  {
    ScheduleKeepsInv(s, schedule);
  }

  /**
   When the group succeeds: exactly if Airlock succeeded and the recovery was merely canceled.
   It was then the caller who canceled; a caller whose deadline passed always gets an error.
   */
  lemma SucceedsIff(s: State, schedule: seq<Action>)
    requires Initial(s) && Run(s, schedule).Some? && Run(s, schedule).value.waited.Some?
    ensures var t := Run(s, schedule).value;
            && t.raw.Some?
            && (t.waited == Some(None) <==> t.airlock == Finished(None) && IsCanceled(t.raw.value))
            && (t.waited == Some(None) ==> t.parent == Some(Canceled))
            && (t.parent == Some(DeadlineExceeded) ==> t.waited.value.Some?)
  {
    ScheduleKeepsInv(s, schedule);
  }

  /** While Wait has not returned, some task's function is still running or some step can be taken. */
  lemma NothingIsStuck(s: State, schedule: seq<Action>)
    requires Initial(s) && Run(s, schedule).Some? && Run(s, schedule).value.waited.None?
    ensures var t := Run(s, schedule).value;
            t.airlock.Running? || t.selfHeal.Running? ||
            exists a :: Enabled(t, a) && !a.ParentEnds? && !a.ParentEndSpreads?
  {
    ScheduleKeepsInv(s, schedule);
    var t := Run(s, schedule).value;
    if !t.airlock.Running? && !t.selfHeal.Running? {
      var a := if t.selfHeal.Translating? then Translate
               else if t.once.Held? then CancelGroup(t.owner)
               else if t.airlock.Failed? then (if t.once.Unused? then EnterOnce(Airlock) else SkipOnce(Airlock))
               else if t.selfHeal.Failed? then (if t.once.Unused? then EnterOnce(SelfHeal) else SkipOnce(SelfHeal))
               else WaitReturns;
      assert Enabled(t, a);
    }
  }

  function Rank(p: Position): nat {
    match p
    case Running => 4
    case Translating(_) => 3
    case Failed(_) => 2
    case Recording(_) => 1
    case Finished(_) => 0
  }

  function Remaining(s: State): nat {
    (if s.parent.None? then 1 else 0) + (if s.derived.None? then 1 else 0) + (if s.waited.None? then 1 else 0)
    + Rank(s.airlock) + Rank(s.selfHeal)
  }

  lemma ActionUsesUp(s: State, a: Action)
    requires Enabled(s, a)
    ensures Remaining(Next(s, a)) < Remaining(s)
  {
  }

  /** Every schedule is short, so the group cannot go on without returning. */
  lemma SchedulesAreShort(s: State, schedule: seq<Action>)
    requires Initial(s) && Run(s, schedule).Some?
    ensures |schedule| + Remaining(Run(s, schedule).value) <= 11
  {
    forall t, a | Step(t, a).Some?
      ensures Remaining(Step(t, a).value) < Remaining(t)
    {
      ActionUsesUp(t, a);
    }
    RankBoundsLength(Step, (t: State) => true, Remaining, s, schedule);
  }

  /** A schedule that cannot go on has Wait returned. */
  lemma GroupReturns(s: State, schedule: seq<Action>)
    requires Initial(s) && Run(s, schedule).Some?
    requires forall a :: !Enabled(Run(s, schedule).value, a)
    ensures Run(s, schedule).value.waited.Some?
  {
    var t := Run(s, schedule).value;
    assert !Enabled(t, AirlockReturns(None)) && !Enabled(t, RunReturns(UnexpectedEOF));
    if t.waited.None? {
      NothingIsStuck(s, schedule);
    }
  }

  /** The caller's deadline passes and the recovery stops for that reason alone. */
  lemma DeadlineStopsRecovery(s: State) returns (schedule: seq<Action>, t: State)
    requires Initial(s) && s.parent.None?
    ensures Run(s, schedule) == Some(t)
    ensures t == s.(parent := Some(DeadlineExceeded), derived := Some(DeadlineExceeded),
                    selfHeal := Failed(Context(DeadlineExceeded)), raw := Some(Context(DeadlineExceeded)))
  {
    schedule, t := Extend(Step, s, [], s, ParentEnds(DeadlineExceeded));
    schedule, t := Extend(Step, s, schedule, t, ParentEndSpreads);
    schedule, t := Extend(Step, s, schedule, t, RunReturns(Context(DeadlineExceeded)));
    schedule, t := Extend(Step, s, schedule, t, Translate);
  }

  /**
   The translation covers cancellation only: when the caller's deadline passes, a recovery
   that stopped for that reason alone does make the group fail.
   */
  lemma DeadlineIsReported(s: State) returns (schedule: seq<Action>)
    requires Initial(s) && s.parent.None?
    ensures Run(s, schedule).Some?
    ensures var t := Run(s, schedule).value;
            && t.parent == Some(DeadlineExceeded) && t.airlock == Finished(None)
            && t.waited == Some(Some(Context(DeadlineExceeded)))
  {
    var t;
    schedule, t := DeadlineStopsRecovery(s);
    schedule, t := Extend(Step, s, schedule, t, EnterOnce(SelfHeal));
    schedule, t := Extend(Step, s, schedule, t, AirlockReturns(None));
    schedule, t := Extend(Step, s, schedule, t, CancelGroup(SelfHeal));
    schedule, t := Extend(Step, s, schedule, t, WaitReturns);
  }
}
