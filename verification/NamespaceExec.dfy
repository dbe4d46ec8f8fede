/**
 The second stage of a namespaced launch, from the point where the user command and the
 sidecar run as goroutines: the select over context, command and sidecar, the cancellation
 and the join. Any interleaving is a schedule.
 */
module NamespaceExec {
  import opened Schedules
  import opened Values
  import opened GoErrors

  /**
   A goroutine started by doAsync: it runs its function, then sends the result on its channel.
   The command's function is execChild, which starts the process and then waits for its end
   or for the end of the inner context, whichever it notices first.
   */
  datatype Async = Running | Ready(result: Option<Error>) | Sent(result: Option<Error>)

  /** The user command's process. It is not started under a context that is over. */
  datatype Process = NotStarted | Up | Over(result: Option<Error>) | Refused(err: Error)

  datatype Branch = ByContext(cause: ContextError) | ByCommand(result: Option<Error>)

  datatype Main =
    | Selecting
    | Canceling(branch: Branch)
    | Joining(branch: Branch)
    | Done(via: Option<Branch>, result: Option<Error>)  // via no branch: the sidecar's

  datatype State = State(
    ctx: Option<ContextError>,         // the context given to Exec
    canceled: bool,                    // cancel was called on the inner context
    process: Process,
    command: Async, sidecar: Async,
    commandDone: seq<Option<Error>>, sidecarDone: seq<Option<Error>>,
    isDefault: bool,                   // no sidecar was given: the default one waits for the inner context
    main: Main)

  const CAPACITY := 1

  datatype Action =
    | ContextEnds(cause: ContextError) | ProcessEnds(result: Option<Error>) | SidecarEnds(result: Option<Error>)
    | StartProcess | StartFails(err: Error) | CommandSeesExit | CommandSeesCancel | SendCommand | SendSidecar
    | SelectContext | SelectCommand | SelectSidecar | CallCancel | Join

  predicate InnerDone(s: State) {
    s.ctx.Some? || s.canceled
  }

  predicate Enabled(s: State, a: Action) {
    match a
    case ContextEnds(_) => s.ctx.None?
    case StartProcess => s.command.Running? && s.process.NotStarted? && !InnerDone(s)
    case StartFails(_) => s.command.Running? && s.process.NotStarted?
    case ProcessEnds(_) => s.process.Up?
    case CommandSeesExit => s.command.Running? && s.process.Over?
    case CommandSeesCancel => s.command.Running? && (s.process.Up? || s.process.Over?) && InnerDone(s)
    case SidecarEnds(result) => s.sidecar.Running? && (s.isDefault ==> InnerDone(s) && result.None?)
    case SendCommand => s.command.Ready? && |s.commandDone| < CAPACITY
    case SendSidecar => s.sidecar.Ready? && |s.sidecarDone| < CAPACITY
    case SelectContext => s.main.Selecting? && s.ctx.Some?
    case SelectCommand => s.main.Selecting? && s.commandDone != []
    case SelectSidecar => s.main.Selecting? && s.sidecarDone != []
    case CallCancel => s.main.Canceling?
    case Join => s.main.Joining? && s.sidecarDone != []
  }

  function ResultOf(branch: Branch): Option<Error> {
    match branch
    case ByContext(cause) => Some(Context(cause))
    case ByCommand(result) => result
  }

  function Next(s: State, a: Action): State
    requires Enabled(s, a)
  {
    match a
    case ContextEnds(cause) => s.(ctx := Some(cause))
    case StartProcess => s.(process := Up)
    case StartFails(err) => s.(process := Refused(err), command := Ready(Some(err)))
    case ProcessEnds(result) => s.(process := Over(result))
    case CommandSeesExit => s.(command := Ready(s.process.result))
    case CommandSeesCancel => s.(command := Ready(None))
    case SidecarEnds(result) => s.(sidecar := Ready(result))
    case SendCommand => s.(command := Sent(s.command.result), commandDone := s.commandDone + [s.command.result])
    case SendSidecar => s.(sidecar := Sent(s.sidecar.result), sidecarDone := s.sidecarDone + [s.sidecar.result])
    case SelectContext => s.(main := Canceling(ByContext(s.ctx.value)))
    case SelectCommand => s.(main := Canceling(ByCommand(s.commandDone[0])), commandDone := s.commandDone[1..])
    case SelectSidecar =>
      // the deferred cancel runs on the way out
      s.(main := Done(None, s.sidecarDone[0]), sidecarDone := s.sidecarDone[1..], canceled := true)
    case CallCancel => s.(main := Joining(s.main.branch), canceled := true)
    case Join =>
      s.(main := Done(Some(s.main.branch), ResultOf(s.main.branch)), sidecarDone := s.sidecarDone[1..])
  }

  predicate Initial(s: State) {
    && !s.canceled && s.process.NotStarted? && s.command.Running? && s.sidecar.Running?
    && s.commandDone == [] && s.sidecarDone == [] && s.main.Selecting?
  }

  function Step(s: State, a: Action): Option<State> {
    if Enabled(s, a) then Some(Next(s, a)) else None
  }

  function Run(s: State, schedule: seq<Action>): Option<State> {
    Execute(Step, s, schedule)
  }

  ghost predicate ChannelInv(a: Async, channel: seq<Option<Error>>, received: bool) {
    match a
    case Sent(result) => channel == if received then [] else [result]
    case _ => channel == [] && !received
  }

  ghost predicate BranchInv(s: State, branch: Branch) {
    match branch
    case ByContext(cause) => s.ctx == Some(cause)
    case ByCommand(result) => s.command == Sent(result)
  }

  predicate CommandReceived(s: State) {
    && s.command.Sent?
    && match s.main
       case Selecting => false
       case Canceling(branch) => branch.ByCommand?
       case Joining(branch) => branch.ByCommand?
       case Done(via, _) => via.Some? && via.value.ByCommand?
  }

  /** The process has ended with this result, or failed to start with it. */
  predicate EndedWith(process: Process, result: Option<Error>) {
    process == Over(result) || (process.Refused? && result == Some(process.err))
  }

  /** A result of execChild is the process's, unless the inner context was over. */
  ghost predicate ProcessInv(s: State) {
    && (!s.command.Running? ==> EndedWith(s.process, s.command.result) || InnerDone(s))
    && (CommandReceived(s) ==> EndedWith(s.process, s.command.result) || s.ctx.Some?)
  }

  ghost predicate Inv(s: State) {
    && ProcessInv(s)
    && ChannelInv(s.command, s.commandDone, CommandReceived(s))
    && ChannelInv(s.sidecar, s.sidecarDone, s.main.Done?)
    && (s.canceled <==> s.main.Joining? || s.main.Done?)
    && (match s.main
        case Selecting => true
        case Canceling(branch) => BranchInv(s, branch)
        case Joining(branch) => BranchInv(s, branch)
        case Done(None, result) => s.sidecar == Sent(result) && (s.isDefault ==> result.None? && s.ctx.Some?)
        case Done(Some(branch), result) => BranchInv(s, branch) && result == ResultOf(branch))
    && (s.isDefault && !s.sidecar.Running? ==> InnerDone(s) && s.sidecar.result.None?)
  }

  lemma ActionKeepsInv(s: State, a: Action)
    requires Inv(s) && Enabled(s, a)
    ensures Inv(Next(s, a)) && Next(s, a).isDefault == s.isDefault
  {
  }

  lemma ScheduleKeepsInv(s: State, schedule: seq<Action>)
    requires Initial(s) && Run(s, schedule).Some?
    ensures Inv(Run(s, schedule).value) && Run(s, schedule).value.isDefault == s.isDefault
  {
    forall t, a | Inv(t) && Step(t, a).Some?
      ensures Inv(Step(t, a).value) && Step(t, a).value.isDefault == t.isDefault
    {
      ActionKeepsInv(t, a);
    }
    InvariantHolds(Step, (t: State) => Inv(t) && t.isDefault == s.isDefault, s, schedule);
  }

  /**
   Sidecar join. Whichever branch fired, when Exec has returned the sidecar has completed;
   in the context and command branches the inner context was canceled before the join. The
   result is the context's error, the command's or the sidecar's, as the branch says. The
   command's is how its process ended, unless the context is over.
   */
  lemma SidecarIsJoined(s: State, schedule: seq<Action>)
    requires Initial(s) && Run(s, schedule).Some?
    ensures var t := Run(s, schedule).value;
            && (t.main.Joining? ==> t.canceled)
            && (t.main.Done? ==>
                  && t.sidecar.Sent? && t.canceled
                  && match t.main.via
                     case Some(ByContext(cause)) => t.ctx == Some(cause) && t.main.result == Some(Context(cause))
                     case Some(ByCommand(result)) => t.command == Sent(result) && t.main.result == result
                                                     && (EndedWith(t.process, result) || t.ctx.Some?)
                     case None => t.sidecar == Sent(t.main.result))
  {
    ScheduleKeepsInv(s, schedule);
  }

  /**
   Without a sidecar, the sidecar branch can only fire once the context has ended; Exec then
   reports no error, unlike the context branch that was open at the same moment.
   */
  lemma DefaultSidecarMeansContextEnded(s: State, schedule: seq<Action>)
    requires Initial(s) && s.isDefault && Run(s, schedule).Some?
    ensures var t := Run(s, schedule).value;
            t.main.Done? && t.main.via.None? ==> t.ctx.Some? && t.main.result.None?
  {
    ScheduleKeepsInv(s, schedule);
  }

  /**
   No deadlock: neither goroutine's send ever blocks, and Exec can move whenever something
   it waits for has happened; at the join that something is the sidecar alone, which by
   then has been told to stop.
   */
  lemma NothingIsStuck(s: State, schedule: seq<Action>)
    requires Initial(s) && Run(s, schedule).Some?
    ensures var t := Run(s, schedule).value;
            && (t.command.Ready? ==> Enabled(t, SendCommand))
            && (t.sidecar.Ready? ==> Enabled(t, SendSidecar))
            && (t.main.Canceling? ==> Enabled(t, CallCancel))
            && (t.main.Joining? && !t.sidecar.Running? ==> Enabled(t, SendSidecar) || Enabled(t, Join))
            && (t.main.Joining? && t.isDefault && t.sidecar.Running? ==> Enabled(t, SidecarEnds(None)))
            && (t.main.Selecting? && (t.ctx.Some? || t.command.Sent? || t.sidecar.Sent?) ==>
                  Enabled(t, SelectContext) || Enabled(t, SelectCommand) || Enabled(t, SelectSidecar))
  {
    ScheduleKeepsInv(s, schedule);
  }

  function AsyncRank(a: Async): nat {
    match a
    case Running => 2
    case Ready(_) => 1
    case Sent(_) => 0
  }

  function ProcessRank(p: Process): nat {
    match p
    case NotStarted => 2
    case Up => 1
    case _ => 0
  }

  function MainRank(m: Main): nat {
    match m
    case Selecting => 3
    case Canceling(_) => 2
    case Joining(_) => 1
    case Done(_, _) => 0
  }

  function Remaining(s: State): nat {
    (if s.ctx.None? then 1 else 0) + ProcessRank(s.process)
    + AsyncRank(s.command) + AsyncRank(s.sidecar) + MainRank(s.main)
  }

  lemma ActionUsesUp(s: State, a: Action)
    requires Enabled(s, a)
    ensures Remaining(Next(s, a)) < Remaining(s)
  {
  }

  /** Every schedule is short. */
  lemma SchedulesAreShort(s: State, schedule: seq<Action>)
    requires Initial(s) && Run(s, schedule).Some?
    ensures |schedule| + Remaining(Run(s, schedule).value) <= 10
  {
    forall t, a | Step(t, a).Some?
      ensures Remaining(Step(t, a).value) < Remaining(t)
    {
      ActionUsesUp(t, a);
    }
    RankBoundsLength(Step, (t: State) => true, Remaining, s, schedule);
  }

  /** A schedule that cannot go on has Exec returned. */
  lemma ExecReturns(s: State, schedule: seq<Action>)
    requires Initial(s) && Run(s, schedule).Some?
    requires forall a :: !Enabled(Run(s, schedule).value, a)
    ensures Run(s, schedule).value.main.Done?
  {
    var t := Run(s, schedule).value;
    ScheduleKeepsInv(s, schedule);
    assert !Enabled(t, ContextEnds(Canceled)) && !Enabled(t, SelectContext) && !Enabled(t, CallCancel);
    assert !Enabled(t, SidecarEnds(None)) && !Enabled(t, SendSidecar) && !Enabled(t, Join);
  }

  // ---------- The user command ----------

  /** How Exec returned. */
  datatype Exit = OnContext | OnCommand | OnSidecar

  function ExitOf(via: Option<Branch>): Exit {
    match via
    case Some(ByContext(_)) => OnContext
    case Some(ByCommand(_)) => OnCommand
    case None => OnSidecar
  }

  /** The schedule returns from Exec this way, and the context ends in it only if it may. */
  predicate Returns(s: State, schedule: seq<Action>, exit: Exit, mayEnd: bool) {
    && Run(s, schedule).Some?
    && Run(s, schedule).value.main.Done?
    && ExitOf(Run(s, schedule).value.main.via) == exit
    && (Run(s, schedule).value.ctx == s.ctx || mayEnd)
  }

  /** The command's process is up, and then, if it may, the context ends. */
  lemma ProcessIsUp(s: State, mayEnd: bool) returns (schedule: seq<Action>, t: State)
    requires Initial(s) && s.ctx.None?
    ensures Run(s, schedule) == Some(t)
    ensures t == s.(process := Up, ctx := if mayEnd then Some(Canceled) else None)
  {
    schedule, t := Extend(Step, s, [], s, StartProcess);
    if mayEnd {
      schedule, t := Extend(Step, s, schedule, t, ContextEnds(Canceled));
    }
  }

  /** The sidecar ends once Exec has canceled the inner context, and Exec joins it. */
  lemma CancelAndJoin(s: State, schedule: seq<Action>, t: State, branch: Branch)
    returns (longer: seq<Action>, u: State)
    requires Run(s, schedule) == Some(t) && t.main == Canceling(branch) && t.sidecar.Running? && t.sidecarDone == []
    ensures Run(s, longer) == Some(u) && u.main == Done(Some(branch), ResultOf(branch))
    ensures u.ctx == t.ctx && u.process == t.process
  {
    longer, u := Extend(Step, s, schedule, t, CallCancel);
    longer, u := Extend(Step, s, longer, u, SidecarEnds(None));
    longer, u := Extend(Step, s, longer, u, SendSidecar);
    longer, u := Extend(Step, s, longer, u, Join);
  }

  /** The context branch: the join waits for the sidecar, not for the command. */
  lemma ProcessOutlivesContextBranch(s: State) returns (schedule: seq<Action>)
    requires Initial(s) && s.ctx.None?
    ensures Returns(s, schedule, OnContext, true) && Run(s, schedule).value.process.Up?
  {
    var t;
    schedule, t := ProcessIsUp(s, true);
    schedule, t := Extend(Step, s, schedule, t, SelectContext);
    schedule, t := CancelAndJoin(s, schedule, t, ByContext(Canceled));
  }

  /** The command branch: execChild returned because the context is over, not because the process ended. */
  lemma ProcessOutlivesCommandBranch(s: State) returns (schedule: seq<Action>)
    requires Initial(s) && s.ctx.None?
    ensures Returns(s, schedule, OnCommand, true) && Run(s, schedule).value.process.Up?
    ensures Run(s, schedule).value.main.result.None?
  {
    var t;
    schedule, t := ProcessIsUp(s, true);
    schedule, t := Extend(Step, s, schedule, t, CommandSeesCancel);
    schedule, t := Extend(Step, s, schedule, t, SendCommand);
    schedule, t := Extend(Step, s, schedule, t, SelectCommand);
    schedule, t := CancelAndJoin(s, schedule, t, ByCommand(None));
  }

  /** The sidecar branch: nothing is waited for. */
  lemma ProcessOutlivesSidecarBranch(s: State, mayEnd: bool) returns (schedule: seq<Action>)
    requires Initial(s) && s.ctx.None? && (mayEnd || !s.isDefault)
    ensures Returns(s, schedule, OnSidecar, mayEnd) && Run(s, schedule).value.process.Up?
  {
    var t;
    schedule, t := ProcessIsUp(s, mayEnd);
    schedule, t := Extend(Step, s, schedule, t, SidecarEnds(None));
    schedule, t := Extend(Step, s, schedule, t, SendSidecar);
    schedule, t := Extend(Step, s, schedule, t, SelectSidecar);
  }

  /** Under a context that was over from the start, the process is never up. */
  lemma {:induction false} NeverStarted(s: State, schedule: seq<Action>)
    requires Initial(s) && s.ctx.Some? && Run(s, schedule).Some?
    ensures Run(s, schedule).value.ctx.Some? && !Run(s, schedule).value.process.Up?
  {
    if schedule != [] {
      NeverStarted(s, schedule[..|schedule| - 1]);
    }
  }

  /**
   Exactly when it is certain that the user command is not running once Exec has returned.
   Either the context was over from the start, and the command is never started; or the
   context does not end, and the return is not on the branch of a given sidecar. The command
   branch alone is no guarantee, because execChild itself returns at the end of the context
   without waiting for the process.
   */
  lemma CommandIsOverIff(s: State, exit: Exit, mayEnd: bool)
    requires Initial(s)
    ensures (forall schedule | Returns(s, schedule, exit, mayEnd) :: !Run(s, schedule).value.process.Up?)
            <==> s.ctx.Some? || (!mayEnd && (exit.OnSidecar? ==> s.isDefault))
  {
    if s.ctx.Some? {
      forall schedule | Returns(s, schedule, exit, mayEnd)
        ensures !Run(s, schedule).value.process.Up?
      {
        NeverStarted(s, schedule);
      }
    } else if mayEnd || (exit.OnSidecar? && !s.isDefault) {
      var schedule;
      match exit {
        case OnContext => schedule := ProcessOutlivesContextBranch(s);
        case OnSidecar => schedule := ProcessOutlivesSidecarBranch(s, mayEnd);
        case OnCommand => schedule := ProcessOutlivesCommandBranch(s);
      }
      assert Returns(s, schedule, exit, mayEnd);
    } else {
      forall schedule | Returns(s, schedule, exit, mayEnd)
        ensures !Run(s, schedule).value.process.Up?
      {
        SidecarIsJoined(s, schedule);
        ScheduleKeepsInv(s, schedule);
      }
    }
  }
}
