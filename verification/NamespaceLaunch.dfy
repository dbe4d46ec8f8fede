/**
 The first stage of a namespaced launch. The parent starts a child that blocks on a sync
 pipe, a goroutine that brings the network up through slirp4netns, and, inside it, a
 goroutine that waits for slirp's ready byte. The parent releases the child once it hears
 on the ready channel. Any interleaving of the four, of slirp and of the context is a
 schedule.
 */
module NamespaceLaunch {
  import opened Schedules
  import opened Values

  /** How launchNetwork ended. */
  datatype NetworkResult = SetupFailed | ReadFailed | ContextDone | SlirpExited

  /** launchNetwork and the goroutine around it. */
  datatype Network =
    | Starting
    | Looping
    | Stopping(result: NetworkResult)      // returning: kill slirp, close the ready pipe
    | PipeClosed(result: NetworkResult)    // about to close the ready channel
    | Returned(result: NetworkResult)      // about to report on the done channel
    | Reported(result: NetworkResult)

  datatype Reader = NotStarted | Reading | GotByte | Announced | Failed | Ended(announced: bool)

  datatype LaunchResult =
    | ByNetwork(result: NetworkResult)
    | SyncFailed
    | ByContext
    | ByChild
    | AfterNetwork(result: NetworkResult)

  datatype Parent = AwaitReady | AwaitNetwork | Syncing | Selecting | Done(result: LaunchResult)

  datatype Child = Blocked | Launched | Gone

  datatype State = State(
    ctx: bool,                    // the caller's context is canceled
    parent: Parent, network: Network, reader: Reader, child: Child,
    slirpUp: bool, readyByte: bool,   // slirp runs; it has written its ready byte
    ready: bool, readyClosed: bool,   // the ready channel holds a value; it is closed
    verdict: Option<bool>,            // what the reader reported to launchNetwork, until it is received
    done: Option<NetworkResult>,      // the done channel
    synced: bool,                     // SYNC is in the sync pipe
    commandStarted: bool,             // history: the child went on to the user command
    crashed: bool)                    // a send on the closed ready channel took the parent process down

  datatype Action =
    | CancelContext | SlirpWritesReady | SlirpExits | ChildDies      // environment
    | StartFails | Start | HearReader | SeeContext | SeeExit | ClosePipe | CloseReady | Report
    | ReadByte | ReadFails | SendReady | TellNetwork
    | HearReady | HearClosed | HearNetwork | WriteSync | WriteFails | SelectContext | SelectChild | SelectNetwork
    | ChildHearsSync | ChildHearsEOF

  datatype Actor = Environment | NetworkTask | ReaderTask | ParentTask | ChildTask

  function ActorOf(a: Action): Actor {
    match a
    case CancelContext => Environment
    case SlirpWritesReady => Environment
    case SlirpExits => Environment
    case ChildDies => Environment
    case ReadByte => ReaderTask
    case ReadFails => ReaderTask
    case SendReady => ReaderTask
    case TellNetwork => ReaderTask
    case ChildHearsSync => ChildTask
    case ChildHearsEOF => ChildTask
    case _ => if a.StartFails? || a.Start? || a.HearReader? || a.SeeContext? || a.SeeExit? || a.ClosePipe?
                 || a.CloseReady? || a.Report? then NetworkTask else ParentTask
  }

  /** The context given to the network and the child also ends when LaunchNS returns. */
  predicate InnerDone(s: State) {
    s.ctx || s.parent.Done?
  }

  predicate Enabled(s: State, a: Action) {
    match a
    case CancelContext => !s.ctx
    case SlirpWritesReady => s.slirpUp && !s.readyByte
    case SlirpExits => s.slirpUp
    case ChildDies => !s.child.Gone?
    case ChildHearsSync => s.child.Blocked? && s.synced
    case ChildHearsEOF => s.child.Blocked? && !s.synced && (s.parent.Done? || s.crashed)
    case _ => !s.crashed && ParentProcessEnabled(s, a)
  }

  /** Steps of the goroutines of the parent process. */
  predicate ParentProcessEnabled(s: State, a: Action) {
    match a
    case StartFails => s.network.Starting?
    case Start => s.network.Starting? && !InnerDone(s)  // a process is not started under a context that is over
    case HearReader => s.network.Looping? && s.verdict.Some?
    case SeeContext => s.network.Looping? && InnerDone(s)
    case SeeExit => s.network.Looping? && !s.slirpUp
    case ClosePipe => s.network.Stopping?
    case CloseReady => s.network.PipeClosed?
    case Report => s.network.Returned? && s.done.None?
    case ReadByte => s.reader.Reading? && s.readyByte && !PipeIsClosed(s)
    case ReadFails => s.reader.Reading?
    case SendReady => s.reader.GotByte? && (s.readyClosed || !s.ready)
    case TellNetwork => s.reader.Announced? || s.reader.Failed?
    case HearReady => s.parent.AwaitReady? && s.ready
    case HearClosed => s.parent.AwaitReady? && !s.ready && s.readyClosed
    case HearNetwork => s.parent.AwaitNetwork? && s.done.Some?
    case WriteSync => s.parent.Syncing?
    case WriteFails => s.parent.Syncing?
    case SelectContext => s.parent.Selecting? && s.ctx
    case SelectChild => s.parent.Selecting? && s.child.Gone?
    case SelectNetwork => s.parent.Selecting? && s.done.Some?
    case _ => false
  }

  predicate PipeIsClosed(s: State) {
    s.network.PipeClosed? || s.network.Returned? || s.network.Reported?
  }

  function Next(s: State, a: Action): State
    requires Enabled(s, a)
  {
    match a
    case CancelContext => s.(ctx := true)
    case SlirpWritesReady => s.(readyByte := true)
    case SlirpExits => s.(slirpUp := false)
    case ChildDies => s.(child := Gone)
    case StartFails => s.(network := Stopping(SetupFailed))
    case Start => s.(network := Looping, slirpUp := true, reader := Reading)
    case HearReader =>
      var s' := s.(verdict := None);
      if s.verdict.value then s' else s'.(network := Stopping(ReadFailed))
    case SeeContext => s.(network := Stopping(ContextDone))
    case SeeExit => s.(network := Stopping(SlirpExited))
    case ClosePipe => s.(network := PipeClosed(s.network.result), slirpUp := false)
    case CloseReady => s.(network := Returned(s.network.result), readyClosed := true)
    case Report => s.(network := Reported(s.network.result), done := Some(s.network.result))
    case ReadByte => s.(reader := GotByte)
    case ReadFails => s.(reader := Failed)
    case SendReady => if s.readyClosed then s.(crashed := true) else s.(reader := Announced, ready := true)
    case TellNetwork => s.(reader := Ended(s.reader.Announced?), verdict := Some(s.reader.Announced?))
    case HearReady => s.(parent := Syncing, ready := false)
    case HearClosed => s.(parent := AwaitNetwork)
    case HearNetwork => s.(parent := Done(ByNetwork(s.done.value)), done := None)
    case WriteSync => s.(parent := Selecting, synced := true)
    case WriteFails => s.(parent := Done(SyncFailed))
    case SelectContext => s.(parent := Done(ByContext))
    case SelectChild => s.(parent := Done(ByChild))
    case SelectNetwork => s.(parent := Done(AfterNetwork(s.done.value)), done := None)
    case ChildHearsSync => s.(child := Launched, commandStarted := true)
    case ChildHearsEOF => s.(child := Gone)
  }

  function Initial(ctx: bool): State {
    State(ctx, AwaitReady, Starting, NotStarted, Blocked, false, false, false, false, None, None, false, false, false)
  }

  function Step(s: State, a: Action): Option<State> {
    if Enabled(s, a) then Some(Next(s, a)) else None
  }

  function Run(s: State, schedule: seq<Action>): Option<State> {
    Execute(Step, s, schedule)
  }

  /** The reader got slirp's byte and is past its send on the ready channel. */
  predicate Told(s: State) {
    s.reader.Announced? || s.reader == Ended(true)
  }

  /** The parent has received the value from the ready channel. */
  predicate Heard(s: State) {
    s.parent.Syncing? || s.parent.Selecting? || (s.parent.Done? && !s.parent.result.ByNetwork?)
  }

  ghost predicate HandshakeInv(s: State) {
    && (s.child.Launched? ==> s.commandStarted) && (s.commandStarted ==> s.synced) && (s.synced ==> Heard(s))
    && (Told(s) <==> s.ready || Heard(s)) && (s.ready ==> s.parent.AwaitReady?)
    && (Told(s) || s.reader.GotByte? ==> s.readyByte)
    && (s.network.Starting? ==> s.reader.NotStarted?)
    && (s.crashed ==> s.reader.GotByte? && s.readyClosed)
  }

  ghost predicate NetworkInv(s: State) {
    && (s.readyClosed <==> s.network.Returned? || s.network.Reported?)
    && (s.parent.AwaitNetwork? ==> s.readyClosed)
    && (s.done.Some? ==> s.network == Reported(s.done.value))
    && (s.network.Reported? && s.done.None? ==>
          s.parent == Done(ByNetwork(s.network.result)) || s.parent == Done(AfterNetwork(s.network.result)))
    && (s.parent.Done? && s.parent.result.ByNetwork? ==> s.network == Reported(s.parent.result.result))
    && (s.parent.Done? && s.parent.result.AfterNetwork? ==> s.network == Reported(s.parent.result.result))
  }

  ghost predicate Inv(s: State) {
    HandshakeInv(s) && NetworkInv(s)
  }

  lemma StartKeepsInv(s: State, a: Action)
    requires Inv(s) && Enabled(s, a) && (a.StartFails? || a.Start?)
    ensures Inv(Next(s, a))
  {
  }

  lemma HearReaderKeepsInv(s: State)
    requires Inv(s) && Enabled(s, HearReader)
    ensures Inv(Next(s, HearReader))
  {
    var t := Next(s, HearReader);
    assert t == s.(verdict := None, network := t.network) && (t.network == s.network || t.network.Stopping?);
  }

  lemma LeaveLoopKeepsInv(s: State, a: Action)
    requires Inv(s) && Enabled(s, a) && (a.SeeContext? || a.SeeExit?)
    ensures Inv(Next(s, a))
  {
  }

  lemma UnwindKeepsInv(s: State, a: Action)
    requires Inv(s) && Enabled(s, a) && (a.ClosePipe? || a.CloseReady? || a.Report?)
    ensures Inv(Next(s, a))
  {
  }

  lemma NetworkKeepsInv(s: State, a: Action)
    requires Inv(s) && Enabled(s, a) && ActorOf(a).NetworkTask?
    ensures Inv(Next(s, a))
  {
    if a.StartFails? || a.Start? {
      StartKeepsInv(s, a);
    } else if a.HearReader? {
      HearReaderKeepsInv(s);
    } else if a.SeeContext? || a.SeeExit? {
      LeaveLoopKeepsInv(s, a);
    } else {
      UnwindKeepsInv(s, a);
    }
  }

  lemma ReaderKeepsInv(s: State, a: Action)
    requires Inv(s) && Enabled(s, a) && ActorOf(a).ReaderTask?
    ensures Inv(Next(s, a))
  {
  }

  lemma ParentKeepsInv(s: State, a: Action)
    requires Inv(s) && Enabled(s, a) && ActorOf(a).ParentTask?
    ensures Inv(Next(s, a))
  {
  }

  lemma OthersKeepInv(s: State, a: Action)
    requires Inv(s) && Enabled(s, a) && (ActorOf(a).Environment? || ActorOf(a).ChildTask?)
    ensures Inv(Next(s, a))
  {
  }

  lemma ActionKeepsInv(s: State, a: Action)
    requires Inv(s) && Enabled(s, a)
    ensures Inv(Next(s, a))
  {
    match ActorOf(a)
    case NetworkTask => NetworkKeepsInv(s, a);
    case ReaderTask => ReaderKeepsInv(s, a);
    case ParentTask => ParentKeepsInv(s, a);
    case _ => OthersKeepInv(s, a);
  }

  lemma ScheduleKeepsInv(ctx: bool, schedule: seq<Action>)
    requires Run(Initial(ctx), schedule).Some?
    ensures Inv(Run(Initial(ctx), schedule).value)
  {
    forall t, a | Inv(t) && Step(t, a).Some?
      ensures Inv(Step(t, a).value)
    {
      ActionKeepsInv(t, a);
    }
    InvariantHolds(Step, Inv, Initial(ctx), schedule);
  }

  /**
   Handshake safety. In every interleaving the user command has started only if slirp
   wrote its ready byte, the reader got it and announced it, and the parent then wrote SYNC.
   */
  lemma CommandStartsAfterHandshake(ctx: bool, schedule: seq<Action>)
    requires Run(Initial(ctx), schedule).Some?
    ensures var t := Run(Initial(ctx), schedule).value;
            t.commandStarted || t.child.Launched? ==> t.synced && Heard(t) && Told(t) && t.readyByte
  {
    ScheduleKeepsInv(ctx, schedule);
  }

  /**
   If the ready channel closes without a value, the parent never writes SYNC, the command
   never starts, and LaunchNS returns what launchNetwork returned.
   */
  lemma ClosedWithoutValue(ctx: bool, schedule: seq<Action>)
    requires Run(Initial(ctx), schedule).Some?
    ensures var t := Run(Initial(ctx), schedule).value;
            && (t.parent.AwaitNetwork? ==> !t.synced && !t.commandStarted)
            && (t.parent.Done? && t.parent.result.ByNetwork? ==>
                  !t.synced && !t.commandStarted && t.network == Reported(t.parent.result.result))
  {
    ScheduleKeepsInv(ctx, schedule);
  }

  function ResultOf(n: Network): Option<NetworkResult> {
    match n
    case Starting => None
    case Looping => None
    case Stopping(result) => Some(result)
    case PipeClosed(result) => Some(result)
    case Returned(result) => Some(result)
    case Reported(result) => Some(result)
  }

  /** Why launchNetwork stopped: what its result says is so. */
  ghost predicate NetworkCause(s: State) {
    match ResultOf(s.network)
    case None => true
    case Some(SetupFailed) => s.reader.NotStarted?
    case Some(ReadFailed) => s.reader == Ended(false)
    case Some(ContextDone) => InnerDone(s)
    case Some(SlirpExited) => !s.slirpUp && !s.reader.NotStarted?
  }

  /** Why LaunchNS returned. */
  ghost predicate LaunchCause(s: State) {
    match s.parent
    case Done(ByContext) => s.ctx && s.synced
    case Done(ByChild) => s.child.Gone? && s.synced
    case Done(SyncFailed) => !s.synced
    case Done(AfterNetwork(result)) => s.synced && ResultOf(s.network) == Some(result)
    case Done(ByNetwork(result)) => !s.synced && ResultOf(s.network) == Some(result)
    case Selecting => s.synced
    case _ => !s.synced
  }

  ghost predicate CauseInv(s: State) {
    && Inv(s) && NetworkCause(s) && LaunchCause(s)
    && (s.verdict.Some? ==> s.reader == Ended(s.verdict.value))
    && (s.network.Looping? ==> !s.reader.NotStarted?)
    && (s.slirpUp ==> s.network.Looping? || s.network.Stopping?)
  }

  lemma NetworkKeepsCause(s: State, a: Action)
    requires CauseInv(s) && Enabled(s, a) && ActorOf(a).NetworkTask?
    ensures CauseInv(Next(s, a))
  {
    NetworkKeepsInv(s, a);
  }

  lemma ReaderKeepsCause(s: State, a: Action)
    requires CauseInv(s) && Enabled(s, a) && ActorOf(a).ReaderTask?
    ensures CauseInv(Next(s, a))
  {
    ReaderKeepsInv(s, a);
  }

  lemma ParentKeepsCause(s: State, a: Action)
    requires CauseInv(s) && Enabled(s, a) && ActorOf(a).ParentTask?
    ensures CauseInv(Next(s, a))
  {
    ParentKeepsInv(s, a);
  }

  lemma OthersKeepCause(s: State, a: Action)
    requires CauseInv(s) && Enabled(s, a) && (ActorOf(a).Environment? || ActorOf(a).ChildTask?)
    ensures CauseInv(Next(s, a))
  {
    OthersKeepInv(s, a);
  }

  /**
   Every result tells the truth, in every interleaving: LaunchNS returns by the context only
   if it is canceled, by the child only if that is gone, and by the network with
   launchNetwork's own result; launchNetwork stops by the context only if that is over, by
   slirp's exit only if slirp ran and is down, and by a failed read only if there was one.
   When it has returned, slirp is down.
   */
  lemma ResultsAreTrue(ctx: bool, schedule: seq<Action>)
    requires Run(Initial(ctx), schedule).Some?
    ensures NetworkCause(Run(Initial(ctx), schedule).value) && LaunchCause(Run(Initial(ctx), schedule).value)
    ensures Run(Initial(ctx), schedule).value.readyClosed ==> !Run(Initial(ctx), schedule).value.slirpUp
  {
    forall t, a | CauseInv(t) && Step(t, a).Some?
      ensures CauseInv(Step(t, a).value)
    {
      match ActorOf(a)
      case NetworkTask => NetworkKeepsCause(t, a);
      case ReaderTask => ReaderKeepsCause(t, a);
      case ParentTask => ParentKeepsCause(t, a);
      case _ => OthersKeepCause(t, a);
    }
    InvariantHolds(Step, CauseInv, Initial(ctx), schedule);
  }

  /** The child is not left behind: once LaunchNS has returned or crashed, or SYNC was written, it stops blocking. */
  lemma ChildIsReleased(ctx: bool, schedule: seq<Action>)
    requires Run(Initial(ctx), schedule).Some?
    ensures var t := Run(Initial(ctx), schedule).value;
            && (t.child.Blocked? && t.synced ==> Enabled(t, ChildHearsSync) && !Enabled(t, ChildHearsEOF))
            && (t.child.Blocked? && !t.synced && (t.parent.Done? || t.crashed) ==>
                  Enabled(t, ChildHearsEOF) && !Enabled(t, ChildHearsSync))
  {
    ScheduleKeepsInv(ctx, schedule);
  }

  /** Steps that neither the environment takes nor a failing system call, except where it is bound to fail. */
  predicate IsProgress(s: State, a: Action) {
    && !ActorOf(a).Environment? && !a.ReadFails? && !a.WriteFails?
    && (a.StartFails? ==> InnerDone(s))
  }

  /**
   No deadlock. Until LaunchNS has returned, some step can be taken whenever the context is
   canceled, slirp is down, or launchNetwork is not in its loop.
   */
  lemma NothingIsStuck(ctx: bool, schedule: seq<Action>)
    requires Run(Initial(ctx), schedule).Some?
    ensures var t := Run(Initial(ctx), schedule).value;
            !t.parent.Done? && !t.crashed && (t.ctx || !t.slirpUp || !t.network.Looping?) ==>
              exists a :: IsProgress(t, a) && Enabled(t, a)
  {
    ScheduleKeepsInv(ctx, schedule);
    var t := Run(Initial(ctx), schedule).value;
    if !t.parent.Done? && !t.crashed && (t.ctx || !t.slirpUp || !t.network.Looping?) {
      var a :=
        match t.network
        case Starting => if t.ctx then StartFails else Start
        case Looping => if t.ctx then SeeContext else SeeExit
        case Stopping(_) => ClosePipe
        case PipeClosed(_) => CloseReady
        case Returned(_) => Report
        case Reported(_) =>
          match t.parent
          case AwaitReady => if t.ready then HearReady else HearClosed
          case AwaitNetwork => HearNetwork
          case Syncing => WriteSync
          case _ => SelectNetwork;
      assert IsProgress(t, a) && Enabled(t, a);
    }
  }

  function NetworkRank(n: Network): nat {
    match n
    case Starting => 6 case Looping => 4 case Stopping(_) => 3
    case PipeClosed(_) => 2 case Returned(_) => 1 case Reported(_) => 0
  }

  function ReaderRank(r: Reader): nat {
    match r
    case NotStarted => 5 case Reading => 4 case GotByte => 3
    case Announced => 2 case Failed => 2 case Ended(_) => 0
  }

  function ParentRank(p: Parent): nat {
    match p
    case AwaitReady => 4 case Syncing => 3 case Selecting => 2 case AwaitNetwork => 1 case Done(_) => 0
  }

  function ChildRank(c: Child): nat {
    match c
    case Blocked => 2 case Launched => 1 case Gone => 0
  }

  function One(b: bool): nat {
    if b then 1 else 0
  }

  function Remaining(s: State): nat {
    One(!s.ctx) + One(!s.readyByte) + One(s.slirpUp) + One(!s.crashed) + One(s.verdict.Some?)
    + NetworkRank(s.network) + ReaderRank(s.reader) + ParentRank(s.parent) + ChildRank(s.child)
  }

  lemma StartUsesUp(s: State)
    requires Inv(s) && Enabled(s, Start)
    ensures Remaining(Next(s, Start)) < Remaining(s)
  {
    assert Next(s, Start) == s.(network := Looping, slirpUp := true, reader := Reading);
  }

  lemma HearReaderUsesUp(s: State)
    requires Inv(s) && Enabled(s, HearReader)
    ensures Remaining(Next(s, HearReader)) < Remaining(s)
  {
    var t := Next(s, HearReader);
    assert t == s.(verdict := None, network := t.network);
  }

  lemma StopUsesUp(s: State, a: Action)
    requires Enabled(s, a) && (a.StartFails? || a.SeeContext? || a.SeeExit?)
    ensures Remaining(Next(s, a)) < Remaining(s)
  {
    var t := Next(s, a);
    assert t == s.(network := t.network) && t.network.Stopping?;
  }

  lemma UnwindUsesUp(s: State, a: Action)
    requires Enabled(s, a) && (a.ClosePipe? || a.CloseReady? || a.Report?)
    ensures Remaining(Next(s, a)) < Remaining(s)
  {
    var t := Next(s, a);
    assert t == s.(network := t.network, slirpUp := t.slirpUp, readyClosed := t.readyClosed, done := t.done);
    assert NetworkRank(t.network) < NetworkRank(s.network);
  }

  lemma NetworkUsesUp(s: State, a: Action)
    requires Inv(s) && Enabled(s, a) && ActorOf(a).NetworkTask?
    ensures Remaining(Next(s, a)) < Remaining(s)
  {
    if a.Start? {
      StartUsesUp(s);
    } else if a.HearReader? {
      HearReaderUsesUp(s);
    } else if a.StartFails? || a.SeeContext? || a.SeeExit? {
      StopUsesUp(s, a);
    } else {
      UnwindUsesUp(s, a);
    }
  }

  lemma ReaderUsesUp(s: State, a: Action)
    requires Inv(s) && Enabled(s, a) && ActorOf(a).ReaderTask?
    ensures Remaining(Next(s, a)) < Remaining(s)
  {
    var t := Next(s, a);
    assert t.parent == s.parent && t.child == s.child && t.network == s.network && t.slirpUp == s.slirpUp;
    if t.crashed {
      assert t.reader == s.reader;
    } else {
      assert ReaderRank(t.reader) < ReaderRank(s.reader);
    }
  }

  lemma ParentUsesUp(s: State, a: Action)
    requires Inv(s) && Enabled(s, a) && ActorOf(a).ParentTask?
    ensures Remaining(Next(s, a)) < Remaining(s)
  {
    var t := Next(s, a);
    assert t == s.(parent := t.parent, ready := t.ready, done := t.done, synced := t.synced);
    assert ParentRank(t.parent) < ParentRank(s.parent);
  }

  lemma OthersUseUp(s: State, a: Action)
    requires Inv(s) && Enabled(s, a) && (ActorOf(a).Environment? || ActorOf(a).ChildTask?)
    ensures Remaining(Next(s, a)) < Remaining(s)
  {
    var t := Next(s, a);
    assert t == s.(ctx := t.ctx, readyByte := t.readyByte, slirpUp := t.slirpUp, child := t.child,
                   commandStarted := t.commandStarted);
  }

  lemma ActionUsesUp(s: State, a: Action)
    requires Inv(s) && Enabled(s, a)
    ensures Remaining(Next(s, a)) < Remaining(s)
  {
    match ActorOf(a)
    case NetworkTask => NetworkUsesUp(s, a);
    case ReaderTask => ReaderUsesUp(s, a);
    case ParentTask => ParentUsesUp(s, a);
    case _ => OthersUseUp(s, a);
  }

  /** Every schedule has at most 20 steps. */
  lemma SchedulesAreShort(ctx: bool, schedule: seq<Action>)
    requires Run(Initial(ctx), schedule).Some?
    ensures |schedule| + Remaining(Run(Initial(ctx), schedule).value) <= 20
  {
    forall t, a | Inv(t) && Step(t, a).Some?
      ensures Inv(Step(t, a).value) && Remaining(Step(t, a).value) < Remaining(t)
    {
      ActionKeepsInv(t, a);
      ActionUsesUp(t, a);
    }
    RankBoundsLength(Step, Inv, Remaining, Initial(ctx), schedule);
  }

  /** So every schedule that cannot be continued ends with LaunchNS returned, or the process crashed. */
  lemma LaunchReturns(ctx: bool, schedule: seq<Action>)
    requires Run(Initial(ctx), schedule).Some?
    requires forall a :: !Enabled(Run(Initial(ctx), schedule).value, a)
    ensures var t := Run(Initial(ctx), schedule).value;
            t.parent.Done? || t.crashed
  {
    var t := Run(Initial(ctx), schedule).value;
    NothingIsStuck(ctx, schedule);
    assert !Enabled(t, CancelContext);
  }

  // ---------- The send on the closed channel ----------

  /**
   The crash needs launchNetwork to have closed the ready channel between the reader's read
   and its send. It fails safe: SYNC is never written and the command never starts.
   */
  lemma CrashFailsSafe(ctx: bool, schedule: seq<Action>)
    requires Run(Initial(ctx), schedule).Some?
    ensures var t := Run(Initial(ctx), schedule).value;
            t.crashed ==> t.readyClosed && t.reader.GotByte? && !t.synced && !t.commandStarted
  {
    ScheduleKeepsInv(ctx, schedule);
  }

  /** Only CloseReady closes the channel. */
  lemma CloseStep(s: State, a: Action)
    requires Enabled(s, a)
    ensures Next(s, a).readyClosed == (s.readyClosed || a.CloseReady?)
  {
    var t := Next(s, a);
    if a.CloseReady? {
      assert t.readyClosed;
    } else {
      assert t.readyClosed == s.readyClosed;
    }
  }

  /** Only a send after that crashes the process. */
  lemma CrashStep(s: State, a: Action)
    requires Enabled(s, a)
    ensures Next(s, a).crashed == (s.crashed || (a.SendReady? && s.readyClosed))
  {
    var t := Next(s, a);
    if a.SendReady? {
      assert !s.crashed && t.crashed == s.readyClosed;
    } else {
      assert t.crashed == s.crashed;
    }
  }

  lemma {:induction false} ClosedIff(ctx: bool, schedule: seq<Action>)
    requires Run(Initial(ctx), schedule).Some?
    ensures Run(Initial(ctx), schedule).value.readyClosed <==> CloseReady in schedule
  {
    if schedule != [] {
      var before, last := schedule[..|schedule| - 1], schedule[|schedule| - 1];
      ClosedIff(ctx, before);
      CloseStep(Run(Initial(ctx), before).value, last);
      assert schedule == before + [last];
    }
  }

  ghost predicate SendsAfterClosing(schedule: seq<Action>) {
    exists i, j | 0 <= i < j < |schedule| :: schedule[i] == CloseReady && schedule[j] == SendReady
  }

  /** Exactly when a schedule crashes: a send on the ready channel comes after its closing. */
  lemma {:induction false} CrashesIff(ctx: bool, schedule: seq<Action>)
    requires Run(Initial(ctx), schedule).Some?
    ensures Run(Initial(ctx), schedule).value.crashed <==> SendsAfterClosing(schedule)
  {
    if schedule != [] {
      var n := |schedule| - 1;
      var before, last := schedule[..n], schedule[n];
      CrashesIff(ctx, before);
      ClosedIff(ctx, before);
      CrashStep(Run(Initial(ctx), before).value, last);
      if SendsAfterClosing(before) {
        var i, j :| 0 <= i < j < n && before[i] == CloseReady && before[j] == SendReady;
        assert schedule[i] == CloseReady && schedule[j] == SendReady;
      }
      if last == SendReady && CloseReady in before {
        var i :| 0 <= i < n && before[i] == CloseReady;
        assert schedule[i] == CloseReady && schedule[n] == SendReady;
      }
      if SendsAfterClosing(schedule) {
        var i, j :| 0 <= i < j <= n && schedule[i] == CloseReady && schedule[j] == SendReady;
        assert before[i] == CloseReady && (j < n ==> before[j] == SendReady);
      }
    }
  }

  /** The context lives, slirp stays up, and launchNetwork leaves its loop only once the reader is past its send. */
  ghost predicate Calm(s: State) {
    && Inv(s) && !s.ctx && !s.crashed
    && (s.network.Looping? ==> s.slirpUp)
    && (s.verdict.Some? ==> s.reader == Ended(s.verdict.value))
    && (s.network.Starting? || s.network.Looping? || s.reader.NotStarted? || Told(s) || s.reader == Ended(false))
  }

  predicate Disturbs(a: Action) {
    a.CancelContext? || a.SlirpExits?
  }

  lemma NetworkStaysCalm(s: State, a: Action)
    requires Calm(s) && Enabled(s, a) && ActorOf(a).NetworkTask?
    ensures Calm(Next(s, a))
  {
    NetworkKeepsInv(s, a);
    CrashStep(s, a);
  }

  lemma ReaderStaysCalm(s: State, a: Action)
    requires Calm(s) && Enabled(s, a) && ActorOf(a).ReaderTask?
    ensures Calm(Next(s, a))
  {
    ReaderKeepsInv(s, a);
    CrashStep(s, a);
  }

  lemma ParentStaysCalm(s: State, a: Action)
    requires Calm(s) && Enabled(s, a) && ActorOf(a).ParentTask?
    ensures Calm(Next(s, a))
  {
    ParentKeepsInv(s, a);
    CrashStep(s, a);
  }

  lemma RestStaysCalm(s: State, a: Action)
    requires Calm(s) && Enabled(s, a) && (ActorOf(a).Environment? || ActorOf(a).ChildTask?) && !Disturbs(a)
    ensures Calm(Next(s, a))
  {
    OthersKeepInv(s, a);
    CrashStep(s, a);
  }

  lemma OthersStayCalm(s: State, a: Action)
    requires Calm(s) && Enabled(s, a) && !ActorOf(a).NetworkTask? && !Disturbs(a)
    ensures Calm(Next(s, a))
  {
    match ActorOf(a)
    case ReaderTask => ReaderStaysCalm(s, a);
    case ParentTask => ParentStaysCalm(s, a);
    case _ => RestStaysCalm(s, a);
  }

  lemma {:induction false} UndisturbedStaysCalm(schedule: seq<Action>)
    requires Run(Initial(false), schedule).Some? && forall a | a in schedule :: !Disturbs(a)
    ensures Calm(Run(Initial(false), schedule).value)
  {
    if schedule != [] {
      var before, last := schedule[..|schedule| - 1], schedule[|schedule| - 1];
      UndisturbedStaysCalm(before);
      var t := Run(Initial(false), before).value;
      if ActorOf(last).NetworkTask? {
        NetworkStaysCalm(t, last);
      } else {
        OthersStayCalm(t, last);
      }
    }
  }

  /** Under a context canceled before launchNetwork starts slirp, there is never a reader. */
  lemma {:induction false} CanceledNeverReads(schedule: seq<Action>)
    requires Run(Initial(true), schedule).Some?
    ensures var t := Run(Initial(true), schedule).value;
            t.ctx && t.reader.NotStarted? && !t.crashed
  {
    if schedule != [] {
      var before, last := schedule[..|schedule| - 1], schedule[|schedule| - 1];
      CanceledNeverReads(before);
      CanceledStep(Run(Initial(true), before).value, last);
    }
  }

  lemma CanceledStep(s: State, a: Action)
    requires s.ctx && s.reader.NotStarted? && !s.crashed && Enabled(s, a)
    ensures Next(s, a).ctx && Next(s, a).reader.NotStarted? && !Next(s, a).crashed
  {
    CrashStep(s, a);
    assert !a.Start?;
  }

  /** One more action of a schedule from the start. */
  lemma Then(schedule: seq<Action>, t: State, a: Action) returns (longer: seq<Action>, u: State)
    requires Run(Initial(false), schedule) == Some(t) && Enabled(t, a)
    ensures longer == schedule + [a]
    ensures Run(Initial(false), longer) == Some(u) && u == Next(t, a)
  {
    longer, u := schedule + [a], Next(t, a);
    Appended(Step, Initial(false), schedule, t, a);
  }

  lemma ByteIsRead() returns (schedule: seq<Action>, t: State)
    ensures schedule == [Start, SlirpWritesReady, ReadByte]
    ensures Run(Initial(false), schedule) == Some(t)
    ensures t == Initial(false).(network := Looping, slirpUp := true, readyByte := true, reader := GotByte)
  {
    schedule, t := Then([], Initial(false), Start);
    schedule, t := Then(schedule, t, SlirpWritesReady);
    schedule, t := Then(schedule, t, ReadByte);
  }

  /** The environment cancels the context, or lets slirp exit, only if it may. */
  predicate Within(schedule: seq<Action>, mayCancel: bool, mayExit: bool) {
    (CancelContext in schedule ==> mayCancel) && (SlirpExits in schedule ==> mayExit)
  }

  /** From there launchNetwork leaves its loop if the context is canceled or slirp is down. */
  lemma LoopIsLeft(mayCancel: bool, mayExit: bool) returns (schedule: seq<Action>, t: State)
    requires mayCancel || mayExit
    ensures Run(Initial(false), schedule) == Some(t)
    ensures Within(schedule, mayCancel, mayExit)
    ensures t.network.Stopping? && t.reader.GotByte? && !t.readyClosed && !t.crashed
  {
    schedule, t := ByteIsRead();
    if mayCancel {
      schedule, t := Then(schedule, t, CancelContext);
      schedule, t := Then(schedule, t, SeeContext);
    } else {
      schedule, t := Then(schedule, t, SlirpExits);
      schedule, t := Then(schedule, t, SeeExit);
    }
  }

  /** The reader has its byte and the loop is left: closing the channel before the send crashes. */
  lemma UnwindCrashes(schedule: seq<Action>, t: State) returns (longer: seq<Action>)
    requires Run(Initial(false), schedule) == Some(t)
    requires t.network.Stopping? && t.reader.GotByte? && !t.crashed
    ensures longer == schedule + [ClosePipe, CloseReady, SendReady]
    ensures Run(Initial(false), longer).Some? && Run(Initial(false), longer).value.crashed
  {
    var u;
    longer, u := Then(schedule, t, ClosePipe);
    longer, u := Then(longer, u, CloseReady);
    longer, u := Then(longer, u, SendReady);
  }

  /** The crash does happen, whether because slirp exits or because the context is canceled. */
  lemma CrashIsReachable(mayCancel: bool, mayExit: bool) returns (schedule: seq<Action>)
    requires mayCancel || mayExit
    ensures Run(Initial(false), schedule).Some? && Run(Initial(false), schedule).value.crashed
    ensures Within(schedule, mayCancel, mayExit)
  {
    var t;
    schedule, t := LoopIsLeft(mayCancel, mayExit);
    schedule := UnwindCrashes(schedule, t);
  }

  /**
   What decides beforehand: a launch can crash exactly if its context is not canceled yet and
   may be canceled later, or slirp may exit by itself. A context canceled before slirp starts,
   a child that dies, a failed read or a failed write never leads to it.
   */
  lemma CrashIsPossibleIff(ctx: bool, mayCancel: bool, mayExit: bool)
    ensures (exists schedule ::
               && Run(Initial(ctx), schedule).Some? && Run(Initial(ctx), schedule).value.crashed
               && Within(schedule, mayCancel, mayExit))
            <==> !ctx && (mayCancel || mayExit)
  {
    if !ctx && (mayCancel || mayExit) {
      var schedule := CrashIsReachable(mayCancel, mayExit);
    } else {
      forall schedule | Run(Initial(ctx), schedule).Some? && Within(schedule, mayCancel, mayExit)
        ensures !Run(Initial(ctx), schedule).value.crashed
      {
        if ctx {
          CanceledNeverReads(schedule);
        } else {
          UndisturbedStaysCalm(schedule);
        }
      }
    }
  }
}
