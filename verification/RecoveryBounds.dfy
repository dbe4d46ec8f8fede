/**
 How much work the recovery can do. The bounds follow from the legality of the trace
 alone. They are reached by runs whose forwarders report why they stopped, and they make
 every run end. With a forwarder that does not report it, a run connects once at most.
 */
module RecoveryBounds {
  import opened Values
  import opened GoErrors
  import opened RetryLoop
  import opened RecoveryMachine
  import opened RecoveryTraces
  import RecoveryGuarantees

  /** Credential changes already spent in the current outage: at most one re-registration and one refresh. */
  function Spent(o: Observer): nat {
    (if o.registered then 1 else 0) + (if o.rotated then 1 else 0)
  }

  /** A refresh is under way whose answer has not been acted upon. */
  predicate Refreshing(o: Observer) {
    o.last.Some? && (o.last.value.RefreshStarted? || o.last.value.RefreshAttempted?)
  }

  /** The credentials are being changed, or were never tried: nothing but a listen can follow the change. */
  predicate Changed(o: Observer) {
    o.last.None? || o.last.value.Refreshed? || o.last.value.RegisterCalled? || o.last.value.Reregistered?
  }

  ghost predicate WithinBudget(o: Observer) {
    && (Refreshing(o) ==> !o.rotated && !o.live)
    && o.listens <= 2 * o.accepted + Spent(o) + (if Changed(o) then 0 else 1)
    && o.refreshes <= 2 * o.accepted + Spent(o) + (if Refreshing(o) then 1 else 0)
    && o.registers <= o.accepted + (if o.registered then 1 else 0)
  }

  lemma EventKeepsBudget(o: Observer, e: Event)
    requires WithinBudget(o) && Legal(o, e)
    ensures WithinBudget(Observe(o, e))
  {
  }

  lemma {:induction false} TraceKeepsBudget(o: Observer, log: seq<Event>)
    requires WithinBudget(o) && Accepts(o, log)
    ensures WithinBudget(After(o, log))
    decreases |log|
  {
    if log != [] {
      EventKeepsBudget(o, log[0]);
      TraceKeepsBudget(Observe(o, log[0]), log[1..]);
    }
  }

  ghost function Watch<H>(store: map<H, RegistrationData>, registration: Option<H>, rounds: seq<Round<H>>): Observer {
    After(Watching(Lookup(store, registration)), Exec(Initial(store, registration), rounds).log)
  }

  /** The observer's counts are the numbers of events in the log. */
  lemma WatchCounts<H>(store: map<H, RegistrationData>, registration: Option<H>, rounds: seq<Round<H>>)
    ensures var log := Exec(Initial(store, registration), rounds).log;
            var o := Watch(store, registration, rounds);
            && o.accepted == RecoveryGuarantees.Count(log, (e: Event) => e.Listened? && e.accepted)
            && o.listens == RecoveryGuarantees.Count(log, (e: Event) => e.Listened?)
            && o.refreshes == RecoveryGuarantees.Count(log, (e: Event) => e == RefreshStarted)
            && o.registers == RecoveryGuarantees.Count(log, (e: Event) => e == RegisterCalled)
  {
    var log := Exec(Initial(store, registration), rounds).log;
    RecoveryGuarantees.ObservedCounts(Watching(Lookup(store, registration)), log, |log|);
    assert log[..|log|] == log;
    CountAgrees(log, RecoveryGuarantees.IsAccepted, (e: Event) => e.Listened? && e.accepted);
    CountAgrees(log, RecoveryGuarantees.IsListen, (e: Event) => e.Listened?);
    CountAgrees(log, RecoveryGuarantees.IsRefresh, (e: Event) => e == RefreshStarted);
    CountAgrees(log, RecoveryGuarantees.IsRegistration, (e: Event) => e == RegisterCalled);
  }

  lemma {:induction false} CountAgrees(log: seq<Event>, p: Event -> bool, q: Event -> bool)
    requires forall e :: p(e) == q(e)
    ensures RecoveryGuarantees.Count(log, p) == RecoveryGuarantees.Count(log, q)
  {
    if log != [] {
      CountAgrees(log[..|log| - 1], p, q);
    }
  }

  /**
   Global recovery budget. However often connections come and go, a run with n accepted
   listens makes at most 2n + 3 listens, 2n + 2 refreshes and n + 1 re-registrations.
   */
  lemma RunBudget<H>(store: map<H, RegistrationData>, registration: Option<H>, rounds: seq<Round<H>>)
    ensures var o := Watch(store, registration, rounds);
            && o.listens <= 2 * o.accepted + 3
            && o.refreshes <= 2 * o.accepted + 2
            && o.registers <= o.accepted + 1
  {
    var o := Watching(Lookup(store, registration));
    EveryTraceIsLegal(Initial(store, registration), o, rounds);
    TraceKeepsBudget(o, Exec(Initial(store, registration), rounds).log);
  }

  // ---------- Termination ----------

  function Rank(p: Phase): nat {
    match p
    case Fresh => 2
    case ReRegistered => 1
    case Rotated => 0
  }

  /** A round that keeps the run going without an accepted listen lowers the rank of the phase. */
  lemma RankDecreases<H>(s: State<H>, r: Round<H>)
    requires Step(s, r).stop.None?
    ensures r.listen.Connected? || Rank(Step(s, r).state.phase) < Rank(s.phase)
    ensures !Step(s, r).state.phase.Fresh?
  {
  }

  /** How many rounds offer a connection. */
  function Connections<H>(rounds: seq<Round<H>>): nat {
    if rounds == [] then 0 else (if rounds[0].listen.Connected? then 1 else 0) + Connections(rounds[1..])
  }

  /** The environment answers everything it is asked: no wait, retry loop or registration goes on forever. */
  ghost predicate Answers<H>(r: Round<H>) {
    && (r.listen.Connected? ==> !r.listen.wait.StillUp?)
    && RetryProgress(r.refresh).Finished?
    && RetryProgress(r.register).Finished?
  }

  /** A run still going has used up at most two rounds for each connection, and its phase's rank. */
  lemma {:induction false} RoundsUsed<H>(s: State<H>, rounds: seq<Round<H>>)
    requires Exec(s, rounds).outcome.OutOfRounds?
    ensures |rounds| <= 2 * Connections(rounds) + Rank(s.phase)
    decreases |rounds|
  {
    if rounds != [] {
      RankDecreases(s, rounds[0]);
      RoundsUsed(Step(s, rounds[0]).state, rounds[1..]);
    }
  }

  lemma {:induction false} AnsweredRunsDoNotWait<H>(s: State<H>, rounds: seq<Round<H>>)
    requires forall r | r in rounds :: Answers(r)
    ensures Exec(s, rounds).outcome != Waiting
    decreases |rounds|
  {
    if rounds != [] {
      assert Answers(rounds[0]);
      if Step(s, rounds[0]).stop.None? {
        AnsweredRunsDoNotWait(Step(s, rounds[0]).state, rounds[1..]);
      }
    }
  }

  /**
   Termination. If the environment answers and grants at most n connections, run has
   returned, with an error, by its (2n + 3)-th iteration.
   */
  lemma RunTerminates<H>(store: map<H, RegistrationData>, registration: Option<H>, rounds: seq<Round<H>>)
    requires forall r | r in rounds :: Answers(r)
    requires |rounds| >= 2 * Connections(rounds) + 3
    ensures Exec(Initial(store, registration), rounds).outcome.Returned?
  {
    var s := Initial(store, registration);
    AnsweredRunsDoNotWait(s, rounds);
    if Exec(s, rounds).outcome.OutOfRounds? {
      RoundsUsed(s, rounds);
    }
  }

  // ---------- The budget is exact ----------

  /** The connection is rejected, or comes up and is then lost to a rejection. */
  predicate IsRejection(listen: Listen) {
    match listen
    case Rejected(err) => AuthenticationFailure(err)
    case Connected(Stopped(Some(err), None)) => AuthenticationFailure(err)
    case _ => false
  }

  /** The exact work of a round that ends in a rejection under a live context. */
  lemma RejectionCounts<H>(s: State<H>, o: Observer, r: Round<H>)
    requires Agree(s, o) && CredentialsFromRegistration(CurrentData(s)).Ok?
    requires r.ctxErr.None? && IsRejection(r.listen)
    ensures var o' := After(o, Step(s, r).log);
            var unregistered := s.phase.Fresh? || r.listen.Connected?;
            && o'.listens == o.listens + 1
            && o'.accepted == o.accepted + (if r.listen.Connected? then 1 else 0)
            && o'.refreshes == o.refreshes + (if s.phase.Rotated? && !r.listen.Connected? then 0 else 1)
            && o'.registers == o.registers + (if unregistered && RefreshUnauthorized(r.refresh) then 1 else 0)
  {
    var credentials := CredentialsFromRegistration(CurrentData(s)).value;
    match r.listen
    case Rejected(err) =>
      var heard := Listened(credentials, false);
      Single(o, heard);
      AfterListenIsLegal(s, Observe(o, heard), credentials.jwt, err, r);
      Concatenation(o, [heard], AfterListen(s, credentials.jwt, err, r).log);
    case Connected(wait) =>
      ConnectIsLegal(s, o, credentials);
      var (connected, log) := Connect(s, Listened(credentials, true));
      var ended := ForwarderEnded(false);
      Append(o, log, ended);
      AfterListenIsLegal(connected, Observe(After(o, log), ended), credentials.jwt, WaitError(wait), r);
      Concatenation(o, log + [ended], AfterListen(connected, credentials.jwt, WaitError(wait), r).log);
  }

  const REJECTION := Plain("401: unauthorized")

  predicate Usable(d: RegistrationData) {
    IsGiven(d.tunnel.url) && IsGiven(d.tunnel.jwt) && IsGiven(d.tunnel.endpoint)
  }

  /** A refresh the registry refuses, with a re-registration that gives back the same registration. */
  function Refused(listen: Listen): Round<nat> {
    Round(listen, None, [Attempt(Err(HttpStatus(STATUS_UNAUTHORIZED)), None, 0.0, None)],
          [Attempt(Ok(Some(0)), None, 0.0, None)])
  }

  /** A refresh the registry grants at once. */
  function Granted(listen: Listen, jwt: string): Round<nat> {
    Round(listen, None, [Attempt(Ok(jwt), None, 0.0, None)], [])
  }

  /** n times: connected, lost, refused, registered again, rejected, refreshed; then rejected once more. */
  function Reconnections(n: nat, jwt: string): seq<Round<nat>> {
    if n == 0 then [Granted(Rejected(REJECTION), jwt)]
    else [Refused(Connected(Stopped(Some(REJECTION), None))), Granted(Rejected(REJECTION), jwt)]
         + Reconnections(n - 1, jwt)
  }

  function WorstRun(n: nat, jwt: string): seq<Round<nat>> {
    [Refused(Rejected(REJECTION)), Granted(Rejected(REJECTION), jwt)] + Reconnections(n, jwt)
  }

  function Holding(d: RegistrationData, phase: Phase, announced: bool): State<nat> {
    State(map[0 := d], Some(0), phase, announced)
  }

  lemma RejectionIsRecognised()
    ensures AuthenticationFailure(REJECTION)
  {
    assert OccursAt("401: unauthorized", "401:", 0);
  }

  lemma RefusedAndGranted(listen: Listen, jwt: string)
    ensures RefreshUnauthorized(Refused(listen).refresh)
    ensures RegisterProgress(Refused(listen).register) == Finished(Ok(Some(0)))
    ensures RefreshProgress(Granted(listen, jwt).refresh) == Finished(Ok(jwt))
  {
    FirstTerminalIs(Refused(listen).refresh, 0);
    FirstTerminalIs(Refused(listen).register, 0);
    FirstTerminalWasUnauthorized(Refused(listen).refresh);
    FirstTerminalIs(Granted(listen, jwt).refresh, 0);
  }

  /** o' has seen n more accepted listens than o, with the work of so many recoveries and some more listens. */
  ghost predicate Recovered(o: Observer, o': Observer, accepted: nat, recoveries: nat, more: nat) {
    && o'.accepted == o.accepted + accepted && o'.listens == o.listens + 2 * recoveries + more
    && o'.refreshes == o.refreshes + 2 * recoveries && o'.registers == o.registers + recoveries
  }

  lemma RefusedRound(d: RegistrationData, s: State<nat>, o: Observer, listen: Listen)
    requires Usable(d) && s == Holding(d, s.phase, s.announced) && Agree(s, o) && IsRejection(listen)
    requires s.phase.Fresh? || listen.Connected?
    ensures var t := Step(s, Refused(listen));
            var o' := After(o, t.log);
            && t.stop.None? && t.state == Holding(d, ReRegistered, s.announced || listen.Connected?)
            && Agree(t.state, o')
            && o'.accepted == o.accepted + (if listen.Connected? then 1 else 0) && o'.listens == o.listens + 1
            && o'.refreshes == o.refreshes + 1 && o'.registers == o.registers + 1
  {
    RefusedAndGranted(listen, "");
    StepIsLegal(s, o, Refused(listen));
    RejectionCounts(s, o, Refused(listen));
  }

  lemma GrantedRound(d: RegistrationData, s: State<nat>, o: Observer)
    requires Usable(d) && s == Holding(d, ReRegistered, s.announced) && Agree(s, o)
    ensures var t := Step(s, Granted(Rejected(REJECTION), d.tunnel.jwt.value));
            var o' := After(o, t.log);
            && t.stop.None? && t.state == Holding(d, Rotated, s.announced)
            && Agree(t.state, o')
            && o'.accepted == o.accepted && o'.listens == o.listens + 1
            && o'.refreshes == o.refreshes + 1 && o'.registers == o.registers
  {
    var jwt := d.tunnel.jwt.value;
    var again := Granted(Rejected(REJECTION), jwt);
    RejectionIsRecognised();
    RefusedAndGranted(Rejected(REJECTION), jwt);
    assert WithJwt(d, jwt) == d;
    assert map[0 := d][0 := d] == map[0 := d];
    StepIsLegal(s, o, again);
    RejectionCounts(s, o, again);
  }

  lemma RoundFirst<H>(s: State<H>, o: Observer, rounds: seq<Round<H>>)
    requires rounds != [] && Step(s, rounds[0]).stop.None?
    ensures var t := Step(s, rounds[0]);
            After(o, Exec(s, rounds).log) == After(After(o, t.log), Exec(t.state, rounds[1..]).log)
  {
    var t := Step(s, rounds[0]);
    Concatenation(o, t.log, Exec(t.state, rounds[1..]).log);
  }

  lemma TwoRounds<H>(s: State<H>, o: Observer, first: Round<H>, second: Round<H>, rest: seq<Round<H>>)
    requires Step(s, first).stop.None? && Step(Step(s, first).state, second).stop.None?
    ensures var t := Step(s, first);
            var u := Step(t.state, second);
            After(o, Exec(s, [first, second] + rest).log) ==
            After(After(After(o, t.log), u.log), Exec(u.state, rest).log)
  {
    var rounds, later := [first, second] + rest, [second] + rest;
    var t := Step(s, first);
    var o1 := After(o, t.log);
    assert After(o, Exec(s, rounds).log) == After(o1, Exec(t.state, later).log) by {
      assert rounds[0] == first && rounds[1..] == later;
      RoundFirst(s, o, rounds);
    }
    assert later[0] == second && later[1..] == rest;
    RoundFirst(t.state, o1, later);
  }

  /** One refused round and one granted round, from a phase that allows both. */
  lemma RefusedThenGranted(d: RegistrationData, s: State<nat>, o: Observer, listen: Listen, rest: seq<Round<nat>>)
    returns (o': Observer)
    requires Usable(d) && s == Holding(d, s.phase, s.announced) && Agree(s, o) && IsRejection(listen)
    requires s.phase.Fresh? || listen.Connected?
    ensures Agree(Holding(d, Rotated, s.announced || listen.Connected?), o')
    ensures var rounds := [Refused(listen), Granted(Rejected(REJECTION), d.tunnel.jwt.value)] + rest;
            After(o, Exec(s, rounds).log) ==
            After(o', Exec(Holding(d, Rotated, s.announced || listen.Connected?), rest).log)
    ensures Recovered(o, o', if listen.Connected? then 1 else 0, 1, 0)
  {
    var again := Granted(Rejected(REJECTION), d.tunnel.jwt.value);
    RefusedRound(d, s, o, listen);
    var t := Step(s, Refused(listen));
    GrantedRound(d, t.state, After(o, t.log));
    o' := After(After(o, t.log), Step(t.state, again).log);
    TwoRounds(s, o, Refused(listen), again, rest);
  }

  /** The refreshed JWT is rejected: the run ends. */
  lemma LastRejection(d: RegistrationData, s: State<nat>, o: Observer, jwt: string)
    requires Usable(d) && s == Holding(d, Rotated, s.announced) && Agree(s, o)
    ensures Recovered(o, After(o, Exec(s, Reconnections(0, jwt)).log), 0, 0, 1)
  {
    var last := Granted(Rejected(REJECTION), jwt);
    RejectionIsRecognised();
    RejectionCounts(s, o, last);
    assert Step(s, last).stop.Some?;
    assert Exec(s, Reconnections(0, jwt)).log == Step(s, last).log;
  }

  /** What the observer has seen after n reconnections and the last rejection. */
  function AfterReconnections(n: nat, d: RegistrationData, s: State<nat>, o: Observer): Observer
    requires Usable(d)
  {
    After(o, Exec(s, Reconnections(n, d.tunnel.jwt.value)).log)
  }

  lemma OneReconnection(n: nat, d: RegistrationData, s: State<nat>, o: Observer) returns (o': Observer)
    requires n > 0 && Usable(d) && s == Holding(d, Rotated, s.announced) && Agree(s, o)
    ensures Agree(Holding(d, Rotated, true), o') && Recovered(o, o', 1, 1, 0)
    ensures AfterReconnections(n, d, s, o) == AfterReconnections(n - 1, d, Holding(d, Rotated, true), o')
  {
    RejectionIsRecognised();
    o' := RefusedThenGranted(d, s, o, Connected(Stopped(Some(REJECTION), None)),
                             Reconnections(n - 1, d.tunnel.jwt.value));
  }

  lemma {:induction false} ReconnectionCounts(n: nat, d: RegistrationData, s: State<nat>, o: Observer)
    requires Usable(d) && s == Holding(d, Rotated, s.announced) && Agree(s, o)
    ensures Recovered(o, AfterReconnections(n, d, s, o), n, n, 1)
    decreases n
  {
    if n == 0 {
      LastRejection(d, s, o, d.tunnel.jwt.value);
    } else {
      var o' := OneReconnection(n, d, s, o);
      ReconnectionCounts(n - 1, d, Holding(d, Rotated, true), o');
    }
  }

  /** For every usable registration and every n there is a run with n accepted listens that uses its whole budget. */
  lemma BudgetIsExact(n: nat, d: RegistrationData)
    requires Usable(d)
    ensures var o := Watch(map[0 := d], Some(0), WorstRun(n, d.tunnel.jwt.value));
            o.accepted == n && o.listens == 2 * n + 3 && o.refreshes == 2 * n + 2 && o.registers == n + 1
  {
    var s := Initial(map[0 := d], Some(0));
    var o := Watching(Lookup(s.store, s.current));
    var jwt := d.tunnel.jwt.value;
    RejectionIsRecognised();
    var o' := RefusedThenGranted(d, s, o, Rejected(REJECTION), Reconnections(n, jwt));
    ReconnectionCounts(n, d, Holding(d, Rotated, false), o');
  }

  // ---------- A forwarder whose wait reports no error ----------

  /** The wait ends without an error of its own, as it always does with Piko's own forwarder. */
  ghost predicate EndsSilently(listen: Listen) {
    listen.Connected? && listen.wait.Stopped? ==> listen.wait.err.None?
  }

  lemma TextWithoutColon(e: Error)
    requires ':' !in Message(e)
    ensures !AuthenticationFailure(e)
  {
    ContainedCharsOccur(Message(e), "401:", ':');
  }

  lemma ContextIsNoRejection(cause: ContextError)
    ensures !AuthenticationFailure(Context(cause))
  {
    match cause
    case Canceled =>
      assert Message(Context(cause)) == "context canceled";
      TextWithoutColon(Context(cause));
    case DeadlineExceeded =>
      assert Message(Context(cause)) == "context deadline exceeded";
      TextWithoutColon(Context(cause));
  }

  lemma PlainStopIsNoRejection()
    ensures !AuthenticationFailure(Plain("piko forwarder stopped unexpectedly"))
  {
    var e := Plain("piko forwarder stopped unexpectedly");
    assert Message(e) == "piko forwarder stopped unexpectedly";
    TextWithoutColon(e);
  }

  lemma WaitErrorIsRejectionIff(wait: Wait)
    requires !wait.StillUp?
    ensures AuthenticationFailure(WaitError(wait)) <==> IsRejection(Connected(wait))
  {
    match wait
    case Interrupted(cause) => ContextIsNoRejection(cause);
    case Stopped(err, Some(cause)) => ContextIsNoRejection(cause);
    case Stopped(None, None) => PlainStopIsNoRejection();
    case Stopped(Some(err), None) =>
  }

  /** A lost connection is worked on only if the forwarder stopped with a rejection. */
  lemma LostConnectionGoesOnIfRejected<H>(s: State<H>, r: Round<H>)
    requires r.listen.Connected? && Step(s, r).stop.None?
    ensures IsRejection(r.listen) && !EndsSilently(r.listen)
  {
    WaitErrorIsRejectionIff(r.listen.wait);
  }

  /**
   With such a forwarder no tunnel is ever recovered once it was up: the run ends in the
   round that connects, so it makes at most one accepted listen and three listens in all.
   */
  lemma {:induction false} SilentForwarderConnectsOnce<H>(s: State<H>, o: Observer, rounds: seq<Round<H>>)
    requires Agree(s, o) && forall r | r in rounds :: EndsSilently(r.listen)
    ensures var x := Exec(s, rounds);
            && After(o, x.log).accepted <= o.accepted + 1
            && (After(o, x.log).accepted > o.accepted ==> x.outcome != OutOfRounds)
            && After(o, x.log).listens <= o.listens + Rank(s.phase) + 1
    decreases |rounds|
  {
    if rounds != [] {
      var r, t := rounds[0], Step(s, rounds[0]);
      StepIsLegal(s, o, r);
      if t.stop.None? {
        assert EndsSilently(r.listen);
        SilentRoundGoesOn(s, o, r);
        SilentForwarderConnectsOnce(t.state, After(o, t.log), rounds[1..]);
        Concatenation(o, t.log, Exec(t.state, rounds[1..]).log);
      }
    }
  }

  lemma SilentRoundGoesOn<H>(s: State<H>, o: Observer, r: Round<H>)
    requires Agree(s, o) && EndsSilently(r.listen) && Step(s, r).stop.None?
    ensures After(o, Step(s, r).log).accepted == o.accepted
    ensures Rank(Step(s, r).state.phase) < Rank(s.phase)
  {
    StepIsLegal(s, o, r);
    RankDecreases(s, r);
    if r.listen.Connected? {
      LostConnectionGoesOnIfRejected(s, r);
    }
  }

  /** The same for a whole run. */
  lemma SilentRunConnectsOnce<H>(store: map<H, RegistrationData>, registration: Option<H>, rounds: seq<Round<H>>)
    requires forall r | r in rounds :: EndsSilently(r.listen)
    ensures var o := Watch(store, registration, rounds);
            && o.accepted <= 1 && o.listens <= 3
            && (o.accepted == 1 ==> Exec(Initial(store, registration), rounds).outcome != OutOfRounds)
  {
    SilentForwarderConnectsOnce(Initial(store, registration), Watching(Lookup(store, registration)), rounds);
  }
}
