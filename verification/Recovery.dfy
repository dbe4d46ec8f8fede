/**
 The recovery loop as the program runs it: registrations are objects whose tunnel JWT is
 replaced in place, and the progress of an outage is kept in two flags. Every method is
 tied to the reference automaton.
 */
module Recovery {
  import opened Values
  import opened GoErrors
  import opened Backoff
  import opened RetryLoop
  import opened RecoveryMachine

  class Registration {
    var url: string
    var issuerURL: Option<string>
    var tunnel: Tunnel
    var endpoint: Option<string>
    var jwt: Option<string>

    function Data(): RegistrationData
      reads this
    {
      RegistrationData(url, issuerURL, tunnel, endpoint, jwt)
    }
  }

  ghost function Snapshot(heap: set<Registration>): map<Registration, RegistrationData>
    reads heap
  {
    map r | r in heap :: r.Data()
  }

  function DataOf(registration: Option<Registration>): Option<RegistrationData>
    reads if registration.Some? then {registration.value} else {}
  {
    if registration.Some? then Some(registration.value.Data()) else None
  }

  /** Every registration the environment may hand out is a known object. */
  ghost predicate Known(rounds: seq<Round<Registration>>, heap: set<Registration>) {
    forall i | 0 <= i < |rounds| :: KnownHandles(rounds[i].register, heap)
  }

  ghost predicate KnownHandles(register: seq<Attempt<Option<Registration>>>, heap: set<Registration>) {
    forall i | 0 <= i < |register| && register[i].outcome.Ok? && register[i].outcome.value.Some? ::
      register[i].outcome.value.value in heap
  }

  datatype Recovered =
    | Continue(registration: Option<Registration>, rotated: bool)
    | Stop(outcome: Outcome)

  method RefreshJWTWithRetry(attempts: seq<Attempt<string>>, sent: string, config: Config)
    returns (progress: Progress<string>, events: seq<Event>)
    ensures progress == RefreshProgress(attempts)
    ensures events == AttemptEvents(sent, attempts)
  {
    var result, calls, sleeps := RetryRouteRegistry(attempts, config);
    EndsAtFirstTerminalIsUnique(attempts, result, calls, |sleeps|);
    progress := WrapFailure(result, "refresh Piko JWT");
    events := seq(calls, i requires 0 <= i < calls => RefreshAttempted(sent, attempts[i]));
  }

  method RegisterRouteWithRetry<T>(attempts: seq<Attempt<T>>, config: Config) returns (progress: Progress<T>)
    ensures progress == RegisterProgress(attempts)
  {
    var result, calls, sleeps := RetryRouteRegistry(attempts, config);
    EndsAtFirstTerminalIsUnique(attempts, result, calls, |sleeps|);
    progress := WrapFailure(result, "register route");
  }

  /**
   recoverRejectedCredentials. The only write is the JWT of the given registration's
   tunnel, and only after a successful refresh.
   */
  method RecoverRejectedCredentials(registration: Registration, credentials: Credentials, reRegistered: bool,
                                    round: Round<Registration>, config: Config,
                                    ghost heap: set<Registration>, ghost s: State<Registration>)
    returns (result: Recovered, events: seq<Event>)
    requires registration in heap && KnownHandles(round.register, heap)
    requires s.store == Snapshot(heap) && s.current == Some(registration)
    requires s.phase == if reRegistered then ReRegistered else Fresh
    modifies registration`tunnel
    ensures Matches(result, events, Recover(s, credentials.jwt, round), s.announced, heap)
    ensures registration.tunnel == old(registration.tunnel).(jwt := registration.tunnel.jwt)
  {
    var progress, attempts := RefreshJWTWithRetry(round.refresh, credentials.jwt, config);
    events := [RefreshStarted] + attempts;
    match progress
    case Retrying =>
      result := Stop(Waiting);
    case Finished(Ok(jwt)) =>
      registration.tunnel := registration.tunnel.(jwt := Some(jwt));
      events := events + [Refreshed(jwt)];
      result := Continue(Some(registration), true);
    case Finished(Err(e)) =>
      if AsHttpStatus(e) != Some(STATUS_UNAUTHORIZED) {
        result := Stop(Returned(e));
        return;
      }
      if reRegistered {
        result := Stop(Returned(Wrapped("refresh Piko JWT after route re-registration", e)));
        return;
      }
      events := events + [RegisterCalled];
      var registered := RegisterRouteWithRetry(round.register, config);
      match registered {
        case Retrying =>
          result := Stop(Waiting);
        case Finished(Err(failure)) =>
          result := Stop(Returned(failure));
        case Finished(Ok(handle)) =>
          events := events + [Reregistered(DataOf(handle))];
          result := Continue(handle, false);
      }
  }

  function PhaseOf(rotated: bool, reRegistered: bool): Phase {
    if rotated then Rotated else if reRegistered then ReRegistered else Fresh
  }

  /** A result of this program part agrees with a transition of the automaton. */
  ghost predicate Matches(result: Recovered, events: seq<Event>, t: Transition<Registration>,
                          announced: bool, heap: set<Registration>)
    reads heap
  {
    && events == t.log
    && t.state.store == Snapshot(heap)
    && t.state.announced == announced
    && match result
       case Stop(outcome) => t.stop == Some(outcome)
       case Continue(registration, rotated) =>
         && t.stop.None?
         && (registration.Some? ==> registration.value in heap)
         && t.state.current == registration
         && t.state.phase == PhaseOf(rotated, !rotated)
  }

  /** The second half of run's loop body: the connection failed or was lost. */
  method ReactToFailure(registration: Registration, credentials: Credentials, rotated: bool, reRegistered: bool,
                        failure: Error, round: Round<Registration>, config: Config,
                        ghost heap: set<Registration>, ghost s: State<Registration>)
    returns (result: Recovered, events: seq<Event>)
    requires registration in heap && KnownHandles(round.register, heap) && !(rotated && reRegistered)
    requires s.store == Snapshot(heap) && s.current == Some(registration)
    requires s.phase == PhaseOf(rotated, reRegistered)
    modifies registration`tunnel
    ensures Matches(result, events, AfterListen(s, credentials.jwt, failure, round), s.announced, heap)
  {
    events := [];
    if round.ctxErr.Some? {
      result := Stop(Returned(Context(round.ctxErr.value)));
      return;
    }
    if !AuthenticationFailure(failure) {
      result := Stop(Returned(Wrapped("connect to Piko", failure)));
      return;
    }
    if rotated {
      result := Stop(Returned(Wrapped("connect to Piko with refreshed JWT", failure)));
      return;
    }
    result, events := RecoverRejectedCredentials(registration, credentials, reRegistered, round, config, heap, s);
  }

  /** One iteration of run's loop: check the credentials, listen, wait, and react to the failure. */
  method Iterate(registration: Option<Registration>, rotated: bool, reRegistered: bool, firstConnection: bool,
                 round: Round<Registration>, config: Config,
                 ghost heap: set<Registration>, ghost s: State<Registration>)
    returns (result: Recovered, events: seq<Event>, stillFirst: bool)
    requires registration.Some? ==> registration.value in heap
    requires KnownHandles(round.register, heap) && !(rotated && reRegistered)
    requires s == State(Snapshot(heap), registration, PhaseOf(rotated, reRegistered), !firstConnection)
    modifies heap`tunnel
    ensures Matches(result, events, Step(s, round), !stillFirst, heap)
  {
    stillFirst, events := firstConnection, [];
    var checked := CredentialsFromRegistration(DataOf(registration));
    if checked.Err? {
      result := Stop(Returned(checked.error));
      return;
    }
    var credentials := checked.value;
    events := [Listened(credentials, round.listen.Connected?)];
    match round.listen
    case Rejected(err) =>
      var more;
      result, more := ReactToFailure(registration.value, credentials, rotated, reRegistered, err, round,
                                     config, heap, s);
      events := events + more;
    case Connected(wait) =>
      if firstConnection {
        events := events + [Announced(registration.value.url)];
        stillFirst := false;
      }
      if wait.StillUp? {
        result := Stop(Waiting);
        return;
      }
      events := events + [EndOf(wait)];
      var more;
      result, more := ReactToFailure(registration.value, credentials, false, false, WaitError(wait), round,
                                     config, heap, s.(phase := Fresh, announced := true));
      events := events + more;
  }

  /** The remaining run, put behind what has been logged so far. */
  ghost function After(log: seq<Event>, rest: Execution<Registration>): Execution<Registration> {
    rest.(log := log + rest.log)
  }

  /** Executing one round first, then the others. */
  lemma OneRound(s: State<Registration>, rounds: seq<Round<Registration>>, i: nat, log: seq<Event>)
    requires i < |rounds|
    ensures var t := Step(s, rounds[i]);
            After(log, Exec(s, rounds[i..])) ==
            match t.stop
            case Some(outcome) => Execution(outcome, log + t.log, t.state)
            case None => After(log + t.log, Exec(t.state, rounds[i + 1..]))
  {
    assert rounds[i..][1..] == rounds[i + 1..];
    var t := Step(s, rounds[i]);
    if t.stop.None? {
      var rest := Exec(t.state, rounds[i + 1..]);
      assert log + (t.log + rest.log) == (log + t.log) + rest.log;
    }
  }

  /**
   run. Started with nil or a known registration and answered by any rounds, it ends as
   the automaton does, with the same events in the same order and every registration left
   as the automaton leaves it. The two flags are never set together.
   */
  method Run(initial: Option<Registration>, rounds: seq<Round<Registration>>, config: Config,
             ghost heap: set<Registration>)
    returns (outcome: Outcome, log: seq<Event>)
    requires initial.Some? ==> initial.value in heap
    requires Known(rounds, heap)
    modifies heap`tunnel
    ensures var x := Exec(Initial(old(Snapshot(heap)), initial), rounds);
            outcome == x.outcome && log == x.log && Snapshot(heap) == x.state.store
  {
    var registration, rotated, reRegistered, firstConnection := initial, false, false, true;
    ghost var start := Initial(Snapshot(heap), initial);
    ghost var s := start;
    log := [];
    var i := 0;
    while i < |rounds|
      invariant i <= |rounds| && !(rotated && reRegistered)
      invariant registration.Some? ==> registration.value in heap
      invariant s == State(Snapshot(heap), registration, PhaseOf(rotated, reRegistered), !firstConnection)
      invariant Exec(start, rounds) == After(log, Exec(s, rounds[i..]))
    {
      OneRound(s, rounds, i, log);
      assert KnownHandles(rounds[i].register, heap);
      var result, events, stillFirst :=
        Iterate(registration, rotated, reRegistered, firstConnection, rounds[i], config, heap, s);
      log := log + events;
      if result.Stop? {
        outcome := result.outcome;
        return;
      }
      registration, rotated, firstConnection := result.registration, result.rotated, stillFirst;
      reRegistered := !rotated;
      s := Step(s, rounds[i]).state;
      i := i + 1;
    }
    outcome := OutOfRounds;
  }
}
