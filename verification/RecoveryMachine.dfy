/**
 Reference automaton of the tunnel recovery. Registrations live in a store, so that the
 same registration may be handed out more than once; the three phases say how far the
 current outage has been worked on. The environment answers one round per loop iteration.
 */
module RecoveryMachine {
  import opened Values
  import opened GoErrors
  import opened RetryLoop

  /** The tunnel part of a registration response; every field may be absent. */
  datatype Tunnel = Tunnel(url: Option<string>, jwt: Option<string>, endpoint: Option<string>)

  datatype RegistrationData = RegistrationData(url: string, issuerURL: Option<string>, tunnel: Tunnel,
                                               endpoint: Option<string>, jwt: Option<string>)

  datatype Credentials = Credentials(url: string, jwt: string, endpointID: string)

  const MISSING_CREDENTIALS := Plain("route registration response is missing tunnel credentials")
  const EMPTY_CREDENTIALS := Plain("route registration response contains empty tunnel credentials")

  function CredentialsFromRegistration(registration: Option<RegistrationData>): Result<Credentials, Error> {
    match registration
    case Some(RegistrationData(_, _, Tunnel(Some(url), Some(jwt), Some(endpoint)), _, _)) =>
      if url == "" || jwt == "" || endpoint == "" then Err(EMPTY_CREDENTIALS)
      else Ok(Credentials(url, jwt, endpoint))
    case _ => Err(MISSING_CREDENTIALS)
  }

  predicate IsGiven(field: Option<string>) {
    field.Some? && field.value != ""
  }

  /**
   A registration is usable exactly if its tunnel has a URL, a JWT and an endpoint, none of
   them empty; those three are then the credentials. Nothing else in it matters.
   */
  lemma CredentialsIff(registration: Option<RegistrationData>)
    ensures CredentialsFromRegistration(registration).Ok? <==>
            && registration.Some? && IsGiven(registration.value.tunnel.url)
            && IsGiven(registration.value.tunnel.jwt) && IsGiven(registration.value.tunnel.endpoint)
    ensures CredentialsFromRegistration(registration).Ok? ==>
              var c := CredentialsFromRegistration(registration).value;
              && registration.value.tunnel == Tunnel(Some(c.url), Some(c.jwt), Some(c.endpointID))
    ensures CredentialsFromRegistration(registration) == Err(EMPTY_CREDENTIALS) <==>
            && registration.Some? && registration.value.tunnel.url.Some?
            && registration.value.tunnel.jwt.Some? && registration.value.tunnel.endpoint.Some?
            && "" in [registration.value.tunnel.url.value, registration.value.tunnel.jwt.value,
                      registration.value.tunnel.endpoint.value]
  {
  }

  // ---------- What the environment answers ----------

  /**
   How waiting for a connected forwarder went: it stopped by itself (with the context error
   read afterwards), the context ended the wait and the forwarder was closed, or it is
   still up where the run is cut off.
   */
  datatype Wait =
    | Stopped(err: Option<Error>, ctxErr: Option<ContextError>)
    | Interrupted(cause: ContextError)
    | StillUp

  datatype Listen = Rejected(err: Error) | Connected(wait: Wait)

  /**
   The answers to one iteration; the later ones are consulted only if it gets that far. A
   registration may be answered with nil.
   */
  datatype Round<+H> = Round(listen: Listen, ctxErr: Option<ContextError>,
                             refresh: seq<Attempt<string>>, register: seq<Attempt<Option<H>>>)

  // ---------- What the outside can observe ----------

  datatype Event =
    | Listened(credentials: Credentials, accepted: bool)
    | Announced(url: string)
    | ForwarderEnded(closed: bool)
    | RefreshStarted
    | RefreshAttempted(sent: string, attempt: Attempt<string>)
    | Refreshed(jwt: string)
    | RegisterCalled
    | Reregistered(registration: Option<RegistrationData>)

  /** Returned always carries an error: the recovery never ends well by itself. */
  datatype Outcome = Returned(err: Error) | Waiting | OutOfRounds

  // ---------- The automaton ----------

  datatype Phase = Fresh | ReRegistered | Rotated

  datatype State<H> = State(store: map<H, RegistrationData>, current: Option<H>, phase: Phase, announced: bool)

  /** One round: the state and events it produced, and how the run ended if it did. */
  datatype Transition<H> = Transition(state: State<H>, log: seq<Event>, stop: Option<Outcome>)

  datatype Execution<H> = Execution(outcome: Outcome, log: seq<Event>, state: State<H>)

  function Lookup<H>(store: map<H, RegistrationData>, handle: Option<H>): Option<RegistrationData> {
    match handle
    case Some(h) => if h in store then Some(store[h]) else None
    case None => None
  }

  function CurrentData<H>(s: State<H>): Option<RegistrationData> {
    Lookup(s.store, s.current)
  }

  function WithJwt(data: RegistrationData, jwt: string): RegistrationData {
    data.(tunnel := data.tunnel.(jwt := Some(jwt)))
  }

  /** The error waitForForwarder reports; a forwarder that stops without one is an error too. */
  function WaitError(wait: Wait): Error
    requires !wait.StillUp?
  {
    match wait
    case Stopped(err, ctxErr) =>
      if ctxErr.Some? then Context(ctxErr.value)
      else if err.None? then Plain("piko forwarder stopped unexpectedly")
      else err.value
    case Interrupted(cause) => Context(cause)
  }

  /** What is logged when the wait for a forwarder is over. */
  function EndOf(wait: Wait): Event
    requires !wait.StillUp?
  {
    ForwarderEnded(wait.Interrupted?)
  }

  function AttemptEvents(sent: string, attempts: seq<Attempt<string>>): seq<Event> {
    var calls := Calls(attempts);
    seq(calls, i requires 0 <= i < calls => RefreshAttempted(sent, attempts[i]))
  }

  /** recoverRejectedCredentials in a phase other than Rotated. */
  function Recover<H>(s: State<H>, sent: string, r: Round<H>): Transition<H>
    requires CurrentData(s).Some?
  {
    var tried := [RefreshStarted] + AttemptEvents(sent, r.refresh);
    match RefreshProgress(r.refresh)
    case Retrying => Transition(s, tried, Some(Waiting))
    case Finished(Ok(jwt)) =>
      var store := s.store[s.current.value := WithJwt(s.store[s.current.value], jwt)];
      Transition(s.(store := store, phase := Rotated), tried + [Refreshed(jwt)], None)
    case Finished(Err(e)) =>
      if !RefreshUnauthorized(r.refresh) then Transition(s, tried, Some(Returned(e)))
      else if s.phase.ReRegistered? then
        Transition(s, tried, Some(Returned(Wrapped("refresh Piko JWT after route re-registration", e))))
      else
        match RegisterProgress(r.register)
        case Retrying => Transition(s, tried + [RegisterCalled], Some(Waiting))
        case Finished(Err(failure)) => Transition(s, tried + [RegisterCalled], Some(Returned(failure)))
        case Finished(Ok(handle)) =>
          Transition(s.(current := handle, phase := ReRegistered),
                     tried + [RegisterCalled, Reregistered(Lookup(s.store, handle))], None)
  }

  function AfterListen<H>(s: State<H>, sent: string, err: Error, r: Round<H>): Transition<H>
    requires CurrentData(s).Some?
  {
    if r.ctxErr.Some? then Transition(s, [], Some(Returned(Context(r.ctxErr.value))))
    else if !AuthenticationFailure(err) then Transition(s, [], Some(Returned(Wrapped("connect to Piko", err))))
    else if s.phase.Rotated? then
      Transition(s, [], Some(Returned(Wrapped("connect to Piko with refreshed JWT", err))))
    else Recover(s, sent, r)
  }

  function Prepend<H>(log: seq<Event>, t: Transition<H>): Transition<H> {
    t.(log := log + t.log)
  }

  function Connect<H>(s: State<H>, heard: Event): (State<H>, seq<Event>)
    requires CurrentData(s).Some?
  {
    (s.(phase := Fresh, announced := true),
     [heard] + if s.announced then [] else [Announced(CurrentData(s).value.url)])
  }

  function Step<H>(s: State<H>, r: Round<H>): Transition<H> {
    match CredentialsFromRegistration(CurrentData(s))
    case Err(e) => Transition(s, [], Some(Returned(e)))
    case Ok(credentials) =>
      var heard := Listened(credentials, r.listen.Connected?);
      match r.listen
      case Rejected(err) => Prepend([heard], AfterListen(s, credentials.jwt, err, r))
      case Connected(wait) =>
        var (connected, log) := Connect(s, heard);
        if wait.StillUp? then Transition(connected, log, Some(Waiting))
        else Prepend(log + [EndOf(wait)],
                     AfterListen(connected, credentials.jwt, WaitError(wait), r))
  }

  function Exec<H>(s: State<H>, rounds: seq<Round<H>>): Execution<H>
    decreases |rounds|
  {
    if rounds == [] then Execution(OutOfRounds, [], s)
    else
      var t := Step(s, rounds[0]);
      if t.stop.Some? then Execution(t.stop.value, t.log, t.state)
      else
        var rest := Exec(t.state, rounds[1..]);
        Execution(rest.outcome, t.log + rest.log, rest.state)
  }

  /**
   How a run begins: with a listen that uses the three tunnel credentials of the registration
   it was given, or, if one is missing or empty, with an error and nothing done.
   */
  lemma RunBeginsWithListen<H>(store: map<H, RegistrationData>, registration: Option<H>, rounds: seq<Round<H>>)
    requires rounds != []
    ensures var x := Exec(Initial(store, registration), rounds);
            match Lookup(store, registration)
            case Some(d) =>
              if IsGiven(d.tunnel.url) && IsGiven(d.tunnel.jwt) && IsGiven(d.tunnel.endpoint)
              then
                && x.log != []
                && x.log[0] == Listened(Credentials(d.tunnel.url.value, d.tunnel.jwt.value, d.tunnel.endpoint.value),
                                        rounds[0].listen.Connected?)
              else x.log == [] && x.outcome.Returned?
            case None => x.log == [] && x.outcome.Returned?
  {
    var s := Initial(store, registration);
    CredentialsIff(CurrentData(s));
    StepBeginsWithListen(s, rounds[0]);
  }

  lemma StepBeginsWithListen<H>(s: State<H>, r: Round<H>)
    ensures var checked := CredentialsFromRegistration(CurrentData(s));
            if checked.Ok?
            then Step(s, r).log != [] && Step(s, r).log[0] == Listened(checked.value, r.listen.Connected?)
            else Step(s, r).log == [] && Step(s, r).stop.Some? && Step(s, r).stop.value.Returned?
  {
  }

  /** The state run starts from. */
  function Initial<H>(store: map<H, RegistrationData>, registration: Option<H>): State<H> {
    State(store, registration, Fresh, false)
  }
}
