/**
 What every run of the recovery shows to the outside. An observer reads the events one by
 one, knows nothing of the automaton's state, and says which event may come next; every
 trace the automaton produces is legal to it.
 */
module RecoveryTraces {
  import opened Values
  import opened GoErrors
  import opened RetryLoop
  import opened RecoveryMachine

  datatype Observer = Observer(
    data: Option<RegistrationData>,  // the registration in use, with the JWT in use
    listenedWith: Option<string>,    // JWT of the latest listen
    live: bool,                      // a forwarder is up
    listens: nat,                    // listens so far
    accepted: nat,                   // accepted listens so far
    announced: nat,                  // announcements so far
    refreshes: nat,                  // refreshes started so far, each counted once however often retried
    registers: nat,                  // re-registrations started so far
    registered: bool,                // register was called since the latest accepted listen
    rotated: bool,                   // a refresh succeeded since the latest accepted listen
    last: Option<Event>)

  function Observe(o: Observer, e: Event): Observer {
    var o := o.(last := Some(e));
    match e
    case Listened(credentials, accepted) =>
      var o := o.(listenedWith := Some(credentials.jwt), listens := o.listens + 1);
      if accepted then o.(live := true, accepted := o.accepted + 1, registered := false, rotated := false) else o
    case Announced(_) => o.(announced := o.announced + 1)
    case ForwarderEnded(_) => o.(live := false)
    case RefreshStarted => o.(refreshes := o.refreshes + 1)
    case RefreshAttempted(_, _) => o
    case Refreshed(jwt) =>
      o.(rotated := true, data := if o.data.Some? then Some(WithJwt(o.data.value, jwt)) else None)
    case RegisterCalled => o.(registered := true, registers := o.registers + 1)
    case Reregistered(data) => o.(data := data)
  }

  /** An observer that has seen nothing yet. */
  function Watching(data: Option<RegistrationData>): Observer {
    Observer(data, None, false, 0, 0, 0, 0, 0, false, false, None)
  }

  ghost predicate Legal(o: Observer, e: Event) {
    match e
    case Listened(credentials, _) =>
      // one forwarder at a time, exactly the credentials in use, and never the same ones again
      && !o.live
      && CredentialsFromRegistration(o.data) == Ok(credentials)
      && (o.last.Some? ==> o.last.value.Refreshed? || o.last.value.Reregistered?)
    case Announced(url) =>
      // at the first accepted listen, with the URL of the registration it used
      && o.last.Some? && o.last.value.Listened? && o.last.value.accepted
      && o.accepted == 1 && o.announced == 0
      && o.data.Some? && url == o.data.value.url
    case ForwarderEnded(_) =>
      o.live && o.announced == 1
    case RefreshStarted =>
      // after a rejected or lost connection, but not twice without one in between
      && !o.live && !o.rotated
      && o.last.Some? && (o.last.value.ForwarderEnded? || (o.last.value.Listened? && !o.last.value.accepted))
    case RefreshAttempted(sent, _) =>
      // with the JWT just rejected, and only while no attempt was terminal
      && o.listenedWith == Some(sent)
      && o.last.Some? && (o.last.value.RefreshStarted?
                          || (o.last.value.RefreshAttempted? && !Terminal(o.last.value.attempt)))
    case Refreshed(jwt) =>
      o.last.Some? && o.last.value.RefreshAttempted? && o.last.value.attempt.outcome == Ok(jwt)
    case RegisterCalled =>
      // justified by a 401 under a live context, once per outage
      && !o.registered
      && o.last.Some? && o.last.value.RefreshAttempted? && Unauthorized(o.last.value.attempt)
    case Reregistered(_) =>
      o.last == Some(RegisterCalled)
  }

  function After(o: Observer, log: seq<Event>): Observer
    decreases |log|
  {
    if log == [] then o else After(Observe(o, log[0]), log[1..])
  }

  ghost predicate Accepts(o: Observer, log: seq<Event>)
    decreases |log|
  {
    log == [] || (Legal(o, log[0]) && Accepts(Observe(o, log[0]), log[1..]))
  }

  lemma {:induction false} Concatenation(o: Observer, a: seq<Event>, b: seq<Event>)
    ensures After(o, a + b) == After(After(o, a), b)
    ensures Accepts(o, a + b) <==> Accepts(o, a) && Accepts(After(o, a), b)
    decreases |a|
  {
    if a == [] {
      assert a + b == b;
    } else {
      Concatenation(Observe(o, a[0]), a[1..], b);
      assert (a + b)[1..] == a[1..] + b;
    }
  }

  lemma Single(o: Observer, e: Event)
    ensures After(o, [e]) == Observe(o, e)
    ensures Accepts(o, [e]) <==> Legal(o, e)
  {
    assert [e][1..] == [];
  }

  lemma Append(o: Observer, log: seq<Event>, e: Event)
    requires Accepts(o, log) && Legal(After(o, log), e)
    ensures Accepts(o, log + [e])
    ensures After(o, log + [e]) == Observe(After(o, log), e)
  {
    Concatenation(o, log, [e]);
    Single(After(o, log), e);
  }

  // ---------- The automaton's traces are legal ----------

  /** The observer's view of an automaton between two rounds. */
  ghost predicate Agree<H>(s: State<H>, o: Observer) {
    && Consistent(s, o)
    && (o.last.Some? ==> o.last.value.Refreshed? || o.last.value.Reregistered?)
  }

  ghost predicate Consistent<H>(s: State<H>, o: Observer) {
    && o.data == CurrentData(s)
    && AtRest(o)
    && s.announced == (o.accepted > 0)
    && (s.phase.Rotated? <==> o.rotated)
    && (s.phase.Fresh? ==> !o.registered)
  }

  /** No forwarder is up, and the first connection, if any, has been announced. */
  ghost predicate AtRest(o: Observer) {
    !o.live && o.announced == Min(1, o.accepted)
  }

  lemma {:induction false} AttemptsAreLegal(o: Observer, sent: string, attempts: seq<Attempt<string>>, n: nat)
    requires o.listenedWith == Some(sent) && o.last == Some(RefreshStarted)
    requires n <= Calls(attempts)
    ensures Accepts(o, AttemptEvents(sent, attempts)[..n])
    ensures After(o, AttemptEvents(sent, attempts)[..n]) ==
            o.(last := if n == 0 then o.last else Some(RefreshAttempted(sent, attempts[n - 1])))
  {
    var events := AttemptEvents(sent, attempts);
    if n > 0 {
      AttemptsAreLegal(o, sent, attempts, n - 1);
      Append(o, events[..n - 1], events[n - 1]);
      assert events[..n] == events[..n - 1] + [events[n - 1]];
    }
  }

  /** A refresh up to its last attempt: only the count of refreshes and the latest event change. */
  lemma TriedIsLegal(o: Observer, sent: string, attempts: seq<Attempt<string>>)
    requires Legal(o, RefreshStarted) && o.listenedWith == Some(sent)
    ensures var tried := [RefreshStarted] + AttemptEvents(sent, attempts);
            var n := Calls(attempts);
            && Accepts(o, tried)
            && After(o, tried) ==
               o.(refreshes := o.refreshes + 1,
                  last := Some(if n == 0 then RefreshStarted else RefreshAttempted(sent, attempts[n - 1])))
  {
    var events := AttemptEvents(sent, attempts);
    Single(o, RefreshStarted);
    AttemptsAreLegal(Observe(o, RefreshStarted), sent, attempts, |events|);
    assert events[..|events|] == events;
    Concatenation(o, [RefreshStarted], events);
  }

  /** A legal reaction to a lost connection: it listens no further, and leaves nothing up. */
  ghost predicate ReactionIsLegal<H>(t: Transition<H>, o: Observer, refreshes: nat, registers: nat) {
    var o' := After(o, t.log);
    && Accepts(o, t.log)
    && AtRest(o')
    && o'.listens == o.listens && o'.accepted == o.accepted
    && o'.refreshes == o.refreshes + refreshes && o'.registers == o.registers + registers
    && (t.stop.None? ==> Agree(t.state, o'))
  }

  /** The connection was rejected or lost, and nothing has been done about it yet. */
  ghost predicate Disconnected<H>(s: State<H>, o: Observer, sent: string) {
    && Consistent(s, o)
    && o.listenedWith == Some(sent)
    && o.last.Some? && (o.last.value.ForwarderEnded? || (o.last.value.Listened? && !o.last.value.accepted))
  }

  predicate Recovers<H>(s: State<H>, err: Error, r: Round<H>) {
    r.ctxErr.None? && AuthenticationFailure(err) && !s.phase.Rotated?
  }

  function Registrations<H>(s: State<H>, r: Round<H>): nat {
    if RefreshUnauthorized(r.refresh) && s.phase.Fresh? then 1 else 0
  }

  lemma ReregistrationIsLegal<H>(s: State<H>, o: Observer, sent: string, r: Round<H>)
    requires Disconnected(s, o, sent) && CurrentData(s).Some?
    requires RefreshUnauthorized(r.refresh) && s.phase.Fresh?
    ensures ReactionIsLegal(Recover(s, sent, r), o, 1, 1)
  {
    TriedIsLegal(o, sent, r.refresh);
    var tried := [RefreshStarted] + AttemptEvents(sent, r.refresh);
    FirstTerminalWasUnauthorized(r.refresh);
    Append(o, tried, RegisterCalled);
    match RegisterProgress(r.register)
    case Finished(Ok(handle)) =>
      var data := Lookup(s.store, handle);
      Append(o, tried + [RegisterCalled], Reregistered(data));
      assert tried + [RegisterCalled, Reregistered(data)] == tried + [RegisterCalled] + [Reregistered(data)];
    case _ =>
  }

  lemma RecoverIsLegal<H>(s: State<H>, o: Observer, sent: string, r: Round<H>)
    requires Disconnected(s, o, sent) && CurrentData(s).Some? && !s.phase.Rotated?
    ensures ReactionIsLegal(Recover(s, sent, r), o, 1, Registrations(s, r))
  {
    if RefreshUnauthorized(r.refresh) && s.phase.Fresh? {
      ReregistrationIsLegal(s, o, sent, r);
    } else {
      TriedIsLegal(o, sent, r.refresh);
      var tried := [RefreshStarted] + AttemptEvents(sent, r.refresh);
      match RefreshProgress(r.refresh)
      case Finished(Ok(jwt)) => Append(o, tried, Refreshed(jwt));
      case _ =>
    }
  }

  lemma AfterListenIsLegal<H>(s: State<H>, o: Observer, sent: string, err: Error, r: Round<H>)
    requires Disconnected(s, o, sent) && CurrentData(s).Some?
    ensures if Recovers(s, err, r) then ReactionIsLegal(AfterListen(s, sent, err, r), o, 1, Registrations(s, r))
            else ReactionIsLegal(AfterListen(s, sent, err, r), o, 0, 0)
  {
    if Recovers(s, err, r) {
      RecoverIsLegal(s, o, sent, r);
    }
  }

  /** One accepted listen with what follows it directly. */
  lemma ConnectIsLegal<H>(s: State<H>, o: Observer, credentials: Credentials)
    requires Agree(s, o) && CredentialsFromRegistration(CurrentData(s)) == Ok(credentials)
    ensures var (connected, log) := Connect(s, Listened(credentials, true));
            && Accepts(o, log)
            && var o' := After(o, log);
            && o'.live && o'.announced == 1 && o'.accepted == o.accepted + 1 && o'.listens == o.listens + 1
            && o'.refreshes == o.refreshes && o'.registers == o.registers && !o'.registered && !o'.rotated
            && o'.data == CurrentData(connected) && o'.listenedWith == Some(credentials.jwt)
  {
    var heard := Listened(credentials, true);
    Single(o, heard);
    if !s.announced {
      Append(o, [heard], Announced(CurrentData(s).value.url));
    } else {
      assert [heard] + [] == [heard];
    }
  }

  /** What a round leaves behind: a legal trace, and nothing up unless the run is cut off while waiting. */
  ghost predicate RoundIsLegal<H>(t: Transition<H>, o: Observer, r: Round<H>) {
    && Accepts(o, t.log)
    && o.accepted <= After(o, t.log).accepted <= o.accepted + (if r.listen.Connected? then 1 else 0)
    && (t.stop.None? ==> After(o, t.log).listens == o.listens + 1)
    && After(o, t.log).listens <= o.listens + 1
    && (t.stop != Some(Waiting) ==> AtRest(After(o, t.log)))
    && After(o, t.log).announced == Min(1, After(o, t.log).accepted)
    && (t.stop.None? ==> Agree(t.state, After(o, t.log)))
  }

  lemma StepIsLegal<H>(s: State<H>, o: Observer, r: Round<H>)
    requires Agree(s, o)
    ensures RoundIsLegal(Step(s, r), o, r)
  {
    var checked := CredentialsFromRegistration(CurrentData(s));
    if checked.Ok? {
      var credentials := checked.value;
      match r.listen
      case Rejected(err) =>
        var heard := Listened(credentials, false);
        Single(o, heard);
        AfterListenIsLegal(s, Observe(o, heard), credentials.jwt, err, r);
        Concatenation(o, [heard], AfterListen(s, credentials.jwt, err, r).log);
      case Connected(wait) =>
        ConnectIsLegal(s, o, credentials);
        var (connected, log) := Connect(s, Listened(credentials, true));
        if !wait.StillUp? {
          var ended := ForwarderEnded(wait.Interrupted?);
          Append(o, log, ended);
          var o' := Observe(After(o, log), ended);
          AfterListenIsLegal(connected, o', credentials.jwt, WaitError(wait), r);
          Concatenation(o, log + [ended], AfterListen(connected, credentials.jwt, WaitError(wait), r).log);
        }
    }
  }

  /**
   Every run, over any rounds, shows a legal trace. When it has returned no forwarder is
   left up, and the announcements made are min(1, accepted listens) at every cut.
   */
  lemma {:induction false} EveryTraceIsLegal<H>(s: State<H>, o: Observer, rounds: seq<Round<H>>)
    requires Agree(s, o)
    ensures var x := Exec(s, rounds);
            && Accepts(o, x.log)
            && (x.outcome != Waiting ==> !After(o, x.log).live)
            && After(o, x.log).announced == Min(1, After(o, x.log).accepted)
    decreases |rounds|
  {
    if rounds != [] {
      var t := Step(s, rounds[0]);
      StepIsLegal(s, o, rounds[0]);
      if t.stop.None? {
        EveryTraceIsLegal(t.state, After(o, t.log), rounds[1..]);
        Concatenation(o, t.log, Exec(t.state, rounds[1..]).log);
      }
    }
  }
}
