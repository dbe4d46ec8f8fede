/**
 What the legality of every trace means for the positions of a run's log, and what the
 error of a returned run says about the context.
 */
module RecoveryGuarantees {
  import opened Values
  import opened GoErrors
  import opened RetryLoop
  import opened RecoveryMachine
  import opened RecoveryTraces

  /** The observer just before position i. */
  function At(o: Observer, log: seq<Event>, i: nat): Observer
    requires i <= |log|
  {
    After(o, log[..i])
  }

  lemma AtNext(o: Observer, log: seq<Event>, i: nat)
    requires i < |log|
    ensures At(o, log, i + 1) == Observe(At(o, log, i), log[i])
  {
    assert log[..i + 1] == log[..i] + [log[i]];
    Concatenation(o, log[..i], [log[i]]);
    Single(At(o, log, i), log[i]);
  }

  lemma RestIsAccepted(o: Observer, log: seq<Event>, i: nat)
    requires Accepts(o, log) && i <= |log|
    ensures Accepts(At(o, log, i), log[i..])
  {
    var before, rest := log[..i], log[i..];
    assert log == before + rest;
    Concatenation(o, before, rest);
  }

  lemma HeadIsLegal(o: Observer, rest: seq<Event>)
    requires Accepts(o, rest) && rest != []
    ensures Legal(o, rest[0])
  {
  }

  lemma LastIsPrevious(o: Observer, log: seq<Event>, i: nat)
    requires 0 < i <= |log|
    ensures At(o, log, i).last == Some(log[i - 1])
  {
    AtNext(o, log, i - 1);
  }

  lemma LegalAt(o: Observer, log: seq<Event>, i: nat)
    requires Accepts(o, log) && i < |log|
    ensures Legal(At(o, log, i), log[i])
    ensures i > 0 ==> At(o, log, i).last == Some(log[i - 1])
  {
    RestIsAccepted(o, log, i);
    HeadIsLegal(At(o, log, i), log[i..]);
    if i > 0 {
      LastIsPrevious(o, log, i);
    }
  }

  predicate IsAccepted(e: Event) { e.Listened? && e.accepted }

  /** The log of a run, to an observer that knows the registration it started with. */
  ghost predicate IsRun<H>(log: seq<Event>, o: Observer, store: map<H, RegistrationData>, registration: Option<H>,
                           rounds: seq<Round<H>>) {
    log == Exec(Initial(store, registration), rounds).log && o == Watching(Lookup(store, registration))
  }

  lemma RunIsLegal<H>(log: seq<Event>, o: Observer, store: map<H, RegistrationData>, registration: Option<H>,
                      rounds: seq<Round<H>>)
    requires IsRun(log, o, store, registration, rounds)
    ensures Accepts(o, log)
  {
    EveryTraceIsLegal(Initial(store, registration), o, rounds);
  }

  // ---------- Re-registration ----------

  lemma {:induction false} StaysRegistered(o: Observer, log: seq<Event>, i: nat, j: nat)
    requires i < j <= |log| && log[i].RegisterCalled?
    requires forall k | i < k < j :: !IsAccepted(log[k])
    ensures At(o, log, j).registered
  {
    AtNext(o, log, j - 1);
    if i + 1 < j {
      StaysRegistered(o, log, i, j - 1);
    }
  }

  /** Between two re-registrations of a run there is always an accepted listen. */
  lemma ReregistrationsAreSeparated<H>(log: seq<Event>, o: Observer, store: map<H, RegistrationData>,
                                       registration: Option<H>, rounds: seq<Round<H>>, i: nat, j: nat)
    requires IsRun(log, o, store, registration, rounds)
    requires i < j < |log| && log[i].RegisterCalled? && log[j].RegisterCalled?
    ensures exists k | i < k < j :: IsAccepted(log[k])
  {
    RunIsLegal(log, o, store, registration, rounds);
    LegalAt(o, log, j);
    if forall k | i < k < j :: !IsAccepted(log[k]) {
      StaysRegistered(o, log, i, j);
    }
  }

  /**
   Every re-registration of a run is justified: the event right before it is a refresh
   attempt that the registry answered 401 under a live context.
   */
  lemma ReregistrationIsJustified<H>(log: seq<Event>, o: Observer, store: map<H, RegistrationData>,
                                     registration: Option<H>, rounds: seq<Round<H>>, j: nat)
    requires IsRun(log, o, store, registration, rounds)
    requires j < |log| && log[j].RegisterCalled?
    ensures j > 0 && log[j - 1].RefreshAttempted? && Unauthorized(log[j - 1].attempt)
  {
    RunIsLegal(log, o, store, registration, rounds);
    LegalAt(o, log, j);
  }

  /** The other direction: in a phase that allows it, such an answer always leads to a re-registration. */
  lemma ReregistersIff<H>(s: State<H>, sent: string, r: Round<H>)
    requires CurrentData(s).Some? && !s.phase.Rotated?
    ensures RegisterCalled in Recover(s, sent, r).log <==>
            s.phase.Fresh? && exists k :: 0 <= k < |r.refresh| && Unauthorized(r.refresh[k]) &&
                                          forall i | 0 <= i < k :: !Terminal(r.refresh[i])
  {
    RefreshUnauthorizedIff(r.refresh);
    var t := Recover(s, sent, r);
    var tried := [RefreshStarted] + AttemptEvents(sent, r.refresh);
    assert RegisterCalled !in tried;
    if RefreshUnauthorized(r.refresh) && s.phase.Fresh? {
      assert t.log[|tried|] == RegisterCalled;
    }
  }

  // ---------- Credentials ----------

  /**
   Where the credentials of a listen come from. The first listen uses the registration the
   run started with; a later one directly follows the change it uses: a refresh whose JWT
   it carries, or a re-registration all of whose credentials it carries. They are never empty.
   */
  lemma CredentialsAreLatest<H>(log: seq<Event>, o: Observer, store: map<H, RegistrationData>,
                                registration: Option<H>, rounds: seq<Round<H>>, j: nat)
    requires IsRun(log, o, store, registration, rounds)
    requires j < |log| && log[j].Listened?
    ensures var c := log[j].credentials;
            && c.url != "" && c.jwt != "" && c.endpointID != ""
            && if j == 0 then CredentialsFromRegistration(Lookup(store, registration)) == Ok(c)
               else if log[j - 1].Refreshed? then c.jwt == log[j - 1].jwt
               else log[j - 1].Reregistered? && CredentialsFromRegistration(log[j - 1].registration) == Ok(c)
  {
    RunIsLegal(log, o, store, registration, rounds);
    LegalAt(o, log, j);
    var now := At(o, log, j);
    assert CredentialsFromRegistration(now.data) == Ok(log[j].credentials);
    if j > 0 {
      AtNext(o, log, j - 1);
      assert now == Observe(At(o, log, j - 1), log[j - 1]);
    }
  }

  /** The same tunnel, but for its JWT. */
  ghost predicate SameButJwt(a: Option<RegistrationData>, b: Option<RegistrationData>) {
    (a.Some? <==> b.Some?) && (a.Some? ==> b.value == a.value.(tunnel := a.value.tunnel.(jwt := b.value.tunnel.jwt)))
  }

  lemma {:induction false} OnlyJwtChanges(o: Observer, log: seq<Event>, i: nat, j: nat)
    requires i <= j <= |log| && forall k | i <= k < j :: !log[k].Reregistered?
    ensures SameButJwt(At(o, log, i).data, At(o, log, j).data)
    decreases j
  {
    if i < j {
      OnlyJwtChanges(o, log, i, j - 1);
      AtNext(o, log, j - 1);
    }
  }

  /** The registration that the events before position j leave in use, JWT aside. */
  ghost predicate InUse(log: seq<Event>, j: nat, initial: Option<RegistrationData>, d: Option<RegistrationData>)
    requires j <= |log|
  {
    || (d == initial && forall k | 0 <= k < j :: !log[k].Reregistered?)
    || (exists i :: 0 <= i < j && log[i] == Reregistered(d) && forall k | i < k < j :: !log[k].Reregistered?)
  }

  lemma InUseIsObserved(o: Observer, log: seq<Event>, j: nat, d: Option<RegistrationData>)
    requires j <= |log| && InUse(log, j, o.data, d)
    ensures SameButJwt(d, At(o, log, j).data)
  {
    if d == o.data && forall k | 0 <= k < j :: !log[k].Reregistered? {
      OnlyJwtChanges(o, log, 0, j);
    } else {
      var i :| 0 <= i < j && log[i] == Reregistered(d) && forall k | i < k < j :: !log[k].Reregistered?;
      AtNext(o, log, i);
      OnlyJwtChanges(o, log, i + 1, j);
    }
  }

  /**
   URL and endpoint of every listen are those of the registration in use: the latest one
   registered before it, or the initial one. No refresh touches them.
   */
  lemma TunnelIsOfLatestRegistration<H>(log: seq<Event>, o: Observer, store: map<H, RegistrationData>,
                                        registration: Option<H>, rounds: seq<Round<H>>, j: nat,
                                        d: Option<RegistrationData>)
    requires IsRun(log, o, store, registration, rounds)
    requires j < |log| && log[j].Listened? && InUse(log, j, Lookup(store, registration), d)
    ensures d.Some? && d.value.tunnel.url == Some(log[j].credentials.url)
            && d.value.tunnel.endpoint == Some(log[j].credentials.endpointID)
  {
    RunIsLegal(log, o, store, registration, rounds);
    LegalAt(o, log, j);
    InUseIsObserved(o, log, j, d);
  }

  lemma {:induction false} LatestListen(o: Observer, log: seq<Event>, j: nat)
    requires j <= |log| && o.listenedWith.None? && At(o, log, j).listenedWith.Some?
    ensures exists i :: 0 <= i < j && log[i].Listened? && Some(log[i].credentials.jwt) == At(o, log, j).listenedWith
                        && forall k | i < k < j :: !log[k].Listened?
  {
    if j > 0 {
      AtNext(o, log, j - 1);
      if !log[j - 1].Listened? {
        LatestListen(o, log, j - 1);
      }
    }
  }

  /** Every raw refresh attempt sends the JWT of the latest listen, the one just rejected. */
  lemma AttemptsSendRejectedJwt<H>(log: seq<Event>, o: Observer, store: map<H, RegistrationData>,
                                   registration: Option<H>, rounds: seq<Round<H>>, j: nat)
    requires IsRun(log, o, store, registration, rounds)
    requires j < |log| && log[j].RefreshAttempted?
    ensures exists i :: 0 <= i < j && log[i].Listened? && log[i].credentials.jwt == log[j].sent
                        && forall k | i < k < j :: !log[k].Listened?
  {
    RunIsLegal(log, o, store, registration, rounds);
    LegalAt(o, log, j);
    LatestListen(o, log, j);
  }

  // ---------- Forwarders and the announcement ----------

  lemma {:induction false} StaysUp(o: Observer, log: seq<Event>, i: nat, j: nat)
    requires i < j <= |log| && IsAccepted(log[i])
    requires forall k | i < k < j :: !log[k].ForwarderEnded?
    ensures At(o, log, j).live
  {
    AtNext(o, log, j - 1);
    if i + 1 < j {
      StaysUp(o, log, i, j - 1);
    }
  }

  /**
   Forwarder discipline. The forwarder of every accepted listen has ended, by itself or by
   being closed, before the next listen and before the run returns.
   */
  lemma ForwardersEnd<H>(log: seq<Event>, o: Observer, store: map<H, RegistrationData>, registration: Option<H>,
                         rounds: seq<Round<H>>, i: nat, j: nat)
    requires IsRun(log, o, store, registration, rounds)
    requires i < j <= |log| && IsAccepted(log[i])
    requires if j < |log| then log[j].Listened? else Exec(Initial(store, registration), rounds).outcome.Returned?
    ensures exists k | i < k < j :: log[k].ForwarderEnded?
  {
    EveryTraceIsLegal(Initial(store, registration), o, rounds);
    if j < |log| {
      LegalAt(o, log, j);
    } else {
      assert log[..j] == log;
    }
    if forall k | i < k < j :: !log[k].ForwarderEnded? {
      StaysUp(o, log, i, j);
    }
  }

  /** How many events of the log satisfy p. */
  function Count(log: seq<Event>, p: Event -> bool): nat {
    if log == [] then 0 else Count(log[..|log| - 1], p) + if p(log[|log| - 1]) then 1 else 0
  }

  predicate IsAnnouncement(e: Event) { e.Announced? }
  predicate IsListen(e: Event) { e.Listened? }
  predicate IsRefresh(e: Event) { e.RefreshStarted? }
  predicate IsRegistration(e: Event) { e.RegisterCalled? }

  lemma ObserveCounts(o: Observer, e: Event)
    ensures var o' := Observe(o, e);
            && o'.accepted == o.accepted + (if IsAccepted(e) then 1 else 0)
            && o'.announced == o.announced + (if IsAnnouncement(e) then 1 else 0)
            && o'.listens == o.listens + (if IsListen(e) then 1 else 0)
            && o'.refreshes == o.refreshes + (if IsRefresh(e) then 1 else 0)
            && o'.registers == o.registers + (if IsRegistration(e) then 1 else 0)
  {
  }

  /** The observer counts what is in the log. */
  ghost predicate CountsAre(o: Observer, o': Observer, log: seq<Event>) {
    && o'.accepted == o.accepted + Count(log, IsAccepted)
    && o'.announced == o.announced + Count(log, IsAnnouncement)
    && o'.listens == o.listens + Count(log, IsListen)
    && o'.refreshes == o.refreshes + Count(log, IsRefresh)
    && o'.registers == o.registers + Count(log, IsRegistration)
  }

  lemma CountsAreOneMore(o: Observer, o': Observer, log: seq<Event>, e: Event)
    requires CountsAre(o, o', log)
    ensures CountsAre(o, Observe(o', e), log + [e])
  {
    ObserveCounts(o', e);
    assert (log + [e])[..|log|] == log;
  }

  lemma {:induction false} ObservedCounts(o: Observer, log: seq<Event>, i: nat)
    requires i <= |log|
    ensures CountsAre(o, At(o, log, i), log[..i])
  {
    if i > 0 {
      ObservedCounts(o, log, i - 1);
      AtNext(o, log, i - 1);
      assert log[..i] == log[..i - 1] + [log[i - 1]];
      CountsAreOneMore(o, At(o, log, i - 1), log[..i - 1], log[i - 1]);
    }
  }

  /** Over any run the first connection is announced min(1, accepted listens) times. */
  lemma AnnouncedOnce<H>(log: seq<Event>, o: Observer, store: map<H, RegistrationData>, registration: Option<H>,
                         rounds: seq<Round<H>>)
    requires IsRun(log, o, store, registration, rounds)
    ensures Count(log, IsAnnouncement) == Min(1, Count(log, IsAccepted))
  {
    EveryTraceIsLegal(Initial(store, registration), o, rounds);
    ObservedCounts(o, log, |log|);
    assert log[..|log|] == log;
  }

  lemma {:induction false} NoneAccepted(log: seq<Event>, i: nat)
    requires i <= |log| && Count(log[..i], IsAccepted) == 0
    ensures forall k | 0 <= k < i :: !IsAccepted(log[k])
  {
    if i > 0 {
      assert log[..i][..i - 1] == log[..i - 1];
      NoneAccepted(log, i - 1);
    }
  }

  lemma AnnouncedAtFirstAccepted(o: Observer, log: seq<Event>, j: nat)
    requires Accepts(o, log) && o.last.None? && o.accepted == 0
    requires j < |log| && log[j].Announced?
    ensures j > 0 && IsAccepted(log[j - 1]) && forall k | 0 <= k < j - 1 :: !IsAccepted(log[k])
  {
    LegalAt(o, log, j);
    ObservedCounts(o, log, j);
    assert log[..j][..j - 1] == log[..j - 1];
    NoneAccepted(log, j - 1);
  }

  /**
   The announcement directly follows the first accepted listen and carries the URL of the
   registration in use then, which is the initial one unless a re-registration came first.
   */
  lemma AnnouncementIsOfFirstConnection<H>(log: seq<Event>, o: Observer, store: map<H, RegistrationData>,
                                           registration: Option<H>, rounds: seq<Round<H>>, j: nat,
                                           d: Option<RegistrationData>)
    requires IsRun(log, o, store, registration, rounds)
    requires j < |log| && log[j].Announced? && InUse(log, j, Lookup(store, registration), d)
    ensures j > 0 && IsAccepted(log[j - 1]) && forall k | 0 <= k < j - 1 :: !IsAccepted(log[k])
    ensures d.Some? && log[j].url == d.value.url
  {
    RunIsLegal(log, o, store, registration, rounds);
    AnnouncedAtFirstAccepted(o, log, j);
    InUseIsObserved(o, log, j, d);
    LegalAt(o, log, j);
  }

  // ---------- Cancellation ----------

  ghost predicate NotCanceled(result: Option<Error>) {
    result.Some? ==> !IsCanceled(result.value)
  }

  ghost predicate AttemptUncanceled<T>(a: Attempt<T>) {
    && a.ctxErr != Some(Canceled) && a.sleepErr != Some(Canceled)
    && (a.outcome.Err? ==> !IsCanceled(a.outcome.error))
  }

  /** The context is never seen canceled in the round, and no collaborator reports a cancellation of its own. */
  ghost predicate Uncanceled<H>(r: Round<H>) {
    && r.ctxErr != Some(Canceled)
    && (match r.listen
        case Rejected(err) => !IsCanceled(err)
        case Connected(Stopped(err, ctxErr)) => NotCanceled(err) && ctxErr != Some(Canceled)
        case Connected(Interrupted(cause)) => cause != Canceled
        case Connected(StillUp) => true)
    && (forall a | a in r.refresh :: AttemptUncanceled(a))
    && (forall a | a in r.register :: AttemptUncanceled(a))
  }

  /** A wrapped retry loop reports no cancellation that none of its attempts saw. */
  lemma RetryUncanceled<T>(attempts: seq<Attempt<T>>, prefix: string)
    requires forall a | a in attempts :: AttemptUncanceled(a)
    ensures match WrapFailure(RetryProgress(attempts), prefix)
            case Finished(Err(e)) => !IsCanceled(e)
            case _ => true
  {
    var k := FirstTerminal(attempts);
    if k < |attempts| {
      assert AttemptUncanceled(attempts[k]);
      var verdict := Verdict(attempts[k]);
      if verdict.Err? {
        assert IsCanceled(Wrapped(prefix, verdict.error)) <==> IsCanceled(verdict.error);
      }
    }
  }

  ghost predicate StopsUncanceled<H>(t: Transition<H>) {
    t.stop.Some? && t.stop.value.Returned? ==> !IsCanceled(t.stop.value.err)
  }

  lemma RecoverUncanceled<H>(s: State<H>, sent: string, r: Round<H>)
    requires Uncanceled(r) && CurrentData(s).Some?
    ensures StopsUncanceled(Recover(s, sent, r))
  {
    RetryUncanceled(r.refresh, "refresh Piko JWT");
    RetryUncanceled(r.register, "register route");
  }

  lemma AfterListenUncanceled<H>(s: State<H>, sent: string, err: Error, r: Round<H>)
    requires Uncanceled(r) && CurrentData(s).Some? && !IsCanceled(err)
    ensures StopsUncanceled(AfterListen(s, sent, err, r))
  {
    RecoverUncanceled(s, sent, r);
  }

  lemma WaitUncanceled<H>(r: Round<H>)
    requires Uncanceled(r) && r.listen.Connected? && !r.listen.wait.StillUp?
    ensures !IsCanceled(WaitError(r.listen.wait))
  {
  }

  lemma StepUncanceled<H>(s: State<H>, r: Round<H>)
    requires Uncanceled(r)
    ensures StopsUncanceled(Step(s, r))
  {
    var checked := CredentialsFromRegistration(CurrentData(s));
    if checked.Ok? {
      match r.listen
      case Rejected(err) => AfterListenUncanceled(s, checked.value.jwt, err, r);
      case Connected(wait) =>
        if !wait.StillUp? {
          WaitUncanceled(r);
          AfterListenUncanceled(s.(phase := Fresh, announced := true), checked.value.jwt, WaitError(wait), r);
        }
    }
  }

  /**
   The recovery never makes up a cancellation: if run returns one, then in some round the
   context was seen canceled or a collaborator reported it.
   */
  lemma {:induction false} CancellationComesFromOutside<H>(s: State<H>, rounds: seq<Round<H>>)
    requires forall r | r in rounds :: Uncanceled(r)
    ensures var outcome := Exec(s, rounds).outcome;
            outcome.Returned? ==> !IsCanceled(outcome.err)
    decreases |rounds|
  {
    if rounds != [] {
      assert Uncanceled(rounds[0]);
      StepUncanceled(s, rounds[0]);
      if Step(s, rounds[0]).stop.None? {
        CancellationComesFromOutside(Step(s, rounds[0]).state, rounds[1..]);
      }
    }
  }

  // ---------- What a run returns ----------

  lemma StopIsNoEndOfScript<H>(s: State<H>, r: Round<H>)
    ensures Step(s, r).stop != Some(OutOfRounds)
  {
  }

  lemma FirstRoundGoesOn<H>(s: State<H>, rounds: seq<Round<H>>)
    requires rounds != [] && Exec(s, rounds).outcome.OutOfRounds?
    ensures Step(s, rounds[0]).stop.None? && Exec(Step(s, rounds[0]).state, rounds[1..]).outcome.OutOfRounds?
    ensures Exec(s, rounds).state == Exec(Step(s, rounds[0]).state, rounds[1..]).state
    ensures Exec(s, rounds).log == Step(s, rounds[0]).log + Exec(Step(s, rounds[0]).state, rounds[1..]).log
  {
    StopIsNoEndOfScript(s, rounds[0]);
  }

  lemma RestAfterFirst<H>(s: State<H>, rounds: seq<Round<H>>)
    requires rounds != [] && Step(s, rounds[0]).stop.None?
    ensures var rest := Exec(Step(s, rounds[0]).state, rounds[1..]);
            Exec(s, rounds) == Execution(rest.outcome, Step(s, rounds[0]).log + rest.log, rest.state)
  {
  }

  /** The first round that stops decides the outcome, and adds the last events. */
  lemma {:induction false} RoundEndsRun<H>(s: State<H>, rounds: seq<Round<H>>, k: nat)
    requires k < |rounds| && Exec(s, rounds[..k]).outcome.OutOfRounds?
    requires Step(Exec(s, rounds[..k]).state, rounds[k]).stop.Some?
    ensures var before := Exec(s, rounds[..k]);
            var t := Step(before.state, rounds[k]);
            Exec(s, rounds).outcome == t.stop.value && Exec(s, rounds).log == before.log + t.log
    decreases k
  {
    if k == 0 {
      assert Exec(s, rounds[..0]) == Execution(OutOfRounds, [], s);
    } else {
      var before, rest, first := rounds[..k], rounds[1..], Step(s, rounds[0]);
      assert before[0] == rounds[0] && before[1..] == rest[..k - 1] && rest[k - 1] == rounds[k];
      FirstRoundGoesOn(s, before);
      RestAfterFirst(s, rounds);
      RoundEndsRun(first.state, rest, k - 1);
      var inner := Exec(first.state, rest[..k - 1]);
      assert first.log + (inner.log + Step(inner.state, rounds[k]).log) ==
             (first.log + inner.log) + Step(inner.state, rounds[k]).log;
    }
  }

  /** What a round's listen failed with, or lost its connection to. */
  function Failure(listen: Listen): Error
    requires listen.Connected? ==> !listen.wait.StillUp?
  {
    match listen
    case Rejected(err) => err
    case Connected(Stopped(_, Some(cause))) => Context(cause)
    case Connected(Stopped(None, None)) => Plain("piko forwarder stopped unexpectedly")
    case Connected(Stopped(Some(err), None)) => err
    case Connected(Interrupted(cause)) => Context(cause)
  }

  /** The run reaches round k, listens there, and the listen or its connection fails. */
  ghost predicate FailsAt<H>(s: State<H>, rounds: seq<Round<H>>, k: nat) {
    && k < |rounds| && Exec(s, rounds[..k]).outcome.OutOfRounds?
    && CredentialsFromRegistration(CurrentData(Exec(s, rounds[..k]).state)).Ok?
    && (rounds[k].listen.Connected? ==> !rounds[k].listen.wait.StillUp?)
  }

  lemma StepReturns<H>(s: State<H>, r: Round<H>)
    requires CredentialsFromRegistration(CurrentData(s)).Ok?
    requires r.listen.Connected? ==> !r.listen.wait.StillUp?
    requires r.ctxErr.Some? || !AuthenticationFailure(Failure(r.listen)) || (s.phase.Rotated? && r.listen.Rejected?)
    ensures Step(s, r).stop == Some(Returned(
              if r.ctxErr.Some? then Context(r.ctxErr.value)
              else if !AuthenticationFailure(Failure(r.listen)) then Wrapped("connect to Piko", Failure(r.listen))
              else Wrapped("connect to Piko with refreshed JWT", Failure(r.listen))))
    ensures RefreshStarted !in Step(s, r).log
  {
  }

  /**
   Which error a run returns when it gives up a connection: the context's own error, if the
   context is seen ended; else the failure, if it is no rejection, or if the rejected JWT was
   fresh from a refresh. No refresh is tried in any of these cases.
   */
  lemma WhatRunReturns<H>(s: State<H>, rounds: seq<Round<H>>, k: nat)
    requires FailsAt(s, rounds, k)
    ensures var before, r, outcome := Exec(s, rounds[..k]), rounds[k], Exec(s, rounds).outcome;
            var failure := Failure(r.listen);
            && (r.ctxErr.Some? ==> outcome == Returned(Context(r.ctxErr.value)))
            && (r.ctxErr.None? && !AuthenticationFailure(failure) ==>
                  outcome == Returned(Wrapped("connect to Piko", failure)))
            && (r.ctxErr.None? && AuthenticationFailure(failure) && before.state.phase.Rotated?
                && r.listen.Rejected? ==>
                  outcome == Returned(Wrapped("connect to Piko with refreshed JWT", failure)))
            && (r.ctxErr.Some? || !AuthenticationFailure(failure) ==>
                  Exec(s, rounds).log == before.log + Step(before.state, r).log
                  && RefreshStarted !in Step(before.state, r).log)
  {
    var before, r := Exec(s, rounds[..k]), rounds[k];
    var failure := Failure(r.listen);
    if r.ctxErr.Some? || !AuthenticationFailure(failure) || (before.state.phase.Rotated? && r.listen.Rejected?) {
      StepReturns(before.state, r);
      RoundEndsRun(s, rounds, k);
    }
  }

  /**
   Which error a recovery returns: that of the attempt that ended the refresh, under its
   prefix; marked as such after a re-registration; or that of the re-registration.
   */
  lemma WhatRecoveryReturns<H>(s: State<H>, sent: string, r: Round<H>, e: Error)
    requires CurrentData(s).Some? && !s.phase.Rotated?
    requires RetryProgress(r.refresh) == Finished(Err(e))
    ensures var stop := Recover(s, sent, r).stop;
            && (AsHttpStatus(e) != Some(401) ==> stop == Some(Returned(Wrapped("refresh Piko JWT", e))))
            && (AsHttpStatus(e) == Some(401) && s.phase.ReRegistered? ==>
                  stop == Some(Returned(Wrapped("refresh Piko JWT after route re-registration",
                                                Wrapped("refresh Piko JWT", e)))))
            && (AsHttpStatus(e) == Some(401) && s.phase.Fresh? ==>
                  match RetryProgress(r.register)
                  case Finished(Err(failure)) => stop == Some(Returned(Wrapped("register route", failure)))
                  case Finished(Ok(handle)) => stop.None? && Recover(s, sent, r).state.current == handle
                  case Retrying => stop == Some(Waiting))
  {
    assert AsHttpStatus(Wrapped("refresh Piko JWT", e)) == AsHttpStatus(e);
  }
}
