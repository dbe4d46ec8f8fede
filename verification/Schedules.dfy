/**
 Interleavings. A step system says what each action does to a state, if it is enabled; a
 schedule is any sequence of actions, each enabled when its turn comes.
 */
module Schedules {
  import opened Values

  /** The state after a schedule, if every action of it was enabled. */
  function Execute<S, A>(step: (S, A) -> Option<S>, s: S, schedule: seq<A>): Option<S> {
    if schedule == [] then Some(s)
    else
      match Execute(step, s, schedule[..|schedule| - 1])
      case Some(t) => step(t, schedule[|schedule| - 1])
      case None => None
  }

  ghost predicate Keeps<S(!new), A(!new)>(step: (S, A) -> Option<S>, inv: S -> bool) {
    forall t, a | inv(t) && step(t, a).Some? :: inv(step(t, a).value)
  }

  /** What every step keeps holds after every schedule. */
  lemma {:induction false} InvariantHolds<S(!new), A(!new)>(step: (S, A) -> Option<S>, inv: S -> bool,
                                                          s: S, schedule: seq<A>)
    requires Keeps(step, inv) && inv(s) && Execute(step, s, schedule).Some?
    ensures inv(Execute(step, s, schedule).value)
  {
    if schedule != [] {
      InvariantHolds(step, inv, s, schedule[..|schedule| - 1]);
    }
  }

  ghost predicate UsesUp<S(!new), A(!new)>(step: (S, A) -> Option<S>, inv: S -> bool, rank: S -> nat) {
    forall t, a | inv(t) && step(t, a).Some? :: rank(step(t, a).value) < rank(t)
  }

  /** If every step lowers a rank, no schedule has more steps than the rank it starts from. */
  lemma {:induction false} RankBoundsLength<S(!new), A(!new)>(step: (S, A) -> Option<S>, inv: S -> bool, rank: S -> nat,
                                                            s: S, schedule: seq<A>)
    requires Keeps(step, inv) && UsesUp(step, inv, rank) && inv(s) && Execute(step, s, schedule).Some?
    ensures |schedule| + rank(Execute(step, s, schedule).value) <= rank(s)
  {
    if schedule != [] {
      var before := schedule[..|schedule| - 1];
      InvariantHolds(step, inv, s, before);
      RankBoundsLength(step, inv, rank, s, before);
    }
  }

  lemma Appended<S, A>(step: (S, A) -> Option<S>, s: S, schedule: seq<A>, t: S, a: A)
    requires Execute(step, s, schedule) == Some(t)
    ensures Execute(step, s, schedule + [a]) == step(t, a)
  {
    assert (schedule + [a])[..|schedule|] == schedule;
  }

  /** A schedule that can be continued, when only the state it leads to matters. */
  lemma Extend<S, A>(step: (S, A) -> Option<S>, s: S, schedule: seq<A>, t: S, a: A) returns (longer: seq<A>, u: S)
    requires Execute(step, s, schedule) == Some(t) && step(t, a).Some?
    ensures Execute(step, s, longer) == Some(u) && u == step(t, a).value
  {
    longer, u := schedule + [a], step(t, a).value;
    Appended(step, s, schedule, t, a);
  }
}
