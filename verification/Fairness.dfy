/** Fair schedules, and the argument that a run under one comes to its goal: as long as it is not there, some thread can
    bring it nearer, no step takes it further away, and that thread keeps its chance until it takes it. */
module Fairness {

  /** The schedule can be cut into m rounds in which every one of the threads has at least one turn. */
  ghost predicate Rounds<A(!new)>(schedule: seq<A>, threads: set<A>, m: nat)
    decreases m
  {
    m == 0 || exists n: nat :: n <= |schedule| && AllIn(threads, schedule[..n]) && Rounds(schedule[n..], threads, m - 1)
  }

  ghost predicate AllIn<A(!new)>(threads: set<A>, round: seq<A>) {
    forall t :: t in threads ==> t in round
  }

  /** The state after a schedule. */
  function Run<S, A>(step: (S, A) -> S, s: S, schedule: seq<A>): S
    decreases |schedule|
  {
    if schedule == [] then s else Run(step, step(s, schedule[0]), schedule[1..])
  }

  /** One step: nearer, or as near and with the same helpful thread, which has not had its turn. */
  ghost predicate Progresses<S, A(!new)>(step: (S, A) -> S, ok: S -> bool, done: S -> bool, rank: S -> nat, helpful: S -> A,
                                         s: S, a: A)
  {
    var t := step(s, a);
    && ok(t) && rank(t) <= rank(s)
    && (rank(t) == rank(s) ==> a != helpful(s) && (done(t) || helpful(t) == helpful(s)))
  }

  ghost predicate AlwaysProgresses<S(!new), A(!new)>(step: (S, A) -> S, ok: S -> bool, done: S -> bool, rank: S -> nat,
                                                     helpful: S -> A, threads: set<A>)
  {
    forall s: S :: ok(s) && !done(s) ==>
      helpful(s) in threads && forall a: A :: Progresses(step, ok, done, rank, helpful, s, a)
  }

  /** At some time within the schedule the goal is reached. */
  ghost predicate Comes<S, A>(step: (S, A) -> S, done: S -> bool, s: S, schedule: seq<A>) {
    exists n: nat :: n <= |schedule| && done(Run(step, s, schedule[..n]))
  }

  lemma ComesLater<S, A>(step: (S, A) -> S, done: S -> bool, s: S, schedule: seq<A>)
    requires schedule != [] && Comes(step, done, step(s, schedule[0]), schedule[1..])
    ensures Comes(step, done, s, schedule)
  {
    var n: nat :| n <= |schedule[1..]| && done(Run(step, step(s, schedule[0]), schedule[1..][..n]));
    assert schedule[..n + 1][1..] == schedule[1..][..n];
    assert Run(step, s, schedule[..n + 1]) == Run(step, step(s, schedule[0]), schedule[1..][..n]);
  }

  lemma ComesNow<S, A>(step: (S, A) -> S, done: S -> bool, s: S, schedule: seq<A>)
    requires done(s)
    ensures Comes(step, done, s, schedule)
  {
    assert Run(step, s, schedule[..0]) == s;
  }

  /** A stretch of schedule does not take the run further away; one in which the helpful thread has a turn brings it
      nearer. */
  lemma {:induction false} StretchHelps<S(!new), A(!new)>(
      step: (S, A) -> S, ok: S -> bool, done: S -> bool, rank: S -> nat, helpful: S -> A, threads: set<A>, s: S, schedule: seq<A>)
    requires AlwaysProgresses(step, ok, done, rank, helpful, threads) && ok(s) && !Comes(step, done, s, schedule)
    ensures var t := Run(step, s, schedule);
            ok(t) && !done(t) && rank(t) <= rank(s) && (helpful(s) in schedule ==> rank(t) < rank(s))
    decreases |schedule|
  {
    if done(s) {
      ComesNow(step, done, s, schedule);
    }
    if schedule != [] {
      var a, rest := schedule[0], schedule[1..];
      var t := step(s, a);
      assert Progresses(step, ok, done, rank, helpful, s, a);
      if Comes(step, done, t, rest) {
        ComesLater(step, done, s, schedule);
      }
      if done(t) {
        ComesNow(step, done, t, rest);
      }
      StretchHelps(step, ok, done, rank, helpful, threads, t, rest);
      assert schedule == [a] + rest;
    }
  }

  lemma NotYet<S, A>(step: (S, A) -> S, done: S -> bool, s: S, schedule: seq<A>)
    requires !Comes(step, done, s, schedule)
    ensures !done(s)
  {
    if done(s) {
      ComesNow(step, done, s, schedule);
    }
  }

  lemma ComesBefore<S, A>(step: (S, A) -> S, done: S -> bool, s: S, schedule: seq<A>, n: nat)
    requires n <= |schedule| && Comes(step, done, s, schedule[..n])
    ensures Comes(step, done, s, schedule)
  {
    var m: nat :| m <= n && done(Run(step, s, schedule[..n][..m]));
    assert schedule[..n][..m] == schedule[..m];
  }

  lemma {:induction false} RunOnward<S, A>(step: (S, A) -> S, s: S, one: seq<A>, two: seq<A>)
    ensures Run(step, s, one + two) == Run(step, Run(step, s, one), two)
    decreases |one|
  {
    if one == [] {
      assert one + two == two;
    } else {
      assert (one + two)[1..] == one[1..] + two;
      RunOnward(step, step(s, one[0]), one[1..], two);
    }
  }

  lemma ComesAfter<S, A>(step: (S, A) -> S, done: S -> bool, s: S, schedule: seq<A>, n: nat)
    requires n <= |schedule| && Comes(step, done, Run(step, s, schedule[..n]), schedule[n..])
    ensures Comes(step, done, s, schedule)
  {
    var m: nat :| m <= |schedule[n..]| && done(Run(step, Run(step, s, schedule[..n]), schedule[n..][..m]));
    RunOnward(step, s, schedule[..n], schedule[n..][..m]);
    assert schedule[..n] + schedule[n..][..m] == schedule[..n + m];
  }

  /** More rounds than the rank counts bring the run to its goal. */
  lemma {:induction false} FairRunComes<S(!new), A(!new)>(
      step: (S, A) -> S, ok: S -> bool, done: S -> bool, rank: S -> nat, helpful: S -> A, threads: set<A>, s: S, schedule: seq<A>,
      m: nat)
    requires AlwaysProgresses(step, ok, done, rank, helpful, threads) && ok(s)
    requires Rounds(schedule, threads, m) && m > rank(s)
    ensures Comes(step, done, s, schedule)
    decreases m
  {
    hide Progresses, Run, Comes;
    var n: nat :| n <= |schedule| && AllIn(threads, schedule[..n]) && Rounds(schedule[n..], threads, m - 1);
    if done(s) {
      ComesNow(step, done, s, schedule);
    } else if Comes(step, done, s, schedule[..n]) {
      ComesBefore(step, done, s, schedule, n);
    } else {
      StretchHelps(step, ok, done, rank, helpful, threads, s, schedule[..n]);
      assert helpful(s) in threads && helpful(s) in schedule[..n] by { NotYet(step, done, s, schedule[..n]); }
      hide AlwaysProgresses, Rounds;
      FairRunComes(step, ok, done, rank, helpful, threads, Run(step, s, schedule[..n]), schedule[n..], m - 1);
      ComesAfter(step, done, s, schedule, n);
    }
  }
}
