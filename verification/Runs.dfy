/** Options, and runs of a system given by a partial next-state function.

    A system is a function `next`: `next(s, a)` is the state after the atomic action `a`, or None when
    `a` cannot happen in `s` (a thread that is blocked, or that does not exist).  A schedule is the list
    of actions of one interleaving; a statement about every schedule is a statement about every run. */
module Runs {

  datatype Option<+T> = None | Some(value: T)

  /** The state after the schedule, or None when some action of it cannot happen. */
  ghost function Exec<S(!new), A(!new)>(next: (S, A) -> Option<S>, s: S, sched: seq<A>): (r: Option<S>)
    decreases |sched|
  {
    if sched == [] then Some(s)
    else match next(s, sched[0])
      case None => None
      case Some(t) => Exec(next, t, sched[1..])
  }

  ghost predicate Reaches<S(!new), A(!new)>(next: (S, A) -> Option<S>, s: S, t: S) {
    exists sched: seq<A> :: Exec(next, s, sched) == Some(t)
  }

  /** No action is possible. */
  ghost predicate Blocked<S(!new), A(!new)>(next: (S, A) -> Option<S>, s: S) {
    forall a: A :: next(s, a) == None
  }

  lemma {:induction false} ExecConcat<S(!new), A(!new)>(next: (S, A) -> Option<S>, s: S, x: seq<A>, y: seq<A>)
    requires Exec(next, s, x).Some?
    ensures Exec(next, s, x + y) == Exec(next, Exec(next, s, x).value, y)
    decreases |x|
  {
    if x == [] {
      assert x + y == y;
    } else {
      assert (x + y)[0] == x[0] && (x + y)[1..] == x[1..] + y;
      ExecConcat(next, next(s, x[0]).value, x[1..], y);
    }
  }

  lemma ReachesSelf<S(!new), A(!new)>(next: (S, A) -> Option<S>, s: S)
    ensures Reaches(next, s, s)
  {
    assert Exec(next, s, []) == Some(s);
  }

  lemma ReachesStep<S(!new), A(!new)>(next: (S, A) -> Option<S>, s: S, a: A, t: S)
    requires next(s, a) == Some(t)
    ensures Reaches(next, s, t)
  {
    assert [a][1..] == [];
    assert Exec(next, t, []) == Some(t);
    assert Exec(next, s, [a]) == Some(t);
  }

  lemma ReachesTrans<S(!new), A(!new)>(next: (S, A) -> Option<S>, s: S, t: S, u: S)
    requires Reaches(next, s, t) && Reaches(next, t, u)
    ensures Reaches(next, s, u)
  {
    var x: seq<A> :| Exec(next, s, x) == Some(t);
    var y: seq<A> :| Exec(next, t, y) == Some(u);
    ExecConcat(next, s, x, y);
    assert Exec(next, s, x + y) == Some(u);
  }

  /** One more action at the end of a run. */
  lemma ReachesThen<S(!new), A(!new)>(next: (S, A) -> Option<S>, s: S, t: S, a: A, u: S)
    requires Reaches(next, s, t) && next(t, a) == Some(u)
    ensures Reaches(next, s, u)
  {
    ReachesStep(next, t, a, u);
    ReachesTrans(next, s, t, u);
  }

  /** What every action keeps holds at the end of every schedule. */
  lemma {:induction false} InvariantHolds<S(!new), A(!new)>(
    next: (S, A) -> Option<S>, inv: S -> bool, s: S, sched: seq<A>)
    requires inv(s)
    requires forall t: S, a: A :: inv(t) && next(t, a).Some? ==> inv(next(t, a).value)
    requires Exec(next, s, sched).Some?
    ensures inv(Exec(next, s, sched).value)
    decreases |sched|
  {
    if sched != [] {
      InvariantHolds(next, inv, next(s, sched[0]).value, sched[1..]);
    }
  }

  /** What an observer writes down over a schedule: `note` gives the new record from the old one, the state
      and the action taken in it. */
  ghost function Recorded<S(!new), A(!new), V>(
    next: (S, A) -> Option<S>, note: (V, S, A) -> V, v: V, s: S, sched: seq<A>): V
    decreases |sched|
  {
    if sched == [] then v
    else match next(s, sched[0])
      case None => v
      case Some(t) => Recorded(next, note, note(v, s, sched[0]), t, sched[1..])
  }

  /** A part of the state that every action changes as the observer would is the observer's record. */
  lemma {:induction false} IsRecord<S(!new), A(!new), V(!new)>(
    next: (S, A) -> Option<S>, inv: S -> bool, part: S -> V, note: (V, S, A) -> V, s: S, sched: seq<A>)
    requires inv(s)
    requires forall t: S, a: A :: inv(t) && next(t, a).Some? ==>
                inv(next(t, a).value) && part(next(t, a).value) == note(part(t), t, a)
    requires Exec(next, s, sched).Some?
    ensures part(Exec(next, s, sched).value) == Recorded(next, note, part(s), s, sched)
    decreases |sched|
  {
    if sched != [] {
      IsRecord(next, inv, part, note, next(s, sched[0]).value, sched[1..]);
    }
  }

  /** A measure that every action decreases bounds the length of every schedule. */
  lemma {:induction false} ScheduleIsBounded<S(!new), A(!new)>(
    next: (S, A) -> Option<S>, inv: S -> bool, measure: S -> nat, s: S, sched: seq<A>)
    requires inv(s)
    requires forall t: S, a: A :: inv(t) && next(t, a).Some? ==>
                inv(next(t, a).value) && measure(next(t, a).value) < measure(t)
    requires Exec(next, s, sched).Some?
    ensures |sched| + measure(Exec(next, s, sched).value) <= measure(s)
    decreases |sched|
  {
    if sched != [] {
      ScheduleIsBounded(next, inv, measure, next(s, sched[0]).value, sched[1..]);
    }
  }

  /** With such a measure every run can be continued to one where nothing is possible any more. */
  lemma {:induction false} RunsToTheEnd<S(!new), A(!new)>(
    next: (S, A) -> Option<S>, inv: S -> bool, measure: S -> nat, s: S) returns (t: S)
    requires inv(s)
    requires forall t: S, a: A :: inv(t) && next(t, a).Some? ==>
                inv(next(t, a).value) && measure(next(t, a).value) < measure(t)
    ensures Reaches(next, s, t) && inv(t) && Blocked(next, t)
    decreases measure(s)
  {
    if a: A :| next(s, a).Some? {
      var u := next(s, a).value;
      t := RunsToTheEnd(next, inv, measure, u);
      ReachesStep(next, s, a, u);
      ReachesTrans(next, s, u, t);
    } else {
      t := s;
      ReachesSelf(next, s);
    }
  }
}
