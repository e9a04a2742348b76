/** Runs of a transition system: sequences of events, each enabled in the state reached by those before it. */
module Runs {
  import opened Options

  function After<S, E>(init: S, step: (S, E) -> Option<S>, run: seq<E>): Option<S> {
    if run == [] then Some(init)
    else
      var before := After(init, step, run[..|run| - 1]);
      if before.Some? then step(before.value, run[|run| - 1]) else None
  }

  // A property of the run so far and of the state it leads to holds of every run, if it holds at
  // the start and every step keeps it.
  lemma {:induction false} HistoryInvariant<S(!new), E(!new)>(
      init: S, step: (S, E) -> Option<S>, inv: (seq<E>, S) -> bool, run: seq<E>)
    requires inv([], init)
    requires forall r: seq<E>, s: S, e: E ::
               After(init, step, r) == Some(s) && inv(r, s) && step(s, e).Some? ==> inv(r + [e], step(s, e).value)
    ensures After(init, step, run).Some? ==> inv(run, After(init, step, run).value)
  {
    if run != [] && After(init, step, run).Some? {
      var front, last := run[..|run| - 1], run[|run| - 1];
      HistoryInvariant(init, step, inv, front);
      assert front + [last] == run;
    }
  }

  // A property of states holds of every run, if it holds at the start and every step keeps it.
  lemma {:induction false} Invariant<S(!new), E(!new)>(
      init: S, step: (S, E) -> Option<S>, inv: S -> bool, run: seq<E>)
    requires inv(init)
    requires forall s: S, e: E :: inv(s) && step(s, e).Some? ==> inv(step(s, e).value)
    ensures After(init, step, run).Some? ==> inv(After(init, step, run).value)
  {
    if run != [] && After(init, step, run).Some? {
      Invariant(init, step, inv, run[..|run| - 1]);
    }
  }

  // Running on is running from the state reached.
  lemma {:induction false} Continue<S, E>(init: S, step: (S, E) -> Option<S>, run: seq<E>, more: seq<E>)
    requires After(init, step, run).Some?
    ensures After(init, step, run + more) == After(After(init, step, run).value, step, more)
  {
    if more == [] {
      assert run + more == run;
    } else {
      Continue(init, step, run, more[..|more| - 1]);
      assert (run + more)[..|run + more| - 1] == run + more[..|more| - 1];
    }
  }

  // One more step.
  lemma Extend<S, E>(init: S, step: (S, E) -> Option<S>, run: seq<E>, s: S, e: E) returns (longer: seq<E>, t: S)
    requires After(init, step, run) == Some(s) && step(s, e).Some?
    ensures longer == run + [e] && step(s, e) == Some(t) && After(init, step, longer) == Some(t)
  {
    longer := run + [e];
    t := step(s, e).value;
    assert longer[..|longer| - 1] == run;
  }

  // One more step of a run that started anywhere, whose effect is known.
  lemma Advance<S, E>(start: S, step: (S, E) -> Option<S>, run: seq<E>, s: S, e: E, t: S) returns (longer: seq<E>)
    requires After(start, step, run) == Some(s) && step(s, e) == Some(t)
    ensures longer == run + [e] && After(start, step, longer) == Some(t)
  {
    var u;
    longer, u := Extend(start, step, run, s, e);
  }

  // One run after another.
  lemma Join<S, E>(start: S, step: (S, E) -> Option<S>, run: seq<E>, s: S, more: seq<E>, t: S) returns (longer: seq<E>)
    requires After(start, step, run) == Some(s) && After(s, step, more) == Some(t)
    ensures longer == run + more && After(start, step, longer) == Some(t)
  {
    Continue(start, step, run, more);
    longer := run + more;
  }

  // How many steps of a run change f.
  function Changes<S, E>(init: S, step: (S, E) -> Option<S>, run: seq<E>, f: S -> int): nat {
    if run == [] then 0
    else
      var before, after := After(init, step, run[..|run| - 1]), After(init, step, run);
      Changes(init, step, run[..|run| - 1], f) +
      (if before.Some? && after.Some? && f(before.value) != f(after.value) then 1 else 0)
  }

  lemma {:induction false} UnchangedIsSame<S, E>(init: S, step: (S, E) -> Option<S>, run: seq<E>, f: S -> int)
    requires After(init, step, run).Some? && Changes(init, step, run, f) == 0
    ensures f(After(init, step, run).value) == f(init)
  {
    if run != [] {
      UnchangedIsSame(init, step, run[..|run| - 1], f);
    }
  }

  // The effect of a schedule in which steps that are not possible when their turn comes are skipped.
  function Play<S, E>(init: S, step: (S, E) -> Option<S>, schedule: seq<E>): S {
    if schedule == [] then init
    else
      var before := Play(init, step, schedule[..|schedule| - 1]);
      var after := step(before, schedule[|schedule| - 1]);
      if after.Some? then after.value else before
  }
}
