/** Runs of a step system, and what is true of them whatever the system does. */
module Runs {
  import opened Prelude

  /** The state after a run, or None when some event of it was not enabled. */
  function RunOf<S, E>(next: (S, E) -> Option<S>, s: S, events: seq<E>): Option<S>
    decreases |events|
  {
    if events == [] then Some(s)
    else
      match next(s, events[0])
      case None => None
      case Some(s') => RunOf(next, s', events[1..])
  }

  lemma {:induction false} RunsCompose<S, E>(next: (S, E) -> Option<S>, s: S, first: seq<E>, second: seq<E>)
    requires RunOf(next, s, first).Some?
    ensures RunOf(next, s, first + second) == RunOf(next, RunOf(next, s, first).value, second)
    decreases |first|
  {
    if first == [] {
      assert first + second == second;
    } else {
      assert (first + second)[0] == first[0] && (first + second)[1..] == first[1..] + second;
      RunsCompose(next, next(s, first[0]).value, first[1..], second);
    }
  }

  lemma RunExtends<S, E>(next: (S, E) -> Option<S>, s: S, events: seq<E>, e: E)
    requires RunOf(next, s, events).Some?
    ensures RunOf(next, s, events + [e]) == next(RunOf(next, s, events).value, e)
  {
    var r := RunOf(next, s, events).value;
    assert [e][1..] == [] && forall r' :: next(r, e) == Some(r') ==> RunOf(next, r', []) == Some(r');
    RunsCompose(next, s, events, [e]);
  }

  /** Every prefix of a run is one, and a longer one begins with the same step. */
  lemma {:induction false} PrefixRuns<S, E>(next: (S, E) -> Option<S>, s: S, events: seq<E>, n: nat)
    requires RunOf(next, s, events).Some? && n <= |events|
    ensures RunOf(next, s, events[..n]).Some?
    ensures n > 0 ==>
              && next(s, events[0]).Some? && RunOf(next, next(s, events[0]).value, events[1..]).Some?
              && RunOf(next, s, events[..n]) == RunOf(next, next(s, events[0]).value, events[1..][..n - 1])
    decreases n
  {
    if n > 0 {
      assert events[..n][0] == events[0] && events[..n][1..] == events[1..][..n - 1];
      PrefixRuns(next, next(s, events[0]).value, events[1..], n - 1);
    }
  }
}
