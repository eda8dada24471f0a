/**
 The retry loop: an action is tried until it succeeds, fails with an error that
 is not retryable, its context ends or the retryer is stopped.

 The world is a trace of what the loop meets: each time it waits, the retry
 timer fires and the action answers, or the context ends, or the retryer shuts
 down.  A context always has a deadline, so it has ended when the trace has.
 How long the timer runs does not matter here.
 */
module Retry {

  /** How the answer of an action counts. */
  datatype Outcome = Done | Again | GiveUp

  datatype Event<R> = TimerFired(response: R) | ContextDone | Shutdown

  datatype Result<R> = Succeeded(response: R) | Failed(response: R) | ContextEnded | Stopped

  /** The loop goes on after this event. */
  predicate Continues<R>(e: Event<R>, outcome: R -> Outcome) {
    e.TimerFired? && outcome(e.response) == Again
  }

  /** How many events pass before the one that ends the loop. */
  function Tries<R>(trace: seq<Event<R>>, outcome: R -> Outcome): (n: nat)
    ensures n <= |trace|
  {
    if trace == [] || !Continues(trace[0], outcome) then 0 else 1 + Tries(trace[1..], outcome)
  }

  function ResultOf<R>(trace: seq<Event<R>>, outcome: R -> Outcome): Result<R> {
    var n := Tries(trace, outcome);
    if n == |trace| then ContextEnded
    else
      match trace[n]
      case TimerFired(r) => if outcome(r) == Done then Succeeded(r) else Failed(r)
      case ContextDone => ContextEnded
      case Shutdown => Stopped
  }

  /** Every event before the last one was a retryable failure; the last one was not. */
  lemma {:induction false} TriesMeaning<R>(trace: seq<Event<R>>, outcome: R -> Outcome)
    ensures var n := Tries(trace, outcome);
            && (forall i :: 0 <= i < n ==> Continues(trace[i], outcome))
            && (n < |trace| ==> !Continues(trace[n], outcome))
  {
    if trace != [] && Continues(trace[0], outcome) {
      TriesMeaning(trace[1..], outcome);
    }
  }

  /** The loop itself; `asked` lists the answers of all calls of the action, in order. */
  method Run<R>(trace: seq<Event<R>>, outcome: R -> Outcome) returns (result: Result<R>, asked: seq<R>)
    ensures result == ResultOf(trace, outcome)
    ensures var n := Tries(trace, outcome);
            && |asked| == (if result.Succeeded? || result.Failed? then n + 1 else n)
            && (forall i :: 0 <= i < |asked| ==> trace[i] == TimerFired(asked[i]))
  {
    asked := [];
    var i := 0;
    while i < |trace|
      invariant 0 <= i <= |trace| && |asked| == i
      invariant forall j :: 0 <= j < i ==> trace[j] == TimerFired(asked[j])
      invariant Tries(trace, outcome) == i + Tries(trace[i..], outcome)
    {
      match trace[i]
      case ContextDone => return ContextEnded, asked;
      case Shutdown => return Stopped, asked;
      case TimerFired(r) =>
        asked := asked + [r];
        match outcome(r) {
          case Done => return Succeeded(r), asked;
          case GiveUp => return Failed(r), asked;
          case Again =>
        }
        assert trace[i..][1..] == trace[i + 1..];
        i := i + 1;
    }
    result := ContextEnded;
  }

  /** Event n is the first after which the loop does not go on, and it is e. */
  ghost predicate EndsAt<R>(trace: seq<Event<R>>, outcome: R -> Outcome, n: nat, e: Event<R>) {
    && n < |trace| && trace[n] == e && !Continues(e, outcome)
    && (forall i :: 0 <= i < n ==> Continues(trace[i], outcome))
  }

  ghost predicate EndsWith<R>(trace: seq<Event<R>>, outcome: R -> Outcome, e: Event<R>) {
    exists n: nat :: EndsAt(trace, outcome, n, e)
  }

  lemma EndMeaning<R>(trace: seq<Event<R>>, outcome: R -> Outcome, e: Event<R>)
    ensures var n := Tries(trace, outcome);
            EndsWith(trace, outcome, e) <==> n < |trace| && trace[n] == e
  {
    TriesMeaning(trace, outcome);
    var n := Tries(trace, outcome);
    if m: nat :| EndsAt(trace, outcome, m, e) {
      assert m == n;
    }
    if n < |trace| && trace[n] == e {
      assert EndsAt(trace, outcome, n, e);
    }
  }

  /**
   The result is the success r exactly when the last call of the action succeeded
   with r; all calls before it asked to be retried.
   */
  lemma SuccessMeaning<R>(trace: seq<Event<R>>, outcome: R -> Outcome, r: R)
    ensures ResultOf(trace, outcome) == Succeeded(r) <==>
            outcome(r) == Done && EndsWith(trace, outcome, TimerFired(r))
  {
    EndMeaning(trace, outcome, TimerFired(r));
    TriesMeaning(trace, outcome);
  }

  /**
   The result is the failure r exactly when the last call of the action
   failed with r, and all before asked to be retried.
   */
  lemma FailureMeaning<R>(trace: seq<Event<R>>, outcome: R -> Outcome, r: R)
    ensures ResultOf(trace, outcome) == Failed(r) <==>
            outcome(r) == GiveUp && EndsWith(trace, outcome, TimerFired(r))
  {
    EndMeaning(trace, outcome, TimerFired(r));
    TriesMeaning(trace, outcome);
  }

  /** The retryer has stopped exactly when it shut down after calls that all asked to be retried. */
  lemma StoppedMeaning<R>(trace: seq<Event<R>>, outcome: R -> Outcome)
    ensures ResultOf(trace, outcome) == Stopped <==> EndsWith(trace, outcome, Shutdown)
  {
    EndMeaning(trace, outcome, Shutdown);
    TriesMeaning(trace, outcome);
  }

  /** The context has ended exactly when it did so after such calls, or there is nothing after them. */
  lemma ContextEndedMeaning<R>(trace: seq<Event<R>>, outcome: R -> Outcome)
    ensures ResultOf(trace, outcome) == ContextEnded <==>
            EndsWith(trace, outcome, ContextDone) || forall i :: 0 <= i < |trace| ==> Continues(trace[i], outcome)
  {
    EndMeaning(trace, outcome, ContextDone);
    TriesMeaning(trace, outcome);
  }
}
