/**
 * The update handlers as a table of stages. An update first reads the resource, then goes
 * through its stages in order; a stage issues its call when its condition holds of the
 * record in hand (the reply to the most recent call), and the reply replaces that record.
 * The first reply that is not a 200 ends the run with the failure message. This module is
 * a reference interpreter of such a table; each handler's hand-written update is proved to
 * issue exactly the calls of the interpreter and to end as it does.
 */
module Reconcile {
  import opened Wrappers
  import opened Upstash

  /** A conditional remote call: issued when `needed` holds of the latest record. */
  datatype Stage<C, -R> = Stage(call: C, needed: R -> bool)

  /** The calls issued, in order, and the latest record or the error that ended the run. */
  datatype Run<C, R> = Run(calls: seq<C>, outcome: Result<R>)

  /** Runs the stages from the record `latest`. */
  function Steps<C, R>(stages: seq<Stage<C, R>>, latest: R, remote: C -> Response<R>): (run: Run<C, R>)
    decreases |stages|
    ensures |run.calls| <= |stages|
  {
    if stages == [] then Run([], Ok(latest))
    else if !stages[0].needed(latest) then Steps(stages[1..], latest, remote)
    else match HandleResponse(remote(stages[0].call))
      case Err(e) => Run([stages[0].call], Err(e))
      case Ok(next) =>
        var rest := Steps(stages[1..], next, remote);
        Run([stages[0].call] + rest.calls, rest.outcome)
  }

  /** A whole update: the read `get`, then the stages from its reply. */
  function Update<C, R>(get: C, stages: seq<Stage<C, R>>, remote: C -> Response<R>): (run: Run<C, R>)
    ensures 1 <= |run.calls| <= |stages| + 1 && run.calls[0] == get
  {
    match HandleResponse(remote(get))
    case Err(e) => Run([get], Err(e))
    case Ok(first) =>
      var rest := Steps(stages, first, remote);
      Run([get] + rest.calls, rest.outcome)
  }

  /** The record in hand when stage `k` comes up, or None when an earlier call has failed. */
  function Before<C, R>(stages: seq<Stage<C, R>>, latest: R, remote: C -> Response<R>, k: nat): Option<R>
    requires k <= |stages|
    decreases k
  {
    if k == 0 then Some(latest)
    else if !stages[0].needed(latest) then Before(stages[1..], latest, remote, k - 1)
    else match HandleResponse(remote(stages[0].call))
      case Err(_) => None
      case Ok(next) => Before(stages[1..], next, remote, k - 1)
  }

  /** The calls of the table, in table order. */
  function CallsOf<C, R>(stages: seq<Stage<C, R>>): seq<C> {
    seq(|stages|, i requires 0 <= i < |stages| => stages[i].call)
  }

  /** `xs` is `ys` with some elements left out. */
  predicate Subsequence<T(==)>(xs: seq<T>, ys: seq<T>)
    decreases |ys|
  {
    if xs == [] then true
    else if ys == [] then false
    else (xs[0] == ys[0] && Subsequence(xs[1..], ys[1..])) || Subsequence(xs, ys[1..])
  }

  /** The ranks strictly increase along `xs`: no element repeats and the order follows the rank. */
  predicate IncreasingRank<T>(xs: seq<T>, rank: T -> nat) {
    forall i, j :: 0 <= i < j < |xs| ==> rank(xs[i]) < rank(xs[j])
  }

  lemma {:induction false} SubsequenceMembers<T>(xs: seq<T>, ys: seq<T>)
    requires Subsequence(xs, ys)
    decreases |ys|
    ensures forall x :: x in xs ==> x in ys
  {
    if xs != [] {
      if xs[0] == ys[0] && Subsequence(xs[1..], ys[1..]) {
        SubsequenceMembers(xs[1..], ys[1..]);
        assert forall x :: x in xs ==> x == xs[0] || x in xs[1..];
      } else {
        SubsequenceMembers(xs, ys[1..]);
      }
    }
  }

  /** Leaving elements out keeps the order. */
  lemma {:induction false} SubsequenceIncreasing<T>(xs: seq<T>, ys: seq<T>, rank: T -> nat)
    requires Subsequence(xs, ys) && IncreasingRank(ys, rank)
    decreases |ys|
    ensures IncreasingRank(xs, rank)
  {
    if xs != [] {
      if xs[0] == ys[0] && Subsequence(xs[1..], ys[1..]) {
        SubsequenceIncreasing(xs[1..], ys[1..], rank);
        SubsequenceMembers(xs[1..], ys[1..]);
        forall i, j | 0 <= i < j < |xs|
          ensures rank(xs[i]) < rank(xs[j])
        {
          assert xs[j] == xs[1..][j - 1];
          if i == 0 {
            assert xs[j] in ys[1..];
            var t :| 0 <= t < |ys[1..]| && ys[1..][t] == xs[j];
            assert ys[t + 1] == xs[j];
          } else {
            assert xs[i] == xs[1..][i - 1];
          }
        }
      } else {
        SubsequenceIncreasing(xs, ys[1..], rank);
      }
    }
  }

  /** A run issues only calls of the table, in table order. */
  lemma {:induction false} StepsSubsequence<C, R>(stages: seq<Stage<C, R>>, latest: R, remote: C -> Response<R>)
    decreases |stages|
    ensures Subsequence(Steps(stages, latest, remote).calls, CallsOf(stages))
  {
    if stages != [] {
      var ys := CallsOf(stages);
      assert ys[1..] == CallsOf(stages[1..]);
      if !stages[0].needed(latest) {
        StepsSubsequence(stages[1..], latest, remote);
      } else {
        var r := HandleResponse(remote(stages[0].call));
        if r.Ok? {
          StepsSubsequence(stages[1..], r.value, remote);
          var calls := Steps(stages, latest, remote).calls;
          assert calls[1..] == Steps(stages[1..], r.value, remote).calls;
        }
      }
    }
  }

  /**
   * Stage `k` issues its call exactly when no earlier call failed and its condition holds
   * of the record left by the stages before it.
   */
  lemma {:induction false} StepIssued<C, R>(stages: seq<Stage<C, R>>, latest: R, remote: C -> Response<R>, k: nat, rank: C -> nat)
    requires k < |stages|
    requires IncreasingRank(CallsOf(stages), rank)
    decreases k
    ensures stages[k].call in Steps(stages, latest, remote).calls
        <==> Before(stages, latest, remote, k).Some? && stages[k].needed(Before(stages, latest, remote, k).value)
  {
    var calls := CallsOf(stages);
    assert calls[1..] == CallsOf(stages[1..]);
    assert IncreasingRank(CallsOf(stages[1..]), rank);
    var run := Steps(stages, latest, remote);
    if k == 0 {
      if !stages[0].needed(latest) {
        StepsSubsequence(stages[1..], latest, remote);
        SubsequenceMembers(run.calls, CallsOf(stages[1..]));
        assert forall t :: 0 <= t < |calls[1..]| ==> rank(calls[0]) < rank(calls[1..][t]);
        assert stages[0].call !in calls[1..];
      }
    } else {
      assert stages[k] == stages[1..][k - 1];
      assert rank(calls[0]) < rank(calls[k]);
      if !stages[0].needed(latest) {
        StepIssued(stages[1..], latest, remote, k - 1, rank);
      } else {
        var r := HandleResponse(remote(stages[0].call));
        if r.Ok? {
          StepIssued(stages[1..], r.value, remote, k - 1, rank);
          assert run.calls == [stages[0].call] + Steps(stages[1..], r.value, remote).calls;
        }
      }
    }
  }

  /**
   * Every call before the last was answered with a 200. A run that ends well returns the
   * reply to its last call (the starting record when it issued none); one that fails
   * reports the status and body of its last call, which was not a 200.
   */
  lemma {:induction false} StepsOutcome<C, R>(stages: seq<Stage<C, R>>, latest: R, remote: C -> Response<R>)
    decreases |stages|
    ensures var run := Steps(stages, latest, remote);
      && (forall i :: 0 <= i < |run.calls| - 1 ==> remote(run.calls[i]).status == 200)
      && (run.outcome.Ok? ==>
            && (forall i :: 0 <= i < |run.calls| ==> remote(run.calls[i]).status == 200)
            && run.outcome.value == (if run.calls == [] then latest else remote(run.calls[|run.calls| - 1]).json))
      && (run.outcome.Err? ==>
            && run.calls != []
            && remote(run.calls[|run.calls| - 1]).status != 200
            && run.outcome.error == FailureMessage(remote(run.calls[|run.calls| - 1]).status, remote(run.calls[|run.calls| - 1]).text))
  {
    if stages != [] {
      if !stages[0].needed(latest) {
        StepsOutcome(stages[1..], latest, remote);
      } else {
        var r := HandleResponse(remote(stages[0].call));
        if r.Ok? {
          StepsOutcome(stages[1..], r.value, remote);
          var rest := Steps(stages[1..], r.value, remote);
          var run := Steps(stages, latest, remote);
          assert run.calls == [stages[0].call] + rest.calls;
          assert forall i :: 1 <= i < |run.calls| ==> run.calls[i] == rest.calls[i - 1];
        }
      }
    }
  }

  /** The calls of an update: the read, then a part of the table in table order. */
  lemma UpdateOrdered<C, R>(get: C, stages: seq<Stage<C, R>>, remote: C -> Response<R>, rank: C -> nat)
    requires IncreasingRank([get] + CallsOf(stages), rank)
    ensures var run := Update(get, stages, remote);
      && run.calls[0] == get
      && IncreasingRank(run.calls, rank)
      && (forall c :: c in run.calls ==> c == get || c in CallsOf(stages))
  {
    var run := Update(get, stages, remote);
    var ys := [get] + CallsOf(stages);
    assert ys[1..] == CallsOf(stages);
    var r := HandleResponse(remote(get));
    if r.Ok? {
      StepsSubsequence(stages, r.value, remote);
      assert run.calls[1..] == Steps(stages, r.value, remote).calls;
      assert Subsequence(run.calls, ys);
      SubsequenceIncreasing(run.calls, ys, rank);
      SubsequenceMembers(run.calls, ys);
    } else {
      assert run.calls == [get];
    }
  }

  /**
   * Stage `k` of an update issues its call exactly when the read succeeded, no earlier call
   * failed, and its condition holds of the record left by the read and the stages before it.
   */
  lemma UpdateIssued<C, R>(get: C, stages: seq<Stage<C, R>>, remote: C -> Response<R>, k: nat, rank: C -> nat)
    requires k < |stages|
    requires IncreasingRank([get] + CallsOf(stages), rank)
    ensures stages[k].call in Update(get, stages, remote).calls
        <==> && remote(get).status == 200
             && Before(stages, remote(get).json, remote, k).Some?
             && stages[k].needed(Before(stages, remote(get).json, remote, k).value)
  {
    var ys := [get] + CallsOf(stages);
    assert ys[1..] == CallsOf(stages);
    assert rank(ys[0]) < rank(ys[k + 1]);
    var r := HandleResponse(remote(get));
    if r.Ok? {
      StepIssued(stages, r.value, remote, k, rank);
    }
  }

  /**
   * Every call of an update before the last was answered with a 200. An update that ends
   * well yields the reply to its last call; one that fails reports the status and body of
   * its last call, which was not a 200.
   */
  lemma UpdateOutcome<C, R>(get: C, stages: seq<Stage<C, R>>, remote: C -> Response<R>)
    ensures var run := Update(get, stages, remote);
      var last := remote(run.calls[|run.calls| - 1]);
      && (forall i :: 0 <= i < |run.calls| - 1 ==> remote(run.calls[i]).status == 200)
      && (run.outcome.Ok? <==> last.status == 200)
      && (run.outcome.Ok? ==> run.outcome.value == last.json)
      && (run.outcome.Err? ==> run.outcome.error == FailureMessage(last.status, last.text))
  {
    var run := Update(get, stages, remote);
    var r := HandleResponse(remote(get));
    if r.Ok? {
      StepsOutcome(stages, r.value, remote);
      var rest := Steps(stages, r.value, remote);
      assert run.calls == [get] + rest.calls;
      assert forall i :: 1 <= i < |run.calls| ==> run.calls[i] == rest.calls[i - 1];
    }
  }
}
