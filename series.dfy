/**
 * The documented semantics of `async-series`: run the steps in order, start a step only
 * after its predecessor called `done()` without an error, stop at the first error, and
 * call the final callback once, with that error or with none.
 */
module Series {
  import opened Wrappers

  /** What a step passes to `done`: nothing, or an error. */
  datatype Done<+E> = Succeeded | Failed(error: E)

  /** The state of a series: still waiting for a step, or ended with the error the final
      callback receives. */
  datatype Status<+E> = Running | Ended(error: Option<E>)

  predicate AllSucceeded<E>(results: seq<Done<E>>)
  {
    forall i :: 0 <= i < |results| ==> results[i].Succeeded?
  }

  /** The status of a series of `count` steps whose steps, in order, have reported
      `results` so far. */
  function Outcome<E>(results: seq<Done<E>>, count: nat): (s: Status<E>)
    requires |results| <= count
    ensures s.Running? ==> |results| < count
    ensures s == Ended(None) ==> |results| == count
    ensures s.Ended? && s.error.Some? ==> exists k :: 0 <= k < |results| && results[k] == Failed(s.error.value)
    decreases |results|
  {
    if results == [] then
      (if count == 0 then Ended(None) else Running)
    else if results[0].Failed? then
      Ended(Some(results[0].error))
    else
      Outcome(results[1..], count - 1)
  }

  /** The series is still running exactly when every step so far succeeded and some
      step has not reported yet. */
  lemma {:induction false} RunningIff<E>(results: seq<Done<E>>, count: nat)
    requires |results| <= count
    ensures Outcome(results, count) == Running <==> |results| < count && AllSucceeded(results)
    decreases |results|
  {
    if results != [] && results[0].Succeeded? {
      RunningIff(results[1..], count - 1);
      assert forall i :: 1 <= i < |results| ==> results[i] == results[1..][i - 1];
    }
  }

  /** The final callback gets no error exactly when every step ran and succeeded. */
  lemma {:induction false} CompletesIff<E>(results: seq<Done<E>>, count: nat)
    requires |results| <= count
    ensures Outcome(results, count) == Ended(None) <==> |results| == count && AllSucceeded(results)
    decreases |results|
  {
    if results != [] && results[0].Succeeded? {
      CompletesIff(results[1..], count - 1);
      assert forall i :: 1 <= i < |results| ==> results[i] == results[1..][i - 1];
    }
  }

  /** The final callback gets error `e` exactly when some step failed with `e` and every
      step before it succeeded. */
  lemma {:induction false} EndsWithFirstError<E>(results: seq<Done<E>>, count: nat, e: E)
    requires |results| <= count
    ensures Outcome(results, count) == Ended(Some(e)) <==>
      exists k :: 0 <= k < |results| && results[k] == Failed(e) && AllSucceeded(results[..k])
    decreases |results|
  {
    if results != [] {
      if results[0].Failed? {
        assert AllSucceeded(results[..0]);
        if results[0] != Failed(e) {
          forall k | 0 <= k < |results| && results[k] == Failed(e)
            ensures !AllSucceeded(results[..k])
          {
            assert results[..k][0] == results[0];
          }
        }
      } else {
        var tail := results[1..];
        EndsWithFirstError(tail, count - 1, e);
        if Outcome(tail, count - 1) == Ended(Some(e)) {
          var k :| 0 <= k < |tail| && tail[k] == Failed(e) && AllSucceeded(tail[..k]);
          assert results[k + 1] == Failed(e);
          var prefix := results[..k + 1];
          forall i | 0 <= i < k + 1 ensures prefix[i].Succeeded? {
            if i > 0 { assert prefix[i] == tail[..k][i - 1]; }
          }
        } else {
          forall k | 0 <= k < |results| && results[k] == Failed(e)
            ensures !AllSucceeded(results[..k])
          {
            assert k > 0;
            assert tail[k - 1] == Failed(e);
            assert !AllSucceeded(tail[..k - 1]);
            var i :| 0 <= i < k - 1 && !tail[..k - 1][i].Succeeded?;
            assert results[..k][i + 1] == tail[..k - 1][i];
          }
        }
      }
    }
  }

  /** One more step reporting `r` after a run of successes (what the engine relies on). */
  lemma {:induction false} OutcomeAfterStep<E>(results: seq<Done<E>>, r: Done<E>, count: nat)
    requires |results| < count && AllSucceeded(results)
    ensures Outcome(results + [r], count) ==
      if r.Failed? then Ended(Some(r.error))
      else if |results| + 1 == count then Ended(None)
      else Running
    decreases |results|
  {
    if results != [] {
      assert (results + [r])[1..] == results[1..] + [r];
      OutcomeAfterStep(results[1..], r, count - 1);
    }
  }
}
