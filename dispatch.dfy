/**
 * How `async.map` gathers the per-key completions of `execute`.
 *
 * `process` is called for every key, in key order, without waiting for
 * earlier keys and without stopping after an error; a hook that calls back
 * synchronously completes before the next key starts, one that calls back
 * later completes in some other order. The order in which the completions
 * arrive is a schedule. Each value is stored at its own key's index, so the
 * order of the collected results does not depend on the schedule. The final
 * callback is guarded by `once`, so only the first error in arrival order
 * reaches it.
 */
module Dispatch {
  import opened JsValue

  /** The arguments one `process` invocation passes to its callback: `(err, results)`. */
  datatype Completion = Completion(err: Value, result: Value)

  /**
   * An arrival order of `n` completions: position p of the schedule names the
   * key index whose callback fires p-th, and every key's callback fires.
   */
  predicate IsSchedule(schedule: seq<nat>, n: nat) {
    && |schedule| == n
    && (forall p | 0 <= p < |schedule| :: schedule[p] < n)
    && (forall i | 0 <= i < n :: i in schedule)
  }

  /** Callbacks firing in key order, as they do for a hook that answers synchronously. */
  function KeyOrder(n: nat): (schedule: seq<nat>)
    ensures IsSchedule(schedule, n)
    ensures forall p | 0 <= p < n :: schedule[p] == p
  {
    var schedule := seq(n, p requires 0 <= p < n => p);
    assert forall i | 0 <= i < n :: i in schedule by {
      forall i | 0 <= i < n ensures i in schedule {
        assert schedule[i] == i;
      }
    }
    schedule
  }

  /**
   * The position in the schedule of the first completion that reports an
   * error, or the schedule's length when none does.
   */
  function FirstFailurePos(completions: seq<Completion>, schedule: seq<nat>): (m: nat)
    requires forall p | 0 <= p < |schedule| :: schedule[p] < |completions|
    ensures m <= |schedule|
    ensures forall p | 0 <= p < m :: !Truthy(completions[schedule[p]].err)
    ensures m < |schedule| ==> Truthy(completions[schedule[m]].err)
    decreases |schedule|
  {
    if schedule == [] then 0
    else if Truthy(completions[schedule[0]].err) then 0
    else
      var rest := FirstFailurePos(completions, schedule[1..]);
      assert forall p | 1 <= p < 1 + rest :: schedule[p] == schedule[1..][p - 1];
      1 + rest
  }

  /** The first error a callback reported, if any. */
  datatype FirstError = NoError | Reported(error: Value)

  /**
   * Receives the callbacks in schedule order: each stores its value at its
   * own key's index, and only the first error is passed on.
   */
  method Gather(pending: seq<Completion>, schedule: seq<nat>)
    returns (results: seq<Value>, failure: FirstError)
    requires IsSchedule(schedule, |pending|)
    ensures var m := FirstFailurePos(pending, schedule);
      failure == if m < |schedule| then Reported(pending[schedule[m]].err) else NoError
    ensures failure.NoError? ==> results == Results(pending)
  {
    var n := |pending|;
    var stored := new Value[n];
    failure := NoError;
    ghost var firstAt := n;
    var p := 0;
    while p < n
      invariant 0 <= p <= n
      invariant forall q | 0 <= q < p :: stored[schedule[q]] == pending[schedule[q]].result
      invariant failure.NoError? ==> forall q | 0 <= q < p :: !Truthy(pending[schedule[q]].err)
      invariant failure.Reported? ==>
        && firstAt < p
        && Truthy(pending[schedule[firstAt]].err)
        && failure.error == pending[schedule[firstAt]].err
        && forall q | 0 <= q < firstAt :: !Truthy(pending[schedule[q]].err)
    {
      var index := schedule[p];
      var completion := pending[index];
      stored[index] := completion.result;
      if Truthy(completion.err) && failure.NoError? {
        failure := Reported(completion.err);
        firstAt := p;
      }
      p := p + 1;
    }
    var m := FirstFailurePos(pending, schedule);
    if failure.Reported? {
      assert m == firstAt;
    } else {
      StoredByIndexIsKeyOrder(stored[..], pending, schedule);
    }
    results := stored[..];
  }

  /** The collected values, index by index. */
  function Results(completions: seq<Completion>): seq<Value>
  {
    seq(|completions|, i requires 0 <= i < |completions| => completions[i].result)
  }

  /**
   * Once every callback in the schedule has stored its value at its own
   * index, the stored values are the results in key order.
   */
  lemma StoredByIndexIsKeyOrder(stored: seq<Value>, completions: seq<Completion>, schedule: seq<nat>)
    requires IsSchedule(schedule, |completions|) && |stored| == |completions|
    requires forall q | 0 <= q < |schedule| :: stored[schedule[q]] == completions[schedule[q]].result
    ensures stored == Results(completions)
  {
    forall i | 0 <= i < |completions| ensures stored[i] == completions[i].result {
      assert i in schedule;
      var q :| 0 <= q < |schedule| && schedule[q] == i;
    }
  }

  /**
   * Whatever the arrival order, no error reaches the final callback exactly
   * when no completion at all carries an error.
   */
  lemma {:induction false} NoFailureIffAllSucceed(completions: seq<Completion>, schedule: seq<nat>)
    requires IsSchedule(schedule, |completions|)
    ensures FirstFailurePos(completions, schedule) == |schedule|
        <==> forall i | 0 <= i < |completions| :: !Truthy(completions[i].err)
  {
    var m := FirstFailurePos(completions, schedule);
    if m == |schedule| {
      forall i | 0 <= i < |completions| ensures !Truthy(completions[i].err) {
        assert i in schedule;
        var p :| 0 <= p < |schedule| && schedule[p] == i;
      }
    }
  }

  /**
   * Under the key-order schedule the error that reaches the final callback is
   * that of the first key whose callback reports one.
   */
  lemma KeyOrderFailsAtFirstErringKey(completions: seq<Completion>)
    ensures var m := FirstFailurePos(completions, KeyOrder(|completions|));
      && (forall i | 0 <= i < m :: !Truthy(completions[i].err))
      && (m < |completions| ==> Truthy(completions[m].err))
  {
    var schedule := KeyOrder(|completions|);
    var m := FirstFailurePos(completions, schedule);
    forall i | 0 <= i < m ensures !Truthy(completions[i].err) {
      assert schedule[i] == i;
    }
  }
}
