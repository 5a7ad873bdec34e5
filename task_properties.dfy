/**
 * What `execute` promises its caller, stated over the specification `Run`
 * that `ClientKitTask.Execute` is proved to follow.
 */
module TaskProperties {
  import opened JsValue
  import opened Dispatch
  import opened Task

  /** The completion `process` reports for the key at index i of `files`. */
  function KeyCompletion(files: Value, process: (Value, string) -> Completion, i: nat): Completion
    requires !Nullish(files) && i < |Keys(files)|
  {
    process(Get(files, Keys(files)[i]), Keys(files)[i])
  }

  /** The values `process` produced, one per key, in key order. */
  function KeyResults(files: Value, process: (Value, string) -> Completion): (values: seq<Value>)
    requires !Nullish(files)
  {
    seq(|Keys(files)|, i requires 0 <= i < |Keys(files)| => KeyCompletion(files, process, i).result)
  }

  lemma CompletionsAreKeyCompletions(files: Value, process: (Value, string) -> Completion)
    requires !Nullish(files)
    ensures forall i | 0 <= i < |Keys(files)| :: Completions(files, process)[i] == KeyCompletion(files, process, i)
    ensures Results(Completions(files, process)) == KeyResults(files, process)
  {
  }

  /**
   * With files present, `execute` ends in `onFinish` exactly when no key's
   * callback reports an error, and `onFinish` then receives one value per key,
   * entry i being the value produced for key i; otherwise it fails.
   */
  lemma {:induction false} FinishedIffNoKeyFails(options: Value, process: (Value, string) -> Completion,
                                                 onFinish: seq<Value> -> Completion, schedule: seq<nat>)
    requires Fits(options, schedule) && !Nullish(options) && Truthy(Get(options, "files"))
    ensures var files := Get(options, "files");
      (Run(options, process, onFinish, schedule).Finished?
       <==> forall i | 0 <= i < |Keys(files)| :: !Truthy(KeyCompletion(files, process, i).err))
    ensures Run(options, process, onFinish, schedule).Finished? || Run(options, process, onFinish, schedule).Failed?
    ensures var files := Get(options, "files");
      Run(options, process, onFinish, schedule).Finished? ==>
        Run(options, process, onFinish, schedule).reply == onFinish(KeyResults(files, process))
  {
    var files := Get(options, "files");
    CompletionsAreKeyCompletions(files, process);
    NoFailureIffAllSucceed(Completions(files, process), schedule);
  }

  /**
   * The order in which the callbacks fire never changes a successful
   * outcome, and never changes whether `execute` fails.
   */
  lemma {:induction false} ScheduleDoesNotChangeSuccess(options: Value, process: (Value, string) -> Completion,
                                                        onFinish: seq<Value> -> Completion,
                                                        schedule1: seq<nat>, schedule2: seq<nat>)
    requires Fits(options, schedule1) && Fits(options, schedule2)
    ensures Run(options, process, onFinish, schedule1).Failed? <==> Run(options, process, onFinish, schedule2).Failed?
    ensures Run(options, process, onFinish, schedule1).Finished? ==>
      Run(options, process, onFinish, schedule2) == Run(options, process, onFinish, schedule1)
  {
    if !Nullish(options) && Truthy(Get(options, "files")) {
      FinishedIffNoKeyFails(options, process, onFinish, schedule1);
      FinishedIffNoKeyFails(options, process, onFinish, schedule2);
    }
  }

  /**
   * A failing `execute` reports the error of a key whose callback reported
   * one, whatever the arrival order.
   */
  lemma {:induction false} FailureComesFromAKey(options: Value, process: (Value, string) -> Completion,
                                                onFinish: seq<Value> -> Completion, schedule: seq<nat>)
    requires Fits(options, schedule)
    ensures Run(options, process, onFinish, schedule).Failed? ==>
      var files := Get(options, "files");
      exists i | 0 <= i < |Keys(files)| ::
        && Truthy(KeyCompletion(files, process, i).err)
        && Run(options, process, onFinish, schedule).error == KeyCompletion(files, process, i).err
  {
    if Run(options, process, onFinish, schedule).Failed? {
      var files := Get(options, "files");
      var completions := Completions(files, process);
      CompletionsAreKeyCompletions(files, process);
      var m := FirstFailurePos(completions, schedule);
      var i := schedule[m];
      assert Truthy(KeyCompletion(files, process, i).err);
    }
  }

  /**
   * When every callback fires in key order, the error reported is that of
   * the first key whose callback reports one.
   */
  lemma {:induction false} InKeyOrderFirstErringKeyWins(options: Value, process: (Value, string) -> Completion,
                                                        onFinish: seq<Value> -> Completion, k: nat)
    requires !Nullish(options) && Truthy(Get(options, "files"))
    requires k < |Keys(Get(options, "files"))|
    requires Truthy(KeyCompletion(Get(options, "files"), process, k).err)
    requires forall j | 0 <= j < k :: !Truthy(KeyCompletion(Get(options, "files"), process, j).err)
    ensures var files := Get(options, "files");
      Run(options, process, onFinish, KeyOrder(|Keys(files)|)) == Failed(KeyCompletion(files, process, k).err)
  {
    var files := Get(options, "files");
    var completions := Completions(files, process);
    CompletionsAreKeyCompletions(files, process);
    KeyOrderFailsAtFirstErringKey(completions);
  }

  /**
   * The class's own `onFinish` hands the results to the caller unchanged,
   * in key order, with a null error.
   */
  lemma {:induction false} DefaultOnFinishHandsResultsBack(options: Value, process: (Value, string) -> Completion,
                                                           schedule: seq<nat>)
    requires Fits(options, schedule)
    ensures Run(options, process, DefaultOnFinish, schedule).Finished? ==>
      Run(options, process, DefaultOnFinish, schedule).reply
        == Completion(Null, Arr(KeyResults(Get(options, "files"), process)))
  {
    if Run(options, process, DefaultOnFinish, schedule).Finished? {
      FinishedIffNoKeyFails(options, process, DefaultOnFinish, schedule);
    }
  }

  /**
   * With the class's own `process` and `onFinish`, a task with files always
   * finishes, with a null error and one undefined value per key.
   */
  lemma {:induction false} DefaultTaskYieldsUndefinedPerKey(options: Value, schedule: seq<nat>)
    requires Fits(options, schedule) && !Nullish(options) && Truthy(Get(options, "files"))
    ensures var n := |Keys(Get(options, "files"))|;
      Run(options, DefaultProcess, DefaultOnFinish, schedule)
        == Finished(Completion(Null, Arr(seq(n, _ => Undefined))))
  {
    var files := Get(options, "files");
    FinishedIffNoKeyFails(options, DefaultProcess, DefaultOnFinish, schedule);
    assert KeyResults(files, DefaultProcess) == seq(|Keys(files)|, _ => Undefined);
  }

  /**
   * For an object of files, `process` is invoked once per property, in
   * property order, with the property's value as input and its key as output.
   */
  lemma {:induction false} InvocationsFollowFilesObject(props: seq<(string, Value)>)
    requires DistinctKeys(props)
    ensures Invocations(Obj(props)) == seq(|props|, i requires 0 <= i < |props| => Call(props[i].1, props[i].0))
  {
    forall i | 0 <= i < |props|
      ensures Invocations(Obj(props))[i] == Call(props[i].1, props[i].0)
    {
      LookupFindsOwnProperty(props, i);
    }
  }
}
