/**
 * The `ClientKitTask` class: its options, the `execute` engine that runs the
 * `process` hook once per entry of `options.files` and hands the ordered
 * results to `onFinish`, and the text branch of `write`.
 *
 * The `process` and `onFinish` hooks that a subclass overrides are passed to
 * `Execute` as functions; `DefaultProcess` and `DefaultOnFinish` are the
 * class's own. The order in which the `process` callbacks fire is the
 * `schedule` parameter (see module Dispatch).
 */
module Task {
  import opened JsValue
  import opened Dispatch
  import opened Fs

  /** One invocation `process(input, output, cb)`. */
  datatype Call = Call(input: Value, output: string)

  /** What the `allDone` callback of `execute` receives, or the exception it throws. */
  datatype ExecOutcome =
    | TypeErrorThrown         // `this.options.files` read on null or undefined options
    | Skipped                 // `allDone()`: no files, `process` never called
    | Failed(error: Value)    // `allDone(err)`: the first error; `onFinish` not called
    | Finished(reply: Completion)  // what `onFinish` passed on to `allDone`

  /** A message sent to the task's logger, with its tags. */
  datatype LogEntry = LogEntry(tags: seq<string>, message: string)

  /** The end of a text `write`: the file it stored, or the TypeError it threw. */
  datatype WriteOutcome = WriteThrew | Written(path: string)

  /** The class's own `process`: `done()`, no error and no value. */
  function DefaultProcess(input: Value, output: string): (completion: Completion)
    ensures !Truthy(completion.err) && completion.result == Undefined
  {
    Completion(Undefined, Undefined)
  }

  /** The class's own `onFinish`: `done(null, results)`. */
  function DefaultOnFinish(results: seq<Value>): (reply: Completion)
    ensures !Truthy(reply.err) && reply.result == Arr(results)
  {
    Completion(Null, Arr(results))
  }

  /** The `process` invocations for `files`, one per key, in key order. */
  function Invocations(files: Value): (calls: seq<Call>)
    requires !Nullish(files)
    ensures |calls| == |Keys(files)|
  {
    var keys := Keys(files);
    seq(|keys|, i requires 0 <= i < |keys| => Call(Get(files, keys[i]), keys[i]))
  }

  /** The completion each of those invocations reports. */
  function Completions(files: Value, process: (Value, string) -> Completion): (completions: seq<Completion>)
    requires !Nullish(files)
    ensures |completions| == |Keys(files)|
  {
    var calls := Invocations(files);
    seq(|calls|, i requires 0 <= i < |calls| => process(calls[i].input, calls[i].output))
  }

  /** `schedule` is an arrival order for the callbacks of `options.files`, when `execute` gets that far. */
  predicate Fits(options: Value, schedule: seq<nat>) {
    Nullish(options) || !Truthy(Get(options, "files")) || IsSchedule(schedule, |Keys(Get(options, "files"))|)
  }

  /** The `process` invocations `execute` makes under `options`. */
  function Started(options: Value): seq<Call>
  {
    if Nullish(options) || !Truthy(Get(options, "files")) then [] else Invocations(Get(options, "files"))
  }

  /** What `execute` delivers under `options` when the callbacks arrive in `schedule` order. */
  function Run(options: Value, process: (Value, string) -> Completion,
               onFinish: seq<Value> -> Completion, schedule: seq<nat>): (outcome: ExecOutcome)
    requires Fits(options, schedule)
    ensures outcome == TypeErrorThrown <==> Nullish(options)
    ensures outcome == Skipped <==> !Nullish(options) && !Truthy(Get(options, "files"))
    ensures outcome.Failed? ==> Truthy(outcome.error)
  {
    if Nullish(options) then TypeErrorThrown
    else
      var files := Get(options, "files");
      if !Truthy(files) then Skipped
      else
        var completions := Completions(files, process);
        var m := FirstFailurePos(completions, schedule);
        if m < |schedule| then Failed(completions[schedule[m]].err)
        else Finished(onFinish(Results(completions)))
  }

  /**
   * Calls `process(files[key], key)` for every key of `files`, in key order,
   * without waiting for earlier keys and without stopping after an error.
   */
  method StartAll(files: Value, process: (Value, string) -> Completion)
    returns (calls: seq<Call>, pending: seq<Completion>)
    requires !Nullish(files)
    ensures calls == Invocations(files)
    ensures pending == Completions(files, process)
  {
    var filenames := Keys(files);
    calls, pending := [], [];
    var i := 0;
    while i < |filenames|
      invariant 0 <= i <= |filenames|
      invariant calls == Invocations(files)[..i]
      invariant pending == Completions(files, process)[..i]
    {
      var input := Get(files, filenames[i]);
      calls := calls + [Call(input, filenames[i])];
      pending := pending + [process(input, filenames[i])];
      i := i + 1;
    }
  }

  /** A message the logger shows under the `warning` tag. */
  predicate IsWarning(entry: LogEntry) {
    "warning" in entry.tags
  }

  /** Where a text `write` stores under `options`: `path.join(options.dist, filename)`. */
  function WriteTarget(options: Value, join: (string, string) -> string, filename: string): (outcome: WriteOutcome)
    ensures outcome.WriteThrew? <==> Nullish(options) || !Get(options, "dist").Str?
    ensures outcome.Written? ==> outcome.path == join(Get(options, "dist").s, filename)
  {
    if Nullish(options) then WriteThrew
    else match Get(options, "dist")
      case Str(dist) => Written(join(dist, filename))
      case _ => WriteThrew
  }

  /** The messages a text `write` logs; `size` is the human-readable size of `contents`. */
  function WriteLog(filename: string, contents: string, size: string, outcome: WriteOutcome): (entries: seq<LogEntry>)
    ensures (exists e | e in entries :: IsWarning(e)) <==> contents == ""
    ensures (exists e | e in entries :: e.tags == ["info"]) <==> outcome.Written?
  {
    var warning := LogEntry(["clientkit", "warning"], "attempting to write empty string to " + filename);
    var info := LogEntry(["info"], "Writing file " + filename + " (" + size + ")");
    assert IsWarning(warning) && !IsWarning(info) by { assert info.tags == ["info"]; }
    var entries := (if contents == "" then [warning] else []) + (if outcome.Written? then [info] else []);
    assert contents == "" ==> entries[0] == warning;
    assert outcome.Written? ==> entries[|entries| - 1] == info;
    entries
  }

  class ClientKitTask {
    var name: string
    var options: Value
    var runner: Value
    /** The messages sent to the task's logger by `write`. */
    var log: seq<LogEntry>

    /** Missing (falsy) options fall back to an empty object. */
    constructor (name: string, options: Value, runner: Value)
      ensures this.name == name && this.runner == runner
      ensures this.options == if Truthy(options) then options else Obj([])
      ensures log == []
    {
      this.name := name;
      this.options := if Truthy(options) then options else Obj([]);
      this.runner := runner;
      this.log := [];
    }

    /** Replaces the options wholesale; nothing is merged. */
    method UpdateOptions(newOptions: Value)
      modifies this`options
      ensures options == newOptions
    {
      options := newOptions;
    }

    /**
     * Runs `process` on every entry of `options.files` and hands the results,
     * in key order, to `onFinish`; `calls` lists the invocations of `process`.
     */
    method Execute(process: (Value, string) -> Completion, onFinish: seq<Value> -> Completion,
                   schedule: seq<nat>)
      returns (outcome: ExecOutcome, calls: seq<Call>)
      requires Fits(options, schedule)
      ensures outcome == Run(options, process, onFinish, schedule)
      ensures calls == Started(options)
      ensures outcome == Skipped <==> !Nullish(options) && !Truthy(Get(options, "files"))
      ensures outcome == Skipped ==> calls == []
    {
      if Nullish(options) {
        return TypeErrorThrown, [];
      }
      var files := Get(options, "files");
      if !Truthy(files) {
        return Skipped, [];
      }
      // The model makes every `process` call first and then replays the
      // callbacks in `schedule` order; the hooks are pure, so this gives
      // what async.map's interleaving of calls and callbacks gives.
      var pending;
      calls, pending := StartAll(files, process);
      var results, failure := Gather(pending, schedule);
      if failure.Reported? {
        outcome := Failed(failure.error);
      } else {
        outcome := Finished(onFinish(results));
      }
    }

    /**
     * The text branch of `write`: warns about empty contents, then stores
     * `contents` at `path.join(options.dist, filename)`.
     */
    method Write(fs: FileSystem, join: (string, string) -> string, humanSize: string -> string,
                 filename: string, contents: string)
      returns (outcome: WriteOutcome)
      modifies this`log, fs
      ensures outcome == WriteTarget(options, join, filename)
      ensures log == old(log) + WriteLog(filename, contents, humanSize(contents), outcome)
      ensures outcome.Written? ==> fs.files == old(fs.files)[outcome.path := contents]
      ensures outcome.WriteThrew? ==> fs.files == old(fs.files)
    {
      if contents == "" {
        log := log + [LogEntry(["clientkit", "warning"], "attempting to write empty string to " + filename)];
      }
      if Nullish(options) {
        return WriteThrew;
      }
      var dist := Get(options, "dist");
      if !dist.Str? {
        return WriteThrew;
      }
      var output := join(dist.s, filename);
      log := log + [LogEntry(["info"], "Writing file " + filename + " (" + humanSize(contents) + ")")];
      fs.WriteFile(output, contents);
      outcome := Written(output);
    }
  }
}
