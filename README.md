# ClientKitTask: execution engine and text writes

This project models the `ClientKitTask` class of taskkit-task (`index.js`), the
base class of one build-pipeline task. A task holds a name and an options
object. Its `execute` method walks `options.files` and runs the `process` hook
once per key. It gathers the per-key results in key order with `async.map` and
passes them to `onFinish`. Its `write` method stores a text artifact under
`options.dist`.

Files:

- `js_value.dfy` (module `JsValue`) holds the JavaScript values the class
  handles: `undefined`, `null`, booleans, integers, strings, arrays and objects
  whose own properties are listed in `Object.keys` order. It also defines truthiness (`!!v`),
  `Object.keys` and property reads.
- `dispatch.dfy` (module `Dispatch`) models how `async.map` gathers
  completions. `async.map` calls `process` for every key, in key order, without
  waiting for earlier keys and without stopping after an error. The callbacks
  fire in a *schedule*, a permutation of the key indices that stands for their
  completion order. Each value goes to its own key's index. Only the first error
  in arrival order reaches the final callback.
- `fs.dfy` (module `Fs`) is the filesystem as a map from path to contents,
  which `fs.writeFile` updates in place.
- `task.dfy` (module `Task`) holds the class `ClientKitTask`, with the fields
  `name`, `options`, `runner` and `log`. It has the constructor,
  `UpdateOptions`, `Execute` and `Write`. `Execute` calls `process` for every
  key through `StartAll` and collects the callbacks through `Dispatch.Gather`.
  `Run` is the specification that `Execute` is proved to follow.
- `task_properties.dfy` (module `TaskProperties`) proves what `execute`
  promises once `files` is present: key-ordered results, first-error
  reporting, independence from completion order, and the default hooks. The
  skip rule (a falsy `files` means no `process` call) is part of the contracts
  of `Task.Run` and `Task.ClientKitTask.Execute`.

A subclass overrides `process` and `onFinish`. In the model, `Execute` takes
them as function parameters, `(input, output) -> Completion(err, result)` and
`results -> Completion(err, result)`. `DefaultProcess` and `DefaultOnFinish`
are the class's own versions. The test `if (err)` is JavaScript truthiness. A
callback that reports `0`, `""` or `false` as its error therefore counts as a
success, and the model keeps this.

`index.js` implements less than its test file (test/test.runkit-task.js)
exercises. The model follows `index.js`:

- `async.map` calls `process` for every key, in key order, without waiting
  for earlier keys and without stopping after an error. Only the final
  callback is short-circuited: on an error it receives that error and no
  results.
- `execute` does not check an `enabled` flag. It does not read `items`,
  overlay per-item options, deep-merge default options or delegate to a worker.
  There is no `writeMany`, `init` or `description`, and `process` takes three
  arguments.
- The default `onFinish` passes the results array on as it is, whatever its
  length.
- After `updateOptions(null)`, `execute` throws a TypeError when it reads
  `this.options.files` (`TypeErrorThrown`). For `write`, the empty-contents
  warning is logged before a missing `options.dist` makes `path.join` throw
  (`WriteThrew`).

## Model

| member | source | states |
|---|---|---|
| `Task.ClientKitTask.constructor` | index.js:9-13 | stores the name and runner, keeps truthy options as given and replaces falsy options with an empty object, starts with an empty log |
| `Task.ClientKitTask.UpdateOptions` | index.js:24-26 | options become exactly the new value with nothing merged, so later `Execute` calls read the new `files` |
| `Task.ClientKitTask.Execute` | index.js:28-54 | outcome equals `Run`: TypeError on null or undefined options; `Skipped` with no `process` call exactly when `files` is falsy; otherwise `process` is invoked once per key in key order with `(files[key], key)` (`calls`), results are stored by key index, and the first error in completion order or `onFinish` of the results is delivered |
| `Task.Run` | index.js:28-54 | the reference outcome of `execute`: a TypeError exactly when options are null or undefined, `Skipped` exactly when `files` is falsy, and a failure only ever carries a truthy error |
| `Task.StartAll` | index.js:33-36 | `process` is invoked for every key of `files`, in key order, with `(files[key], key)`, and the completions are those invocations' answers |
| `Dispatch.Gather` | index.js:34-48 | with callbacks arriving in schedule order, the error passed on is the first truthy error in arrival order, and otherwise the results are the values stored by key index, in key order |
| `Task.DefaultProcess` | index.js:60-62 | the class's own `process` calls back with no error and no value |
| `Task.DefaultOnFinish` | index.js:56-58 | the class's own `onFinish` calls back with a null (falsy) error and the results array exactly as received |
| `JsValue.Truthy` | index.js:29-46 | the truthiness behind `!this.options.files` and `if (err)`: a truthy value is never null or undefined, and every object and array is truthy, even an empty one |
| `JsValue.Keys` | index.js:33 | `Object.keys` lists each own key once, for arrays and strings (decimal indices) and for every object with distinct keys |
| `JsValue.GetReadsOwnProperty` | index.js:29-36 | about `Get`, the property reads `this.options.files` and `this.options.files[filename]` (and `this.options.dist` at line 68) on a value that is not null or undefined (on a nullish one they throw a TypeError, which `Run` and `Write` model): a key `Object.keys` does not list reads as `undefined`, and any other value read is one of the value's own entries under that key |
| `Task.WriteTarget` | index.js:68 | `path.join(this.options.dist, filename)` throws exactly when options are null or undefined or `dist` is not a string, and otherwise names `join(dist, filename)` |
| `Task.ClientKitTask.Write` | index.js:64-73 | logs the empty-contents warning first; throws when options are nullish or `dist` is not a string; otherwise logs the info message and stores exactly `contents` at `join(dist, filename)`, leaving every other path unchanged |
| `Task.WriteLog` | index.js:65-72 | a `warning`-tagged entry is logged exactly when the contents are empty; an `info` entry is logged exactly when the write goes ahead |
| `Fs.FileSystem.WriteFile` | index.js:73 | the file at the path holds exactly the given data afterwards, and no other path changes |
| `JsValue.LookupFindsOwnProperty` | index.js:33-36 | with distinct keys, reading back a key that `Object.keys` listed gives the value stored under it |
| `Dispatch.FirstFailurePos` | index.js:37-47 | names the first position in completion order whose callback reports a truthy error; no earlier callback reported one |
| `Dispatch.StoredByIndexIsKeyOrder` | index.js:34-45 | once every callback has stored its value at its own key's index, the stored values are the results in key order, whatever order the callbacks fired in |
| `Dispatch.NoFailureIffAllSucceed` | index.js:34-48 | for every completion order, no error reaches the final callback exactly when no key's callback reports one |
| `Dispatch.KeyOrderFailsAtFirstErringKey` | index.js:36-39 | when callbacks fire in key order, the error delivered is that of the first erring key |
| `TaskProperties.FinishedIffNoKeyFails` | index.js:34-53 | with files present, `execute` reaches `onFinish` exactly when no key errs, and otherwise fails; `onFinish` receives one value per key, entry i being the value produced for key i |
| `TaskProperties.ScheduleDoesNotChangeSuccess` | index.js:34-45 | completion order never changes a successful outcome or the result order, and never changes whether `execute` fails |
| `TaskProperties.FailureComesFromAKey` | index.js:37-48 | a failed `execute` carries the truthy error that some key's callback reported |
| `TaskProperties.InKeyOrderFirstErringKeyWins` | index.js:36-48 | when callbacks fire in key order, `execute` fails with the error of the first key that reports one |
| `TaskProperties.DefaultOnFinishHandsResultsBack` | index.js:56-58 | the default `onFinish` passes the key-ordered results on unchanged with a null error |
| `TaskProperties.DefaultTaskYieldsUndefinedPerKey` | index.js:56-62 | with the default `process` and `onFinish`, a task with files always finishes with a null error and one `undefined` per key |
| `TaskProperties.InvocationsFollowFilesObject` | index.js:33-36 | for an object of files, `process` is invoked once per property, in property order, with the property's value and key |

## Left out

- Logging through `Logr` in `execute` is not modelled. This covers the
  per-key and overall "Processed … in … sec" messages and their wall-clock
  timing, which are diagnostics. The logger's `lineColor` option is left out
  too.
- The human-readable size from `bytesize` is a parameter `humanSize` of
  `Write`, because it comes from a foreign library.
- `path.join` is a parameter `join` of `Write`, and its path normalisation is
  not modelled.
- The stream branch of `write` is not modelled: `pipe`, the `'error'` and
  `'finish'` handlers, and `bytesize.fileSize`. It is event-emitter I/O.
  `write` with non-string contents is not modelled either. That includes
  `undefined` and `null`, where the code logs the empty warning, opens the
  target with `fs.createWriteStream(output)` (which creates or empties the
  file) and only then throws when it calls `contents.on`.
- Filesystem failures are not modelled: the map accepts every write, so
  `fs.writeFile` never reports an error to `done`.
- The concurrent scheduling of `async` is replaced by the `schedule`
  parameter. A `process` hook that never calls back, calls back twice, or
  throws synchronously is not modelled.
- JavaScript numbers are integers here, so `NaN` and fractions are not
  modelled. Property reads see own enumerable properties only, with no
  prototype chain; the `length` of arrays and strings is not modelled.
- Strings are sequences of Unicode characters, while JavaScript strings are
  sequences of UTF-16 code units. The model stands only for strings with no
  character outside the Basic Multilingual Plane; for others `Object.keys` of
  a string lists one key per surrogate, which `Keys` does not.
- Options are values, so the model assumes neither the caller nor a hook
  mutates `options` or `files` during or between calls. The class keeps the
  caller's object itself (index.js:12, index.js:25) and re-reads
  `this.options.files[filename]` for each key (index.js:36), so in JavaScript a
  hook that deletes a later key hands that key `undefined`, and a caller that
  mutates its options object changes what later `execute` calls see.
- An object value lists its properties in the order `Object.keys` reports
  them (integer-like keys first, ascending). The model does not reorder them
  itself. An object value that repeats a key stands for no JavaScript object.
- `Task.ClientKitTask.Execute`: the `Run` outcome delivers `onFinish`'s
  completion as data. The model does not capture that a subclass's `onFinish`
  might call `done` asynchronously or never.
