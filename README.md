# Functions pre-deploy checks and `emulators:exec`, modelled in Dafny

This project models two small pieces of the Firebase command-line tools.

- **The functions pre-deploy validators** (`src/deploy/functions/validate.ts`).
  - `functionsDirectoryExists` checks that the source directory exists.
  - `functionNamesAreValid` checks every key of its argument against the name pattern `^[a-z][a-zA-Z0-9_-]{1,62}$` (case-insensitive). Keys starting with `.` are exempt.
  - `packageJsonIsValid` checks that the source directory has an entry point.

  Each validator returns or throws an error with a message. The model writes each one as a function that returns `Outcome` (`Pass` or `Throw(message)`). The file system is a set of existing paths. The loaded `package.json` is a `PackageJson` value.
- **The `emulators:exec <script>` command** (`src/commands/emulators-exec.ts`).
  - It builds the child's environment from the emulator registry.
  - It turns the child's `error` and `exit` events into the settlement of the promise `runScript` returns. On `exit`, `reject` and `resolve` go through 500 ms timers; an `error` event rejects at once; the first settlement wins.
  - It brackets the script between `startAll` and `cleanShutdown` with try/catch/finally.

  The environment builder and the action are methods. The promise is a class, `ScriptSupervisor`, whose event handlers update its fields. A pure state machine (`Step`, `Run`) specifies those handlers, and the lemmas are proved about it.

Modules: `Common` (`common.dfy`: `Option`, decimal text of numbers, prefixes, `join`), `FunctionsValidate` (`validate.dfy`), `EmulatorsExec` (`emulators_exec.dfy`).

Points worth knowing about the code:
- **Shutdown errors.** An error thrown by `cleanShutdown` in the `finally` block replaces the error being rethrown (`src/commands/emulators-exec.ts:94-99`). `Action` states this.
- **Only Firestore.** The code only ever adds `FIRESTORE_EMULATOR_HOST` to the child environment.
- **Upper case in names.** The doc comment of `functionNamesAreValid` speaks of lower-case letters. The `i` flag on the pattern also admits upper-case ASCII letters, and the model does too.

## Model

| member | source | states |
|---|---|---|
| `FunctionsValidate.FunctionsDirectoryExists` | src/deploy/functions/validate.ts:19-26 | Passes iff the resolved source directory exists; otherwise throws the "directory was not found" message naming the directory |
| `FunctionsValidate.RepeatToEndMeaning` | src/deploy/functions/validate.ts:34 | The pattern part `[a-zA-Z0-9_-]{lo,hi}$` matches a string iff its length is between lo and hi and every character is in the class |
| `FunctionsValidate.NamePatternTestMeaning` | src/deploy/functions/validate.ts:34 | The regex test succeeds iff the name is an ASCII letter (either case) followed by 1 to 62 letters, digits, `_` or `-` |
| `FunctionsValidate.AcceptedKeyMeaning` | src/deploy/functions/validate.ts:37-39 | A key is accepted iff it starts with "." or is well formed; an accepted key not starting with "." has 2 to 63 characters |
| `FunctionsValidate.InvalidNames` | src/deploy/functions/validate.ts:35-40 | The rejected keys are exactly the keys that are not accepted, and never more than the input holds |
| `FunctionsValidate.InvalidNamesAppend` | src/deploy/functions/validate.ts:35-40 | The rejection keeps the original order: the result for a concatenation is the result for the first part followed by the result for the second |
| `FunctionsValidate.InvalidNamesAllRejected` | src/deploy/functions/validate.ts:35-40 | When no key is accepted, every key is reported, in order |
| `FunctionsValidate.Keys` | src/deploy/functions/validate.ts:36 | `_.keys` of an array of n elements is the n index strings "0" to "n-1" in order; of an object, its own keys in enumeration order |
| `FunctionsValidate.IndexKeys` | src/deploy/functions/validate.ts:36 | The keys of an array of n elements are the n index strings, the i-th being the decimal text of i |
| `FunctionsValidate.FunctionNamesAreValid` | src/deploy/functions/validate.ts:33-47 | Throws iff some key is not accepted, so an empty key set never throws; the message is the invalid keys joined by ", " followed by the fixed explanation |
| `FunctionsValidate.IndexKeysAllInvalid` | src/deploy/functions/validate.ts:35-40 | No index string of an array is accepted, so the invalid names of an array's keys are all of its keys, in order |
| `FunctionsValidate.ArrayArgumentRejected` | src/deploy/functions/validate.ts:36-46 | Given an array, the validator sees index strings, which start with a digit: it passes iff the array is empty, and otherwise lists every index in the message |
| `Common.JoinWithAppend` | src/deploy/functions/validate.ts:42-44 | `join(", ")` of two non-empty lists is the two joins with one separator between them |
| `FunctionsValidate.CheckEntryFile` | src/deploy/functions/validate.ts:64-73 | The `try` block succeeds iff package.json loaded and the entry file `sourceDir/(main or index.js)` exists |
| `FunctionsValidate.PackageJsonIsValid` | src/deploy/functions/validate.ts:56-84 | With package.json present: passes iff it loaded and the entry file exists, and every failure carries the "There was an error reading <dir>/package.json" prefix. Without it: passes iff function.js exists, otherwise throws "No npm package found" |
| `FunctionsValidate.EntryFileChoice` | src/deploy/functions/validate.ts:61-67 | The entry file is `main` when it is a non-empty string and index.js when `main` is absent, falsy or empty |
| `FunctionsValidate.MissingEntryFileIsWrapped` | src/deploy/functions/validate.ts:67-79 | A missing entry file surfaces only inside the wrapped read-error message, with the relative path and "does not exist" as the inner text |
| `FunctionsValidate.LoadErrorIsWrapped` | src/deploy/functions/validate.ts:63-79 | A load error surfaces inside the wrapped read-error message, with the loader's own message as the inner text |
| `FunctionsValidate.FunctionJsIgnoredWithPackageJson` | src/deploy/functions/validate.ts:61-83 | With package.json present, whether function.js exists does not change the result (unless function.js is itself the declared entry) |
| `EmulatorsExec.BuildScriptEnv` | src/commands/emulators-exec.ts:19-26 | The child environment is exactly `{FIRESTORE_EMULATOR_HOST: host:port}` when Firestore is registered and exactly empty otherwise; nothing is inherited |
| `Common.NatToString` | src/commands/emulators-exec.ts:24 | The text of a port (or index) is a non-empty string of decimal digits with no leading zero (0 is exactly "0"), which `ParseNatToString` reads back as the same number |
| `EmulatorsExec.HostStringRoundTrip` | src/commands/emulators-exec.ts:24 | Splitting the variable's value at its last ':' gives back the registered host and port, even for a host containing ':' |
| `EmulatorsExec.AfterSettle` | src/commands/emulators-exec.ts:45 | A settled promise ignores later settle calls; a pending one becomes Resolved on `resolve` and Rejected on `reject` |
| `EmulatorsExec.ExitTimers` | src/commands/emulators-exec.ts:57-70 | An exit schedules `reject` first iff it has a signal, and always schedules `resolve` last, for every code |
| `EmulatorsExec.Step` | src/commands/emulators-exec.ts:45-71 | Per event: a settled promise stays as it is; an error rejects a pending promise at once and schedules nothing; an exit after the first changes nothing; a timer performs the oldest scheduled call |
| `EmulatorsExec.SettledIsFinal` | src/commands/emulators-exec.ts:45-71 | Once settled, the promise keeps its settlement whatever events follow |
| `EmulatorsExec.LaterExitsIgnored` | src/commands/emulators-exec.ts:57 | After the first exit the one-shot listener is gone: any run of later events, timers and errors included, ends where the same run with its exits removed ends, and a run of exits alone leaves the state unchanged |
| `EmulatorsExec.FirstSettleWins` | src/commands/emulators-exec.ts:56-69 | Performing the scheduled settle calls in order settles a pending promise by the first of them; a settled one does not change |
| `EmulatorsExec.ExitSettlement` | src/commands/emulators-exec.ts:57-69 | After an exit, the first timer settles the promise as Rejected iff the exit had a signal; code 0 and non-zero codes both resolve, so `await runScript` returns normally for them |
| `EmulatorsExec.ExitReport` | src/commands/emulators-exec.ts:63-68 | Without a signal, code 0 is reported as success and any other code, null included, as an unsuccessful exit |
| `EmulatorsExec.RejectionAheadKept` | src/commands/emulators-exec.ts:58-69 | From a state that is rejected or has `reject` at the head of its timers, no event sequence ever resolves the promise |
| `EmulatorsExec.SignalledExitNeverResolves` | src/commands/emulators-exec.ts:57-69 | After a signalled exit, the later `resolve` is a no-op: whatever follows, the promise is never Resolved and `await runScript` never returns normally |
| `EmulatorsExec.ScriptCompletion` | src/commands/emulators-exec.ts:93 | `await runScript` returns normally iff the promise resolved, and never returns while it is pending |
| `EmulatorsExec.ScriptSupervisor.constructor` | src/commands/emulators-exec.ts:45-57 | A new run is pending, with no timer, the exit listener attached and nothing reported |
| `EmulatorsExec.ScriptSupervisor.Settle` | src/commands/emulators-exec.ts:45 | `resolve`/`reject` change only the settlement, and only if it is pending |
| `EmulatorsExec.ScriptSupervisor.OnError` | src/commands/emulators-exec.ts:46-49 | The error handler makes the state step by an error event: a warning, then an immediate rejection |
| `EmulatorsExec.ScriptSupervisor.OnExit` | src/commands/emulators-exec.ts:57-70 | The exit handler makes the state step by that exit event |
| `EmulatorsExec.ScriptSupervisor.FireTimer` | src/commands/emulators-exec.ts:60-68 | The oldest timer's settle call is performed and removed, as a timer event steps the state |
| `EmulatorsExec.ScriptSupervisor.FireAllTimers` | src/commands/emulators-exec.ts:56-68 | Firing every pending timer, oldest first, empties the queue and settles the promise as the calls performed in order would |
| `EmulatorsExec.Action` | src/commands/emulators-exec.ts:90-100 | The call trace is startAll, then runScript only if startAll returned, then cleanShutdown exactly once and last. An error from the first two steps is rethrown after shutdown, unless cleanShutdown throws, whose error then propagates |

## Left out

- Spawning the child (the shell, `stdio`, `windowsHide`) and forwarding its stdout and stderr (`src/commands/emulators-exec.ts:28-43`). These are operating-system I/O and concurrent stream callbacks. The model keeps only the environment passed to the child.
- How long the 500 ms timers take. All timers have the same delay, so the model keeps only their order: the oldest fires first.
- The emulator controller (`startAll`, `cleanShutdown`) and the emulator registry are not part of this model. Each controller step is a given `Completion`. The registry lookup for Firestore is a given `Option<EmulatorInfo>`.
- `firestoreEmulator.ts` is not part of this model. The variable name `FIRESTORE_EMULATOR_HOST` is taken as its value of `FIRESTORE_EMULATOR_ENV`.
- The command's declaration, its option text and its `before` hooks (`requireConfig`, `requireAuth`, `getProjectNumber`) are CLI wiring and authentication I/O.
- Console output. Its colouring (`cli-color`) and debug logging are left out. The supervisor's reports are kept only as `Notice` kinds, not as text. The `clc.bold` around the directory name in the missing-directory message is dropped.
- The argument of `reject` and the error value a failed step throws are abstract. `reject()` is called with no argument (`NoReason`). Other errors are an opaque `Reason`.
- Action: its `runScript` input is how `await runScript(script)` ends once it ends. A promise that stays pending never lets the action reach `cleanShutdown`. `ScriptCompletion` records that case as `None`, but `Action` does not take it as an input.
- `cjson.load` is not part of this model. It is given as `PackageJson`: either the value of `main`, or the message of the error it throws. `None` stands for an absent `main` or a falsy non-string one. A truthy non-string `main` makes `path.join` throw inside the `try` block. The model counts that as a `LoadFailed` carrying that message, since it is wrapped the same way.
- `path.join` is modelled as `dir + "/" + name`, and `path.sep` as "/". Path normalisation and Windows separators are left out.
- `path.relative(projectDir, file)` is modelled as removing the `projectDir + "/"` prefix, or keeping the path as it is. Results that climb with `..` are left out.
- `resolveProjectPath(cwd, name)` is modelled as `cwd + "/" + name`. `fsutils` existence checks are membership in the given sets of paths.
- ObjectValue: the key order `_.keys` reports for an object (integer-like keys first, then insertion order) is taken as given in the `keys` field, not derived.
- NatToString: writes every number in plain decimal; JavaScript writes numbers from 10^21 up in exponent form. Ports and array indices stay far below that.
