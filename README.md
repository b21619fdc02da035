# hexnut-sequence in Dafny

hexnut-sequence is middleware for the hexnut WebSocket framework. A handler is
written as a generator that yields *commands*: wait for a message (optionally
one matching a predicate), assert a condition, or await an asynchronous
operation. The package turns such a generator into a middleware function. For
each connection context it keeps one entry per adapter in a registry attached
to the context. The entry holds the running iterator and the command it is
waiting for (`waitingFor`). When the middleware returns, the incoming context
has been **consumed** (it returned without calling `next`) or **declined** (it
called `next` once), or the call **threw**. A call can also fail to return at
all. Each await drops the `wait` flag, so a generator that alternates
`getMessage()` and `await` without end keeps matching the same message
(index.js:42, 60).

This project models `index.js` in two layers:

- `Commands` (commands.dfy): the command objects built by `matchMessage`,
  `getMessage`, `assert` and `await`, plus the synthetic `{messageType:
  'connection'}` command.
- `Routines` (routines.dfy): the caller's generator as a finite script of
  commands with a position counter and a log of the values passed to its
  `next`. The log includes the argument of the first call, which a
  JavaScript generator discards because no `yield` is pending yet. A closed
  generator keeps reporting done.
- `Interpreter` (interpreter.dfy): `getNext`, `initSequence`, `process` and
  the middleware as functions on values. `process` keeps working on the
  entry object it was handed even after `initSequence` has put a new object
  under the same name, so the state is a `World`: the registry, the entry
  being processed, and whether the registry still holds that very object.
- `Sequence` (sequence.dfy): the same operations as the code runs them. It
  has classes for the entry object (whose `iter` and `waitingFor` fields are
  overwritten), the context (whose registry dictionary is deleted from and
  inserted into) and the `next` continuation (observed as a call counter).
  Each method's postcondition ties its result and new state to the
  `Interpreter` functions: `getNext`, `process` and the middleware are
  equated with the matching function, and `initSequence` with the registry
  update it performs. Every method that receives `next` also states how many
  times it was called: once if the context was declined, never otherwise.
- `Properties` (properties.dfy): what each branch of `process` guarantees.
  `sequenceProcessor` and the exported adapters `onConnect`,
  `interruptible`/`interuptable` and `uninterruptible`/`uninteruptable`
  (index.js:66-82) build the adapter record `Interpreter.Adapter`; what they
  install is stated by `Properties.EntryOnEnter`. `Commands.Settled` gives
  the value `await fn()` settles to (index.js:38); its use is stated by
  `Properties.AwaitResumes`.
- `Scenarios` (scenarios.dfy): whole conversations fed to one adapter.

The model follows `index.js` where its behaviour differs from what a reader of
the package's description would expect:

- A completed routine is re-armed after a successful match for every policy,
  not only for `onConnect` (index.js:57-59).
- After an await the same context is processed again with `wait` dropped, so
  one message can satisfy two message commands (`Scenarios.OneMessageTwoGets`).
- A routine that completes right after an await installs a fresh entry and
  then throws, because `waitingFor` is `undefined` (index.js:40-42, 27).
- An uninterruptible adapter whose predicate fails deletes its entry. The next
  message simply starts the routine again, so the conversation is not barred:
  after 'C', 'B', a correct 'A' is consumed (`Scenarios.UninterruptibleConversation`).
  Each wrong message already removes the entry, not only the second one.
- An await followed by a true assertion completes the routine on a single
  message. The message is then declined and no entry is left, because the
  finished assertion stays in `waitingFor` and the message is not of type
  'assertion' (`Scenarios.AwaitThenAssertCompletes`).

## Model

| member | source | states |
|---|---|---|
| Commands.MatchMessage | index.js:83-87 | a 'message' command with operation 'matchMessage' whose predicate is the caller's |
| Commands.GetMessage | index.js:88-92 | a 'message' command with operation 'matchMessage' whose predicate holds of every message |
| Commands.Assertion | index.js:93 | an 'assertion' command carrying the predicate's verdict and no operation |
| Commands.Await | index.js:94 | an 'await' command carrying the value its operation settles to and no operation |
| Commands.Connection | index.js:19 | the start gate: a 'connection' command with no operation and no function |
| Routines.Start | index.js:17 | a new iterator runs the caller's script from the start with nothing logged |
| Routines.Next | index.js:5 | one `iterator.next(v)`: logs `v`, yields the script's next command or reports done; a done report closes the routine; a yield strictly lowers the remaining work |
| Routines.Drive | index.js:5 | resuming with several values logs all of them, one step per value |
| Routines.DriveYieldsScript | index.js:5 | repeated resumes yield the rest of the script in order, then done |
| Routines.DoneStaysDone | index.js:5-9 | once an iterator reports done, every later resume reports done |
| Interpreter.Fresh | index.js:14-22 | a new entry starts the generator and waits for 'connection' exactly when start-gated, otherwise has nothing pending |
| Interpreter.InitSequence | index.js:14-22 | a fresh entry is installed under the name, other names untouched, and the processed object is no longer the registry's |
| Interpreter.SetCur | index.js:10 | overwriting a field of the processed object (here and at index.js:40) changes the registry only while the registry still holds that object, and no other name |
| Interpreter.Delete | index.js:29-31 | `delete ctx[SEQUENCE_SYMBOL][name]` (here and at index.js:7, 51) removes the name, leaves every other name and the processed object alone, and detaches the object |
| Interpreter.MatchPassesCases | index.js:48-49 | a command without an operation always passes, `getMessage()` passes every message, `matchMessage(f)` passes exactly when `f` holds, a match command without `fn` never passes |
| Interpreter.GetNext | index.js:4-12 | resumes with the message; on done the name is deleted and `waitingFor` kept, otherwise the yielded command becomes `waitingFor`, and a detached object's write leaves the registry alone; other names untouched |
| Interpreter.Process | index.js:24-25 | the whole step keeps the registry coherent, never touches other names, and only appends to the routine's log |
| Interpreter.Dispatch | index.js:27-35 | the assertion branch keeps the same invariants |
| Interpreter.Continue | index.js:37-63 | the await, wait and message-match branches keep the same invariants |
| Interpreter.Enter | index.js:69-70 | an existing entry is processed as it is and the registry is unchanged; otherwise a fresh entry is installed |
| Interpreter.Run | index.js:68-72 | one middleware call changes the registry only under the adapter's own name |
| Interpreter.Feed | index.js:68-72 | a list of contexts yields one outcome per context and leaves other adapters' entries alone |
| Sequence.Entry.constructor | index.js:15-21 | the new entry object's state is the fresh entry |
| Sequence.Context.constructor | index.js:69 | a context starts with an empty registry |
| Sequence.Continuation.Call | index.js:63 | calling `next` adds one to the call count |
| Sequence.GetNext | index.js:4-12 | in-place `getNext` has exactly the effect of `Interpreter.GetNext` on the registry and the entry object |
| Sequence.InitSequence | index.js:14-22 | a newly allocated entry under the name with the fresh state, every other name holding the same object |
| Sequence.Unregister | index.js:30 | deleting the name has the effect of `Interpreter.Delete` |
| Sequence.ResumeAfterAwait | index.js:39-40 | the iterator resumes with the settled value and `waitingFor` becomes the yield or `undefined` |
| Sequence.Process | index.js:24-25 | in-place `process` returns the outcome and leaves the state `Interpreter.Process` gives; `next` is called once when declined, never otherwise |
| Sequence.Dispatch | index.js:27-35 | the assertion branch in place, equal to `Interpreter.Dispatch`, with the same `next` count |
| Sequence.Continue | index.js:37-63 | the remaining branches in place, equal to `Interpreter.Continue`, with the same `next` count |
| Sequence.Settle | index.js:38-42 | the await branch in place, equal to `Interpreter.Continue` on a pending await |
| Sequence.Advance | index.js:57-60 | a successful match in place, equal to `Interpreter.Continue` on a passing command |
| Sequence.Invoke | index.js:68-72 | the middleware in place: outcome and registry as `Interpreter.Run` gives them; `next` called at most once |
| Properties.EntryOnEnter | index.js:69-82 | onConnect's fresh entry waits for 'connection', interruptible and uninterruptible ones have nothing pending; an existing entry is never replaced |
| Properties.RemovedEntryRestartsFresh | index.js:69-70 | after its entry is removed, an adapter behaves exactly as with a fresh entry |
| Properties.TypeMismatchDeclines | index.js:47-63 | a message command for another type: declined, registry and entry unchanged |
| Properties.FailedAssertion | index.js:27-33 | a failing assertion declines, deleting the entry if and only if the adapter is non-interruptible, otherwise leaving it unchanged |
| Properties.FailedMatch | index.js:48-54 | a failing `matchMessage` predicate declines, deleting the entry if and only if the adapter is non-interruptible, otherwise leaving it unchanged |
| Properties.MatchThenWait | index.js:45-60 | a successful match resumes the routine exactly once, with the message, consumes it and leaves the yielded command pending |
| Properties.MatchThenComplete | index.js:57-60 | a match that completes the routine consumes the message and re-arms a fresh entry, for every policy |
| Properties.MatchThenFailedAssertion | index.js:27-60 | a match whose resumption yields a failing assertion declines: the entry is deleted exactly when non-interruptible, otherwise it keeps the advanced routine with the assertion pending |
| Properties.MatchThenPassedAssertion | index.js:27-60 | a match whose resumption yields a holding assertion consumes the message and resumes once more; on completion the entry is gone and not re-armed, otherwise the next command is pending |
| Properties.AsyncMatchFnPasses | index.js:47-60 | a match command whose `fn` returns a promise resumes the routine with every message of its type |
| Properties.GetMessageAdvances | index.js:47-60 | any 'message' context resumes a routine waiting on `getMessage()` with its message |
| Properties.MatchMessageResumesIff | index.js:47-60 | a routine waiting on `matchMessage(f)` is resumed by a message if and only if `f` holds of it |
| Properties.CompleteOnFirstAdvance | index.js:25 | a routine done on its first advance leaves no entry and declines |
| Properties.AssertionThenComplete | index.js:27-47 | a routine done right after a true assertion leaves no entry and is not re-created; the context is consumed when `wait` is set or its type is 'assertion', declined otherwise |
| Properties.AwaitResumes | index.js:37-42 | an await resumes the routine with what `fn()` settles to, a promise's value or a plain function's result, and re-processes the context with `wait` dropped |
| Properties.AwaitThenCompleteThrows | index.js:27-43 | an await, with either kind of `fn`, that completes the routine installs a fresh entry and then throws |
| Properties.ConsumedOnlyIfResumedWithMessage | index.js:24-64 | a consumed context's message is among the values passed to the routine's `next` during the call |
| Properties.DispatchConsumed | index.js:27-63 | the same, from a pending command |
| Properties.OtherAdaptersUntouched | index.js:68-72 | another adapter's entry is left exactly as it was |
| Properties.RegistryCoherent | index.js:41-72 | afterwards the name holds nothing, the processed entry, or a fresh one |
| Scenarios.InterruptibleConversation | index.js:24-72 | interruptible A-then-B fed C, A, C, B: declined, consumed, declined, consumed; re-armed fresh at the end |
| Scenarios.UninterruptibleConversation | index.js:24-72 | uninterruptible A-then-B fed C, B, A: declined, declined with nothing left, then consumed |
| Scenarios.AwaitThenAssertCompletes | index.js:24-47 | an await of 5 then a true assertion completes on one message, leaving no entry |
| Scenarios.OneMessageTwoGets | index.js:37-60 | one message satisfies two `getMessage()` commands separated by an await |
| Scenarios.SameMessageEveryRound | index.js:37-60 | with `j` rounds of await and `getMessage()` still to run, one message is consumed after the routine has been handed it `j + 1` times, interleaved with the awaited value |
| Scenarios.OneMessageEveryRound | index.js:24-60 | a fresh routine of `getMessage()` and `j` such rounds is run to completion by one message |
| Scenarios.OnConnectConversation | index.js:19-76 | onConnect consumes the 'connection' context and then a message, and waits for 'connection' again |

## Left out

- `uuid` (index.js:2, 67): adapter names are distinct natural numbers chosen by the caller.
- Promises and `async` scheduling: an await is given the value its promise settles to. Rejection, and contexts arriving while an await is outstanding, are not modelled.
- The `Symbol`-keyed property (index.js:1, 69): the registry is an explicit map on the context. Its lazy creation is the empty map of a new context.
- Generator internals: the generator is a finite script of commands. The values passed to its `next` are logged and do not steer it. The `(ctx, next)` arguments it receives, its return value and exceptions it throws are not modelled.
- Calls that never return: because scripts are finite, `Interpreter.Process` is total and always gives an outcome. The source does not return when an endless generator alternates `getMessage()` and `await`, since each await drops `wait` and the same message matches again (index.js:42, 47-60). `Scenarios.SameMessageEveryRound` shows the repetition for any finite number of rounds.
- Yields of values that are not commands: a routine yields only command records. A hand-built command object is a record whose payload is at most one of `fn` (a predicate or a promise-returning function) or `pred`. Either kind of `fn` is accepted by both a match and an await: a promise returned to a match is truthy, and a predicate awaited with no argument settles to its boolean result.
- Predicates are total functions returning booleans, and assertion verdicts are fixed values. Truthiness of other return values is not modelled.
- `process` appears as several methods and functions split at the branches of index.js:25, 27, 37, 57. This is the same control flow.
- index.d.ts: type declarations without behaviour. Where they differ from index.js, the model follows index.js.
