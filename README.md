# Plank logging, modelled in Dafny

Plank is a small Swift logging library. It has two variants:

- `Logger` (`Plank/Plank/Logger.swift`) reports each written entry to a delegate.
- `Plank` (`Plank/Plank/Plank.swift`) posts a "will log" and a "did log" notification around each write.

Both variants work the same way:

- A request is filtered by the `enabled` flag and a level threshold.
- An admitted request becomes a handler on one serial dispatch queue that every instance of the class shares.
- That handler formats the body and writes it, and finally calls the optional completion. `Logger` calls its delegate after the write. `Plank` posts "will log" before the write and "did log" after it.
- A synchronous logger waits for its handler (and everything queued before it). An asynchronous one only enqueues it.

The project has four modules:

- `Optional` — an `Option` type.
- `Text` — string helpers the formatters need:
  - infix search;
  - splitting on `/` and taking the last component (`componentsSeparatedByString(...).last`);
  - Swift's `Int.description`, with its parsing inverse.
- `LoggerVariant` — `Logger.swift`:
  - the level enum and `primitiveThresholdLevel`;
  - `logText` and its default template;
  - the handler: write, system log, delegate, completion;
  - the class-wide queue (`Shared`), the `Logger` class and its four public wrappers.
- `PlankVariant` — `Plank.swift`:
  - the notification names and payload keys;
  - the level enum and `logText`;
  - the handler: will-post, write, did-post, completion;
  - the class-wide queue, the `Plank` class and its wrappers.

The side effects of the handlers are recorded as events, not performed:

- the write to standard output;
- the system-log mirror;
- the delegate callback;
- a notification post;
- the completion call.

The shared queue is a class `Shared` with two fields:

- `pending` — the handlers waiting, in FIFO order;
- `runs` — the handlers that have run. Each run holds the settings it read and the contiguous block of events it produced.

`Shared.Valid()` states the queue's invariant. Run `i` was the `i`-th admitted request. Its events are exactly those its request produces under the settings its logger had when it ran. The pending handlers carry the next submission numbers, in order.

A handler reads its logger's configuration when it runs, not when it is submitted, because the Swift closure captures `self`: tag, formatter, `systemLogEnabled` and the delegate. The threshold filter and the `synchronous` flag are read at submission.

Two Swift dependencies become parameters of `Shared`:

- the date formatter becomes `clock(n)`, the timestamp of the `n`-th handler run;
- `Shared.bundleExecutableName` becomes `executableName`.

In the source every `Logger` (and every `Plank`) uses the one static `Shared.queue` (`private let queue = Shared.queue`). In the model each logger holds a `Shared` object given to its constructor; passing every logger of a variant the same object is the caller's obligation (see "## Left out").

Three points about the code:

- It uses one static serial queue per class, so the handlers of all instances of a class run one at a time in submission order, not only the entries of one instance.
- It has no fallback when a custom formatter fails. The formatter's result is used verbatim.
- It does not isolate failures of observers or completions: they run inline in the handler.

## Model

| member | source | states |
|---|---|---|
| Optional.Option.GetOr | Plank/Plank/Logger.swift:139 | the present value, or the supplied default when absent |
| Text.Split | Plank/Plank/Logger.swift:173 | `componentsSeparatedByString`: at least one component, none containing the separator |
| Text.JoinSplit | Plank/Plank/Logger.swift:173 | joining the components with the separator gives back the original string |
| Text.SplitJoin | Plank/Plank/Logger.swift:173 | splitting a join of separator-free parts gives back those parts |
| Text.LastComponent | Plank/Plank/Logger.swift:173-176 | the last component has no separator and is a suffix of the path; it is preceded by the separator when shorter; it is the whole path when there is no separator |
| Text.NatToDecimal | Plank/Plank/Logger.swift:177 | decimal digits, non-empty, no leading zero |
| Text.IntToDecimal | Plank/Plank/Logger.swift:177 | `line.description` starts with '-' exactly when the line is negative |
| Text.ParseNatDecimal | Plank/Plank/Logger.swift:177 | parsing the decimal rendering of a natural gives it back |
| Text.ParseIntDecimal | Plank/Plank/Logger.swift:177 | the rendering of any Int is well-formed and parses back to the same Int |
| Text.Count | Plank/Plank/Logger.swift:152-154 | an occurrence count is bounded by the length and is zero exactly when the element is absent |
| Text.CountAppend | Plank/Plank/Logger.swift:152-154 | occurrence counts add over concatenation |
| LoggerVariant.Rank | Plank/Plank/Logger.swift:59-63 | raw values lie in 0..3 |
| LoggerVariant.LevelFromRaw | Plank/Plank/Logger.swift:36 | `Level(rawValue:)` succeeds exactly for 0..3, and yields the level of that raw value |
| LoggerVariant.Description | Plank/Plank/Logger.swift:65-78 | each level's name is "Verbose", "Info", "Warning" or "Error", by raw value |
| LoggerVariant.RankInjective | Plank/Plank/Logger.swift:59-63 | distinct levels have distinct raw values, so raw values order the levels totally |
| LoggerVariant.LevelRoundTrip | Plank/Plank/Logger.swift:33-36 | `Level(rawValue: l.rawValue) == l`, and no two levels share a name |
| LoggerVariant.ThresholdFromPrimitive | Plank/Plank/Logger.swift:35-37 | an in-range raw value selects its level; any other value selects Verbose |
| LoggerVariant.MessageText | Plank/Plank/Logger.swift:139 | a nil message becomes "(null)"; any other is kept |
| LoggerVariant.FileBasename | Plank/Plank/Logger.swift:173-176 | the file name after the last '/': slash-free suffix of the path, the whole path when it has no '/' |
| LoggerVariant.DefaultHeader | Plank/Plank/Logger.swift:177 | the header line starts with the timestamp and shows the executable name, the tag, the level name, the file's base name and `function:line` |
| LoggerVariant.DefaultText | Plank/Plank/Logger.swift:177 | the default body starts with the timestamp, shows executable name, tag, level name, base name, `function:line` and the message, and ends with the message on its own line |
| LoggerVariant.LogText | Plank/Plank/Logger.swift:168-178 | with a formatter, its result verbatim from (message, tag, level name, function, file, line); without, a body that starts with the timestamp and shows executable name, tag, level name, base name, `function:line` and message |
| LoggerVariant.Effects | Plank/Plank/Logger.swift:138-155 | the handler's events: one write first, plus one event each for the mirror, the delegate and the completion when enabled |
| LoggerVariant.HandlerEventsShape | Plank/Plank/Logger.swift:138-155 | a handler's events under the settings it read: the body written first; mirrored iff `systemLogEnabled`; delegate called iff set; completion iff supplied |
| LoggerVariant.Prelude | Plank/Plank/Logger.swift:142-150 | the handler's events before its completion, one listing for each combination of system log and delegate |
| LoggerVariant.EffectsOrder | Plank/Plank/Logger.swift:138-155 | a handler writes first, then mirrors, then calls the delegate, then completes; each at most once, all carrying the written body |
| LoggerVariant.EffectsPresence | Plank/Plank/Logger.swift:144-150 | the system-log mirror happens iff `systemLogEnabled`; the delegate call happens iff a delegate is set |
| LoggerVariant.EffectsCompleteOnce | Plank/Plank/Logger.swift:152-154 | the completion runs exactly once, last, iff one was supplied, and never otherwise |
| LoggerVariant.DelegateCalls | Plank/Plank/Logger.swift:148-150 | a count of delegate calls is bounded by the trace length |
| LoggerVariant.DelegateCallsAppend | Plank/Plank/Logger.swift:148-150 | delegate calls add over concatenated traces |
| LoggerVariant.EffectsDelegateCalls | Plank/Plank/Logger.swift:148-150 | one handler calls the delegate once if set, zero times otherwise |
| LoggerVariant.CompletionsRequested | Plank/Plank/Logger.swift:152-154 | at most one requested completion per run |
| LoggerVariant.Shared.RunsOf | Plank/Plank/Logger.swift:157-165 | the runs of queued handlers, one per handler, in queue order |
| LoggerVariant.Shared.RunOfReadsSettings | Plank/Plank/Logger.swift:138-150 | a handler's run uses its logger's settings at run time (the closure captures `self`): the body written and the delegate call follow those settings |
| LoggerVariant.Shared.Outcome | Plank/Plank/Logger.swift:134-165 | a filtered call leaves the queue exactly as it was (nothing written, mirrored, delegated or completed); an admitted call adds exactly one handler; async leaves the runs alone and appends the handler; sync empties the queue with this handler's run last |
| LoggerVariant.Shared.constructor | Plank/Plank/Logger.swift:190-194 | a fresh queue is empty and valid |
| LoggerVariant.Shared.Enqueue | Plank/Plank/Logger.swift:161-164 | `dispatch_async` appends the handler and runs nothing |
| LoggerVariant.Shared.RunNext | Plank/Plank/Logger.swift:138-155 | the oldest handler runs: its run is appended with the events of its request under its logger's current settings, and the queue stays valid |
| LoggerVariant.Shared.Drain | Plank/Plank/Logger.swift:157-165 | every pending handler runs, oldest first; the result is the drained queue |
| LoggerVariant.Shared.RunsExtended | Plank/Plank/Logger.swift:157-165 | runs recorded one at a time equal the runs of the drained handlers appended in order |
| LoggerVariant.Shared.RunSynchronously | Plank/Plank/Logger.swift:157-160 | `dispatch_sync`: everything queued earlier runs, then this handler, before returning |
| LoggerVariant.Logger.constructor | Plank/Plank/Logger.swift:19-47 | defaults: empty tag, enabled, system log on, threshold Warning, asynchronous, no formatter, no delegate |
| LoggerVariant.Logger.PrimitiveThresholdLevel | Plank/Plank/Logger.swift:32-34 | the getter returns the threshold's raw value, in 0..3 |
| LoggerVariant.Logger.SetPrimitiveThresholdLevel | Plank/Plank/Logger.swift:35-37 | the setter stores the matching level, or Verbose out of range, and changes nothing else |
| LoggerVariant.Logger.ShouldLog | Plank/Plank/Logger.swift:180-186 | passes iff enabled and the level's raw value is at least the threshold's |
| LoggerVariant.Logger.Log | Plank/Plank/Logger.swift:133-166 | filtered: queue unchanged; async: handler appended; sync: queue drained through this handler |
| LoggerVariant.Logger.LogError | Plank/Plank/Logger.swift:89-91 | `log` at level Error |
| LoggerVariant.Logger.LogWarning | Plank/Plank/Logger.swift:99-101 | `log` at level Warning |
| LoggerVariant.Logger.LogInfo | Plank/Plank/Logger.swift:109-111 | `log` at level Info |
| LoggerVariant.Logger.LogVerbose | Plank/Plank/Logger.swift:119-121 | `log` at level Verbose |
| LoggerVariant.TraceAppend | Plank/Plank/Logger.swift:157-165 | the trace of consecutive runs is the concatenation of their traces |
| LoggerVariant.SynchronousLogRunsThrough | Plank/Plank/Logger.swift:157-160 | after a synchronous call, the queue is empty and earlier handlers ran in order; this call's handler ran last under its ticket, with its completion as its final event |
| LoggerVariant.AsynchronousLogDefers | Plank/Plank/Logger.swift:161-164 | an asynchronous call only enqueues: nothing has run for it on return |
| LoggerVariant.AsynchronousThenDrainIsSynchronous | Plank/Plank/Logger.swift:157-165 | draining after an asynchronous call gives exactly the state of a synchronous call |
| LoggerVariant.SynchronousDelegateVisible | Plank/Plank/Logger.swift:148-160 | when a synchronous call with a delegate returns, the call's own run holds the delegate call with its message and body, and the trace has gained a delegate call |
| LoggerVariant.CompletionsMatchRequests | Plank/Plank/Logger.swift:152-154 | across runs, completions in the trace equal completions requested |
| LoggerVariant.QueueCompletionsExactlyOnce | Plank/Plank/Logger.swift:152-165 | on a valid shared queue, each run holds exactly one completion if one was supplied and none otherwise, so the trace's completions equal those requested |
| LoggerVariant.DelegateCallsPerLogger | Plank/Plank/Logger.swift:148-150 | the delegate calls made by one logger's handlers equal the number of its handlers that ran while it had a delegate |
| LoggerVariant.DelegatedRuns | Plank/PlankTests/LoggerSpec.swift:172-185 | the number of a logger's handlers that ran while it had a delegate (what the test delegate's `fireCount` counts), at most one per run |
| LoggerVariant.QueueDelegateCalls | Plank/Plank/Logger.swift:148-165 | on a valid shared queue, each logger's delegate has been called once per handler of it that ran with a delegate set |
| PlankVariant.UserInfo | Plank/Plank/Plank.swift:17-21 | the payload has exactly the message key and the body key, holding the message and the body |
| PlankVariant.Rank | Plank/Plank/Plank.swift:73-77 | raw values lie in 0..3 |
| PlankVariant.Description | Plank/Plank/Plank.swift:79-92 | each level's name is "VERBOSE", "INFO", "WARNING" or "ERROR", by raw value |
| PlankVariant.LevelsOrdered | Plank/Plank/Plank.swift:73-92 | raw values and names are injective and raw values order the levels totally |
| PlankVariant.MessageText | Plank/Plank/Plank.swift:186 | a nil message becomes "(null)"; any other is kept |
| PlankVariant.DefaultHeader | Plank/Plank/Plank.swift:215 | the header line starts with the timestamp and shows the executable name, the tag and the level name |
| PlankVariant.DefaultText | Plank/Plank/Plank.swift:215 | the default body starts with the timestamp, shows executable name, tag, level name and message, and ends with the message on its own line |
| PlankVariant.LogText | Plank/Plank/Plank.swift:210-216 | with a formatter, its result verbatim from (message, tag, level name); without, a body that starts with the timestamp and shows executable name, tag, level name and message |
| PlankVariant.Effects | Plank/Plank/Plank.swift:185-197 | the handler's events: three, or four with a completion, the write in second place |
| PlankVariant.HandlerEventsShape | Plank/Plank/Plank.swift:185-197 | a handler's events under the settings it read: will-log with message and body, the write, did-log with the same payload; completion iff supplied |
| PlankVariant.EffectsOrder | Plank/Plank/Plank.swift:185-197 | will-post, write, did-post, completion: in that order, one write, identical payloads holding message and body, completion once and last iff supplied |
| PlankVariant.Shared.RunsOf | Plank/Plank/Plank.swift:199-207 | the runs of queued handlers, one per handler, in queue order |
| PlankVariant.Shared.RunOfReadsSettings | Plank/Plank/Plank.swift:185-192 | a handler's run uses its logger's settings at run time (the closure captures `self`): the body written follows those settings |
| PlankVariant.Shared.Outcome | Plank/Plank/Plank.swift:181-207 | a filtered call leaves the queue exactly as it was (nothing posted, written or completed); an admitted call adds exactly one handler; async leaves the runs alone and appends the handler; sync empties the queue with this handler's run last |
| PlankVariant.Shared.constructor | Plank/Plank/Plank.swift:228-232 | a fresh queue is empty and valid |
| PlankVariant.Shared.Enqueue | Plank/Plank/Plank.swift:203-206 | `dispatch_async` appends the handler and runs nothing |
| PlankVariant.Shared.RunNext | Plank/Plank/Plank.swift:185-197 | the oldest handler runs with its logger's current settings, and the queue stays valid |
| PlankVariant.Shared.Drain | Plank/Plank/Plank.swift:199-207 | every pending handler runs, oldest first; the result is the drained queue |
| PlankVariant.Shared.RunsExtended | Plank/Plank/Plank.swift:199-207 | runs recorded one at a time equal the runs of the drained handlers appended in order |
| PlankVariant.Shared.RunSynchronously | Plank/Plank/Plank.swift:199-202 | `dispatch_sync`: everything queued earlier runs, then this handler, before returning |
| PlankVariant.Plank.constructor | Plank/Plank/Plank.swift:40-61 | `init(tag:)`: the given tag, enabled, threshold Warning, asynchronous, no formatter |
| PlankVariant.Plank.ShouldLog | Plank/Plank/Plank.swift:218-224 | passes iff enabled and the level's raw value is at least the threshold's |
| PlankVariant.Plank.Log | Plank/Plank/Plank.swift:180-208 | filtered: queue unchanged; async: handler appended; sync: queue drained through this handler |
| PlankVariant.Plank.LogError | Plank/Plank/Plank.swift:102-104 | `log` at level Error, with or without completion (lines 139-141) |
| PlankVariant.Plank.LogWarning | Plank/Plank/Plank.swift:111-113 | `log` at level Warning, with or without completion (lines 149-151) |
| PlankVariant.Plank.LogInfo | Plank/Plank/Plank.swift:120-122 | `log` at level Info, with or without completion (lines 159-161) |
| PlankVariant.Plank.LogVerbose | Plank/Plank/Plank.swift:129-131 | `log` at level Verbose, with or without completion (lines 169-171) |
| PlankVariant.SynchronousLogRunsThrough | Plank/Plank/Plank.swift:199-202 | after a synchronous call, the queue is empty and earlier handlers ran in order; this call's handler ran last under its ticket, with its completion as its final event |
| PlankVariant.AsynchronousLogDefers | Plank/Plank/Plank.swift:203-206 | an asynchronous call only enqueues: nothing has run for it on return |
| PlankVariant.AsynchronousThenDrainIsSynchronous | Plank/Plank/Plank.swift:199-207 | draining after an asynchronous call gives exactly the state of a synchronous call |
| PlankVariant.EffectsPayloads | Plank/Plank/Plank.swift:188-192 | one handler posts exactly one will-log and one did-log notification, both with the same payload |
| PlankVariant.Received | Plank/Plank/Plank.swift:190-192 | what a listener registered with `object:` set to one logger receives: nothing when none of the runs belong to that logger |
| PlankVariant.WillAndDidAgree | Plank/Plank/Plank.swift:185-207 | listeners for will-log and for did-log from one logger each receive one payload per handler of that logger that ran, in run order, so they receive the same sequence |
| PlankVariant.QueueNotificationsAgree | Plank/Plank/Plank.swift:185-207 | on a valid shared queue, the will-log and did-log listeners of any logger have received identical payloads, at most one per run |
| PlankVariant.AnnouncedLength | Plank/Plank/Plank.swift:188-192 | at most one payload per run |

## Left out

- Concurrency: GCD threads and callers racing to submit are replaced by one sequential FIFO queue. Each `log` call is one atomic submission. A handler runs only when the model runs the queue: `Shared.RunNext` runs the oldest one, `Shared.Drain` runs all of them, and a synchronous call drains the queue through its own handler. Interleavings of configuration changes with queued handlers are captured only in that a handler reads its logger's settings when it runs.
- One queue per class: Dafny has no static mutable state, so the constructors of `Logger` and `Plank` take a `Shared` object. Giving every logger of a variant the same object is the caller's obligation. A caller that passes two different objects gets two independent queues, which the source cannot have; the lemmas then hold per queue.
- I/O: `println`, `BDSystemLogger.logMessage`, the delegate call and `NSNotificationCenter` posts are recorded as events, not performed. Observers' own reactions are not modelled.
- `NSDateFormatter`/`NSDate()` and `Logger.dateFormatter()`/`Plank.dateFormatter()`: the timestamp is the parameter `clock(n)` of the shared queue. Date format strings and locales are not modelled.
- `NSBundle` lookups (`bundleExecutableName`, `queueName()`, `bundle()`) are not modelled beyond the constant `executableName`. This includes Plank's `queueName()` interpolating the optional identifier.
- The delegate is a flag, `hasDelegate`. The `weak` reference going nil while a handler is queued is modelled only as a change of that flag before the handler runs.
- The Plank formatter's `dateFormatter` and `queue` arguments are platform handles and are not passed to the model's formatter.
- The formatters are total functions. A formatter that traps or blocks is not modelled.
- `LoggerVariant.LogText`: the `formattedFileName == nil` fallback (Logger.swift:174-176) cannot be taken, because a split always has a last component. The model has no separate branch for it.
- `Description` (both variants): the `default: return ""` branch is unreachable for a four-case enum and has no counterpart.
- The completion closure is a flag, `hasCompletion`. What it does is not modelled; its call is the `Completion` event.
- `Logger`'s lazy `systemLogger` creation is not modelled.
- The unused `tag` argument of `shouldLog` is dropped.
- The `Logger` protocol declared in Plank.swift (lines 23-34) is an interface only. `PlankVariant.Plank` provides its methods.
- `Logger(tag:delegate:)`, an initializer some tests use, does not exist in Logger.swift. Tags are set through the `tag` field.
