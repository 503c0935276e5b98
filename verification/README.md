# thread_framework — a Dafny model of the thread manager's bookkeeping

thread_framework is a header-only C++ library. A `ThreadManager` owns a set
of workers. Each worker runs on its own thread. The caller either hands it
over directly or has a registered factory make it by type name. Four worker
types are built in: monitor, task, timer and loop. The manager:

- creates workers, by type name through a factory or directly;
- caps how many entries it holds;
- hands out increasing numeric ids;
- forwards stop, pause and resume requests as lifecycle hooks;
- reports per-thread status lines and counts;
- reclaims entries whose thread has ended and whose worker is FINISHED.

This project models that bookkeeping as a sequential state machine. The
operating-system threads are abstracted away. It also models the worker
contract every worker implements, and the `run()` loops of the four
built-in workers. The contracts are proved.

Modules:

- `Decimal` (`decimal.dfy`): decimal rendering of integers, used in names
  and descriptions.
- `Workers` (`thread_worker.dfy`): the worker contract.
  - `ThreadState`.
  - Class `ThreadWorker`: the state field, the stop and pause flags, the
    state predicates, `setState`, the continuation check and the default
    hooks.
  - The default description and the factory's default configuration check.
- `BaseWorkers` (`base_workers.dfy`): `MonitorWorker`, `TaskWorker`,
  `TimerWorker` and `LoopWorker`.
  - Each is a class that holds the base worker state as `core`.
  - A callback is given by its outcome on each invocation: it returns, or it
    throws a `std::exception` carrying a message.
- `Manager` (`thread_manager.dfy`): class `ThreadManager`. Its fields are:
  - the factory table;
  - the entry table (id → name, worker, running flag);
  - the cap;
  - the id counter.

  The worker inside an entry is a value. It records its type name, its state
  and the hooks the manager has called on it, in order. A spawned thread's
  body becomes three events:
  - `ThreadBegins`: the entry is marked running and `onStart` is called;
  - `WorkerSetsState`: the worker's own `setState`;
  - `ThreadEnds`: `run()` returned or threw, `onError` is called on a throw,
    and the entry stops running.

  The manager's worker value and the worker classes of `Workers` and
  `BaseWorkers` are not connected. A hook the manager calls is recorded,
  not run, so the model never reaches a built-in worker's own hook (for
  example `MonitorWorker.OnStop`, which disables the monitor).

Behaviour of the code that the model keeps as written:

- `startWorker` stores a default-constructed entry and copies only the worker
  and the start time into it. The stored name is therefore always empty,
  whatever name the caller passed (`Manager.Started`).
- With an empty name, both creation calls take one id from the counter to
  build the default name `<type>_<n>`. `startWorker` takes another. The
  returned id is `n + 1`, and ids advance by two (`Manager.DefaultNameScenario`).
- `createThreadWithWorker` reads the worker's type in the same expression
  that moves the worker away. The model reads the type before the move.
- None of the base hooks sets the stop or pause flag. No built-in worker
  ever sets PAUSED. Only the monitor reacts to `onStop`.
- Nothing in the code treats FINISHED as final: `setState` accepts any
  transition, so any state may follow any other.
- A throw from the monitor's callback, or from the loop's start or end
  callback, is not caught inside `run()` and leaves it with the state still
  RUNNING.

## Model

| member | source | states |
|---|---|---|
| Decimal.NatToString | ThreadManager.h:96 | the decimal numeral of an id is non-empty, all digits, has no leading zero unless the id is 0, and its digits stand for the id |
| Decimal.IntToString | BaseWorkers.h:69-71 | std::to_string of a signed int: the unpadded numeral standing for the value, with a leading minus exactly for negatives, digits after it, and no leading zero except in "0" |
| Workers.ThreadWorker.constructor | IThreadWorker.h:156-158 | a new worker is STOPPED, with both the stop and the pause flag down |
| Workers.ThreadWorker.SetState | IThreadWorker.h:181-183 | afterwards getState() returns the new state, whatever the old one was; the flags are unchanged |
| Workers.ThreadWorker.ShouldContinue | IThreadWorker.h:168-174 | returns only when pause is down or stop is up, and the answer is "go on" exactly when stop is down |
| Workers.ThreadWorker.OnInitialize | IThreadWorker.h:77 | the default hook changes neither the state nor the flags |
| Workers.ThreadWorker.OnStart | IThreadWorker.h:84 | the default hook changes neither the state nor the flags |
| Workers.ThreadWorker.OnStop | IThreadWorker.h:91 | the default hook changes neither the state nor the flags |
| Workers.ThreadWorker.OnPause | IThreadWorker.h:98 | the default hook changes neither the state nor the flags |
| Workers.ThreadWorker.OnResume | IThreadWorker.h:105 | the default hook changes neither the state nor the flags |
| Workers.ThreadWorker.OnError | IThreadWorker.h:114 | the default hook changes neither the state nor the flags |
| Workers.ExactlyOneStatePredicate | IThreadWorker.h:121-153 | each of isRunning/isPaused/isStopped/isFinished is getState() compared with its value, and exactly one holds |
| Workers.DefaultDescription | IThreadWorker.h:65-67 | the default description is the type name followed by " worker" |
| Workers.SupportsConfig | IThreadWorker.h:216-218 | a factory supports every configuration by default |
| BaseWorkers.Range | BaseWorkers.h:334-338 | the loop counter's values lo, lo+1, …, hi in order, empty when hi < lo; the same range numbers the timer's triggers (BaseWorkers.h:237) |
| BaseWorkers.FailureMessages | BaseWorkers.h:237-244 | at most one onError message per invocation, and none when every invocation returns |
| BaseWorkers.FailureMessagesCount | BaseWorkers.h:237-244 | exactly one onError message per throwing invocation, and a throwing last invocation gives the last message, the prefix followed by what() |
| BaseWorkers.MonitorWorker.constructor | BaseWorkers.h:31-33 | a monitor starts enabled, with zero iterations, the given interval and callback, and a fresh STOPPED core |
| BaseWorkers.MonitorWorker.GetType | BaseWorkers.h:62-64 | the type name is "MonitorWorker" |
| BaseWorkers.MonitorWorker.GetDescription | BaseWorkers.h:69-71 | "Monitor worker with ", then the unpadded numeral whose value is the interval, then "ms interval" |
| BaseWorkers.MonitorWorker.SetEnabled | BaseWorkers.h:83-85 | sets the enabled flag only |
| BaseWorkers.MonitorWorker.SetInterval | BaseWorkers.h:97-99 | sets the interval only |
| BaseWorkers.MonitorWorker.OnStop | BaseWorkers.h:117-120 | onStop disables the monitor and changes nothing else |
| BaseWorkers.MonitorWorker.Run | BaseWorkers.h:38-57 | one iteration per loop body; the loop runs only while the continuation check and enabled both hold; it runs zero bodies when stopped or disabled at the start; it ends FINISHED once onStop disables it, and it stays RUNNING and still enabled when the callback throws; run() itself never writes enabled, so on return it is still enabled exactly when it was enabled at the start and onStop has not arrived |
| BaseWorkers.TaskWorker.constructor | BaseWorkers.h:141-142 | an empty description becomes "Unnamed Task"; the task is not completed |
| BaseWorkers.TaskWorker.GetType | BaseWorkers.h:165-167 | the type name is "TaskWorker" |
| BaseWorkers.TaskWorker.GetDescription | BaseWorkers.h:172-174 | the stored description |
| BaseWorkers.TaskWorker.Run | BaseWorkers.h:147-160 | completed becomes true exactly when a task is present and returns normally; a throw yields "Task execution failed: " + message for onError; the state ends FINISHED either way |
| BaseWorkers.TimerWorker.constructor | BaseWorkers.h:212-215 | the timer starts with zero triggers and the given interval, callback and limit |
| BaseWorkers.TimerWorker.GetType | BaseWorkers.h:253-255 | the type name is "TimerWorker" |
| BaseWorkers.LimitText | BaseWorkers.h:262 | " (max ", the unpadded numeral whose value is the limit, " triggers)" for a positive limit; " (infinite)" otherwise |
| BaseWorkers.TimerWorker.GetDescription | BaseWorkers.h:260-263 | "Timer worker with ", the unpadded numeral whose value is the interval, "ms interval", then the limit text; the description ends in " triggers)" exactly when the limit is positive, and in " (infinite)" exactly when it is not |
| BaseWorkers.TimerWorker.SetMaxTriggers | BaseWorkers.h:275-277 | sets the limit only |
| BaseWorkers.TimerWorker.Run | BaseWorkers.h:220-248 | the count never passes a positive limit and, if not stopped, ends at exactly max(start, limit); it fires triggers start+1..count in order, counting before each callback; each throw adds one "Timer callback failed: " message and the loop goes on; the state ends FINISHED |
| BaseWorkers.LoopWorker.constructor | BaseWorkers.h:317-322 | the loop starts at 0 with the given count and callbacks |
| BaseWorkers.LoopWorker.GetType | BaseWorkers.h:355-357 | the type name is "LoopWorker" |
| BaseWorkers.LoopWorker.GetDescription | BaseWorkers.h:362-364 | "Loop worker with ", then the unpadded numeral whose value is the loop count, then " iterations" |
| BaseWorkers.LoopWorker.Run | BaseWorkers.h:327-350 | if not stopped, it calls the loop callback with 1..loopCount in order and leaves currentLoop at loopCount (unchanged when loopCount <= 0); each loop-callback throw adds one message; the run ends FINISHED, unless the start or end callback throws, which leaves it RUNNING |
| BaseWorkers.FiveTriggerTimer | examples/basic_usage.cpp:59-66 | a timer limited to 5 triggers fires exactly 5 times, numbered 1 to 5, and ends FINISHED |
| Manager.Signal | ThreadManager.h:135 | calling a hook appends it to the worker's received hooks and changes nothing else in the entry |
| Manager.Started | ThreadManager.h:328-359 | the stored entry has an empty name, is not running, and holds the worker after onInitialize |
| Manager.Cleaned | ThreadManager.h:381-394 | an entry is kept exactly when it is not both not-running and FINISHED, and kept entries are unchanged; when none is running, none kept is FINISHED |
| Manager.AllSignalled | ThreadManager.h:195-202 | the same ids, each with the hook called once |
| Manager.StateNameInjective | ThreadManager.h:262-267 | the four state names are pairwise different |
| Manager.StatusLine | ThreadManager.h:251-270 | name, then " [", then the type, then "]: " and the state's name |
| Manager.StatusLineDeterminesState | ThreadManager.h:251-270 | two entries with the same name and type have the same status line only if they have the same state |
| Manager.StatusBagPick | ThreadManager.h:277-285 | the multiset of status lines does not depend on the order the entries are visited |
| Manager.StatusBagSize | ThreadManager.h:277-285 | there is one status line per entry |
| Manager.CleanedKeepsActive | ThreadManager.h:223-233 | cleanup never removes an entry in RUNNING or PAUSED |
| Manager.CleanedIdempotent | ThreadManager.h:381-394 | a second cleanup right after the first removes nothing |
| Manager.ActiveWithinTotal | ThreadManager.h:223-243 | the active count never exceeds the total count |
| Manager.ThreadManager.constructor | ThreadManager.h:40 | no factories, no entries, the given cap, and the counter at 1 |
| Manager.ThreadManager.AddFactory | ThreadManager.h:60-69 | returns false and leaves the table alone for a registered type, otherwise inserts the factory and returns true; entries, cap and counter are unchanged |
| Manager.ThreadManager.CreateThread | ThreadManager.h:78-97 | SIZE_MAX and no new entry for an unknown type, a reached cap (checked before the factory is called) or a null worker; otherwise a fresh id, one past the default name's number when the name is empty; a cap N > 0 is never exceeded |
| Manager.ThreadManager.CreateThreadWithWorker | ThreadManager.h:106-117 | SIZE_MAX and no new entry for a null worker or a reached cap; otherwise a fresh id, one past the default name's number when the name is empty; a cap N > 0 is never exceeded |
| Manager.ThreadManager.StartWorker | ThreadManager.h:325-364 | the id is the counter's old value, absent from the table and greater than every id in it; the counter grows by one and exactly one entry is added |
| Manager.ThreadManager.ThreadBegins | ThreadManager.h:336-341 | a thread that finds its entry marks it running and calls onStart; one that does not find it changes nothing |
| Manager.ThreadManager.WorkerSetsState | IThreadWorker.h:181-183 | a worker's setState changes only that entry's state |
| Manager.ThreadManager.ThreadEnds | ThreadManager.h:343-352 | a run that throws calls onError with its message; then the entry stops running and nothing else changes |
| Manager.ThreadManager.StopThread | ThreadManager.h:126-142 | false for an unknown id; otherwise onStop is called, the entry stays, and the result is true |
| Manager.ThreadManager.PauseThread | ThreadManager.h:151-166 | true, with onPause called, exactly when the id exists and the worker is RUNNING; otherwise nothing changes |
| Manager.ThreadManager.ResumeThread | ThreadManager.h:175-190 | true, with onResume called, exactly when the id exists and the worker is PAUSED; otherwise nothing changes |
| Manager.ThreadManager.StopAll | ThreadManager.h:195-202 | onStop is called once on every worker and no entry is removed |
| Manager.ThreadManager.WaitForAll | ThreadManager.h:207-216 | once no entry is running, the same cleanup is performed; afterwards no entry is FINISHED |
| Manager.ThreadManager.AllThreadsFinished | ThreadManager.h:369-376 | true exactly when no entry is running |
| Manager.ThreadManager.CleanupFinishedThreads | ThreadManager.h:290-293 | removes exactly the not-running FINISHED entries |
| Manager.ThreadManager.CleanupFinishedThreadsUnsafe | ThreadManager.h:381-394 | removes exactly the not-running FINISHED entries and keeps every other entry unchanged |
| Manager.ThreadManager.GetActiveThreadCount | ThreadManager.h:223-233 | the number of entries whose worker is RUNNING or PAUSED |
| Manager.ThreadManager.GetTotalThreadCount | ThreadManager.h:240-243 | the number of entries |
| Manager.ThreadManager.GetThreadStatus | ThreadManager.h:251-270 | "" exactly for an unknown id, otherwise that entry's status line |
| Manager.ThreadManager.GetAllThreadStatus | ThreadManager.h:277-285 | one status line per entry, as a multiset equal to the lines of all entries |
| Manager.ThreadManager.SetMaxThreads | ThreadManager.h:300-302 | changes the cap and never the entries |
| Manager.ThreadManager.GetMaxThreads | ThreadManager.h:309-311 | the current cap |
| Manager.ThreadManager.Teardown | ThreadManager.h:47-50 | stopAll and then waitForAll: every worker gets onStop, then the reclaimable entries are removed; factories, cap and counter are unchanged |
| Manager.CapOfTwoScenario | ThreadManager.h:106-117 | with a cap of 2, two workers get ids 1 and 2 and the third gets SIZE_MAX; pausing an unknown id and resuming a STOPPED worker fail; stopping a known id succeeds |
| Manager.DefaultNameScenario | ThreadManager.h:96 | without names, two creations return ids 2 and 4, the stored name is empty, and an unknown type returns SIZE_MAX without calling any factory |

## Left out

- Concurrency. The model leaves out the threads, `join`, the condition
  variable, the mutexes, and atomics as synchronisation. The thread body is
  the ThreadBegins/ThreadEnds events, and a join is a no-op.
- Races that need real concurrency:
  - the thread may look up its entry before the entry is inserted
    (ThreadManager.h:337-338 against :357), and then does nothing;
    ThreadBegins on an unknown id covers only that outcome;
  - the table is read or written without its lock at ThreadManager.h:87,
    :112 and :357.
- Manager.ThreadManager.GetAllThreadStatus: the source locks the table
  mutex and then calls getThreadStatus, which locks the same non-recursive
  mutex (ThreadManager.h:278, :282, :252). So the call deadlocks whenever the
  table has an entry; on an empty table the loop never calls
  getThreadStatus and the call returns an empty list. The model gives the
  intended result in both cases. It also specifies the lines as a multiset,
  because the table's iteration order is unspecified.
- Workers.ThreadWorker.ShouldContinue: the sleep-and-poll wait while paused
  cannot end in a sequential model. Only calls made when pause is down or
  stop is up are modelled.
- Manager.ThreadManager.WaitForAll: the wait is a precondition (no entry
  running), not a loop.
- Manager.ThreadManager.Teardown: the same wait is a precondition.
- BaseWorkers.TimerWorker.Run: a timer with no positive limit never ends
  unless stop is requested, and no built-in hook requests it. Such a run is
  excluded by a precondition.
- BaseWorkers.MonitorWorker.Run: the loop ends only when something else
  disables it. The model takes that to be onStop, arriving after a given
  number of loop bodies.
- Sleeping, `std::chrono` intervals and start times, and all console output.
- `LoopWorker::getProgress`: it is floating-point division.
- The logging-only `onStart`/`onStop` overrides of the task and timer
  workers: they print and change nothing.
- The plain getters: `getIterationCount`, `isEnabled` and `getInterval`
  (BaseWorkers.h:76-106), `isCompleted`, `getTriggerCount`,
  `getMaxTriggers` (BaseWorkers.h:282-284), `getCurrentLoop` and
  `getLoopCount` (BaseWorkers.h:376-378). Each returns its field, which the
  model reads directly.
- Failures that are not `std::exception`.
- `createWorker` is code outside the model. Its result is a parameter of
  CreateThread, and a null factory pointer is not modelled.
- The workers' counters are C++ `int`s, and the model uses unbounded
  integers. `++i` in the loop worker (BaseWorkers.h:334) overflows when the
  loop count is INT_MAX, where the model ends. The monitor's iteration count
  (BaseWorkers.h:22, :42) and the timer's trigger count would wrap after
  2^31 - 1 steps, where the model's counts keep growing.
- The C++ default arguments are not modelled; every parameter is passed
  explicitly. They are: `maxTriggers = -1`, meaning no limit
  (BaseWorkers.h:214); the monitor's 1000 ms interval (BaseWorkers.h:31);
  `maxThreads = 0`; an empty thread name; and null optional callbacks.
- Hooks are assumed not to throw. The model does not cover an exception
  from one of them leaving the call or the thread early. The unprotected
  call sites are:
  - onInitialize (ThreadManager.h:333), onStart (:341), onStop (:135, :200),
    onPause (:161) and onResume (:185), all called outside any try block;
  - onError (:346), which runs inside the catch handler, so a throw from it
    escapes the thread body.
- The id counter is a 64-bit `size_t` and would wrap after 2^64 ids. The
  model uses unbounded naturals, so it does not capture the wrap or a
  collision with the SIZE_MAX sentinel.
- BaseWorkers.LoopWorker.Run: does not state that the start and end
  callbacks are called at most once each. This holds by the code's structure
  (one call site each) and is not a separate contract.
- examples/custom_worker.cpp (file I/O, a random network simulation, a demo
  main) and the main program of examples/basic_usage.cpp are not part of
  this model.
