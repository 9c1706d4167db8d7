# grouped-queue in Dafny

A model of the grouped queue of `grouped-queue`, a cooperative task scheduler.
Tasks are added to named lanes. Lanes are drained in priority order, and each lane
in first-in first-out order. After every completed task the scan starts again from
the highest-priority lane.

The model follows the two JavaScript files that make up the scheduler.

- `subqueue.dfy` (module `SubQueues`) models `lib/subqueue.js`.
  - `SubQueue` is a class whose `entries` field is the lane's `__queue__` array.
  - `Push` drops a call whose truthy `once` key is already pending.
  - `Shift` dequeues the head.
  - `Run` skips an empty lane, or dequeues the head and invokes it. It turns a
    thrown error or a rejected promise into `stop(error)`, which is a TypeError
    when no `stop` was given.
  - The pure functions `Pushed` and `Settle` specify them.
- `queue.dfy` (module `GroupedQueue`) models `lib/queue.js`.
  - `Queue` is a class. `order` holds the key order of `__queues__`, and `lanes`
    maps each name to its `SubQueue`.
  - It also holds the `running` flag and `scheduled`, the lane whose deferred
    run callback is waiting.
  - Each method is proved against a function on the value `Snapshot`: `Initial`,
    `AfterRun`, `AfterExec`, `AfterAdd`, `Dequeued`, `ApplyAdds` and `AfterFire`.
  - `FirstNonEmpty` specifies the scan loop of `_exec`.
  - A lane's `run` defers the call of its head task with `setImmediate`. That
    deferral is explicit state here. `Queue.Fire` is the event loop calling the
    waiting callback. It starts the task and settles it in one step. Between two
    callbacks, callers may call `Add`; such a call models an `add` made after the
    running task called `done` (see Left out).
- `cycle.dfy` (module `QueueCycles`) follows a run cycle callback by callback.
  - `Cycle` gives the trace of entries that `n` callbacks run.
  - Lemmas cover the priority-then-FIFO order, the restart from the first lane, and
    termination after exactly as many callbacks as there are pending tasks. They
    also cover the `running` guard and what a failing task leaves behind.
- `scenarios.dfy` (module `QueueScenarios`) covers runs in which tasks add
  tasks, on any queue and on the queue the tests build:
  `new Queue(["before", "run", "after"])`.

A task is a number, `TaskId`. What it does when called is a `TaskBehaviour`: the
`add` calls it makes, in order, and then how it settles (`Settlement`). Those `add`
calls happen while `running` is set, so they only push.

### Where the code, its tests and its type declarations part ways

The model follows `lib/queue.js` as written. These points differ from what the tests
in `test/index.js` or the declarations in `lib/queue.d.ts` expect.

- `_exec` passes no `stop` to a lane's `run` (`lib/queue.js:50`), so every failure
  ends in a call of `undefined`. A task that throws makes the `catch` of
  `SubQueue.run` (`lib/subqueue.js:49-50`) call it. A task that calls its second
  callback calls `undefined` itself; when it does so synchronously, the TypeError
  reaches that same `catch`, which calls `undefined` again. A rejected promise makes
  the `.catch` handler (`lib/subqueue.js:52-53`) call it, which rejects the promise
  that `.catch` returns. Either way a TypeError escapes to the host, `done` is never
  called, and `running` stays set for good. `FailureWedges` and `WedgedStaysWedged` state this. The tests at
  `test/index.js:413-435` expect an `error` event instead.
- `add(name, task)` runs the queue at once, and the scan picks its lane before the
  deferred callback fires. A second `add` to a higher lane before that callback fires
  cannot overtake the first task. So `add("after", t1); add("before", t2)` runs `t1`
  first (`TestAddsRunInCallOrder`), while `test/index.js:110-121` expects `t2` first.
  With the adds made before `run` (`test/index.js:198-212`, `RunDrainsInPriorityOrder`),
  or made from inside a running task (`test/index.js:214-230`,
  `TestReexecFromFirstQueue`), the higher lane does go first.
- `add` never forwards a `once` option, so the lane-level deduplication is not
  reachable through `Queue`, although the declaration of `add` at
  `lib/queue.d.ts:21-29` documents `options.once`.

## Model

| member | source | states |
|---|---|---|
| SubQueues.Pushed | lib/subqueue.js:17-26 | The lane grows by one entry `{task, once}` at the tail exactly when `once` is not a truthy key already pending. Otherwise it is unchanged. Earlier entries are always kept. |
| SubQueues.Settle | lib/subqueue.js:46-54 | A call of `done` completes. A task that calls neither callback stays unsettled. A throw, a rejection or a call of `stop` reports the same error through `stop`, or escapes as a TypeError when no `stop` was given. |
| SubQueues.FailureChannelsAgree | lib/subqueue.js:47-54 | A throw, a rejected promise and a call of `stop` with the same error are indistinguishable to the caller of `run`. |
| SubQueues.PushKeepsKeysUnique | lib/subqueue.js:21-25 | A push never creates a second pending entry with the same truthy key. |
| SubQueues.ShiftKeepsKeysUnique | lib/subqueue.js:33-35 | Dequeuing the head keeps truthy keys unique. |
| SubQueues.PushesKeepKeysUnique | lib/subqueue.js:21-25 | With only pushes, no truthy key is ever pending twice. |
| SubQueues.UnkeyedPushesAppend | lib/subqueue.js:25 | Pushes without a truthy key are all kept, appended in call order. |
| SubQueues.SameKeyPushedTwice | lib/subqueue.js:21-23 | Two pushes with the same truthy key leave only the first. |
| SubQueues.SubQueue.constructor | lib/subqueue.js:8-10 | A new lane is empty. |
| SubQueues.SubQueue.Find | lib/subqueue.js:21 | `find` returns the first entry whose name is the key, and nothing exactly when no entry carries it. |
| SubQueues.SubQueue.Push | lib/subqueue.js:17-26 | The new entries are `Pushed` of the old ones. |
| SubQueues.SubQueue.Shift | lib/subqueue.js:33-35 | On a non-empty lane it returns the oldest entry and leaves exactly the rest. On an empty lane it returns nothing and leaves the lane empty. |
| SubQueues.SubQueue.Run | lib/subqueue.js:43-56 | An empty lane is skipped and unchanged. Otherwise exactly the head is removed and invoked, and its outcome is `Settle` of how it ends. The removal happens at call time, not in the deferred callback (see Left out). |
| GroupedQueue.KeyOrder | lib/queue.js:15-17 | The key order after assigning each name in turn has no repeats and holds exactly the assigned names. |
| GroupedQueue.Initial | lib/queue.js:9-18 | The new queue is well formed and idle, and the scan visits every lane. |
| GroupedQueue.InitialLanes | lib/queue.js:10-17 | The lanes are exactly the given names plus `'default'` (only `'default'` for a null argument), and all are empty. |
| GroupedQueue.KeyOrderOfDistinct | lib/queue.js:15-17 | Distinct names keep their order as keys. |
| GroupedQueue.KeyOrderOfRepeat | lib/queue.js:15-17 | Assigning a name that is already a key does not move it. |
| GroupedQueue.ConstructorLaneOrder | lib/queue.js:10-17 | For distinct given names, the lane order is the given names followed by `'default'`, or the given names alone when they already hold `'default'`, in place. A null argument gives `['default']`. |
| GroupedQueue.FirstNonEmpty | lib/queue.js:44-50 | The scan stops at the first lane that has a task, having passed only empty lanes, or runs off the end when all are empty. |
| GroupedQueue.AfterExec | lib/queue.js:43-54 | The scan keeps the lanes and their order, and clears `running` only with nothing scheduled. |
| GroupedQueue.ExecScansFromFirst | lib/queue.js:43-54 | `running` stays set exactly when some lane has a task. The lane scheduled is the highest one with a task, and every lane above it is empty. |
| GroupedQueue.AfterRun | lib/queue.js:36-41 | `run` while running changes nothing. Otherwise `running` ends up set exactly when some lane has a task. The lanes are unchanged. |
| GroupedQueue.AfterAdd | lib/queue.js:26-34 | A non-string first argument targets `'default'`. A missing lane is a TypeError with nothing changed. Otherwise exactly one entry is appended to the target lane and every other lane is unchanged. A running queue stays running with the same callback waiting. |
| GroupedQueue.AddLeavesRunning | lib/queue.js:32-33 | After a successful `add` the queue is running, and the scan still visits every lane. |
| GroupedQueue.ApplyAdds | lib/queue.js:26-34 | `add` calls made by a running task leave it running with the same callback waiting, and keep the lane order and the set of lanes. |
| GroupedQueue.AddsThrowOnMissingLane | lib/queue.js:26-34 | A running task's `add` calls throw exactly when one of them targets a lane the queue does not have. |
| GroupedQueue.AddsLand | lib/queue.js:26-34 | A running task's `add` calls append to each lane exactly the tasks addressed to it, in call order, up to the first `add` that throws. The old entries stay in front, and a lane nobody targets is unchanged. |
| GroupedQueue.LandedNonEmpty | lib/queue.js:32 | When no `add` throws, a lane that some `add` targets gets at least one new entry. |
| GroupedQueue.Dequeued | lib/subqueue.js:45-48 | The deferred callback removes exactly the head of the scheduled lane and no other entry. |
| GroupedQueue.AfterFire | lib/queue.js:50 | A callback runs the head of the scheduled lane and keeps the lanes and their order. On failure the queue stays running with nothing scheduled. |
| GroupedQueue.FireEffects | lib/queue.js:43-54 | After a callback, each lane holds its old entries, less the head taken from the scheduled lane, followed by what the task's `add` calls put there. The task completes exactly when no `add` threw and it calls `done`. It stays unsettled exactly when no `add` threw and it never settles. Any other ending escapes as a TypeError. |
| GroupedQueue.MakeLanes | lib/queue.js:15-17 | The `forEach` gives every name a fresh, empty lane of its own, and no other lane. |
| GroupedQueue.Queue.constructor | lib/queue.js:9-18 | The new queue's state is `Initial(given)`, and its lanes are fresh objects. |
| GroupedQueue.Queue.Scan | lib/queue.js:44-51 | The scan loop stops at `FirstNonEmpty` of the lanes. |
| GroupedQueue.Queue.Exec | lib/queue.js:43-54 | The new state is `AfterExec` of the old one, and no lane object changes. |
| GroupedQueue.Queue.Run | lib/queue.js:36-41 | The new state is `AfterRun` of the old one. |
| GroupedQueue.Queue.Add | lib/queue.js:26-34 | `ok` holds exactly when the lane exists. The new state is then `AfterAdd` of the old one; otherwise nothing changes. |
| GroupedQueue.Queue.Dequeue | lib/subqueue.js:45-48 | The callback removes and returns the oldest entry of the scheduled lane. The new state is `Dequeued` of the old one. |
| GroupedQueue.Queue.PerformAdds | lib/queue.js:26-34 | The running task's `add` calls give the state that `ApplyAdds` specifies, and say whether one threw. |
| GroupedQueue.Queue.Fire | lib/queue.js:50 | The callback's entry, outcome and new state are those of `AfterFire`. |
| QueueCycles.Cycle | lib/queue.js:43-54 | `n` callbacks keep the lane order and run at most `n` entries. |
| QueueCycles.FlattenEmpty | lib/queue.js:49 | No pending entry is left exactly when every lane is empty. |
| QueueCycles.FireRunsHighestPriority | lib/queue.js:47-50 | A callback of a poised queue runs the oldest task of the first lane that has one. |
| QueueCycles.FireRestartsFromFirstLane | lib/queue.js:50 | After a completed task the scan restarts from the first lane: whichever lane has a task then, a lane no lower than it is scheduled. |
| QueueCycles.AddToHigherLanePreempts | lib/queue.js:43-54 | A task that adds to lane `h` and completes hands the next callback to lane `h` or a higher one. This holds whatever lane ran it, whatever the other lanes hold, and in whatever order it made its `add` calls. |
| QueueCycles.CompletedOnEmptyLanesIdles | lib/queue.js:49 | A task that completes when every lane is empty ends the cycle: `running` is cleared and nothing is scheduled. |
| QueueCycles.FailureWedges | lib/queue.js:50 | A task that fails or never calls `done` leaves `running` set with nothing scheduled. |
| QueueCycles.WedgedStaysWedged | lib/queue.js:36-41 | A wedged queue stays wedged: `run` does nothing and `add` only pushes. |
| QueueCycles.RunIdempotent | lib/queue.js:36-41 | `run` twice is `run` once. |
| QueueCycles.DequeueTakesFirst | lib/queue.js:47-50 | The entry a callback takes is the first of all pending entries in priority-then-FIFO order, and the rest stay in order. |
| QueueCycles.FireQuietStep | lib/queue.js:43-54 | With quiet tasks, one callback runs the first pending entry. The queue is then poised again, or idle once every lane is empty. |
| QueueCycles.QuietTrace | lib/queue.js:43-54 | With quiet tasks, `n` callbacks run the first `n` pending entries in priority-then-FIFO order, leave the rest pending, and keep the queue poised or idle. |
| QueueCycles.QuietCycle | lib/queue.js:43-54 | With quiet tasks, `n` callbacks from a poised queue run the first `n` pending entries. The queue is poised until all have run, and idle afterwards. |
| QueueCycles.RunDrainsInPriorityOrder | lib/queue.js:36-54 | `run` on an idle queue whose tasks add nothing runs every pending task in priority-then-FIFO order, in exactly as many callbacks as there are tasks, and ends idle. |
| QueueScenarios.ExecPicks | lib/queue.js:47-50 | The scan schedules a lane that has a task when every lane above it is empty. |
| QueueScenarios.ExecStops | lib/queue.js:49 | The scan clears `running` when every lane is empty. |
| QueueScenarios.FirstAdd | lib/queue.js:26-34 | `add(task)` on an idle, empty queue pushes to `'default'` and schedules it. |
| QueueScenarios.FirstCallback | lib/queue.js:50 | A task that adds to a low lane and then to a higher one and completes causes the higher lane to be scheduled next. |
| QueueScenarios.ReentrantAddsRunHigherLaneFirst | lib/queue.js:43-54 | A worked run: on an idle queue with every lane empty, a `'default'` task adds one task to a lower lane and then one to a higher lane. The three tasks run in the order default, higher, lower, and the queue ends idle and empty again. |
| QueueScenarios.FirstAddedRunsFirst | lib/queue.js:26-50 | Two `add` calls made outside any task run in call order when the first has already started the cycle, even when the second targets a higher lane. |
| QueueScenarios.TestQueueOrder | lib/queue.js:10-17 | `new Queue(["before", "run", "after"])` has lanes `before`, `run`, `after`, `default` in that order. |
| QueueScenarios.TestReexecFromFirstQueue | lib/queue.js:43-54 | On that queue, a default task adding to `after` and then `before` leads to the run order default task, `before` task, `after` task. |
| QueueScenarios.TestAddsRunInCallOrder | lib/queue.js:26-50 | On that queue, `add("after", t1)` followed by `add("before", t2)` runs `t1` before `t2`. |

## Left out

- In `Queue`, the `setImmediate` deferral is modelled only as its effect: `scheduled`
  records the waiting callback, and `Dequeue` and `Fire` run it. Timing relative to
  other host events is not modelled.
- `isPromise` (`lib/subqueue.js:4-6`) is not modelled. Its duck-typing of `then` is
  replaced by the `Rejects` and `Hangs` settlements. A promise that resolves without
  calling a callback is `Hangs`.
- The host side of a failure is not modelled. A TypeError escaping from a `setImmediate`
  callback crashes the host or reaches its uncaught-exception handler. The model
  records `Escaped(TypeError)` and the state left behind, and the value of that error
  is not modelled.
- EventEmitter signals (`end`, `error`, `paused`), `addSubQueue`, `pause`, `start`,
  `runOnAdd`, `options.run` and `once` forwarding through `add` are not modelled.
  `lib/queue.d.ts` declares them, but `lib/queue.js` does not implement them.
- The key order of JavaScript objects for integer-like names is not modelled: such
  keys come first, in numeric order. The model uses insertion order for every name.
- Names that collide with `Object.prototype` members are not modelled. For example,
  `new Queue(["__proto__"])` replaces the prototype of the lane object instead of
  adding a key. `add("__proto__", t)` then pushes onto that lane, but `Object.keys`
  never lists it, so its tasks never run.
- The constructor pushes `'default'` onto the caller's own array (`lib/queue.js:11`).
  The model takes the names as a value and does not model that aliasing.
- A task that calls `done` twice, or that calls `done` and then throws, is not
  modelled. A task settles exactly once.
- A task's `add` calls are modelled as happening before it settles. Adds made from
  asynchronous code after `done` are calls of `Queue.Add` between callbacks.
- GroupedQueue.Queue.Fire: starts the task and settles it in one step, so it does not
  model an `add` made by outside code while an asynchronous task is still running.
  In `lib/queue.js` such an `add` only pushes (`lib/queue.js:32-33`, `37`), and the
  rescan started by `done` sees it, so a higher lane can take over. A `Queue.Add`
  after `Fire` comes after that rescan has already picked a lane. Take lanes
  `[before, after]`, tasks 0 and 1 in `after`, and an outside `add("before", 2)`
  made while task 0 runs: the source runs 0, 2, 1, while `Queue.Add` after `Fire`
  gives 0, 1, 2. The model reaches the source's order only by counting that `add`
  among task 0's own `adds`, which is exact when the lane exists. An outside `add` to
  a missing lane throws to its own caller, not to the task, and is not modelled.
  `AfterFire` and `Queue.Add` between callbacks model only adds made after the
  running task called `done`.
- SubQueues.SubQueue.Run: does not model the `setImmediate` deferral
  (`lib/subqueue.js:45-48`). It removes the head and invokes it at call time, so a
  push made between `run` and the callback is not seen as coming before the removal.
  It also takes a given settlement for the invoked task, so a task that reaches back
  into the same lane while it runs is not modelled. `Queue` never calls it:
  `Queue.Dequeue` and `Queue.Fire` model the deferred callback and that re-entrance.
- QueueScenarios.ReentrantAddsRunHigherLaneFirst: states one worked run, starting
  idle with every lane empty and adding lower lane then higher lane. The general
  claim, for any order of `add` calls and lanes that already hold tasks, is
  `QueueCycles.AddToHigherLanePreempts`, which covers the next callback only and not
  the whole run.
