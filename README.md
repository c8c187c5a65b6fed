# Per-coroutine logging context, modelled in Dafny

This project models the logging-context layer of `asio_tracer`. Each
coroutine carries its own stack of diagnostic labels, outermost first.
The stack is kept in a store keyed by coroutine id. Several pieces work on
that store:

- RAII pushers push and pop labels.
- A swap object installs a whole stack and later puts the old one back.
- `logging::spawn` seeds a new coroutine with a copy of its parent's stack
  and erases the child's entry when the child ends.
- `logging::post` carries a captured stack into a plain callback.

The model also covers the scope-exit helper `Finally`, the join that turns a
stack into the log attribute string, and the printing of `Severity`.

Files and modules:

- `storage.dfy`, module `Storage`: the store `aim::CoroSpecificStorage`.
  It is a class over `map<CoroId, Data>`. The functions `GetOrCreate` and
  `Erased` say what `get()` and `erase()` do to the map. The current
  coroutine id is a parameter of each operation.
- `logging_spawn.dfy`, module `LoggingSpawn`: `CoroLogStringPusher`,
  `CoroLogStringStack`, `getCoroSpecificLogStrStack`,
  `getCoroSpecificLogStr`, `detail::Holder` and `detail::PostHolder`.
  - These are classes and methods over one shared store object.
  - The user function that `Holder` and `PostHolder` run is written in a
    small statement language, `Stmt`. Its statements are: a scoped push, a
    scoped stack swap, a nested spawn, reading the context string for a log
    record, and throwing.
  - `Exec`, `Step` and `RunHolder` give the meaning of a `Stmt` body.
  - `ExecBlock`, `ExecStmt`, `Holder.Run` and `PostHolder.Run` run a body on
    the store with the RAII classes. They are proved to compute exactly what
    `Exec` says.
  - The lemmas about `Exec` state the propagation protocol. Labels are
    restored when a scope ends. A finished coroutine leaves no entry behind.
    A child starts from a copy of its parent's stack. A posted callback runs
    under the captured stack.
- `log_string.dfy`, module `LogString`: the space join of `getCoroSpecificLogStr`.
  It is paired with `Split`, which undoes the join when no label contains a
  space.
- `finalizer.dfy`, module `Finalizer`: the class `Finally`, with an `Option`
  field for the `unique_ptr` and a ghost count of calls. The value-level
  `World` models every `Finally` token of a program at once. On `World` we
  prove that no function is called twice, whatever moves happen.
- `log.dfy`, module `Log`: `to_string(Severity)` and `operator<<`.
- `wrappers.dfy`, module `Wrappers`: `Option`.

Some behaviour of the code is easy to miss; the model keeps it:

- `getCoroSpecificLogStr` creates an empty entry for the current id through
  `get()` when there is none (src/logging/spawn.cpp:14), so reading the
  context string changes the store.
- No code path erases the ambient (no-coroutine) entry. The model only ever
  creates it and changes it.
- `CoroLogStringPusher` keeps its implicit copy constructor, so a copy would
  pop twice. In the model a guard exists only as a `Scoped` statement, so it
  is never copied.
- `Holder` takes its snapshot of the parent's stack when it is built in the
  parent (include/logging/spawn.hpp:74-76), not when the child starts.
  `Holder`'s constructor models that.

## Model

| member | source | states |
|---|---|---|
| `Storage.CoroSpecificStorage.constructor` | include/aim/asio/CoroSpecificStorage.hpp:13-17 | a new store has no entries |
| `Storage.CoroSpecificStorage.Get` | include/aim/asio/CoroSpecificStorage.hpp:21-25 | `get()` returns the entry of the current id; an absent id first gets the default value; no other entry changes |
| `Storage.CoroSpecificStorage.Put` | include/aim/asio/CoroSpecificStorage.hpp:21-25 | assigning through the reference `get()` returns sets exactly the current id's entry |
| `Storage.CoroSpecificStorage.Erase` | include/aim/asio/CoroSpecificStorage.hpp:26-30 | `erase()` removes the current id's key and nothing else |
| `Storage.GetOrCreate` | include/aim/asio/CoroSpecificStorage.hpp:24 | the map after `datas[id]`: its keys gain the id and nothing else, an absent id maps to the default value, and every existing entry is kept |
| `Storage.Erased` | include/aim/asio/CoroSpecificStorage.hpp:29 | the map after `datas.erase(id)`: its keys lose the id and nothing else, and every remaining entry is kept |
| `Storage.GetAbsentInserts` | include/aim/asio/CoroSpecificStorage.hpp:21-25 | `get()` for an id without an entry inserts the default value, and the map grows by exactly one |
| `Storage.GetPresentKeeps` | include/aim/asio/CoroSpecificStorage.hpp:24 | `get()` for an id with an entry leaves the map unchanged, size included |
| `Storage.EraseFrame` | include/aim/asio/CoroSpecificStorage.hpp:26-30 | `erase()` removes exactly the current id; other keys and values stay; the map shrinks by one if the id was there, and is unchanged otherwise |
| `Storage.GetThenEraseRestores` | include/aim/asio/CoroSpecificStorage.hpp:21-30 | `get()` then `erase()` for a previously absent id gives back the original map |
| `LogString.Join` | src/logging/spawn.cpp:15 | the context string: empty for an empty stack, and it starts with the outermost label |
| `LogString.JoinEndsWithLast` | src/logging/spawn.cpp:15 | the context string of a non-empty stack ends with the innermost label |
| `LogString.JoinSmall` | src/logging/spawn.cpp:12-16 | an empty stack gives `""`, `[a]` gives `a`, and `[a, b]` gives `a + " " + b` |
| `LogString.JoinPush` | src/logging/spawn.cpp:15 | pushing a label onto a non-empty stack appends one space and the label to the context string |
| `LogString.SplitJoin` | src/logging/spawn.cpp:15 | splitting the joined string at spaces gives back any non-empty stack whose labels have no spaces |
| `LogString.JoinInjective` | src/logging/spawn.cpp:15 | two non-empty space-free stacks with the same context string are equal |
| `Log.ToString` | include/logging/log.hpp:21-31 | a label exists exactly for the five enumerators, and every label is 8 characters long |
| `Log.SeverityLabels` | include/logging/log.hpp:24-28 | the labels are "DEBUG   ", "INFO    ", "WARNING ", "ERROR   " and "CRITICAL" |
| `Log.SeverityOrder` | include/logging/log.hpp:19 | debug < info < warning < error < critical |
| `Log.ToStringInjective` | include/logging/log.hpp:24-28 | different severities have different labels |
| `Log.ParseIntToDecimal` | include/logging/log.hpp:39 | the decimal form of the integer value is a numeral that parses back to that value |
| `Log.Render` | include/logging/log.hpp:33-42 | the printed text is never empty, and it is a numeral exactly when the value is none of the five enumerators |
| `Log.RenderCases` | include/logging/log.hpp:33-42 | `operator<<` prints the label of a named severity, and prints any other value as a numeral that reads back as it |
| `Log.RenderInjective` | include/logging/log.hpp:33-42 | no two severity values print alike |
| `Finalizer.Finally.constructor` | include/Finally.hpp:10-12 | a new token owns the function and has called nothing |
| `Finalizer.Finally.Move` | include/Finally.hpp:24-26 | the move constructor takes over the pending function; the source keeps nothing and has called nothing |
| `Finalizer.Finally.MoveAssign` | include/Finally.hpp:27-31 | move assignment gives the target the source's function and leaves the source empty; the target's old function is dropped without a call; self-assignment keeps the function |
| `Finalizer.Finally.Destroy` | include/Finally.hpp:13-18 | the destructor calls the owned function exactly once if there is one, and nothing otherwise |
| `Finalizer.MakeFinally` | include/Finally.hpp:36-40 | `finally(f)` returns a fresh token that owns `f` |
| `Finalizer.Created` | include/Finally.hpp:36-40 | `finally(f)` stored in a new token: the keys gain exactly the new token, which owns a new function that (when the ledger of called and dropped functions is consistent) was never called or dropped; other tokens keep theirs, and nothing is called or dropped |
| `Finalizer.MovedInto` | include/Finally.hpp:24-26 | the move constructor at the level of all tokens: the new token owns the source's function, the source owns nothing, and every other token keeps its function; nothing is made, called or dropped |
| `Finalizer.Reassigned` | include/Finally.hpp:27-31 | move assignment between distinct tokens: the target owns the source's function, the source owns nothing, and every other token keeps its function; the target's old function, if any, is appended to the dropped list, which is otherwise unchanged; nothing is called |
| `Finalizer.Destructed` | include/Finally.hpp:13-18 | the destructor at the level of all tokens: the token is gone and every other token keeps its function; the token's function, if any, is appended to the called list, which is otherwise unchanged; nothing is dropped |
| `Finalizer.Apply` | include/Finally.hpp:10-31 | an event is possible exactly when it names live tokens (and, for a construction, a new one); no event shrinks the made count or the called or dropped lists |
| `Finalizer.CreateKeepsInv` | include/Finally.hpp:36-40 | storing `finally(f)` in a new token keeps each function in exactly one place: owned once, called once, or dropped once |
| `Finalizer.MoveConstructKeepsInv` | include/Finally.hpp:24-26 | a move construction keeps each function in exactly one place: owned once, called once, or dropped once |
| `Finalizer.MoveAssignKeepsInv` | include/Finally.hpp:27-31 | a move assignment keeps that invariant; the target's old function moves to the dropped list |
| `Finalizer.DestructKeepsInv` | include/Finally.hpp:13-18 | a destruction keeps that invariant; the token's function moves to the called list |
| `Finalizer.ApplyKeepsInv` | include/Finally.hpp:10-33 | every creation, move and destruction keeps that invariant (there is no copy event: copying is deleted) |
| `Finalizer.RunKeepsInv` | include/Finally.hpp:13-33 | every possible sequence of creations, moves and destructions, from any world where the invariant holds, keeps it |
| `Finalizer.AtMostOnce` | include/Finally.hpp:13-33 | across any sequence of creations, moves and destructions, no function is called twice and none is both called and dropped |
| `Finalizer.CalledUnlessDropped` | include/Finally.hpp:13-31 | once no token is left, every function passed to `finally` has been called, unless a move assignment dropped it |
| `LoggingSpawn.CoroLogStringPusher.constructor` | include/logging/spawn.hpp:29-33 | the label is appended at the end of the current coroutine's stack |
| `LoggingSpawn.CoroLogStringPusher.Destroy` | include/logging/spawn.hpp:34-37 | the destructor removes exactly the last label of a non-empty stack |
| `LoggingSpawn.PushPopRestores` | include/logging/spawn.hpp:29-37 | push then pop gives back the stack, and the store as before apart from the entry `get()` creates |
| `LoggingSpawn.PopNeverEmpty` | include/logging/spawn.hpp:34-37 | at the end of a scope around a well-formed body, the stack is the one before plus the scope's label, so `pop_back` never meets an empty vector |
| `LoggingSpawn.NestedPushOrder` | include/logging/spawn.hpp:29-33 | a log record inside nested scopes carries the enclosing stack followed by the labels in push order, outermost first |
| `LoggingSpawn.CoroLogStringStack.constructor` | include/logging/spawn.hpp:46-50 | the current stack is saved, and the given stack becomes the current one |
| `LoggingSpawn.CoroLogStringStack.Destroy` | include/logging/spawn.hpp:51-54 | the destructor puts the saved stack back, whatever the current one is |
| `LoggingSpawn.WithStackRestores` | include/logging/spawn.hpp:46-54 | after a stack-swap block the stack is what it was before construction, whatever the block did, and no other entry changed |
| `LoggingSpawn.WithStackInstallsAndRestores` | include/logging/spawn.hpp:46-54 | inside the block a log record carries the installed stack; afterwards the stack is the old one |
| `LoggingSpawn.GetCoroSpecificLogStrStack` | include/logging/spawn.hpp:60-62 | returns (by value) the current stack; its only effect is the entry `get()` may create |
| `LoggingSpawn.GetCoroSpecificLogStr` | src/logging/spawn.cpp:12-16 | returns the current stack joined with single spaces; its only effect is the entry `get()` may create |
| `LoggingSpawn.LogFirst` | src/logging/spawn.cpp:12-16 | a log record at the start of a body carries the stack the body starts with |
| `LoggingSpawn.Holder.constructor` | include/logging/spawn.hpp:74-76 | the holder is built in the parent and snapshots the parent's current stack |
| `LoggingSpawn.Holder.Run` | include/logging/spawn.hpp:77-83 | the child's entry becomes the snapshot and the body runs as `RunHolder` says. The entry is then erased through `finally`, whether the body returned or threw, so the store ends as it started |
| `LoggingSpawn.SpawnLeavesNoEntry` | include/logging/spawn.hpp:77-83 | after a spawned coroutine runs (with any nesting of scopes and spawns, returning or throwing), the store is exactly as before, size included |
| `LoggingSpawn.SpawnInheritsSnapshot` | include/logging/spawn.hpp:74-82 | the child first sees the parent's stack at spawn time; afterwards the parent's stack is unchanged, whatever the child pushed |
| `LoggingSpawn.Exec` | include/logging/spawn.hpp:27-58 | the outcome of a body in one coroutine: no more context strings are logged than the body has log records (statements after a throw add none) |
| `LoggingSpawn.Step` | include/logging/spawn.hpp:27-58 | the outcome of one scope, stack swap, spawn, log record or throw: no more context strings than its log records |
| `LoggingSpawn.RunHolder` | include/logging/spawn.hpp:77-83 | `Holder::operator()`: afterwards the child has no entry, whatever the body did, and no more context strings are logged than the body has log records |
| `LoggingSpawn.ExecRestores` | include/logging/spawn.hpp:27-83 | a well-formed body leaves the store as it found it, apart from the running coroutine's lazily created empty entry: the coroutine's own stack is back, other entries are untouched, and spawned coroutines are erased |
| `LoggingSpawn.StepRestores` | include/logging/spawn.hpp:27-83 | the same holds for each single statement: scope, stack swap, spawn, log record or throw |
| `LoggingSpawn.ExecBlock` | include/logging/spawn.hpp:27-58 | running a body with the RAII classes produces exactly the store, exception flag and log strings `Exec` gives |
| `LoggingSpawn.ExecStmt` | include/logging/spawn.hpp:27-58 | running one statement with the RAII classes produces exactly what `Step` gives |
| `LoggingSpawn.PostHolder.constructor` | include/logging/spawn.hpp:116-118 | the holder is built by the poster and snapshots the poster's current stack |
| `LoggingSpawn.PostHolder.Run` | include/logging/spawn.hpp:119-124 | the callback runs with the captured stack installed; afterwards the runner's stack and every other entry are as before |
| `LoggingSpawn.PassedToChildScenario` | test/loggingSpawn/spawnTest.cpp:203-234 | with "a" pushed outside, a child pushing "b" and a grandchild pushing "c" log "a", "a b", "a b", "a b c", "a b", and only the ambient entry remains |

## Left out

- Boost.Asio is not modelled: `boost::asio::spawn`, `io_service`,
  `strand`, `yield_context`, and the `async_result_init` plumbing of
  `logging::post` (include/logging/spawn.hpp:88-104, 129-138). A spawned
  body runs to completion at the point of the spawn. That is what a strand
  dispatch does when the spawner already runs inside the `io_service`.
  Interleaving a child with its parent is not modelled.
- `PostHolder.Run` is called directly with the id of whoever runs the
  posted handler. The handler queue is not modelled.
- The current coroutine id is a parameter: `this_coro::get_id` is declared
  in `aim/asio/spawn.hpp`, which is not part of this model. We assume, and
  do not prove, that the id stays the same across suspensions and differs
  from every running coroutine's id. `WellFormed` states the second
  assumption for spawned children.
- `WellFormed`, together with the requirement that the store's keys are among
  the live ids, assumes more than distinct ids: a newly spawned child's id
  has no entry at all. The code would overwrite and then erase a stale entry
  for that id, for example one left by a coroutine started with plain
  `boost::asio::spawn` that logged. `SpawnLeavesNoEntry`'s "store exactly as
  before" depends on this assumption.
- `Finalizer.Finally`: the ghost `invocations` counts calls per object and
  starts again at 0 in a move. That no function is called twice across moves
  is proved on `World` (`AtMostOnce`), and no lemma links the class's steps
  to `World` transitions.
- Suspension and resumption: nothing in the model suspends. The store is
  keyed by id, so a stack found after a resume is the one left before it.
- The store's mutex, and the fact that `get()` hands out a reference after
  the lock is released, are concurrency matters. The multi-threaded test is
  not modelled either. The store is used sequentially.
- `get()` returns a reference. The model splits writing through it into
  `Get` and `Put`. `Put` stands for `get() = value`; `Get` followed by
  `Put` stands for `get().emplace_back(...)` and `get().pop_back()`.
- At most one entry per id needs no lemma: the store is a Dafny `map`.
- `getCoroSpecificLogStrStack` returning a copy needs no lemma either. A
  stack is a sequence value, so later pushes cannot change a value already
  returned.
- An exception thrown by a spawned coroutine's body still triggers the
  child's `finally` (modelled). The model then drops it at the spawn rather
  than following Boost.Asio's delivery of it.
- `LoggingSpawn.CoroLogStringPusher.Destroy` requires a non-empty stack,
  because `pop_back` on an empty vector is undefined behaviour.
  `PopNeverEmpty` shows that well-formed bodies meet this requirement.
- The copy that `Holder` and `PostHolder` make of the user function, and
  the moved-from state of vectors after `std::move`, are not modelled.
  Values are copied.
- Boost.Log wiring is foreign-library calls and I/O:
  `addCoroSpecificLogAttribute`, `initDefaultFileLogger`,
  `initDefaultStreamLogger`, `setClass`, `setComment`,
  `defaultLogExpression`, include/testutil/TestLogSink.hpp and
  include/testutil/checkEqualRanges.hpp.
- `operator<<` returns the stream; the model gives the printed text
  (`Render`).
