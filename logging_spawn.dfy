/**
 * The per-coroutine logging context of include/logging/spawn.hpp and
 * src/logging/spawn.cpp.
 *
 * The global `logging::detail::stack` is a `CoroSpecificStorage` from
 * coroutine id to a vector of labels (the context stack, outermost label
 * first).  The RAII classes push and pop labels or swap a whole stack in and
 * out; `Holder` and `PostHolder` carry a snapshot of the stack into a
 * spawned coroutine or a posted callback.
 *
 * The user function that `Holder` and `PostHolder` run is given as a small
 * statement language, `Stmt`, built from exactly these operations.  Its
 * meaning is the function `Exec`; the methods `ExecBlock`, `ExecStmt`,
 * `Holder.Run` and `PostHolder.Run` perform it with the RAII classes on the
 * store and are proved to agree with `Exec`.
 */
module LoggingSpawn {
  import opened Storage
  import opened LogString
  import opened Finalizer

  type LogStack = seq<string>
  type Datas = map<CoroId, LogStack>
  type LogStore = CoroSpecificStorage<LogStack>

  /** The stack that `stack.get()` yields for `id`: its entry, or the empty
      vector `get()` would create. */
  function Current(datas: Datas, id: CoroId): LogStack
  {
    if id in datas then datas[id] else []
  }

  /** The store after a `stack.get()` for `id` that changes nothing through the reference. */
  function Touched(datas: Datas, id: CoroId): Datas
  {
    GetOrCreate(datas, id, [])
  }

  /** The store after `stack.get().emplace_back(text)`. */
  function Pushed(datas: Datas, id: CoroId, text: string): Datas
  {
    datas[id := Current(datas, id) + [text]]
  }

  /** All but the last label.  (`pop_back` on an empty vector is undefined
      behaviour; `PopNeverEmpty` shows that it does not happen.) */
  function DropLast(stack: LogStack): LogStack
  {
    if |stack| == 0 then [] else stack[..|stack| - 1]
  }

  /** The store after `stack.get().pop_back()`. */
  function Popped(datas: Datas, id: CoroId): Datas
  {
    datas[id := DropLast(Current(datas, id))]
  }

  /** Push then pop gives back the stack, and the store as it was apart from
      the entry `get()` creates. */
  lemma PushPopRestores(datas: Datas, id: CoroId, text: string)
    ensures Current(Pushed(datas, id, text), id) == Current(datas, id) + [text]
    ensures Popped(Pushed(datas, id, text), id) == Touched(datas, id)
  {
    assert DropLast(Current(datas, id) + [text]) == Current(datas, id);
  }

  // ---------------------------------------------------------------------
  // The RAII classes of spawn.hpp.  Each object remembers the store and the
  // coroutine it was created in; its destructor runs in the same coroutine,
  // since a coroutine's id does not change while it runs.

  /** `CoroLogStringPusher` (`LOGGING_SCOPED_CORO_STR`). */
  class CoroLogStringPusher {
    const store: LogStore
    const id: CoroId

    /** Appends `text` at the end of the current coroutine's stack. */
    constructor (store: LogStore, id: CoroId, text: string)
      requires store.defaultData == []
      modifies store
      ensures this.store == store && this.id == id
      ensures store.datas == Pushed(old(store.datas), id, text)
      ensures Current(store.datas, id) == Current(old(store.datas), id) + [text]
    {
      this.store := store;
      this.id := id;
      new;
      var stack := store.Get(id);
      store.Put(id, stack + [text]);
    }

    /** The destructor: removes the last label.  The stack must not be empty. */
    method Destroy()
      requires store.defaultData == []
      requires |Current(store.datas, id)| > 0
      modifies store
      ensures store.datas == Popped(old(store.datas), id)
      ensures Current(old(store.datas), id) == Current(store.datas, id) + [Current(old(store.datas), id)[|Current(old(store.datas), id)| - 1]]
    {
      var stack := store.Get(id);
      store.Put(id, stack[..|stack| - 1]);
    }
  }

  /** `CoroLogStringStack` (`LOGGING_SCOPED_CORO_STR_STACK`). */
  class CoroLogStringStack {
    const store: LogStore
    const id: CoroId
    var oldStack: LogStack

    /** Saves the current stack and installs `newStack` in its place. */
    constructor (store: LogStore, id: CoroId, newStack: LogStack)
      requires store.defaultData == []
      modifies store
      ensures this.store == store && this.id == id
      ensures oldStack == Current(old(store.datas), id)
      ensures store.datas == old(store.datas)[id := newStack]
    {
      this.store := store;
      this.id := id;
      var saved := store.Get(id);
      oldStack := saved;
      new;
      store.Put(id, newStack);
    }

    /** The destructor: puts the saved stack back, whatever the current one is. */
    method Destroy()
      modifies store
      ensures store.datas == old(store.datas)[id := oldStack]
    {
      store.Put(id, oldStack);
    }
  }

  /** `getCoroSpecificLogStrStack()`: a copy of the current stack. */
  method GetCoroSpecificLogStrStack(store: LogStore, id: CoroId) returns (stack: LogStack)
    requires store.defaultData == []
    modifies store
    ensures stack == Current(old(store.datas), id)
    ensures store.datas == Touched(old(store.datas), id)
  {
    stack := store.Get(id);
  }

  /** `getCoroSpecificLogStr()`: the current stack joined with single spaces.
      Its only effect on the store is the entry `get()` may create. */
  method GetCoroSpecificLogStr(store: LogStore, id: CoroId) returns (text: string)
    requires store.defaultData == []
    modifies store
    ensures text == Join(Current(old(store.datas), id))
    ensures store.datas == Touched(old(store.datas), id)
  {
    var stack := store.Get(id);
    text := Join(stack);
  }

  // ---------------------------------------------------------------------
  // What a coroutine body or a posted callback does with the context.

  datatype Stmt =
    | Scoped(text: string, body: seq<Stmt>)        // { LOGGING_SCOPED_CORO_STR(text); body }
    | WithStack(stack: LogStack, body: seq<Stmt>)  // { LOGGING_SCOPED_CORO_STR_STACK(stack); body }
    | SpawnTask(child: CoroId, body: seq<Stmt>)    // logging::spawn(..., body), `child` being the new coroutine
    | Log                                          // a log record reads getCoroSpecificLogStr()
    | Throw                                        // an exception leaves the body

  function Size(s: Stmt): nat
  {
    match s
    case Scoped(_, body) => 1 + SizeOf(body)
    case WithStack(_, body) => 1 + SizeOf(body)
    case SpawnTask(_, body) => 1 + SizeOf(body)
    case Log => 1
    case Throw => 1
  }

  function SizeOf(ss: seq<Stmt>): nat
  {
    if ss == [] then 0 else Size(ss[0]) + SizeOf(ss[1..])
  }

  /** The number of log records in `ss`, spawned bodies included. */
  function LogsOf(ss: seq<Stmt>): nat
    decreases SizeOf(ss), 1
  {
    if ss == [] then 0 else LogsIn(ss[0]) + LogsOf(ss[1..])
  }

  function LogsIn(s: Stmt): nat
    decreases Size(s), 0
  {
    match s
    case Scoped(_, body) => LogsOf(body)
    case WithStack(_, body) => LogsOf(body)
    case SpawnTask(_, body) => LogsOf(body)
    case Log => 1
    case Throw => 0
  }

  /** The store after running a body, whether it threw, and the context
      strings its log records carried, in order. */
  datatype Outcome = Outcome(datas: Datas, threw: bool, logs: seq<string>)

  /** Running `ss` in coroutine `id`: statements run in order until one
      throws.  Every context string logged comes from a log record of `ss`. */
  function Exec(datas: Datas, id: CoroId, ss: seq<Stmt>): (r: Outcome)
    ensures |r.logs| <= LogsOf(ss)
    decreases SizeOf(ss), 2
  {
    if ss == [] then Outcome(datas, false, [])
    else
      var first := Step(datas, id, ss[0]);
      if first.threw then first
      else
        var rest := Exec(first.datas, id, ss[1..]);
        Outcome(rest.datas, rest.threw, first.logs + rest.logs)
  }

  /** Running one statement.  A scope's destructor runs whether its body
      returns or throws; the model drops a spawned coroutine's exception at
      the spawn (see README, Left out). */
  function Step(datas: Datas, id: CoroId, s: Stmt): (r: Outcome)
    ensures |r.logs| <= LogsIn(s)
    decreases Size(s), 1
  {
    match s
    case Scoped(text, body) =>
      var inner := Exec(Pushed(datas, id, text), id, body);
      Outcome(Popped(inner.datas, id), inner.threw, inner.logs)
    case WithStack(stack, body) =>
      var inner := Exec(datas[id := stack], id, body);
      Outcome(inner.datas[id := Current(datas, id)], inner.threw, inner.logs)
    case SpawnTask(child, body) =>
      var task := RunHolder(Touched(datas, id), Current(datas, id), child, body);
      Outcome(task.datas, false, task.logs)
    case Log => Outcome(Touched(datas, id), false, [Join(Current(datas, id))])
    case Throw => Outcome(datas, true, [])
  }

  /** `Holder::operator()` in coroutine `child`: the child's stack becomes the
      parent's snapshot, the body runs, and the child's entry is erased. */
  function RunHolder(datas: Datas, parentLogStrings: LogStack, child: CoroId, body: seq<Stmt>): (r: Outcome)
    ensures child !in r.datas
    ensures |r.logs| <= LogsOf(body)
    decreases SizeOf(body), 3
  {
    var inner := Exec(datas[child := parentLogStrings], child, body);
    Outcome(Erased(inner.datas, child), inner.threw, inner.logs)
  }

  /** Every spawned coroutine has a non-empty id that differs from every id
      in `live` (the running coroutines and the entries of the store), and
      the same holds inside it with its own id added. */
  predicate WellFormed(ss: seq<Stmt>, live: set<CoroId>)
    decreases SizeOf(ss), 1
  {
    ss == [] || (StmtWellFormed(ss[0], live) && WellFormed(ss[1..], live))
  }

  predicate StmtWellFormed(s: Stmt, live: set<CoroId>)
    decreases Size(s), 0
  {
    match s
    case Scoped(_, body) => WellFormed(body, live)
    case WithStack(_, body) => WellFormed(body, live)
    case SpawnTask(child, body) => child.Coro? && child !in live && WellFormed(body, live + {child})
    case Log => true
    case Throw => true
  }

  /** The store is as it was, except that coroutine `id` may have gained the
      empty entry that `get()` creates lazily. */
  predicate Restored(before: Datas, after: Datas, id: CoroId)
  {
    after == before || after == Touched(before, id)
  }

  /** A well-formed body leaves the store as it found it, apart from the lazily
      created entry of the running coroutine: its own stack is back to what it
      was, every other entry is untouched, and every coroutine it spawned has
      been erased -- also when it throws. */
  lemma {:induction false} ExecRestores(datas: Datas, id: CoroId, ss: seq<Stmt>, live: set<CoroId>)
    requires id in live && datas.Keys <= live && WellFormed(ss, live)
    ensures Restored(datas, Exec(datas, id, ss).datas, id)
    decreases SizeOf(ss), 2
  {
    if ss != [] {
      StepRestores(datas, id, ss[0], live);
      var first := Step(datas, id, ss[0]);
      if !first.threw {
        ExecRestores(first.datas, id, ss[1..], live);
      }
    }
  }

  lemma {:induction false} StepRestores(datas: Datas, id: CoroId, s: Stmt, live: set<CoroId>)
    requires id in live && datas.Keys <= live && StmtWellFormed(s, live)
    ensures Restored(datas, Step(datas, id, s).datas, id)
    decreases Size(s), 1
  {
    match s
    case Scoped(text, body) =>
      ExecRestores(Pushed(datas, id, text), id, body, live);
      PushPopRestores(datas, id, text);
    case WithStack(stack, body) =>
      ExecRestores(datas[id := stack], id, body, live);
    case SpawnTask(child, body) =>
      SpawnLeavesNoEntry(Touched(datas, id), Current(datas, id), child, body, live + {child});
    case Log =>
    case Throw =>
  }

  /** `Holder` leaves no entry behind: after the spawned coroutine has run,
      returned or thrown, the store is exactly as before, so its size is too. */
  lemma {:induction false} SpawnLeavesNoEntry(datas: Datas, parentLogStrings: LogStack, child: CoroId,
                                              body: seq<Stmt>, live: set<CoroId>)
    requires child in live && child !in datas && datas.Keys <= live && WellFormed(body, live)
    ensures RunHolder(datas, parentLogStrings, child, body).datas == datas
    ensures |RunHolder(datas, parentLogStrings, child, body).datas| == |datas|
    decreases SizeOf(body), 3
  {
    ExecRestores(datas[child := parentLogStrings], child, body, live);
  }

  /** Inside a scope the stack has one more label, so the scope's `pop_back`
      never meets an empty vector. */
  lemma PopNeverEmpty(datas: Datas, id: CoroId, text: string, body: seq<Stmt>, live: set<CoroId>)
    requires id in live && datas.Keys <= live && WellFormed(body, live)
    ensures Current(Exec(Pushed(datas, id, text), id, body).datas, id) == Current(datas, id) + [text]
  {
    ExecRestores(Pushed(datas, id, text), id, body, live);
  }

  /** Nested scopes: a log record inside scopes `labels[0]`, ..., `labels[n-1]`
      carries the enclosing stack followed by those labels in push order. */
  function Nested(labels: seq<string>, inner: seq<Stmt>): seq<Stmt>
  {
    if labels == [] then inner else [Scoped(labels[0], Nested(labels[1..], inner))]
  }

  lemma {:induction false} NestedPushOrder(datas: Datas, id: CoroId, labels: seq<string>)
    ensures Exec(datas, id, Nested(labels, [Log])).logs == [Join(Current(datas, id) + labels)]
    ensures !Exec(datas, id, Nested(labels, [Log])).threw
    decreases labels
  {
    if labels == [] {
      assert Current(datas, id) + labels == Current(datas, id);
    } else {
      var pushed := Pushed(datas, id, labels[0]);
      NestedPushOrder(pushed, id, labels[1..]);
      assert Current(pushed, id) + labels[1..] == Current(datas, id) + labels;
    }
  }

  /** A log record at the start of a body carries the stack the body starts with. */
  lemma LogFirst(datas: Datas, id: CoroId, body: seq<Stmt>)
    ensures var r := Exec(datas, id, [Log] + body);
            && |r.logs| > 0 && r.logs[0] == Join(Current(datas, id))
            && r == (var rest := Exec(Touched(datas, id), id, body); Outcome(rest.datas, rest.threw, [Join(Current(datas, id))] + rest.logs))
  {
    assert ([Log] + body)[0] == Log && ([Log] + body)[1..] == body;
  }

  /** A spawned coroutine starts with a copy of its parent's stack, and the
      parent's stack is the same after the spawn, whatever the child pushed. */
  lemma SpawnInheritsSnapshot(datas: Datas, id: CoroId, child: CoroId, body: seq<Stmt>)
    requires StmtWellFormed(SpawnTask(child, body), datas.Keys + {id})
    ensures var r := Step(datas, id, SpawnTask(child, [Log] + body));
            && |r.logs| > 0 && r.logs[0] == Join(Current(datas, id))
            && r.datas == Touched(datas, id)
            && Current(r.datas, id) == Current(datas, id)
  {
    var live := datas.Keys + {id} + {child};
    var start := Touched(datas, id)[child := Current(datas, id)];
    LogFirst(start, child, body);
    assert Current(start, child) == Current(datas, id);
    assert WellFormed([Log] + body, live) by {
      assert ([Log] + body)[0] == Log && ([Log] + body)[1..] == body;
    }
    SpawnLeavesNoEntry(Touched(datas, id), Current(datas, id), child, [Log] + body, live);
  }

  /** After a `CoroLogStringStack` block the running coroutine's stack is the
      one from before, whatever the block did, and nothing else changed. */
  lemma WithStackRestores(datas: Datas, id: CoroId, stack: LogStack, body: seq<Stmt>, live: set<CoroId>)
    requires id in live && datas.Keys <= live && WellFormed(body, live)
    ensures Step(datas, id, WithStack(stack, body)).datas == datas[id := Current(datas, id)]
  {
    ExecRestores(datas[id := stack], id, body, live);
  }

  /** While a `CoroLogStringStack` is alive the context is the installed
      stack; afterwards it is the one from before. */
  lemma WithStackInstallsAndRestores(datas: Datas, id: CoroId, stack: LogStack, body: seq<Stmt>)
    requires WellFormed(body, datas.Keys + {id})
    ensures var r := Step(datas, id, WithStack(stack, [Log] + body));
            && |r.logs| > 0 && r.logs[0] == Join(stack)
            && Current(r.datas, id) == Current(datas, id)
            && Restored(datas, r.datas, id)
  {
    LogFirst(datas[id := stack], id, body);
    assert WellFormed([Log] + body, datas.Keys + {id}) by {
      assert ([Log] + body)[0] == Log && ([Log] + body)[1..] == body;
    }
    WithStackRestores(datas, id, stack, [Log] + body, datas.Keys + {id});
  }

  // The scenario of test/loggingSpawn/spawnTest.cpp:203-234: "a" is pushed
  // outside any coroutine, a child pushes "b" and spawns a grandchild that
  // pushes "c".

  const GrandchildBody: seq<Stmt> := [Log, Scoped("c", [Log])]
  const ChildScopeBody: seq<Stmt> := [Log, SpawnTask(Coro(2), GrandchildBody), Log]
  const ChildBody: seq<Stmt> := [Log, Scoped("b", ChildScopeBody)]
  const MainBody: seq<Stmt> := [Scoped("a", [SpawnTask(Coro(1), ChildBody)])]

  lemma ScenarioJoins()
    ensures Join(["a"]) == "a" && Join(["a", "b"]) == "a b" && Join(["a", "b", "c"]) == "a b c"
  {
    JoinSmall("a", "b");
    JoinPush(["a", "b"], "c");
    assert ["a", "b"] + ["c"] == ["a", "b", "c"];
    assert "a" + " " + "b" == "a b" && "a b" + " " + "c" == "a b c";
  }

  lemma ScenarioGrandchild(e: Datas)
    requires Coro(2) in e && e[Coro(2)] == ["a", "b"]
    ensures Exec(e, Coro(2), GrandchildBody) == Outcome(e, false, ["a b", "a b c"])
  {
    ScenarioJoins();
    assert Nested(["c"], [Log]) == [Scoped("c", [Log])];
    NestedPushOrder(e, Coro(2), ["c"]);
    ExecRestores(e, Coro(2), [Scoped("c", [Log])], e.Keys);
    LogFirst(e, Coro(2), [Scoped("c", [Log])]);
    assert GrandchildBody == [Log] + [Scoped("c", [Log])];
    assert Touched(e, Coro(2)) == e;
    assert Current(e, Coro(2)) + ["c"] == ["a", "b", "c"];
  }

  lemma ScenarioChildScope(d: Datas)
    requires Coro(1) in d && d[Coro(1)] == ["a", "b"] && Coro(2) !in d
    ensures Exec(d, Coro(1), ChildScopeBody) == Outcome(d, false, ["a b", "a b", "a b c", "a b"])
  {
    ScenarioJoins();
    ScenarioGrandchild(d[Coro(2) := ["a", "b"]]);
    assert d[Coro(2) := ["a", "b"]] - {Coro(2)} == d;
    assert Step(d, Coro(1), SpawnTask(Coro(2), GrandchildBody)) == Outcome(d, false, ["a b", "a b c"]);
    LogFirst(d, Coro(1), []);
    assert [SpawnTask(Coro(2), GrandchildBody), Log][1..] == [Log];
    assert Exec(d, Coro(1), [SpawnTask(Coro(2), GrandchildBody), Log]) == Outcome(d, false, ["a b", "a b c", "a b"]);
    LogFirst(d, Coro(1), [SpawnTask(Coro(2), GrandchildBody), Log]);
    assert ChildScopeBody == [Log] + [SpawnTask(Coro(2), GrandchildBody), Log];
  }

  lemma ScenarioChild(d: Datas)
    requires Coro(1) in d && d[Coro(1)] == ["a"] && Coro(2) !in d
    ensures Exec(d, Coro(1), ChildBody) == Outcome(d, false, ["a", "a b", "a b", "a b c", "a b"])
  {
    ScenarioJoins();
    assert ["a"] + ["b"] == ["a", "b"];
    var pushed := Pushed(d, Coro(1), "b");
    ScenarioChildScope(pushed);
    assert Popped(pushed, Coro(1)) == d;
    assert Exec(d, Coro(1), [Scoped("b", ChildScopeBody)]) == Outcome(d, false, ["a b", "a b", "a b c", "a b"]);
    LogFirst(d, Coro(1), [Scoped("b", ChildScopeBody)]);
    assert ChildBody == [Log] + [Scoped("b", ChildScopeBody)];
  }

  /** Each coroutine of the scenario sees the stack inherited from its parent
      plus its own labels, and the store ends with only the ambient entry. */
  lemma PassedToChildScenario()
    ensures Exec(map[], NoCoro, MainBody) == Outcome(map[NoCoro := []], false, ["a", "a b", "a b", "a b c", "a b"])
  {
    var m1: Datas := map[NoCoro := ["a"]];
    ScenarioChild(m1[Coro(1) := ["a"]]);
    assert m1[Coro(1) := ["a"]] - {Coro(1)} == m1;
    assert Touched(m1, NoCoro) == m1 && Current(m1, NoCoro) == ["a"];
    assert Step(m1, NoCoro, SpawnTask(Coro(1), ChildBody)) == Outcome(m1, false, ["a", "a b", "a b", "a b c", "a b"]);
    assert [SpawnTask(Coro(1), ChildBody)][1..] == [];
    assert Exec(m1, NoCoro, [SpawnTask(Coro(1), ChildBody)]) == Outcome(m1, false, ["a", "a b", "a b", "a b c", "a b"]);
    assert Current(map[], NoCoro) + ["a"] == ["a"];
    assert Pushed(map[], NoCoro, "a") == m1;
    assert Popped(m1, NoCoro) == map[NoCoro := []];
  }

  // ---------------------------------------------------------------------
  // Running bodies on the store with the RAII classes.

  /** Runs `ss` in coroutine `id`, exactly as `Exec` says. */
  method ExecBlock(store: LogStore, id: CoroId, ss: seq<Stmt>, ghost live: set<CoroId>)
    returns (threw: bool, logs: seq<string>)
    requires store.defaultData == []
    requires id in live && store.datas.Keys <= live && WellFormed(ss, live)
    modifies store
    ensures var r := Exec(old(store.datas), id, ss);
            store.datas == r.datas && threw == r.threw && logs == r.logs
    decreases SizeOf(ss), 2
  {
    if ss == [] {
      return false, [];
    }
    StepRestores(store.datas, id, ss[0], live);
    threw, logs := ExecStmt(store, id, ss[0], live);
    if !threw {
      var restThrew, restLogs := ExecBlock(store, id, ss[1..], live);
      threw, logs := restThrew, logs + restLogs;
    }
  }

  /** Runs one statement in coroutine `id`, exactly as `Step` says. */
  method ExecStmt(store: LogStore, id: CoroId, s: Stmt, ghost live: set<CoroId>)
    returns (threw: bool, logs: seq<string>)
    requires store.defaultData == []
    requires id in live && store.datas.Keys <= live && StmtWellFormed(s, live)
    modifies store
    ensures var r := Step(old(store.datas), id, s);
            store.datas == r.datas && threw == r.threw && logs == r.logs
    decreases Size(s), 1
  {
    match s
    case Scoped(text, body) =>
      PopNeverEmpty(store.datas, id, text, body, live);
      var raii := new CoroLogStringPusher(store, id, text);
      threw, logs := ExecBlock(store, id, body, live);
      raii.Destroy();
    case WithStack(stack, body) =>
      var raii := new CoroLogStringStack(store, id, stack);
      threw, logs := ExecBlock(store, id, body, live);
      raii.Destroy();
    case SpawnTask(child, body) =>
      var holder := new Holder(store, id, body);
      var childThrew;
      childThrew, logs := holder.Run(child, live + {child});
      threw := false;
    case Log =>
      var text := GetCoroSpecificLogStr(store, id);
      threw, logs := false, [text];
    case Throw =>
      threw, logs := true, [];
  }

  /** The function `finally` runs at the end of `Holder::operator()`: erase
      the current coroutine's entry. */
  datatype Cleanup = EraseCurrentEntry

  /** `detail::Holder`, the wrapper `logging::spawn` hands to `boost::asio::spawn`. */
  class Holder {
    const store: LogStore
    const body: seq<Stmt>
    const parentLogStrings: LogStack

    /** Built in the spawning coroutine: snapshots its stack (by copy). */
    constructor (store: LogStore, parent: CoroId, body: seq<Stmt>)
      requires store.defaultData == []
      modifies store
      ensures this.store == store && this.body == body
      ensures parentLogStrings == Current(old(store.datas), parent)
      ensures store.datas == Touched(old(store.datas), parent)
    {
      this.store := store;
      this.body := body;
      var snapshot := store.Get(parent);
      parentLogStrings := snapshot;
    }

    /** `operator()(yield)`, run as coroutine `child`. */
    method Run(child: CoroId, ghost live: set<CoroId>) returns (threw: bool, logs: seq<string>)
      requires store.defaultData == []
      requires child in live && child !in store.datas && store.datas.Keys <= live && WellFormed(body, live)
      modifies store
      ensures var r := RunHolder(old(store.datas), parentLogStrings, child, body);
              store.datas == r.datas && threw == r.threw && logs == r.logs
      ensures store.datas == old(store.datas)
      decreases SizeOf(body), 3
    {
      SpawnLeavesNoEntry(store.datas, parentLogStrings, child, body, live);
      store.Put(child, parentLogStrings);
      var f := MakeFinally(EraseCurrentEntry);
      threw, logs := ExecBlock(store, child, body, live);
      var fired := f.Destroy();
      if fired.Some? {
        store.Erase(child);
      }
    }
  }

  /** `detail::PostHolder`, the wrapper `logging::post` hands to the scheduler. */
  class PostHolder {
    const store: LogStore
    const body: seq<Stmt>
    const parentLogStrings: LogStack

    /** Built by the posting coroutine: snapshots its stack (by copy). */
    constructor (store: LogStore, poster: CoroId, body: seq<Stmt>)
      requires store.defaultData == []
      modifies store
      ensures this.store == store && this.body == body
      ensures parentLogStrings == Current(old(store.datas), poster)
      ensures store.datas == Touched(old(store.datas), poster)
    {
      this.store := store;
      this.body := body;
      var snapshot := store.Get(poster);
      parentLogStrings := snapshot;
    }

    /** `operator()()`, run later by whatever runs posted handlers, seen as
        `runner` (the empty id outside coroutines): the callback runs under
        the captured stack, and the runner's stack is then put back. */
    method Run(runner: CoroId, ghost live: set<CoroId>) returns (threw: bool, logs: seq<string>)
      requires store.defaultData == []
      requires runner in live && store.datas.Keys <= live && WellFormed(body, live)
      modifies store
      ensures var r := Step(old(store.datas), runner, WithStack(parentLogStrings, body));
              store.datas == r.datas && threw == r.threw && logs == r.logs
      ensures Restored(old(store.datas), store.datas, runner)
    {
      StepRestores(store.datas, runner, WithStack(parentLogStrings, body), live);
      var raii := new CoroLogStringStack(store, runner, parentLogStrings);
      threw, logs := ExecBlock(store, runner, body, live);
      raii.Destroy();
    }
  }
}
