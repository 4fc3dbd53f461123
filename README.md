# ispawn: a Dafny model of the type-erased local spawner

`ispawn` hides any single-threaded async executor behind one handle, a
`LocalSpawner`. The handle pairs an opaque pointer with a static table of four
functions: `spawn_dyn`, `finish_spawn`, `on_clone` and `on_drop`. A spawn runs
in two phases. First the adapter allocates storage for the future's layout.
Then the generic caller writes the future into that storage and registers it
through the table. This project models that protocol and the four adapters
(tokio `LocalSet`, futures-executor `LocalSpawner`, async-executor
`LocalExecutor`, dioxus) as a small sequential state machine, and proves what
the code promises about it.

Modules:

- `Core` (`core.dfy`): the types of `src/lib.rs`. It holds `SpawnError` and the
  `Result<()>` type, a `Layout` abstracted to a type tag, task storage as a
  `Block` object, and the `*mut dyn Future` fat pointer as `DynFuture`
  (storage plus the vtable's type). It also holds a native executor's queue
  (`Executor`) and an `Rc` allocation (`RcCell`: strong count, and a count of
  how often the held executor was destroyed). Finally it has the opaque
  `Handle` (null or an `Rc` pointer), the four-slot `Vtable`,
  `LocalSpawnerVtable::get`, and `SpawnCompleterBuilder::build`.
- `Tokio`, `FuturesExecutor`, `AsyncExecutor`, `Dioxus`: one module per
  adapter file, each holding the operations of its `IntoLocalSpawner` impl.
- `Spawner` (`spawner.dfy`): `LocalSpawner::{new, spawn}`, `Clone`, `Drop`,
  `SpawnCompleter::spawn`, and the calls through the table's slots. The
  `Core`/`Spawner` split of `src/lib.rs` is there because Dafny modules cannot
  import each other in a cycle: the adapters need `build`, and the spawner
  needs the adapters.
- `Scenarios` (`scenarios.dfy`): situations played out on executors each
  method creates itself. Two come from the crate's tests.
  `SpawnEach` follows test_tokio_executor, test_futures_executor and
  test_async_executor; its dioxus case has no test. `DropExecutorBeforeSpawn`
  follows the two drop-before-spawner tests. `CloneThenDropAll`,
  `DioxusLifecycle` and `SpawnAfterShutdown` appear in no test. They state the
  clone/drop pairing of src/lib.rs:103-121 and the error mapping of
  src/futures_executor.rs:31-37.

Modelling choices:

- The generic `T: IntoLocalSpawner` becomes the `AdapterKind` datatype. Each
  table slot records which `T`'s function it holds. A call through a slot
  dispatches on that kind.
- The value given to `LocalSpawner::new` is the `Inner` datatype: one of the
  three `Rc`-wrapped executors, or `DioxusSpawner`.
- Strong-count manipulation becomes methods on `RcCell`.
  `Rc::increment_strong_count` and `Rc::clone` map to `IncrementStrongCount`.
  `drop(Rc::from_raw(..))` and dropping an `Rc` map to `DropStrong`. The
  invariant `RcCell.Valid()` says the held executor has been destroyed once
  exactly when the count is zero, and never otherwise.
- The safety requirement that a handle points at a live `Rc` becomes a
  precondition, `HandleFits`. So does the requirement that `F`'s layout is the
  one that was allocated (src/lib.rs:169-170). `LocalSpawner::spawn` discharges
  that second one from what `spawn_dyn` guarantees.
- dioxus spawns onto a thread-global runtime. That global is an explicit
  parameter, `global`, of `Spawn` and of the calls through the
  `finish_spawn` slot.

## Model

| member | source | states |
|---|---|---|
| `Core.VtableGet` | src/lib.rs:205-214 | the table for `T` has `T`'s `spawn_dyn`, `finish_spawn`, `on_clone` and `on_drop` in its four slots |
| `Core.Build` | src/lib.rs:157-166 | the completer keeps the builder's handle and table unchanged and stores exactly the given task and future pointers |
| `Core.Block.Write` | src/lib.rs:169-173 | writing `f` needs `f`'s layout to be the block's allocation layout; afterwards the block holds `f` |
| `Core.RcCell.IncrementStrongCount` | src/tokio.rs:33-35 | the strong count of a live `Rc` goes up by exactly one; nothing is released |
| `Core.RcCell.DropStrong` | src/tokio.rs:37-41 | the strong count goes down by exactly one; the held executor is destroyed exactly when the count reaches zero |
| `Tokio.IntoHandle` | src/tokio.rs:6-8 | the handle is the `Rc`'s own pointer; no count changes |
| `Tokio.SpawnDyn` | src/tokio.rs:10-18 | one fresh, uninitialised block of the requested layout, used as both task and future pointer; handle and table passed through |
| `Tokio.FinishSpawn` | src/tokio.rs:20-31 | exactly the given task is appended to the queue of the `LocalSet` behind the handle; the result is always `Ok` |
| `Tokio.OnClone` | src/tokio.rs:33-35 | the strong count rises by exactly one |
| `Tokio.OnDrop` | src/tokio.rs:37-41 | the strong count falls by exactly one; the executor is released exactly when it reaches zero |
| `FuturesExecutor.IntoHandle` | src/futures_executor.rs:6-8 | the handle is the `Rc`'s own pointer; no count changes |
| `FuturesExecutor.SpawnDyn` | src/futures_executor.rs:10-18 | one fresh block of the requested layout serves as task and future pointer |
| `FuturesExecutor.MapSpawnError` | src/futures_executor.rs:31-37 | a native error maps to `Shutdown` if and only if it is a shutdown error, and to `Other` otherwise |
| `FuturesExecutor.MapResult` | src/futures_executor.rs:31-37 | the result is `Ok` exactly when the native spawn succeeded; an error is the mapped native error |
| `FuturesExecutor.SpawnLocalObj` | src/futures_executor.rs:30-31 | the native spawn fails, with a shutdown error, exactly when the pool has shut down; otherwise it queues exactly the given task |
| `FuturesExecutor.FinishSpawn` | src/futures_executor.rs:20-38 | `Ok`, with exactly one task registered, if and only if the pool has not shut down; otherwise `Err(Shutdown)` with the queue unchanged |
| `FuturesExecutor.OnClone` | src/futures_executor.rs:40-44 | the strong count rises by exactly one |
| `FuturesExecutor.OnDrop` | src/futures_executor.rs:46-52 | the strong count falls by exactly one; the executor is released exactly when it reaches zero |
| `AsyncExecutor.IntoHandle` | src/async_executor.rs:6-8 | the handle is the `Rc`'s own pointer; no count changes |
| `AsyncExecutor.SpawnDyn` | src/async_executor.rs:10-18 | one fresh block of the requested layout serves as task and future pointer |
| `AsyncExecutor.FinishSpawn` | src/async_executor.rs:20-31 | exactly the given task is registered (and detached) on the executor behind the handle; always `Ok` |
| `AsyncExecutor.OnClone` | src/async_executor.rs:33-37 | the strong count rises by exactly one |
| `AsyncExecutor.OnDrop` | src/async_executor.rs:39-43 | the strong count falls by exactly one; the executor is released exactly when it reaches zero |
| `Dioxus.IntoHandle` | src/dioxus.rs:9-11 | the handle is null and refers to no state |
| `Dioxus.SpawnDyn` | src/dioxus.rs:13-21 | one fresh block of the requested layout serves as task and future pointer |
| `Dioxus.FinishSpawn` | src/dioxus.rs:23-31 | whatever the handle, exactly the given task goes to the global runtime, and the result is always `Ok` |
| `Dioxus.OnClone` | src/dioxus.rs:33 | changes no state: the method has no modifies clause |
| `Dioxus.OnDrop` | src/dioxus.rs:35 | changes no state: the method has no modifies clause |
| `Spawner.New` | src/lib.rs:80-85 | the spawner holds the handle `T::into_handle` returns and `T`'s table |
| `Spawner.CallSpawnDyn` | src/lib.rs:97 | a call through the `spawn_dyn` slot returns a completer over fresh storage of the requested layout, with task pointer equal to future pointer |
| `Spawner.CallFinishSpawn` | src/lib.rs:180-183 | a call through the `finish_spawn` slot registers the task on the handle's executor (or the global runtime) and fails only for a shut-down futures pool, with `Shutdown` |
| `Spawner.CallOnClone` | src/lib.rs:106 | a call through the `on_clone` slot adds one to a shared count and touches nothing for the stateless adapter |
| `Spawner.CallOnDrop` | src/lib.rs:118 | a call through the `on_drop` slot removes one from a shared count and touches nothing for the stateless adapter |
| `Spawner.CompleterSpawn` | src/lib.rs:168-185 | the future storage holds `f`; registration receives the task pointer with `f`'s vtable; `finish_spawn`'s result is returned unchanged |
| `Spawner.Spawn` | src/lib.rs:88-100 | one spawn allocates for `f`'s layout, writes `f` there and registers exactly one fresh task holding `f` when it returns `Ok`, and none on an error; the result is `finish_spawn`'s |
| `Spawner.Clone` | src/lib.rs:103-113 | the clone has the same handle and table; `on_clone` runs exactly once |
| `Spawner.Drop` | src/lib.rs:115-121 | `on_drop` runs exactly once for the dropped spawner |
| `Spawner.Replay` | src/lib.rs:103-121 | over any history in which each clone and drop acts on an existing spawner, the count moves by clones minus drops, and the executor is released, once, exactly when no reference remains |
| `Spawner.CloneThenDropBalanced` | src/lib.rs:103-121 | cloning `n` times and then dropping all `n + 1` spawners is such a history, with `n` clones and `n + 1` drops |
| `Scenarios.CloneThenDropAll` | src/lib.rs:103-121 | by `Replay` over `CloneThenDrop(n)`: with `LocalSpawner::new(ex.clone())`, `n` clones and `n + 1` drops restore the count to `ex`'s one reference with nothing released; dropping `ex` then releases the executor exactly once |
| `Scenarios.DioxusLifecycle` | src/dioxus.rs:33-35 | any disciplined sequence of clones and drops of a dioxus spawner changes no state |
| `Scenarios.DropExecutorBeforeSpawn` | src/tokio.rs:69-80 | after the caller's own `Rc` is dropped, spawning still returns `Ok` and queues the future, because the spawner's reference keeps the executor alive, for tokio and for async-executor (src/async_executor.rs:68-75) |
| `Scenarios.SpawnAfterShutdown` | src/futures_executor.rs:31-37 | spawning after the pool has shut down returns `Err(Shutdown)` and registers nothing |
| `Scenarios.SpawnEach` | src/tokio.rs:48-66 | for every adapter, each of a sequence of spawns returns `Ok` and the queue holds one task per spawn, in order, each holding its own future (also the tests at src/futures_executor.rs:57-73 and src/async_executor.rs:50-65; the dioxus case has no test) |

## Left out

- Raw memory: `alloc::alloc::alloc`, sizes and alignment, and the unchecked
  null return on allocation failure. Storage is an abstract `Block` tagged
  with a layout. A layout is the future's type tag, so two types never share
  one.
- The fat-pointer cast at src/lib.rs:175-183. The `*mut F` step exists only
  to get `F`'s `dyn Future` vtable. It is modelled as `DynFuture(taskPtr,
  f.ty)`. `Holds` states that such a pointer reaches `f`, and `Spawn` proves
  it because every adapter makes the task pointer equal the future pointer.
- `Box::from_raw` / `Box::into_pin` / `LocalFutureObj` conversions in
  `finish_spawn`. The queued `DynFuture` stands for the boxed task. Freeing
  the box when the futures-executor native spawn fails is not modelled.
- Polling and driving futures, and the internals of tokio `LocalSet`,
  async-executor, futures-executor's `LocalPool` and the dioxus runtime.
  Each is an abstract queue (`Executor`). The pool's teardown is a
  `shutdown` flag. tokio's runtime (`drop(rt)` in the test) is not modelled.
  The tests' channels and the value 42 are executor behaviour.
- Ownership moves: `Spawner.New` does not record that the `Rc` passed in is
  moved into the handle. The model counts the reference it carries but keeps
  no linear-ownership bookkeeping.
- `Spawner.Drop`: a dropped spawner value is still a Dafny value. Nothing
  stops a caller from reusing it except that the next `on_drop` or spawn may
  fail `Live`, as the Rust type system would forbid.
- `FuturesExecutor.SpawnLocalObj`: `futures_task::SpawnError` can only be a
  shutdown error, so the `Other` branch of the error mapping is modelled in
  `MapSpawnError` but is never produced by the native spawn.
- tokio's `spawn_local` and async-executor's `spawn` cannot refuse a task
  (src/tokio.rs:28-30, src/async_executor.rs:28-30). So only futures-executor
  ever returns `Shutdown`. For the other adapters a torn-down executor is not
  modelled.
- Feature-flag selection and the `wasm_bindgen` adapter (src/lib.rs:37-62).
  The wasm-bindgen module is not part of this model.
- Core.RcCell.IncrementStrongCount: the strong count is an unbounded `nat`.
  `Rc`'s count is a `usize`, and `Rc::clone` / `Rc::increment_strong_count`
  abort the process on overflow. That abort is not modelled, because no
  realistic history reaches it.
- `!Send`, thread-locality and `'static` lifetimes: type-system and
  concurrency concerns with no counterpart in a sequential model.
