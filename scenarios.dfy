/** The situations the crate's tests exercise, and the clone/drop and error-mapping
    properties of its code, each played out on executors the method creates itself. */
module Scenarios {
  import opened Core
  import opened Spawner

  /** The `Rc`-wrapped value of an adapter kind that shares state. */
  function RcInner(kind: AdapterKind, rc: RcCell): (inner: Inner)
    requires kind != DioxusSpawner
    ensures KindOf(inner) == kind && !inner.DioxusSpawnerValue? && inner.rc == rc
  {
    match kind
    case TokioLocalSet => LocalSetRc(rc)
    case FuturesLocalSpawner => FuturesSpawnerRc(rc)
    case AsyncLocalExecutor => LocalExecutorRc(rc)
  }

  /** `let ex = Rc::new(..); let spawner = LocalSpawner::new(ex.clone());`, then `n` clones
      of the spawner, then all `n + 1` spawners dropped, then `drop(ex)`. Once the spawners
      are gone the count is back to the one reference `ex` holds and nothing has been
      released; dropping `ex` then releases the executor, exactly once. This is `Replay`
      applied to the history `CloneThenDrop(n)`. */
  method CloneThenDropAll(kind: AdapterKind, n: nat)
    returns (countAfterSpawners: nat, releasesAfterSpawners: nat, finalCount: nat, finalReleases: nat)
    requires kind != DioxusSpawner
    ensures countAfterSpawners == 1 && releasesAfterSpawners == 0
    ensures finalCount == 0 && finalReleases == 1
  {
    var native := new Executor();
    var ex := new RcCell(native);
    ex.IncrementStrongCount();
    var spawner := New(RcInner(kind, ex));
    CloneThenDropBalanced(n);
    var live := Replay(spawner, CloneThenDrop(n));
    countAfterSpawners, releasesAfterSpawners := ex.strong, ex.releases;
    ex.DropStrong();
    finalCount, finalReleases := ex.strong, ex.releases;
  }

  /** The stateless adapter: any disciplined history of clones and drops runs without
      touching any state (the method may modify nothing that existed before it). */
  method DioxusLifecycle(ops: seq<LifecycleOp>) returns (live: seq<LocalSpawner>)
    requires Disciplined(ops)
    ensures |live| + Count(ops, DropOp) == 1 + Count(ops, CloneOp)
    ensures forall k :: 0 <= k < |live| ==> live[k] == LocalSpawner(Null, VtableGet(DioxusSpawner))
  {
    var s := New(DioxusSpawnerValue);
    live := Replay(s, ops);
  }

  /** test_tokio_executor_drop_before_spawner and test_async_executor_drop_before_spawner:
      after the caller drops its own `Rc`, spawning through the spawner still succeeds,
      because the spawner's reference keeps the executor alive. */
  method DropExecutorBeforeSpawn(kind: AdapterKind, f: Future)
    returns (r: SpawnResult, queue: seq<DynFuture>, count: nat, releases: nat)
    requires kind == TokioLocalSet || kind == AsyncLocalExecutor
    ensures r == Ok && count == 1 && releases == 0
    ensures |queue| == 1 && Holds(queue[0], f)
  {
    var native := new Executor();
    var ex := new RcCell(native);
    ex.IncrementStrongCount();
    var spawner := New(RcInner(kind, ex));
    ex.DropStrong();
    var global := new Executor();
    r := Spawn(spawner, f, global);
    queue, count, releases := native.queue, ex.strong, ex.releases;
  }

  /** Spawning through a futures-executor spawner after its pool has shut down fails
      with `Shutdown` and registers nothing. */
  method SpawnAfterShutdown(f: Future) returns (r: SpawnResult, queue: seq<DynFuture>)
    ensures r == Err(Shutdown) && queue == []
  {
    var pool := new Executor();
    var rc := new RcCell(pool);
    var spawner := New(FuturesSpawnerRc(rc));
    pool.TearDown();
    var global := new Executor();
    r := Spawn(spawner, f, global);
    queue := pool.queue;
  }

  /** test_tokio_executor, test_futures_executor, test_async_executor and, for the
      stateless adapter, the global runtime: spawning the futures `fs` one after another
      on a running executor succeeds each time and leaves exactly one task per spawn in
      the queue, in order, each holding its own future. */
  method SpawnEach(kind: AdapterKind, fs: seq<Future>) returns (results: seq<SpawnResult>, queue: seq<DynFuture>)
    ensures |results| == |fs| && forall i :: 0 <= i < |results| ==> results[i] == Ok
    ensures |queue| == |fs| && forall i :: 0 <= i < |fs| ==> Holds(queue[i], fs[i])
  {
    var native := new Executor();
    var rc := new RcCell(native);
    var global := new Executor();
    var spawner := if kind == DioxusSpawner then New(DioxusSpawnerValue) else New(RcInner(kind, rc));
    var target := if kind == DioxusSpawner then global else native;
    results := [];
    var i := 0;
    while i < |fs|
      invariant 0 <= i <= |fs|
      invariant Live(spawner) && Target(Kind(spawner), spawner.handle, global) == target
      invariant !target.shutdown
      invariant |results| == i && forall j :: 0 <= j < i ==> results[j] == Ok
      invariant |target.queue| == i && forall j :: 0 <= j < i ==> Holds(target.queue[j], fs[j])
    {
      var r := Spawn(spawner, fs[i], global);
      results := results + [r];
      i := i + 1;
    }
    queue := target.queue;
  }
}
