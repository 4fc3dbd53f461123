/** `LocalSpawner` and the two-phase spawn of src/lib.rs. Calls through the function
    table dispatch on the adapter named in the called slot. */
module Spawner {
  import opened Core
  import Tokio
  import FuturesExecutor
  import AsyncExecutor
  import Dioxus

  /** The value an `IntoLocalSpawner` implementation is built from. */
  datatype Inner =
    | LocalSetRc(rc: RcCell)          // Rc<tokio::task::LocalSet>
    | FuturesSpawnerRc(rc: RcCell)    // Rc<futures_executor::LocalSpawner>
    | LocalExecutorRc(rc: RcCell)     // Rc<async_executor::LocalExecutor>
    | DioxusSpawnerValue              // DioxusSpawner

  function KindOf(inner: Inner): (kind: AdapterKind)
  {
    match inner
    case LocalSetRc(_) => TokioLocalSet
    case FuturesSpawnerRc(_) => FuturesLocalSpawner
    case LocalExecutorRc(_) => AsyncLocalExecutor
    case DioxusSpawnerValue => DioxusSpawner
  }

  datatype LocalSpawner = LocalSpawner(handle: Handle, vtable: Vtable)

  /** The adapter a spawner was made for. */
  function Kind(s: LocalSpawner): (kind: AdapterKind)
  {
    s.vtable.finishSpawn
  }

  /** What an adapter's functions demand of the handle they are given: null for the
      stateless adapter, otherwise a live `Rc`. */
  ghost predicate HandleFits(kind: AdapterKind, h: Handle)
    reads Objects(h)
  {
    if kind == DioxusSpawner then h == Null else h.Ptr? && h.rc.Valid() && h.rc.strong >= 1
  }

  /** A spawner that has not been dropped: a table from `VtableGet` and a handle that fits it. */
  ghost predicate Live(s: LocalSpawner)
    reads Objects(s.handle)
  {
    s.vtable == VtableGet(Kind(s)) && HandleFits(Kind(s), s.handle)
  }

  /** The executor whose queue registration through `kind` changes. */
  function Target(kind: AdapterKind, h: Handle, global: Executor): (e: Executor)
    requires kind != DioxusSpawner ==> h.Ptr?
  {
    if kind == DioxusSpawner then global else h.rc.value
  }

  /** The result registration returns: only futures-executor can refuse, and only when
      its pool has shut down. */
  function Registration(kind: AdapterKind, shutdown: bool): (r: SpawnResult)
  {
    if kind == FuturesLocalSpawner && shutdown then Err(Shutdown) else Ok
  }

  /** `LocalSpawner::new::<T>`: the handle from `T::into_handle` and `T`'s table. */
  function New(inner: Inner): (s: LocalSpawner)
    ensures Kind(s) == KindOf(inner) && s.vtable == VtableGet(KindOf(inner))
    ensures inner.DioxusSpawnerValue? ==> s.handle == Null
    ensures !inner.DioxusSpawnerValue? ==> s.handle == Ptr(inner.rc)
  {
    match inner
    case LocalSetRc(rc) => LocalSpawner(Tokio.IntoHandle(rc), VtableGet(TokioLocalSet))
    case FuturesSpawnerRc(rc) => LocalSpawner(FuturesExecutor.IntoHandle(rc), VtableGet(FuturesLocalSpawner))
    case LocalExecutorRc(rc) => LocalSpawner(AsyncExecutor.IntoHandle(rc), VtableGet(AsyncLocalExecutor))
    case DioxusSpawnerValue => LocalSpawner(Dioxus.IntoHandle(), VtableGet(DioxusSpawner))
  }

  /** A call through the `spawn_dyn` slot. */
  method CallSpawnDyn(slot: AdapterKind, handle: Handle, builder: SpawnCompleterBuilder, futureLayout: Layout)
    returns (c: SpawnCompleter)
    ensures fresh(c.futurePtr) && c.futurePtr.layout == futureLayout && c.futurePtr.contents == None
    ensures c.taskPtr == c.futurePtr
    ensures c.handle == builder.handle && c.vtable == builder.vtable
  {
    match slot
    case TokioLocalSet => c := Tokio.SpawnDyn(handle, builder, futureLayout);
    case FuturesLocalSpawner => c := FuturesExecutor.SpawnDyn(handle, builder, futureLayout);
    case AsyncLocalExecutor => c := AsyncExecutor.SpawnDyn(handle, builder, futureLayout);
    case DioxusSpawner => c := Dioxus.SpawnDyn(handle, builder, futureLayout);
  }

  /** A call through the `finish_spawn` slot. */
  method CallFinishSpawn(slot: AdapterKind, handle: Handle, task: DynFuture, global: Executor)
    returns (r: SpawnResult)
    requires HandleFits(slot, handle)
    modifies Target(slot, handle, global)
    ensures r == Registration(slot, old(Target(slot, handle, global).shutdown))
    ensures Target(slot, handle, global).queue == old(Target(slot, handle, global).queue) + (if r.Ok? then [task] else [])
    ensures Target(slot, handle, global).shutdown == old(Target(slot, handle, global).shutdown)
  {
    match slot
    case TokioLocalSet => r := Tokio.FinishSpawn(handle, task);
    case FuturesLocalSpawner => r := FuturesExecutor.FinishSpawn(handle, task);
    case AsyncLocalExecutor => r := AsyncExecutor.FinishSpawn(handle, task);
    case DioxusSpawner => r := Dioxus.FinishSpawn(handle, task, global);
  }

  /** A call through the `on_clone` slot. */
  method CallOnClone(slot: AdapterKind, handle: Handle)
    requires HandleFits(slot, handle)
    modifies Objects(handle)
    ensures handle.Ptr? ==> handle.rc.Valid() && handle.rc.strong == old(handle.rc.strong) + 1
    ensures handle.Ptr? ==> handle.rc.releases == old(handle.rc.releases)
  {
    match slot
    case TokioLocalSet => Tokio.OnClone(handle);
    case FuturesLocalSpawner => FuturesExecutor.OnClone(handle);
    case AsyncLocalExecutor => AsyncExecutor.OnClone(handle);
    case DioxusSpawner => Dioxus.OnClone(handle);
  }

  /** A call through the `on_drop` slot. */
  method CallOnDrop(slot: AdapterKind, handle: Handle)
    requires HandleFits(slot, handle)
    modifies Objects(handle)
    ensures handle.Ptr? ==> handle.rc.Valid() && handle.rc.strong == old(handle.rc.strong) - 1
    ensures handle.Ptr? ==> handle.rc.releases == old(handle.rc.releases) + (if old(handle.rc.strong) == 1 then 1 else 0)
  {
    match slot
    case TokioLocalSet => Tokio.OnDrop(handle);
    case FuturesLocalSpawner => FuturesExecutor.OnDrop(handle);
    case AsyncLocalExecutor => AsyncExecutor.OnDrop(handle);
    case DioxusSpawner => Dioxus.OnDrop(handle);
  }

  /** `SpawnCompleter::spawn`: writes `f` into the future storage, then registers the task
      storage, typed with `f`'s vtable, through the `finish_spawn` slot. The layout of
      `f` must be the one the storage was allocated with. */
  method CompleterSpawn(c: SpawnCompleter, f: Future, global: Executor) returns (r: SpawnResult)
    requires c.futurePtr.layout == LayoutNew(f.ty)
    requires HandleFits(c.vtable.finishSpawn, c.handle)
    modifies c.futurePtr, Target(c.vtable.finishSpawn, c.handle, global)
    ensures c.futurePtr.contents == Some(f)
    ensures r == Registration(c.vtable.finishSpawn, old(Target(c.vtable.finishSpawn, c.handle, global).shutdown))
    ensures Target(c.vtable.finishSpawn, c.handle, global).queue
         == old(Target(c.vtable.finishSpawn, c.handle, global).queue) + (if r.Ok? then [DynFuture(c.taskPtr, f.ty)] else [])
    ensures Target(c.vtable.finishSpawn, c.handle, global).shutdown
         == old(Target(c.vtable.finishSpawn, c.handle, global).shutdown)
  {
    c.futurePtr.Write(f);
    r := CallFinishSpawn(c.vtable.finishSpawn, c.handle, DynFuture(c.taskPtr, f.ty), global);
  }

  /** `LocalSpawner::spawn`: allocation for `f`'s layout through `spawn_dyn`, then the
      completer's write and registration. Exactly one task is registered when the result
      is `Ok`, none otherwise, and that task is fresh storage holding `f`. */
  method Spawn(s: LocalSpawner, f: Future, global: Executor) returns (r: SpawnResult)
    requires Live(s)
    modifies Target(Kind(s), s.handle, global)
    ensures r == Registration(Kind(s), old(Target(Kind(s), s.handle, global).shutdown))
    ensures Target(Kind(s), s.handle, global).shutdown == old(Target(Kind(s), s.handle, global).shutdown)
    ensures r.Err? ==> Target(Kind(s), s.handle, global).queue == old(Target(Kind(s), s.handle, global).queue)
    ensures r.Ok? ==>
      var q, q0 := Target(Kind(s), s.handle, global).queue, old(Target(Kind(s), s.handle, global).queue);
      |q| == |q0| + 1 && q[..|q0|] == q0 && Holds(q[|q0|], f) && fresh(q[|q0|].data)
  {
    var builder := SpawnCompleterBuilder(s.handle, s.vtable);
    var completer := CallSpawnDyn(s.vtable.spawnDyn, s.handle, builder, LayoutNew(f.ty));
    r := CompleterSpawn(completer, f, global);
  }

  /** `Clone for LocalSpawner`: `on_clone` once, then the same pair. */
  method Clone(s: LocalSpawner) returns (c: LocalSpawner)
    requires Live(s)
    modifies Objects(s.handle)
    ensures c == s && Live(c)
    ensures s.handle.Ptr? ==> s.handle.rc.strong == old(s.handle.rc.strong) + 1
    ensures s.handle.Ptr? ==> s.handle.rc.releases == old(s.handle.rc.releases)
  {
    CallOnClone(s.vtable.onClone, s.handle);
    c := LocalSpawner(s.handle, s.vtable);
  }

  /** `Drop for LocalSpawner`: `on_drop` once. */
  method Drop(s: LocalSpawner)
    requires Live(s)
    modifies Objects(s.handle)
    ensures s.handle.Ptr? ==> s.handle.rc.Valid() && s.handle.rc.strong == old(s.handle.rc.strong) - 1
    ensures s.handle.Ptr? ==> s.handle.rc.releases == old(s.handle.rc.releases) + (if old(s.handle.rc.strong) == 1 then 1 else 0)
  {
    CallOnDrop(s.vtable.onDrop, s.handle);
  }

  /** One step of a handle's history: clone some live spawner, or drop one. */
  datatype LifecycleOp = CloneOp | DropOp

  /** How many steps of `ops` are `op`. */
  function Count(ops: seq<LifecycleOp>, op: LifecycleOp): (c: nat)
    ensures c <= |ops|
  {
    if ops == [] then 0 else Count(ops[..|ops| - 1], op) + (if ops[|ops| - 1] == op then 1 else 0)
  }

  lemma {:induction false} CountAppend(a: seq<LifecycleOp>, b: seq<LifecycleOp>, op: LifecycleOp)
    ensures Count(a + b, op) == Count(a, op) + Count(b, op)
  {
    if b == [] {
      assert a + b == a;
    } else {
      var front := b[..|b| - 1];
      assert (a + b)[..|a + b| - 1] == a + front;
      CountAppend(a, front, op);
    }
  }

  lemma {:induction false} CountUniform(x: LifecycleOp, m: nat, op: LifecycleOp)
    ensures Count(seq(m, _ => x), op) == (if x == op then m else 0)
  {
    if m > 0 {
      assert seq(m, _ => x)[..m - 1] == seq(m - 1, _ => x);
      CountUniform(x, m - 1, op);
    }
  }

  /** The history "clone `n` times, then drop all `n + 1` spawners". */
  function CloneThenDrop(n: nat): (h: seq<LifecycleOp>)
  {
    seq(n, _ => CloneOp) + seq(n + 1, _ => DropOp)
  }

  /** Every step acts on a spawner that exists: before each step, fewer spawners have been
      dropped than the original one plus the clones made so far. */
  ghost predicate Disciplined(ops: seq<LifecycleOp>)
  {
    forall k :: 0 <= k < |ops| ==> Count(ops[..k], DropOp) <= Count(ops[..k], CloneOp)
  }

  /** Runs a disciplined history of clones and drops starting from `s`. The spawners still
      alive are returned; the count has moved by exactly clones minus drops, and the held
      executor has been destroyed (once) exactly when no reference is left. */
  method Replay(s: LocalSpawner, ops: seq<LifecycleOp>) returns (live: seq<LocalSpawner>)
    requires Live(s) && Disciplined(ops)
    modifies Objects(s.handle)
    ensures |live| + Count(ops, DropOp) == 1 + Count(ops, CloneOp)
    ensures forall k :: 0 <= k < |live| ==> live[k] == s
    ensures s.handle.Ptr? ==> s.handle.rc.Valid() && s.handle.rc.strong + Count(ops, DropOp) == old(s.handle.rc.strong) + Count(ops, CloneOp)
    ensures s.handle.Ptr? ==> s.handle.rc.releases == (if old(s.handle.rc.strong) + Count(ops, CloneOp) == Count(ops, DropOp) then 1 else 0)
  {
    live := [s];
    var i := 0;
    while i < |ops|
      invariant 0 <= i <= |ops|
      invariant |live| + Count(ops[..i], DropOp) == 1 + Count(ops[..i], CloneOp)
      invariant forall k :: 0 <= k < |live| ==> live[k] == s
      invariant s.handle.Ptr? ==> s.handle.rc.Valid() && s.handle.rc.strong + Count(ops[..i], DropOp) == old(s.handle.rc.strong) + Count(ops[..i], CloneOp)
      invariant s.handle.Null? ==> Live(s)
    {
      assert ops[..i + 1][..i] == ops[..i];
      assert Count(ops[..i], DropOp) <= Count(ops[..i], CloneOp);
      if ops[i] == CloneOp {
        var c := Clone(live[0]);
        live := live + [c];
      } else {
        Drop(live[0]);
        live := live[1..];
      }
      i := i + 1;
    }
    assert ops[..|ops|] == ops;
  }

  /** Cloning `n` times and then dropping all `n + 1` spawners is a disciplined history
      with `n` clones and `n + 1` drops: by `Replay`, it leaves the count one below where
      it started, which is where it was before the `Rc` handed to `New` was made. */
  lemma {:induction false} CloneThenDropBalanced(n: nat)
    ensures Disciplined(CloneThenDrop(n))
    ensures Count(CloneThenDrop(n), CloneOp) == n && Count(CloneThenDrop(n), DropOp) == n + 1
  {
    var h := CloneThenDrop(n);
    CountAppend(seq(n, _ => CloneOp), seq(n + 1, _ => DropOp), CloneOp);
    CountAppend(seq(n, _ => CloneOp), seq(n + 1, _ => DropOp), DropOp);
    CountUniform(CloneOp, n, CloneOp);
    CountUniform(CloneOp, n, DropOp);
    CountUniform(DropOp, n + 1, CloneOp);
    CountUniform(DropOp, n + 1, DropOp);
    forall k | 0 <= k < |h| ensures Count(h[..k], DropOp) <= Count(h[..k], CloneOp) {
      if k <= n {
        assert h[..k] == seq(k, _ => CloneOp);
        CountUniform(CloneOp, k, DropOp);
      } else {
        assert h[..k] == seq(n, _ => CloneOp) + seq(k - n, _ => DropOp);
        CountAppend(seq(n, _ => CloneOp), seq(k - n, _ => DropOp), CloneOp);
        CountAppend(seq(n, _ => CloneOp), seq(k - n, _ => DropOp), DropOp);
        CountUniform(CloneOp, n, CloneOp);
        CountUniform(CloneOp, n, DropOp);
        CountUniform(DropOp, k - n, CloneOp);
        CountUniform(DropOp, k - n, DropOp);
      }
    }
  }
}
