/** `IntoLocalSpawner for Rc<futures_executor::LocalSpawner>` (src/futures_executor.rs). */
module FuturesExecutor {
  import opened Core

  /** `futures_task::SpawnError`, known to the adapter only through `is_shutdown`. */
  datatype NativeSpawnError = NativeSpawnError(isShutdown: bool)

  datatype NativeResult = NativeOk | NativeErr(error: NativeSpawnError)

  /** The closure given to `map_err`. */
  function MapSpawnError(e: NativeSpawnError): (r: SpawnError)
    ensures r == Shutdown <==> e.isShutdown
    ensures r == Other <==> !e.isShutdown
  {
    if e.isShutdown then Shutdown else Other
  }

  /** `spawn_local_obj(..).map_err(MapSpawnError)`. */
  function MapResult(n: NativeResult): (r: SpawnResult)
    ensures r == Ok <==> n.NativeOk?
    ensures r.Err? ==> r.error == MapSpawnError(n.error)
  {
    match n
    case NativeOk => Ok
    case NativeErr(e) => Err(MapSpawnError(e))
  }

  /** `futures_executor::LocalSpawner::spawn_local_obj`: refused with a shutdown error once
      the pool is gone, otherwise queued on the pool. */
  method SpawnLocalObj(spawner: Executor, obj: DynFuture) returns (r: NativeResult)
    modifies spawner
    ensures r.NativeErr? <==> old(spawner.shutdown)
    ensures r.NativeErr? ==> r.error.isShutdown
    ensures spawner.queue == old(spawner.queue) + (if r.NativeOk? then [obj] else [])
    ensures spawner.shutdown == old(spawner.shutdown)
  {
    if spawner.shutdown {
      r := NativeErr(NativeSpawnError(true));
    } else {
      spawner.Enqueue(obj);
      r := NativeOk;
    }
  }

  /** `Rc::into_raw`: the handle takes over the `Rc`'s count as it is. */
  function IntoHandle(rc: RcCell): (h: Handle)
    ensures h.Ptr? && h.rc == rc
  {
    Ptr(rc)
  }

  /** Allocates one block of the requested layout, used as both task and future storage. */
  method SpawnDyn(handle: Handle, builder: SpawnCompleterBuilder, futureLayout: Layout) returns (c: SpawnCompleter)
    ensures fresh(c.futurePtr) && c.futurePtr.layout == futureLayout && c.futurePtr.contents == None
    ensures c.taskPtr == c.futurePtr
    ensures c.handle == builder.handle && c.vtable == builder.vtable
  {
    var futurePtr := new Block(futureLayout);
    var taskPtr := futurePtr;
    c := Build(builder, taskPtr, futurePtr);
  }

  /** Registers the task with the spawner behind the handle; a refusal becomes `Shutdown`
      or `Other` according to the native error. */
  method FinishSpawn(handle: Handle, task: DynFuture) returns (r: SpawnResult)
    requires handle.Ptr? && handle.rc.strong >= 1
    modifies handle.rc.value
    ensures r == Ok <==> !old(handle.rc.value.shutdown)
    ensures r.Err? ==> r.error == Shutdown
    ensures handle.rc.value.queue == old(handle.rc.value.queue) + (if r.Ok? then [task] else [])
    ensures handle.rc.value.shutdown == old(handle.rc.value.shutdown)
  {
    var spawner := handle.rc.value;
    var n := SpawnLocalObj(spawner, task);
    r := MapResult(n);
  }

  method OnClone(handle: Handle)
    requires handle.Ptr? && handle.rc.Valid() && handle.rc.strong >= 1
    modifies handle.rc
    ensures handle.rc.Valid() && handle.rc.strong == old(handle.rc.strong) + 1
    ensures handle.rc.releases == old(handle.rc.releases)
  {
    handle.rc.IncrementStrongCount();
  }

  method OnDrop(handle: Handle)
    requires handle.Ptr? && handle.rc.Valid() && handle.rc.strong >= 1
    modifies handle.rc
    ensures handle.rc.Valid() && handle.rc.strong == old(handle.rc.strong) - 1
    ensures handle.rc.releases == old(handle.rc.releases) + (if old(handle.rc.strong) == 1 then 1 else 0)
  {
    handle.rc.DropStrong();
  }
}
