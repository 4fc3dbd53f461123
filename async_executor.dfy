/** `IntoLocalSpawner for Rc<async_executor::LocalExecutor>` (src/async_executor.rs). */
module AsyncExecutor {
  import opened Core

  /** `Rc::into_raw`: the handle takes over the `Rc`'s count as it is. */
  function IntoHandle(rc: RcCell): (h: Handle)
    ensures h.Ptr? && h.rc == rc
  {
    Ptr(rc)
  }

  /** Allocates one block of the requested layout, used as both task and future storage. */
  method SpawnDyn(handle: Handle, builder: SpawnCompleterBuilder, futureLayout: Layout) returns (c: SpawnCompleter)
    ensures fresh(c.futurePtr) && c.futurePtr.layout == futureLayout && c.futurePtr.contents == None
    ensures c.taskPtr == c.futurePtr
    ensures c.handle == builder.handle && c.vtable == builder.vtable
  {
    var futurePtr := new Block(futureLayout);
    var taskPtr := futurePtr;
    c := Build(builder, taskPtr, futurePtr);
  }

  /** `LocalExecutor::spawn` on the executor behind the handle, then `detach`. */
  method FinishSpawn(handle: Handle, task: DynFuture) returns (r: SpawnResult)
    requires handle.Ptr? && handle.rc.strong >= 1
    modifies handle.rc.value
    ensures r == Ok
    ensures handle.rc.value.queue == old(handle.rc.value.queue) + [task]
    ensures handle.rc.value.shutdown == old(handle.rc.value.shutdown)
  {
    var ex := handle.rc.value;
    ex.Enqueue(task);
    r := Ok;
  }

  method OnClone(handle: Handle)
    requires handle.Ptr? && handle.rc.Valid() && handle.rc.strong >= 1
    modifies handle.rc
    ensures handle.rc.Valid() && handle.rc.strong == old(handle.rc.strong) + 1
    ensures handle.rc.releases == old(handle.rc.releases)
  {
    handle.rc.IncrementStrongCount();
  }

  method OnDrop(handle: Handle)
    requires handle.Ptr? && handle.rc.Valid() && handle.rc.strong >= 1
    modifies handle.rc
    ensures handle.rc.Valid() && handle.rc.strong == old(handle.rc.strong) - 1
    ensures handle.rc.releases == old(handle.rc.releases) + (if old(handle.rc.strong) == 1 then 1 else 0)
  {
    handle.rc.DropStrong();
  }
}
