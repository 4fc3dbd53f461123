/** `IntoLocalSpawner for DioxusSpawner` (src/dioxus.rs): a stateless adapter whose tasks
    go to the thread's global runtime, passed here as `global`. */
module Dioxus {
  import opened Core

  /** The handle is null: there is no state to share. */
  function IntoHandle(): (h: Handle)
    ensures h == Null && Objects(h) == {}
  {
    Null
  }

  /** Allocates one block of the requested layout, used as both task and future storage. */
  method SpawnDyn(handle: Handle, builder: SpawnCompleterBuilder, futureLayout: Layout) returns (c: SpawnCompleter)
    ensures fresh(c.futurePtr) && c.futurePtr.layout == futureLayout && c.futurePtr.contents == None
    ensures c.taskPtr == c.futurePtr
    ensures c.handle == builder.handle && c.vtable == builder.vtable
  {
    var futurePtr := new Block(futureLayout);
    var taskPtr := futurePtr;
    c := Build(builder, taskPtr, futurePtr);
  }

  /** `dioxus::prelude::spawn` on the global runtime; the handle is not looked at. */
  method FinishSpawn(handle: Handle, task: DynFuture, global: Executor) returns (r: SpawnResult)
    modifies global
    ensures r == Ok
    ensures global.queue == old(global.queue) + [task]
    ensures global.shutdown == old(global.shutdown)
  {
    global.Enqueue(task);
    r := Ok;
  }

  /** No state: cloning changes nothing. */
  method OnClone(handle: Handle)
  {
  }

  /** No state: dropping changes nothing. */
  method OnDrop(handle: Handle)
  {
  }
}
