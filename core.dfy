/** The data model of src/lib.rs: the error taxonomy, layouts, task storage,
    reference-counted executor cells, the opaque handle, the four-slot function
    table and the two transient records of a spawn call. */
module Core {

  datatype Option<T> = None | Some(value: T)

  /** The two ways registration of a task can fail. */
  datatype SpawnError = Shutdown | Other

  /** `Result<()>` of the crate. */
  datatype SpawnResult = Ok | Err(error: SpawnError)

  /** Identifies a concrete future type `F`. */
  type TypeTag = nat

  /** A future value: its concrete type and an abstract state. */
  datatype Future = Future(ty: TypeTag, state: nat)

  /** A memory layout, abstracted to the type it was computed from. */
  datatype Layout = Layout(ty: TypeTag)

  /** `Layout::new::<F>()`. */
  function LayoutNew(ty: TypeTag): (l: Layout)
  {
    Layout(ty)
  }

  /** Task storage: a block allocated for one layout, uninitialised until written. */
  class Block {
    const layout: Layout
    var contents: Option<Future>

    /** `alloc::alloc::alloc(layout)`: fresh, uninitialised storage. */
    constructor (layout: Layout)
      ensures this.layout == layout && contents == None
    {
      this.layout := layout;
      contents := None;
    }

    /** `ptr::write`: places `f` in the block. Its layout must be the block's. */
    method Write(f: Future)
      requires LayoutNew(f.ty) == layout
      modifies this
      ensures contents == Some(f)
    {
      contents := Some(f);
    }
  }

  /** A `*mut dyn Future` fat pointer: a data pointer and the vtable of a type. */
  datatype DynFuture = DynFuture(data: Block, vtable: TypeTag)

  /** Dispatching through `d` reaches exactly the future `f`, stored under `f`'s layout. */
  ghost predicate Holds(d: DynFuture, f: Future)
    reads d.data
  {
    d.vtable == f.ty && d.data.contents == Some(f) && d.data.layout == LayoutNew(f.ty)
  }

  /** A native executor's spawn queue; `shutdown` is set once the executor has torn down. */
  class Executor {
    var queue: seq<DynFuture>
    var shutdown: bool

    constructor ()
      ensures queue == [] && !shutdown
    {
      queue := [];
      shutdown := false;
    }

    /** The native spawn call: the executor takes ownership of one task. */
    method Enqueue(task: DynFuture)
      modifies this
      ensures queue == old(queue) + [task] && shutdown == old(shutdown)
    {
      queue := queue + [task];
    }

    /** The executor tears down and accepts no more tasks. */
    method TearDown()
      modifies this
      ensures shutdown && queue == old(queue)
    {
      shutdown := true;
    }
  }

  /** An `Rc` allocation holding a native executor. `releases` counts how often the
      held value has been destroyed. */
  class RcCell {
    const value: Executor
    var strong: nat
    var releases: nat

    /** The value is destroyed exactly when, and exactly once after, the count reaches zero. */
    ghost predicate Valid()
      reads this
    {
      releases == if strong == 0 then 1 else 0
    }

    /** `Rc::new(value)`. */
    constructor (value: Executor)
      ensures Valid() && this.value == value && strong == 1 && releases == 0
    {
      this.value := value;
      strong := 1;
      releases := 0;
    }

    /** `Rc::clone` or `Rc::increment_strong_count` on a live cell. */
    method IncrementStrongCount()
      requires Valid() && strong >= 1
      modifies this
      ensures Valid() && strong == old(strong) + 1 && releases == old(releases)
    {
      strong := strong + 1;
    }

    /** Dropping one `Rc` (also `drop(Rc::from_raw(ptr))`); the last one destroys the value. */
    method DropStrong()
      requires Valid() && strong >= 1
      modifies this
      ensures Valid() && strong == old(strong) - 1
      ensures releases == old(releases) + (if old(strong) == 1 then 1 else 0)
    {
      strong := strong - 1;
      if strong == 0 {
        releases := releases + 1;
      }
    }
  }

  /** The `IntoLocalSpawner` implementations, one per concrete type `T`. */
  datatype AdapterKind = TokioLocalSet | FuturesLocalSpawner | AsyncLocalExecutor | DioxusSpawner

  /** `LocalSpawnerVtable`: each slot names the `T` whose function it holds. */
  datatype Vtable = Vtable(spawnDyn: AdapterKind, finishSpawn: AdapterKind, onClone: AdapterKind, onDrop: AdapterKind)

  /** `LocalSpawnerVtable::get::<T>()`. */
  function VtableGet(kind: AdapterKind): (v: Vtable)
    ensures v.spawnDyn == kind && v.finishSpawn == kind && v.onClone == kind && v.onDrop == kind
  {
    Vtable(kind, kind, kind, kind)
  }

  /** The opaque `*const ()` handle: null, or the raw pointer of an `Rc`. */
  datatype Handle = Null | Ptr(rc: RcCell)

  /** The objects a handle points to. */
  function Objects(h: Handle): (objs: set<object>)
  {
    if h.Ptr? then {h.rc} else {}
  }

  datatype SpawnCompleterBuilder = SpawnCompleterBuilder(handle: Handle, vtable: Vtable)

  datatype SpawnCompleter = SpawnCompleter(handle: Handle, vtable: Vtable, taskPtr: Block, futurePtr: Block)

  /** `SpawnCompleterBuilder::build`. */
  function Build(builder: SpawnCompleterBuilder, taskPtr: Block, futurePtr: Block): (c: SpawnCompleter)
    ensures c.handle == builder.handle && c.vtable == builder.vtable
    ensures c.taskPtr == taskPtr && c.futurePtr == futurePtr
  {
    SpawnCompleter(builder.handle, builder.vtable, taskPtr, futurePtr)
  }
}
