/** The OpenCL memory-object interoperability contract that
    `BasicInteropC` and `BasicInteropCpp` pin down: a memory object holds at
    most one device buffer, owned by the library or borrowed from the caller,
    and handing it an external buffer never changes that buffer's device
    reference count.

    The OpenCL runtime's object table (handles and their reference counts) is
    modelled as state next to the memory object; `clCreateBuffer`,
    `clGetMemObjectInfo` and `clReleaseMemObject` act on it. */
module OclMemory {
  import opened Optional

  /** A `cl_mem` handle; "no handle" (the null pointer) is `None`. */
  type Handle = nat

  datatype Ownership = LibraryOwned | Borrowed

  /** The buffer a memory object is bound to and who must release it. */
  datatype Binding = Binding(handle: Handle, ownership: Ownership)

  /** Allocation request at creation: `MKLDNN_MEMORY_NONE` or the default
      (`MKLDNN_MEMORY_ALLOCATE`, what the C++ `memory(desc, engine)`
      constructor asks for). */
  datatype AllocationMode = MemoryNone | MemoryAllocate

  /** The runtime's table of live buffers with their reference counts, and
      the next handle it will hand out. */
  datatype Runtime = Runtime(refCount: map<Handle, nat>, nextHandle: Handle)

  /** A memory object together with the runtime it lives on. */
  datatype World = World(binding: Option<Binding>, runtime: Runtime)

  /** Every live handle was handed out before `nextHandle` and has a positive
      count. */
  ghost predicate RuntimeValid(rt: Runtime)
  {
    forall h :: h in rt.refCount ==> h < rt.nextHandle && rt.refCount[h] > 0
  }

  /** `clCreateBuffer`: a new buffer with reference count 1. */
  function BufferCreated(rt: Runtime): (res: (Runtime, Handle))
    requires RuntimeValid(rt)
    ensures RuntimeValid(res.0)
    ensures res.1 !in rt.refCount
    ensures res.0.refCount == rt.refCount[res.1 := 1]
  {
    (Runtime(rt.refCount[rt.nextHandle := 1], rt.nextHandle + 1), rt.nextHandle)
  }

  /** `clReleaseMemObject`: one reference less; the buffer is freed when
      the last reference goes. An unknown handle leaves the table alone. */
  function BufferReleased(rt: Runtime, h: Handle): (r: Runtime)
    ensures r.nextHandle == rt.nextHandle
    ensures forall k :: k != h ==> (k in r.refCount <==> k in rt.refCount)
    ensures forall k :: k != h && k in rt.refCount ==> r.refCount[k] == rt.refCount[k]
    ensures h in rt.refCount && rt.refCount[h] > 1 ==> h in r.refCount && r.refCount[h] == rt.refCount[h] - 1
    ensures h in rt.refCount && rt.refCount[h] <= 1 ==> h !in r.refCount
    ensures h !in rt.refCount ==> r == rt
  {
    if h !in rt.refCount then rt
    else if rt.refCount[h] > 1 then Runtime(rt.refCount[h := rt.refCount[h] - 1], rt.nextHandle)
    else Runtime(rt.refCount - {h}, rt.nextHandle)
  }

  /** The handle a memory object reports (`get_ocl_mem_object`). */
  function GetHandle(w: World): Option<Handle>
  {
    if w.binding.Some? then Some(w.binding.value.handle) else None
  }

  /** Whether the memory object owns buffer `h`. */
  predicate Owns(w: World, h: Handle)
  {
    w.binding == Some(Binding(h, LibraryOwned))
  }

  /** Release the buffer the object owns, if any; a borrowed buffer is never
      released. */
  function DropBinding(w: World): (rt: Runtime)
    ensures forall k :: !Owns(w, k) ==> (k in rt.refCount <==> k in w.runtime.refCount)
    ensures forall k :: !Owns(w, k) && k in w.runtime.refCount ==> rt.refCount[k] == w.runtime.refCount[k]
  {
    match w.binding
    case Some(Binding(h, LibraryOwned)) => BufferReleased(w.runtime, h)
    case _ => w.runtime
  }

  /** `mkldnn_memory_create`: with `MemoryNone` the object holds no buffer
      and the runtime is untouched; otherwise it holds a fresh buffer of its
      own with reference count 1. */
  function Create(rt: Runtime, mode: AllocationMode): (w: World)
    requires RuntimeValid(rt)
    ensures RuntimeValid(w.runtime)
    ensures mode == MemoryNone ==> GetHandle(w) == None && w.runtime == rt
    ensures mode == MemoryAllocate ==>
      && w.binding.Some? && w.binding.value.ownership == LibraryOwned
      && w.binding.value.handle !in rt.refCount
      && w.runtime.refCount == rt.refCount[w.binding.value.handle := 1]
  {
    match mode
    case MemoryNone => World(None, rt)
    case MemoryAllocate =>
      var (rt', h) := BufferCreated(rt);
      World(Some(Binding(h, LibraryOwned)), rt')
  }

  /** `set_ocl_mem_object(h)`: a previously owned buffer is released, `h` is
      installed as borrowed, and no other reference count changes; in
      particular `h`'s own count stays as the caller left it. */
  function SetHandle(w: World, h: Handle): (w': World)
    ensures GetHandle(w') == Some(h) && w'.binding == Some(Binding(h, Borrowed))
    ensures forall k :: !Owns(w, k) ==> (k in w'.runtime.refCount <==> k in w.runtime.refCount)
    ensures forall k :: !Owns(w, k) && k in w.runtime.refCount ==>
      w'.runtime.refCount[k] == w.runtime.refCount[k]
  {
    World(Some(Binding(h, Borrowed)), DropBinding(w))
  }

  /** `mkldnn_memory_destroy`: the runtime after the object is gone. Only an
      owned buffer loses a reference. */
  function Destroyed(w: World): (rt: Runtime)
    ensures forall k :: !Owns(w, k) ==> (k in rt.refCount <==> k in w.runtime.refCount)
    ensures forall k :: !Owns(w, k) && k in w.runtime.refCount ==> rt.refCount[k] == w.runtime.refCount[k]
    ensures w.binding.Some? && w.binding.value.ownership == LibraryOwned ==>
      rt == BufferReleased(w.runtime, w.binding.value.handle)
  {
    DropBinding(w)
  }

  /** A call through the interop surface while the object is alive. */
  datatype Call = Get | Set(h: Handle)

  /** The object's state after a sequence of calls. */
  function Run(w: World, calls: seq<Call>): World
    decreases |calls|
  {
    if calls == [] then w
    else
      var w' := match calls[0]
        case Get => w
        case Set(h) => SetHandle(w, h);
      Run(w', calls[1..])
  }

  /** A buffer the object does not own before a call is not owned after it:
      the interop surface only ever adopts buffers as borrowed. */
  lemma {:induction false} RunNeverAdopts(w: World, calls: seq<Call>, h: Handle)
    requires !Owns(w, h)
    ensures !Owns(Run(w, calls), h)
    decreases |calls|
  {
    if calls != [] {
      var w' := match calls[0] case Get => w case Set(x) => SetHandle(w, x);
      RunNeverAdopts(w', calls[1..], h);
    }
  }

  /** The reference-count frame: a buffer that exists when the object does
      not own it keeps exactly its reference count through any sequence of
      gets and sets and the object's destruction. */
  lemma {:induction false} ForeignRefCountStable(w: World, calls: seq<Call>, h: Handle)
    requires h in w.runtime.refCount && !Owns(w, h)
    ensures h in Run(w, calls).runtime.refCount
    ensures Run(w, calls).runtime.refCount[h] == w.runtime.refCount[h]
    ensures h in Destroyed(Run(w, calls)).refCount
    ensures Destroyed(Run(w, calls)).refCount[h] == w.runtime.refCount[h]
    decreases |calls|
  {
    if calls == [] {
    } else {
      var w' := match calls[0] case Get => w case Set(x) => SetHandle(w, x);
      assert !Owns(w', h);
      ForeignRefCountStable(w', calls[1..], h);
    }
    RunNeverAdopts(w, calls, h);
  }

  /** Set, then get: the handle that was set comes back. */
  lemma SetThenGet(w: World, h: Handle)
    ensures GetHandle(Run(w, [Set(h), Get])) == Some(h)
  {
    assert Run(w, [Set(h), Get]) == Run(SetHandle(w, h), [Get]);
  }

  /** The OpenCL runtime's buffer table, as the tests observe it. */
  class ClRuntime {
    var refCount: map<Handle, nat>
    var nextHandle: Handle

    ghost function State(): Runtime
      reads this
    {
      Runtime(refCount, nextHandle)
    }

    ghost predicate Valid()
      reads this
    {
      RuntimeValid(State())
    }

    constructor ()
      ensures Valid() && refCount == map[]
    {
      refCount := map[];
      nextHandle := 0;
    }

    /** `clCreateBuffer` */
    method CreateBuffer() returns (h: Handle)
      requires Valid()
      modifies this
      ensures Valid()
      ensures (State(), h) == BufferCreated(old(State()))
    {
      h := nextHandle;
      refCount := refCount[h := 1];
      nextHandle := nextHandle + 1;
    }

    /** `clGetMemObjectInfo(..., CL_MEM_REFERENCE_COUNT, ...)` on a live buffer. */
    method GetRefCount(h: Handle) returns (count: nat)
      requires h in refCount
      ensures count == refCount[h]
    {
      count := refCount[h];
    }

    /** `clReleaseMemObject` */
    method ReleaseBuffer(h: Handle)
      requires Valid()
      modifies this
      ensures Valid()
      ensures State() == BufferReleased(old(State()), h)
    {
      if h in refCount {
        if refCount[h] > 1 {
          refCount := refCount[h := refCount[h] - 1];
        } else {
          refCount := refCount - {h};
        }
      }
    }
  }

  /** A memory object bound to an OpenCL engine (`mkldnn_memory` with OpenCL
      storage). */
  class MemoryObject {
    var binding: Option<Binding>
    const runtime: ClRuntime

    ghost function State(): World
      reads this, runtime
    {
      World(binding, runtime.State())
    }

    constructor (runtime: ClRuntime, mode: AllocationMode)
      requires runtime.Valid()
      modifies runtime
      ensures this.runtime == runtime && runtime.Valid()
      ensures State() == Create(old(runtime.State()), mode)
    {
      this.runtime := runtime;
      match mode {
        case MemoryNone =>
          binding := None;
        case MemoryAllocate =>
          var h := runtime.CreateBuffer();
          binding := Some(Binding(h, LibraryOwned));
      }
    }

    /** `get_ocl_mem_object` */
    method GetOclMemObject() returns (h: Option<Handle>)
      ensures h == GetHandle(State())
      ensures h.Some? <==> binding.Some?
    {
      h := if binding.Some? then Some(binding.value.handle) else None;
    }

    /** `set_ocl_mem_object` */
    method SetOclMemObject(h: Handle)
      requires runtime.Valid()
      modifies this, runtime
      ensures runtime.Valid()
      ensures State() == SetHandle(old(State()), h)
    {
      if binding.Some? && binding.value.ownership == LibraryOwned {
        runtime.ReleaseBuffer(binding.value.handle);
      }
      binding := Some(Binding(h, Borrowed));
    }

    /** `mkldnn_memory_destroy`, or the C++ object leaving its scope; the
      object holds nothing afterwards. */
    method Destroy()
      requires runtime.Valid()
      modifies this, runtime
      ensures runtime.Valid() && binding == None
      ensures runtime.State() == Destroyed(old(State()))
    {
      if binding.Some? && binding.value.ownership == LibraryOwned {
        runtime.ReleaseBuffer(binding.value.handle);
      }
      binding := None;
    }
  }

  /** `BasicInteropC`: an object created with `MKLDNN_MEMORY_NONE` reports no
      buffer; an external buffer set into it is reported back; after the object
      is destroyed the buffer's reference count is still 1. Returns the count
      the test reads. */
  method BasicInteropC(rt: ClRuntime) returns (refCountAfterDestroy: nat)
    requires rt.Valid()
    modifies rt
    ensures refCountAfterDestroy == 1
    ensures rt.Valid()
  {
    var memory := new MemoryObject(rt, MemoryNone);
    var oclMem := memory.GetOclMemObject();
    assert oclMem == None;

    var interopOclMem := rt.CreateBuffer();
    memory.SetOclMemObject(interopOclMem);
    oclMem := memory.GetOclMemObject();
    assert oclMem == Some(interopOclMem);

    memory.Destroy();
    refCountAfterDestroy := rt.GetRefCount(interopOclMem);
    rt.ReleaseBuffer(interopOclMem);
  }

  /** `BasicInteropCpp`: an object created with default allocation reports a
      buffer of its own; after an external buffer is set into it, that buffer is
      reported back, and once the object leaves its scope the external
      buffer's reference count is still 1. Returns the count the test reads. */
  method BasicInteropCpp(rt: ClRuntime) returns (refCountAfterScope: nat)
    requires rt.Valid()
    modifies rt
    ensures refCountAfterScope == 1
    ensures rt.Valid()
  {
    var interopOclMem := rt.CreateBuffer();
    var mem := new MemoryObject(rt, MemoryAllocate);
    var oclMem := mem.GetOclMemObject();
    assert oclMem.Some?;

    mem.SetOclMemObject(interopOclMem);
    oclMem := mem.GetOclMemObject();
    assert oclMem == Some(interopOclMem);

    mem.Destroy();
    refCountAfterScope := rt.GetRefCount(interopOclMem);
    rt.ReleaseBuffer(interopOclMem);
  }
}
