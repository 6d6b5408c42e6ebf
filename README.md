# OpenCL reference elementwise activation and memory interop, in Dafny

This project models two pieces of the OpenCL back end of the MKL-DNN tensor
library:

* the reference elementwise-activation implementation
  (`src/ocl/ref_eltwise.hpp`): the forward and backward primitive-descriptor
  validators, which accept or reject an operation description, and the
  forward and backward primitive `init`, which fills a just-in-time kernel
  builder with the element type and the algorithm constants, builds it,
  looks up the entry point and keeps it in `kernel_`;
* the ownership contract of a memory object's OpenCL buffer, as the tests
  `BasicInteropC` and `BasicInteropCpp`
  (`tests/gtests/ocl/api/test_memory.cpp`) pin it down: a memory object
  created without allocation holds no buffer, a default-created one holds a
  buffer of its own, `set` installs an external buffer as borrowed and `get`
  returns it, and destroying the object never changes an external buffer's
  reference count.

Files:

* `optional.dfy` — `Option`, used wherever the library uses a null pointer.
* `eltwise_pd.dfy` — module `EltwisePd`: status codes, propagation and
  algorithm kinds, element types, memory and operation descriptors, the two
  validators as pure functions and the accept/reject properties.
* `eltwise_primitive.dfy` — module `EltwisePrimitive`: the kernel builder
  `OclJit` as a class filled step by step, the primitives `RefEltwiseFwd`
  and `RefEltwiseBwd` as classes whose `Init` sets the `kernel` field, the
  specification functions of their status handling, and the lemmas about the
  constants the kernel receives.
* `ocl_memory.dfy` — module `OclMemory`: the OpenCL runtime's buffer table
  with reference counts (`ClRuntime`), the memory object (`MemoryObject`),
  their specification on values (`World`, `SetHandle`, `Destroyed`, ...),
  the reference-count frame lemma, and the two tests as client methods.

Modelling choices:

* `memory_desc_wrapper::is_dense` is not part of this model; the validators
  take the density test as a function parameter `isDense`, so every property
  holds for any density predicate. `memory_desc_wrapper::operator==` is
  structural equality of the `MemoryDesc` record.
* The engine is reduced to its kind and the `cl_khr_fp16` capability flag
  (what `mayiuse(khr_fp16)` answers), replacing the down-cast to the OpenCL
  engine.
* The attributes are reduced to whether they hold their default values.
* The OpenCL compiler's outcome (`jit.build`) and whether the compiled
  program has the requested entry point (`jit.get_kernel`) are parameters of
  `Init`. A null `ocl_kernel_t` is `None`.
* The algorithm-kind numbers passed as build-time constants are those of
  `mkldnn_alg_kind_t` (relu `0x1f` ... logistic `0xaf`); `mkldnn_types.h` is
  not part of this model.
* The forward `init` returns `Success` after a good build even when the entry
  point is missing and `kernel_` stays null, while the backward `init` reports
  `RuntimeError` in that case. Checking the entry point in both directions
  would be the uniform behaviour; the model keeps the code's asymmetry as
  written and proves it (`InitAsymmetry`).
* A `cl_mem` handle is a natural number. The runtime hands out fresh
  handles with reference count 1; `clReleaseMemObject` removes one reference
  and frees the buffer with the last one.
* `set_ocl_mem_object` releases a buffer the object owned before installing
  the new one as borrowed. This is a modelling assumption: otherwise the
  owned buffer, which nothing references any more, would leak. The tests do
  not observe that release, only that the external buffer's count is 1 again
  once the object is gone.
* That `set_ocl_mem_object` leaves the new buffer's count unchanged right
  after the call (neither retained by `set` nor released by destruction) is
  likewise a modelling choice. The tests read the count only after the object
  is gone, so a library that retains on `set` and releases on destruction
  would pass them too.

## Model

| member | source | states |
|---|---|---|
| `EltwisePd.FwdPdInit` | src/ocl/ref_eltwise.hpp:38-61 | The forward validator returns only `Success` or `Unimplemented`, and `Success` exactly when the propagation kind is forward training or inference, the algorithm is one of the five, the type is f32 or f16, the layout is dense, the attributes are default, and f16 implies `cl_khr_fp16` |
| `EltwisePd.BwdPdInit` | src/ocl/ref_eltwise.hpp:104-127 | The backward validator returns only `Success` or `Unimplemented`, and `Success` exactly when the propagation kind is backward-data, the algorithm is one of the five, the type is f32 or f16, the data layout is dense and equal to the gradient layout, and the attributes are default |
| `EltwisePd.FwdRejectsOtherPropKinds` | src/ocl/ref_eltwise.hpp:41-44 | Every propagation kind other than forward training and forward inference is refused with `Unimplemented` |
| `EltwisePd.RejectUnsupportedAlgOrType` | src/ocl/ref_eltwise.hpp:45-51 | Both validators refuse an algorithm outside relu, linear, bounded relu, soft relu and logistic, and any type other than f32 and f16 (the backward check is at lines 114-120) |
| `EltwisePd.RejectSparseOrNonDefault` | src/ocl/ref_eltwise.hpp:52-53 | Both validators refuse a non-dense data layout and non-default attributes (the backward check is at lines 121-122) |
| `EltwisePd.FwdF16GatedByKhrFp16` | src/ocl/ref_eltwise.hpp:54-56 | With everything else acceptable, an f16 forward descriptor is accepted if and only if the engine supports `cl_khr_fp16` |
| `EltwisePd.FwdNonF16IgnoresCapability` | src/ocl/ref_eltwise.hpp:54-56 | For f32 and every other non-f16 type, the forward outcome is the same with and without `cl_khr_fp16` |
| `EltwisePd.BwdIgnoresEngine` | src/ocl/ref_eltwise.hpp:112-122 | The backward validator has no capability gate: its outcome is the same on any two engines, for f16 as for f32 |
| `EltwisePd.BwdRequiresBackwardDataAndSameLayout` | src/ocl/ref_eltwise.hpp:112-122 | Backward validation refuses any propagation kind but backward-data, and any gradient layout different from the data layout |
| `EltwisePd.AcceptsSupportedConfigurations` | src/ocl/ref_eltwise.hpp:41-60 | Every supported algorithm with a dense f32 or f16 layout and default attributes is accepted forward unless it is f16 without `cl_khr_fp16`, and accepted backward with a matching gradient layout on any engine |
| `EltwisePrimitive.KernelDefineValues` | src/ocl/ref_eltwise.hpp:67-73 | The built kernel sees `RELU`, `LINEAR`, `BOUNDED_RELU`, `SOFT_RELU` and `LOGISTIC` equal to those algorithms' values and `ALG_KIND` equal to the descriptor's algorithm |
| `EltwisePrimitive.KernelDefinesSelectAlgorithm` | src/ocl/ref_eltwise.hpp:135-141 | For any supported algorithm `a`, the named constant of `a` equals `ALG_KIND` if and only if `a` is the descriptor's algorithm, so the kernel can tell which activation to run |
| `EltwisePrimitive.KernelDefinesDistinct` | src/ocl/ref_eltwise.hpp:68-73 | No constant name is defined twice |
| `EltwisePrimitive.SetUpJit` | src/ocl/ref_eltwise.hpp:65-73 | A fresh builder ends with the descriptor's element type and the six constants in source order, not yet built |
| `EltwisePrimitive.OclJit.constructor` | src/ocl/ref_eltwise.hpp:65 | A new builder has no element type, no constants and is not built |
| `EltwisePrimitive.OclJit.SetDataType` | src/ocl/ref_eltwise.hpp:67 | Sets the element type and changes nothing else |
| `EltwisePrimitive.OclJit.DefineInt` | src/ocl/ref_eltwise.hpp:68 | Appends one named constant and changes nothing else |
| `EltwisePrimitive.OclJit.Build` | src/ocl/ref_eltwise.hpp:75 | Returns the compiler's status and marks the builder built exactly when that status is `Success` |
| `EltwisePrimitive.OclJit.GetKernel` | src/ocl/ref_eltwise.hpp:79 | Yields a kernel exactly when the builder is built, the entry point exists and an element type was set (which `init` always does first), carrying the entry name, element type and constants |
| `EltwisePrimitive.FwdInitStatus` | src/ocl/ref_eltwise.hpp:75-80 | The forward `init` returns the build status itself, whatever the entry-point lookup found |
| `EltwisePrimitive.BwdInitStatus` | src/ocl/ref_eltwise.hpp:143-151 | The backward `init` returns a failing build status unchanged, `RuntimeError` when a good build lacks the entry point, and `Success` exactly when the build succeeded and the entry point exists |
| `EltwisePrimitive.InitAsymmetry` | src/ocl/ref_eltwise.hpp:79-80 | After a good build with the entry point missing, forward reports `Success` with a null kernel while backward reports `RuntimeError` (lines 147-149) |
| `EltwisePrimitive.RefEltwiseFwd.constructor` | src/ocl/ref_eltwise.hpp:83 | A new forward primitive keeps its descriptor and has a null kernel |
| `EltwisePrimitive.RefEltwiseFwd.Init` | src/ocl/ref_eltwise.hpp:64-81 | Returns `FwdInitStatus`; a failed build leaves `kernel_` unchanged without a lookup; after a good build `kernel_` is the looked-up `ref_eltwise_fwd` kernel, null or not |
| `EltwisePrimitive.RefEltwiseBwd.constructor` | src/ocl/ref_eltwise.hpp:154 | A new backward primitive keeps its descriptor and has a null kernel |
| `EltwisePrimitive.RefEltwiseBwd.Init` | src/ocl/ref_eltwise.hpp:132-152 | Returns `BwdInitStatus`; a failed build leaves `kernel_` unchanged without a lookup; after a good build `kernel_` is the looked-up `ref_eltwise_bwd` kernel; `Success` always comes with a non-null kernel |
| `OclMemory.BufferCreated` | tests/gtests/ocl/api/test_memory.cpp:78-80 | `clCreateBuffer` yields a handle not in use, with reference count 1, and changes no other count |
| `OclMemory.BufferReleased` | tests/gtests/ocl/api/test_memory.cpp:96 | `clReleaseMemObject` lowers the buffer's count by one, freeing it at the last reference, and touches no other buffer |
| `OclMemory.Create` | tests/gtests/ocl/api/test_memory.cpp:42-43 | Created with `MKLDNN_MEMORY_NONE` the object reports no handle and the runtime is untouched; created with allocation it holds a fresh library-owned buffer of count 1 |
| `OclMemory.SetHandle` | tests/gtests/ocl/api/test_memory.cpp:82-85 | After `set(h)` the object reports `h`, held as borrowed; that every buffer the object did not own, `h` included, keeps its count right after `set` is the model's choice (the tests read the count only once the object is gone) |
| `OclMemory.Destroyed` | tests/gtests/ocl/api/test_memory.cpp:87-94 | Destroying the object releases only a buffer it owns; every other buffer keeps its count |
| `OclMemory.SetThenGet` | tests/gtests/ocl/api/test_memory.cpp:82-85 | `set(h)` followed by `get` returns exactly `h` |
| `OclMemory.RunNeverAdopts` | tests/gtests/ocl/api/test_memory.cpp:117-123 | No sequence of gets and sets makes the object own a buffer it did not own |
| `OclMemory.ForeignRefCountStable` | tests/gtests/ocl/api/test_memory.cpp:78-94 | A buffer the object does not own keeps exactly its reference count through any sequence of gets and sets and the object's destruction |
| `OclMemory.ClRuntime.CreateBuffer` | tests/gtests/ocl/api/test_memory.cpp:109-111 | The runtime table afterwards is `BufferCreated` of the table before |
| `OclMemory.ClRuntime.GetRefCount` | tests/gtests/ocl/api/test_memory.cpp:90-93 | Reads the live buffer's current reference count |
| `OclMemory.ClRuntime.ReleaseBuffer` | tests/gtests/ocl/api/test_memory.cpp:132 | The runtime table afterwards is `BufferReleased` of the table before |
| `OclMemory.MemoryObject.constructor` | tests/gtests/ocl/api/test_memory.cpp:114-115 | The new object and runtime are `Create` of the runtime before, for the requested allocation mode |
| `OclMemory.MemoryObject.GetOclMemObject` | tests/gtests/ocl/api/test_memory.cpp:74-75 | Returns the bound handle, or none when the object holds no buffer |
| `OclMemory.MemoryObject.SetOclMemObject` | tests/gtests/ocl/api/test_memory.cpp:120-123 | The object and runtime afterwards are `SetHandle` of their state before |
| `OclMemory.MemoryObject.Destroy` | tests/gtests/ocl/api/test_memory.cpp:87-88 | The runtime afterwards is `Destroyed` of the state before, and the object holds nothing |
| `OclMemory.BasicInteropC` | tests/gtests/ocl/api/test_memory.cpp:69-97 | Replays the C test: no handle at first, the external handle after `set`, and reference count 1 after the object is destroyed |
| `OclMemory.BasicInteropCpp` | tests/gtests/ocl/api/test_memory.cpp:99-133 | Replays the C++ test: a handle of its own at first, the external handle after `set`, and reference count 1 after the object leaves its scope |

## Left out

- `execute_forward_dense` / `execute_backward_dense`: declared only; they launch kernels on a stream, which is device I/O.
- The activation arithmetic and the kernel source text `ref_eltwise_kernel`: floating point on the device, and the text is external.
- The OpenCL compiler and entry-point lookup: foreign calls, modelled as the `buildOutcome` and `entryPresent` parameters of `Init`.
- `memory_desc_wrapper::is_dense`: its definition is not part of this model; it is the `isDense` parameter.
- The engine-kind assertion in the backward validator (a debug check, no status).
- The field `use_dense_` of the backward descriptor: never set or read.
- `alpha` and `beta` of the operation description: only `execute` reads them.
- How `ocl_jit_t` turns the element type and constants into compiler options: not part of this model; the builder records them as values.
- Allocation failures (`OutOfMemory`) when a memory object is created with allocation: the model's runtime always has room.
- OpenCL device discovery, context and engine creation, and the test fixture's set-up and tear-down.
- Concurrency and stream ordering.
- SetHandle: setting an object's own library-owned handle into it is not guarded; the model then releases that buffer (freeing it at count 1) and keeps a borrowed binding to the freed handle. Neither test exercises this case and the library's behaviour for it is not part of this model.
