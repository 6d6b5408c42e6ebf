/** The primitive-level `init` of `ref_eltwise_fwd_t` and `ref_eltwise_bwd_t`:
    fill a just-in-time kernel builder with the element type and the
    algorithm constants, build it, look up the entry point and keep it in
    `kernel_`. The OpenCL compiler and the entry-point lookup are outside
    the model: their outcomes arrive as parameters. */
module EltwisePrimitive {
  import opened Optional
  import opened EltwisePd

  /** One `-DNAME=value` build-time constant. */
  datatype JitDefine = JitDefine(name: string, value: int)

  /** A compiled, engine-bound kernel: the entry point it was resolved to and
      the parameters it was specialised with. */
  datatype CompiledKernel = CompiledKernel(entry: string, dataType: DataType, defines: seq<JitDefine>)

  /** The numeric value of each algorithm kind, as `mkldnn_alg_kind_t`
      numbers them. */
  function AlgKindValue(alg: AlgKind): int
  {
    match alg
    case EltwiseRelu => 0x1f
    case EltwiseTanh => 0x2f
    case EltwiseElu => 0x3f
    case EltwiseSquare => 0x4f
    case EltwiseAbs => 0x5f
    case EltwiseSqrt => 0x6f
    case EltwiseLinear => 0x7f
    case EltwiseBoundedRelu => 0x8f
    case EltwiseSoftRelu => 0x9f
    case EltwiseLogistic => 0xaf
  }

  /** The name under which the kernel receives each supported algorithm's
      constant. */
  function ConstantName(alg: AlgKind): string
  {
    match alg
    case EltwiseRelu => "RELU"
    case EltwiseLinear => "LINEAR"
    case EltwiseBoundedRelu => "BOUNDED_RELU"
    case EltwiseSoftRelu => "SOFT_RELU"
    case EltwiseLogistic => "LOGISTIC"
    case _ => ""
  }

  const FwdEntry: string := "ref_eltwise_fwd"
  const BwdEntry: string := "ref_eltwise_bwd"

  /** The value the kernel sees for a build-time constant. How a repeated
      name is resolved is the model's own rule (the first definition wins);
      `KernelDefinesDistinct` shows no name is repeated, so the rule does not
      affect any kernel `init` builds. */
  function DefineValue(defines: seq<JitDefine>, name: string): Option<int>
  {
    if defines == [] then None
    else if defines[0].name == name then Some(defines[0].value)
    else DefineValue(defines[1..], name)
  }

  /** The six constants `init` defines, in the order it defines them. */
  function KernelDefines(alg: AlgKind): seq<JitDefine>
  {
    [ JitDefine("RELU", AlgKindValue(EltwiseRelu)),
      JitDefine("LINEAR", AlgKindValue(EltwiseLinear)),
      JitDefine("BOUNDED_RELU", AlgKindValue(EltwiseBoundedRelu)),
      JitDefine("SOFT_RELU", AlgKindValue(EltwiseSoftRelu)),
      JitDefine("LOGISTIC", AlgKindValue(EltwiseLogistic)),
      JitDefine("ALG_KIND", AlgKindValue(alg)) ]
  }

  /** What the entry-point lookup stores in `kernel_` after a successful
      build: the kernel specialised for `desc`, or the null kernel when the
      entry point is missing. */
  function LookedUpKernel(desc: EltwiseDesc, entry: string, entryPresent: bool): Option<CompiledKernel>
  {
    if entryPresent then Some(CompiledKernel(entry, desc.dataDesc.dataType, KernelDefines(desc.algKind)))
    else None
  }

  /** Status returned by the forward `init`: the build status, whatever the
      entry-point lookup found. */
  function FwdInitStatus(buildStatus: Status, entryPresent: bool): (r: Status)
    ensures r == buildStatus
  {
    if buildStatus != Success then buildStatus else Success
  }

  /** Status returned by the backward `init`: a build failure unchanged, a
      missing entry point after a good build as `RuntimeError`. */
  function BwdInitStatus(buildStatus: Status, entryPresent: bool): (r: Status)
    ensures buildStatus != Success ==> r == buildStatus
    ensures buildStatus == Success ==> r == (if entryPresent then Success else RuntimeError)
    ensures r == Success <==> buildStatus == Success && entryPresent
  {
    if buildStatus != Success then buildStatus
    else if !entryPresent then RuntimeError
    else Success
  }

  /** Every constant name the kernel is given is defined exactly once, so the
      order of the definitions does not matter to the kernel. */
  lemma {:induction false} KernelDefinesDistinct(alg: AlgKind)
    ensures forall i, j :: 0 <= i < j < |KernelDefines(alg)| ==>
      KernelDefines(alg)[i].name != KernelDefines(alg)[j].name
  {
  }

  /** A name's first definition is the one the kernel sees. */
  lemma {:induction false} DefineValueFirst(defines: seq<JitDefine>, i: nat, name: string)
    requires i < |defines| && defines[i].name == name
    requires forall j :: 0 <= j < i ==> defines[j].name != name
    ensures DefineValue(defines, name) == Some(defines[i].value)
  {
    if i > 0 {
      DefineValueFirst(defines[1..], i - 1, name);
    }
  }

  /** The values the specialised kernel sees for its six constants. */
  lemma KernelDefineValues(alg: AlgKind)
    ensures DefineValue(KernelDefines(alg), "RELU") == Some(AlgKindValue(EltwiseRelu))
    ensures DefineValue(KernelDefines(alg), "LINEAR") == Some(AlgKindValue(EltwiseLinear))
    ensures DefineValue(KernelDefines(alg), "BOUNDED_RELU") == Some(AlgKindValue(EltwiseBoundedRelu))
    ensures DefineValue(KernelDefines(alg), "SOFT_RELU") == Some(AlgKindValue(EltwiseSoftRelu))
    ensures DefineValue(KernelDefines(alg), "LOGISTIC") == Some(AlgKindValue(EltwiseLogistic))
    ensures DefineValue(KernelDefines(alg), "ALG_KIND") == Some(AlgKindValue(alg))
  {
    var d := KernelDefines(alg);
    DefineValueFirst(d, 0, "RELU");
    DefineValueFirst(d, 1, "LINEAR");
    DefineValueFirst(d, 2, "BOUNDED_RELU");
    DefineValueFirst(d, 3, "SOFT_RELU");
    DefineValueFirst(d, 4, "LOGISTIC");
    DefineValueFirst(d, 5, "ALG_KIND");
  }

  /** The specialised kernel sees `ALG_KIND` equal to the descriptor's
      algorithm and each of the five named constants equal to its
      algorithm's value; among the supported algorithms, the named constant
      that `ALG_KIND` matches is exactly the descriptor's own. */
  lemma KernelDefinesSelectAlgorithm(alg: AlgKind, a: AlgKind)
    requires a in SupportedAlgKinds
    ensures DefineValue(KernelDefines(alg), "ALG_KIND") == Some(AlgKindValue(alg))
    ensures DefineValue(KernelDefines(alg), ConstantName(a)) == Some(AlgKindValue(a))
    ensures DefineValue(KernelDefines(alg), ConstantName(a)) == DefineValue(KernelDefines(alg), "ALG_KIND")
            <==> a == alg
  {
    KernelDefineValues(alg);
    var v := DefineValue(KernelDefines(alg), ConstantName(a));
    match a
    case EltwiseRelu => assert v == Some(AlgKindValue(EltwiseRelu));
    case EltwiseLinear => assert v == Some(AlgKindValue(EltwiseLinear));
    case EltwiseBoundedRelu => assert v == Some(AlgKindValue(EltwiseBoundedRelu));
    case EltwiseSoftRelu => assert v == Some(AlgKindValue(EltwiseSoftRelu));
    case EltwiseLogistic => assert v == Some(AlgKindValue(EltwiseLogistic));
  }

  /** After a successful build the two directions disagree on a missing
      entry point: forward reports success with a null kernel, backward
      reports `RuntimeError`. */
  lemma InitAsymmetry(desc: EltwiseDesc)
    ensures FwdInitStatus(Success, false) == Success && LookedUpKernel(desc, FwdEntry, false) == None
    ensures BwdInitStatus(Success, false) == RuntimeError
  {
  }

  /** The kernel builder (`ocl_jit_t`), filled step by step. */
  class OclJit {
    var dataType: Option<DataType>
    var defines: seq<JitDefine>
    var built: bool

    constructor ()
      ensures dataType == None && defines == [] && !built
    {
      dataType := None;
      defines := [];
      built := false;
    }

    method SetDataType(dt: DataType)
      modifies this
      ensures dataType == Some(dt) && defines == old(defines) && built == old(built)
    {
      dataType := Some(dt);
    }

    method DefineInt(name: string, value: int)
      modifies this
      ensures defines == old(defines) + [JitDefine(name, value)]
      ensures dataType == old(dataType) && built == old(built)
    {
      defines := defines + [JitDefine(name, value)];
    }

    /** Compile for the engine; `outcome` is what the OpenCL compiler reports. */
    method Build(outcome: Status) returns (status: Status)
      modifies this
      ensures status == outcome && built == (outcome == Success)
      ensures dataType == old(dataType) && defines == old(defines)
    {
      built := outcome == Success;
      status := outcome;
    }

    /** Resolve an entry point; `entryPresent` is whether the compiled program
      has it. An unbuilt program yields the null kernel. */
    method GetKernel(entry: string, entryPresent: bool) returns (k: Option<CompiledKernel>)
      ensures k.Some? <==> built && entryPresent && dataType.Some?
      ensures k.Some? ==> k.value == CompiledKernel(entry, dataType.value, defines)
    {
      if built && entryPresent && dataType.Some? {
        k := Some(CompiledKernel(entry, dataType.value, defines));
      } else {
        k := None;
      }
    }
  }

  /** Fill a fresh builder with the descriptor's element type and the six
      algorithm constants, in the order both `init`s do. */
  method SetUpJit(desc: EltwiseDesc) returns (jit: OclJit)
    ensures fresh(jit)
    ensures jit.dataType == Some(desc.dataDesc.dataType)
    ensures jit.defines == KernelDefines(desc.algKind) && !jit.built
  {
    jit := new OclJit();
    jit.SetDataType(desc.dataDesc.dataType);
    jit.DefineInt("RELU", AlgKindValue(EltwiseRelu));
    jit.DefineInt("LINEAR", AlgKindValue(EltwiseLinear));
    jit.DefineInt("BOUNDED_RELU", AlgKindValue(EltwiseBoundedRelu));
    jit.DefineInt("SOFT_RELU", AlgKindValue(EltwiseSoftRelu));
    jit.DefineInt("LOGISTIC", AlgKindValue(EltwiseLogistic));
    jit.DefineInt("ALG_KIND", AlgKindValue(desc.algKind));
  }

  /** The forward reference primitive. */
  class RefEltwiseFwd {
    const desc: EltwiseDesc
    var kernel: Option<CompiledKernel>

    constructor (desc: EltwiseDesc)
      ensures this.desc == desc && kernel == None
    {
      this.desc := desc;
      kernel := None;
    }

    /** A failed build is returned as is and leaves `kernel_` alone; after a
      good build the lookup result is stored, null or not, and the status is
      `Success` either way. */
    method Init(buildOutcome: Status, entryPresent: bool) returns (status: Status)
      modifies this
      ensures status == FwdInitStatus(buildOutcome, entryPresent)
      ensures kernel == if buildOutcome == Success then LookedUpKernel(desc, FwdEntry, entryPresent)
                        else old(kernel)
    {
      var jit := SetUpJit(desc);
      status := jit.Build(buildOutcome);
      if status != Success {
        return;
      }
      kernel := jit.GetKernel(FwdEntry, entryPresent);
      status := Success;
    }
  }

  /** The backward reference primitive. */
  class RefEltwiseBwd {
    const desc: EltwiseDesc
    var kernel: Option<CompiledKernel>

    constructor (desc: EltwiseDesc)
      ensures this.desc == desc && kernel == None
    {
      this.desc := desc;
      kernel := None;
    }

    /** Like the forward `init`, except that a null kernel after a good build
      is reported as `RuntimeError`; so `Success` always comes with a kernel. */
    method Init(buildOutcome: Status, entryPresent: bool) returns (status: Status)
      modifies this
      ensures status == BwdInitStatus(buildOutcome, entryPresent)
      ensures kernel == if buildOutcome == Success then LookedUpKernel(desc, BwdEntry, entryPresent)
                        else old(kernel)
      ensures status == Success ==> kernel.Some? && kernel.value.entry == BwdEntry
    {
      var jit := SetUpJit(desc);
      status := jit.Build(buildOutcome);
      if status != Success {
        return;
      }
      kernel := jit.GetKernel(BwdEntry, entryPresent);
      if kernel == None {
        status := RuntimeError;
        return;
      }
      status := Success;
    }
  }
}
