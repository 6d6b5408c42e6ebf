/** Descriptors of an elementwise activation and the two validators of the
    OpenCL reference implementation (`ref_eltwise_fwd_t::pd_t::init` and
    `ref_eltwise_bwd_t::pd_t::init`). Validation is a pure accept/reject
    decision: `Success` when the reference kernel can run the operation,
    `Unimplemented` otherwise. */
module EltwisePd {

  /** The library's status codes (`mkldnn_status_t`). */
  datatype Status =
    | Success
    | OutOfMemory
    | TryAgain
    | InvalidArguments
    | NotReady
    | Unimplemented
    | IteratorEnds
    | RuntimeError
    | NotRequired

  /** Propagation kinds (`mkldnn_prop_kind_t`). */
  datatype PropKind =
    | PropKindUndef
    | ForwardTraining
    | ForwardInference
    | Backward
    | BackwardData
    | BackwardWeights
    | BackwardBias

  /** Elementwise algorithm kinds (`mkldnn_alg_kind_t`, eltwise part). */
  datatype AlgKind =
    | EltwiseRelu
    | EltwiseTanh
    | EltwiseElu
    | EltwiseSquare
    | EltwiseAbs
    | EltwiseSqrt
    | EltwiseLinear
    | EltwiseBoundedRelu
    | EltwiseSoftRelu
    | EltwiseLogistic

  /** Numeric types of tensor elements (`mkldnn_data_type_t`). */
  datatype DataType = DataTypeUndef | F16 | Bf16 | F32 | S32 | S8 | U8

  /** A tensor layout descriptor: logical dimensions, element type and the
      physical layout (strides and the offset of the first element). Two
      descriptors are equal exactly when they agree on all of these. */
  datatype MemoryDesc = MemoryDesc(dims: seq<int>, dataType: DataType, strides: seq<int>, offset0: int)

  /** The operation description (`eltwise_desc_t`) as far as validation and
      kernel setup read it. */
  datatype EltwiseDesc = EltwiseDesc(
    propKind: PropKind,
    algKind: AlgKind,
    dataDesc: MemoryDesc,
    diffDataDesc: MemoryDesc)

  /** The primitive attributes; only whether they hold their default values
      matters to this implementation. */
  datatype PrimitiveAttr = PrimitiveAttr(hasDefaultValues: bool)

  datatype EngineKind = Cpu | Gpu

  /** The OpenCL engine, reduced to its kind and the one capability query the
      forward validator makes: whether the device supports `cl_khr_fp16`. */
  datatype ClEngine = ClEngine(kind: EngineKind, khrFp16: bool)

  /** `utils::one_of`: membership in a list of alternatives. */
  predicate OneOf<T(==)>(x: T, alternatives: seq<T>)
  {
    x in alternatives
  }

  /** `IMPLICATION(cause, effect)`. */
  predicate Implication(cause: bool, effect: bool)
  {
    !cause || effect
  }

  /** The algorithm kinds the reference kernel implements, in the order the
      source lists them. */
  const SupportedAlgKinds: seq<AlgKind> :=
    [EltwiseRelu, EltwiseLinear, EltwiseBoundedRelu, EltwiseSoftRelu, EltwiseLogistic]

  /** Forward validator. `isDense` stands for `memory_desc_wrapper::is_dense`,
      whose definition is not part of this model: every result below holds for
      any density predicate. */
  function FwdPdInit(desc: EltwiseDesc, attr: PrimitiveAttr, engine: ClEngine,
                     isDense: MemoryDesc -> bool): (r: Status)
    ensures r == Success || r == Unimplemented
    ensures r == Success <==>
      && desc.propKind in {ForwardTraining, ForwardInference}
      && desc.algKind in {EltwiseRelu, EltwiseLinear, EltwiseBoundedRelu, EltwiseSoftRelu, EltwiseLogistic}
      && desc.dataDesc.dataType in {F32, F16}
      && isDense(desc.dataDesc)
      && attr.hasDefaultValues
      && (desc.dataDesc.dataType == F16 ==> engine.khrFp16)
  {
    var ok :=
      && OneOf(desc.propKind, [ForwardTraining, ForwardInference])
      && OneOf(desc.algKind, SupportedAlgKinds)
      && OneOf(desc.dataDesc.dataType, [F32, F16])
      && isDense(desc.dataDesc)
      && attr.hasDefaultValues
      && Implication(desc.dataDesc.dataType == F16, engine.khrFp16);
    if !ok then Unimplemented else Success
  }

  /** Backward validator. The engine is available to it (the source only
      asserts that it is a GPU engine) but no capability of it is queried. */
  function BwdPdInit(desc: EltwiseDesc, attr: PrimitiveAttr, engine: ClEngine,
                     isDense: MemoryDesc -> bool): (r: Status)
    ensures r == Success || r == Unimplemented
    ensures r == Success <==>
      && desc.propKind == BackwardData
      && desc.algKind in {EltwiseRelu, EltwiseLinear, EltwiseBoundedRelu, EltwiseSoftRelu, EltwiseLogistic}
      && desc.dataDesc.dataType in {F32, F16}
      && isDense(desc.dataDesc)
      && desc.dataDesc == desc.diffDataDesc
      && attr.hasDefaultValues
  {
    var ok :=
      && desc.propKind == BackwardData
      && OneOf(desc.algKind, SupportedAlgKinds)
      && OneOf(desc.dataDesc.dataType, [F32, F16])
      && isDense(desc.dataDesc) && desc.dataDesc == desc.diffDataDesc
      && attr.hasDefaultValues;
    if !ok then Unimplemented else Success
  }

  /** Forward validation refuses every propagation kind but training and
      inference. */
  lemma FwdRejectsOtherPropKinds(desc: EltwiseDesc, attr: PrimitiveAttr, engine: ClEngine,
                                 isDense: MemoryDesc -> bool)
    requires desc.propKind != ForwardTraining && desc.propKind != ForwardInference
    ensures FwdPdInit(desc, attr, engine, isDense) == Unimplemented
  {
  }

  /** Both validators refuse an algorithm kind outside the supported five and
      an element type other than f32 and f16. */
  lemma RejectUnsupportedAlgOrType(desc: EltwiseDesc, attr: PrimitiveAttr, engine: ClEngine,
                                   isDense: MemoryDesc -> bool)
    requires desc.algKind !in SupportedAlgKinds || desc.dataDesc.dataType !in {F32, F16}
    ensures FwdPdInit(desc, attr, engine, isDense) == Unimplemented
    ensures BwdPdInit(desc, attr, engine, isDense) == Unimplemented
  {
  }

  /** Both validators refuse a layout the density predicate rejects and
      attributes that are not the defaults. */
  lemma RejectSparseOrNonDefault(desc: EltwiseDesc, attr: PrimitiveAttr, engine: ClEngine,
                                 isDense: MemoryDesc -> bool)
    requires !isDense(desc.dataDesc) || !attr.hasDefaultValues
    ensures FwdPdInit(desc, attr, engine, isDense) == Unimplemented
    ensures BwdPdInit(desc, attr, engine, isDense) == Unimplemented
  {
  }

  /** The f16 gate: with everything else acceptable, an f16 forward
      descriptor is accepted exactly when the engine supports `cl_khr_fp16`. */
  lemma FwdF16GatedByKhrFp16(desc: EltwiseDesc, attr: PrimitiveAttr, engine: ClEngine,
                             isDense: MemoryDesc -> bool)
    requires desc.propKind in {ForwardTraining, ForwardInference}
    requires desc.algKind in SupportedAlgKinds
    requires desc.dataDesc.dataType == F16
    requires isDense(desc.dataDesc) && attr.hasDefaultValues
    ensures FwdPdInit(desc, attr, engine, isDense) == Success <==> engine.khrFp16
  {
  }

  /** For every element type other than f16 (f32 in particular) the
      capability flag never changes the forward outcome. */
  lemma FwdNonF16IgnoresCapability(desc: EltwiseDesc, attr: PrimitiveAttr, kind: EngineKind,
                                   isDense: MemoryDesc -> bool)
    requires desc.dataDesc.dataType != F16
    ensures FwdPdInit(desc, attr, ClEngine(kind, true), isDense)
         == FwdPdInit(desc, attr, ClEngine(kind, false), isDense)
  {
  }

  /** The backward validator has no f16 gate: its outcome is the same on
      every engine, whatever the element type. */
  lemma BwdIgnoresEngine(desc: EltwiseDesc, attr: PrimitiveAttr, e1: ClEngine, e2: ClEngine,
                         isDense: MemoryDesc -> bool)
    ensures BwdPdInit(desc, attr, e1, isDense) == BwdPdInit(desc, attr, e2, isDense)
  {
  }

  /** Backward validation refuses any propagation kind but backward-data and
      any gradient layout that differs from the data layout, even when both
      are dense and everything else is acceptable. */
  lemma BwdRequiresBackwardDataAndSameLayout(desc: EltwiseDesc, attr: PrimitiveAttr, engine: ClEngine,
                                             isDense: MemoryDesc -> bool)
    requires desc.propKind != BackwardData || desc.dataDesc != desc.diffDataDesc
    ensures BwdPdInit(desc, attr, engine, isDense) == Unimplemented
  {
  }

  /** Every supported algorithm with a dense f32 or f16 layout and default
      attributes is accepted for forward training and inference, except f16
      on an engine without `cl_khr_fp16`; the same descriptors with a matching
      gradient layout are accepted for backward-data on any engine. */
  lemma AcceptsSupportedConfigurations(alg: AlgKind, dt: DataType, data: MemoryDesc,
                                       engine: ClEngine, isDense: MemoryDesc -> bool)
    requires alg in SupportedAlgKinds && dt in {F32, F16}
    requires data.dataType == dt && isDense(data)
    ensures forall pk :: pk in {ForwardTraining, ForwardInference} ==>
      (FwdPdInit(EltwiseDesc(pk, alg, data, data), PrimitiveAttr(true), engine, isDense) == Success
       <==> (dt == F32 || engine.khrFp16))
    ensures BwdPdInit(EltwiseDesc(BackwardData, alg, data, data), PrimitiveAttr(true), engine, isDense) == Success
  {
  }
}
