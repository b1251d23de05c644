/**
 * The layer builders of graphAttack's neural-network utilities: each one
 * appends a fixed chain of operations to a computation graph and returns the
 * last operation it appended, which the caller feeds to the next layer.
 *
 * Each builder appears twice: as a function from the old operation list to
 * the outcome (the new list and the index of the layer's last operation, or
 * the error the builder raises), about which the lemmas below state the
 * structure of a layer; and as a method that registers the operations one by
 * one on a `Graph`, proved to produce exactly what the function says.
 */
module NeuralNetwork {
  import opened ComputationGraph

  /** Why a builder fails; in every case it fails before registering anything. */
  datatype BuildError =
    | NoInputOperation                        // `inputOperation.shape` read on None
    | ShapeUnpack(expected: nat, found: nat)  // the input's shape tuple has the wrong length

  datatype Result<T> = Ok(value: T) | Err(error: BuildError)

  /** The operation list after (part of) a layer, and the index of the layer's current tail. */
  datatype Built = Built(operations: seq<Node>, last: nat)

  /** The input is absent or one of the graph's operations. */
  predicate InputInGraph(ops: seq<Node>, inputOperation: Option<nat>)
  {
    inputOperation.Some? ==> inputOperation.value < |ops|
  }

  /**
   * Reading and unpacking the input's shape into `rank` dimensions, the
   * first thing both builders do.  A missing input fails here even though
   * the dense builder tests for it on the next line: that test is never
   * reached with None.
   */
  function ReadShape(ops: seq<Node>, inputOperation: Option<nat>, rank: nat): (r: Result<Shape>)
    requires InputInGraph(ops, inputOperation)
    ensures inputOperation.None? ==> r == Err(NoInputOperation)
    ensures inputOperation.Some? ==>
              (r.Ok? <==> |ops[inputOperation.value].shape| == rank)
    ensures r.Ok? ==> r.value == ops[inputOperation.value].shape && |r.value| == rank
    ensures inputOperation.Some? && r.Err? ==>
              r.error == ShapeUnpack(rank, |ops[inputOperation.value].shape|)
  {
    match inputOperation
    case None => Err(NoInputOperation)
    case Some(x) =>
      var shape := ops[x].shape;
      if |shape| == rank then Ok(shape) else Err(ShapeUnpack(rank, |shape|))
  }

  /** The input is an operation of the graph whose shape has `rank` dimensions. */
  predicate HasRank(ops: seq<Node>, inputOperation: Option<nat>, rank: nat)
  {
    inputOperation.Some? && inputOperation.value < |ops| && |ops[inputOperation.value].shape| == rank
  }

  /** The number of dropout operations a dense layer gets: one exactly when the rate is positive. */
  function DropoutCount(dropoutRate: real): (c: nat)
  {
    if dropoutRate > 0.0 then 1 else 0
  }

  /** The number of operations batch normalisation adds: beta, gamma and the normalisation. */
  function BatchNormCount(batchNormalisation: bool): (c: nat)
  {
    if batchNormalisation then 3 else 0
  }

  /** `shape[1:]` of a shape tuple. */
  function Tail(shape: Shape): (t: Shape)
  {
    if |shape| == 0 then [] else shape[1..]
  }

  /**
   * A trainable variable as the builders register it: made by
   * generateRandomVariable with the given arguments, added with
   * doGradient=True, never as feeder or final operation; its shape is
   * `VariableShape` of the request.
   */
  function Variable(requested: Shape, transpose: Option<bool>, nInputs: Option<int>): (v: Node)
  {
    Node(Param(requested, transpose, nInputs), [], VariableShape(requested, transpose), true, false, false)
  }

  /**
   * A kernel operation consuming `inputs` of `ops` as the builders register
   * it: doGradient, feederOperation and finalOperation all false, whether
   * given explicitly or left at addOperation's defaults.
   */
  function Kernel(ops: seq<Node>, rule: ShapeRule, kind: OpKind, inputs: seq<nat>): (n: Node)
    requires InputsBefore(inputs, |ops|)
  {
    Node(kind, inputs, rule(kind, InputShapes(ops, inputs)), false, false, false)
  }

  /**
   * The dense layer's linear part for the input `x` of shape (N, D):
   * weight (nOutputNodes, D) with fan-in D, bias (nOutputNodes) with fan-in
   * 1, x times the weight, that plus the bias, which is the stage's tail.
   */
  function LinearStep(ops: seq<Node>, rule: ShapeRule, x: nat, nOutputNodes: int): (r: Built)
    requires x < |ops| && |ops[x].shape| == 2
    ensures |r.operations| == |ops| + 4 && r.last == |ops| + 3
  {
    var k, D := |ops|, ops[x].shape[1];
    var withW := ops + [Variable([nOutputNodes, D], Some(true), Some(D))];
    var withB := withW + [Variable([nOutputNodes], Some(false), Some(1))];
    var withMatMul := withB + [Kernel(withB, rule, MatMul, [x, k])];
    Built(withMatMul + [Kernel(withMatMul, rule, Add, [k + 2, k + 1])], k + 3)
  }

  /** The dense layer's optional dropout of `prev`. */
  function DropoutStep(ops: seq<Node>, rule: ShapeRule, prev: nat, dropoutRate: real): (r: Built)
    requires prev < |ops|
    ensures |r.operations| == |ops| + DropoutCount(dropoutRate) && r.last < |r.operations|
  {
    if dropoutRate > 0.0 then Built(ops + [Kernel(ops, rule, Dropout(dropoutRate), [prev])], |ops|)
    else Built(ops, prev)
  }

  /**
   * The optional batch normalisation of `prev`: two variables of shape
   * `paramShape` made with generateRandomVariable's default arguments
   * (beta, then gamma), then the normalisation of (prev, beta, gamma).
   */
  function BatchNormStep(ops: seq<Node>, rule: ShapeRule, prev: nat, paramShape: Shape,
                         batchNormalisation: bool): (r: Built)
    requires prev < |ops|
    ensures |r.operations| == |ops| + BatchNormCount(batchNormalisation) && r.last < |r.operations|
  {
    if batchNormalisation then
      var k := |ops|;
      var withBeta := ops + [Variable(paramShape, None, None)];
      var withGamma := withBeta + [Variable(paramShape, None, None)];
      Built(withGamma + [Kernel(withGamma, rule, BatchNorm, [prev, k, k + 1])], k + 2)
    else
      Built(ops, prev)
  }

  /** A single kernel operation consuming `prev`, which becomes the tail. */
  function KernelStep(ops: seq<Node>, rule: ShapeRule, kind: OpKind, prev: nat): (r: Built)
    requires prev < |ops|
    ensures |r.operations| == |ops| + 1 && r.last == |ops|
  {
    Built(ops + [Kernel(ops, rule, kind, [prev])], |ops|)
  }

  /**
   * addDenseLayer on the operation list `ops`: the list extended by the
   * linear part, [dropout], [beta, gamma, batch normalisation] and the
   * activation, with the index of the activation; or the error raised while
   * reading the input's shape, before anything is registered.
   */
  function DenseLayer(ops: seq<Node>, rule: ShapeRule, nOutputNodes: int, inputOperation: Option<nat>,
                      activation: string, dropoutRate: real, batchNormalisation: bool): (r: Result<Built>)
    requires InputInGraph(ops, inputOperation)
    ensures r.Ok? <==> HasRank(ops, inputOperation, 2)
    ensures inputOperation.None? ==> r == Err(NoInputOperation)
    ensures inputOperation.Some? && r.Err? ==>
              r == Err(ShapeUnpack(2, |ops[inputOperation.value].shape|))
    ensures r.Ok? ==>
              && |r.value.operations| == |ops| + 5 + DropoutCount(dropoutRate) + BatchNormCount(batchNormalisation)
              && r.value.last == |r.value.operations| - 1
  {
    match ReadShape(ops, inputOperation, 2)
    case Err(e) => Err(e)
    case Ok(_) =>
      var addo := LinearStep(ops, rule, inputOperation.value, nOutputNodes);
      var dpo := DropoutStep(addo.operations, rule, addo.last, dropoutRate);
      var bnorm := BatchNormStep(dpo.operations, rule, dpo.last, [1, nOutputNodes], batchNormalisation);
      Ok(KernelStep(bnorm.operations, rule, Activation(activation), bnorm.last))
  }

  /**
   * The convolution layer's linear part for the input `x` of shape
   * (N, C, H, W): filter (nFilters, C, filterHeigth, filterWidth) with
   * fan-in filterHeigth * filterWidth * C, the convolution of x with it,
   * bias (1, nFilters, 1, 1) with fan-in 1, their sum, which is the tail.
   */
  function ConvolutionStep(ops: seq<Node>, rule: ShapeRule, x: nat, nFilters: int,
                           filterHeigth: int, filterWidth: int, padding: string,
                           convStride: int): (r: Built)
    requires x < |ops| && |ops[x].shape| == 4
    ensures |r.operations| == |ops| + 4 && r.last == |ops| + 3
  {
    var k, C := |ops|, ops[x].shape[1];
    var withFilter := ops + [Variable([nFilters, C, filterHeigth, filterWidth], Some(false),
                                      Some(filterHeigth * filterWidth * C))];
    var withConv := withFilter + [Kernel(withFilter, rule, Conv2d(convStride, padding), [x, k])];
    var withBias := withConv + [Variable([1, nFilters, 1, 1], Some(false), Some(1))];
    Built(withBias + [Kernel(withBias, rule, Add, [k + 1, k + 2])], k + 3)
  }

  /**
   * addConv2dLayer on the operation list `ops`: the list extended by the
   * convolution part, [beta, gamma, batch normalisation] with variables of
   * shape (1, *add.shape[1:]), the activation and the pooling, with the
   * index of the pooling; or the error raised while reading the input's
   * shape, before anything is registered.
   */
  function Conv2dLayer(ops: seq<Node>, rule: ShapeRule, inputOperation: Option<nat>, nFilters: int,
                       filterHeigth: int, filterWidth: int, padding: string, convStride: int,
                       activation: string, batchNormalisation: bool, pooling: string,
                       poolHeight: int, poolWidth: int, poolStride: int): (r: Result<Built>)
    requires InputInGraph(ops, inputOperation)
    ensures r.Ok? <==> HasRank(ops, inputOperation, 4)
    ensures inputOperation.None? ==> r == Err(NoInputOperation)
    ensures inputOperation.Some? && r.Err? ==>
              r == Err(ShapeUnpack(4, |ops[inputOperation.value].shape|))
    ensures r.Ok? ==>
              && |r.value.operations| == |ops| + 6 + BatchNormCount(batchNormalisation)
              && r.value.last == |r.value.operations| - 1
  {
    match ReadShape(ops, inputOperation, 4)
    case Err(e) => Err(e)
    case Ok(_) =>
      var addConv2d := ConvolutionStep(ops, rule, inputOperation.value, nFilters, filterHeigth,
                                       filterWidth, padding, convStride);
      var addShape := addConv2d.operations[addConv2d.last].shape;
      var bnorm := BatchNormStep(addConv2d.operations, rule, addConv2d.last, [1] + Tail(addShape),
                                 batchNormalisation);
      var actop := KernelStep(bnorm.operations, rule, Activation(activation), bnorm.last);
      Ok(KernelStep(actop.operations, rule, Pool(pooling, poolHeight, poolWidth, poolStride), actop.last))
  }

  /** The operation reached from `i` by following the first input `n` times. */
  function MainInput(ops: seq<Node>, i: nat, n: nat): (r: Option<nat>)
    requires i < |ops|
    ensures r.Some? ==> r.value < |ops|
    ensures WellFormed(ops) && r.Some? ==> r.value + n <= i
    decreases n
  {
    if n == 0 then Some(i)
    else if |ops[i].inputs| == 0 || ops[i].inputs[0] >= |ops| then None
    else MainInput(ops, ops[i].inputs[0], n - 1)
  }

  /** Registers the dense layer's linear part and returns the index of the bias addition. */
  method AddLinear(mainGraph: Graph, x: nat, nOutputNodes: int, D: int) returns (addo: nat)
    requires mainGraph.Valid() && x < |mainGraph.operations|
    requires |mainGraph.operations[x].shape| == 2 && D == mainGraph.operations[x].shape[1]
    modifies mainGraph
    ensures mainGraph.Valid()
    ensures var step := LinearStep(old(mainGraph.operations), mainGraph.rule, x, nOutputNodes);
            mainGraph.operations == step.operations && addo == step.last
  {
    var wo := mainGraph.AddOperation(Param([nOutputNodes, D], Some(true), Some(D)), [], true, false, false);
    var bo := mainGraph.AddOperation(Param([nOutputNodes], Some(false), Some(1)), [], true, false, false);
    var mmo := mainGraph.AddOperation(MatMul, [x, wo], false, false, false);
    addo := mainGraph.AddOperation(Add, [mmo, bo], false, false, false);
  }

  /** Registers the dense layer's optional dropout of `prev` and returns the new tail. */
  method AddDropout(mainGraph: Graph, prev: nat, dropoutRate: real) returns (dpo: nat)
    requires mainGraph.Valid() && prev < |mainGraph.operations|
    modifies mainGraph
    ensures mainGraph.Valid()
    ensures var step := DropoutStep(old(mainGraph.operations), mainGraph.rule, prev, dropoutRate);
            mainGraph.operations == step.operations && dpo == step.last
  {
    if dropoutRate > 0.0 {
      dpo := mainGraph.AddOperation(Dropout(dropoutRate), [prev], false, false, false);
    } else {
      dpo := prev;
    }
  }

  /**
   * Registers the optional batch normalisation of `prev`, with variables of
   * shape `paramShape`, and returns the new tail.
   */
  method AddBatchNorm(mainGraph: Graph, prev: nat, paramShape: Shape, batchNormalisation: bool)
    returns (bnorm: nat)
    requires mainGraph.Valid() && prev < |mainGraph.operations|
    modifies mainGraph
    ensures mainGraph.Valid()
    ensures var step := BatchNormStep(old(mainGraph.operations), mainGraph.rule, prev, paramShape,
                                      batchNormalisation);
            mainGraph.operations == step.operations && bnorm == step.last
  {
    if batchNormalisation {
      var beta := mainGraph.AddOperation(Param(paramShape, None, None), [], true, false, false);
      var gamma := mainGraph.AddOperation(Param(paramShape, None, None), [], true, false, false);
      bnorm := mainGraph.AddOperation(BatchNorm, [prev, beta, gamma], false, false, false);
    } else {
      bnorm := prev;
    }
  }

  /**
   * addDenseLayer: registers the layer's operations on `mainGraph` one by
   * one and returns the index of the activation, or fails, registering
   * nothing, when the input is missing or its shape is not (N, D).
   */
  method AddDenseLayer(mainGraph: Graph, nOutputNodes: int, inputOperation: Option<nat>,
                       activation: string, dropoutRate: real, batchNormalisation: bool)
    returns (r: Result<nat>)
    requires mainGraph.Valid() && InputInGraph(mainGraph.operations, inputOperation)
    modifies mainGraph
    ensures mainGraph.Valid()
    ensures match DenseLayer(old(mainGraph.operations), mainGraph.rule, nOutputNodes, inputOperation,
                             activation, dropoutRate, batchNormalisation)
            case Ok(built) => r == Ok(built.last) && mainGraph.operations == built.operations
            case Err(e) => r == Err(e) && mainGraph.operations == old(mainGraph.operations)
  {
    var shape := ReadShape(mainGraph.operations, inputOperation, 2);
    if shape.Err? {
      return Err(shape.error);
    }
    var D := shape.value[1];
    var addo := AddLinear(mainGraph, inputOperation.value, nOutputNodes, D);
    var dpo := AddDropout(mainGraph, addo, dropoutRate);
    var bnorm := AddBatchNorm(mainGraph, dpo, [1, nOutputNodes], batchNormalisation);
    var acto := mainGraph.AddOperation(Activation(activation), [bnorm], false, false, false);
    return Ok(acto);
  }

  /** Registers the convolution layer's linear part and returns the index of the bias addition. */
  method AddConvolution(mainGraph: Graph, x: nat, nFilters: int, filterHeigth: int,
                        filterWidth: int, padding: string, convStride: int, C: int)
    returns (addConv2d: nat)
    requires mainGraph.Valid() && x < |mainGraph.operations|
    requires |mainGraph.operations[x].shape| == 4 && C == mainGraph.operations[x].shape[1]
    modifies mainGraph
    ensures mainGraph.Valid()
    ensures var step := ConvolutionStep(old(mainGraph.operations), mainGraph.rule, x, nFilters,
                                        filterHeigth, filterWidth, padding, convStride);
            mainGraph.operations == step.operations && addConv2d == step.last
  {
    var filterWop := mainGraph.AddOperation(Param([nFilters, C, filterHeigth, filterWidth], Some(false),
                                                  Some(filterHeigth * filterWidth * C)),
                                            [], true, false, false);
    var opConv2d := mainGraph.AddOperation(Conv2d(convStride, padding), [x, filterWop], false, false, false);
    var filterBop := mainGraph.AddOperation(Param([1, nFilters, 1, 1], Some(false), Some(1)), [], true, false, false);
    addConv2d := mainGraph.AddOperation(Add, [opConv2d, filterBop], false, false, false);
  }

  /**
   * addConv2dLayer: registers the layer's operations on `mainGraph` one by
   * one and returns the index of the pooling, or fails, registering
   * nothing, when the input is missing or its shape is not (N, C, H, W).
   */
  method AddConv2dLayer(mainGraph: Graph, inputOperation: Option<nat>, nFilters: int,
                        filterHeigth: int, filterWidth: int, padding: string, convStride: int,
                        activation: string, batchNormalisation: bool, pooling: string,
                        poolHeight: int, poolWidth: int, poolStride: int)
    returns (r: Result<nat>)
    requires mainGraph.Valid() && InputInGraph(mainGraph.operations, inputOperation)
    modifies mainGraph
    ensures mainGraph.Valid()
    ensures match Conv2dLayer(old(mainGraph.operations), mainGraph.rule, inputOperation, nFilters,
                              filterHeigth, filterWidth, padding, convStride, activation,
                              batchNormalisation, pooling, poolHeight, poolWidth, poolStride)
            case Ok(built) => r == Ok(built.last) && mainGraph.operations == built.operations
            case Err(e) => r == Err(e) && mainGraph.operations == old(mainGraph.operations)
  {
    var shape := ReadShape(mainGraph.operations, inputOperation, 4);
    if shape.Err? {
      return Err(shape.error);
    }
    var C := shape.value[1];
    var addConv2d := AddConvolution(mainGraph, inputOperation.value, nFilters, filterHeigth,
                                    filterWidth, padding, convStride, C);
    var addShape := mainGraph.operations[addConv2d].shape;
    var bnorm := AddBatchNorm(mainGraph, addConv2d, [1] + Tail(addShape), batchNormalisation);
    var actop := mainGraph.AddOperation(Activation(activation), [bnorm], false, false, false);
    var poolOP := mainGraph.AddOperation(Pool(pooling, poolHeight, poolWidth, poolStride), [actop],
                                         false, false, false);
    return Ok(poolOP);
  }
}
