/**
 * What the two layer builders promise about the operations they append:
 * which operations, in which order, wired to which inputs, with which shapes
 * for the variables, which of them are trainable, and that the graph stays
 * acyclic with the returned index as the layer's output.
 */
module LayerProperties {
  import opened ComputationGraph
  import opened NeuralNetwork

  /** Operation `j` of `g` is a kernel of `kind` consuming `inputs`, registered with no flag set. */
  predicate KernelAt(g: seq<Node>, j: nat, kind: OpKind, inputs: seq<nat>)
  {
    && j < |g| && g[j].kind == kind && g[j].inputs == inputs
    && !g[j].doGradient && !g[j].feederOperation && !g[j].finalOperation
  }

  /** Operation `j` of `g` is the trainable variable of the given generateRandomVariable arguments. */
  predicate VariableAt(g: seq<Node>, j: nat, requested: Shape, transpose: Option<bool>,
                       nInputs: Option<int>)
  {
    j < |g| && g[j] == Variable(requested, transpose, nInputs)
  }

  /** A prefix of a prefix is a prefix. */
  lemma PrefixOfPrefix(a: seq<Node>, b: seq<Node>, c: seq<Node>)
    requires |c| <= |b| <= |a| && a[..|b|] == b && b[..|c|] == c
    ensures a[..|c|] == c
  {
    assert a[..|c|] == a[..|b|][..|c|];
  }

  /** One step back along first inputs, from an operation whose first input is `j`. */
  lemma FirstInputStep(g: seq<Node>, i: nat, j: nat, n: nat)
    requires i < |g| && j < |g| && |g[i].inputs| > 0 && g[i].inputs[0] == j
    ensures MainInput(g, i, n + 1) == MainInput(g, j, n)
  {
  }

  // ---------------------------------------------------------------------------
  // The stages, one at a time

  lemma LinearStepNodes(ops: seq<Node>, rule: ShapeRule, x: nat, nOutputNodes: int)
    requires x < |ops| && |ops[x].shape| == 2
    ensures var g, k, D := LinearStep(ops, rule, x, nOutputNodes).operations, |ops|, ops[x].shape[1];
            && g[..k] == ops
            && VariableAt(g, k, [nOutputNodes, D], Some(true), Some(D))
            && g[k].shape == [D, nOutputNodes]
            && VariableAt(g, k + 1, [nOutputNodes], Some(false), Some(1))
            && g[k + 1].shape == [nOutputNodes]
            && KernelAt(g, k + 2, MatMul, [x, k])
            && KernelAt(g, k + 3, Add, [k + 2, k + 1])
  {
  }

  lemma LinearStepRegistered(ops: seq<Node>, rule: ShapeRule, x: nat, nOutputNodes: int)
    requires x < |ops| && |ops[x].shape| == 2
    ensures var g, k := LinearStep(ops, rule, x, nOutputNodes).operations, |ops|;
            && Trainable(g) == Trainable(ops) + [k, k + 1]
            && (WellFormed(ops) ==> WellFormed(g))
  {
    var k, D := |ops|, ops[x].shape[1];
    var w := Variable([nOutputNodes, D], Some(true), Some(D));
    var withW := ops + [w];
    var b := Variable([nOutputNodes], Some(false), Some(1));
    var withB := withW + [b];
    var mm := Kernel(withB, rule, MatMul, [x, k]);
    var withMatMul := withB + [mm];
    var add := Kernel(withMatMul, rule, Add, [k + 2, k + 1]);
    TrainableSnoc(ops, w);
    TrainableSnoc(withW, b);
    TrainableSnoc(withB, mm);
    TrainableSnoc(withMatMul, add);
    if WellFormed(ops) {
      WellFormedConcat(ops, [w]);
      WellFormedConcat(withW, [b]);
      WellFormedConcat(withB, [mm]);
      WellFormedConcat(withMatMul, [add]);
    }
  }

  lemma DropoutStepNodes(ops: seq<Node>, rule: ShapeRule, prev: nat, dropoutRate: real)
    requires prev < |ops|
    ensures var r, k := DropoutStep(ops, rule, prev, dropoutRate), |ops|;
            && r.operations[..k] == ops
            && (dropoutRate > 0.0 ==> KernelAt(r.operations, k, Dropout(dropoutRate), [prev]) && r.last == k)
            && (dropoutRate <= 0.0 ==> r.last == prev)
  {
  }

  lemma DropoutStepRegistered(ops: seq<Node>, rule: ShapeRule, prev: nat, dropoutRate: real)
    requires prev < |ops|
    ensures var g := DropoutStep(ops, rule, prev, dropoutRate).operations;
            && Trainable(g) == Trainable(ops)
            && (WellFormed(ops) ==> WellFormed(g))
  {
    if dropoutRate > 0.0 {
      var dp := Kernel(ops, rule, Dropout(dropoutRate), [prev]);
      TrainableSnoc(ops, dp);
      if WellFormed(ops) {
        WellFormedConcat(ops, [dp]);
      }
    }
  }

  lemma BatchNormStepNodes(ops: seq<Node>, rule: ShapeRule, prev: nat, paramShape: Shape,
                           batchNormalisation: bool)
    requires prev < |ops|
    ensures var r, k := BatchNormStep(ops, rule, prev, paramShape, batchNormalisation), |ops|;
            && r.operations[..k] == ops
            && (batchNormalisation ==>
                  && VariableAt(r.operations, k, paramShape, None, None)
                  && VariableAt(r.operations, k + 1, paramShape, None, None)
                  && KernelAt(r.operations, k + 2, BatchNorm, [prev, k, k + 1])
                  && r.last == k + 2)
            && (!batchNormalisation ==> r.last == prev)
  {
  }

  /** With batch normalisation on, the stage appends beta, gamma and the normalisation. */
  lemma BatchNormStepOperations(ops: seq<Node>, rule: ShapeRule, prev: nat, paramShape: Shape)
    requires prev < |ops|
    ensures var beta, k := Variable(paramShape, None, None), |ops|;
            BatchNormStep(ops, rule, prev, paramShape, true).operations
              == ops + [beta] + [beta] + [Kernel(ops + [beta] + [beta], rule, BatchNorm, [prev, k, k + 1])]
  {
  }

  /** Appending two trainable variables and a kernel consuming earlier operations. */
  lemma AppendTwoVariablesAndKernel(ops: seq<Node>, v: Node, n: Node)
    requires v.doGradient && v.inputs == [] && !n.doGradient && InputsBefore(n.inputs, |ops| + 2)
    ensures Trainable(ops + [v] + [v] + [n]) == Trainable(ops) + [|ops|, |ops| + 1]
    ensures WellFormed(ops) ==> WellFormed(ops + [v] + [v] + [n])
  {
    TrainableSnoc(ops, v);
    TrainableSnoc(ops + [v], v);
    TrainableSnoc(ops + [v] + [v], n);
    if WellFormed(ops) {
      WellFormedConcat(ops, [v]);
      WellFormedConcat(ops + [v], [v]);
      WellFormedConcat(ops + [v] + [v], [n]);
    }
  }

  lemma BatchNormNodesRegistered(ops: seq<Node>, rule: ShapeRule, prev: nat, paramShape: Shape)
    requires prev < |ops|
    ensures var beta, k := Variable(paramShape, None, None), |ops|;
            var g := ops + [beta] + [beta] + [Kernel(ops + [beta] + [beta], rule, BatchNorm, [prev, k, k + 1])];
            && Trainable(g) == Trainable(ops) + [k, k + 1]
            && (WellFormed(ops) ==> WellFormed(g))
  {
    var k, beta := |ops|, Variable(paramShape, None, None);
    AppendTwoVariablesAndKernel(ops, beta, Kernel(ops + [beta] + [beta], rule, BatchNorm, [prev, k, k + 1]));
  }

  lemma BatchNormStepRegistered(ops: seq<Node>, rule: ShapeRule, prev: nat, paramShape: Shape,
                                batchNormalisation: bool)
    requires prev < |ops|
    ensures var g, k := BatchNormStep(ops, rule, prev, paramShape, batchNormalisation).operations, |ops|;
            && Trainable(g) == Trainable(ops) + (if batchNormalisation then [k, k + 1] else [])
            && (WellFormed(ops) ==> WellFormed(g))
  {
    if batchNormalisation {
      BatchNormStepOperations(ops, rule, prev, paramShape);
      BatchNormNodesRegistered(ops, rule, prev, paramShape);
    } else {
      assert Trainable(ops) + [] == Trainable(ops);
    }
  }

  lemma KernelStepNodes(ops: seq<Node>, rule: ShapeRule, kind: OpKind, prev: nat)
    requires prev < |ops|
    ensures var g, k := KernelStep(ops, rule, kind, prev).operations, |ops|;
            && g[..k] == ops
            && KernelAt(g, k, kind, [prev])
            && Trainable(g) == Trainable(ops)
            && (WellFormed(ops) ==> WellFormed(g))
  {
    var n := Kernel(ops, rule, kind, [prev]);
    TrainableSnoc(ops, n);
    if WellFormed(ops) {
      WellFormedConcat(ops, [n]);
    }
  }

  lemma ConvolutionStepNodes(ops: seq<Node>, rule: ShapeRule, x: nat, nFilters: int,
                             filterHeigth: int, filterWidth: int, padding: string, convStride: int)
    requires x < |ops| && |ops[x].shape| == 4
    ensures var g, k, C := ConvolutionStep(ops, rule, x, nFilters, filterHeigth, filterWidth, padding,
                                           convStride).operations, |ops|, ops[x].shape[1];
            && g[..k] == ops
            && VariableAt(g, k, [nFilters, C, filterHeigth, filterWidth], Some(false),
                          Some(filterHeigth * filterWidth * C))
            && KernelAt(g, k + 1, Conv2d(convStride, padding), [x, k])
            && VariableAt(g, k + 2, [1, nFilters, 1, 1], Some(false), Some(1))
            && KernelAt(g, k + 3, Add, [k + 1, k + 2])
  {
  }

  lemma ConvolutionStepRegistered(ops: seq<Node>, rule: ShapeRule, x: nat, nFilters: int,
                                  filterHeigth: int, filterWidth: int, padding: string, convStride: int)
    requires x < |ops| && |ops[x].shape| == 4
    ensures var g, k := ConvolutionStep(ops, rule, x, nFilters, filterHeigth, filterWidth, padding,
                                        convStride).operations, |ops|;
            && Trainable(g) == Trainable(ops) + [k, k + 2]
            && (WellFormed(ops) ==> WellFormed(g))
  {
    var k, C := |ops|, ops[x].shape[1];
    var filter := Variable([nFilters, C, filterHeigth, filterWidth], Some(false),
                           Some(filterHeigth * filterWidth * C));
    var withFilter := ops + [filter];
    var conv := Kernel(withFilter, rule, Conv2d(convStride, padding), [x, k]);
    var withConv := withFilter + [conv];
    var bias := Variable([1, nFilters, 1, 1], Some(false), Some(1));
    var withBias := withConv + [bias];
    var add := Kernel(withBias, rule, Add, [k + 1, k + 2]);
    TrainableSnoc(ops, filter);
    TrainableSnoc(withFilter, conv);
    TrainableSnoc(withConv, bias);
    TrainableSnoc(withBias, add);
    if WellFormed(ops) {
      WellFormedConcat(ops, [filter]);
      WellFormedConcat(withFilter, [conv]);
      WellFormedConcat(withConv, [bias]);
      WellFormedConcat(withBias, [add]);
    }
  }

  // ---------------------------------------------------------------------------
  // addDenseLayer

  /**
   * The dense builder on a valid input is its four stages, one after the
   * other: an unfolding aid for the proofs below.
   */
  lemma DenseLayerStages(ops: seq<Node>, rule: ShapeRule, nOutputNodes: int, inputOperation: Option<nat>,
                         activation: string, dropoutRate: real, batchNormalisation: bool)
    requires HasRank(ops, inputOperation, 2)
    ensures var s1 := LinearStep(ops, rule, inputOperation.value, nOutputNodes);
            var s2 := DropoutStep(s1.operations, rule, s1.last, dropoutRate);
            var s3 := BatchNormStep(s2.operations, rule, s2.last, [1, nOutputNodes], batchNormalisation);
            DenseLayer(ops, rule, nOutputNodes, inputOperation, activation, dropoutRate, batchNormalisation)
              == Ok(KernelStep(s3.operations, rule, Activation(activation), s3.last))
  {
  }

  /**
   * A dense layer leaves the operations already registered as they were and
   * starts with its linear part: the weight requested as (nOutputNodes, D)
   * with fan-in D and transposed initialisation, so of shape
   * (D, nOutputNodes), the bias (nOutputNodes) with fan-in 1, input times
   * weight, and that plus bias.
   */
  lemma DenseLayerLinear(ops: seq<Node>, rule: ShapeRule, nOutputNodes: int, inputOperation: Option<nat>,
                         activation: string, dropoutRate: real, batchNormalisation: bool)
    requires HasRank(ops, inputOperation, 2)
    ensures var g := DenseLayer(ops, rule, nOutputNodes, inputOperation, activation, dropoutRate,
                                batchNormalisation).value.operations;
            var k, x := |ops|, inputOperation.value;
            var D := ops[x].shape[1];
            && g[..k] == ops
            && VariableAt(g, k, [nOutputNodes, D], Some(true), Some(D))
            && g[k].shape == [D, nOutputNodes]
            && VariableAt(g, k + 1, [nOutputNodes], Some(false), Some(1))
            && g[k + 1].shape == [nOutputNodes]
            && KernelAt(g, k + 2, MatMul, [x, k])
            && KernelAt(g, k + 3, Add, [k + 2, k + 1])
  {
    var x := inputOperation.value;
    var s1 := LinearStep(ops, rule, x, nOutputNodes);
    var s2 := DropoutStep(s1.operations, rule, s1.last, dropoutRate);
    var s3 := BatchNormStep(s2.operations, rule, s2.last, [1, nOutputNodes], batchNormalisation);
    DenseLayerStages(ops, rule, nOutputNodes, inputOperation, activation, dropoutRate, batchNormalisation);
    LinearStepNodes(ops, rule, x, nOutputNodes);
    DropoutStepNodes(s1.operations, rule, s1.last, dropoutRate);
    BatchNormStepNodes(s2.operations, rule, s2.last, [1, nOutputNodes], batchNormalisation);
    KernelStepNodes(s3.operations, rule, Activation(activation), s3.last);
    PrefixOfPrefix(KernelStep(s3.operations, rule, Activation(activation), s3.last).operations,
                   s3.operations, s2.operations);
    PrefixOfPrefix(KernelStep(s3.operations, rule, Activation(activation), s3.last).operations,
                   s2.operations, s1.operations);
    PrefixOfPrefix(KernelStep(s3.operations, rule, Activation(activation), s3.last).operations,
                   s1.operations, ops);
  }

  /** With a positive rate, the sum of the linear part is followed by its dropout. */
  lemma DenseLayerDropoutNode(ops: seq<Node>, rule: ShapeRule, nOutputNodes: int, inputOperation: Option<nat>,
      activation: string, dropoutRate: real, batchNormalisation: bool)
    requires HasRank(ops, inputOperation, 2)
    ensures var g, k := DenseLayer(ops, rule, nOutputNodes, inputOperation, activation, dropoutRate,
                                   batchNormalisation).value.operations, |ops|;
            dropoutRate > 0.0 ==> KernelAt(g, k + 4, Dropout(dropoutRate), [k + 3])
  {
    var x := inputOperation.value;
    var s1 := LinearStep(ops, rule, x, nOutputNodes);
    var s2 := DropoutStep(s1.operations, rule, s1.last, dropoutRate);
    var s3 := BatchNormStep(s2.operations, rule, s2.last, [1, nOutputNodes], batchNormalisation);
    var s4 := KernelStep(s3.operations, rule, Activation(activation), s3.last);
    DenseLayerStages(ops, rule, nOutputNodes, inputOperation, activation, dropoutRate, batchNormalisation);
    DropoutStepNodes(s1.operations, rule, s1.last, dropoutRate);
    BatchNormStepNodes(s2.operations, rule, s2.last, [1, nOutputNodes], batchNormalisation);
    KernelStepNodes(s3.operations, rule, Activation(activation), s3.last);
    PrefixOfPrefix(s4.operations, s3.operations, s2.operations);
  }

  /**
   * With batch normalisation, `t` is followed by beta and gamma, trainable
   * variables of shape (1, nOutputNodes) made with generateRandomVariable's
   * default arguments, and by the normalisation of (t, beta, gamma).
   */
  lemma DenseLayerBatchNorm(ops: seq<Node>, rule: ShapeRule, nOutputNodes: int, inputOperation: Option<nat>,
      activation: string, dropoutRate: real, batchNormalisation: bool)
    requires HasRank(ops, inputOperation, 2)
    ensures var built := DenseLayer(ops, rule, nOutputNodes, inputOperation, activation, dropoutRate,
                                    batchNormalisation).value;
            var g, k := built.operations, |ops|;
            var t := k + 3 + DropoutCount(dropoutRate);
            batchNormalisation ==>
              && VariableAt(g, t + 1, [1, nOutputNodes], None, None)
              && VariableAt(g, t + 2, [1, nOutputNodes], None, None)
              && KernelAt(g, t + 3, BatchNorm, [t, t + 1, t + 2])
  {
    var x := inputOperation.value;
    var s1 := LinearStep(ops, rule, x, nOutputNodes);
    var s2 := DropoutStep(s1.operations, rule, s1.last, dropoutRate);
    var s3 := BatchNormStep(s2.operations, rule, s2.last, [1, nOutputNodes], batchNormalisation);
    var s4 := KernelStep(s3.operations, rule, Activation(activation), s3.last);
    DenseLayerStages(ops, rule, nOutputNodes, inputOperation, activation, dropoutRate, batchNormalisation);
    DropoutStepNodes(s1.operations, rule, s1.last, dropoutRate);
    BatchNormStepNodes(s2.operations, rule, s2.last, [1, nOutputNodes], batchNormalisation);
    KernelStepNodes(s3.operations, rule, Activation(activation), s3.last);
  }

  /**
   * The layer ends with the activation of the normalisation, or of `t`
   * without it, and returns the index of that activation, the last operation.
   */
  lemma DenseLayerActivation(ops: seq<Node>, rule: ShapeRule, nOutputNodes: int, inputOperation: Option<nat>,
      activation: string, dropoutRate: real, batchNormalisation: bool)
    requires HasRank(ops, inputOperation, 2)
    ensures var built := DenseLayer(ops, rule, nOutputNodes, inputOperation, activation, dropoutRate,
                                    batchNormalisation).value;
            var g, k := built.operations, |ops|;
            var t := k + 3 + DropoutCount(dropoutRate);
            var tail := t + BatchNormCount(batchNormalisation);
            && |g| == tail + 2
            && built.last == tail + 1
            && KernelAt(g, built.last, Activation(activation), [tail])
  {
    var x := inputOperation.value;
    var s1 := LinearStep(ops, rule, x, nOutputNodes);
    var s2 := DropoutStep(s1.operations, rule, s1.last, dropoutRate);
    var s3 := BatchNormStep(s2.operations, rule, s2.last, [1, nOutputNodes], batchNormalisation);
    var s4 := KernelStep(s3.operations, rule, Activation(activation), s3.last);
    DenseLayerStages(ops, rule, nOutputNodes, inputOperation, activation, dropoutRate, batchNormalisation);
    DropoutStepNodes(s1.operations, rule, s1.last, dropoutRate);
    assert s2.last == |ops| + 3 + DropoutCount(dropoutRate);
    BatchNormStepNodes(s2.operations, rule, s2.last, [1, nOutputNodes], batchNormalisation);
    assert s3.last == s2.last + BatchNormCount(batchNormalisation);
    KernelStepNodes(s3.operations, rule, Activation(activation), s3.last);
  }

  /** Without dropout and batch normalisation a dense layer is five operations. */
  lemma DenseLayerPlain(ops: seq<Node>, rule: ShapeRule, nOutputNodes: int, inputOperation: Option<nat>,
      activation: string, dropoutRate: real, batchNormalisation: bool)
    requires HasRank(ops, inputOperation, 2)
    ensures var built := DenseLayer(ops, rule, nOutputNodes, inputOperation, activation, dropoutRate,
                                    batchNormalisation).value;
            var g, k, x := built.operations, |ops|, inputOperation.value;
            var D := ops[x].shape[1];
            dropoutRate <= 0.0 && !batchNormalisation ==>
              && |g| == k + 5 && built.last == k + 4
              && g[..k] == ops
              && VariableAt(g, k, [nOutputNodes, D], Some(true), Some(D))
              && VariableAt(g, k + 1, [nOutputNodes], Some(false), Some(1))
              && KernelAt(g, k + 2, MatMul, [x, k])
              && KernelAt(g, k + 3, Add, [k + 2, k + 1])
              && KernelAt(g, k + 4, Activation(activation), [k + 3])
  {
    DenseLayerLinear(ops, rule, nOutputNodes, inputOperation, activation, dropoutRate, batchNormalisation);
    DenseLayerActivation(ops, rule, nOutputNodes, inputOperation, activation, dropoutRate, batchNormalisation);
  }

  /**
   * The listing above is complete: of the operations a dense layer appends,
   * only `k + 4` can be a dropout and only `t + 3` a normalisation, exactly
   * the trainable ones are variables, and none is the feeder or the final
   * operation.
   */
  lemma DenseLayerKinds(ops: seq<Node>, rule: ShapeRule, nOutputNodes: int, inputOperation: Option<nat>,
      activation: string, dropoutRate: real, batchNormalisation: bool)
    requires HasRank(ops, inputOperation, 2)
    ensures var built := DenseLayer(ops, rule, nOutputNodes, inputOperation, activation, dropoutRate,
                                    batchNormalisation).value;
            var g, k := built.operations, |ops|;
            var t := k + 3 + DropoutCount(dropoutRate);
            forall j :: k <= j < |g| ==>
              && (g[j].kind.Dropout? <==> dropoutRate > 0.0 && j == k + 4)
              && (g[j].kind.BatchNorm? <==> batchNormalisation && j == t + 3)
              && (g[j].doGradient <==> g[j].kind.Param?)
              && !g[j].feederOperation && !g[j].finalOperation
  {
    DenseLayerLinear(ops, rule, nOutputNodes, inputOperation, activation, dropoutRate, batchNormalisation);
    DenseLayerDropoutNode(ops, rule, nOutputNodes, inputOperation, activation, dropoutRate, batchNormalisation);
    DenseLayerBatchNorm(ops, rule, nOutputNodes, inputOperation, activation, dropoutRate, batchNormalisation);
    DenseLayerActivation(ops, rule, nOutputNodes, inputOperation, activation, dropoutRate, batchNormalisation);
  }

  /**
   * The sum of the linear part is dropped out exactly when the rate is
   * positive. Otherwise the layer holds no dropout at all and the sum feeds
   * the normalisation directly, or the activation without one.
   */
  lemma DenseLayerDropout(ops: seq<Node>, rule: ShapeRule, nOutputNodes: int, inputOperation: Option<nat>,
      activation: string, dropoutRate: real, batchNormalisation: bool)
    requires HasRank(ops, inputOperation, 2)
    ensures var g, k := DenseLayer(ops, rule, nOutputNodes, inputOperation, activation, dropoutRate,
                                   batchNormalisation).value.operations, |ops|;
            && (dropoutRate > 0.0 ==> KernelAt(g, k + 4, Dropout(dropoutRate), [k + 3]))
            && (dropoutRate <= 0.0 ==>
                  && (forall j :: k <= j < |g| ==> !g[j].kind.Dropout?)
                  && (batchNormalisation ==> KernelAt(g, k + 6, BatchNorm, [k + 3, k + 4, k + 5]))
                  && (!batchNormalisation ==> KernelAt(g, k + 4, Activation(activation), [k + 3])))
  {
    DenseLayerDropoutNode(ops, rule, nOutputNodes, inputOperation, activation, dropoutRate, batchNormalisation);
    DenseLayerKinds(ops, rule, nOutputNodes, inputOperation, activation, dropoutRate, batchNormalisation);
    DenseLayerBatchNorm(ops, rule, nOutputNodes, inputOperation, activation, dropoutRate, batchNormalisation);
    DenseLayerActivation(ops, rule, nOutputNodes, inputOperation, activation, dropoutRate, batchNormalisation);
  }

  /**
   * The trainable variables after a dense layer are those before it, then
   * the weight and the bias, then beta and gamma when the layer normalises.
   */
  lemma DenseLayerTrainable(ops: seq<Node>, rule: ShapeRule, nOutputNodes: int, inputOperation: Option<nat>,
      activation: string, dropoutRate: real, batchNormalisation: bool)
    requires HasRank(ops, inputOperation, 2)
    ensures var built := DenseLayer(ops, rule, nOutputNodes, inputOperation, activation, dropoutRate,
                                    batchNormalisation).value;
            var g, k := built.operations, |ops|;
            var t := k + 3 + DropoutCount(dropoutRate);
            Trainable(g) == Trainable(ops) + [k, k + 1] + (if batchNormalisation then [t + 1, t + 2] else [])
  {
    var x := inputOperation.value;
    var s1 := LinearStep(ops, rule, x, nOutputNodes);
    var s2 := DropoutStep(s1.operations, rule, s1.last, dropoutRate);
    var s3 := BatchNormStep(s2.operations, rule, s2.last, [1, nOutputNodes], batchNormalisation);
    DenseLayerStages(ops, rule, nOutputNodes, inputOperation, activation, dropoutRate, batchNormalisation);
    LinearStepRegistered(ops, rule, x, nOutputNodes);
    DropoutStepRegistered(s1.operations, rule, s1.last, dropoutRate);
    BatchNormStepRegistered(s2.operations, rule, s2.last, [1, nOutputNodes], batchNormalisation);
    KernelStepNodes(s3.operations, rule, Activation(activation), s3.last);
  }

  /** A dense layer added to an acyclic graph leaves it acyclic. */
  lemma DenseLayerWellFormed(ops: seq<Node>, rule: ShapeRule, nOutputNodes: int, inputOperation: Option<nat>,
      activation: string, dropoutRate: real, batchNormalisation: bool)
    requires HasRank(ops, inputOperation, 2)
    ensures var built := DenseLayer(ops, rule, nOutputNodes, inputOperation, activation, dropoutRate,
                                    batchNormalisation).value;
            WellFormed(ops) ==> WellFormed(built.operations)
  {
    var x := inputOperation.value;
    var s1 := LinearStep(ops, rule, x, nOutputNodes);
    var s2 := DropoutStep(s1.operations, rule, s1.last, dropoutRate);
    var s3 := BatchNormStep(s2.operations, rule, s2.last, [1, nOutputNodes], batchNormalisation);
    DenseLayerStages(ops, rule, nOutputNodes, inputOperation, activation, dropoutRate, batchNormalisation);
    LinearStepRegistered(ops, rule, x, nOutputNodes);
    DropoutStepRegistered(s1.operations, rule, s1.last, dropoutRate);
    BatchNormStepRegistered(s2.operations, rule, s2.last, [1, nOutputNodes], batchNormalisation);
    KernelStepNodes(s3.operations, rule, Activation(activation), s3.last);
  }

  /**
   * The returned operation is computed from the layer's input: following
   * first inputs back from it passes the normalisation (when present), the
   * dropout (when present), the bias addition and the matrix product, and
   * arrives at the input.
   */
  lemma DenseLayerDataPath(ops: seq<Node>, rule: ShapeRule, nOutputNodes: int, inputOperation: Option<nat>,
      activation: string, dropoutRate: real, batchNormalisation: bool)
    requires HasRank(ops, inputOperation, 2)
    ensures var built := DenseLayer(ops, rule, nOutputNodes, inputOperation, activation, dropoutRate,
                                    batchNormalisation).value;
            var steps := 3 + DropoutCount(dropoutRate) + (if batchNormalisation then 1 else 0);
            MainInput(built.operations, built.last, steps) == Some(inputOperation.value)
  {
    var built := DenseLayer(ops, rule, nOutputNodes, inputOperation, activation, dropoutRate,
                            batchNormalisation).value;
    DenseLayerLinear(ops, rule, nOutputNodes, inputOperation, activation, dropoutRate, batchNormalisation);
    DenseLayerDropoutNode(ops, rule, nOutputNodes, inputOperation, activation, dropoutRate, batchNormalisation);
    DenseLayerBatchNorm(ops, rule, nOutputNodes, inputOperation, activation, dropoutRate, batchNormalisation);
    DenseLayerActivation(ops, rule, nOutputNodes, inputOperation, activation, dropoutRate, batchNormalisation);
    DenseChain(built.operations, |ops|, inputOperation.value, dropoutRate > 0.0, batchNormalisation,
               built.last);
  }

  /** Following first inputs back through a dense layer's main chain, given its wiring. */
  lemma DenseChain(g: seq<Node>, k: nat, x: nat, dropout: bool, batchNorm: bool, last: nat)
    requires x < |g| && last < |g|
    requires k + 3 < |g| && g[k + 2].inputs == [x, k] && g[k + 3].inputs == [k + 2, k + 1]
    requires dropout ==> k + 4 < |g| && |g[k + 4].inputs| == 1 && g[k + 4].inputs[0] == k + 3
    requires var t := k + 3 + (if dropout then 1 else 0);
             && (batchNorm ==> t + 3 < |g| && |g[t + 3].inputs| == 3 && g[t + 3].inputs[0] == t)
             && g[last].inputs == [t + (if batchNorm then 3 else 0)]
    ensures MainInput(g, last, 3 + (if dropout then 1 else 0) + (if batchNorm then 1 else 0)) == Some(x)
  {
    var dp := if dropout then 1 else 0;
    var t := k + 3 + dp;
    FirstInputStep(g, k + 2, x, 0);
    FirstInputStep(g, k + 3, k + 2, 1);
    if dropout {
      FirstInputStep(g, k + 4, k + 3, 2);
    }
    if batchNorm {
      FirstInputStep(g, t + 3, t, 2 + dp);
      FirstInputStep(g, last, t + 3, 3 + dp);
    } else {
      FirstInputStep(g, last, t, 2 + dp);
    }
  }

  // ---------------------------------------------------------------------------
  // addConv2dLayer

  /**
   * The convolution builder on a valid input is its four stages, one after
   * the other: an unfolding aid for the proofs below.
   */
  lemma Conv2dLayerStages(ops: seq<Node>, rule: ShapeRule, inputOperation: Option<nat>, nFilters: int,
      filterHeigth: int, filterWidth: int, padding: string, convStride: int,
      activation: string, batchNormalisation: bool, pooling: string,
      poolHeight: int, poolWidth: int, poolStride: int)
    requires HasRank(ops, inputOperation, 4)
    ensures var built := Conv2dLayer(ops, rule, inputOperation, nFilters, filterHeigth, filterWidth,
                                     padding, convStride, activation, batchNormalisation, pooling,
                                     poolHeight, poolWidth, poolStride).value;
            var s1 := ConvolutionStep(ops, rule, inputOperation.value, nFilters, filterHeigth, filterWidth,
                                      padding, convStride);
            var s2 := BatchNormStep(s1.operations, rule, s1.last, [1] + Tail(s1.operations[s1.last].shape),
                                    batchNormalisation);
            var s3 := KernelStep(s2.operations, rule, Activation(activation), s2.last);
            built == KernelStep(s3.operations, rule, Pool(pooling, poolHeight, poolWidth, poolStride), s3.last)
  {
  }

  /**
   * A convolution layer leaves the operations already registered as they
   * were and starts with the filter (nFilters, C, filterHeigth, filterWidth)
   * with fan-in filterHeigth * filterWidth * C, the convolution of the input
   * with it, the bias (1, nFilters, 1, 1) with fan-in 1, and their sum.
   */
  lemma Conv2dLayerConvolution(ops: seq<Node>, rule: ShapeRule, inputOperation: Option<nat>, nFilters: int,
      filterHeigth: int, filterWidth: int, padding: string, convStride: int,
      activation: string, batchNormalisation: bool, pooling: string,
      poolHeight: int, poolWidth: int, poolStride: int)
    requires HasRank(ops, inputOperation, 4)
    ensures var built := Conv2dLayer(ops, rule, inputOperation, nFilters, filterHeigth, filterWidth,
                                     padding, convStride, activation, batchNormalisation, pooling,
                                     poolHeight, poolWidth, poolStride).value;
            var g, k, x := built.operations, |ops|, inputOperation.value;
            var C := ops[x].shape[1];
            && g[..k] == ops
            && VariableAt(g, k, [nFilters, C, filterHeigth, filterWidth], Some(false),
                          Some(filterHeigth * filterWidth * C))
            && KernelAt(g, k + 1, Conv2d(convStride, padding), [x, k])
            && VariableAt(g, k + 2, [1, nFilters, 1, 1], Some(false), Some(1))
            && KernelAt(g, k + 3, Add, [k + 1, k + 2])
  {
    var x := inputOperation.value;
    var s1 := ConvolutionStep(ops, rule, x, nFilters, filterHeigth, filterWidth, padding, convStride);
    var s2 := BatchNormStep(s1.operations, rule, s1.last, [1] + Tail(s1.operations[s1.last].shape),
                            batchNormalisation);
    var s3 := KernelStep(s2.operations, rule, Activation(activation), s2.last);
    var s4 := KernelStep(s3.operations, rule, Pool(pooling, poolHeight, poolWidth, poolStride), s3.last);
    Conv2dLayerStages(ops, rule, inputOperation, nFilters, filterHeigth, filterWidth, padding, convStride,
                      activation, batchNormalisation, pooling, poolHeight, poolWidth, poolStride);
    ConvolutionStepNodes(ops, rule, x, nFilters, filterHeigth, filterWidth, padding, convStride);
    BatchNormStepNodes(s1.operations, rule, s1.last, [1] + Tail(s1.operations[s1.last].shape),
                       batchNormalisation);
    KernelStepNodes(s2.operations, rule, Activation(activation), s2.last);
    KernelStepNodes(s3.operations, rule, Pool(pooling, poolHeight, poolWidth, poolStride), s3.last);
    PrefixOfPrefix(s4.operations, s3.operations, s2.operations);
    PrefixOfPrefix(s4.operations, s2.operations, s1.operations);
    PrefixOfPrefix(s4.operations, s1.operations, ops);
  }

  /**
   * With batch normalisation, the sum is followed by beta and gamma,
   * trainable variables of shape (1, *sum.shape[1:]) made with
   * generateRandomVariable's default arguments, and by the normalisation of
   * (sum, beta, gamma).
   */
  lemma Conv2dLayerBatchNorm(ops: seq<Node>, rule: ShapeRule, inputOperation: Option<nat>, nFilters: int,
      filterHeigth: int, filterWidth: int, padding: string, convStride: int,
      activation: string, batchNormalisation: bool, pooling: string,
      poolHeight: int, poolWidth: int, poolStride: int)
    requires HasRank(ops, inputOperation, 4)
    ensures var built := Conv2dLayer(ops, rule, inputOperation, nFilters, filterHeigth, filterWidth,
                                     padding, convStride, activation, batchNormalisation, pooling,
                                     poolHeight, poolWidth, poolStride).value;
            var g, k := built.operations, |ops|;
            batchNormalisation ==>
              && VariableAt(g, k + 4, [1] + Tail(g[k + 3].shape), None, None)
              && VariableAt(g, k + 5, [1] + Tail(g[k + 3].shape), None, None)
              && KernelAt(g, k + 6, BatchNorm, [k + 3, k + 4, k + 5])
  {
    var x := inputOperation.value;
    var s1 := ConvolutionStep(ops, rule, x, nFilters, filterHeigth, filterWidth, padding, convStride);
    var s2 := BatchNormStep(s1.operations, rule, s1.last, [1] + Tail(s1.operations[s1.last].shape),
                            batchNormalisation);
    var s3 := KernelStep(s2.operations, rule, Activation(activation), s2.last);
    var s4 := KernelStep(s3.operations, rule, Pool(pooling, poolHeight, poolWidth, poolStride), s3.last);
    Conv2dLayerStages(ops, rule, inputOperation, nFilters, filterHeigth, filterWidth, padding, convStride,
                      activation, batchNormalisation, pooling, poolHeight, poolWidth, poolStride);
    BatchNormStepNodes(s1.operations, rule, s1.last, [1] + Tail(s1.operations[s1.last].shape),
                       batchNormalisation);
    KernelStepNodes(s2.operations, rule, Activation(activation), s2.last);
    KernelStepNodes(s3.operations, rule, Pool(pooling, poolHeight, poolWidth, poolStride), s3.last);
    PrefixOfPrefix(s4.operations, s3.operations, s2.operations);
    PrefixOfPrefix(s4.operations, s2.operations, s1.operations);
  }

  /**
   * The layer ends with the activation of the normalisation, or of the sum
   * without it, then the pooling of the activation, and returns the index
   * of the pooling, the last operation.
   */
  lemma Conv2dLayerActivationPool(ops: seq<Node>, rule: ShapeRule, inputOperation: Option<nat>, nFilters: int,
      filterHeigth: int, filterWidth: int, padding: string, convStride: int,
      activation: string, batchNormalisation: bool, pooling: string,
      poolHeight: int, poolWidth: int, poolStride: int)
    requires HasRank(ops, inputOperation, 4)
    ensures var built := Conv2dLayer(ops, rule, inputOperation, nFilters, filterHeigth, filterWidth,
                                     padding, convStride, activation, batchNormalisation, pooling,
                                     poolHeight, poolWidth, poolStride).value;
            var g, k := built.operations, |ops|;
            var tail := k + 3 + BatchNormCount(batchNormalisation);
            && |g| == tail + 3
            && built.last == tail + 2
            && KernelAt(g, tail + 1, Activation(activation), [tail])
            && KernelAt(g, built.last, Pool(pooling, poolHeight, poolWidth, poolStride), [tail + 1])
  {
    var x := inputOperation.value;
    var s1 := ConvolutionStep(ops, rule, x, nFilters, filterHeigth, filterWidth, padding, convStride);
    var s2 := BatchNormStep(s1.operations, rule, s1.last, [1] + Tail(s1.operations[s1.last].shape),
                            batchNormalisation);
    var s3 := KernelStep(s2.operations, rule, Activation(activation), s2.last);
    var s4 := KernelStep(s3.operations, rule, Pool(pooling, poolHeight, poolWidth, poolStride), s3.last);
    Conv2dLayerStages(ops, rule, inputOperation, nFilters, filterHeigth, filterWidth, padding, convStride,
                      activation, batchNormalisation, pooling, poolHeight, poolWidth, poolStride);
    BatchNormStepNodes(s1.operations, rule, s1.last, [1] + Tail(s1.operations[s1.last].shape),
                       batchNormalisation);
    var tail := |ops| + 3 + BatchNormCount(batchNormalisation);
    assert s2.last == tail && |s2.operations| == tail + 1;
    KernelStepNodes(s2.operations, rule, Activation(activation), s2.last);
    assert KernelAt(s3.operations, tail + 1, Activation(activation), [tail]);
    KernelStepNodes(s3.operations, rule, Pool(pooling, poolHeight, poolWidth, poolStride), s3.last);
    assert s4.operations[tail + 1] == s3.operations[tail + 1];
  }

  /**
   * The listing above is complete: of the operations a convolution layer
   * appends, only `k + 6` can be a normalisation and only the last a
   * pooling, exactly the trainable ones are variables, and none is the
   * feeder or the final operation.
   */
  lemma Conv2dLayerKinds(ops: seq<Node>, rule: ShapeRule, inputOperation: Option<nat>, nFilters: int,
      filterHeigth: int, filterWidth: int, padding: string, convStride: int,
      activation: string, batchNormalisation: bool, pooling: string,
      poolHeight: int, poolWidth: int, poolStride: int)
    requires HasRank(ops, inputOperation, 4)
    ensures var built := Conv2dLayer(ops, rule, inputOperation, nFilters, filterHeigth, filterWidth,
                                     padding, convStride, activation, batchNormalisation, pooling,
                                     poolHeight, poolWidth, poolStride).value;
            var g, k := built.operations, |ops|;
            forall j :: k <= j < |g| ==>
              && (g[j].kind.BatchNorm? <==> batchNormalisation && j == k + 6)
              && (g[j].kind.Pool? <==> j == built.last)
              && (g[j].doGradient <==> g[j].kind.Param?)
              && !g[j].feederOperation && !g[j].finalOperation
  {
    Conv2dLayerConvolution(ops, rule, inputOperation, nFilters, filterHeigth, filterWidth, padding, convStride,
                           activation, batchNormalisation, pooling, poolHeight, poolWidth, poolStride);
    Conv2dLayerBatchNorm(ops, rule, inputOperation, nFilters, filterHeigth, filterWidth, padding, convStride,
                         activation, batchNormalisation, pooling, poolHeight, poolWidth, poolStride);
    Conv2dLayerActivationPool(ops, rule, inputOperation, nFilters, filterHeigth, filterWidth, padding, convStride,
                              activation, batchNormalisation, pooling, poolHeight, poolWidth, poolStride);
    var built := Conv2dLayer(ops, rule, inputOperation, nFilters, filterHeigth, filterWidth, padding, convStride,
                             activation, batchNormalisation, pooling, poolHeight, poolWidth, poolStride).value;
    var g, k := built.operations, |ops|;
    forall j | k <= j < |g|
      ensures && (g[j].kind.BatchNorm? <==> batchNormalisation && j == k + 6)
              && (g[j].kind.Pool? <==> j == built.last)
              && (g[j].doGradient <==> g[j].kind.Param?)
              && !g[j].feederOperation && !g[j].finalOperation
    {
      if j < k + 4 {
      } else if j < |g| - 2 {
      } else {
      }
    }
  }

  /**
   * The trainable variables after a convolution layer are those before it,
   * then the filter and the bias, then beta and gamma when the layer
   * normalises.
   */
  lemma Conv2dLayerTrainable(ops: seq<Node>, rule: ShapeRule, inputOperation: Option<nat>, nFilters: int,
      filterHeigth: int, filterWidth: int, padding: string, convStride: int,
      activation: string, batchNormalisation: bool, pooling: string,
      poolHeight: int, poolWidth: int, poolStride: int)
    requires HasRank(ops, inputOperation, 4)
    ensures var built := Conv2dLayer(ops, rule, inputOperation, nFilters, filterHeigth, filterWidth,
                                     padding, convStride, activation, batchNormalisation, pooling,
                                     poolHeight, poolWidth, poolStride).value;
            var g, k := built.operations, |ops|;
            Trainable(g) == Trainable(ops) + [k, k + 2] + (if batchNormalisation then [k + 4, k + 5] else [])
  {
    var x := inputOperation.value;
    var s1 := ConvolutionStep(ops, rule, x, nFilters, filterHeigth, filterWidth, padding, convStride);
    var s2 := BatchNormStep(s1.operations, rule, s1.last, [1] + Tail(s1.operations[s1.last].shape),
                            batchNormalisation);
    var s3 := KernelStep(s2.operations, rule, Activation(activation), s2.last);
    var s4 := KernelStep(s3.operations, rule, Pool(pooling, poolHeight, poolWidth, poolStride), s3.last);
    Conv2dLayerStages(ops, rule, inputOperation, nFilters, filterHeigth, filterWidth, padding, convStride,
                      activation, batchNormalisation, pooling, poolHeight, poolWidth, poolStride);
    ConvolutionStepRegistered(ops, rule, x, nFilters, filterHeigth, filterWidth, padding, convStride);
    BatchNormStepRegistered(s1.operations, rule, s1.last, [1] + Tail(s1.operations[s1.last].shape),
                            batchNormalisation);
    KernelStepNodes(s2.operations, rule, Activation(activation), s2.last);
    KernelStepNodes(s3.operations, rule, Pool(pooling, poolHeight, poolWidth, poolStride), s3.last);
  }

  /** A convolution layer added to an acyclic graph leaves it acyclic. */
  lemma Conv2dLayerWellFormed(ops: seq<Node>, rule: ShapeRule, inputOperation: Option<nat>, nFilters: int,
      filterHeigth: int, filterWidth: int, padding: string, convStride: int,
      activation: string, batchNormalisation: bool, pooling: string,
      poolHeight: int, poolWidth: int, poolStride: int)
    requires HasRank(ops, inputOperation, 4)
    ensures var built := Conv2dLayer(ops, rule, inputOperation, nFilters, filterHeigth, filterWidth,
                                     padding, convStride, activation, batchNormalisation, pooling,
                                     poolHeight, poolWidth, poolStride).value;
            WellFormed(ops) ==> WellFormed(built.operations)
  {
    var x := inputOperation.value;
    var s1 := ConvolutionStep(ops, rule, x, nFilters, filterHeigth, filterWidth, padding, convStride);
    var s2 := BatchNormStep(s1.operations, rule, s1.last, [1] + Tail(s1.operations[s1.last].shape),
                            batchNormalisation);
    var s3 := KernelStep(s2.operations, rule, Activation(activation), s2.last);
    var s4 := KernelStep(s3.operations, rule, Pool(pooling, poolHeight, poolWidth, poolStride), s3.last);
    Conv2dLayerStages(ops, rule, inputOperation, nFilters, filterHeigth, filterWidth, padding, convStride,
                      activation, batchNormalisation, pooling, poolHeight, poolWidth, poolStride);
    ConvolutionStepRegistered(ops, rule, x, nFilters, filterHeigth, filterWidth, padding, convStride);
    BatchNormStepRegistered(s1.operations, rule, s1.last, [1] + Tail(s1.operations[s1.last].shape),
                            batchNormalisation);
    KernelStepNodes(s2.operations, rule, Activation(activation), s2.last);
    KernelStepNodes(s3.operations, rule, Pool(pooling, poolHeight, poolWidth, poolStride), s3.last);
  }

  /**
   * The returned operation is computed from the layer's input: following
   * first inputs back from the pooling passes the activation, the
   * normalisation (when present), the bias addition and the convolution,
   * and arrives at the input.
   */
  lemma Conv2dLayerDataPath(ops: seq<Node>, rule: ShapeRule, inputOperation: Option<nat>, nFilters: int,
      filterHeigth: int, filterWidth: int, padding: string, convStride: int,
      activation: string, batchNormalisation: bool, pooling: string,
      poolHeight: int, poolWidth: int, poolStride: int)
    requires HasRank(ops, inputOperation, 4)
    ensures var built := Conv2dLayer(ops, rule, inputOperation, nFilters, filterHeigth, filterWidth,
                                     padding, convStride, activation, batchNormalisation, pooling,
                                     poolHeight, poolWidth, poolStride).value;
            MainInput(built.operations, built.last, 4 + (if batchNormalisation then 1 else 0))
              == Some(inputOperation.value)
  {
    var x := inputOperation.value;
    var built := Conv2dLayer(ops, rule, inputOperation, nFilters, filterHeigth, filterWidth, padding, convStride,
                             activation, batchNormalisation, pooling, poolHeight, poolWidth, poolStride).value;
    var g, k := built.operations, |ops|;
    Conv2dLayerConvolution(ops, rule, inputOperation, nFilters, filterHeigth, filterWidth, padding, convStride,
                           activation, batchNormalisation, pooling, poolHeight, poolWidth, poolStride);
    Conv2dLayerBatchNorm(ops, rule, inputOperation, nFilters, filterHeigth, filterWidth, padding, convStride,
                         activation, batchNormalisation, pooling, poolHeight, poolWidth, poolStride);
    Conv2dLayerActivationPool(ops, rule, inputOperation, nFilters, filterHeigth, filterWidth, padding, convStride,
                              activation, batchNormalisation, pooling, poolHeight, poolWidth, poolStride);
    ConvChain(g, k, x, batchNormalisation, built.last);
  }

  /** Following first inputs back through a convolution layer's main chain, given its wiring. */
  lemma ConvChain(g: seq<Node>, k: nat, x: nat, batchNorm: bool, last: nat)
    requires x < |g| && last < |g|
    requires k + 3 < |g| && g[k + 1].inputs == [x, k] && g[k + 3].inputs == [k + 1, k + 2]
    requires batchNorm ==> k + 6 < |g| && |g[k + 6].inputs| == 3 && g[k + 6].inputs[0] == k + 3
    requires var tail := k + 3 + (if batchNorm then 3 else 0);
             tail + 1 < |g| && g[tail + 1].inputs == [tail] && g[last].inputs == [tail + 1]
    ensures MainInput(g, last, 4 + (if batchNorm then 1 else 0)) == Some(x)
  {
    var tail := k + 3 + (if batchNorm then 3 else 0);
    FirstInputStep(g, k + 1, x, 0);
    FirstInputStep(g, k + 3, k + 1, 1);
    if batchNorm {
      FirstInputStep(g, k + 6, k + 3, 2);
    }
    var n := if batchNorm then 3 else 2;
    FirstInputStep(g, tail + 1, tail, n);
    FirstInputStep(g, last, tail + 1, n + 1);
  }
}
