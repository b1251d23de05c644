/**
 * The computation graph that the layer builders append to: an append-only
 * list of operation records.  Each record keeps the kind of operation (with
 * the configuration it was constructed with), the indices of its input
 * operations, its output shape and the flags it was registered with.
 *
 * The output-shape rules of the kernel operations (matrix product, addition,
 * dropout, batch normalisation, convolution, activations, pooling) are not
 * part of this model: a graph carries them as an uninterpreted parameter
 * `rule`, and nothing here claims anything about what `rule` returns.
 */
module ComputationGraph {

  datatype Option<T> = None | Some(value: T)

  /** A tensor shape, as the tuple of dimensions an operation reports. */
  type Shape = seq<int>

  /**
   * The kind of an operation.  `Param` is a variable made by
   * generateRandomVariable: it records the arguments of that call (`None`
   * where the argument was left at its default), not the random values.
   * Activation and pooling operations are passed to the builders as classes;
   * here they are identified by the class name.
   */
  datatype OpKind =
    | Param(requested: Shape, transpose: Option<bool>, nInputs: Option<int>)
    | MatMul
    | Add
    | Dropout(rate: real)
    | BatchNorm
    | Conv2d(stride: int, paddingMethod: string)
    | Activation(name: string)
    | Pool(name: string, poolHeight: int, poolWidth: int, stride: int)

  /** Output shape of a kernel operation from its kind and its inputs' shapes. */
  type ShapeRule = (OpKind, seq<Shape>) -> Shape

  datatype Node = Node(kind: OpKind, inputs: seq<nat>, shape: Shape,
                       doGradient: bool, feederOperation: bool, finalOperation: bool)

  /** Every index in `inputs` names an operation already among the first `n`. */
  predicate InputsBefore(inputs: seq<nat>, n: nat)
  {
    forall m :: 0 <= m < |inputs| ==> inputs[m] < n
  }

  /** Every operation consumes only operations registered before it: the graph is acyclic. */
  predicate WellFormed(ops: seq<Node>)
  {
    forall j :: 0 <= j < |ops| ==> InputsBefore(ops[j].inputs, j)
  }

  function InputShapes(ops: seq<Node>, inputs: seq<nat>): (r: seq<Shape>)
    requires InputsBefore(inputs, |ops|)
    ensures |r| == |inputs|
    ensures forall m :: 0 <= m < |inputs| ==> r[m] == ops[inputs[m]].shape
  {
    seq(|inputs|, m requires 0 <= m < |inputs| => ops[inputs[m]].shape)
  }

  /**
   * The shape of a variable generated for `requested`: a variable generated
   * transposed from a two-dimensional request holds the transposed array,
   * any other variable holds the requested shape.
   */
  function VariableShape(requested: Shape, transpose: Option<bool>): (s: Shape)
    ensures |s| == |requested|
  {
    if transpose == Some(true) && |requested| == 2 then [requested[1], requested[0]] else requested
  }

  /** A variable's shape follows from its request; a kernel's shape comes from `rule`. */
  function ShapeOf(rule: ShapeRule, kind: OpKind, inShapes: seq<Shape>): (s: Shape)
  {
    if kind.Param? then VariableShape(kind.requested, kind.transpose) else rule(kind, inShapes)
  }

  /** The indices of the operations registered with doGradient, in registration order. */
  function Trainable(ops: seq<Node>): (t: seq<nat>)
  {
    TrainableBelow(ops, |ops|)
  }

  /** The indices below `n` of the operations registered with doGradient, in order. */
  function TrainableBelow(ops: seq<Node>, n: nat): (t: seq<nat>)
    requires n <= |ops|
    decreases n
  {
    if n == 0 then [] else TrainableBelow(ops, n - 1) + (if ops[n - 1].doGradient then [n - 1] else [])
  }

  lemma {:induction false} TrainableBelowSound(ops: seq<Node>, n: nat)
    requires n <= |ops|
    ensures forall m :: 0 <= m < |TrainableBelow(ops, n)| ==>
              TrainableBelow(ops, n)[m] < n && ops[TrainableBelow(ops, n)[m]].doGradient
  {
    if n > 0 {
      TrainableBelowSound(ops, n - 1);
    }
  }

  /** Every index `Trainable` lists is an operation registered with doGradient. */
  lemma TrainableSound(ops: seq<Node>)
    ensures forall m :: 0 <= m < |Trainable(ops)| ==>
              Trainable(ops)[m] < |ops| && ops[Trainable(ops)[m]].doGradient
  {
    TrainableBelowSound(ops, |ops|);
  }

  lemma {:induction false} TrainableBelowComplete(ops: seq<Node>, n: nat)
    requires n <= |ops|
    ensures forall j :: 0 <= j < n && ops[j].doGradient ==> j in TrainableBelow(ops, n)
  {
    if n > 0 {
      TrainableBelowComplete(ops, n - 1);
    }
  }

  /** Every operation registered with doGradient is listed by `Trainable`. */
  lemma TrainableComplete(ops: seq<Node>)
    ensures forall j :: 0 <= j < |ops| && ops[j].doGradient ==> j in Trainable(ops)
  {
    TrainableBelowComplete(ops, |ops|);
  }

  lemma {:induction false} TrainableBelowIncreasing(ops: seq<Node>, n: nat)
    requires n <= |ops|
    ensures forall m, m' :: 0 <= m < m' < |TrainableBelow(ops, n)| ==>
              TrainableBelow(ops, n)[m] < TrainableBelow(ops, n)[m']
  {
    if n > 0 {
      TrainableBelowIncreasing(ops, n - 1);
      TrainableBelowSound(ops, n - 1);
    }
  }

  /** `Trainable` lists each index once, in registration order. */
  lemma TrainableIncreasing(ops: seq<Node>)
    ensures forall m, m' :: 0 <= m < m' < |Trainable(ops)| ==> Trainable(ops)[m] < Trainable(ops)[m']
  {
    TrainableBelowIncreasing(ops, |ops|);
  }

  /** Operations appended later do not change which of the first `n` are trainable. */
  lemma {:induction false} TrainableBelowAppend(a: seq<Node>, b: seq<Node>, n: nat)
    requires n <= |a|
    ensures TrainableBelow(a + b, n) == TrainableBelow(a, n)
  {
    if n > 0 {
      TrainableBelowAppend(a, b, n - 1);
      assert (a + b)[n - 1] == a[n - 1];
    }
  }

  /** Appending one operation lists it last among the trainable ones exactly when it has doGradient. */
  lemma TrainableSnoc(ops: seq<Node>, n: Node)
    ensures Trainable(ops + [n]) == Trainable(ops) + (if n.doGradient then [|ops|] else [])
  {
    TrainableBelowAppend(ops, [n], |ops|);
  }

  function Shifted(s: seq<nat>, d: nat): (r: seq<nat>)
    ensures |r| == |s| && forall m :: 0 <= m < |s| ==> r[m] == s[m] + d
  {
    seq(|s|, m requires 0 <= m < |s| => s[m] + d)
  }

  lemma ShiftedConcat(s: seq<nat>, t: seq<nat>, d: nat)
    ensures Shifted(s + t, d) == Shifted(s, d) + Shifted(t, d)
  {
  }

  lemma {:induction false} TrainableBelowShifted(a: seq<Node>, b: seq<Node>, n: nat)
    requires n <= |b|
    ensures TrainableBelow(a + b, |a| + n) == Trainable(a) + Shifted(TrainableBelow(b, n), |a|)
  {
    if n == 0 {
      TrainableBelowAppend(a, b, |a|);
    } else {
      var tail := if b[n - 1].doGradient then [n - 1] else [];
      assert (a + b)[|a| + n - 1] == b[n - 1];
      calc {
        TrainableBelow(a + b, |a| + n);
        TrainableBelow(a + b, |a| + n - 1) + (if b[n - 1].doGradient then [|a| + n - 1] else []);
        { TrainableBelowShifted(a, b, n - 1); }
        Trainable(a) + Shifted(TrainableBelow(b, n - 1), |a|) + Shifted(tail, |a|);
        { ShiftedConcat(TrainableBelow(b, n - 1), tail, |a|); }
        Trainable(a) + Shifted(TrainableBelow(b, n - 1) + tail, |a|);
      }
    }
  }

  /**
   * Appending operations never reorders the trainable operations already in
   * the graph: they stay in front, and the new ones follow in their own order.
   */
  lemma TrainableAppend(a: seq<Node>, b: seq<Node>)
    ensures Trainable(a + b) == Trainable(a) + Shifted(Trainable(b), |a|)
  {
    TrainableBelowShifted(a, b, |b|);
  }

  /** Each node of `s`, appended from index `base` on, consumes only operations before it. */
  predicate InputsBeforeFrom(s: seq<Node>, base: nat)
  {
    forall i :: 0 <= i < |s| ==> InputsBefore(s[i].inputs, base + i)
  }

  /** Appending nodes that consume only earlier operations keeps the graph acyclic. */
  lemma WellFormedConcat(ops: seq<Node>, s: seq<Node>)
    requires WellFormed(ops) && InputsBeforeFrom(s, |ops|)
    ensures WellFormed(ops + s)
  {
    forall j | 0 <= j < |ops + s|
      ensures InputsBefore((ops + s)[j].inputs, j)
    {
      if j >= |ops| {
        assert (ops + s)[j] == s[j - |ops|];
      }
    }
  }

  /** The record addOperation registers for `kind` consuming `inputs` of `ops`. */
  function NewNode(ops: seq<Node>, rule: ShapeRule, kind: OpKind, inputs: seq<nat>,
                   doGradient: bool, feederOperation: bool, finalOperation: bool): (n: Node)
    requires InputsBefore(inputs, |ops|)
  {
    Node(kind, inputs, ShapeOf(rule, kind, InputShapes(ops, inputs)),
         doGradient, feederOperation, finalOperation)
  }

  class Graph {
    var operations: seq<Node>
    const rule: ShapeRule

    ghost predicate Valid()
      reads this
    {
      WellFormed(operations)
    }

    constructor (rule: ShapeRule)
      ensures Valid() && operations == [] && this.rule == rule
    {
      operations := [];
      this.rule := rule;
    }

    /** Registers one operation and returns its index, the new last one. */
    method AddOperation(kind: OpKind, inputs: seq<nat>, doGradient: bool,
                        feederOperation: bool, finalOperation: bool) returns (index: nat)
      requires Valid() && InputsBefore(inputs, |operations|)
      modifies this
      ensures Valid()
      ensures operations == old(operations) + [NewNode(old(operations), rule, kind, inputs,
                                                       doGradient, feederOperation, finalOperation)]
      ensures index == |old(operations)| && index == |operations| - 1
    {
      var node := NewNode(operations, rule, kind, inputs, doGradient, feederOperation, finalOperation);
      WellFormedConcat(operations, [node]);
      index := |operations|;
      operations := operations + [node];
    }
  }
}
