# graphAttack layer builders in Dafny

This project models how graphAttack's neural-network utilities put layers
together. The functions are `addDenseLayer` and `addConv2dLayer` in
`graphAttack/gaUtilities/neuralNetwork.py`. Each builder registers a fixed
chain of operations on a computation graph and returns the last of them. The
next layer is then built on that operation.

- **`computation_graph.dfy`** (module `ComputationGraph`) models the graph.
  - `Graph` holds the registered operations as a `seq<Node>`.
  - `Graph.AddOperation` appends one record and returns its index.
  - A record keeps four things:
    - the operation's kind and configuration;
    - the indices of its inputs;
    - its output shape;
    - the `doGradient`, `feederOperation` and `finalOperation` flags it was registered with.
  - `Trainable` lists the indices registered with `doGradient`, in order. These are the parameters the graph hands to the optimiser.
- **`neural_network.dfy`** (module `NeuralNetwork`) models the builders.
  - Each builder is a pure function from the old operation list to the outcome: `DenseLayer` and `Conv2dLayer`. Each is composed of the stages the source runs through.
  - Each builder is also an imperative method on a `Graph`: `AddDenseLayer` and `AddConv2dLayer`. It registers the operations one at a time, and its contract proves it does exactly what the function says.
- **`layer_properties.dfy`** (module `LayerProperties`) states and proves what a built layer looks like:
  - which operations it appends, in which order and wired to which inputs;
  - with which generateRandomVariable arguments each variable is made;
  - that the listing is complete;
  - which operations are trainable;
  - that the graph stays acyclic;
  - that the returned operation is computed from the layer's input.

The input operation is an index into the graph, or `None`. Both builders read
and unpack the input's shape before anything else
(`neuralNetwork.py:47` and `:136`). So a missing input fails there, as does a
shape with the wrong number of dimensions, and nothing is registered.

`addDenseLayer` tests for a missing input on line 48, after the shape has already
been read. That fallback to the graph's last operation (lines 48-49) can
therefore never run, and the model follows the code: `None` fails with
`NoInputOperation`.

The kernel operations compute their output shapes by rules that are not part of
this model. A graph carries those rules as an uninterpreted parameter, `rule`,
and no contract says anything about what `rule` returns. A variable's shape
follows from its request (`VariableShape`). A variable generated with
`transpose=True` from a two-dimensional request holds the transposed array.
So the dense weight, requested as (nOutputNodes, D) on lines 51-52, has shape
(D, nOutputNodes), which is what the product of the (N, D) input with it on
line 59 needs. Every other variable has the shape it was requested with. The
convolution builder reads the bias sum's shape
(`addConv2d.shape[1:]`, line 150) to size beta and gamma. The model reads the
same recorded shape.

## Model

| member | source | states |
|---|---|---|
| ComputationGraph.Graph.AddOperation | graphAttack/gaUtilities/neuralNetwork.py:56-64 | registering an operation appends exactly one record (kind, inputs, recorded shape, flags) after the existing ones, returns its index, and keeps the graph acyclic |
| ComputationGraph.TrainableSound | graphAttack/gaUtilities/neuralNetwork.py:56-57 | every index listed as trainable is an operation registered with doGradient |
| ComputationGraph.TrainableComplete | graphAttack/gaUtilities/neuralNetwork.py:56-57 | every operation registered with doGradient is listed as trainable |
| ComputationGraph.TrainableIncreasing | graphAttack/gaUtilities/neuralNetwork.py:56-57 | the trainable list is strictly increasing: registration order, no repeats |
| ComputationGraph.TrainableSnoc | graphAttack/gaUtilities/neuralNetwork.py:56-57 | appending one operation adds its index at the end of the trainable list exactly when it has doGradient |
| ComputationGraph.TrainableAppend | graphAttack/gaUtilities/neuralNetwork.py:56-82 | appending operations keeps the earlier trainable operations first and in order; the new ones follow, shifted by the old length |
| ComputationGraph.WellFormedConcat | graphAttack/gaUtilities/neuralNetwork.py:59-64 | appending operations that consume only earlier operations keeps the graph acyclic |
| NeuralNetwork.ReadShape | graphAttack/gaUtilities/neuralNetwork.py:47 | the input's shape unpacks into `rank` dimensions exactly when it has that many; a missing input fails with NoInputOperation, a wrong rank with ShapeUnpack(expected, found) |
| NeuralNetwork.DenseLayer | graphAttack/gaUtilities/neuralNetwork.py:14-83 | the dense builder succeeds exactly when the input exists and has shape (N, D); otherwise it returns the unpacking error; on success it appends 5 + [1 dropout] + [3 batch-norm] operations and returns the index of the last one |
| NeuralNetwork.Conv2dLayer | graphAttack/gaUtilities/neuralNetwork.py:86-165 | the convolution builder succeeds exactly when the input exists and has shape (N, C, H, W); otherwise it returns the unpacking error; on success it appends 6 + [3 batch-norm] operations and returns the index of the last one |
| NeuralNetwork.AddLinear | graphAttack/gaUtilities/neuralNetwork.py:50-64 | registering weight, bias, product and sum on the graph yields exactly the linear stage, and the index of the sum |
| NeuralNetwork.AddDropout | graphAttack/gaUtilities/neuralNetwork.py:66-71 | registers the dropout only when the rate is positive, and returns the dropout or else the sum unchanged |
| NeuralNetwork.AddBatchNorm | graphAttack/gaUtilities/neuralNetwork.py:73-78 | registers beta, gamma and the normalisation only when asked, and returns the normalisation or else its input unchanged |
| NeuralNetwork.AddDenseLayer | graphAttack/gaUtilities/neuralNetwork.py:14-83 | on a valid input the graph afterwards holds exactly `DenseLayer`'s operations and the activation's index comes back; on an invalid one the error comes back and the graph is unchanged |
| NeuralNetwork.AddConvolution | graphAttack/gaUtilities/neuralNetwork.py:138-147 | registering filter, convolution, bias and sum on the graph yields exactly the convolution stage, and the index of the sum |
| NeuralNetwork.AddConv2dLayer | graphAttack/gaUtilities/neuralNetwork.py:86-165 | on a valid input the graph afterwards holds exactly `Conv2dLayer`'s operations and the pooling's index comes back; on an invalid one the error comes back and the graph is unchanged |
| LayerProperties.LinearStepNodes | graphAttack/gaUtilities/neuralNetwork.py:50-64 | the linear stage keeps the old operations, then adds: weight requested as (nOutputNodes, D), transposed so of shape (D, nOutputNodes), with fan-in D; bias (nOutputNodes) with fan-in 1; MatMul(input, weight); Add(product, bias) |
| LayerProperties.LinearStepRegistered | graphAttack/gaUtilities/neuralNetwork.py:56-64 | the linear stage adds exactly the weight and the bias to the trainable list, and keeps the graph acyclic |
| LayerProperties.DropoutStepNodes | graphAttack/gaUtilities/neuralNetwork.py:66-71 | with a positive rate the stage appends Dropout(sum, rate) and returns it; otherwise it returns the sum |
| LayerProperties.DropoutStepRegistered | graphAttack/gaUtilities/neuralNetwork.py:66-71 | the dropout stage adds nothing trainable and keeps the graph acyclic |
| LayerProperties.BatchNormStepNodes | graphAttack/gaUtilities/neuralNetwork.py:73-78 | with batch normalisation on, the stage appends beta, gamma (default generateRandomVariable arguments) and BatchNorm(prev, beta, gamma) and returns it; otherwise it returns prev |
| LayerProperties.BatchNormStepRegistered | graphAttack/gaUtilities/neuralNetwork.py:73-78 | the batch-norm stage adds exactly beta and gamma to the trainable list, and only when on; it keeps the graph acyclic |
| LayerProperties.KernelStepNodes | graphAttack/gaUtilities/neuralNetwork.py:80-82 | a single kernel stage (activation, pooling) keeps the old operations, appends the kernel on its input, adds nothing trainable and keeps the graph acyclic |
| LayerProperties.ConvolutionStepNodes | graphAttack/gaUtilities/neuralNetwork.py:136-147 | the convolution stage keeps the old operations, then adds: filter (nFilters, C, fh, fw) with fan-in fh·fw·C; Conv2d(input, filter, stride, padding); bias (1, nFilters, 1, 1) with fan-in 1; Add(conv, bias) |
| LayerProperties.ConvolutionStepRegistered | graphAttack/gaUtilities/neuralNetwork.py:141-147 | the convolution stage adds exactly the filter and the bias to the trainable list, and keeps the graph acyclic |
| LayerProperties.DenseLayerLinear | graphAttack/gaUtilities/neuralNetwork.py:47-64 | a dense layer keeps the earlier operations and starts with the weight requested as (nOutputNodes, D) with fan-in D and transposed, so of shape (D, nOutputNodes), the bias (nOutputNodes) with fan-in 1, MatMul(input, weight) and Add(product, bias) |
| LayerProperties.DenseLayerDropout | graphAttack/gaUtilities/neuralNetwork.py:66-71 | a positive rate puts Dropout(sum) right after the sum; with a rate ≤ 0 the layer holds no dropout at all, and the sum feeds the normalisation directly, or the activation when there is no normalisation |
| LayerProperties.DenseLayerDropoutNode | graphAttack/gaUtilities/neuralNetwork.py:66-71 | with a positive rate, the operation right after the sum is Dropout(sum, rate) |
| LayerProperties.DenseLayerBatchNorm | graphAttack/gaUtilities/neuralNetwork.py:73-78 | with batch normalisation, trainable beta and gamma of shape (1, nOutputNodes) follow, then BatchNorm(previous tail, beta, gamma) |
| LayerProperties.DenseLayerActivation | graphAttack/gaUtilities/neuralNetwork.py:80-83 | the layer's last operation is the activation of its previous tail, and that activation's index is returned |
| LayerProperties.DenseLayerPlain | graphAttack/gaUtilities/neuralNetwork.py:47-83 | without dropout and batch normalisation the layer keeps the earlier operations and adds exactly five: the weight and the bias with their generateRandomVariable arguments, MatMul(input, weight), Add(product, bias), and the activation of the sum, whose index is returned |
| LayerProperties.DenseLayerKinds | graphAttack/gaUtilities/neuralNetwork.py:50-82 | among the appended operations: a Dropout exactly when the rate is positive, and only at its place; a BatchNorm exactly when asked, and only at its place; doGradient exactly on the variables; no feeder or final flags |
| LayerProperties.DenseLayerTrainable | graphAttack/gaUtilities/neuralNetwork.py:56-77 | the trainable list grows by the weight and the bias, then beta and gamma when the layer normalises, in that order |
| LayerProperties.DenseLayerWellFormed | graphAttack/gaUtilities/neuralNetwork.py:59-82 | adding a dense layer to an acyclic graph leaves it acyclic |
| LayerProperties.DenseLayerDataPath | graphAttack/gaUtilities/neuralNetwork.py:59-82 | following first inputs back from the returned activation reaches the layer's input after 3 + [dropout] + [batch norm] steps |
| LayerProperties.Conv2dLayerConvolution | graphAttack/gaUtilities/neuralNetwork.py:136-147 | a convolution layer keeps the earlier operations and starts with the filter (nFilters, C, fh, fw) with fan-in fh·fw·C, Conv2d(input, filter), the bias (1, nFilters, 1, 1) with fan-in 1 and Add(conv, bias) |
| LayerProperties.Conv2dLayerBatchNorm | graphAttack/gaUtilities/neuralNetwork.py:149-154 | with batch normalisation, trainable beta and gamma of shape (1, *sum.shape[1:]) follow, then BatchNorm(sum, beta, gamma) |
| LayerProperties.Conv2dLayerActivationPool | graphAttack/gaUtilities/neuralNetwork.py:156-165 | the layer ends with the activation of its tail and the pooling (kind, height, width, stride) of that activation; 6 or 9 operations in all; the pooling's index is returned |
| LayerProperties.Conv2dLayerKinds | graphAttack/gaUtilities/neuralNetwork.py:141-163 | among the appended operations: a BatchNorm exactly when asked, and only at its place; a pooling only last; doGradient exactly on the variables; no feeder or final flags |
| LayerProperties.Conv2dLayerTrainable | graphAttack/gaUtilities/neuralNetwork.py:141-152 | the trainable list grows by the filter and the bias, then beta and gamma when the layer normalises, in that order |
| LayerProperties.Conv2dLayerWellFormed | graphAttack/gaUtilities/neuralNetwork.py:141-163 | adding a convolution layer to an acyclic graph leaves it acyclic |
| LayerProperties.Conv2dLayerDataPath | graphAttack/gaUtilities/neuralNetwork.py:142-163 | following first inputs back from the returned pooling reaches the layer's input after 4 + [batch norm] steps |

## Left out

- Kernel numerics and output-shape rules (matrix product, addition, dropout, batch normalisation, convolution, activations, pooling): these belong to collaborators not modelled here. They appear only as the uninterpreted `rule`, so nothing is claimed about the output shapes of dense or convolution layers.
- Errors raised inside kernel constructors, such as an unknown padding method or a filter larger than the input under "VALID" padding, are left out. That code is not part of this model, and the builders themselves check nothing beyond unpacking the input's shape.
- The random values generateRandomVariable draws are left out, as is any error it might raise (for instance on a negative dimension). A variable records only the arguments of the call (shape, `transpose`, `nInputs`), with `None` for an argument left at its default.
- The body of generateRandomVariable is not part of this model. That `transpose=True` on a two-dimensional request yields the transposed array (`VariableShape`) is taken from how the dense builder uses the weight (line 59); for other ranks the model keeps the requested shape.
- Activation and pooling operations are passed to the builders as classes. Here they are identified by name, and the classes' behaviour is not modelled.
- `Graph.addOperation`'s defaults are taken to be `doGradient=False`, `feederOperation=False` and `finalOperation=False`. The Graph class is not part of this model. The normalisation (lines 76, 152), convolution (143), bias sum (147) and pooling (160) are registered with those defaults.
- The docstring of `addDenseLayer` documents `w` and `b` parameters that the function does not take. They are not modelled.
- The dropout rate is an exact `real`. Floating-point behaviour of the `> 0` test is not modelled.
- Layer hyperparameters such as a non-positive number of output nodes or filters are not validated by the builders, and the model does not validate them either. A value that makes generateRandomVariable fail is covered by the line on its errors above.
- The builders' default arguments (lines 14-18 and 86-98) are not modelled. Every member takes all of its arguments explicitly.
- The training-orchestration script `controlTrainCNN.py` is not part of this model. It does I/O, runs an external optimiser and executes the graph.
