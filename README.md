# A verified model of a small C++ neural-network library

This project models the core of a small C++ neural-network library in Dafny and proves properties of that model. It covers:

- the `Tensor` class: a shape and a flat row-major buffer, an indexed accessor, fill, elementwise `+`, `-` and `*`, scalar-minus, the 2-D matrix product `dot` and `transpose`;
- the scalar helpers of `nn_utils.h`: sigmoid, ReLU and its derivative, normalize and standardize;
- the activation layers ReLU, Sigmoid and Softmax;
- the Dense, Dropout, BatchNorm, Conv2D and LSTM layers, each with its forward and its backward pass (backward also updates the layer's own parameters);
- the optimizers SGD, Adamax, AdamW and Nadam, each with its lazily initialised moment tensors and step counter.

How the model is built:

- **Numbers.** Every floating-point value is a mathematical `real`. `exp`, `tanh` and `sqrt` are the fields of a `Functions` value that every member using them takes as a parameter. The predicate `Sound` states the facts the proofs rely on: exp is positive with exp(0) = 1, tanh lies in (-1, 1), and sqrt of a non-negative number is non-negative and squares back to it. `std::pow(beta, t)` with an integer step count is the exact power `Pow`.
- **Tensors are values.** A tensor is the datatype `Tensor(shape, data)`, because the C++ class is copied by value whenever it is passed, returned or assigned. Each operation of `tensor.cpp` that loops over the buffer is a method with loop invariants. That method is proved equal to a specification function, for example `Combine` against `Pointwise` and `Dot` against `DotSpec`. The algebraic facts are lemmas about those functions.
- **Layers and optimizers are classes.** Each keeps the fields that the C++ class mutates. Forward and backward are methods that assign those fields, and their `ensures` clauses state the whole new state. The loops inside them are module-level methods that change nothing and are proved against specification functions.
- **Randomness is an input.** A random draw becomes a parameter: the initial weights of Dense, Conv2D and LSTM; Dropout's uniform draws; `Tensor::randomize`.
- **Errors are results.** A shape check that throws `std::invalid_argument` in the source returns an error value of a `Result` datatype. The layer's state is then left unchanged, except for a field the source writes before the throw: LSTM forward as written assigns `input_cache` (lstm.cpp:41) before `dot` throws (lstm.cpp:49).

In two places the code does not do what its own surroundings show it is meant to do. The model follows the code, and the corrected behaviour is stated beside it:

- `pad` writes input element (c, h, w) at padded position (c, h + padding, w + padding) (layers/conv2d.cpp:158). The input-gradient loop checks its indices against the unpadded input extent (layers/conv2d.cpp:129-130), so it means to drop the contributions that fall in the padding. But the indices it checks are padded coordinates: the code does not subtract the padding, so it sends contributions to the wrong elements when the padding is not 0. `Conv2DLayer.Conv2D.Backward` models the code as written; `Conv2DLayer.Conv2D.CorrectedBackward` is the corrected backward. See Findings.
- The LSTM layer is written as a working single-step recurrent layer, but the accessor asserts one coordinate per dimension (tensor.cpp:17) and `dot` rejects operands that are not 2-D (tensor.cpp:117). The constructor writes its matrices with one coordinate, and both passes call `dot` on the rank-1 vector `combined`, so all three fail. `LSTMLayer.ConstructorTripsAssertion`, `LSTMLayer.LSTM.ForwardAsWritten` and `LSTMLayer.LSTM.BackwardAsWritten` model the code as written. The class's constructor, `Forward` and `Backward` are the corrected reading. See Findings.

## Model

| member | source | states |
|---|---|---|
| Tensors.Zeros | tensor.cpp:6-13 | the tensor of a shape is valid, keeps that shape and holds one element per coordinate |
| Tensors.New | tensor.cpp:6-13 | the constructor gives the product of the dimensions as the element count and sets every element to 0 |
| Tensors.Index | tensor.cpp:18-23 | the stride loop computes exactly the row-major offset of the coordinates |
| Tensors.OffsetBound | tensor.cpp:18-24 | a coordinate list inside the shape lands strictly inside the data |
| Tensors.OffsetInjective | tensor.cpp:18-24 | two different in-bounds coordinate lists never share an element |
| Tensors.OffsetSingle | tensor.cpp:18-23 | on a rank-1 tensor the offset of {i} is i |
| Tensors.Offset2 | tensor.cpp:18-23 | on a matrix the offset of {i, j} is i times the column count plus j |
| Tensors.Offset3 | tensor.cpp:18-23 | on a rank-3 tensor the offset of {c, h, w} is (c*H + h)*W + w |
| Tensors.Offset4 | tensor.cpp:18-23 | on a rank-4 tensor the offset of {a, b, c, d} is ((a*B + b)*C + c)*D + d |
| Tensors.Get | tensor.cpp:28-37 | reading needs as many coordinates as dimensions and an offset inside the data, and returns the element at that offset |
| Tensors.Set | tensor.cpp:16-25 | writing changes the element at the coordinates' offset and no other element, and keeps the shape |
| Tensors.Get1 | tensor.cpp:28-37 | a single-coordinate read on a vector returns element i |
| Tensors.Set1 | tensor.cpp:16-25 | a single-coordinate write on a vector replaces element i only |
| Tensors.Get2 | tensor.cpp:28-37 | a two-coordinate read returns the entry at row i, column j |
| Tensors.Set2 | tensor.cpp:16-25 | a two-coordinate write replaces the element at i*columns + j only |
| Tensors.At2IsAccessor | tensor.cpp:18-24 | the accessor's offset for {i, j} is inside the data, and reading there gives the matrix entry (i, j) |
| Tensors.Get3 | tensor.cpp:28-37 | a three-coordinate read returns the entry (c, h, w) |
| Tensors.Set3 | tensor.cpp:16-25 | a three-coordinate write replaces only the element at (c*H + h)*W + w |
| Tensors.At3IsAccessor | tensor.cpp:18-24 | the accessor's offset for {c, h, w} is inside the data, and reading there gives entry (c, h, w) |
| Tensors.Get4 | tensor.cpp:28-37 | a four-coordinate read returns the entry (a, b, c, d) |
| Tensors.Set4 | tensor.cpp:16-25 | a four-coordinate write replaces only the element at the row-major offset of (a, b, c, d) |
| Tensors.At4IsAccessor | tensor.cpp:18-24 | the accessor's offset for {a, b, c, d} is inside the data, and reading there gives entry (a, b, c, d) |
| Tensors.Fill | tensor.cpp:50-52 | every element becomes the given value; the shape and the element count are kept |
| Tensors.Combine | tensor.cpp:163-173 | the loop shared by the three elementwise operators equals the elementwise definition, including its shape error |
| Tensors.Add | tensor.cpp:163-173 | an error exactly when the shapes differ, and that error is ShapeMismatch; otherwise element i is a[i] + b[i] and the shape is a's |
| Tensors.Subtract | tensor.cpp:93-103 | an error exactly when the shapes differ, and that error is ShapeMismatch; otherwise element i is a[i] - b[i] and the shape is a's |
| Tensors.Multiply | tensor.cpp:150-160 | an error exactly when the shapes differ, and that error is ShapeMismatch; otherwise element i is a[i] * b[i] and the shape is a's |
| Tensors.SingleCoordinateWrite | tensor.cpp:17 | the write result({0}) passes the coordinate-count assertion exactly when the operand is a vector, so a non-empty matrix operand is rejected |
| Tensors.AddThenSubtract | tensor.cpp:93-173 | for operands of one shape, adding b and then subtracting b gives a back |
| Tensors.ScalarMinus | tensor.cpp:106-112 | element i of value - tensor is value - tensor[i]; the shape is the tensor's, and there is no shape check |
| Tensors.DotSpec | tensor.cpp:116-132 | an error exactly when an operand is not a matrix or the inner dimensions differ, and that error is ShapeMismatch; otherwise an m-by-p matrix |
| Tensors.RowTimesColumn | tensor.cpp:124-127 | the innermost loop sums row i of a times column j of b |
| Tensors.Dot | tensor.cpp:116-132 | the triple loop gives exactly the defined product, or the same shape error |
| Tensors.DotAt | tensor.cpp:122-130 | entry (i, j) of the product is the inner product of row i of a and column j of b |
| Tensors.TransposeSpec | tensor.cpp:135-147 | an error exactly when the operand is not rank 2, and that error is ShapeMismatch; otherwise an n-by-m matrix |
| Tensors.Transpose | tensor.cpp:135-147 | the double loop gives exactly the defined transpose, or the same error |
| Tensors.TransposeAt | tensor.cpp:143 | entry (j, i) of the transpose is entry (i, j) of the input |
| Tensors.TransposeInvolutive | tensor.cpp:135-147 | transposing a matrix twice gives it back |
| Tensors.ScaledDifference | optimizers/sgd.cpp:8-10 | a gradient step keeps the parameter's shape and element count |
| Tensors.SubtractScaled | optimizers/sgd.cpp:8-10 | the loop param({i}) -= rate * grad({i}) computes element i as param[i] - rate * grad[i], for every element |
| Tensors.ZeroRateKeeps | optimizers/sgd.cpp:8-10 | a step with rate 0 leaves the parameter unchanged |
| Tensors.ScaledDifferenceTwice | optimizers/sgd.cpp:8-10 | two steps with one gradient are one step with the sum of the rates |
| NNUtils.Relu | nn_utils.h:63-65 | relu(x) is non-negative, at least x, and is either x or 0 |
| NNUtils.ReluDerivative | nn_utils.h:68-70 | the derivative is 0 or 1, and it is 1 exactly when x is positive (so 0 at x = 0) |
| NNUtils.ReluIdempotent | nn_utils.h:63-65 | applying relu twice is applying it once |
| NNUtils.ReluIsGated | nn_utils.h:63-70 | relu(x) is x times its own derivative |
| NNUtils.Sigmoid | nn_utils.h:58-60 | sigmoid(x) lies strictly between 0 and 1 |
| NNUtils.SigmoidAtZero | nn_utils.h:58-60 | sigmoid(0) is one half |
| NNUtils.MinIsLeast | nn_utils.h:38 | the minimum is at most every element and is one of the elements |
| NNUtils.MaxIsGreatest | nn_utils.h:39 | the maximum is at least every element and is one of the elements |
| NNUtils.MinElement | nn_utils.h:38 | the scan of a non-empty vector returns its minimum |
| NNUtils.MaxElement | nn_utils.h:39 | the scan of a non-empty vector returns its maximum |
| NNUtils.RescaleUnit | nn_utils.h:41 | one rescaled element lies in [0, 1]; the low end goes to 0 and the high end to 1 |
| NNUtils.NormalizedRange | nn_utils.h:37-43 | after rescaling, every element lies in [0, 1], minima become 0, maxima become 1, and the order of elements is kept |
| NNUtils.NormalizedUnit | nn_utils.h:37-43 | the bounds and end points of the rescaling: within [0, 1], minimum to 0, maximum to 1 |
| NNUtils.NormalizedMonotone | nn_utils.h:37-43 | rescaling keeps the order of any two elements |
| NNUtils.Normalize | nn_utils.h:37-43 | in place, each element becomes (x - min) / (max - min) of the old vector; requires a non-empty vector that is not constant |
| NNUtils.DeviationsPositive | nn_utils.h:51 | on a vector that is not constant, the sum of squared deviations from any centre is positive |
| NNUtils.StdDevPositive | nn_utils.h:51-52 | a vector that is not constant has a positive standard deviation, so the division at line 54 is defined |
| NNUtils.SumShiftScale | nn_utils.h:54 | shifting by c and dividing by d takes the sum to (sum - n*c) / d |
| NNUtils.MeanTimesCount | nn_utils.h:47-49 | n times the mean is the sum |
| NNUtils.CenteredSumZero | nn_utils.h:47-54 | subtracting the mean and dividing by any non-zero d gives a vector that sums to 0 |
| NNUtils.StandardizedMeanZero | nn_utils.h:46-55 | standardized data has mean 0 |
| NNUtils.Total | nn_utils.h:48 | the first accumulation returns the sum of the elements |
| NNUtils.TotalSquaredDeviation | nn_utils.h:51 | the second accumulation returns the sum of (x - mean)^2 |
| NNUtils.ShiftScale | nn_utils.h:54 | in place, each element becomes (x - c) / d of the old vector |
| NNUtils.Standardize | nn_utils.h:46-55 | in place, each element becomes (x - mean) / stddev of the old vector, with the population standard deviation |
| ReluLayer.Rectified | activations/relu.cpp:12-17 | the forward output is valid and has the input's shape |
| ReluLayer.Gated | activations/relu.cpp:25-30 | the backward output is valid and has the cache's shape |
| ReluLayer.Rectify | activations/relu.cpp:12-17 | the loop writes max(0, x) for every element |
| ReluLayer.Gate | activations/relu.cpp:25-30 | the loop writes grad[i] times the 0/1 derivative of the cached input, for every element |
| ReluLayer.ReLU.constructor | activations/relu.cpp:4 | the cache starts as the rank-0 tensor with one zero element |
| ReluLayer.ReLU.Forward | activations/relu.cpp:7-20 | caches the input and returns relu of every element |
| ReluLayer.ReLU.Backward | activations/relu.cpp:23-33 | returns the gradient gated by the cached input; nothing changes |
| ReluLayer.RectifiedValues | activations/relu.cpp:16 | every output is non-negative, equals the input where that is positive and is 0 elsewhere |
| ReluLayer.RectifiedIdempotent | activations/relu.cpp:12-17 | forward on its own output changes nothing |
| ReluLayer.GatedValues | activations/relu.cpp:29 | backward passes grad[i] where the cached input is positive and gives 0 elsewhere, including where it is exactly 0 |
| ReluLayer.RectifiedIsSelfGated | activations/relu.cpp:16-29 | the forward output equals backward with the input as its own gradient |
| ReluLayer.Example | activations/relu.cpp:7-33 | forward on [-1, 0, 2] is [0, 0, 2]; backward of ones is [0, 0, 1] |
| SigmoidLayer.Activated | activations/sigmoid.cpp:10-16 | the forward output is valid and has the input's shape |
| SigmoidLayer.SlopeGated | activations/sigmoid.cpp:27-33 | the backward output is valid and has the cached output's shape |
| SigmoidLayer.Activate | activations/sigmoid.cpp:13-16 | the loop writes 1 / (1 + exp(-x)) for every element |
| SigmoidLayer.SlopeGate | activations/sigmoid.cpp:30-33 | the loop writes grad[i] * o * (1 - o) with o the cached output, for every element |
| SigmoidLayer.SigmoidActivation.constructor | activations/sigmoid.cpp:5 | the cache starts as the rank-0 tensor with one zero element |
| SigmoidLayer.SigmoidActivation.Forward | activations/sigmoid.cpp:8-22 | returns the sigmoid of every element and caches the output, not the input |
| SigmoidLayer.SigmoidActivation.Backward | activations/sigmoid.cpp:25-36 | returns the elementwise slope rule on the cached output; nothing changes |
| SigmoidLayer.ActivatedInUnitInterval | activations/sigmoid.cpp:15 | every forward output lies strictly between 0 and 1 |
| SigmoidLayer.SlopeBounds | activations/sigmoid.cpp:32 | for an output in (0, 1), out * (1 - out) lies in (0, 1/4] |
| SigmoidLayer.BackwardAfterForward | activations/sigmoid.cpp:8-36 | after forward, backward multiplies each gradient element by a factor in (0, 1/4], keeping its sign |
| SigmoidLayer.ActivatedAtZero | activations/sigmoid.cpp:15 | forward on [0] gives [0.5] |
| SoftmaxLayer.Exponentials | activations/softmax.cpp:23 | one exponential per element |
| SoftmaxLayer.ExponentialsPositive | activations/softmax.cpp:21-25 | every exponential is positive, and so is their sum on a non-empty input, so the division at line 29 is defined |
| SoftmaxLayer.Probabilities | activations/softmax.cpp:11-30 | the forward output is valid and has the input's shape |
| SoftmaxLayer.Maximum | activations/softmax.cpp:14-19 | the first loop returns the largest element |
| SoftmaxLayer.Exponentiate | activations/softmax.cpp:21-25 | the second loop writes exp(x - max) for every element and returns their sum |
| SoftmaxLayer.DivideAll | activations/softmax.cpp:28-30 | the third loop divides every element by the sum |
| SoftmaxLayer.Softmaxed | activations/softmax.cpp:11-30 | the three loops compute the softmax of a non-empty vector |
| SoftmaxLayer.Softmax.constructor | activations/softmax.cpp:6 | the cache starts as the rank-0 tensor with one zero element |
| SoftmaxLayer.Softmax.Forward | activations/softmax.cpp:9-36 | returns the softmax and caches it; the input must be a non-empty vector because input({0}) is read first |
| SoftmaxLayer.Softmax.Backward | activations/softmax.cpp:39-50 | returns the same elementwise rule as the Sigmoid layer on the cached output; nothing changes |
| SoftmaxLayer.ExponentsNonPositive | activations/softmax.cpp:23 | every exponent x - max is at most 0, and is 0 somewhere |
| SoftmaxLayer.SumDivided | activations/softmax.cpp:28-30 | dividing every element by d divides the sum by d |
| SoftmaxLayer.ProbabilitiesSumToOne | activations/softmax.cpp:11-30 | the outputs sum to 1 |
| SoftmaxLayer.ProbabilitiesInUnitInterval | activations/softmax.cpp:11-30 | every output lies in (0, 1] |
| SoftmaxLayer.BackwardAfterForward | activations/softmax.cpp:44-47 | after forward, backward multiplies each gradient element by a factor in [0, 1/4] |
| DropoutLayer.MaskEntry | layers/dropout.cpp:16 | a draw below the rate gives 0; any other draw gives m with m * (1 - rate) = 1 |
| DropoutLayer.MaskFor | layers/dropout.cpp:14-17 | the mask is valid and has the input's shape |
| DropoutLayer.Masked | layers/dropout.cpp:20-23 | the masked tensor is valid and has the shape of the tensor |
| DropoutLayer.DrawMask | layers/dropout.cpp:14-17 | the first loop builds the mask from the draws, one draw per element |
| DropoutLayer.ApplyMask | layers/dropout.cpp:21-23 | the loop multiplies element i by mask element i, for every element |
| DropoutLayer.Dropout.constructor | layers/dropout.cpp:4-9 | a layer with an accepted rate keeps the rate, and the mask starts as the rank-0 tensor |
| DropoutLayer.Dropout.Forward | layers/dropout.cpp:12-26 | draws a new mask of the input's shape and returns input * mask |
| DropoutLayer.Dropout.Backward | layers/dropout.cpp:29-37 | returns grad * mask with the latest mask; nothing changes |
| DropoutLayer.NewDropout | layers/dropout.cpp:4-9 | an InvalidConfiguration error exactly when the rate is outside [0, 1); otherwise a new layer with that rate |
| DropoutLayer.RateExamples | layers/dropout.cpp:6-8 | rates 1.0 and -0.1 are rejected; 0 and 0.5 are accepted |
| DropoutLayer.MaskValues | layers/dropout.cpp:16 | every mask entry is 0 exactly when its draw is below the rate, and 1 / (1 - rate) otherwise |
| DropoutLayer.RateZeroIsIdentity | layers/dropout.cpp:12-26 | with rate 0 and draws in [0, 1), every mask entry is 1 and forward returns its input unchanged |
| SGDOptimizer.SGD.constructor | optimizers/sgd.cpp:4 | the optimizer keeps the learning rate it is given |
| SGDOptimizer.SGD.Update | optimizers/sgd.cpp:7-11 | the result is the parameter minus learning rate times gradient, element by element, with the parameter's shape |
| SGDOptimizer.UpdateMeaning | optimizers/sgd.cpp:9 | element i becomes param[i] - lr * grad[i], the shape is kept, and rate 0 changes nothing |
| Optimizers.AverageBetween | optimizers/adamw.cpp:19-20 | for beta in [0, 1] the moving average lies between the previous value and the new one, so it stays non-negative when both are |
| Optimizers.Averaged | optimizers/adamw.cpp:19 | the moment keeps its length; only the elements below the parameter's size move |
| Optimizers.SquaresNonNegative | optimizers/adamw.cpp:20 | the squared gradients are never negative |
| Optimizers.AveragedNonNegative | optimizers/adamw.cpp:20 | the second moment stays non-negative across updates when beta2 is in [0, 1] |
| Optimizers.Moment | optimizers/adamw.cpp:11-14 | the first update works on a new zero tensor of the parameter's shape, and later ones on the stored moment |
| Optimizers.MomentAccessible | optimizers/adamw.cpp:11-14 | a lazily created moment can be read and written at every index of the parameter it was created for |
| Optimizers.CorrectedNonNegative | optimizers/adamw.cpp:23 | the bias correction keeps a non-negative value non-negative, so the square root at line 25 is defined |
| Optimizers.CorrectedFirst | optimizers/adamw.cpp:22-23 | on the first step the correction divides by 1 - beta |
| Optimizers.FirstStepUnbiased | optimizers/adamw.cpp:19-23 | on the first step from zero moments, the corrected moments are exactly the gradient and its square |
| AdamaxOptimizer.Larger | optimizers/adamax.cpp:20 | std::max returns one of its arguments, and it is at least both |
| AdamaxOptimizer.Peak | optimizers/adamax.cpp:20 | the new infinity-norm moment is at least abs(g) and at least beta2 * u, and it is one of the two |
| AdamaxOptimizer.Peaks | optimizers/adamax.cpp:20 | the moment keeps its length, and each updated element is at least abs(g[i]) |
| AdamaxOptimizer.Stepped | optimizers/adamax.cpp:22 | the stepped parameter keeps its length |
| AdamaxOptimizer.Step | optimizers/adamax.cpp:18-23 | the loop updates m by the moving average and u by the peak rule, then steps each element with the NEW m and u |
| AdamaxOptimizer.Adamax.constructor | optimizers/adamax.cpp:5-6 | the hyperparameters are kept, there are no moments yet, and t is 0 |
| AdamaxOptimizer.Adamax.Update | optimizers/adamax.cpp:9-24 | creates zero moments on the first call, adds 1 to t, and stores the new moments and the stepped parameter |
| AdamaxOptimizer.ZeroRateKeepsParam | optimizers/adamax.cpp:22 | with learning rate 0 the parameter is unchanged |
| AdamaxOptimizer.DescendBounded | optimizers/adamax.cpp:22 | when abs(m) <= u, one element moves by at most the learning rate, whatever the gradients were |
| AdamWOptimizer.Updated | optimizers/adamw.cpp:22-28 | the updated parameter keeps its length |
| AdamWOptimizer.Step | optimizers/adamw.cpp:18-29 | the loop updates both moving averages, keeps v non-negative, then applies the corrected adaptive step and the weight decay |
| AdamWOptimizer.AdamW.constructor | optimizers/adamw.cpp:5-6 | the hyperparameters are kept, there are no moments yet, and t is 0 |
| AdamWOptimizer.AdamW.Update | optimizers/adamw.cpp:9-30 | creates zero moments on the first call, adds 1 to t, and stores the new moments and the updated parameter |
| AdamWOptimizer.DecayAfterStep | optimizers/adamw.cpp:25-28 | the decay multiplies the value produced by the adaptive step by (1 - lr * wd) |
| AdamWOptimizer.ZeroRateKeepsParam | optimizers/adamw.cpp:25-28 | with learning rate 0 the parameter is unchanged |
| AdamWOptimizer.FirstUpdate | optimizers/adamw.cpp:16-28 | the first step from zero moments moves p by lr * g / (sqrt(g^2) + eps), and then the decay applies |
| NadamOptimizer.Step | optimizers/nadam.cpp:19-27 | the loop updates both moving averages, keeps v non-negative, and applies the Nesterov step with the new moments |
| NadamOptimizer.Nadam.constructor | optimizers/nadam.cpp:5-6 | the hyperparameters are kept, there are no moments yet, and t is 0 |
| NadamOptimizer.Nadam.Update | optimizers/nadam.cpp:10-28 | creates zero moments on the first call, adds 1 to t, and stores the new moments and the updated parameter |
| NadamOptimizer.ZeroRateKeepsParam | optimizers/nadam.cpp:26 | with learning rate 0 the parameter is unchanged |
| NadamOptimizer.FirstUpdateNumerator | optimizers/nadam.cpp:23-26 | on the first step, the numerator divides beta1 * g by (1 - beta1), because the first moment is corrected twice; the gradient term is not corrected |
| NadamOptimizer.NoMomentum | optimizers/nadam.cpp:26 | with beta1 = 0 the numerator is the gradient itself |
| NadamOptimizer.Updated | optimizers/nadam.cpp:23-26 | the updated parameter keeps its length |
| Elementary.PowBelowOne | optimizers/adamw.cpp:22-23 | for 0 <= beta < 1 and t >= 1, beta^t lies in [0, 1), so the bias-correction denominator 1 - beta^t is positive and at most 1 |
| Dense.Affine | dense_layer.cpp:21-30 | the forward output is a vector of output_size elements |
| Dense.BackProjected | dense_layer.cpp:38-49 | the input gradient is a vector of input_size elements |
| Dense.Outer | dense_layer.cpp:52-56 | the weight gradient is an input_size-by-output_size matrix |
| Dense.Prefix | dense_layer.cpp:59-61 | the bias gradient is a vector of output_size elements |
| Dense.ColumnSum | dense_layer.cpp:25-28 | the inner loop of forward is the inner product of the input with column i of the weights |
| Dense.AffineMap | dense_layer.cpp:21-30 | the loops of forward compute input * weights + biases |
| Dense.RowSum | dense_layer.cpp:44-47 | the inner loop of the input gradient is the inner product of the gradient with row i of the weights |
| Dense.BackProject | dense_layer.cpp:43-49 | the first loop of backward computes the weights times the gradient |
| Dense.OuterProduct | dense_layer.cpp:52-56 | the second loop of backward computes the outer product of the cached input and the gradient |
| Dense.CopyPrefix | dense_layer.cpp:59-61 | the third loop of backward copies the first output_size gradient elements |
| Dense.DescendMatrix | dense_layer.cpp:64-68 | the weight update in row-major order is one gradient step on every entry |
| Dense.DenseLayer.constructor | dense_layer.cpp:6-13 | the weights are the given initial values with shape {input_size, output_size}, the biases are zero, and the cache is a zero vector |
| Dense.DenseLayer.Forward | dense_layer.cpp:16-33 | caches the input, returns input * weights + biases, and leaves the parameters unchanged |
| Dense.DenseLayer.Backward | dense_layer.cpp:36-74 | returns the input gradient computed with the OLD weights, and steps the weights by the outer product and the biases by the gradient |
| Dense.DenseLayer.GetWeights | dense_layer.cpp:77-79 | returns the weights; nothing changes |
| Dense.DenseLayer.GetBiases | dense_layer.cpp:82-84 | returns the biases; nothing changes |
| Dense.WeightUpdateAt | dense_layer.cpp:54-66 | after backward, W[i, j] is the old W[i, j] minus lr * input[i] * grad[j] |
| Dense.BiasUpdateAt | dense_layer.cpp:60-70 | after backward, b[i] is the old b[i] minus lr * grad[i] |
| Dense.ZeroRateKeepsParameters | dense_layer.cpp:64-71 | with learning rate 0, backward leaves the weights and the biases unchanged |
| Dense.AffineIsDot | dense_layer.cpp:23-29 | forward is the matrix product of the input, read as a 1-by-n row, with the weights, plus the biases |
| Dense.BackProjectedIsDot | dense_layer.cpp:42-49 | the input gradient is the weights times the gradient read as a p-by-1 column |
| Dense.OuterCell | dense_layer.cpp:51-56 | one entry of the column-times-row product is the weight gradient entry |
| Dense.OuterIsDot | dense_layer.cpp:51-56 | the weight gradient is the product of the input as an n-by-1 column with the gradient as a 1-by-p row |
| BatchNormLayer.Around | layers/batch_norm.cpp:43 | the sum of squared distances of the elements from any point, written out, is never negative |
| BatchNormLayer.Spread | layers/batch_norm.cpp:43 | n times the sum of squares is at least the square of the sum (Cauchy-Schwarz against the all-ones vector) |
| BatchNormLayer.VarianceAlgebra | layers/batch_norm.cpp:42-43 | sum_sq / n - (sum / n)^2 is non-negative whenever n * sum_sq >= sum^2 |
| BatchNormLayer.VarianceNonNegative | layers/batch_norm.cpp:42-43 | the batch variance, computed as a difference, is never negative, so var + epsilon is positive under the square root at line 56 |
| BatchNormLayer.Means | layers/batch_norm.cpp:42 | one batch mean per feature |
| BatchNormLayer.Variances | layers/batch_norm.cpp:43 | one batch variance per feature |
| BatchNormLayer.VariancesNonNegative | layers/batch_norm.cpp:33-44 | every feature's batch variance is non-negative |
| BatchNormLayer.Columnwise | layers/batch_norm.cpp:53-66 | each of the nested loops writes a matrix of the input's shape |
| BatchNormLayer.ColumnwiseAt | layers/batch_norm.cpp:56 | entry (i, j) of a nested loop's result depends only on entry (i, j) of its matrix and on the values of feature j |
| BatchNormLayer.Normalization | layers/batch_norm.cpp:53-58 | the normalised batch has the input's shape |
| BatchNormLayer.GammaGradient | layers/batch_norm.cpp:87 | one gamma gradient per feature |
| BatchNormLayer.BetaGradient | layers/batch_norm.cpp:88 | one beta gradient per feature |
| BatchNormLayer.ColumnSums | layers/batch_norm.cpp:37-40 | the inner loop returns the sum and the sum of squares of column i |
| BatchNormLayer.Statistics | layers/batch_norm.cpp:30-44 | the first loop computes each feature's batch mean and population variance |
| BatchNormLayer.RunningUpdate | layers/batch_norm.cpp:47-50 | the second loop moves each running statistic by the moving average with factor momentum |
| BatchNormLayer.ColumnwiseMap | layers/batch_norm.cpp:54-58 | the nested loops over rows and features compute the matrix their rule defines |
| BatchNormLayer.ColumnGradients | layers/batch_norm.cpp:86-89 | the inner loop of backward returns the inner product of the gradient with the normalised column, and the column sum of the gradient |
| BatchNormLayer.ParameterGradients | layers/batch_norm.cpp:82-93 | the first loop of backward computes grad_gamma and grad_beta for every feature |
| BatchNormLayer.ParameterUpdate | layers/batch_norm.cpp:96-99 | the second loop steps gamma and beta against their gradients |
| BatchNormLayer.BatchNorm.constructor | layers/batch_norm.cpp:5-17 | gamma is all ones, beta is zero, the running mean is zero, the running variance is all ones, and both caches are rank 0 |
| BatchNormLayer.BatchNorm.Forward | layers/batch_norm.cpp:20-69 | a ShapeMismatch error, with nothing changed, when the input is not rank 2 with num_features columns; otherwise the input and its normalisation are cached, the running statistics move, and the result is gamma * normalized + beta |
| BatchNormLayer.BatchNorm.Backward | layers/batch_norm.cpp:72-110 | a ShapeMismatch error, with nothing changed, when the gradient's shape differs from the cached input's; otherwise gamma and beta step against their gradients, and the result uses the UPDATED gamma and the running variance |
| BatchNormLayer.ScaleAll | layers/batch_norm.cpp:64 | scaling and shifting keeps the length |
| BatchNormLayer.ScaleAllSum | layers/batch_norm.cpp:64 | scaling by gamma and shifting by beta takes the sum to gamma * sum + n * beta |
| BatchNormLayer.ScaleAllInner | layers/batch_norm.cpp:64 | the loss term sum of g * (gamma * x + beta) is gamma * (sum of g * x) + beta * (sum of g) |
| BatchNormLayer.InnerScaled | layers/batch_norm.cpp:64 | scaling the second operand of an inner product by a scales the product by a |
| BatchNormLayer.InnerShifted | layers/batch_norm.cpp:64 | shifting the second operand by b adds b times the sum of the first operand |
| BatchNormLayer.NormalizedColumn | layers/batch_norm.cpp:53-58 | column j of the normalised batch is column j of the input minus its mean, divided by sqrt(var + epsilon), which is positive |
| BatchNormLayer.NormalizedColumnSumsToZero | layers/batch_norm.cpp:53-58 | every normalised feature sums to 0 over the batch |
| BatchNormLayer.OutputColumn | layers/batch_norm.cpp:62-66 | column j of the output is the normalised column j scaled by gamma[j] and shifted by beta[j] |
| BatchNormLayer.ShiftedMean | layers/batch_norm.cpp:64 | scaling and shifting a sequence that sums to 0 gives mean beta |
| BatchNormLayer.OutputColumnMean | layers/batch_norm.cpp:20-69 | whatever gamma is, every output feature has mean beta over the batch |
| BatchNormLayer.ParameterGradientsAreCoefficients | layers/batch_norm.cpp:82-93 | grad_gamma[j] and grad_beta[j] are the coefficients of gamma[j] and beta[j] in the loss term sum of g * output, that is, its partial derivatives |
| BatchNormLayer.OutputInner | layers/batch_norm.cpp:64 | the loss term of feature j, expanded by the columns of g and of the normalised batch |
| BatchNormLayer.GradientEntries | layers/batch_norm.cpp:86-92 | feature j of grad_gamma and grad_beta are the sums over column j |
| BatchNormLayer.InputGradientIsFrozenDerivative | layers/batch_norm.cpp:105 | grad_input is the exact derivative of g * output with the statistics held fixed: moving x by delta moves the term by delta * grad_input |
| BatchNormLayer.RunningExtremes | layers/batch_norm.cpp:48-49 | with momentum 1 the running statistics never move; with momentum 0 they become the batch statistics |
| BatchNormLayer.RunningBetween | layers/batch_norm.cpp:48-49 | for momentum in [0, 1] each running statistic lies between its previous value and the batch value |
| Conv2DLayer.Padded | layers/conv2d.cpp:151 | the padded tensor has the input's channels and 2 * padding more rows and columns |
| Conv2DLayer.PaddedIs | layers/conv2d.cpp:151-161 | a padded element is the shifted input element in the centre and 0 in the border |
| Conv2DLayer.PaddedCentre | layers/conv2d.cpp:158 | input element (c, h, w) sits at padded position (c, h + p, w + p) |
| Conv2DLayer.PaddedBorder | layers/conv2d.cpp:152 | every padded position outside the centre holds 0 |
| Conv2DLayer.PadZeroIsIdentity | layers/conv2d.cpp:146-148 | with padding 0 the padded tensor is the input itself, which agrees with the early return |
| Conv2DLayer.CopyStep | layers/conv2d.cpp:158 | one copy writes one padded position and keeps every earlier copy |
| Conv2DLayer.CopyDone | layers/conv2d.cpp:155-161 | once every channel has been copied, the data is that of the padded tensor |
| Conv2DLayer.Pad | layers/conv2d.cpp:145-164 | pad returns exactly the padded tensor, for every padding, including the early return at 0 |
| Conv2DLayer.WindowFits | layers/conv2d.cpp:31-32 | a window starting at o * stride fits inside the extent exactly when o is below the output size, so every read of forward is in bounds and no position where the kernel fits is skipped |
| Conv2DLayer.UnitStride | layers/conv2d.cpp:31-32 | with stride 1 the output size is n - k + 1 |
| Conv2DLayer.SamePadding | layers/conv2d.cpp:31-32 | padding p with a kernel of size 2p + 1 and stride 1 keeps the spatial size |
| Conv2DLayer.WindowInside | layers/conv2d.cpp:36-47 | the window of every output position lies inside the padded input |
| Conv2DLayer.InputRow | layers/conv2d.cpp:44-47 | one row of a window has kernel_size elements |
| Conv2DLayer.KernelRowTaps | layers/conv2d.cpp:47 | one kernel row has kernel_size weights |
| Conv2DLayer.Patch | layers/conv2d.cpp:42-50 | the window of an output has input_channels * k * k elements |
| Conv2DLayer.Taps | layers/conv2d.cpp:42-50 | the kernel of an output channel has input_channels * k * k weights, in the same order |
| Conv2DLayer.WindowEntries | layers/conv2d.cpp:45-47 | at every position (ic, kh, kw) the window holds padded({ic, oh*stride + kh, ow*stride + kw}) and the kernel holds kernels({oc, ic, kh, kw}) |
| Conv2DLayer.ChannelInners | layers/conv2d.cpp:43-49 | one inner product per kernel row |
| Conv2DLayer.ChannelSums | layers/conv2d.cpp:42-50 | one sum per input channel |
| Conv2DLayer.WindowByRows | layers/conv2d.cpp:42-50 | the sum in the loops' order, channel by channel and row by row, is the inner product of the whole window with the whole kernel |
| Conv2DLayer.Convolution | layers/conv2d.cpp:31-33 | the output has shape (output_channels, output_height, output_width) |
| Conv2DLayer.ConvolutionAt | layers/conv2d.cpp:53 | output (oc, oh, ow) is the window sum plus bias oc |
| Conv2DLayer.KernelRow | layers/conv2d.cpp:44-48 | the innermost loop adds the inner product of a window row and a kernel row |
| Conv2DLayer.ChannelSum | layers/conv2d.cpp:43-49 | the loop over kh adds the sums of the k rows of one channel |
| Conv2DLayer.WindowAt | layers/conv2d.cpp:42-50 | the loop over ic adds the sums of every input channel |
| Conv2DLayer.WindowSum | layers/conv2d.cpp:39-50 | the three inner loops compute the window sum |
| Conv2DLayer.OutputStep | layers/conv2d.cpp:53 | writing output (oc, oh, ow) at its row-major position extends the part already written |
| Conv2DLayer.OutputRow | layers/conv2d.cpp:38-54 | the loop over ow writes one whole output row |
| Conv2DLayer.OutputOrder | layers/conv2d.cpp:36-56 | the output in the order forward writes it has one element per output position |
| Conv2DLayer.Convolve | layers/conv2d.cpp:33-56 | the loops of forward compute exactly the convolution plus the biases |
| Conv2DLayer.TapsZero | layers/conv2d.cpp:47 | all-zero kernels give all-zero weights for every output channel |
| Conv2DLayer.ZeroKernels | layers/conv2d.cpp:36-56 | with all kernels zero, every output element is its channel's bias |
| Conv2DLayer.PixelChannels | layers/conv2d.cpp:42 | the channels of the input at one pixel |
| Conv2DLayer.CentreTaps | layers/conv2d.cpp:47 | the weights of a 1 x 1 kernel, one per input channel |
| Conv2DLayer.PointwiseConvolution | layers/conv2d.cpp:31-56 | a 1 x 1 kernel with stride 1 keeps the spatial size and mixes the channels of each pixel on their own |
| Conv2DLayer.Plane | layers/conv2d.cpp:75-79 | one plane of the output gradient, in the order of the loops over oh and ow |
| Conv2DLayer.PlaneAt | layers/conv2d.cpp:77 | position oh * width + ow of the plane is grad_output({oc, oh, ow}) |
| Conv2DLayer.BiasGradient | layers/conv2d.cpp:73-81 | grad_biases has one entry per output channel, and that entry is the sum of the channel's plane |
| Conv2DLayer.PlaneSum | layers/conv2d.cpp:74-79 | the two inner loops sum one plane of the output gradient |
| Conv2DLayer.BiasGradients | layers/conv2d.cpp:73-81 | the first loop of backward computes grad_biases |
| Conv2DLayer.BiasGradientTotal | layers/conv2d.cpp:73-81 | the bias gradients together sum to the sum of the whole output gradient |
| Conv2DLayer.TapRows | layers/conv2d.cpp:90-96 | one row of taps per output gradient row |
| Conv2DLayer.TapPlane | layers/conv2d.cpp:90-96 | one tap per output gradient position |
| Conv2DLayer.TapPlaneAt | layers/conv2d.cpp:92-94 | tap oh * width + ow is padded({ic, oh*stride + kh, ow*stride + kw}), which lies inside the padded input |
| Conv2DLayer.GradientHyper | layers/conv2d.cpp:85-101 | the kernel gradient, block by block, has the shape of the kernels |
| Conv2DLayer.KernelGradient | layers/conv2d.cpp:69 | grad_kernels has shape (output_channels, input_channels, k, k) |
| Conv2DLayer.KernelGradientAt | layers/conv2d.cpp:89-97 | each entry of grad_kernels is the sum over output positions of the padded tap times the output gradient |
| Conv2DLayer.TapSum | layers/conv2d.cpp:89-96 | the two innermost loops compute one entry of grad_kernels |
| Conv2DLayer.KernelGradientStep | layers/conv2d.cpp:97 | writing one entry of grad_kernels extends the part already written |
| Conv2DLayer.KernelGradientPlane | layers/conv2d.cpp:87-99 | the loops over kh and kw write every entry for one (oc, ic) |
| Conv2DLayer.KernelGradients | layers/conv2d.cpp:84-101 | the second group of loops computes grad_kernels |
| Conv2DLayer.KernelUpdateStep | layers/conv2d.cpp:108 | one kernel update extends the part already updated and keeps the rest |
| Conv2DLayer.KernelUpdateRow | layers/conv2d.cpp:107-109 | the loop over kw updates one kernel row |
| Conv2DLayer.KernelUpdatePlane | layers/conv2d.cpp:106-110 | the loop over kh updates one kernel plane |
| Conv2DLayer.KernelUpdate | layers/conv2d.cpp:104-111 | every kernel entry moves by -learning_rate times its gradient |
| Conv2DLayer.BiasUpdate | layers/conv2d.cpp:112 | every bias moves by -learning_rate times its gradient |
| Conv2DLayer.UpdateParameters | layers/conv2d.cpp:104-113 | the third group of loops steps the kernels and the biases against their gradients |
| Conv2DLayer.TargetInside | layers/conv2d.cpp:130 | a contribution lands in grad_input exactly when its position, taken back by the shift, lies inside |
| Conv2DLayer.RowContributions | layers/conv2d.cpp:125-133 | one contribution per step of the loop over kw |
| Conv2DLayer.InputGradient | layers/conv2d.cpp:116-138 | grad_input has the cached input's shape |
| Conv2DLayer.InputGradientAt | layers/conv2d.cpp:116-138 | each element of grad_input is the total of the contributions aimed at it |
| Conv2DLayer.RowStep | layers/conv2d.cpp:126-131 | one step of the loop over kw adds one more contribution |
| Conv2DLayer.AddContribution | layers/conv2d.cpp:130-132 | the guarded update adds the contribution where it is aimed, and drops it when it is aimed outside |
| Conv2DLayer.SpreadRow | layers/conv2d.cpp:125-133 | the loop over kw adds that row's contributions |
| Conv2DLayer.SpreadChannel | layers/conv2d.cpp:124-134 | the loop over kh adds the contributions of one channel |
| Conv2DLayer.SpreadWindow | layers/conv2d.cpp:123-135 | the loop over ic adds everything one output position contributes |
| Conv2DLayer.SpreadLine | layers/conv2d.cpp:122-136 | the loop over ow adds the contributions of one output row |
| Conv2DLayer.SpreadPlane | layers/conv2d.cpp:121-137 | the loop over oh adds the contributions of one output channel |
| Conv2DLayer.InputGradients | layers/conv2d.cpp:116-138 | grad_input starts at zero and receives every contribution |
| Conv2DLayer.ContributionTargetsTap | layers/conv2d.cpp:126-131 | with the shift equal to the padding, every contribution goes back to the input element that forward read at that position, and it is dropped exactly where forward read a padding zero |
| Conv2DLayer.AsWrittenScatter | layers/conv2d.cpp:126-131 | the loops as written use the padded coordinates as input coordinates, which is a shift of 0 whatever the padding is |
| Conv2DLayer.CorrectedScatter | layers/conv2d.cpp:126-131 | the corrected loops take each padded coordinate back by the padding and drop positions in the border |
| Conv2DLayer.AsWrittenMisaims | layers/conv2d.cpp:126-131 | for a 1 x 1 x 1 input with padding 1, the loops as written send a padding zero's contribution to input (0, 0, 0), and drop the contribution of the output that really read that input |
| Conv2DLayer.AsWrittenTargetsPaddedPosition | layers/conv2d.cpp:126-131 | for every input and every padding p, the loops as written send the gradient of padded position (ih, iw) to input (ic, ih, iw) when ih < H and iw < W, while forward read input (ic, ih - p, iw - p) there, or a padding zero in the border |
| Conv2DLayer.Conv2D.constructor | layers/conv2d.cpp:7-15 | the kernels are the given initial values with shape (output_channels, input_channels, k, k), the biases are zero, and the cache is rank 0 |
| Conv2DLayer.Conv2D.Forward | layers/conv2d.cpp:18-59 | a ShapeMismatch error, with nothing changed, when the input is not rank 3 with input_channels channels; otherwise it caches the input and returns the convolution of the padded input plus the biases |
| Conv2DLayer.Conv2D.Backward | layers/conv2d.cpp:62-141 | a ShapeMismatch error, with nothing changed, when the gradient is not rank 3 with output_channels channels; otherwise it steps the kernels and the biases, and scatters grad_input through the UPDATED kernels as written, with each padded position used as an input position (no correction for the padding) |
| Conv2DLayer.Conv2D.CorrectedBackward | layers/conv2d.cpp:62-141 | corrected reading (see Findings): as Backward, but grad_input comes from the corrected scatter, which takes each padded position back by the padding and drops the border |
| LSTMLayer.Multiplied | tensor.cpp:150-160 | operator* on two vectors of one shape: element i is a[i] * b[i] |
| LSTMLayer.Added | tensor.cpp:163-173 | operator+ on two vectors of one shape: element i is a[i] + b[i] |
| LSTMLayer.Complement | tensor.cpp:106-112 | 1 - t: element i is 1 - t[i] |
| LSTMLayer.OneMinus | tensor.cpp:106-112 | the int-minus-tensor loop with value 1 computes 1 - t |
| LSTMLayer.Hyperbolic | layers/lstm.cpp:182-188 | the tanh helper keeps the shape, and every element lies in (-1, 1) |
| LSTMLayer.HyperbolicTangent | layers/lstm.cpp:182-188 | the helper's loop writes tanh(x[i]) for every element |
| LSTMLayer.Joined | layers/lstm.cpp:44-46 | combined has input_size + hidden_size elements: the input, then h_prev |
| LSTMLayer.Concatenate | layers/lstm.cpp:44-46 | the two concatenation loops build combined |
| LSTMLayer.GatesOf | layers/lstm.cpp:49-52 | the forget, input and output gates lie in (0, 1), and the candidate lies in (-1, 1) |
| LSTMLayer.GatesFrom | layers/lstm.cpp:49-52 | the four gate computations, with the sigmoid helper of layers/lstm.cpp:173-179 |
| LSTMLayer.CellNext | layers/lstm.cpp:55 | element i of c_next is ft[i] * c_prev[i] + it[i] * ct[i] |
| LSTMLayer.HiddenNext | layers/lstm.cpp:58 | h_next has the shape of c_next |
| LSTMLayer.CellStep | layers/lstm.cpp:55 | the operator expression computes c_next |
| LSTMLayer.HiddenStep | layers/lstm.cpp:58 | the operator expression computes h_next = ot * tanh(c_next) |
| LSTMLayer.TanhDelta | layers/lstm.cpp:108-113 | element i is a[i] * b[i] * (1 - e[i]^2), the gradient through a tanh with output e |
| LSTMLayer.SigmoidDelta | layers/lstm.cpp:110-119 | element i is a[i] * b[i] * gate[i] * (1 - gate[i]), the gradient through a sigmoid gate |
| LSTMLayer.TanhDeltaAt | layers/lstm.cpp:108 | the operator chain a * b * (1 - e * e) has element i equal to a[i] * b[i] * (1 - e[i]^2) |
| LSTMLayer.SigmoidDeltaAt | layers/lstm.cpp:110 | the operator chain a * b * gate * (1 - gate) has element i equal to a[i] * b[i] times the gate's slope |
| LSTMLayer.DeltasOf | layers/lstm.cpp:108-119 | the four gate deltas are vectors of hidden_size elements |
| LSTMLayer.TanhDeltaFrom | layers/lstm.cpp:108-113 | the operator expression computes the tanh delta |
| LSTMLayer.SigmoidDeltaFrom | layers/lstm.cpp:110-119 | the operator expression computes the sigmoid delta |
| LSTMLayer.DeltasFrom | layers/lstm.cpp:105-119 | the five delta expressions compute the four gate deltas |
| LSTMLayer.Backprop | layers/lstm.cpp:122-125 | grad_combined has input_size + hidden_size elements |
| LSTMLayer.Backpropagate | layers/lstm.cpp:122-125 | the sum of the four back-projections computes grad_combined |
| LSTMLayer.ColumnsDone | layers/lstm.cpp:142-148 | once a column-by-column visit has passed every column, every entry holds its new value |
| LSTMLayer.OuterEntry | layers/lstm.cpp:144 | the accumulated entry grad_W({j, i}) is combined[j] * delta[i] |
| LSTMLayer.DescentEntry | layers/lstm.cpp:158 | the updated entry is W[j, i] - lr * grad_W[j, i] |
| LSTMLayer.AccumulateColumn | layers/lstm.cpp:143-148 | the inner accumulation loop fills column i of one gate's weight gradient |
| LSTMLayer.Accumulate | layers/lstm.cpp:142-153 | one gate's accumulation gives the outer product of combined and the delta, and the delta as the bias gradient |
| LSTMLayer.DescendColumn | layers/lstm.cpp:157-162 | the inner update loop moves column i of one weight matrix |
| LSTMLayer.Descend | layers/lstm.cpp:156-167 | one gate's update steps its weights and its bias against their gradients |
| LSTMLayer.Descended | layers/lstm.cpp:142-167 | the parameters after the update keep their shapes |
| LSTMLayer.Learn | layers/lstm.cpp:142-167 | the accumulation and update loops give the descended parameters |
| LSTMLayer.BackwardStep | layers/lstm.cpp:94-169 | after the check, grad_input is the first input_size entries of grad_combined, computed with the weights before the update, and every parameter moves against its gradient |
| LSTMLayer.LSTM.constructor | layers/lstm.cpp:6-31 | corrected reading (see Findings): the weights take the given initial values in row-major order; the biases and both states are zero, and the cache is rank 0 |
| LSTMLayer.LSTM.ForwardAsWritten | layers/lstm.cpp:34-65 | as written, forward always ends in ShapeMismatch after caching the input, because combined.dot(Wf) rejects a rank-1 operand; the states do not change |
| LSTMLayer.LSTM.BackwardAsWritten | layers/lstm.cpp:68-102 | as written, backward always ends in ShapeMismatch at the first gate, and nothing changes |
| LSTMLayer.LSTM.Forward | layers/lstm.cpp:34-65 | corrected reading (see Findings): a ShapeMismatch error, with nothing changed, when the input is not a vector of input_size elements; otherwise it caches the input, replaces c_prev and h_prev by c_next and h_next, and returns h_next |
| LSTMLayer.LSTM.Backward | layers/lstm.cpp:68-170 | corrected reading (see Findings): a ShapeMismatch error, with nothing changed, when the gradient is not a vector of hidden_size elements; otherwise grad_input comes from the weights before the update, and the eight parameters move |
| LSTMLayer.ConstructorTripsAssertion | layers/lstm.cpp:17-20 | for any hidden_size > 0 the matrix has an element, and the write Wf({0}) gives one coordinate to a rank-2 tensor, so the accessor's assertion fails |
| LSTMLayer.DotRejectsCombined | layers/lstm.cpp:49-52 | dot rejects the rank-1 combined vector whatever the weights are |
| LSTMLayer.JoinedSplits | layers/lstm.cpp:128-136 | combined splits back into its parts: grad_input takes the first input_size entries, which belong to the input |
| LSTMLayer.HiddenBounded | layers/lstm.cpp:55-58 | every element of h_next lies in (-1, 1) |
| LSTMLayer.CellBounded | layers/lstm.cpp:55 | every element of c_next has magnitude below abs(c_prev[i]) + 1 |
| LSTMLayer.FirstStepBounded | layers/lstm.cpp:29-58 | from the zero state, the first c_next and h_next lie in (-1, 1) |
| LSTMLayer.ZeroRateKeepsParameters | layers/lstm.cpp:155-167 | with learning rate 0, backward leaves all eight parameters unchanged |
| LSTMLayer.WeightsDescendedAt | layers/lstm.cpp:144-161 | after backward, entry (j, i) of each weight matrix is the old entry minus lr * combined[j] * delta[i] |
| LSTMLayer.BiasesDescendedAt | layers/lstm.cpp:149-166 | after backward, element i of each bias is the old one minus lr * delta[i] |

## Left out

- Floating-point rounding, NaN and infinity are not modelled. Every value is an exact real, so equalities hold exactly where the library only approximates them. This includes the narrowing of `m_hat` and `v_hat` to `float` in the Nadam and AdamW updates.
- `std::exp`, `std::tanh` and `std::sqrt` are not defined. They are the parameter `Functions`, and only the facts in `Elementary.Sound` are known about them.
- `std::pow(beta, t)` is the exact power `Elementary.Pow` with a natural exponent. The step counter is a `nat`, so its integer overflow is not modelled.
- Random numbers are inputs, not draws from a generator. This covers `Tensor::randomize` (tensor.cpp:55-62), the initial weights of the Dense, Conv2D and LSTM layers, and the uniform draws of Dropout's forward. `NNUtils::get_rng`, `xavier_init`, `he_init` and `random_normal` (nn_utils.h:12-34) are not part of this model.
- The unsigned `size_t` arithmetic of the source does not wrap around here. Where a wrap-around would change the result, a precondition excludes it. Conv2D forward requires a positive stride and a kernel that fits the padded input, so the output size cannot underflow.
- Tensors.Get, Tensors.Set: the accessor does not check bounds, and reading or writing out of range is undefined behaviour in the source. Here the row-major offset computed from the coordinates must fall inside the buffer, which is a precondition; a coordinate past its own dimension is accepted when the offset still stays in the buffer, as in the source. The accessor's assertion that the number of coordinates equals the rank is a precondition too.
- FlatIndexable and VectorOfAtLeast are those same accessor demands for loops that read `t({i})` with one coordinate. A tensor of rank other than 1 with elements trips the assertion in the source. The optimizers (through `Optimizers.Accessible`) and the activation layers require these predicates of their tensors.
- Tensor printing (tensor.cpp:65-90) and model saving and loading are I/O and are left out. `model.cpp`, `main.cpp`, `layer.h`, `layers/layer.h`, `max_pooling2d.h` and `adam.h` are not part of this model. The Conv2D header declares a helper `convolve` that has no definition, so it is not modelled.
- Adamax, AdamW and Nadam require epsilon > 0, and AdamW and Nadam also require both betas in [0, 1). BatchNorm requires epsilon > 0 and a momentum in [0, 1]. The source does not check any of these, and outside these domains it divides by zero or by a square root of a negative number.
- DropoutLayer.Dropout.constructor requires the rate check to pass. The error path (the `std::invalid_argument` thrown at layers/dropout.cpp:6-8) is `DropoutLayer.NewDropout`, which returns an error for a rejected rate.
- NNUtils.Normalize, NNUtils.Standardize: both require a vector that is not constant (Normalize also requires it to be non-empty). On an empty vector the source dereferences the end iterator of `std::min_element`, or divides by a size of 0. On a constant vector it divides 0 by 0; the model has no NaN for this case.
- Softmax forward requires a non-empty vector, because it reads `input({0})` before its loops.
- BatchNorm forward requires a positive batch size, because it divides by the batch size. BatchNorm backward requires a rank-2 gradient when the gradient's shape matches the cached input's.
- Conv2D backward requires a cached rank-3 input and a gradient whose spatial size is at most the output's (`Conv2DLayer.GradFits`). Otherwise the source reads outside the padded input.
- LSTM backward requires a cached input vector with at least input_size elements.
- The parameter-update loops of Conv2D and of LSTM backward run over disjoint tensors. They are modelled tensor by tensor, which gives the same final values in a different order of writes.
- LSTM backward computes `grad_h_prev` (lstm.cpp:134-136) and `grad_c_prev` (lstm.cpp:139) and then discards them. They are not modelled.
- The eight LSTM parameter tensors are held in one field, `params`, of the datatype `LSTMLayer.Parameters`.
- LSTMLayer.LSTM.Backward (the corrected one) recomputes the gate activations from the current `h_prev` and the cached input, as the source does. That state has already been advanced by forward, and the model keeps this behaviour.
- Dense.BackProjected: the source computes the input gradient with explicit loops. Their value is stated as the product of the weights with the gradient (`Dense.BackProjectedIsDot`), not through a call to `Tensor::dot`.
- Conv2DLayer.ContributionTargetsTap: states where every contribution lands and which tap it comes from, but not how large it is. The amount is given by the definition of `InputContribution`.
- BatchNormLayer.Variance: only non-negativity is proved. That the variance equals the mean squared deviation from the mean is not proved.
- Nadam's update divides beta1 * m_hat by 1 - beta1^t once more, although m_hat is already bias-corrected. This double correction is modelled as written; `NadamOptimizer.FirstUpdateNumerator` states the resulting first step.
- Softmax backward uses only the diagonal of the Jacobian, `grad * out * (1 - out)`. This is modelled as written.
- BatchNorm backward normalises with the running variance and scales with gamma after gamma has already been updated. This is modelled as written.

## Findings

| source | as written | input that shows it | evidently intended | confidence | as-written member | corrected member |
|---|---|---|---|---|---|---|
| layers/conv2d.cpp:126-131 | grad_input is indexed with the padded coordinates oh*stride + kh and ow*stride + kw, with no correction for the padding | a 1 x 1 x 1 input, one 1 x 1 kernel, stride 1, padding 1: the contribution of the output at the centre is dropped, and a border contribution lands on input (0, 0, 0) | subtract the padding from both coordinates and drop only contributions that fall in the border | high, not executed | Conv2DLayer.Conv2D.Backward, Conv2DLayer.AsWrittenScatter, Conv2DLayer.AsWrittenMisaims, Conv2DLayer.AsWrittenTargetsPaddedPosition | Conv2DLayer.Conv2D.CorrectedBackward, Conv2DLayer.CorrectedScatter, Conv2DLayer.ContributionTargetsTap |
| layers/lstm.cpp:17-20 | the constructor initialises the rank-2 weight matrices with one coordinate, `Wf({i})` | any hidden_size > 0: the accessor's assertion fails | write every element, as with two coordinates or a flat loop | high, not executed | LSTMLayer.ConstructorTripsAssertion | LSTMLayer.LSTM.constructor |
| layers/lstm.cpp:49-52 | forward computes `combined.dot(Wf)` with the rank-1 vector `combined` | any input: `dot` throws because combined is not 2-D | use combined as a 1 x n row, or multiply with explicit loops | high, not executed | LSTMLayer.LSTM.ForwardAsWritten, LSTMLayer.DotRejectsCombined | LSTMLayer.LSTM.Forward, LSTMLayer.HiddenBounded |
| layers/lstm.cpp:99-102 | backward recomputes the gates with the same rank-1 `combined.dot(...)` | any gradient of the right shape: `dot` throws | as in forward | high, not executed | LSTMLayer.LSTM.BackwardAsWritten | LSTMLayer.BackwardStep, LSTMLayer.LSTM.Backward |
