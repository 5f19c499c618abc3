# A verified model of the `ml` MNIST trainer

`ml` trains a three-layer perceptron (784 → 16 → 16 → 10) on the MNIST
digits. `matrix.h` defines a fixed-shape dense matrix `Matrix<NR, NC>` over
a flat row-major `float` buffer, with the usual element-wise operators,
`dot`, `apply`, `sum`, the activations and their derivatives. `main.cpp`:

- reads the IDX labels and images files, with big-endian headers and the
  magic numbers 2049 and 2051;
- then runs 64 epochs of mini-batch gradient descent. Each mini-batch is
  128 samples taken circularly from the dataset.
- For every sample it does a forward pass, predicts by arg-max, builds a
  one-hot target and counts correct predictions.
- It runs the hand-written backward pass and accumulates the gradients
  into six zeroed matrices with `+=`.
- Then it updates the parameters in place with `-=`, using
  `learning_rate / batch_size` as the factor.

The model has seven modules, one file each:

- `layout.dfy` (**Layout**): row-major index arithmetic. Cell `(r, c)` is at
  `r * NC + c`, always inside `NR * NC`, and the mapping is a bijection.
- `dense_spec.dfy` (**DenseSpec**): the value-level meaning of a matrix,
  `Mat(rows, cols, cells)`, and of every operation on it, with the
  properties that relate them.
- `dense_matrix.dfy` (**DenseMatrix**): `class Matrix` over `array<real>`.
  Every operation is written with the loops of `matrix.h` and proved equal
  to its DenseSpec counterpart. `+=` and `-=` update the buffer in place.
- `byte_order.dfy` (**ByteOrder**): `reverse_integer` as a loop over the
  host bytes, `load_big_endian` as byte reversal of a little-endian read,
  and a reference big-endian decoding with the encoder that inverts it.
- `idx.dfy` (**Idx**): the header checks of `main`, as a parser from the two
  files' bytes to a dataset or an error, with its round trip.
- `network_spec.dfy` (**NetworkSpec**): what one sample, one mini-batch, one
  epoch and the whole run do to the six parameters, as values. It states
  arg-max with first-index tie-breaking, circular sample indexing, one-hot
  targets, the correct-prediction count and the update.
- `trainer.dfy` (**Trainer**): the training loop itself. `class ParamSet`
  holds six `Matrix` objects (the parameters, one sample's gradients, or
  the accumulators). Nested loops update them in place, and every loop is
  proved against NetworkSpec.

The element type is `real`, so every identity is exact. `expf` is a
parameter of type `ExpFn`, the positive-valued functions on reals. The
activations built on it (`sigmoidf`, `sigmoid`, `d_sigmoid`, `exp`,
`softmax`) are modelled exactly as written on top of that parameter.

## Model

| member | source | states |
|---|---|---|
| Layout.CellInBounds | ml/src/matrix.h:66-69 | a valid `(r, c)` gives a flat index `r * NC + c` below `NR * NC` |
| Layout.CellInjective | ml/src/matrix.h:66-69 | two cells with the same flat index are the same cell |
| Layout.CellOfIndex | ml/src/matrix.h:66-69 | dividing `r * NC + c` by `NC` gives back row `r` and column `c` |
| Layout.IndexOfCell | ml/src/matrix.h:98-100 | every flat index below `NR * NC` is the index of a cell |
| DenseSpec.Tabulate | ml/src/matrix.h:75-85 | the matrix whose cell `(r, c)` is `f(r, c)` has the requested shape |
| DenseSpec.TabulateGet | ml/src/matrix.h:75-85 | reading cell `(r, c)` of a tabulated matrix gives `f(r, c)` |
| DenseSpec.EqualByCells | ml/src/matrix.h:10-12 | two matrices of one shape that agree on every cell are equal |
| DenseSpec.Get | ml/src/matrix.h:71-73 | the const `at(r, c)` of a well-formed matrix: the cell at flat index `r * NC + c` |
| DenseSpec.Zero | ml/src/matrix.h:50-54 | `zero()` has the requested shape and every cell is 0 |
| DenseSpec.SumZero | ml/src/matrix.h:50-54 | `sum(zero()) == 0` |
| DenseSpec.SetCell | ml/src/matrix.h:66-69 | after `at(r, c) = x`, cell `(r, c)` is `x` and every other cell is unchanged |
| DenseSpec.Transpose | ml/src/matrix.h:75-85 | the transpose of an NR x NC matrix is NC x NR |
| DenseSpec.TransposeGet | ml/src/matrix.h:75-85 | cell `(c, r)` of the transpose is cell `(r, c)` of the original |
| DenseSpec.TransposeInvolutive | ml/src/matrix.h:75-85 | transposing twice gives back the original matrix |
| DenseSpec.Dot | ml/src/matrix.h:106-126 | `dot` needs `NC1 == NR2` and gives an NR1 x NC2 matrix |
| DenseSpec.DotCell | ml/src/matrix.h:115-119 | `dot_product` after the first `k` steps of the inner loop: 0, then `+= left(r, i) * right(i, c)` for `i` from 0 to `k - 1`, in that order |
| DenseSpec.DotGet | ml/src/matrix.h:106-126 | cell `(r, c)` of `dot` is the in-order running sum over `i` of `left(r, i) * right(i, c)`, starting from 0 |
| DenseSpec.Add | ml/src/matrix.h:129-137 | equal shapes in, the same shape out, each cell `left[i] + right[i]` |
| DenseSpec.Sub | ml/src/matrix.h:139-147 | equal shapes in, the same shape out, each cell `left[i] - right[i]` |
| DenseSpec.Mul | ml/src/matrix.h:149-157 | equal shapes in, the same shape out, each cell `left[i] * right[i]` |
| DenseSpec.Map | ml/src/matrix.h:95-103 | `apply(fn)` keeps the shape and sends each cell `x` to `fn(x)` |
| DenseSpec.Scale | ml/src/matrix.h:159-164 | scalar `*` keeps the shape and multiplies every cell by `s` |
| DenseSpec.Times | ml/src/matrix.h:161-163 | the lambda of scalar `*`: `x -> s * x` |
| DenseSpec.Relu | ml/src/matrix.h:192-197 | `relu` keeps the shape |
| DenseSpec.DRelu | ml/src/matrix.h:199-204 | `d_relu` keeps the shape |
| DenseSpec.ReluRanges | ml/src/matrix.h:192-204 | each `relu` cell is at least 0 and at least the input; each `d_relu` cell is 1 when the input is positive and 0 otherwise |
| DenseSpec.ReluIsMaskedInput | ml/src/matrix.h:192-204 | `relu(m) == m * d_relu(m)`, element-wise |
| DenseSpec.ReluOf | ml/src/matrix.h:194-196 | the `relu` lambda `fmaxf(0, x)`: `x` when `x` is at least 0, and 0 otherwise |
| DenseSpec.DReluOf | ml/src/matrix.h:201-203 | the `d_relu` lambda `(float)(x > 0)`: 1 for positive `x`, and 0 otherwise |
| DenseSpec.SumOf | ml/src/matrix.h:173-183 | the left fold of `+` from 0 over the cells in index order, as `sum`'s loop accumulates it |
| DenseSpec.Sum | ml/src/matrix.h:173-183 | `sum(m)`: the fold `SumOf` over every cell of the matrix |
| DenseSpec.SumOfZeros | ml/src/matrix.h:173-183 | the fold over cells that are all 0 is 0 |
| DenseSpec.SumOfPairwise | ml/src/matrix.h:173-183 | the fold over `a[i] + b[i]` is the fold over `a` plus the fold over `b` |
| DenseSpec.SumAdd | ml/src/matrix.h:173-183 | `sum(a + b) == sum(a) + sum(b)` |
| DenseSpec.SumOfPositive | ml/src/matrix.h:173-183 | a fold over positive cells, at least one, is positive |
| DenseSpec.AddZeroLeft | ml/src/matrix.h:129-137 | `zero() + m == m` |
| DenseSpec.SubScaleZero | ml/src/matrix.h:139-164 | `m - 0 * g == m` |
| DenseSpec.Sigmoid | ml/src/matrix.h:206-213 | `sigmoid` keeps the shape |
| DenseSpec.DSigmoid | ml/src/matrix.h:215-220 | `d_sigmoid` keeps the shape |
| DenseSpec.SigmoidOf | ml/src/matrix.h:206-208 | `sigmoidf(x) = 1 / (1 + expf(-x))` |
| DenseSpec.SigmoidFn | ml/src/matrix.h:212 | `sigmoidf` as the function passed to `apply` |
| DenseSpec.LogisticSlope | ml/src/matrix.h:217-219 | `s * (1 - s)` for `s = sigmoidf(x)`, the body of the `d_sigmoid` lambda |
| DenseSpec.DSigmoidFn | ml/src/matrix.h:217-219 | the `d_sigmoid` lambda: `x -> sigmoidf(x) * (1 - sigmoidf(x))` |
| DenseSpec.ExpSumPositive | ml/src/matrix.h:227-231 | the softmax denominator `sum(exp(m))` is positive, so the division is defined |
| DenseSpec.SoftmaxFn | ml/src/matrix.h:232-234 | the `softmax` lambda `x -> expf(x) / denom`, defined for a positive `denom` |
| DenseSpec.Softmax | ml/src/matrix.h:227-235 | `softmax` keeps the shape |
| DenseSpec.SigmoidOfBounds | ml/src/matrix.h:206-208 | `sigmoidf(x)` lies strictly between 0 and 1 for every `x`, given only that `expf` is positive |
| DenseSpec.LogisticSlopeBounds | ml/src/matrix.h:215-220 | `s * (1 - s)` lies in (0, 1/4] for `s` in (0, 1) |
| DenseSpec.DSigmoidOfBounds | ml/src/matrix.h:215-220 | the `d_sigmoid` lambda lies in (0, 1/4] at every point |
| DenseSpec.SigmoidInUnitInterval | ml/src/matrix.h:210-213 | every cell of `sigmoid(m)` lies strictly between 0 and 1 |
| DenseSpec.DSigmoidBounds | ml/src/matrix.h:215-220 | every cell of `d_sigmoid(m)` lies in (0, 1/4] |
| DenseSpec.SumOfDivided | ml/src/matrix.h:173-183 | dividing every term by a positive `d` divides the fold by `d` |
| DenseSpec.NormalizedSumIsOne | ml/src/matrix.h:227-235 | dividing every term by their positive total makes the terms sum to 1 |
| DenseSpec.SoftmaxCell | ml/src/matrix.h:227-235 | cell `i` of `softmax` is `expf(cell i) / sum(exp(m))`, and it is positive |
| DenseSpec.SoftmaxPositive | ml/src/matrix.h:227-235 | every cell of `softmax` is positive |
| DenseSpec.SoftmaxSumsToOne | ml/src/matrix.h:227-235 | the cells of `softmax` sum to exactly 1 (in exact arithmetic) |
| DenseMatrix.Matrix.constructor | ml/src/matrix.h:23-25 | `Matrix()` gives a fresh buffer of `NR * NC` cells with the requested shape, contents unspecified |
| DenseMatrix.Matrix.FromList | ml/src/matrix.h:14-21 | the literal constructor takes exactly `NR * NC` values and stores value `i` in `data[i]` |
| DenseMatrix.Matrix.Zero | ml/src/matrix.h:50-54 | `zero()` is a fresh buffer equal to `DenseSpec.Zero` |
| DenseMatrix.Matrix.At | ml/src/matrix.h:71-73 | the const `at(r, c)` reads `data[r * NC + c]`, which is cell `(r, c)` |
| DenseMatrix.Matrix.SetAt | ml/src/matrix.h:66-69 | the mutable `at(r, c) = x` needs `r < NR` and `c < NC` and changes only cell `(r, c)` |
| DenseMatrix.Matrix.Transpose | ml/src/matrix.h:75-85 | `T()` returns a fresh NC x NR matrix equal to `DenseSpec.Transpose` and leaves `this` unchanged |
| DenseMatrix.Matrix.Apply | ml/src/matrix.h:95-103 | `apply(fn)` returns a fresh matrix equal to `DenseSpec.Map` |
| DenseMatrix.Matrix.CopyFrom | ml/src/matrix.h:87-93 | the copy assignment `*this = source` makes this matrix's value `source`'s value |
| DenseMatrix.Matrix.AddAssign | ml/src/matrix.h:87-89 | `+=` replaces the value with `old + right` in place |
| DenseMatrix.Matrix.SubAssign | ml/src/matrix.h:91-93 | `-=` replaces the value with `old - right` in place |
| DenseMatrix.Dot | ml/src/matrix.h:106-126 | the triple loop returns a fresh matrix equal to `DenseSpec.Dot` |
| DenseMatrix.Add | ml/src/matrix.h:129-137 | the loop returns a fresh matrix equal to `DenseSpec.Add` |
| DenseMatrix.Sub | ml/src/matrix.h:139-147 | the loop returns a fresh matrix equal to `DenseSpec.Sub` |
| DenseMatrix.Mul | ml/src/matrix.h:149-157 | the loop returns a fresh matrix equal to `DenseSpec.Mul` |
| DenseMatrix.Scale | ml/src/matrix.h:159-164 | scalar `*` returns a fresh matrix equal to `DenseSpec.Scale` |
| DenseMatrix.Sum | ml/src/matrix.h:173-183 | the accumulation loop returns the left fold `DenseSpec.Sum` over the cells in index order |
| DenseMatrix.Relu | ml/src/matrix.h:192-197 | returns a fresh matrix equal to `DenseSpec.Relu` |
| DenseMatrix.DRelu | ml/src/matrix.h:199-204 | returns a fresh matrix equal to `DenseSpec.DRelu` |
| DenseMatrix.Exp | ml/src/matrix.h:222-225 | `exp` is `apply(expf)` |
| DenseMatrix.Sigmoid | ml/src/matrix.h:206-213 | returns a fresh matrix equal to `DenseSpec.Sigmoid` |
| DenseMatrix.DSigmoid | ml/src/matrix.h:215-220 | returns a fresh matrix equal to `DenseSpec.DSigmoid` |
| DenseMatrix.Softmax | ml/src/matrix.h:227-235 | computes `exp`, then its `sum` as the denominator, then `expf(x) / denom` per cell, which is `DenseSpec.Softmax` |
| ByteOrder.Pow256 | ml/src/main.cpp:16-28 | `256^n` is positive, so every width has a value range |
| ByteOrder.Reversed | ml/src/main.cpp:23-25 | the reversal has the same length and puts byte `i` at position `n - 1 - i` |
| ByteOrder.HostValue | ml/src/main.cpp:27 | the little-endian reading of `n` bytes is below `256^n` |
| ByteOrder.HostBytes | ml/src/main.cpp:20 | the `width` little-endian bytes of `x` read back as `x` |
| ByteOrder.HostBytesOfValue | ml/src/main.cpp:20-27 | storing a value read from bytes gives the same bytes back |
| ByteOrder.ReverseInteger | ml/src/main.cpp:16-28 | `reverse_integer` writes input byte `i` to output position `width - i - 1` and returns the integer with the host bytes reversed |
| ByteOrder.ByteSwap | ml/src/main.cpp:16-28 | the value `reverse_integer` returns: in range, with reversed host bytes |
| ByteOrder.ByteSwapInvolutive | ml/src/main.cpp:16-28 | applying `reverse_integer` twice gives back the original integer |
| ByteOrder.HostValueOfReversed | ml/src/main.cpp:37-41 | the little-endian reading of the reversed bytes is the big-endian reading of the bytes |
| ByteOrder.LoadBigEndian | ml/src/main.cpp:37-41 | `load_big_endian` (a native read, then `reverse_integer`) decodes the bytes big-endian |
| ByteOrder.LoadBigEndianWord | ml/src/main.cpp:37-41 | four bytes decode to `b0 * 2^24 + b1 * 2^16 + b2 * 2^8 + b3` |
| ByteOrder.BigEndianBytes | ml/src/main.cpp:37-41 | the big-endian encoding of `x` has `width` bytes |
| ByteOrder.LoadBigEndianBytes | ml/src/main.cpp:37-41 | `load_big_endian` reads back what the big-endian encoder wrote |
| Idx.Word | ml/src/main.cpp:51 | `load_big_endian<uint32_t>` of the four bytes at an offset: a big-endian word below 2^32 |
| Idx.Accepted | ml/src/main.cpp:46-73 | the checks of `main` in order: labels magic 2049, the labels present, images magic 2051, equal counts, 28 x 28, and the pixels present |
| Idx.ImageBufferSizeAsWritten | ml/src/main.cpp:72 | `num_images * 28 * 28` in `uint32_t`: below 2^32 and equal to `num_images * 784` modulo 2^32 |
| Idx.ParseDataset | ml/src/main.cpp:44-73 | succeeds exactly when every header check passes: labels magic 2049, images magic 2051, equal counts, 28 x 28, and the files long enough. The labels and pixels are then the bytes after the headers; a foreign labels magic is rejected as `UnrecognizedLabels`, and each other error names the check that failed |
| Idx.ParseAccepted | ml/src/main.cpp:44-73 | files that pass every check parse to the labels and pixels after the headers |
| Idx.WordAt | ml/src/main.cpp:51 | a 32-bit word written big-endian is read back by `load_big_endian<uint32_t>` |
| Idx.LabelFileWords | ml/src/main.cpp:46-53 | a labels file written for some labels has magic 2049, their count and the labels themselves |
| Idx.ImageFileWords | ml/src/main.cpp:58-73 | an images file written for some pixels has magic 2051, the count, 28, 28 and the pixels themselves |
| Idx.ParseOfWords | ml/src/main.cpp:44-73 | files whose headers announce exactly the dataset that follows parse to that dataset |
| Idx.ParseEncoded | ml/src/main.cpp:44-73 | parsing the files written for a dataset gives that dataset back |
| Idx.RejectsForeignLabels | ml/src/main.cpp:46-49 | a labels file whose first word is not 2049 is rejected, whatever follows |
| Idx.ImageBufferSizeWraps | ml/src/main.cpp:72-73 | the buffer size as written, in 32-bit arithmetic, is 304 bytes for 5478275 images, smaller than the `5478275 * 784` bytes the pixels need, so pixel 304 of image 0 already lies outside it |
| Idx.ImageBufferSize | ml/src/main.cpp:72-73 | the size the image buffer needs: `num_images * 784` bytes, without wrap-around |
| Idx.ImageBufferHoldsEveryPixel | ml/src/main.cpp:72-73 | pixel `texel` of image `image` lies inside a buffer of `num_images * 784` bytes |
| NetworkSpec.ZeroParams | ml/src/main.cpp:93-100 | the six accumulators start at zero with the shapes of w1 (16 x 784), b1, w2, b2, w3 (10 x 16) and b3 |
| NetworkSpec.AddParams | ml/src/main.cpp:155-162 | accumulating gradients keeps the six shapes |
| NetworkSpec.Step | ml/src/main.cpp:169-176 | the update keeps the six shapes |
| NetworkSpec.Forward | ml/src/main.cpp:113-120 | the forward pass gives 16 x 1 hidden and 10 x 1 output activations |
| NetworkSpec.ForwardRanges | ml/src/main.cpp:113-120 | `a1` and `a2` lie strictly between 0 and 1 in every cell; `a3` is a probability distribution over the ten digits (positive cells summing to 1) |
| NetworkSpec.OutputDelta | ml/src/main.cpp:141 | `dz3 = 2 * (a3 - y)` has the shape of `a3` |
| NetworkSpec.HiddenDelta | ml/src/main.cpp:145-151 | `dot(w.T(), dz) * d_sigmoid(z)` has the shape of `z` |
| NetworkSpec.WeightGrad | ml/src/main.cpp:142-152 | `dot(dz, a.T())` has one row per output and one column per input of the layer |
| NetworkSpec.Backward | ml/src/main.cpp:141-153 | every gradient has the shape of its parameter (`dw1` 16 x 784, `dw3` 10 x 16, ...) |
| NetworkSpec.Input | ml/src/main.cpp:109-111 | the input column is 784 x 1 |
| NetworkSpec.OneHot | ml/src/main.cpp:136-137 | `y` is 10 x 1 with a 1 at the label and 0 everywhere else |
| NetworkSpec.OneHotSum | ml/src/main.cpp:136-137 | the one-hot target sums to 1 |
| NetworkSpec.SampleIndex | ml/src/main.cpp:107 | `(image_base + batch_i) % num_images` is below `num_images`, and equals `image_base + batch_i` while that is below it |
| NetworkSpec.SampleIndexPeriodic | ml/src/main.cpp:107 | moving one dataset length further in the batch picks the same sample |
| NetworkSpec.FirstMaxUpTo | ml/src/main.cpp:122-130 | the scan over the first `n` outputs returns an index below `n` |
| NetworkSpec.FirstMaxUpToIsFirstMax | ml/src/main.cpp:122-130 | the scan returns the first index of the largest of the first `n` outputs: nothing is larger, and everything before it is strictly smaller |
| NetworkSpec.FirstMaxIsFirstMax | ml/src/main.cpp:122-130 | the prediction is the first index holding the largest output |
| NetworkSpec.FirstMax | ml/src/main.cpp:122-130 | the prediction scan over all ten outputs: an index below their number |
| NetworkSpec.FirstMaxUnique | ml/src/main.cpp:122-130 | any first index of the largest output is the prediction |
| NetworkSpec.Prediction | ml/src/main.cpp:122-130 | the predicted digit is below 10 |
| NetworkSpec.Correct | ml/src/main.cpp:132 | `digit == labels[image]`: the predicted digit is the sample's label |
| NetworkSpec.Label | ml/src/main.cpp:132 | `labels[image]` as a digit |
| NetworkSpec.SampleGrads | ml/src/main.cpp:109-153 | one sample's gradients have the six parameter shapes |
| NetworkSpec.BatchGrads | ml/src/main.cpp:93-162 | the accumulators after any number of samples have the six parameter shapes |
| NetworkSpec.BatchGradsFirstSample | ml/src/main.cpp:93-162 | accumulators that start at zero hold exactly the first sample's gradients after it |
| NetworkSpec.CorrectCount | ml/src/main.cpp:103-134 | `num_correct` after `k` samples is at most `k`, so at most `batch_size` |
| NetworkSpec.CorrectCountStep | ml/src/main.cpp:132-134 | one more sample adds 1 to `num_correct` exactly when it was predicted correctly |
| NetworkSpec.AllCorrect | ml/src/main.cpp:132-134 | every sample correct gives `num_correct == batch_size` |
| NetworkSpec.NoneCorrect | ml/src/main.cpp:132-134 | no sample correct gives `num_correct == 0` |
| NetworkSpec.BatchStep | ml/src/main.cpp:165-176 | one mini-batch keeps the six shapes |
| NetworkSpec.AddParamsZeroLeft | ml/src/main.cpp:93-162 | adding gradients to zeroed accumulators gives the gradients |
| NetworkSpec.StepZero | ml/src/main.cpp:167-176 | a zero factor leaves every parameter unchanged |
| NetworkSpec.FrozenBatch | ml/src/main.cpp:167-176 | with learning rate 0 a mini-batch leaves every parameter as it was |
| NetworkSpec.EpochFrom | ml/src/main.cpp:91 | the rest of an epoch keeps the six shapes |
| NetworkSpec.NextStart | ml/src/main.cpp:91 | `image_base += batch_size`: the next mini-batch starts `batch_size` images later |
| NetworkSpec.Trained | ml/src/main.cpp:90 | the parameters after any number of epochs keep the six shapes |
| NetworkSpec.EpochFromUnfold | ml/src/main.cpp:91 | from a start below `num_images`, the epoch takes one batch and continues from `image_base + batch_size` |
| NetworkSpec.EpochFromStep | ml/src/main.cpp:91 | after one batch and `image_base += batch_size`, the rest of the epoch still ends at the same parameters |
| Trainer.ParamSet.Of | ml/src/main.cpp:81-88 | six distinct matrices with the parameter shapes form a parameter set whose value is theirs |
| Trainer.ParamSet.Zeros | ml/src/main.cpp:93-100 | six fresh zero matrices with the parameter shapes |
| Trainer.ParamSet.AddAssign | ml/src/main.cpp:155-162 | the six `+=` add one sample's gradients to the accumulators in place |
| Trainer.ParamSet.Update | ml/src/main.cpp:169-176 | the six `-=` change each parameter to `param - factor * acc` in place |
| Trainer.AddLayer | ml/src/main.cpp:155-162 | `a_dw += dw; a_db += db;` for one layer, in place |
| Trainer.StepLayer | ml/src/main.cpp:169-176 | `w -= factor * a_dw; b -= factor * a_db;` for one layer, in place |
| Trainer.LoadInput | ml/src/main.cpp:109-111 | the texel loop fills `a0` with each pixel byte divided by 255 |
| Trainer.Predict | ml/src/main.cpp:122-130 | the loop from `-INFINITY` returns the first index of the largest output |
| Trainer.Exceeds | ml/src/main.cpp:126 | `x > digit_prob`, where `digit_prob` starts at `-INFINITY`, which every finite output exceeds |
| Trainer.OneHotTarget | ml/src/main.cpp:136-137 | `y = zero(); y.at(label, 0) = 1` is the one-hot target |
| Trainer.Forward | ml/src/main.cpp:113-120 | the six matrices the forward pass computes are `NetworkSpec.Forward` of the parameters and `a0` |
| Trainer.OutputLayerGrads | ml/src/main.cpp:141-143 | `dz3` and `dw3` as `NetworkSpec.OutputDelta` and `NetworkSpec.WeightGrad` |
| Trainer.HiddenLayerGrads | ml/src/main.cpp:145-153 | `dz2`/`dw2` and `dz1`/`dw1` as `NetworkSpec.HiddenDelta` and `NetworkSpec.WeightGrad` |
| Trainer.Backward | ml/src/main.cpp:141-153 | the backward pass returns six fresh matrices whose value is `NetworkSpec.Backward` |
| Trainer.Sample | ml/src/main.cpp:107-153 | one sample's gradients are `NetworkSpec.SampleGrads`, and `correct` says whether the prediction is the label |
| Trainer.AccumulateSample | ml/src/main.cpp:107-162 | the accumulators grow by exactly that sample's gradients |
| Trainer.CountSample | ml/src/main.cpp:132-134 | `num_correct++` exactly when the prediction is right, keeping `num_correct == CorrectCount` |
| Trainer.BatchIteration | ml/src/main.cpp:105-163 | one iteration of the batch loop advances the accumulators and `num_correct` by one sample |
| Trainer.AccumulateBatch | ml/src/main.cpp:93-163 | after the batch loop the accumulators are `BatchGrads` (zero plus every sample's gradients, in order) and `num_correct` is `CorrectCount` |
| Trainer.TrainBatch | ml/src/main.cpp:93-176 | one mini-batch changes the parameters to `NetworkSpec.BatchStep` and returns the correct count |
| Trainer.TrainEpoch | ml/src/main.cpp:91-181 | one epoch changes the parameters to `NetworkSpec.EpochFrom` from image 0 |
| Trainer.Train | ml/src/main.cpp:90-182 | `epochs` epochs change the parameters to `NetworkSpec.Trained` |
| Trainer.Initial | ml/src/main.cpp:81-88 | the starting parameters have the six shapes, hold the given weights, and have zero biases |
| Trainer.Run | ml/src/main.cpp:75-182 | from the given weights and zero biases, training with `epochs = 64`, `batch_size = 128` and `learning_rate = 1` ends at `NetworkSpec.Trained` of those parameters |

## Left out

- Floating point: every cell is an exact `real`. IEEE-754 rounding, overflow
  to infinity and NaN are not modelled, and neither is the order dependence
  of rounding. Each fold is still written in the source's order.
- `expf` is an abstract positive function, a parameter of every operation
  that uses it. Its values are not modelled. The strict bounds of
  `DenseSpec.SigmoidInUnitInterval`, `DenseSpec.DSigmoidBounds` and
  `NetworkSpec.ForwardRanges` hold over exact reals only. In `float`,
  `sigmoidf` rounds to exactly 1 once `x` is above about 17, which makes
  `d_sigmoid` 0. `expf` also underflows to 0 for very negative arguments.
- `randn` and `std::default_random_engine` (foreign library calls): the
  initial weights are an input to `Trainer.Run`. The biases start from
  `zero()`, as `DenseSpec.Zero` describes.
- Trainer.Run: `randn` takes the generator by value (matrix.h:56), so
  all three calls start from the same untouched state. w2's 256 cells
  then repeat w1's first 256, and w3's 160 cells repeat w1's first 160.
  `Trainer.Run` takes three independent weight sequences and proves its
  contract for all of them, so it does not capture this link.
- File and console I/O: `load_buffer`, `load`, `dump`, `print`, `printf`
  and `fclose`. The two files are given as byte sequences. Failing to open
  a file is not modelled.
- `fread` results are unchecked in the source, which then reads
  uninitialised memory. `Idx.ParseDataset` reports such a file as
  `Truncated` instead.
- The `assert`s of `main` (equal counts, 28 x 28) are modelled as the
  errors `CountMismatch` and `BadImageShape`, which is their effect in a
  debug build. A release build would go on.
- The mutable `at` asserts its indices. `Trainer.OneHotTarget` and the
  training methods therefore require every label to be below 10
  (`NetworkSpec.Trainable`), instead of modelling the failed assert.
- The signedness of `char` for the labels does not arise, since labels
  below 10 are required.
- The loss `sum(pow(a3 - y, 2))`, `pow` and the printed loss and accuracy
  are not modelled. Only `num_correct`, which the accuracy is computed
  from, is.
- `operator/` is not modelled. Its lambda uses `left` without capturing
  it, so it never compiles when instantiated.
- `reverse_integer` and `load_big_endian` are modelled for a little-endian
  host only.
- NetworkSpec.NextStart: `image_base += batch_size` is unbounded here. In
  the source `image_base` is a `uint32_t`, which could wrap only with more
  than 4294967168 images.
- Trainer.TrainEpoch: the ensures states the epoch as `EpochFrom` on
  values. That learning rate 0 freezes a whole epoch is proved only batch
  by batch (`NetworkSpec.FrozenBatch`), not as a lemma about `EpochFrom`.

## Findings

| source | as written | input that shows it | evidently intended | confidence | as-written member | corrected member |
|---|---|---|---|---|---|---|
| ml/src/main.cpp:72-73 | the image buffer has `num_images * 28 * 28` bytes, computed in 32-bit unsigned arithmetic, so the size wraps modulo 2^32 | `num_images = 5478275` (with matching label count and full files): the buffer gets 304 bytes, but `fread` writes `5478275 * 784` bytes into it | a buffer of `num_images * 784` bytes, computed without wrap-around | not executed | Idx.ImageBufferSizeWraps | Idx.ImageBufferHoldsEveryPixel |
