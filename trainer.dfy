/** The training loop of main: for each epoch and each mini-batch, run every
    sample through the network, count the correct predictions, accumulate the
    gradients into six zeroed matrices with `+=`, then update the parameters
    in place with `-=`. Each method is proved against NetworkSpec. */
module Trainer {
  import opened Idx
  import opened DenseMatrix
  import S = DenseSpec
  import N = NetworkSpec

  const BatchSize: nat := 128
  const Epochs: nat := 64
  const LearningRate: real := 1.0

  predicate Distinct6<T(==)>(a: T, b: T, c: T, d: T, e: T, f: T) {
    && a != b && a != c && a != d && a != e && a != f
    && b != c && b != d && b != e && b != f
    && c != d && c != e && c != f
    && d != e && d != f
    && e != f
  }

  /** Six matrices with the shapes of w1, b1, w2, b2, w3, b3: the parameters,
      one sample's gradients, or the batch accumulators a_dw1 ... a_db3. */
  class ParamSet {
    const w1: Matrix
    const b1: Matrix
    const w2: Matrix
    const b2: Matrix
    const w3: Matrix
    const b3: Matrix

    /** The six buffers. */
    ghost function Repr(): set<object> {
      {w1.data, b1.data, w2.data, b2.data, w3.data, b3.data}
    }

    /** Every matrix has its parameter's shape and owns its own buffer. */
    ghost predicate Valid() {
      && w1.Valid() && w1.rows == N.Hidden && w1.cols == ImagePixels
      && b1.Valid() && b1.rows == N.Hidden && b1.cols == 1
      && w2.Valid() && w2.rows == N.Hidden && w2.cols == N.Hidden
      && b2.Valid() && b2.rows == N.Hidden && b2.cols == 1
      && w3.Valid() && w3.rows == N.Outputs && w3.cols == N.Hidden
      && b3.Valid() && b3.rows == N.Outputs && b3.cols == 1
      && Distinct6(w1.data, b1.data, w2.data, b2.data, w3.data, b3.data)
    }

    ghost function Value(): (p: N.Params)
      reads Repr()
      ensures Valid() ==> N.Shaped(p)
    {
      N.Params(w1.Value(), b1.Value(), w2.Value(), b2.Value(), w3.Value(), b3.Value())
    }

    /** Bundles six matrices that already have the right shapes. */
    constructor Of(w1: Matrix, b1: Matrix, w2: Matrix, b2: Matrix, w3: Matrix, b3: Matrix)
      requires w1.Valid() && w1.rows == N.Hidden && w1.cols == ImagePixels
      requires b1.Valid() && b1.rows == N.Hidden && b1.cols == 1
      requires w2.Valid() && w2.rows == N.Hidden && w2.cols == N.Hidden
      requires b2.Valid() && b2.rows == N.Hidden && b2.cols == 1
      requires w3.Valid() && w3.rows == N.Outputs && w3.cols == N.Hidden
      requires b3.Valid() && b3.rows == N.Outputs && b3.cols == 1
      requires Distinct6(w1.data, b1.data, w2.data, b2.data, w3.data, b3.data)
      ensures Valid()
      ensures Value() == N.Params(w1.Value(), b1.Value(), w2.Value(), b2.Value(), w3.Value(), b3.Value())
      ensures Repr() == {w1.data, b1.data, w2.data, b2.data, w3.data, b3.data}
    {
      this.w1, this.b1, this.w2, this.b2, this.w3, this.b3 := w1, b1, w2, b2, w3, b3;
    }

    /** The accumulators at the start of a batch: six `Matrix::zero()`. */
    constructor Zeros()
      ensures Valid() && fresh(Repr())
      ensures Value() == N.ZeroParams()
    {
      w1 := new Matrix.Zero(N.Hidden, ImagePixels);
      b1 := new Matrix.Zero(N.Hidden, 1);
      w2 := new Matrix.Zero(N.Hidden, N.Hidden);
      b2 := new Matrix.Zero(N.Hidden, 1);
      w3 := new Matrix.Zero(N.Outputs, N.Hidden);
      b3 := new Matrix.Zero(N.Outputs, 1);
    }

    /** `a_dw1 += dw1; ... a_db3 += db3;`. */
    method AddAssign(g: ParamSet)
      requires Valid() && g.Valid() && Repr() !! g.Repr()
      modifies Repr()
      ensures Value() == N.AddParams(old(Value()), old(g.Value()))
    {
      AddLayer(w1, b1, g.w1, g.b1);
      AddLayer(w2, b2, g.w2, g.b2);
      AddLayer(w3, b3, g.w3, g.b3);
    }

    /** `w1 -= factor * a_dw1; ... b3 -= factor * a_db3;`. */
    method Update(factor: real, acc: ParamSet)
      requires Valid() && acc.Valid() && Repr() !! acc.Repr()
      modifies Repr()
      ensures Value() == N.Step(old(Value()), old(acc.Value()), factor)
    {
      StepLayer(w1, b1, acc.w1, acc.b1, factor);
      StepLayer(w2, b2, acc.w2, acc.b2, factor);
      StepLayer(w3, b3, acc.w3, acc.b3, factor);
    }
  }

  /** A set whose six buffers were all allocated during a call is itself new. */
  twostate lemma FreshBuffers(new grads: ParamSet, new w1: array<real>, new b1: array<real>, new w2: array<real>,
                              new b2: array<real>, new w3: array<real>, new b3: array<real>)
    requires grads.Repr() == {w1, b1, w2, b2, w3, b3}
    requires fresh(w1) && fresh(b1) && fresh(w2) && fresh(b2) && fresh(w3) && fresh(b3)
    ensures fresh(grads.Repr())
  {
  }

  /** Matrices allocated during a call share no buffer with a set that existed before it. */
  twostate lemma FreshIsDisjoint(older: ParamSet, new newer: ParamSet)
    requires fresh(newer.Repr())
    ensures older.Repr() !! newer.Repr()
  {
  }

  /** The two `+=` of one layer: `a_dw += dw; a_db += db;`. */
  method AddLayer(w: Matrix, b: Matrix, gw: Matrix, gb: Matrix)
    requires w.Valid() && b.Valid() && gw.Valid() && gb.Valid()
    requires gw.rows == w.rows && gw.cols == w.cols && gb.rows == b.rows && gb.cols == b.cols
    requires w.data != b.data && {w.data, b.data} !! {gw.data, gb.data}
    modifies w.data, b.data
    ensures w.Value() == S.Add(old(w.Value()), old(gw.Value()))
    ensures b.Value() == S.Add(old(b.Value()), old(gb.Value()))
  {
    w.AddAssign(gw);
    b.AddAssign(gb);
  }

  /** The two `-=` of one layer: `w -= factor * a_dw; b -= factor * a_db;`. */
  method StepLayer(w: Matrix, b: Matrix, gw: Matrix, gb: Matrix, factor: real)
    requires w.Valid() && b.Valid() && gw.Valid() && gb.Valid()
    requires gw.rows == w.rows && gw.cols == w.cols && gb.rows == b.rows && gb.cols == b.cols
    requires w.data != b.data && {w.data, b.data} !! {gw.data, gb.data}
    modifies w.data, b.data
    ensures w.Value() == S.Sub(old(w.Value()), S.Scale(factor, old(gw.Value())))
    ensures b.Value() == S.Sub(old(b.Value()), S.Scale(factor, old(gb.Value())))
  {
    var scaled := Scale(factor, gw);
    w.SubAssign(scaled);
    scaled := Scale(factor, gb);
    b.SubAssign(scaled);
  }

  /** The input column a0 of sample `image`: each pixel byte divided by 255. */
  method LoadInput(ds: Dataset, image: nat) returns (a0: Matrix)
    requires Consistent(ds) && image < ds.count
    ensures a0.Valid() && fresh(a0.data)
    ensures a0.Value() == N.Input(ds, image)
  {
    ghost var input := N.Input(ds, image);
    a0 := new Matrix(ImagePixels, 1);
    for texel := 0 to ImagePixels
      invariant forall t: nat :: t < texel ==> S.Get(a0.Value(), t, 0) == S.Get(input, t, 0)
    {
      ImageBufferHoldsEveryPixel(ds.count, image, texel);
      a0.SetAt(texel, 0, (ds.pixels[image * ImagePixels + texel] as real) / 255.0);
    }
    S.EqualByCells(a0.Value(), input);
  }

  /** A probability or the -INFINITY the prediction scan starts from. */
  datatype Extended = NegInf | Finite(value: real)

  /** `x > digit_prob`: every real number exceeds -INFINITY. */
  predicate Exceeds(x: real, e: Extended) {
    e.NegInf? || x > e.value
  }

  /** The prediction loop: scan the ten outputs, keeping the first largest. */
  method Predict(a3: Matrix) returns (digit: nat)
    requires a3.Valid() && a3.rows == N.Outputs && a3.cols == 1
    ensures N.IsFirstMax(a3.Value().cells, digit)
    ensures digit == N.FirstMax(a3.Value().cells)
  {
    ghost var s := a3.Value().cells;
    digit := 0;
    var digitProb := NegInf;
    for i := 0 to N.Outputs
      invariant i == 0 ==> digit == 0 && digitProb == NegInf
      invariant i > 0 ==> digit == N.FirstMaxUpTo(s, i) && digitProb == Finite(s[digit])
    {
      var x := a3.At(i, 0);
      if Exceeds(x, digitProb) {
        digitProb := Finite(x);
        digit := i;
      }
    }
    N.FirstMaxIsFirstMax(s);
  }

  /** `y = zero(); y.at(label, 0) = 1`. */
  method OneHotTarget(digit: nat) returns (y: Matrix)
    requires digit < N.Outputs
    ensures y.Valid() && fresh(y.data)
    ensures y.Value() == N.OneHot(digit)
  {
    y := new Matrix.Zero(N.Outputs, 1);
    y.SetAt(digit, 0, 1.0);
  }

  /** The forward pass: three affine layers, sigmoid twice, softmax at the end. */
  method Forward(net: ParamSet, a0: Matrix, expf: S.ExpFn) returns (z1: Matrix, a1: Matrix, z2: Matrix, a2: Matrix, z3: Matrix, a3: Matrix)
    requires net.Valid() && a0.Valid() && a0.rows == ImagePixels && a0.cols == 1
    ensures z1.Valid() && a1.Valid() && z2.Valid() && a2.Valid() && z3.Valid() && a3.Valid()
    ensures N.Activations(z1.Value(), a1.Value(), z2.Value(), a2.Value(), z3.Value(), a3.Value())
            == N.Forward(net.Value(), a0.Value(), expf)
  {
    var product := Dot(net.w1, a0);
    z1 := Add(product, net.b1);
    a1 := Sigmoid(z1, expf);
    product := Dot(net.w2, a1);
    z2 := Add(product, net.b2);
    a2 := Sigmoid(z2, expf);
    product := Dot(net.w3, a2);
    z3 := Add(product, net.b3);
    a3 := Softmax(z3, expf);
  }

  /** The hand-written backward pass; db1, db2, db3 are dz1, dz2, dz3. */
  method Backward(net: ParamSet, a0: Matrix, z1: Matrix, a1: Matrix, z2: Matrix, a2: Matrix, z3: Matrix, a3: Matrix,
                  y: Matrix, expf: S.ExpFn) returns (grads: ParamSet)
    requires net.Valid() && a0.Valid() && a0.rows == ImagePixels && a0.cols == 1
    requires y.Valid() && y.rows == N.Outputs && y.cols == 1
    requires z1.Valid() && a1.Valid() && z2.Valid() && a2.Valid() && z3.Valid() && a3.Valid()
    requires N.ActivationsShaped(N.Activations(z1.Value(), a1.Value(), z2.Value(), a2.Value(), z3.Value(), a3.Value()))
    ensures grads.Valid()
    ensures fresh(grads.Repr())
    ensures grads.Value() == N.Backward(old(net.Value()), old(a0.Value()),
              old(N.Activations(z1.Value(), a1.Value(), z2.Value(), a2.Value(), z3.Value(), a3.Value())), old(y.Value()), expf)
  {
    var dz3, dw3 := OutputLayerGrads(a3, y, a2);
    var dz2, dw2 := HiddenLayerGrads(net.w3, dz3, z2, a1, expf);
    var dz1, dw1 := HiddenLayerGrads(net.w2, dz2, z1, a0, expf);
    grads := new ParamSet.Of(dw1, dz1, dw2, dz2, dw3, dz3);
    FreshBuffers(grads, dw1.data, dz1.data, dw2.data, dz2.data, dw3.data, dz3.data);
  }

  /** `dz3 = 2 * (a3 - y); dw3 = dot(dz3, a2.T());`. */
  method OutputLayerGrads(a3: Matrix, y: Matrix, a2: Matrix) returns (dz: Matrix, dw: Matrix)
    requires a3.Valid() && y.Valid() && a2.Valid() && a3.rows == y.rows && a3.cols == y.cols && a2.cols == a3.cols
    ensures dz.Valid() && dw.Valid() && fresh(dz.data) && fresh(dw.data) && dz.data != dw.data
    ensures dz.Value() == N.OutputDelta(a3.Value(), y.Value())
    ensures dw.Value() == N.WeightGrad(dz.Value(), a2.Value())
  {
    var diff := Sub(a3, y);
    dz := Scale(2.0, diff);
    var a2t := a2.Transpose();
    dw := Dot(dz, a2t);
  }

  /** One hidden layer going backwards, from the next layer's weights w and dz:
      `da = dot(w.T(), dzNext); dz = da * d_sigmoid(z); dw = dot(dz, aPrev.T());`. */
  method HiddenLayerGrads(w: Matrix, dzNext: Matrix, z: Matrix, aPrev: Matrix, expf: S.ExpFn) returns (dz: Matrix, dw: Matrix)
    requires w.Valid() && dzNext.Valid() && z.Valid() && aPrev.Valid()
    requires w.rows == dzNext.rows && z.rows == w.cols && z.cols == dzNext.cols && aPrev.cols == z.cols
    ensures dz.Valid() && dw.Valid() && fresh(dz.data) && fresh(dw.data) && dz.data != dw.data
    ensures dz.Value() == N.HiddenDelta(w.Value(), dzNext.Value(), z.Value(), expf)
    ensures dw.Value() == N.WeightGrad(dz.Value(), aPrev.Value())
  {
    var wt := w.Transpose();
    var da := Dot(wt, dzNext);
    var dsig := DSigmoid(z, expf);
    dz := Mul(da, dsig);
    var aPrevT := aPrev.Transpose();
    dw := Dot(dz, aPrevT);
  }

  /** One iteration of the batch loop: load the sample, run it forward, predict,
      build the one-hot target and run the backward pass. */
  method Sample(net: ParamSet, ds: Dataset, image: nat, expf: S.ExpFn) returns (grads: ParamSet, correct: bool)
    requires net.Valid() && N.Trainable(ds) && image < ds.count
    ensures grads.Valid() && fresh(grads.Repr())
    ensures grads.Value() == N.SampleGrads(net.Value(), ds, image, expf)
    ensures correct == N.Correct(net.Value(), ds, image, expf)
  {
    var a0 := LoadInput(ds, image);
    var z1, a1, z2, a2, z3, a3 := Forward(net, a0, expf);
    var digit := Predict(a3);
    correct := digit == ds.labels[image] as nat;
    var y := OneHotTarget(ds.labels[image] as nat);
    grads := Backward(net, a0, z1, a1, z2, a2, z3, a3, y, expf);
  }

  /** Sample `image` run through the network and its gradients added to the accumulators. */
  method AccumulateSample(net: ParamSet, ghost p: N.Params, acc: ParamSet, ds: Dataset, image: nat, expf: S.ExpFn)
    returns (correct: bool)
    requires net.Valid() && acc.Valid() && net.Repr() !! acc.Repr() && net.Value() == p
    requires N.Trainable(ds) && image < ds.count
    modifies acc.Repr()
    ensures acc.Value() == N.AddParams(old(acc.Value()), N.SampleGrads(p, ds, image, expf))
    ensures correct == N.Correct(p, ds, image, expf)
  {
    var grads;
    grads, correct := Sample(net, ds, image, expf);
    FreshIsDisjoint(acc, grads);
    acc.AddAssign(grads);
  }

  /** `if (prediction == label) num_correct++;` for sample `batchI` of the batch. */
  method CountSample(ghost p: N.Params, ds: Dataset, imageBase: nat, batchI: nat, image: nat, numCorrect: nat, correct: bool,
                     expf: S.ExpFn) returns (numCorrect': nat)
    requires N.Shaped(p) && N.Trainable(ds) && ds.count > 0 && image == N.SampleIndex(imageBase, batchI, ds.count)
    requires numCorrect == N.CorrectCount(p, ds, imageBase, batchI, expf)
    requires correct == N.Correct(p, ds, image, expf)
    ensures numCorrect' == N.CorrectCount(p, ds, imageBase, batchI + 1, expf)
  {
    N.CorrectCountStep(p, ds, imageBase, batchI, expf, correct);
    if correct {
      numCorrect' := numCorrect + 1;
    } else {
      numCorrect' := numCorrect;
    }
  }

  /** One iteration of the batch loop, sample `batchI` of the batch: run it,
      count it if predicted correctly, and add its gradients to the accumulators. */
  method BatchIteration(net: ParamSet, ghost p: N.Params, acc: ParamSet, ds: Dataset, imageBase: nat, batchI: nat,
                        numCorrect: nat, expf: S.ExpFn) returns (numCorrect': nat)
    requires net.Valid() && acc.Valid() && net.Repr() !! acc.Repr() && net.Value() == p
    requires N.Trainable(ds) && ds.count > 0
    requires acc.Value() == N.BatchGrads(p, ds, imageBase, batchI, expf)
    requires numCorrect == N.CorrectCount(p, ds, imageBase, batchI, expf)
    modifies acc.Repr()
    ensures acc.Value() == N.BatchGrads(p, ds, imageBase, batchI + 1, expf)
    ensures numCorrect' == N.CorrectCount(p, ds, imageBase, batchI + 1, expf)
  {
    var image := N.SampleIndex(imageBase, batchI, ds.count);
    var correct := AccumulateSample(net, p, acc, ds, image, expf);
    numCorrect' := CountSample(p, ds, imageBase, batchI, image, numCorrect, correct, expf);
  }

  /** The batch loop: fresh zeroed accumulators, then every sample of the batch
      in turn; returns the accumulators and num_correct, the parameters untouched. */
  method AccumulateBatch(net: ParamSet, ghost p: N.Params, ds: Dataset, imageBase: nat, batchSize: nat, expf: S.ExpFn)
    returns (acc: ParamSet, numCorrect: nat)
    requires net.Valid() && net.Value() == p && N.Trainable(ds) && ds.count > 0
    ensures acc.Valid() && fresh(acc.Repr()) && net.Repr() !! acc.Repr()
    ensures acc.Value() == N.BatchGrads(p, ds, imageBase, batchSize, expf)
    ensures numCorrect == N.CorrectCount(p, ds, imageBase, batchSize, expf)
  {
    acc := new ParamSet.Zeros();
    numCorrect := 0;
    for batchI := 0 to batchSize
      invariant acc.Valid() && fresh(acc.Repr()) && net.Repr() !! acc.Repr()
      invariant acc.Value() == N.BatchGrads(p, ds, imageBase, batchI, expf)
      invariant numCorrect == N.CorrectCount(p, ds, imageBase, batchI, expf)
    {
      numCorrect := BatchIteration(net, p, acc, ds, imageBase, batchI, numCorrect, expf);
    }
  }

  /** One mini-batch starting at `imageBase`: returns num_correct and leaves the
      parameters stepped by learningRate / batchSize times the summed gradients. */
  method TrainBatch(net: ParamSet, ds: Dataset, imageBase: nat, batchSize: nat, learningRate: real, expf: S.ExpFn)
    returns (numCorrect: nat)
    requires net.Valid() && N.Trainable(ds) && ds.count > 0 && batchSize > 0
    modifies net.Repr()
    ensures net.Value() == N.BatchStep(old(net.Value()), ds, imageBase, batchSize, learningRate, expf)
    ensures numCorrect == N.CorrectCount(old(net.Value()), ds, imageBase, batchSize, expf)
  {
    var acc;
    acc, numCorrect := AccumulateBatch(net, net.Value(), ds, imageBase, batchSize, expf);
    var factor := learningRate / batchSize as real;
    net.Update(factor, acc);
  }

  /** One epoch: mini-batches starting at 0, batchSize, 2 * batchSize, ...
      while the start is below the number of images. */
  method TrainEpoch(net: ParamSet, ds: Dataset, batchSize: nat, learningRate: real, expf: S.ExpFn)
    requires net.Valid() && N.Trainable(ds) && batchSize > 0
    modifies net.Repr()
    ensures net.Value() == N.EpochFrom(old(net.Value()), ds, 0, batchSize, learningRate, expf)
  {
    ghost var target := N.EpochFrom(net.Value(), ds, 0, batchSize, learningRate, expf);
    var imageBase: nat := 0;
    while imageBase < ds.count
      invariant N.EpochEndsAt(net.Value(), ds, imageBase, batchSize, learningRate, expf, target)
      decreases ds.count - imageBase
    {
      ghost var before, base := net.Value(), imageBase;
      var _ := TrainBatch(net, ds, imageBase, batchSize, learningRate, expf);
      imageBase := imageBase + batchSize;
      N.EpochFromStep(before, ds, base, batchSize, learningRate, expf, target, net.Value(), imageBase);
    }
  }

  /** `epochs` passes over the dataset. */
  method Train(net: ParamSet, ds: Dataset, epochs: nat, batchSize: nat, learningRate: real, expf: S.ExpFn)
    requires net.Valid() && N.Trainable(ds) && batchSize > 0
    modifies net.Repr()
    ensures net.Value() == N.Trained(old(net.Value()), ds, epochs, batchSize, learningRate, expf)
  {
    ghost var p0 := net.Value();
    for epoch := 0 to epochs
      invariant net.Value() == N.Trained(p0, ds, epoch, batchSize, learningRate, expf)
    {
      TrainEpoch(net, ds, batchSize, learningRate, expf);
    }
  }

  /** The parameters main starts from: the given weights, zero biases. */
  function Initial(w1: seq<real>, w2: seq<real>, w3: seq<real>): (p: N.Params)
    requires |w1| == N.Hidden * ImagePixels && |w2| == N.Hidden * N.Hidden && |w3| == N.Outputs * N.Hidden
    ensures N.Shaped(p)
    ensures p.w1.cells == w1 && p.w2.cells == w2 && p.w3.cells == w3
    ensures p.b1 == S.Zero(N.Hidden, 1) && p.b2 == S.Zero(N.Hidden, 1) && p.b3 == S.Zero(N.Outputs, 1)
  {
    N.Params(S.Mat(N.Hidden, ImagePixels, w1), S.Zero(N.Hidden, 1), S.Mat(N.Hidden, N.Hidden, w2),
             S.Zero(N.Hidden, 1), S.Mat(N.Outputs, N.Hidden, w3), S.Zero(N.Outputs, 1))
  }

  /** main after loading: the weights `randn` drew are inputs, the biases
      start at zero, and 64 epochs run with batches of 128 and learning rate 1. */
  method Run(ds: Dataset, w1: seq<real>, w2: seq<real>, w3: seq<real>, expf: S.ExpFn) returns (net: ParamSet)
    requires N.Trainable(ds)
    requires |w1| == N.Hidden * ImagePixels && |w2| == N.Hidden * N.Hidden && |w3| == N.Outputs * N.Hidden
    ensures net.Valid()
    ensures net.Value() == N.Trained(Initial(w1, w2, w3), ds, Epochs, BatchSize, LearningRate, expf)
  {
    var mw1 := new Matrix.FromList(N.Hidden, ImagePixels, w1);
    var mb1 := new Matrix.Zero(N.Hidden, 1);
    var mw2 := new Matrix.FromList(N.Hidden, N.Hidden, w2);
    var mb2 := new Matrix.Zero(N.Hidden, 1);
    var mw3 := new Matrix.FromList(N.Outputs, N.Hidden, w3);
    var mb3 := new Matrix.Zero(N.Outputs, 1);
    net := new ParamSet.Of(mw1, mb1, mw2, mb2, mw3, mb3);
    FreshBuffers(net, mw1.data, mb1.data, mw2.data, mb2.data, mw3.data, mb3.data);
    assert net.Value() == Initial(w1, w2, w3);
    Train(net, ds, Epochs, BatchSize, LearningRate, expf);
  }
}
