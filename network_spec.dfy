/** What one mini-batch of training does to the six parameters, as values:
    the forward pass, the hand-derived backward pass, the accumulation of
    per-sample gradients over the batch and the update param -= factor * acc.
    The imperative training loop in Trainer is proved against these. */
module NetworkSpec {
  import opened DenseSpec
  import opened Idx
  import opened Layout

  const Hidden: nat := 16
  const Outputs: nat := 10

  /** w1 (16 x 784), b1 (16 x 1), w2 (16 x 16), b2 (16 x 1), w3 (10 x 16), b3 (10 x 1);
      gradients and their accumulators have the same six shapes. */
  datatype Params = Params(w1: Mat, b1: Mat, w2: Mat, b2: Mat, w3: Mat, b3: Mat)

  predicate Column(m: Mat, n: nat) {
    Wf(m) && m.rows == n && m.cols == 1
  }

  predicate Shaped(p: Params) {
    && Wf(p.w1) && p.w1.rows == Hidden && p.w1.cols == ImagePixels && Column(p.b1, Hidden)
    && Wf(p.w2) && p.w2.rows == Hidden && p.w2.cols == Hidden && Column(p.b2, Hidden)
    && Wf(p.w3) && p.w3.rows == Outputs && p.w3.cols == Hidden && Column(p.b3, Outputs)
  }

  /** The six accumulators at the start of a batch. */
  function ZeroParams(): (p: Params)
    ensures Shaped(p)
  {
    Params(Zero(Hidden, ImagePixels), Zero(Hidden, 1), Zero(Hidden, Hidden), Zero(Hidden, 1),
           Zero(Outputs, Hidden), Zero(Outputs, 1))
  }

  /** `a_dw1 += dw1; ... a_db3 += db3;`. */
  function AddParams(acc: Params, g: Params): (r: Params)
    requires Shaped(acc) && Shaped(g)
    ensures Shaped(r)
  {
    Params(Add(acc.w1, g.w1), Add(acc.b1, g.b1), Add(acc.w2, g.w2), Add(acc.b2, g.b2),
           Add(acc.w3, g.w3), Add(acc.b3, g.b3))
  }

  /** `w1 -= factor * a_dw1; ... b3 -= factor * a_db3;`. */
  function Step(p: Params, acc: Params, factor: real): (r: Params)
    requires Shaped(p) && Shaped(acc)
    ensures Shaped(r)
  {
    Params(Sub(p.w1, Scale(factor, acc.w1)), Sub(p.b1, Scale(factor, acc.b1)),
           Sub(p.w2, Scale(factor, acc.w2)), Sub(p.b2, Scale(factor, acc.b2)),
           Sub(p.w3, Scale(factor, acc.w3)), Sub(p.b3, Scale(factor, acc.b3)))
  }

  /** The intermediate values of one forward pass, kept for the backward pass. */
  datatype Activations = Activations(z1: Mat, a1: Mat, z2: Mat, a2: Mat, z3: Mat, a3: Mat)

  predicate ActivationsShaped(act: Activations) {
    && Column(act.z1, Hidden) && Column(act.a1, Hidden)
    && Column(act.z2, Hidden) && Column(act.a2, Hidden)
    && Column(act.z3, Outputs) && Column(act.a3, Outputs)
  }

  /** z1 = w1.a0 + b1, a1 = sigmoid(z1), z2 = w2.a1 + b2, a2 = sigmoid(z2),
      z3 = w3.a2 + b3, a3 = softmax(z3). */
  function Forward(p: Params, a0: Mat, expf: ExpFn): (act: Activations)
    requires Shaped(p) && Column(a0, ImagePixels)
    ensures ActivationsShaped(act)
  {
    var z1 := Add(Dot(p.w1, a0), p.b1);
    var a1 := Sigmoid(z1, expf);
    var z2 := Add(Dot(p.w2, a1), p.b2);
    var a2 := Sigmoid(z2, expf);
    var z3 := Add(Dot(p.w3, a2), p.b3);
    Activations(z1, a1, z2, a2, z3, Softmax(z3, expf))
  }

  /** The hidden activations lie strictly between 0 and 1, and the output a3 is a
      probability distribution over the ten digits: positive cells summing to 1. */
  lemma ForwardRanges(p: Params, a0: Mat, expf: ExpFn)
    requires Shaped(p) && Column(a0, ImagePixels)
    ensures forall i :: 0 <= i < Hidden ==> 0.0 < Forward(p, a0, expf).a1.cells[i] < 1.0
    ensures forall i :: 0 <= i < Hidden ==> 0.0 < Forward(p, a0, expf).a2.cells[i] < 1.0
    ensures forall i :: 0 <= i < Outputs ==> Forward(p, a0, expf).a3.cells[i] > 0.0
    ensures Sum(Forward(p, a0, expf).a3) == 1.0
  {
    var act := Forward(p, a0, expf);
    forall i | 0 <= i < Hidden
      ensures 0.0 < act.a1.cells[i] < 1.0 && 0.0 < act.a2.cells[i] < 1.0
    {
      SigmoidInUnitInterval(act.z1, expf, i);
      SigmoidInUnitInterval(act.z2, expf, i);
    }
    SoftmaxPositive(act.z3, expf);
    SoftmaxSumsToOne(act.z3, expf);
  }

  /** `2 * (a3 - y)`: taken as the gradient at the logits z3; softmax's own
      Jacobian is not applied. */
  function OutputDelta(a3: Mat, y: Mat): (dz: Mat)
    requires SameShape(a3, y)
    ensures SameShape(dz, a3)
  {
    Scale(2.0, Sub(a3, y))
  }

  /** `dot(w.T(), dzNext) * d_sigmoid(z)`: the gradient at the pre-activation z
      of a hidden layer whose output feeds weights w. */
  function HiddenDelta(w: Mat, dzNext: Mat, z: Mat, expf: ExpFn): (dz: Mat)
    requires Wf(w) && Wf(dzNext) && Wf(z) && w.rows == dzNext.rows
    requires z.rows == w.cols && z.cols == dzNext.cols
    ensures SameShape(dz, z)
  {
    Mul(Dot(Transpose(w), dzNext), DSigmoid(z, expf))
  }

  /** `dot(dz, aPrev.T())`: one row per output, one column per input of the layer. */
  function WeightGrad(dz: Mat, aPrev: Mat): (dw: Mat)
    requires Wf(dz) && Wf(aPrev) && dz.cols == aPrev.cols
    ensures Wf(dw) && dw.rows == dz.rows && dw.cols == aPrev.rows
  {
    Dot(dz, Transpose(aPrev))
  }

  /** The hand-derived backward pass, exactly as written. Each gradient has the
      shape of the parameter it belongs to, and db1, db2, db3 are dz1, dz2, dz3. */
  function Backward(p: Params, a0: Mat, act: Activations, y: Mat, expf: ExpFn): (g: Params)
    requires Shaped(p) && Column(a0, ImagePixels) && ActivationsShaped(act) && Column(y, Outputs)
    ensures Shaped(g)
  {
    var dz3 := OutputDelta(act.a3, y);
    var dz2 := HiddenDelta(p.w3, dz3, act.z2, expf);
    var dz1 := HiddenDelta(p.w2, dz2, act.z1, expf);
    Params(WeightGrad(dz1, a0), dz1, WeightGrad(dz2, act.a1), dz2, WeightGrad(dz3, act.a2), dz3)
  }

  /** The labels main reads are used as row indices of a 10 x 1 matrix. */
  predicate LabelsInRange(ds: Dataset) {
    forall i :: 0 <= i < |ds.labels| ==> ds.labels[i] < 10
  }

  predicate Trainable(ds: Dataset) {
    Consistent(ds) && LabelsInRange(ds)
  }

  /** Sample `image` as the input column: pixel byte / 255. */
  function Input(ds: Dataset, image: nat): (a0: Mat)
    requires Consistent(ds) && image < ds.count
    ensures Column(a0, ImagePixels)
  {
    Mat(ImagePixels, 1, seq(ImagePixels, texel requires 0 <= texel < ImagePixels =>
      ImageBufferHoldsEveryPixel(ds.count, image, texel);
      (ds.pixels[image * ImagePixels + texel] as real) / 255.0))
  }

  /** `y = zero(); y.at(digit, 0) = 1`. */
  function OneHot(digit: nat): (y: Mat)
    requires digit < Outputs
    ensures Column(y, Outputs)
    ensures forall i :: 0 <= i < Outputs ==> y.cells[i] == if i == digit then 1.0 else 0.0
  {
    SetCell(Zero(Outputs, 1), digit, 0, 1.0)
  }

  /** A sequence with a single 1 and 0 everywhere else sums to 1. */
  lemma {:induction false} SumOfIndicator(s: seq<real>, k: nat)
    requires k < |s|
    requires forall i :: 0 <= i < |s| ==> s[i] == if i == k then 1.0 else 0.0
    ensures SumOf(s) == 1.0
  {
    var n := |s| - 1;
    if k < n {
      SumOfIndicator(s[..n], k);
    } else {
      SumOfZeros(s[..n]);
    }
  }

  /** The one-hot target sums to 1. */
  lemma OneHotSum(digit: nat)
    requires digit < Outputs
    ensures Sum(OneHot(digit)) == 1.0
  {
    SumOfIndicator(OneHot(digit).cells, digit);
  }

  /** `(image_base + batch_i) % num_images`: the sample index wraps around the dataset. */
  function SampleIndex(base: nat, batchI: nat, count: nat): (image: nat)
    requires count > 0
    ensures image < count
    ensures base + batchI < count ==> image == base + batchI
  {
    (base + batchI) % count
  }

  /** Adding n to x does not change x % n. */
  lemma ModShift(x: nat, n: nat)
    requires n > 0
    ensures (x + n) % n == x % n
  {
    var q, r := x / n, x % n;
    var q', r' := (x + n) / n, (x + n) % n;
    assert (q' - (q + 1)) * n == r - r';
    if q' > q + 1 {
      MulMonotone(1, q' - (q + 1), n);
    } else if q' < q + 1 {
      MulMonotone(1, q + 1 - q', n);
    }
  }

  /** The dataset is circular: a batch position one dataset length further picks the same sample. */
  lemma SampleIndexPeriodic(base: nat, batchI: nat, count: nat)
    requires count > 0
    ensures SampleIndex(base, batchI + count, count) == SampleIndex(base, batchI, count)
  {
    ModShift(base + batchI, count);
  }

  /** d is the first index holding the largest of the first n values: nothing
      among them is larger and everything before d is strictly smaller. */
  predicate IsFirstMaxUpTo(s: seq<real>, n: nat, d: nat)
    requires n <= |s|
  {
    && d < n
    && (forall j :: 0 <= j < n ==> s[j] <= s[d])
    && (forall j :: 0 <= j < d ==> s[j] < s[d])
  }

  predicate IsFirstMax(s: seq<real>, d: nat) {
    IsFirstMaxUpTo(s, |s|, d)
  }

  /** The scan of the prediction loop over the first n entries: a later entry
      wins only when strictly larger. */
  function FirstMaxUpTo(s: seq<real>, n: nat): (d: nat)
    requires 0 < n <= |s|
    ensures d < n
  {
    if n == 1 then 0
    else
      var d := FirstMaxUpTo(s, n - 1);
      if s[n - 1] > s[d] then n - 1 else d
  }

  /** The scan finds the first largest of the first n entries. */
  lemma {:induction false} FirstMaxUpToIsFirstMax(s: seq<real>, n: nat)
    requires 0 < n <= |s|
    ensures IsFirstMaxUpTo(s, n, FirstMaxUpTo(s, n))
  {
    if n > 1 {
      FirstMaxUpToIsFirstMax(s, n - 1);
    }
  }

  function FirstMax(s: seq<real>): (d: nat)
    requires |s| > 0
    ensures d < |s|
  {
    FirstMaxUpTo(s, |s|)
  }

  /** The prediction is the first index of the largest output. */
  lemma FirstMaxIsFirstMax(s: seq<real>)
    requires |s| > 0
    ensures IsFirstMax(s, FirstMax(s))
  {
    FirstMaxUpToIsFirstMax(s, |s|);
  }

  /** The first maximum is unique. */
  lemma FirstMaxUnique(s: seq<real>, d: nat)
    requires IsFirstMax(s, d)
    ensures d == FirstMax(s)
  {
    var e := FirstMax(s);
    FirstMaxIsFirstMax(s);
    assert s[e] <= s[d] && s[d] <= s[e];
    assert !(d < e) && !(e < d);
  }

  function Label(ds: Dataset, image: nat): nat
    requires Trainable(ds) && image < ds.count
  {
    ds.labels[image] as nat
  }

  /** The digit the network predicts for sample `image`. */
  function Prediction(p: Params, ds: Dataset, image: nat, expf: ExpFn): (digit: nat)
    requires Shaped(p) && Trainable(ds) && image < ds.count
    ensures digit < Outputs
  {
    FirstMax(Forward(p, Input(ds, image), expf).a3.cells)
  }

  /** dw1, db1, ..., db3 of sample `image`. */
  function SampleGrads(p: Params, ds: Dataset, image: nat, expf: ExpFn): (g: Params)
    requires Shaped(p) && Trainable(ds) && image < ds.count
    ensures Shaped(g)
  {
    var a0 := Input(ds, image);
    Backward(p, a0, Forward(p, a0, expf), OneHot(Label(ds, image)), expf)
  }

  /** The accumulators after the first k samples of the batch starting at `base`:
      zero, plus each sample's gradients in batch order. */
  function BatchGrads(p: Params, ds: Dataset, base: nat, k: nat, expf: ExpFn): (acc: Params)
    requires Shaped(p) && Trainable(ds) && ds.count > 0
    ensures Shaped(acc)
  {
    if k == 0 then ZeroParams()
    else AddParams(BatchGrads(p, ds, base, k - 1, expf),
                   SampleGrads(p, ds, SampleIndex(base, k - 1, ds.count), expf))
  }

  /** Whether the network predicts the label of sample `image`. */
  predicate Correct(p: Params, ds: Dataset, image: nat, expf: ExpFn)
    requires Shaped(p) && Trainable(ds) && image < ds.count
  {
    Prediction(p, ds, image, expf) == Label(ds, image)
  }

  /** num_correct after the first k samples of the batch: never more than k. */
  function CorrectCount(p: Params, ds: Dataset, base: nat, k: nat, expf: ExpFn): (n: nat)
    requires Shaped(p) && Trainable(ds) && ds.count > 0
    ensures n <= k
  {
    if k == 0 then 0
    else CorrectCount(p, ds, base, k - 1, expf) + (if Correct(p, ds, SampleIndex(base, k - 1, ds.count), expf) then 1 else 0)
  }

  /** One mini-batch: accumulate over batchSize samples, then step with
      factor = learningRate / batchSize. */
  function BatchStep(p: Params, ds: Dataset, base: nat, batchSize: nat, learningRate: real, expf: ExpFn): (q: Params)
    requires Shaped(p) && Trainable(ds) && ds.count > 0 && batchSize > 0
    ensures Shaped(q)
  {
    Step(p, BatchGrads(p, ds, base, batchSize, expf), learningRate / batchSize as real)
  }

  /** The rest of an epoch from batch start `base`: one batch per base < count,
      the base advancing by batchSize. */
  function EpochFrom(p: Params, ds: Dataset, base: nat, batchSize: nat, learningRate: real, expf: ExpFn): (q: Params)
    requires Shaped(p) && Trainable(ds) && batchSize > 0
    ensures Shaped(q)
    decreases ds.count - base
  {
    if base >= ds.count then p
    else EpochFrom(BatchStep(p, ds, base, batchSize, learningRate, expf), ds, NextStart(base, batchSize),
                   batchSize, learningRate, expf)
  }

  /** `image_base += batch_size`: where the next mini-batch starts. */
  function NextStart(base: nat, batchSize: nat): nat {
    base + batchSize
  }

  /** The parameters after `epochs` epochs. */
  function Trained(p: Params, ds: Dataset, epochs: nat, batchSize: nat, learningRate: real, expf: ExpFn): (q: Params)
    requires Shaped(p) && Trainable(ds) && batchSize > 0
    ensures Shaped(q)
  {
    if epochs == 0 then p
    else EpochFrom(Trained(p, ds, epochs - 1, batchSize, learningRate, expf), ds, 0, batchSize, learningRate, expf)
  }

  // ---------------------------------------------------------------------
  // Properties

  lemma AddParamsZeroLeft(g: Params)
    requires Shaped(g)
    ensures AddParams(ZeroParams(), g) == g
  {
    AddZeroLeft(g.w1); AddZeroLeft(g.b1);
    AddZeroLeft(g.w2); AddZeroLeft(g.b2);
    AddZeroLeft(g.w3); AddZeroLeft(g.b3);
  }

  /** Accumulators start at zero, so after the first sample they hold exactly its gradients. */
  lemma BatchGradsFirstSample(p: Params, ds: Dataset, base: nat, expf: ExpFn)
    requires Shaped(p) && Trainable(ds) && ds.count > 0
    ensures BatchGrads(p, ds, base, 1, expf) == SampleGrads(p, ds, SampleIndex(base, 0, ds.count), expf)
  {
    AddParamsZeroLeft(SampleGrads(p, ds, SampleIndex(base, 0, ds.count), expf));
  }

  /** A zero step leaves every parameter unchanged. */
  lemma StepZero(p: Params, acc: Params)
    requires Shaped(p) && Shaped(acc)
    ensures Step(p, acc, 0.0) == p
  {
    SubScaleZero(p.w1, acc.w1); SubScaleZero(p.b1, acc.b1);
    SubScaleZero(p.w2, acc.w2); SubScaleZero(p.b2, acc.b2);
    SubScaleZero(p.w3, acc.w3); SubScaleZero(p.b3, acc.b3);
  }

  /** With learning rate 0 the network is frozen: a batch leaves every parameter as it was. */
  lemma FrozenBatch(p: Params, ds: Dataset, base: nat, batchSize: nat, expf: ExpFn)
    requires Shaped(p) && Trainable(ds) && ds.count > 0 && batchSize > 0
    ensures BatchStep(p, ds, base, batchSize, 0.0, expf) == p
  {
    var acc := BatchGrads(p, ds, base, batchSize, expf);
    assert 0.0 / batchSize as real == 0.0;
    StepZero(p, acc);
  }

  /** Every sample predicted correctly means num_correct == batch_size (accuracy 100). */
  lemma {:induction false} AllCorrect(p: Params, ds: Dataset, base: nat, k: nat, expf: ExpFn)
    requires Shaped(p) && Trainable(ds) && ds.count > 0
    requires forall i :: 0 <= i < k ==> Correct(p, ds, SampleIndex(base, i, ds.count), expf)
    ensures CorrectCount(p, ds, base, k, expf) == k
  {
    if k > 1 {
      AllCorrect(p, ds, base, k - 1, expf);
    }
  }

  /** No sample predicted correctly means num_correct == 0 (accuracy 0). */
  lemma {:induction false} NoneCorrect(p: Params, ds: Dataset, base: nat, k: nat, expf: ExpFn)
    requires Shaped(p) && Trainable(ds) && ds.count > 0
    requires forall i :: 0 <= i < k ==> !Correct(p, ds, SampleIndex(base, i, ds.count), expf)
    ensures CorrectCount(p, ds, base, k, expf) == 0
  {
    if k > 1 {
      NoneCorrect(p, ds, base, k - 1, expf);
    }
  }

  /** One more sample adds one to num_correct exactly when it was predicted correctly. */
  lemma CorrectCountStep(p: Params, ds: Dataset, base: nat, k: nat, expf: ExpFn, correct: bool)
    requires Shaped(p) && Trainable(ds) && ds.count > 0
    requires correct == Correct(p, ds, SampleIndex(base, k, ds.count), expf)
    ensures CorrectCount(p, ds, base, k + 1, expf) == CorrectCount(p, ds, base, k, expf) + (if correct then 1 else 0)
  {
  }

  /** The rest of the epoch from batch start `base` leads from p to q. */
  predicate EpochEndsAt(p: Params, ds: Dataset, base: nat, batchSize: nat, learningRate: real, expf: ExpFn, q: Params)
    requires Shaped(p) && Trainable(ds) && batchSize > 0
  {
    EpochFrom(p, ds, base, batchSize, learningRate, expf) == q
  }

  /** A batch that starts below the number of images is taken, then the epoch goes on
      from the next batch start: the epoch's end is the same seen from either start. */
  lemma EpochFromStep(p: Params, ds: Dataset, base: nat, batchSize: nat, learningRate: real, expf: ExpFn, q: Params,
                      next: Params, nextBase: nat)
    requires Shaped(p) && Trainable(ds) && batchSize > 0 && base < ds.count
    requires EpochEndsAt(p, ds, base, batchSize, learningRate, expf, q)
    requires next == BatchStep(p, ds, base, batchSize, learningRate, expf) && nextBase == NextStart(base, batchSize)
    ensures EpochEndsAt(next, ds, nextBase, batchSize, learningRate, expf, q)
  {
    EpochFromUnfold(p, ds, base, batchSize, learningRate, expf);
  }

  /** From a start below the number of images the epoch takes one batch and goes on. */
  lemma EpochFromUnfold(p: Params, ds: Dataset, base: nat, batchSize: nat, learningRate: real, expf: ExpFn)
    requires Shaped(p) && Trainable(ds) && batchSize > 0 && base < ds.count
    ensures EpochFrom(p, ds, base, batchSize, learningRate, expf) ==
            EpochFrom(BatchStep(p, ds, base, batchSize, learningRate, expf), ds, NextStart(base, batchSize),
                      batchSize, learningRate, expf)
  {
  }
}
