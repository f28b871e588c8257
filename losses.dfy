/**
 * The loss functions of the detector: the element-wise focal and Huber losses,
 * their reduction policy, and the two wrappers that mask anchors by their state
 * and normalise by the number of positive anchors.
 *
 * Tensors are flattened: an element-wise loss works on a `seq<real>`, a batch of
 * anchors is a `seq<Row>` whose rows are the anchors of every image in order.
 * Floating point is modelled by `real`; `sigmoid`, `log` and `pow` are left
 * uninterpreted (a `Numerics` record of functions), and the library losses the
 * wrappers call are function arguments.
 */
module LossFunctions {

  /** One anchor's row of a target or prediction tensor (last axis). */
  type Row = seq<real>

  /** The clipping bound of `focal_loss`. */
  const Epsilon: real := 0.000001

  /** The scale factor and coordinate count of the Huber wrapper. */
  const HuberScale: real := 50.0
  const BoxCoordinates: real := 4.0

  /** The floating-point primitives `focal_loss` uses, left uninterpreted. */
  datatype Numerics = Numerics(sigmoid: real -> real, log: real -> real, pow: (real, real) -> real)

  /** What a reduction returns: one scalar, the unreduced tensor, or NaN (the mean of nothing). */
  datatype Reduced = Scalar(value: real) | PerElement(values: seq<real>) | NotANumber

  // ---------------------------------------------------------------------------
  // Arithmetic helpers
  // ---------------------------------------------------------------------------

  function Abs(x: real): real { if x < 0.0 then -x else x }

  function Max(x: real, y: real): real { if x < y then y else x }

  function Min(x: real, y: real): real { if x < y then x else y }

  /** `reduce_sum` of a flat sequence. */
  function Sum(s: seq<real>): real
  {
    if |s| == 0 then 0.0 else Sum(s[..|s| - 1]) + s[|s| - 1]
  }

  /** `reduce_mean` of a non-empty flat sequence. */
  function Mean(s: seq<real>): real
    requires |s| > 0
  {
    Sum(s) / |s| as real
  }

  predicate AllNonNegative(s: seq<real>)
  {
    forall i :: 0 <= i < |s| ==> s[i] >= 0.0
  }

  predicate AllWithin(s: seq<real>, lo: real, hi: real)
  {
    forall i :: 0 <= i < |s| ==> lo <= s[i] <= hi
  }

  /** Appending one value adds it to the sum. */
  lemma SumAppend(s: seq<real>, x: real)
    ensures Sum(s + [x]) == Sum(s) + x
  {
    assert (s + [x])[..|s|] == s;
  }

  lemma {:induction false} SumNonNegative(s: seq<real>)
    requires AllNonNegative(s)
    ensures Sum(s) >= 0.0
  {
    if |s| > 0 {
      SumNonNegative(s[..|s| - 1]);
    }
  }

  lemma {:induction false} SumWithin(s: seq<real>, lo: real, hi: real)
    requires AllWithin(s, lo, hi)
    ensures |s| as real * lo <= Sum(s) <= |s| as real * hi
  {
    if |s| > 0 {
      var init := s[..|s| - 1];
      SumWithin(init, lo, hi);
      var n := |init| as real;
      assert |s| as real == n + 1.0;
      assert Sum(s) == Sum(init) + s[|s| - 1] && lo <= s[|s| - 1] <= hi;
      assert n * lo <= Sum(init) <= n * hi;
      assert (n + 1.0) * lo == n * lo + lo && (n + 1.0) * hi == n * hi + hi;
    }
  }

  /** The mean of values that lie in [lo, hi] lies in [lo, hi]. */
  lemma MeanWithin(s: seq<real>, lo: real, hi: real)
    requires |s| > 0 && AllWithin(s, lo, hi)
    ensures lo <= Mean(s) <= hi
  {
    SumWithin(s, lo, hi);
    var n := |s| as real;
    assert (Sum(s) - lo * n) / n >= 0.0;
    assert (hi * n - Sum(s)) / n >= 0.0;
  }

  // ---------------------------------------------------------------------------
  // The reduction policy shared by focal_loss and huber_loss
  // ---------------------------------------------------------------------------

  /**
   * 'mean' gives the mean, 'sum' the sum, and any other string returns the
   * unreduced values.
   */
  function Reduce(loss: seq<real>, reduction: string): (r: Reduced)
    ensures r.PerElement? <==> reduction != "mean" && reduction != "sum"
    ensures r.PerElement? ==> r.values == loss
    ensures r.NotANumber? <==> reduction == "mean" && |loss| == 0
    ensures reduction == "sum" ==> r.Scalar? && r.value == Sum(loss)
    ensures reduction == "mean" && |loss| > 0 ==> r.Scalar? && r.value * |loss| as real == Sum(loss)
  {
    if reduction == "mean" then
      if |loss| == 0 then NotANumber else Scalar(Mean(loss))
    else if reduction == "sum" then
      Scalar(Sum(loss))
    else
      PerElement(loss)
  }

  /** Non-negative element-wise losses reduce to a non-negative result under every policy. */
  lemma ReduceNonNegative(loss: seq<real>, reduction: string)
    requires AllNonNegative(loss)
    ensures Reduce(loss, reduction).Scalar? ==> Reduce(loss, reduction).value >= 0.0
    ensures Reduce(loss, reduction).PerElement? ==> AllNonNegative(Reduce(loss, reduction).values)
  {
    SumNonNegative(loss);
    if reduction == "mean" && |loss| > 0 {
      assert Mean(loss) * |loss| as real == Sum(loss);
    }
  }

  // ---------------------------------------------------------------------------
  // focal_loss
  // ---------------------------------------------------------------------------

  /** `clip_by_value(p, ε, 1 − ε)`. */
  function ClipProbability(p: real): (r: real)
    ensures Epsilon <= r <= 1.0 - Epsilon
    ensures Epsilon <= p <= 1.0 - Epsilon ==> r == p
    ensures p < Epsilon ==> r == Epsilon
    ensures p > 1.0 - Epsilon ==> r == 1.0 - Epsilon
  {
    Min(Max(p, Epsilon), 1.0 - Epsilon)
  }

  /** The probability a prediction stands for: its sigmoid when it is a logit. */
  function Probability(num: Numerics, yPred: real, fromLogits: bool): real
  {
    if fromLogits then num.sigmoid(yPred) else yPred
  }

  /** The class-balancing weight: α where the target is exactly 1, 1 − α elsewhere. */
  function AlphaT(yTrue: real, alpha: real): (a: real)
    ensures yTrue == 1.0 ==> a == alpha
    ensures yTrue != 1.0 ==> a + alpha == 1.0
    ensures 0.0 <= alpha <= 1.0 ==> 0.0 <= a <= 1.0
  {
    if yTrue == 1.0 then alpha else 1.0 - alpha
  }

  /**
   * The probability of the true class: p where the target is exactly 1, 1 − p
   * elsewhere. On a clipped p it stays inside [ε, 1 − ε], so its log is defined.
   */
  function Pt(yTrue: real, p: real): (pt: real)
    ensures yTrue == 1.0 ==> pt == p
    ensures yTrue != 1.0 ==> pt + p == 1.0
    ensures Epsilon <= p <= 1.0 - Epsilon ==> Epsilon <= pt <= 1.0 - Epsilon
  {
    if yTrue == 1.0 then p else 1.0 - p
  }

  /** `−α_t · (1 − p_t)^γ · log(p_t)` for one element, p already clipped. */
  function FocalTerm(num: Numerics, yTrue: real, p: real, gamma: real, alpha: real): real
  {
    var pt := Pt(yTrue, p);
    -AlphaT(yTrue, alpha) * num.pow(1.0 - pt, gamma) * num.log(pt)
  }

  /** The unreduced focal loss: one value per element of the (flattened) tensors. */
  function FocalElementwise(num: Numerics, yTrue: seq<real>, yPred: seq<real>, gamma: real, alpha: real,
                            fromLogits: bool): (loss: seq<real>)
    requires |yTrue| == |yPred|
    ensures |loss| == |yTrue|
  {
    seq(|yTrue|, i requires 0 <= i < |yTrue| =>
      FocalTerm(num, yTrue[i], ClipProbability(Probability(num, yPred[i], fromLogits)), gamma, alpha))
  }

  /** `focal_loss(y_true, y_pred, gamma, alpha, from_logits, reduction)`. */
  function FocalLoss(num: Numerics, yTrue: seq<real>, yPred: seq<real>, gamma: real, alpha: real,
                     fromLogits: bool, reduction: string): Reduced
    requires |yTrue| == |yPred|
  {
    Reduce(FocalElementwise(num, yTrue, yPred, gamma, alpha, fromLogits), reduction)
  }

  /** Every argument `focal_loss` hands to `log` lies in [ε, 1 − ε], on both branches of `p_t`. */
  lemma FocalLogArgumentInRange(num: Numerics, yTrue: seq<real>, yPred: seq<real>, fromLogits: bool, i: int)
    requires |yTrue| == |yPred| && 0 <= i < |yTrue|
    ensures var p := ClipProbability(Probability(num, yPred[i], fromLogits));
            Epsilon <= Pt(yTrue[i], p) <= 1.0 - Epsilon
  {
  }

  ghost predicate LogNonPositiveOnUnit(num: Numerics)
  {
    forall x: real :: 0.0 < x <= 1.0 ==> num.log(x) <= 0.0
  }

  ghost predicate PowNonNegative(num: Numerics)
  {
    forall b: real, e: real :: b >= 0.0 ==> num.pow(b, e) >= 0.0
  }

  /**
   * With α in [0, 1], a log that is non-positive on (0, 1] and a power that is
   * non-negative on a non-negative base, every focal-loss element is non-negative,
   * and so is every reduction of them.
   */
  lemma FocalLossNonNegative(num: Numerics, yTrue: seq<real>, yPred: seq<real>, gamma: real, alpha: real,
                             fromLogits: bool, reduction: string)
    requires |yTrue| == |yPred|
    requires 0.0 <= alpha <= 1.0
    requires LogNonPositiveOnUnit(num) && PowNonNegative(num)
    ensures var r := FocalLoss(num, yTrue, yPred, gamma, alpha, fromLogits, reduction);
            (r.Scalar? ==> r.value >= 0.0) && (r.PerElement? ==> AllNonNegative(r.values))
  {
    var loss := FocalElementwise(num, yTrue, yPred, gamma, alpha, fromLogits);
    forall i | 0 <= i < |loss|
      ensures loss[i] >= 0.0
    {
      var p := ClipProbability(Probability(num, yPred[i], fromLogits));
      var pt := Pt(yTrue[i], p);
      var a := AlphaT(yTrue[i], alpha);
      var w := num.pow(1.0 - pt, gamma);
      var l := num.log(pt);
      assert a >= 0.0 && w >= 0.0 && l <= 0.0;
      assert a * w >= 0.0;
      assert loss[i] == -(a * w) * l;
    }
    ReduceNonNegative(loss, reduction);
  }

  function Sigmoids(num: Numerics, x: seq<real>): (p: seq<real>)
    ensures |p| == |x| && forall i :: 0 <= i < |x| ==> p[i] == num.sigmoid(x[i])
  {
    seq(|x|, i requires 0 <= i < |x| => num.sigmoid(x[i]))
  }

  /** Passing logits with `from_logits` is the same as passing their sigmoids as probabilities. */
  lemma FocalLossFromLogits(num: Numerics, yTrue: seq<real>, x: seq<real>, gamma: real, alpha: real,
                            reduction: string)
    requires |yTrue| == |x|
    ensures FocalLoss(num, yTrue, x, gamma, alpha, true, reduction)
         == FocalLoss(num, yTrue, Sigmoids(num, x), gamma, alpha, false, reduction)
  {
    var p := Sigmoids(num, x);
    var a := FocalElementwise(num, yTrue, x, gamma, alpha, true);
    var b := FocalElementwise(num, yTrue, p, gamma, alpha, false);
    forall i | 0 <= i < |a|
      ensures a[i] == b[i]
    {
      assert Probability(num, x[i], true) == Probability(num, p[i], false);
    }
    assert a == b;
  }

  /**
   * One anchor, target [1, 0], probabilities [0.9, 0.1]: both elements have
   * p_t = 0.9, and their weights α and 1 − α add up to 1.
   */
  lemma FocalLossSingleAnchorExample(num: Numerics)
    ensures FocalLoss(num, [1.0, 0.0], [0.9, 0.1], 1.5, 0.25, false, "sum")
         == Scalar(-(num.pow(0.1, 1.5) * num.log(0.9)))
  {
    var loss := FocalElementwise(num, [1.0, 0.0], [0.9, 0.1], 1.5, 0.25, false);
    assert loss[0] == -0.25 * num.pow(0.1, 1.5) * num.log(0.9);
    assert loss[1] == -0.75 * num.pow(0.1, 1.5) * num.log(0.9);
    assert loss[..1] == [loss[0]] && loss[..1][..0] == [];
    assert Sum(loss[..1]) == loss[0];
    assert Sum(loss) == loss[0] + loss[1];
  }

  // ---------------------------------------------------------------------------
  // huber_loss
  // ---------------------------------------------------------------------------

  function QuadraticBranch(e: real): real { 0.5 * (e * e) }

  function LinearBranch(e: real, delta: real): real { delta * (Abs(e) - 0.5 * delta) }

  /** The Huber value of one error: quadratic strictly inside δ, linear from δ on. */
  function HuberTerm(e: real, delta: real): real
  {
    if Abs(e) < delta then QuadraticBranch(e) else LinearBranch(e, delta)
  }

  /** A product of two positive factors is positive. */
  lemma ProductPositive(a: real, b: real, q: real)
    requires q == a * b && a > 0.0 && b > 0.0
    ensures q > 0.0
  {
  }

  /** The square of a non-zero number is positive. */
  lemma SquarePositive(e: real, q: real)
    requires q == e * e && e != 0.0
    ensures q > 0.0
  {
    if e > 0.0 {
      ProductPositive(e, e, q);
    } else {
      ProductPositive(-e, -e, q);
    }
  }

  /** The quadratic branch is positive away from zero. */
  lemma QuadraticPositive(e: real)
    requires e != 0.0
    ensures QuadraticBranch(e) > 0.0
  {
    SquarePositive(e, 2.0 * QuadraticBranch(e));
  }

  /** For δ > 0 the value is non-negative, and zero exactly when the error is. */
  lemma HuberTermNonNegative(e: real, delta: real)
    requires delta > 0.0
    ensures HuberTerm(e, delta) >= 0.0
    ensures HuberTerm(e, delta) == 0.0 <==> e == 0.0
  {
    var h := HuberTerm(e, delta);
    if e == 0.0 {
      assert h == 0.0;
    } else if Abs(e) < delta {
      QuadraticPositive(e);
      assert h == QuadraticBranch(e);
    } else {
      var x := Abs(e) - 0.5 * delta;
      assert x > 0.0;
      assert h == delta * x;
      assert h > 0.0;
    }
  }

  /** Both branches meet at |e| = δ with the value δ²/2: the loss is continuous. */
  lemma HuberTermContinuous(e: real, delta: real)
    requires Abs(e) == delta
    ensures QuadraticBranch(e) == LinearBranch(e, delta) == 0.5 * delta * delta
    ensures HuberTerm(e, delta) == 0.5 * delta * delta
  {
    assert e * e == Abs(e) * Abs(e);
  }

  /** The Huber value never exceeds the squared loss e²/2. */
  lemma HuberTermAtMostQuadratic(e: real, delta: real)
    ensures HuberTerm(e, delta) <= QuadraticBranch(e)
  {
    if Abs(e) >= delta {
      var d := Abs(e) - delta;
      assert e * e == Abs(e) * Abs(e);
      assert 0.5 * e * e - delta * (Abs(e) - 0.5 * delta) == 0.5 * d * d;
      assert d * d >= 0.0;
    }
  }

  /** The per-coordinate Huber values of one anchor, error = target − prediction. */
  function HuberTerms(yTrue: Row, yPred: Row, delta: real): (h: seq<real>)
    requires |yTrue| == |yPred|
    ensures |h| == |yTrue|
    ensures forall k :: 0 <= k < |h| ==> h[k] == HuberTerm(yTrue[k] - yPred[k], delta)
  {
    seq(|yTrue|, k requires 0 <= k < |yTrue| => HuberTerm(yTrue[k] - yPred[k], delta))
  }

  /**
   * Co-indexed tensors with matching, non-empty rows. `huber_loss` would
   * broadcast tensors of other shapes and give NaN for rows of width 0; those
   * inputs are not modelled.
   */
  predicate SameShape(yTrue: seq<Row>, yPred: seq<Row>)
  {
    |yTrue| == |yPred| && forall i :: 0 <= i < |yTrue| ==> |yTrue[i]| == |yPred[i]| > 0
  }

  /** `reduce_mean(loss, axis=-1)`: one averaged Huber value per anchor. */
  function HuberPerAnchor(yTrue: seq<Row>, yPred: seq<Row>, delta: real): (loss: seq<real>)
    requires SameShape(yTrue, yPred)
    ensures |loss| == |yTrue|
  {
    seq(|yTrue|, i requires 0 <= i < |yTrue| => Mean(HuberTerms(yTrue[i], yPred[i], delta)))
  }

  /** `huber_loss(y_true, y_pred, clip_delta, reduction)`. */
  function HuberLoss(yTrue: seq<Row>, yPred: seq<Row>, delta: real, reduction: string): Reduced
    requires SameShape(yTrue, yPred)
  {
    Reduce(HuberPerAnchor(yTrue, yPred, delta), reduction)
  }

  /**
   * Each anchor's value is the mean of its coordinates' Huber values, which are
   * non-negative for δ > 0, so it and every reduction are non-negative.
   */
  lemma HuberLossNonNegative(yTrue: seq<Row>, yPred: seq<Row>, delta: real, reduction: string)
    requires SameShape(yTrue, yPred) && delta > 0.0
    ensures AllNonNegative(HuberPerAnchor(yTrue, yPred, delta))
    ensures var r := HuberLoss(yTrue, yPred, delta, reduction);
            (r.Scalar? ==> r.value >= 0.0) && (r.PerElement? ==> AllNonNegative(r.values))
  {
    var loss := HuberPerAnchor(yTrue, yPred, delta);
    forall i | 0 <= i < |loss|
      ensures loss[i] >= 0.0
    {
      var h := HuberTerms(yTrue[i], yPred[i], delta);
      forall k | 0 <= k < |h| ensures h[k] >= 0.0 {
        HuberTermNonNegative(yTrue[i][k] - yPred[i][k], delta);
      }
      SumNonNegative(h);
    }
    ReduceNonNegative(loss, reduction);
  }

  /** Identical targets and predictions give a zero loss under 'sum'. */
  lemma HuberLossZeroOnExactPrediction(yTrue: seq<Row>, delta: real)
    requires SameShape(yTrue, yTrue) && delta > 0.0
    ensures HuberLoss(yTrue, yTrue, delta, "sum") == Scalar(0.0)
  {
    var loss := HuberPerAnchor(yTrue, yTrue, delta);
    forall i | 0 <= i < |loss|
      ensures 0.0 <= loss[i] <= 0.0
    {
      var h := HuberTerms(yTrue[i], yTrue[i], delta);
      assert AllWithin(h, 0.0, 0.0);
      MeanWithin(h, 0.0, 0.0);
    }
    SumWithin(loss, 0.0, 0.0);
  }

  // ---------------------------------------------------------------------------
  // Anchor-state masking: tf.where and tf.gather_nd over the flattened anchors
  // ---------------------------------------------------------------------------

  /** Every target row ends with its anchor state, so it has at least one column. */
  predicate HasStateColumn(yTrue: seq<Row>)
  {
    forall i :: 0 <= i < |yTrue| ==> |yTrue[i]| >= 1
  }

  /** `y_true[..., -1]`. */
  function State(row: Row): real
    requires |row| >= 1
  {
    row[|row| - 1]
  }

  /** `y_true[..., :-1]`. */
  function Labels(row: Row): (labels: Row)
    requires |row| >= 1
    ensures labels + [State(row)] == row
  {
    row[..|row| - 1]
  }

  function LabelsOf(yTrue: seq<Row>): (labels: seq<Row>)
    requires HasStateColumn(yTrue)
    ensures |labels| == |yTrue|
    ensures forall i :: 0 <= i < |yTrue| ==> labels[i] == Labels(yTrue[i])
  {
    seq(|yTrue|, i requires 0 <= i < |yTrue| => Labels(yTrue[i]))
  }

  /** Anchors that take part in the focal loss: state ≠ −1. */
  function NotIgnoredMask(yTrue: seq<Row>): (m: seq<bool>)
    requires HasStateColumn(yTrue)
    ensures |m| == |yTrue| && forall i :: 0 <= i < |yTrue| ==> (m[i] <==> State(yTrue[i]) != -1.0)
  {
    seq(|yTrue|, i requires 0 <= i < |yTrue| => State(yTrue[i]) != -1.0)
  }

  /** Positive anchors: state = 1. */
  function PositiveMask(yTrue: seq<Row>): (m: seq<bool>)
    requires HasStateColumn(yTrue)
    ensures |m| == |yTrue| && forall i :: 0 <= i < |yTrue| ==> (m[i] <==> State(yTrue[i]) == 1.0)
  {
    seq(|yTrue|, i requires 0 <= i < |yTrue| => State(yTrue[i]) == 1.0)
  }

  /**
   * `tf.where(mask)`: the positions where the mask holds, in increasing order,
   * each one exactly once.
   */
  function Where(mask: seq<bool>): (idx: seq<nat>)
    ensures forall k :: 0 <= k < |idx| ==> idx[k] < |mask| && mask[idx[k]]
    ensures forall k, l :: 0 <= k < l < |idx| ==> idx[k] < idx[l]
    ensures forall i :: 0 <= i < |mask| && mask[i] ==> i in idx
  {
    if |mask| == 0 then []
    else
      var init := Where(mask[..|mask| - 1]);
      if mask[|mask| - 1] then init + [|mask| - 1] else init
  }

  predicate IndicesBelow(idx: seq<nat>, n: nat)
  {
    forall k :: 0 <= k < |idx| ==> idx[k] < n
  }

  /** `tf.gather_nd(xs, idx)`: the rows at the given positions, in that order. */
  function GatherNd<T>(xs: seq<T>, idx: seq<nat>): (g: seq<T>)
    requires IndicesBelow(idx, |xs|)
    ensures |g| == |idx| && forall k :: 0 <= k < |idx| ==> g[k] == xs[idx[k]]
  {
    seq(|idx|, k requires 0 <= k < |idx| => xs[idx[k]])
  }

  /** Number of positive anchors floored at 1: `max(1, #state == 1)`. */
  function Normalizer(yTrue: seq<Row>): (n: real)
    requires HasStateColumn(yTrue)
    ensures n >= 1.0
  {
    Max(1.0, |Where(PositiveMask(yTrue))| as real)
  }

  /** The number of positions `Where` returns is the number of true entries. */
  function CountTrue(mask: seq<bool>): nat
  {
    if |mask| == 0 then 0 else CountTrue(mask[..|mask| - 1]) + (if mask[|mask| - 1] then 1 else 0)
  }

  lemma {:induction false} WhereCount(mask: seq<bool>)
    ensures |Where(mask)| == CountTrue(mask)
  {
    if |mask| > 0 {
      WhereCount(mask[..|mask| - 1]);
    }
  }

  /** The normaliser is the positive count when there is at least one positive anchor, else 1. */
  lemma NormalizerIsPositiveCount(yTrue: seq<Row>)
    requires HasStateColumn(yTrue)
    ensures CountTrue(PositiveMask(yTrue)) >= 1 ==> Normalizer(yTrue) == CountTrue(PositiveMask(yTrue)) as real
    ensures CountTrue(PositiveMask(yTrue)) == 0 ==> Normalizer(yTrue) == 1.0
  {
    WhereCount(PositiveMask(yTrue));
  }

  /** The normaliser is max(1, number of true entries of the positive mask). */
  lemma NormalizerIsMaxCount(yTrue: seq<Row>)
    requires HasStateColumn(yTrue)
    ensures Normalizer(yTrue) == Max(1.0, CountTrue(PositiveMask(yTrue)) as real)
  {
    WhereCount(PositiveMask(yTrue));
  }

  /** A mask that holds nowhere selects nothing. */
  lemma {:induction false} WhereNone(mask: seq<bool>)
    requires forall i :: 0 <= i < |mask| ==> !mask[i]
    ensures Where(mask) == []
  {
    if |mask| > 0 {
      WhereNone(mask[..|mask| - 1]);
    }
  }

  /** A mask that holds at exactly one position selects that position alone. */
  lemma {:induction false} WhereSingle(mask: seq<bool>, j: nat)
    requires j < |mask| && mask[j]
    requires forall i :: 0 <= i < |mask| && i != j ==> !mask[i]
    ensures Where(mask) == [j]
  {
    var init := mask[..|mask| - 1];
    if j == |mask| - 1 {
      WhereNone(init);
    } else {
      WhereSingle(init, j);
    }
  }

  /** Gathered label rows are the kept target rows with their state column removed. */
  lemma GatheredLabels(yTrue: seq<Row>, idx: seq<nat>)
    requires HasStateColumn(yTrue) && IndicesBelow(idx, |yTrue|)
    ensures forall k :: 0 <= k < |idx| ==>
              GatherNd(LabelsOf(yTrue), idx)[k] + [State(yTrue[idx[k]])] == yTrue[idx[k]]
  {
    var labels := GatherNd(LabelsOf(yTrue), idx);
    forall k | 0 <= k < |idx| ensures labels[k] + [State(yTrue[idx[k]])] == yTrue[idx[k]] {
      assert labels[k] == Labels(yTrue[idx[k]]);
    }
  }

  // ---------------------------------------------------------------------------
  // EfficientDetFocalLoss and EfficientDetHuberLoss
  // ---------------------------------------------------------------------------

  /** A library loss reduced by SUM, applied to gathered targets and predictions. */
  type SummedLoss = (seq<Row>, seq<Row>) -> real

  /** Target and prediction tensors the wrappers accept: co-indexed, targets carrying a state column. */
  predicate WrapperInputs(yTrue: seq<Row>, yPred: seq<Row>)
  {
    |yTrue| == |yPred| && HasStateColumn(yTrue)
  }

  /**
   * The focal-loss wrapper; `alpha` and `gamma` configure the library's
   * sigmoid focal cross-entropy, which is built from them once.
   */
  datatype EfficientDetFocalLoss = EfficientDetFocalLoss(alpha: real, gamma: real)
  {
    /** The anchors the focal wrapper keeps: every anchor whose state is not −1. */
    static function KeptAnchors(yTrue: seq<Row>): (idx: seq<nat>)
      requires HasStateColumn(yTrue)
      ensures IndicesBelow(idx, |yTrue|)
      ensures forall k :: 0 <= k < |idx| ==> State(yTrue[idx[k]]) != -1.0
      ensures forall k, l :: 0 <= k < l < |idx| ==> idx[k] < idx[l]
      ensures forall i :: 0 <= i < |yTrue| && State(yTrue[i]) != -1.0 ==> i in idx
    {
      Where(NotIgnoredMask(yTrue))
    }

    /** `call(y_true, y_pred)`: the library loss on the kept anchors, divided by the normaliser. */
    function Call(sigmoidFocalCrossEntropy: (real, real) -> SummedLoss, yTrue: seq<Row>, yPred: seq<Row>): real
      requires WrapperInputs(yTrue, yPred)
    {
      var idx := KeptAnchors(yTrue);
      var lossFn := sigmoidFocalCrossEntropy(alpha, gamma);
      lossFn(GatherNd(LabelsOf(yTrue), idx), GatherNd(yPred, idx)) / Normalizer(yTrue)
    }
  }

  /** The wrapper with its default α = 0.25 and γ = 1.5. */
  function DefaultFocalLoss(): (w: EfficientDetFocalLoss)
    ensures w.alpha == 0.25 && w.gamma == 1.5
  {
    EfficientDetFocalLoss(0.25, 1.5)
  }

  /** The Huber-loss wrapper; `delta` configures the library Huber loss. */
  datatype EfficientDetHuberLoss = EfficientDetHuberLoss(delta: real)
  {
    /** The anchors the Huber wrapper keeps: only those whose state is 1. */
    static function KeptAnchors(yTrue: seq<Row>): (idx: seq<nat>)
      requires HasStateColumn(yTrue)
      ensures IndicesBelow(idx, |yTrue|)
      ensures forall k :: 0 <= k < |idx| ==> State(yTrue[idx[k]]) == 1.0
      ensures forall k, l :: 0 <= k < l < |idx| ==> idx[k] < idx[l]
      ensures forall i :: 0 <= i < |yTrue| && State(yTrue[i]) == 1.0 ==> i in idx
    {
      Where(PositiveMask(yTrue))
    }

    /** `call(y_true, y_pred)`: 50 times the library loss on the positives over 4 · normaliser. */
    function Call(huber: real -> SummedLoss, yTrue: seq<Row>, yPred: seq<Row>): real
      requires WrapperInputs(yTrue, yPred)
    {
      var idx := KeptAnchors(yTrue);
      var lossFn := huber(delta);
      var normalizer := Normalizer(yTrue) * BoxCoordinates;
      HuberScale * (lossFn(GatherNd(LabelsOf(yTrue), idx), GatherNd(yPred, idx)) / normalizer)
    }
  }

  /** The wrapper with its default δ = 1. */
  function DefaultHuberLoss(): (w: EfficientDetHuberLoss)
    ensures w.delta == 1.0
  {
    EfficientDetHuberLoss(1.0)
  }

  /** The Huber normaliser is 4 · max(1, number of positive anchors). */
  lemma HuberNormalizerIsScaledCount(yTrue: seq<Row>)
    requires HasStateColumn(yTrue)
    ensures Normalizer(yTrue) * BoxCoordinates == 4.0 * Max(1.0, CountTrue(PositiveMask(yTrue)) as real)
  {
    NormalizerIsMaxCount(yTrue);
  }

  /**
   * The focal wrapper hands the library exactly the label columns (state column
   * dropped) and the predictions of the anchors whose state is not −1, in their
   * original order.
   */
  lemma FocalCallGathers(yTrue: seq<Row>, yPred: seq<Row>)
    requires WrapperInputs(yTrue, yPred)
    ensures var idx := EfficientDetFocalLoss.KeptAnchors(yTrue);
            var labels := GatherNd(LabelsOf(yTrue), idx);
            var preds := GatherNd(yPred, idx);
            && |labels| == |preds| == CountTrue(NotIgnoredMask(yTrue))
            && (forall k :: 0 <= k < |labels| ==> labels[k] + [State(yTrue[idx[k]])] == yTrue[idx[k]])
            && (forall k :: 0 <= k < |preds| ==> preds[k] == yPred[idx[k]])
  {
    WhereCount(NotIgnoredMask(yTrue));
    GatheredLabels(yTrue, EfficientDetFocalLoss.KeptAnchors(yTrue));
  }

  /** The focal wrapper divides the library's summed loss by max(1, #positives). */
  lemma FocalCallSpec(w: EfficientDetFocalLoss, lib: (real, real) -> SummedLoss, yTrue: seq<Row>, yPred: seq<Row>)
    requires WrapperInputs(yTrue, yPred)
    ensures var idx := EfficientDetFocalLoss.KeptAnchors(yTrue);
            w.Call(lib, yTrue, yPred)
            == lib(w.alpha, w.gamma)(GatherNd(LabelsOf(yTrue), idx), GatherNd(yPred, idx))
               / Max(1.0, CountTrue(PositiveMask(yTrue)) as real)
  {
    NormalizerIsMaxCount(yTrue);
  }

  /**
   * The Huber wrapper hands the library the label columns and predictions of
   * the state-1 anchors only, in their original order.
   */
  lemma HuberCallGathers(yTrue: seq<Row>, yPred: seq<Row>)
    requires WrapperInputs(yTrue, yPred)
    ensures var idx := EfficientDetHuberLoss.KeptAnchors(yTrue);
            var labels := GatherNd(LabelsOf(yTrue), idx);
            var preds := GatherNd(yPred, idx);
            && |labels| == |preds| == CountTrue(PositiveMask(yTrue))
            && (forall k :: 0 <= k < |labels| ==> labels[k] + [1.0] == yTrue[idx[k]])
            && (forall k :: 0 <= k < |preds| ==> preds[k] == yPred[idx[k]])
  {
    WhereCount(PositiveMask(yTrue));
    GatheredLabels(yTrue, EfficientDetHuberLoss.KeptAnchors(yTrue));
  }

  /** The Huber wrapper returns 50 · L / (4 · max(1, #positives)) for the library's summed loss L. */
  lemma HuberCallSpec(w: EfficientDetHuberLoss, lib: real -> SummedLoss, yTrue: seq<Row>, yPred: seq<Row>)
    requires WrapperInputs(yTrue, yPred)
    ensures var idx := EfficientDetHuberLoss.KeptAnchors(yTrue);
            w.Call(lib, yTrue, yPred)
            == 50.0 * (lib(w.delta)(GatherNd(LabelsOf(yTrue), idx), GatherNd(yPred, idx))
                       / (4.0 * Max(1.0, CountTrue(PositiveMask(yTrue)) as real)))
  {
    HuberNormalizerIsScaledCount(yTrue);
  }

  /**
   * A state-0 anchor is a negative example for the focal wrapper but is dropped
   * by the Huber wrapper; a state −1 anchor is dropped by both.
   */
  lemma WrappersTreatStatesDifferently(yTrue: seq<Row>, i: nat)
    requires HasStateColumn(yTrue) && i < |yTrue|
    ensures State(yTrue[i]) == 0.0 ==>
              i in EfficientDetFocalLoss.KeptAnchors(yTrue) && i !in EfficientDetHuberLoss.KeptAnchors(yTrue)
    ensures State(yTrue[i]) == -1.0 ==>
              i !in EfficientDetFocalLoss.KeptAnchors(yTrue) && i !in EfficientDetHuberLoss.KeptAnchors(yTrue)
    ensures State(yTrue[i]) == 1.0 ==>
              i in EfficientDetFocalLoss.KeptAnchors(yTrue) && i in EfficientDetHuberLoss.KeptAnchors(yTrue)
  {
  }

  /** A library loss non-negative on the gathered rows gives a non-negative focal-wrapper result. */
  lemma FocalCallNonNegative(w: EfficientDetFocalLoss, lib: (real, real) -> SummedLoss, yTrue: seq<Row>, yPred: seq<Row>)
    requires WrapperInputs(yTrue, yPred)
    requires var idx := EfficientDetFocalLoss.KeptAnchors(yTrue);
             lib(w.alpha, w.gamma)(GatherNd(LabelsOf(yTrue), idx), GatherNd(yPred, idx)) >= 0.0
    ensures w.Call(lib, yTrue, yPred) >= 0.0
  {
    var idx := EfficientDetFocalLoss.KeptAnchors(yTrue);
    var l := lib(w.alpha, w.gamma)(GatherNd(LabelsOf(yTrue), idx), GatherNd(yPred, idx));
    var n := Normalizer(yTrue);
    assert l >= 0.0 && n >= 1.0;
    assert l / n >= 0.0;
  }

  /** A library loss non-negative on the gathered rows gives a non-negative Huber-wrapper result. */
  lemma HuberCallNonNegative(w: EfficientDetHuberLoss, lib: real -> SummedLoss, yTrue: seq<Row>, yPred: seq<Row>)
    requires WrapperInputs(yTrue, yPred)
    requires var idx := EfficientDetHuberLoss.KeptAnchors(yTrue);
             lib(w.delta)(GatherNd(LabelsOf(yTrue), idx), GatherNd(yPred, idx)) >= 0.0
    ensures w.Call(lib, yTrue, yPred) >= 0.0
  {
    var idx := EfficientDetHuberLoss.KeptAnchors(yTrue);
    var l := lib(w.delta)(GatherNd(LabelsOf(yTrue), idx), GatherNd(yPred, idx));
    var n := Normalizer(yTrue) * BoxCoordinates;
    assert l >= 0.0 && n >= 4.0;
    assert l / n >= 0.0;
  }

  /**
   * When every anchor is ignored the normaliser floors at 1 and both wrappers
   * pass empty tensors to the library: the result is the library's loss of
   * nothing (times 50/4 for Huber), whatever the predictions are.
   */
  lemma AllIgnoredAnchors(fw: EfficientDetFocalLoss, focalLib: (real, real) -> SummedLoss,
                          hw: EfficientDetHuberLoss, huberLib: real -> SummedLoss,
                          yTrue: seq<Row>, yPred: seq<Row>)
    requires WrapperInputs(yTrue, yPred)
    requires forall i :: 0 <= i < |yTrue| ==> State(yTrue[i]) == -1.0
    ensures fw.Call(focalLib, yTrue, yPred) == focalLib(fw.alpha, fw.gamma)([], [])
    ensures hw.Call(huberLib, yTrue, yPred) == 50.0 * (huberLib(hw.delta)([], []) / 4.0)
  {
    WhereNone(NotIgnoredMask(yTrue));
    WhereNone(PositiveMask(yTrue));
    assert GatherNd(LabelsOf(yTrue), []) == [];
    assert GatherNd(yPred, []) == [];
  }

  /**
   * The library Huber loss taken to be this file's `huber_loss` with 'sum' on
   * rows of matching, non-zero widths, and 0 on any other rows.
   */
  function FileHuber(delta: real): SummedLoss
  {
    (t: seq<Row>, p: seq<Row>) => if SameShape(t, p) then HuberLoss(t, p, delta, "sum").value else 0.0
  }

  lemma HuberCallWithFileHuber(w: EfficientDetHuberLoss, yTrue: seq<Row>, yPred: seq<Row>)
    requires WrapperInputs(yTrue, yPred) && w.delta > 0.0
    ensures w.Call(FileHuber, yTrue, yPred) >= 0.0
  {
    forall t: seq<Row>, p: seq<Row> ensures FileHuber(w.delta)(t, p) >= 0.0 {
      if SameShape(t, p) {
        HuberLossNonNegative(t, p, w.delta, "sum");
      }
    }
    HuberCallNonNegative(w, FileHuber, yTrue, yPred);
  }

  /** Positive anchors whose labels and prediction have the same positive width. */
  predicate PositivesWellShaped(yTrue: seq<Row>, yPred: seq<Row>)
    requires WrapperInputs(yTrue, yPred)
  {
    forall i :: 0 <= i < |yTrue| && State(yTrue[i]) == 1.0 ==> |yTrue[i]| - 1 == |yPred[i]| > 0
  }

  /** Then the rows the Huber wrapper gathers have matching, non-empty widths. */
  lemma HuberGatheredSameShape(yTrue: seq<Row>, yPred: seq<Row>)
    requires WrapperInputs(yTrue, yPred) && PositivesWellShaped(yTrue, yPred)
    ensures var idx := EfficientDetHuberLoss.KeptAnchors(yTrue);
            SameShape(GatherNd(LabelsOf(yTrue), idx), GatherNd(yPred, idx))
  {
  }

  /** A library loss that is `huber_loss` with 'sum' on rows of matching, non-empty widths. */
  ghost predicate AgreesWithHuberLoss(lib: real -> SummedLoss, delta: real)
  {
    forall t: seq<Row>, p: seq<Row> :: SameShape(t, p) ==> lib(delta)(t, p) == HuberLoss(t, p, delta, "sum").value
  }

  /** `FileHuber` is such a library loss. */
  lemma FileHuberAgreesWithHuberLoss(delta: real)
    ensures AgreesWithHuberLoss(FileHuber, delta)
  {
  }

  /**
   * On well-shaped positives, with a library loss that is `huber_loss` with
   * 'sum', the wrapper returns 50 · huber_loss(labels, preds, δ, 'sum') over
   * 4 · max(1, #positives), that is 50 · Σ (per-positive-anchor mean) over
   * 4 · max(1, #positives).
   */
  lemma HuberCallWithHuberLossValue(w: EfficientDetHuberLoss, lib: real -> SummedLoss, yTrue: seq<Row>, yPred: seq<Row>)
    requires WrapperInputs(yTrue, yPred) && PositivesWellShaped(yTrue, yPred)
    requires AgreesWithHuberLoss(lib, w.delta)
    ensures var idx := EfficientDetHuberLoss.KeptAnchors(yTrue);
            var labels := GatherNd(LabelsOf(yTrue), idx);
            var preds := GatherNd(yPred, idx);
            && SameShape(labels, preds)
            && w.Call(lib, yTrue, yPred)
               == 50.0 * (HuberLoss(labels, preds, w.delta, "sum").value / (4.0 * Max(1.0, CountTrue(PositiveMask(yTrue)) as real)))
  {
    HuberGatheredSameShape(yTrue, yPred);
    HuberCallSpec(w, lib, yTrue, yPred);
  }

  /**
   * On well-shaped positives the non-negativity of the Huber wrapper comes from
   * `huber_loss` itself (δ > 0), for any library loss that agrees with it.
   */
  lemma HuberCallWithHuberLossNonNegative(w: EfficientDetHuberLoss, lib: real -> SummedLoss, yTrue: seq<Row>, yPred: seq<Row>)
    requires WrapperInputs(yTrue, yPred) && PositivesWellShaped(yTrue, yPred) && w.delta > 0.0
    requires AgreesWithHuberLoss(lib, w.delta)
    ensures w.Call(lib, yTrue, yPred) >= 0.0
  {
    var idx := EfficientDetHuberLoss.KeptAnchors(yTrue);
    var labels := GatherNd(LabelsOf(yTrue), idx);
    var preds := GatherNd(yPred, idx);
    HuberGatheredSameShape(yTrue, yPred);
    HuberLossNonNegative(labels, preds, w.delta, "sum");
    HuberCallNonNegative(w, lib, yTrue, yPred);
  }

  /** One anchor with box target [0.1, 0.1, 0.2, 0.2] and prediction 0 has Huber mean 0.0125 at δ = 1. */
  lemma SingleAnchorHuberSum()
    ensures FileHuber(1.0)([[0.1, 0.1, 0.2, 0.2]], [[0.0, 0.0, 0.0, 0.0]]) == 0.0125
  {
    var labels: seq<Row> := [[0.1, 0.1, 0.2, 0.2]];
    var preds: seq<Row> := [[0.0, 0.0, 0.0, 0.0]];
    var h := HuberTerms(labels[0], preds[0], 1.0);
    assert h == [0.005, 0.005, 0.02, 0.02];
    assert Sum([]) == 0.0;
    SumAppend([], 0.005);
    assert [] + [0.005] == [0.005];
    SumAppend([0.005], 0.005);
    assert [0.005] + [0.005] == [0.005, 0.005];
    SumAppend([0.005, 0.005], 0.02);
    assert [0.005, 0.005] + [0.02] == [0.005, 0.005, 0.02];
    SumAppend([0.005, 0.005, 0.02], 0.02);
    assert [0.005, 0.005, 0.02] + [0.02] == h;
    assert Sum(h) == 0.05;
    var per := HuberPerAnchor(labels, preds, 1.0);
    assert per == [0.0125];
    assert Sum(per) == 0.0125;
  }

  /**
   * Ten anchors, all negative but one positive with box target
   * [0.1, 0.1, 0.2, 0.2] and prediction 0: with δ = 1 the wrapper returns
   * 50 · mean(e²/2) / (1 · 4) = 50 · 0.0125 / 4.
   */
  lemma HuberCallTenAnchorsExample(yTrue: seq<Row>, yPred: seq<Row>)
    requires |yTrue| == |yPred| == 10
    requires yTrue[3] == [0.1, 0.1, 0.2, 0.2, 1.0] && yPred[3] == [0.0, 0.0, 0.0, 0.0]
    requires forall i :: 0 <= i < 10 && i != 3 ==> yTrue[i] == [0.0, 0.0, 0.0, 0.0, 0.0]
    ensures HasStateColumn(yTrue)
    ensures DefaultHuberLoss().Call(FileHuber, yTrue, yPred) == 50.0 * (0.0125 / 4.0)
  {
    var mask := PositiveMask(yTrue);
    WhereSingle(mask, 3);
    var labels := GatherNd(LabelsOf(yTrue), [3]);
    var preds := GatherNd(yPred, [3]);
    assert yTrue[3][..4] == [0.1, 0.1, 0.2, 0.2];
    assert labels == [[0.1, 0.1, 0.2, 0.2]];
    assert preds == [[0.0, 0.0, 0.0, 0.0]];
    SingleAnchorHuberSum();
    assert Normalizer(yTrue) == 1.0;
  }
}
