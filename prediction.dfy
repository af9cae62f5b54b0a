/** Turning the head's logits into class predictions, as `MyModel.pred` and
    `MyModel.evaluate` (models/bert_model.py) do: a threshold for a one-logit
    head, the arg-max otherwise. Accuracy and macro-F1 are scikit-learn's and
    are not part of this module. */
module Prediction {
  import opened Wrappers
  import opened Errors
  import opened Seqs

  /** A one-logit head predicts class 1 at or above this score. */
  const DecisionThreshold: real := 0.5

  /** `torch.where(logits >= 0.5, 1, 0)` */
  function Threshold(scores: seq<real>): (p: seq<nat>)
    ensures |p| == |scores|
    ensures forall i :: 0 <= i < |scores| ==> p[i] <= 1
    ensures forall i :: 0 <= i < |scores| ==> (p[i] == 1 <==> scores[i] >= DecisionThreshold)
  {
    seq(|scores|, i requires 0 <= i < |scores| => if scores[i] >= DecisionThreshold then 1 else 0)
  }

  /** `k` is the first position of a largest element of `row`. */
  predicate IsFirstMax(row: seq<real>, k: nat)
  {
    && k < |row|
    && (forall j :: 0 <= j < |row| ==> row[j] <= row[k])
    && (forall j :: 0 <= j < k ==> row[j] < row[k])
  }

  /** At most one position is the first maximum. */
  lemma FirstMaxUnique(row: seq<real>, k1: nat, k2: nat)
    requires IsFirstMax(row, k1) && IsFirstMax(row, k2)
    ensures k1 == k2
  {
    assert row[k1] == row[k2];
  }

  /** `np.argmax` of one row of logits. */
  function ArgMax(row: seq<real>): (k: nat)
    requires |row| > 0
    ensures IsFirstMax(row, k)
  {
    if |row| == 1 then 0
    else
      var best := ArgMax(row[..|row| - 1]);
      if row[|row| - 1] > row[best] then |row| - 1 else best
  }

  /** Arg-max of every row; np.argmax refuses an empty row. */
  function ArgMaxRows(rows: seq<seq<real>>): (r: Result<seq<nat>, Error>)
    ensures r.Ok? <==> forall i :: 0 <= i < |rows| ==> |rows[i]| > 0
    ensures r.Err? ==> r.error == EmptyLogits
    ensures r.Ok? ==> |r.value| == |rows| && forall i :: 0 <= i < |rows| ==> IsFirstMax(rows[i], r.value[i])
  {
    if forall i :: 0 <= i < |rows| ==> |rows[i]| > 0 then
      Ok(seq(|rows|, i requires 0 <= i < |rows| && |rows[i]| > 0 => ArgMax(rows[i])))
    else
      Err(EmptyLogits)
  }

  /** The predictions for one batch, from the head width (`None` without a
      head) and the linear head's logits [batch][width]. A one-logit head's
      logits are first flattened, as `forward` does. */
  function PredictBatch(head: Option<nat>, logits: seq<seq<real>>): (r: Result<seq<nat>, Error>)
    ensures r == Err(MissingHead) <==> head.None?
    ensures head == Some(1) ==> r.Ok? && |r.value| == TotalLength(logits)
    ensures head.Some? && head.value != 1 ==> r == ArgMaxRows(logits)
  {
    match head
    case None => Err(MissingHead)
    case Some(width) =>
      if width == 1 then Ok(Threshold(Flatten(logits))) else ArgMaxRows(logits)
  }

  /** With a head of width `w > 0` that gives `w` logits per example, there is
      one prediction per example: for `w == 1` the thresholded logit, a class
      in `{0, 1}`; otherwise the first maximal logit's index, a class in
      `[0, w)`. */
  lemma OnePredictionPerExample(w: nat, logits: seq<seq<real>>)
    requires w > 0
    requires forall i :: 0 <= i < |logits| ==> |logits[i]| == w
    ensures var r := PredictBatch(Some(w), logits);
      && r.Ok?
      && |r.value| == |logits|
      && (forall i :: 0 <= i < |logits| ==> r.value[i] < if w == 1 then 2 else w)
      && (w == 1 ==> forall i :: 0 <= i < |logits| ==> (r.value[i] == 1 <==> logits[i][0] >= DecisionThreshold))
      && (w > 1 ==> forall i :: 0 <= i < |logits| ==> IsFirstMax(logits[i], r.value[i]))
  {
    if w == 1 {
      FlattenUnitRows(logits);
    }
  }

  /** Every batch decodes without error. */
  predicate AllDecode(head: Option<nat>, batches: seq<seq<seq<real>>>)
  {
    forall b :: 0 <= b < |batches| ==> PredictBatch(head, batches[b]).Ok?
  }

  /** The per-batch predictions, when every batch decodes. */
  function Decoded(head: Option<nat>, batches: seq<seq<seq<real>>>): seq<seq<nat>>
    requires AllDecode(head, batches)
  {
    seq(|batches|, b requires 0 <= b < |batches| => PredictBatch(head, batches[b]).value)
  }

  /** The loop shared by `pred` and `evaluate`: decode batch after batch,
      appending each batch's predictions, stopping at the first error. */
  method DecodeBatches(head: Option<nat>, batches: seq<seq<seq<real>>>) returns (r: Result<seq<seq<nat>>, Error>)
    ensures r.Ok? <==> AllDecode(head, batches)
    ensures r.Ok? ==> r.value == Decoded(head, batches)
    ensures r.Err? ==> exists b :: 0 <= b < |batches| && PredictBatch(head, batches[b]) == Err(r.error)
  {
    var pred: seq<seq<nat>> := [];
    var b := 0;
    while b < |batches|
      invariant 0 <= b <= |batches|
      invariant AllDecode(head, batches[..b])
      invariant pred == Decoded(head, batches[..b])
    {
      var p := PredictBatch(head, batches[b]);
      if p.Err? {
        return Err(p.error);
      }
      pred := pred + [p.value];
      b := b + 1;
    }
    assert batches[..b] == batches;
    r := Ok(pred);
  }

  /** What `pred` returns in `predict` mode: the list of per-batch
      predictions, or their concatenation. */
  datatype Predictions = PerBatch(batches: seq<seq<nat>>) | Concatenated(labels: seq<nat>)

  /** `MyModel.pred` with `post_op='predict'`. Concatenating an empty list
      fails in numpy. */
  method Pred(head: Option<nat>, batches: seq<seq<seq<real>>>, cat: bool) returns (r: Result<Predictions, Error>)
    ensures AllDecode(head, batches) && !cat ==> r == Ok(PerBatch(Decoded(head, batches)))
    ensures AllDecode(head, batches) && cat && |batches| == 0 ==> r == Err(NothingToConcatenate)
    ensures AllDecode(head, batches) && cat && |batches| > 0 ==> r == Ok(Concatenated(Flatten(Decoded(head, batches))))
    ensures !AllDecode(head, batches) ==> r.Err? && exists b :: 0 <= b < |batches| && PredictBatch(head, batches[b]) == Err(r.error)
  {
    var decoded := DecodeBatches(head, batches);
    if decoded.Err? {
      return Err(decoded.error);
    }
    if !cat {
      return Ok(PerBatch(decoded.value));
    }
    if |decoded.value| == 0 {
      return Err(NothingToConcatenate);
    }
    r := Ok(Concatenated(Flatten(decoded.value)));
  }

  /** One batch of a labelled loader: the head's logits and the true labels. */
  datatype EvalBatch<L> = EvalBatch(logits: seq<seq<real>>, labels: seq<L>)

  function LogitsOf<L>(batches: seq<EvalBatch<L>>): (r: seq<seq<seq<real>>>)
    ensures |r| == |batches| && forall b :: 0 <= b < |batches| ==> r[b] == batches[b].logits
  {
    seq(|batches|, b requires 0 <= b < |batches| => batches[b].logits)
  }

  function LabelsOf<L>(batches: seq<EvalBatch<L>>): (r: seq<seq<L>>)
    ensures |r| == |batches| && forall b :: 0 <= b < |batches| ==> r[b] == batches[b].labels
  {
    seq(|batches|, b requires 0 <= b < |batches| => batches[b].labels)
  }

  /** `MyModel.evaluate` up to the metrics: the concatenated predictions and
      the concatenated true labels that go to accuracy and macro-F1. */
  method Evaluate<L>(head: Option<nat>, batches: seq<EvalBatch<L>>) returns (r: Result<(seq<nat>, seq<L>), Error>)
    ensures !AllDecode(head, LogitsOf(batches)) ==>
      r.Err? && exists b :: 0 <= b < |batches| && PredictBatch(head, batches[b].logits) == Err(r.error)
    ensures AllDecode(head, LogitsOf(batches)) && |batches| == 0 ==> r == Err(NothingToConcatenate)
    ensures AllDecode(head, LogitsOf(batches)) && |batches| > 0 ==>
      r == Ok((Flatten(Decoded(head, LogitsOf(batches))), Flatten(LabelsOf(batches))))
  {
    var decoded := DecodeBatches(head, LogitsOf(batches));
    if decoded.Err? {
      return Err(decoded.error);
    }
    if |batches| == 0 {
      return Err(NothingToConcatenate);
    }
    r := Ok((Flatten(decoded.value), Flatten(LabelsOf(batches))));
  }

  /** When every batch carries one row of `w` logits per label, `evaluate`
      compares equally many predictions and labels, each prediction a class
      in `[0, w)`. */
  lemma EvaluateAligned<L>(w: nat, batches: seq<EvalBatch<L>>)
    requires w > 0
    requires forall b :: 0 <= b < |batches| ==> |batches[b].logits| == |batches[b].labels|
    requires forall b, i :: 0 <= b < |batches| && 0 <= i < |batches[b].logits| ==> |batches[b].logits[i]| == w
    ensures AllDecode(Some(w), LogitsOf(batches))
    ensures |Flatten(Decoded(Some(w), LogitsOf(batches)))| == |Flatten(LabelsOf(batches))|
  {
    var logits := LogitsOf(batches);
    forall b | 0 <= b < |batches|
      ensures PredictBatch(Some(w), logits[b]).Ok?
      ensures |PredictBatch(Some(w), logits[b]).value| == |batches[b].labels|
    {
      OnePredictionPerExample(w, logits[b]);
    }
    TotalLengthAligned(Decoded(Some(w), logits), LabelsOf(batches));
  }
}
