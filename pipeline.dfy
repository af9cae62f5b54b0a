/** Properties that hold across the preprocessor, the head and the decoder
    of models/bert_model.py: the head width decides, in agreement, the label
    kind, the loss and the way predictions are decoded. */
module Pipeline {
  import opened Wrappers
  import opened Preprocessing
  import opened Bert
  import opened Prediction

  /** For every head, labels are floats exactly when the loss is binary
      cross-entropy, so the two dtype decisions never disagree. */
  lemma LabelsMatchCriterion(y: seq<int>, width: nat, texts: nat)
    ensures MakeLabels(Some(y), Some(width), texts).Ok?
    ensures MakeLabels(Some(y), Some(width), texts).value.FloatLabels? <==> Criterion(width) == BCEWithLogits
  {
  }

  /** A two-class model gets one logit, float labels, the binary loss, and
      one thresholded prediction in {0, 1} per example. */
  lemma BinaryClassifier(y: seq<int>, texts: nat, logits: seq<seq<real>>)
    requires forall i :: 0 <= i < |logits| ==> |logits[i]| == 1
    ensures var head := HeadWidth(Some(2));
      && head == Some(1)
      && MakeLabels(Some(y), head, texts).Ok? && MakeLabels(Some(y), head, texts).value.FloatLabels?
      && Criterion(head.value) == BCEWithLogits
      && PredictBatch(head, logits).Ok?
      && |PredictBatch(head, logits).value| == |logits|
      && forall i :: 0 <= i < |logits| ==>
           && PredictBatch(head, logits).value[i] <= 1
           && (PredictBatch(head, logits).value[i] == 1 <==> logits[i][0] >= DecisionThreshold)
  {
    OnePredictionPerExample(1, logits);
  }

  /** A model with `k > 2` classes gets `k` logits, integer labels, the
      categorical loss, and one arg-max class in `[0, k)` per example. */
  lemma MultiClassClassifier(k: nat, y: seq<int>, texts: nat, logits: seq<seq<real>>)
    requires k > 2
    requires forall i :: 0 <= i < |logits| ==> |logits[i]| == k
    ensures var head := HeadWidth(Some(k));
      && head == Some(k)
      && MakeLabels(Some(y), head, texts) == Ok(LongLabels(y))
      && Criterion(k) == CrossEntropy
      && PredictBatch(head, logits).Ok?
      && |PredictBatch(head, logits).value| == |logits|
      && forall i :: 0 <= i < |logits| ==>
           && PredictBatch(head, logits).value[i] < k
           && IsFirstMax(logits[i], PredictBatch(head, logits).value[i])
  {
    OnePredictionPerExample(k, logits);
  }
}
