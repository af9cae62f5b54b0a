/** `MyBert` (models/bert_model.py): the width of the classification head and
    the `post_op` dispatch of `forward`. The encoder, the dropout layer, the
    linear head and mean pooling are calls into torch and transformers: their
    results come in as values (`Encoded`, `logits`) or, for mean pooling, as
    a record of what would be pooled. */
module Bert {
  import opened Wrappers
  import opened Errors
  import opened Seqs

  /** Output width of the head `MyBert.__init__` builds for `num_classes`:
      none without `num_classes`, a single logit for two classes, otherwise
      one logit per class. */
  function HeadWidth(numClasses: Option<nat>): (width: Option<nat>)
    ensures width.None? <==> numClasses.None?
    ensures width != Some(2)
    ensures width == Some(1) <==> numClasses == Some(1) || numClasses == Some(2)
    ensures numClasses.Some? && numClasses.value != 2 ==> width == numClasses
  {
    match numClasses
    case None => None
    case Some(k) => if k == 2 then Some(1) else Some(k)
  }

  /** The loss `supervised_train` picks from the head width. */
  datatype Loss = BCEWithLogits | CrossEntropy

  function Criterion(width: nat): (loss: Loss)
    ensures loss == BCEWithLogits <==> width == 1
  {
    if width == 1 then BCEWithLogits else CrossEntropy
  }

  /** The five values of `post_op` that `forward` understands; `NoPostOp`
      is Python's `None`. */
  datatype PostOp = Mean | Default | Cls | NoPostOp | Predict

  /** How each mode is spelled at the Python call site. */
  function Spelling(op: PostOp): Option<string>
  {
    match op
    case Mean => Some("mean")
    case Default => Some("default")
    case Cls => Some("cls")
    case NoPostOp => None
    case Predict => Some("predict")
  }

  /** The comparison chain of `forward`, read as a parser: it recognises
      exactly the five spellings. */
  function ParsePostOp(postOp: Option<string>): (r: Option<PostOp>)
    ensures r.Some? ==> Spelling(r.value) == postOp
    ensures r.None? ==> forall op :: Spelling(op) != postOp
  {
    match postOp
    case None => Some(NoPostOp)
    case Some(s) =>
      if s == "mean" then Some(Mean)
      else if s == "default" then Some(Default)
      else if s == "cls" then Some(Cls)
      else if s == "predict" then Some(Predict)
      else None
  }

  /** A hidden vector of the encoder. */
  type Vec = seq<real>

  /** What the encoder returns for a batch: per-token hidden states
      [batch][position] and the pooled vector [batch]. */
  datatype Encoded = Encoded(lastHidden: seq<seq<Vec>>, pooled: seq<Vec>)

  /** What `forward` returns. */
  datatype Output =
    | Hidden(states: seq<seq<Vec>>)                        // post_op=None
    | Pooled(vectors: seq<Vec>)                            // 'default' and 'cls'
    | MeanPooled(states: seq<seq<Vec>>, mask: seq<seq<int>>) // mean_pool of these two
    | Scores(scores: seq<real>)                            // 'predict', one-logit head
    | Logits(rows: seq<seq<real>>)                         // 'predict', wider head

  /** Position 0 of every example: `last_hidden_states[:, 0, :]`. */
  function FirstTokens(states: seq<seq<Vec>>): (r: Result<seq<Vec>, Error>)
    ensures r.Ok? <==> forall i :: 0 <= i < |states| ==> |states[i]| > 0
    ensures r.Err? ==> r.error == EmptySequence
    ensures r.Ok? ==> |r.value| == |states| && forall i :: 0 <= i < |states| ==> r.value[i] == states[i][0]
  {
    if forall i :: 0 <= i < |states| ==> |states[i]| > 0 then
      Ok(seq(|states|, i requires 0 <= i < |states| => states[i][0]))
    else
      Err(EmptySequence)
  }

  /** `MyBert.forward` after the encoder has run: `enc` is the encoder's
      output, `mask` the attention mask, `head` the head width and `logits`
      what the (dropout and) linear head produce from the pooled vectors. */
  function Forward(postOp: Option<string>, enc: Encoded, mask: seq<seq<int>>, head: Option<nat>,
                   logits: seq<seq<real>>): (r: Result<Output, Error>)
    ensures r == Err(InvalidPostOp) <==> ParsePostOp(postOp).None?
    ensures postOp.None? ==> r == Ok(Hidden(enc.lastHidden))
    ensures postOp == Some("default") ==> r == Ok(Pooled(enc.pooled))
    ensures postOp == Some("mean") ==> r == Ok(MeanPooled(enc.lastHidden, mask))
    ensures postOp == Some("cls") ==>
      && (r.Ok? <==> forall i :: 0 <= i < |enc.lastHidden| ==> |enc.lastHidden[i]| > 0)
      && (r.Ok? ==> r.value.Pooled? && |r.value.vectors| == |enc.lastHidden|)
      && (r.Ok? ==> forall i :: 0 <= i < |enc.lastHidden| ==> r.value.vectors[i] == enc.lastHidden[i][0])
      && (r.Err? ==> r.error == EmptySequence)
    ensures postOp == Some("predict") ==>
      && (r == Err(MissingHead) <==> head.None?)
      && (head.Some? ==> r.Ok? && (r.value.Scores? <==> head.value == 1))
      && (head.Some? && head.value != 1 ==> r == Ok(Logits(logits)))
  {
    match ParsePostOp(postOp)
    case None => Err(InvalidPostOp)
    case Some(op) =>
      match op
      case Mean => Ok(MeanPooled(enc.lastHidden, mask))
      case Default => Ok(Pooled(enc.pooled))
      case Cls =>
        (match FirstTokens(enc.lastHidden)
         case Ok(vectors) => Ok(Pooled(vectors))
         case Err(e) => Err(e))
      case NoPostOp => Ok(Hidden(enc.lastHidden))
      case Predict =>
        match head
        case None => Err(MissingHead)
        case Some(width) =>
          if width == 1 then Ok(Scores(Flatten(logits))) else Ok(Logits(logits))
  }

  /** On a one-logit head, `predict` gives one score per example: the
      example's single logit. */
  lemma PredictOnWidthOneHead(enc: Encoded, mask: seq<seq<int>>, logits: seq<seq<real>>)
    requires forall i :: 0 <= i < |logits| ==> |logits[i]| == 1
    ensures var r := Forward(Some("predict"), enc, mask, Some(1), logits);
      && r.Ok? && r.value.Scores?
      && |r.value.scores| == |logits|
      && forall i :: 0 <= i < |logits| ==> r.value.scores[i] == logits[i][0]
  {
    FlattenUnitRows(logits);
  }
}
