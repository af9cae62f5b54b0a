# A Dafny model of the BERT fine-tuning wrapper

This project models the discrete logic of `models/bert_model.py`, a thin
wrapper around a pretrained BERT encoder for triplet (embedding) training
and for binary or multi-class classification. It covers the following:

- the sequence preprocessor of `MyModel.preprocess`. `pad_sequences` cuts
  or pads token ids to `max_len`, the attention mask is derived from the
  padded ids, and the label kind is chosen from the head width;
- the head-width rule of `MyBert.__init__` and the `post_op` dispatch of
  `MyBert.forward`;
- prediction decoding in `pred` and `evaluate`: a threshold for a
  one-logit head, the arg-max otherwise;
- the decay / no-decay parameter grouping of `setup_optimizer`, and the
  optimizer and scheduler fields that this call replaces on the `MyModel`
  object;
- the anchor, positive and negative lists of `triplet_train_collection`;
- the epoch loops of `triplet_train`, driven by `zip`, and of
  `supervised_train`.

The encoder, the tokenizer, the linear head, mean pooling, the losses and
the metrics are numerics of torch, transformers and scikit-learn. Their
results enter the model as parameters: the encoder output (`Bert.Encoded`),
the head's `logits`, and the functions `loss` and `metrics`.

Modules: `Wrappers` and `Errors` (wrappers.dfy), `Seqs` (seqs.dfy),
`Preprocessing`, `Bert`, `Prediction`, `Optimization`, `Training` and
`Pipeline`, each in the file of the same name in lower case.

In these places the code behaves as follows, and the model follows it:
- An over-long input keeps its first `max_len` ids. The trailing ids are
  dropped, not the leading ones.
- An invalid `post_op` produces no result; it does not raise.
  `Bert.Forward` returns `Err(InvalidPostOp)` for it.
- Mean pooling has no guard against a mask that sums to zero.

## Model

| member | source | states |
|---|---|---|
| `Preprocessing.PadRow` | models/bert_model.py:272-277 | the row has exactly `maxLen` ids; it agrees with the input on the first `min(len, maxLen)` positions and holds padding id 0 on every position past the input |
| `Preprocessing.PadRowIdempotent` | models/bert_model.py:276-277 | an input of exactly `maxLen` ids is returned unchanged, so padding an already padded row changes nothing |
| `Preprocessing.PadSequences` | models/bert_model.py:269-278 | the loop returns one row per input, in input order, and row `i` is the padded form of input `i` |
| `Preprocessing.RowMask` | models/bert_model.py:243 | the mask row has the length of the id row, and entry `j` is 1 iff id `j` is `> 0`, else 0 |
| `Preprocessing.AttentionMasks` | models/bert_model.py:241-244 | the loop gives one mask row per id row, of the same length, with `mask[i][j] = 1` iff `ids[i][j] > 0` |
| `Preprocessing.MaskOfPaddedRow` | models/bert_model.py:240-244 | for an input of positive ids, the mask of its padded row is 1 exactly on the first `len` positions and 0 on the padding, so it counts `min(len, maxLen)` ones |
| `Preprocessing.MakeLabels` | models/bert_model.py:232-238 | no labels give one placeholder per text; labels without a head fail; otherwise there is one label per given label, float (with the same values) iff the head width is 1, and the integer classes unchanged otherwise |
| `Preprocessing.Preprocess` | models/bert_model.py:231-247 | fails for labels without a head and for a label count different from the text count; otherwise ids and masks both have one row of `maxLen` entries per text, the ids are the padded inputs, the masks are derived from the ids, and the labels are those of `MakeLabels` |
| `Bert.HeadWidth` | models/bert_model.py:19-22 | a head exists iff `num_classes` is given; two classes become a single logit; a width of 2 is never built; any other count is kept |
| `Bert.Criterion` | models/bert_model.py:112-115 | binary cross-entropy with logits iff the head width is 1, else cross-entropy |
| `Bert.ParsePostOp` | models/bert_model.py:30-46 | a recognised mode is exactly the one whose spelling was passed; an unrecognised value spells no mode |
| `Bert.FirstTokens` | models/bert_model.py:34-35 | succeeds iff every example has a position 0; then it gives one vector per example, that example's position-0 hidden state |
| `Bert.Forward` | models/bert_model.py:26-46 | no result iff the mode is none of the five; `None` gives the hidden states unchanged; `default` gives the pooled vectors; `mean` pools these states under this mask; `cls` gives position 0 of every example, and fails with EmptySequence when some example has none; `predict` fails without a head, gives scores iff the head width is 1, and gives the raw logits for a wider head |
| `Bert.PredictOnWidthOneHead` | models/bert_model.py:38-43 | on a one-logit head, `predict` returns one score per example, namely that example's logit |
| `Prediction.Threshold` | models/bert_model.py:154 | one prediction per score, each 0 or 1, and 1 iff the score is `>= 0.5` (inclusive) |
| `Prediction.ArgMax` | models/bert_model.py:156 | the index of a largest logit of the row, the first such index |
| `Prediction.FirstMaxUnique` | models/bert_model.py:179 | the first maximal index of a row is unique, so the arg-max prediction is determined by the logits |
| `Prediction.ArgMaxRows` | models/bert_model.py:179 | succeeds iff no row is empty; then it gives one first-maximal index per row |
| `Prediction.PredictBatch` | models/bert_model.py:152-156 | fails iff there is no head; a one-logit head gives one prediction per logit; a wider head gives the per-row arg-max |
| `Prediction.OnePredictionPerExample` | models/bert_model.py:176-179 | with `w` logits per example there is one prediction per example: for `w = 1` it is 1 iff the logit is `>= 0.5`, and otherwise it is the first maximal class, in `[0, w)` |
| `Prediction.DecodeBatches` | models/bert_model.py:147-157 | succeeds iff every batch decodes, and then gives each batch's predictions in batch order; a failure is the error of some batch |
| `Prediction.Pred` | models/bert_model.py:143-164 | in `predict` mode it returns the per-batch predictions, or (with `cat`) their concatenation, which fails when there are no batches |
| `Prediction.Evaluate` | models/bert_model.py:166-185 | returns the concatenated predictions and the concatenated true labels; it fails on an empty loader or when some batch cannot be decoded |
| `Prediction.EvaluateAligned` | models/bert_model.py:171-184 | when each batch has one row of `w` logits per label, every batch decodes and the predictions and labels compared have equal length |
| `Optimization.NoDecayIff` | models/bert_model.py:215-219 | a name is in the no-decay group iff "bias" or "LayerNorm.weight" occurs in it at some position |
| `Optimization.GroupParameters` | models/bert_model.py:214-220 | two groups: the first carries `weight_decay_rate` 0.01, the second 0.0; together they hold as many parameters as there are named parameters |
| `Optimization.SelectSplits` | models/bert_model.py:216-220 | the two groups' sizes add up to the number of named parameters |
| `Optimization.SelectPartition` | models/bert_model.py:216-220 | the two groups together are exactly the named parameters, counted with multiplicity, so each lands in exactly one group |
| `Optimization.SelectMember` | models/bert_model.py:217-219 | a parameter is in a group iff some named parameter carries it under a name whose no-decay test selects that group |
| `Optimization.SelectKeepsOrder` | models/bert_model.py:217-219 | each group is a subsequence of the parameter list, so the order of `named_parameters` is kept |
| `Training.EvenPrefix` | models/bert_model.py:189-190 | an odd-length collection loses its last element; the result is an even-length prefix |
| `Training.TripletLists` | models/bert_model.py:189-200 | anchor, pos and neg have equal, even length (the collection trimmed to even); neg is pos reversed; with `headline_emb` the anchors are texts and the positives titles, and without it the other way round |
| `Training.PositivesFromNegatives` | models/bert_model.py:194-200 | reversing the negatives gives back the positives, so every positive also serves as a negative exactly once |
| `Training.NegativeFromAnotherArticle` | models/bert_model.py:189-200 | the negative paired with anchor `i` is taken from article `n-1-i`, which is never article `i` |
| `Training.Step` | models/bert_model.py:77-96 | a step goes through iff `forward` succeeds on the anchor, positive and negative batch and no missing scheduler is stepped; the first failing pass, in the order anchor, positive, negative, gives its own error; any error is a forward pass's or the missing scheduler's; an invalid `post_op` always fails with InvalidPostOp and `predict` without a head with MissingHead |
| `Training.TripletEpoch` | models/bert_model.py:76-98 | one epoch succeeds iff all `min(len(anchor), len(pos), len(neg))` zipped steps go through; then it takes exactly that many steps and `tr_loss` is the sum of their losses; otherwise the error is that of the first failing step |
| `Training.TripletEpochs` | models/bert_model.py:72-100 | no epochs give no losses; with epochs it succeeds iff there is at least one step and every step goes through; then there is one mean loss per epoch; an epoch with no steps fails at the division; an invalid `post_op`, `predict` without a head, and a missing scheduler under warmup each fail with their own error; any other error is that of the first failing step |
| `Training.SupervisedEpochs` | models/bert_model.py:119-140 | without batches the division fails; otherwise one loss per batch per epoch, in order, and one accuracy and macro-F1 per epoch; a run that goes through had every evaluation succeed, so a failing evaluation fails the run, with the error of some epoch's evaluation |
| `Training.Trainer.constructor` | models/bert_model.py:62-65 | a new `MyModel` after its first `fresh_load` has the head width of `HeadWidth(num_classes)` and no optimizer or scheduler |
| `Training.Trainer.Preprocess` | models/bert_model.py:231-247 | `preprocess` with this model's head and `max_len`: it fails for labels without a head and for a label count different from the text count; otherwise every text gives an id row padded to this model's `max_len` and the mask derived from it, and the labels are those of `MakeLabels` for this model's head: float iff its width is 1 |
| `Training.Trainer.SetupOptimizer` | models/bert_model.py:213-226 | always installs a fresh optimizer over the two groups; with warmup it installs a fresh scheduler for that optimizer over `batches * epochs` steps, and fails (with the optimizer already replaced) when either is missing; without warmup the old scheduler stays |
| `Training.Trainer.TripletTrain` | models/bert_model.py:67-103 | installs a fresh optimizer and keeps the old scheduler; a run that goes through returns nothing (`None`), and its per-epoch means are only logged (`logged`, one per epoch); with warmup and no earlier scheduler it fails at the first step; an epoch with no steps, an invalid `post_op` and `predict` without a head fail, and then nothing is logged |
| `Training.Trainer.TripletTrainScheduled` | models/bert_model.py:67-103 | with warmup, the scheduler stepped is fresh, drives this run's optimizer, and spans exactly the steps taken; a run that goes through returns its `losses`, one mean loss per epoch; it fails on no steps, an invalid `post_op` and `predict` without a head |
| `Training.Trainer.SupervisedTrain` | models/bert_model.py:105-141 | the optimizer is set up with warmup over `len(train) * epochs` steps; fails without a head; returns the per-batch losses under the head's criterion and empty accuracy and macro-F1 lists; a failing evaluation fails the run |
| `Training.Trainer.SupervisedTrainReported` | models/bert_model.py:105-141 | same as `SupervisedTrain`, but returns one accuracy and one macro-F1 per epoch; a failing evaluation fails the run |
| `Pipeline.LabelsMatchCriterion` | models/bert_model.py:231-238 | the labels are floats exactly when the loss is binary cross-entropy, for every head width |
| `Pipeline.BinaryClassifier` | models/bert_model.py:19-22 | a two-class model has one logit, float labels, the binary loss, and one prediction in {0, 1} per example, 1 iff the logit is `>= 0.5` |
| `Pipeline.MultiClassClassifier` | models/bert_model.py:176-179 | a model with `k > 2` classes has `k` logits, integer labels, cross-entropy, and one first-maximal class in `[0, k)` per example |

## Left out

- The BERT encoder, `BertTokenizer.encode` and `MyBert.from_pretrained` are calls into transformers. The encoder output (`Bert.Encoded`) and the token ids are inputs.
- Dropout and the linear head are torch layers. Their logits are an input of `Bert.Forward` and `Prediction.PredictBatch`.
- `mean_pool` is floating-point tensor arithmetic. `Bert.Forward` returns `MeanPooled(states, mask)`, which records what would be pooled. The missing zero guard on `sum_mask` is therefore not modelled.
- Loss values (`TripletMarginLoss`, `BCEWithLogitsLoss`, `CrossEntropyLoss`) are a function parameter `loss`. In `triplet_train` it receives the three forward outputs of a step.
  - The model does not capture that a step's loss depends on the weights changed by earlier steps. For the same reason, each triplet batch carries one fixed encoder output and one fixed set of logits (`Training.Batch`) in every epoch.
  - `criterion` rejecting outputs of mismatched shape, for example `post_op=None` hidden states, is not modelled.
- AdamW, `get_linear_schedule_with_warmup`, gradient steps and `train()`/`eval()` are library algorithms and autograd state. An optimizer and a scheduler are recorded as what they were built from.
- `accuracy_score` and `f1_score` come from scikit-learn. The outcome of each epoch's `evaluate` is a function parameter `metrics`.
- `DataLoader`/`TensorDataset` batching is library code.
  - `Preprocessing.Preprocess` stops at the dataset.
  - Training and prediction take their batches as sequences.
  - For the same reason, the `preprocess`/`train` calls that follow list construction in `triplet_train_collection` and `supervised_train_data` are not modelled.
- Reloading a `MyModel` that has already trained (`fresh_load` at lines 62-65 or `from_pretrained` at lines 261-265) replaces only `self.model` and keeps the old optimizer and scheduler. The model only has a new object followed by its first `fresh_load` (`Training.Trainer.constructor`), so a later `triplet_train(warmup=True)` after such a reload, which steps the stale scheduler, is not modelled.
- `save`, `load`, `log` (file append and print) and CUDA device placement are I/O and device plumbing. The per-epoch means `triplet_train` logs at line 100 are returned as `logged` by `Training.Trainer.TripletTrain`; no other logged value is modelled.
- Whether AdamW reads the `weight_decay_rate` key of a parameter group is a property of transformers. The model only records the key's value.
- `pred` in a mode other than `predict` returns the forward outputs of each batch. Those outputs are `Bert.Forward`; numpy's concatenation of such tensors is not modelled.
- The mask's 1.0 and 0.0 are written as the integers 1 and 0. Labels are integer classes, and `.float()` is `as real`. The int64 conversion of token ids is not modelled, since vocabulary ids are small.
- `max_len` is a `nat`. Python's slicing with a negative `max_len` is not modelled.
- `post_op` is an optional string. `warmup` and `headline_emb` are booleans. Non-boolean values, for which neither branch of `setup_optimizer` or `triplet_train_collection` runs, are not modelled.
- Training.Trainer.TripletTrainScheduled: the batch count for the schedule is chosen as the steps per epoch (the shortest stream). The source builds no schedule there at all.
- Prediction.DecodeBatches: on failure it states that some batch fails with the returned error. It does not state that this is the first such batch.
- Prediction.Pred: on failure it states only that some batch fails with the returned error.
- Prediction.Evaluate: on failure it states only that some batch fails with the returned error.
- Training.SupervisedEpochs: on failure it states only that some epoch's evaluation failed with the returned error.
- Training.Trainer.SupervisedTrain: on failure it states only that some epoch's evaluation failed with the returned error.
- Training.Trainer.SupervisedTrainReported: on failure it states only that some epoch's evaluation failed with the returned error.

## Findings

| source | as written | input that shows it | evidently intended | confidence | as-written member | corrected member |
|---|---|---|---|---|---|---|
| models/bert_model.py:68 | `triplet_train` calls `setup_optimizer(lr=lr)` without passing `warmup`, yet with `warmup=True` it steps `self.scheduler` (lines 95-96) | `warmup=True` on a new `MyModel` raises AttributeError at the first step (`Training.MissingSchedulerExample`). After a supervised run with warmup, it steps the old scheduler, which is bound to the replaced optimizer (`Training.StaleSchedulerExample`) | build the warmup schedule for the new optimizer | high; not executed | `Training.Trainer.TripletTrain` | `Training.Trainer.TripletTrainScheduled` |
| models/bert_model.py:117-118 | `supervised_train` computes accuracy and macro-F1 every epoch (line 139), but never appends them to the `accuracy` and `macro_f1` lists it returns | `epochs=2` returns two empty lists (`Training.UnreportedMetricsExample`) | one accuracy and one macro-F1 per epoch | high; not executed | `Training.Trainer.SupervisedTrain` | `Training.Trainer.SupervisedTrainReported` |
| models/bert_model.py:72 | `triplet_train` builds a `losses` list with one mean loss per epoch (lines 72 and 99), but has no `return` statement, so it returns `None` and the list is lost | any run that goes through, for example two epochs over one-batch loaders, returns `None`; the two means are only logged (`Training.DiscardedLossesExample`) | return `losses`, as `supervised_train` returns its lists | high; not executed | `Training.Trainer.TripletTrain` | `Training.Trainer.TripletTrainScheduled` |
