/** The sequence preprocessor of `MyModel.preprocess` (models/bert_model.py):
    padding and truncation of token ids, the attention mask derived from the
    padded ids, and the choice of label kind. Tokenization is a call into the
    tokenizer library, so the token ids arrive here already computed. */
module Preprocessing {
  import opened Wrappers
  import opened Errors

  /** The id used for padding; the mask treats every id `<= PadId` as padding. */
  const PadId: int := 0

  function Zeros(n: nat): (r: seq<int>)
    ensures |r| == n && forall j :: 0 <= j < n ==> r[j] == PadId
  {
    seq(n, _ => PadId)
  }

  /** One row of `pad_sequences`: too long is cut to its first `maxLen` ids,
      too short is right-padded with zeros, exactly `maxLen` is kept. */
  function PadRow(item: seq<int>, maxLen: nat): (r: seq<int>)
    ensures |r| == maxLen
    ensures forall j :: 0 <= j < |item| && j < maxLen ==> r[j] == item[j]
    ensures forall j :: |item| <= j < maxLen ==> r[j] == PadId
  {
    if |item| > maxLen then item[..maxLen]
    else if |item| < maxLen then item + Zeros(maxLen - |item|)
    else item
  }

  /** A row of length `maxLen` is a fixed point, so padding twice pads once. */
  lemma PadRowIdempotent(item: seq<int>, maxLen: nat)
    ensures PadRow(PadRow(item, maxLen), maxLen) == PadRow(item, maxLen)
    ensures |item| == maxLen ==> PadRow(item, maxLen) == item
  {
  }

  /** `pad_sequences`: one padded row per input, in input order. */
  method PadSequences(inputs: seq<seq<int>>, maxLen: nat) returns (padded: seq<seq<int>>)
    ensures |padded| == |inputs|
    ensures forall i :: 0 <= i < |inputs| ==> padded[i] == PadRow(inputs[i], maxLen)
  {
    padded := [];
    for i := 0 to |inputs|
      invariant |padded| == i
      invariant forall k :: 0 <= k < i ==> padded[k] == PadRow(inputs[k], maxLen)
    {
      var item := inputs[i];
      if |item| > maxLen {
        padded := padded + [item[..maxLen]];
      } else if |item| < maxLen {
        padded := padded + [item + Zeros(maxLen - |item|)];
      } else {
        padded := padded + [item];
      }
    }
  }

  /** `[float(i > 0) for i in seq]`, with 1.0 and 0.0 written 1 and 0. */
  function RowMask(row: seq<int>): (m: seq<int>)
    ensures |m| == |row|
    ensures forall j :: 0 <= j < |row| ==> (m[j] == 1 <==> row[j] > PadId) && (m[j] == 0 <==> row[j] <= PadId)
  {
    seq(|row|, j requires 0 <= j < |row| => if row[j] > PadId then 1 else 0)
  }

  /** The loop building `attention_masks`: one mask row per id row. */
  method AttentionMasks(ids: seq<seq<int>>) returns (masks: seq<seq<int>>)
    ensures |masks| == |ids|
    ensures forall i :: 0 <= i < |ids| ==> |masks[i]| == |ids[i]|
    ensures forall i, j :: 0 <= i < |ids| && 0 <= j < |ids[i]| ==> (masks[i][j] == 1 <==> ids[i][j] > PadId)
    ensures forall i :: 0 <= i < |ids| ==> masks[i] == RowMask(ids[i])
  {
    masks := [];
    var i := 0;
    while i < |ids|
      invariant 0 <= i <= |ids|
      invariant |masks| == i
      invariant forall k :: 0 <= k < i ==> masks[k] == RowMask(ids[k])
    {
      masks := masks + [RowMask(ids[i])];
      i := i + 1;
    }
  }

  /** Number of ones in a mask row. */
  function CountOnes(m: seq<int>): nat
  {
    if m == [] then 0 else (if m[0] == 1 then 1 else 0) + CountOnes(m[1..])
  }

  lemma {:induction false} CountOnesAppend(a: seq<int>, b: seq<int>)
    ensures CountOnes(a + b) == CountOnes(a) + CountOnes(b)
  {
    if a == [] {
      assert a + b == b;
    } else {
      assert (a + b)[1..] == a[1..] + b;
      CountOnesAppend(a[1..], b);
    }
  }

  /** A mask row of `n` ones has `n` ones; one of zeros has none. */
  lemma {:induction false} CountOnesUniform(m: seq<int>, v: int)
    requires v == 0 || v == 1
    requires forall j :: 0 <= j < |m| ==> m[j] == v
    ensures CountOnes(m) == if v == 1 then |m| else 0
  {
    if m != [] {
      CountOnesUniform(m[1..], v);
    }
  }

  /** For ids that are all real tokens (positive), the mask of the padded row
      is ones over the kept ids and zeros over the padding, so it counts
      `min(|item|, maxLen)` ones. */
  lemma MaskOfPaddedRow(item: seq<int>, maxLen: nat)
    requires forall j :: 0 <= j < |item| ==> item[j] > PadId
    ensures var m := RowMask(PadRow(item, maxLen));
      && |m| == maxLen
      && (forall j :: 0 <= j < maxLen ==> (m[j] == 1 <==> j < |item|))
      && CountOnes(m) == if |item| < maxLen then |item| else maxLen
  {
    var m := RowMask(PadRow(item, maxLen));
    var kept := if |item| < maxLen then |item| else maxLen;
    assert m == m[..kept] + m[kept..];
    CountOnesAppend(m[..kept], m[kept..]);
    CountOnesUniform(m[..kept], 1);
    CountOnesUniform(m[kept..], 0);
  }

  /** The label tensor of `preprocess`: float labels for a one-logit head,
      integer class labels for any other head, and a not-a-number placeholder
      per text when no labels are given. */
  datatype Labels =
    | FloatLabels(values: seq<real>)
    | LongLabels(classes: seq<int>)
    | Placeholder(count: nat)

  function LabelCount(labels: Labels): nat
  {
    match labels
    case FloatLabels(values) => |values|
    case LongLabels(classes) => |classes|
    case Placeholder(count) => count
  }

  /** Labels for `texts` texts, given the labels `y` and the head's output
      width (`None` when the model has no classification head). */
  function MakeLabels(y: Option<seq<int>>, head: Option<nat>, texts: nat): (r: Result<Labels, Error>)
    ensures y.None? ==> r == Ok(Placeholder(texts))
    ensures y.Some? && head.None? ==> r == Err(MissingHead)
    ensures y.Some? && head.Some? ==> r.Ok? && LabelCount(r.value) == |y.value|
    ensures y.Some? && head.Some? ==> (r.value.FloatLabels? <==> head.value == 1)
    ensures r.Ok? && r.value.FloatLabels? ==> forall i :: 0 <= i < |y.value| ==> r.value.values[i] == y.value[i] as real
    ensures r.Ok? && r.value.LongLabels? ==> r.value.classes == y.value
  {
    match y
    case None => Ok(Placeholder(texts))
    case Some(ys) =>
      match head
      case None => Err(MissingHead)
      case Some(width) =>
        if width == 1 then Ok(FloatLabels(seq(|ys|, i requires 0 <= i < |ys| => ys[i] as real)))
        else Ok(LongLabels(ys))
  }

  /** The dataset `preprocess` hands to the DataLoader. */
  datatype Dataset = Dataset(ids: seq<seq<int>>, masks: seq<seq<int>>, labels: Labels)

  /** `MyModel.preprocess` up to the DataLoader: `tokenized` holds the
      tokenizer's ids for each text. */
  method Preprocess(tokenized: seq<seq<int>>, y: Option<seq<int>>, head: Option<nat>, maxLen: nat)
    returns (r: Result<Dataset, Error>)
    ensures y.Some? && head.None? ==> r == Err(MissingHead)
    ensures y.Some? && head.Some? && |y.value| != |tokenized| ==> r == Err(SizeMismatch)
    ensures y.None? || (head.Some? && |y.value| == |tokenized|) ==> r.Ok?
    ensures r.Ok? ==> MakeLabels(y, head, |tokenized|) == Ok(r.value.labels)
    ensures r.Ok? ==> |r.value.ids| == |tokenized| && |r.value.masks| == |tokenized|
    ensures r.Ok? ==> forall i :: 0 <= i < |tokenized| ==>
      && r.value.ids[i] == PadRow(tokenized[i], maxLen)
      && |r.value.masks[i]| == maxLen
      && r.value.masks[i] == RowMask(r.value.ids[i])
  {
    var labels := MakeLabels(y, head, |tokenized|);
    if labels.Err? {
      return Err(labels.error);
    }
    var ids := PadSequences(tokenized, maxLen);
    var masks := AttentionMasks(ids);
    if LabelCount(labels.value) != |ids| {
      return Err(SizeMismatch);
    }
    r := Ok(Dataset(ids, masks, labels.value));
  }
}
