/** The training side of `MyModel` (models/bert_model.py): the three lists of
    `triplet_train_collection`, the zip-driven epoch loop of `triplet_train`,
    the epoch loop of `supervised_train`, and the wrapper object whose
    optimizer and scheduler `setup_optimizer` replaces. Loss values, metric
    values, gradients and the AdamW and warmup algorithms are numerics of
    torch, transformers and scikit-learn: losses and metrics come in as
    functions, optimizers and schedulers are records of how they were built. */
module Training {
  import opened Wrappers
  import opened Errors
  import opened Seqs
  import opened Bert
  import opened Optimization
  import Preprocessing

  /** An article of the collection: its title and the value of its `text()`. */
  datatype Article = Article(title: string, text: string)

  datatype Triplets = Triplets(anchor: seq<string>, pos: seq<string>, neg: seq<string>)

  /** `c[:-1]` when the collection has odd length, otherwise `c`. */
  function EvenPrefix<T>(c: seq<T>): (r: seq<T>)
    ensures r <= c
    ensures |r| % 2 == 0
    ensures |r| == |c| - |c| % 2
  {
    if |c| % 2 == 1 then c[..|c| - 1] else c
  }

  function Titles(c: seq<Article>): (r: seq<string>)
    ensures |r| == |c| && forall i :: 0 <= i < |c| ==> r[i] == c[i].title
  {
    seq(|c|, i requires 0 <= i < |c| => c[i].title)
  }

  function Texts(c: seq<Article>): (r: seq<string>)
    ensures |r| == |c| && forall i :: 0 <= i < |c| ==> r[i] == c[i].text
  {
    seq(|c|, i requires 0 <= i < |c| => c[i].text)
  }

  /** The anchor, positive and negative lists of `triplet_train_collection`:
      with `headlineEmb` the text is the anchor and the title the positive,
      without it the roles swap; the negatives are the positives reversed. */
  function TripletLists(c: seq<Article>, headlineEmb: bool): (t: Triplets)
    ensures |t.anchor| == |t.pos| == |t.neg| == |c| - |c| % 2
    ensures |t.anchor| % 2 == 0
    ensures t.neg == Reverse(t.pos)
    ensures forall i :: 0 <= i < |t.anchor| ==>
      if headlineEmb then t.anchor[i] == c[i].text && t.pos[i] == c[i].title
      else t.anchor[i] == c[i].title && t.pos[i] == c[i].text
  {
    var kept := EvenPrefix(c);
    if headlineEmb then Triplets(Texts(kept), Titles(kept), Reverse(Titles(kept)))
    else Triplets(Titles(kept), Texts(kept), Reverse(Texts(kept)))
  }

  /** Reversing the negatives gives back the positives, so each positive is
      also used as a negative exactly once. */
  lemma {:induction false} PositivesFromNegatives(c: seq<Article>, headlineEmb: bool)
    ensures var t := TripletLists(c, headlineEmb); Reverse(t.neg) == t.pos
  {
    ReverseReverse(TripletLists(c, headlineEmb).pos);
  }

  /** Because the lists have even length, the negative paired with an anchor
      always comes from a different article: the one mirrored around the
      middle of the list. */
  lemma NegativeFromAnotherArticle(c: seq<Article>, headlineEmb: bool, i: nat)
    requires i < |c| - |c| % 2
    ensures var t := TripletLists(c, headlineEmb);
      var j := |t.pos| - 1 - i;
      && 0 <= j < |c| && j != i
      && t.neg[i] == (if headlineEmb then c[j].title else c[j].text)
  {
  }

  /** A batch of one of the three triplet loaders, `(input_ids, mask, _)`,
      together with what the encoder and the head make of it: the encoder
      output and the head's logits, from which `forward` builds its result. */
  datatype Batch = Batch(enc: Encoded, mask: seq<seq<int>>, logits: seq<seq<real>>)

  /** The anchor, positive and negative loaders `triplet_train` zips. */
  datatype Loaders = Loaders(anchor: seq<Batch>, pos: seq<Batch>, neg: seq<Batch>)

  /** The number of steps `zip` takes: the length of the shortest loader. */
  function ZipLength(l: Loaders): nat
  {
    Min3(|l.anchor|, |l.pos|, |l.neg|)
  }

  /** `self.model(input_ids, mask, post_op=post_op)` on one batch. */
  function ForwardBatch(postOp: Option<string>, head: Option<nat>, b: Batch): Result<Output, Error>
  {
    Forward(postOp, b.enc, b.mask, head, b.logits)
  }

  /** The three outputs `criterion` compares. */
  datatype StepOutputs = StepOutputs(anchor: Output, pos: Output, neg: Output)

  /** One zipped step of `triplet_train`: `forward` on the anchor, positive
      and negative batch in that order, then `self.scheduler.step()` when
      warmup is on. A forward pass that fails (or, for an invalid `post_op`,
      returns nothing, which `criterion` then rejects) fails the step with
      its error; `schedulerMissing` says warmup is on and there is no
      scheduler to step. */
  function Step(postOp: Option<string>, head: Option<nat>, schedulerMissing: bool, a: Batch, p: Batch, n: Batch)
    : (r: Result<StepOutputs, Error>)
    ensures r.Ok? <==>
      && ForwardBatch(postOp, head, a).Ok? && ForwardBatch(postOp, head, p).Ok? && ForwardBatch(postOp, head, n).Ok?
      && !schedulerMissing
    ensures r.Ok? ==> r.value == StepOutputs(ForwardBatch(postOp, head, a).value, ForwardBatch(postOp, head, p).value,
                                             ForwardBatch(postOp, head, n).value)
    ensures ForwardBatch(postOp, head, a).Err? ==> r == Err(ForwardBatch(postOp, head, a).error)
    ensures ForwardBatch(postOp, head, a).Ok? && ForwardBatch(postOp, head, p).Err? ==>
      r == Err(ForwardBatch(postOp, head, p).error)
    ensures ForwardBatch(postOp, head, a).Ok? && ForwardBatch(postOp, head, p).Ok? && ForwardBatch(postOp, head, n).Err? ==>
      r == Err(ForwardBatch(postOp, head, n).error)
    ensures r.Err? ==>
      || ForwardBatch(postOp, head, a) == Err(r.error) || ForwardBatch(postOp, head, p) == Err(r.error)
      || ForwardBatch(postOp, head, n) == Err(r.error) || r.error == NoScheduler
    ensures ParsePostOp(postOp).None? ==> r == Err(InvalidPostOp)
    ensures postOp == Some("predict") && head.None? ==> r == Err(MissingHead)
  {
    match ForwardBatch(postOp, head, a)
    case Err(e) => Err(e)
    case Ok(ao) =>
      match ForwardBatch(postOp, head, p)
      case Err(e) => Err(e)
      case Ok(po) =>
        match ForwardBatch(postOp, head, n)
        case Err(e) => Err(e)
        case Ok(no) => if schedulerMissing then Err(NoScheduler) else Ok(StepOutputs(ao, po, no))
  }

  /** Step `k` of the zip. */
  function StepAt(l: Loaders, postOp: Option<string>, head: Option<nat>, schedulerMissing: bool, k: nat)
    : Result<StepOutputs, Error>
    requires k < ZipLength(l)
  {
    Step(postOp, head, schedulerMissing, l.anchor[k], l.pos[k], l.neg[k])
  }

  /** The first `n` steps of the zip all go through. */
  predicate StepsOk(l: Loaders, postOp: Option<string>, head: Option<nat>, schedulerMissing: bool, n: nat)
    requires n <= ZipLength(l)
  {
    forall k :: 0 <= k < n ==> StepAt(l, postOp, head, schedulerMissing, k).Ok?
  }

  /** One more step that goes through extends a run of steps that go through. */
  lemma StepsOkExtend(l: Loaders, postOp: Option<string>, head: Option<nat>, schedulerMissing: bool, n: nat)
    requires n < ZipLength(l) && StepsOk(l, postOp, head, schedulerMissing, n)
    requires StepAt(l, postOp, head, schedulerMissing, n).Ok?
    ensures StepsOk(l, postOp, head, schedulerMissing, n + 1)
  {
  }

  /** Sum of the losses of the first `n` zipped steps of epoch `e`. */
  function ZipLoss(l: Loaders, postOp: Option<string>, head: Option<nat>, schedulerMissing: bool,
                   loss: (nat, Output, Output, Output) -> real, e: nat, n: nat): real
    requires n <= ZipLength(l) && StepsOk(l, postOp, head, schedulerMissing, n)
  {
    if n == 0 then 0.0
    else
      var o := StepAt(l, postOp, head, schedulerMissing, n - 1).value;
      ZipLoss(l, postOp, head, schedulerMissing, loss, e, n - 1) + loss(e, o.anchor, o.pos, o.neg)
  }

  /** One epoch of `triplet_train`: `zip` walks the three loaders in step
      until the shortest ends, accumulating `tr_loss` and `tr_steps`; the
      first step that fails ends the run with its error. */
  method TripletEpoch(l: Loaders, postOp: Option<string>, head: Option<nat>, schedulerMissing: bool,
                      loss: (nat, Output, Output, Output) -> real, e: nat)
    returns (r: Result<(nat, real), Error>)
    ensures r.Ok? <==> StepsOk(l, postOp, head, schedulerMissing, ZipLength(l))
    ensures r.Ok? ==> r.value == (ZipLength(l), ZipLoss(l, postOp, head, schedulerMissing, loss, e, ZipLength(l)))
    ensures r.Err? ==> exists k :: 0 <= k < ZipLength(l) && StepsOk(l, postOp, head, schedulerMissing, k)
                                   && StepAt(l, postOp, head, schedulerMissing, k) == Err(r.error)
  {
    var steps: nat, total := 0, 0.0;
    while steps < ZipLength(l)
      invariant steps <= ZipLength(l)
      invariant StepsOk(l, postOp, head, schedulerMissing, steps)
      invariant total == ZipLoss(l, postOp, head, schedulerMissing, loss, e, steps)
    {
      var s := StepAt(l, postOp, head, schedulerMissing, steps);
      if s.Err? {
        assert !StepsOk(l, postOp, head, schedulerMissing, ZipLength(l));
        return Err(s.error);
      }
      StepsOkExtend(l, postOp, head, schedulerMissing, steps);
      total := total + loss(e, s.value.anchor, s.value.pos, s.value.neg);
      steps := steps + 1;
    }
    r := Ok((steps, total));
  }

  /** Every step of the zip goes through, and there is at least one. */
  predicate EpochRuns(l: Loaders, postOp: Option<string>, head: Option<nat>, schedulerMissing: bool)
  {
    ZipLength(l) > 0 && StepsOk(l, postOp, head, schedulerMissing, ZipLength(l))
  }

  /** The mean loss of epoch `e`, `tr_loss / tr_steps`. */
  function EpochMean(l: Loaders, postOp: Option<string>, head: Option<nat>, schedulerMissing: bool,
                     loss: (nat, Output, Output, Output) -> real, e: nat): real
    requires EpochRuns(l, postOp, head, schedulerMissing)
  {
    ZipLoss(l, postOp, head, schedulerMissing, loss, e, ZipLength(l)) / ZipLength(l) as real
  }

  /** The epoch loop of `triplet_train`, returning its `losses` list: one
      mean loss per epoch, the value line 100 logs. An epoch without steps
      fails at the division `tr_loss / tr_steps`; otherwise the first step
      that fails ends the run. Every epoch walks the same loaders, so a run
      that fails fails in its first epoch. */
  method TripletEpochs(l: Loaders, epochs: nat, postOp: Option<string>, head: Option<nat>, schedulerMissing: bool,
                       loss: (nat, Output, Output, Output) -> real) returns (r: Result<seq<real>, Error>)
    ensures epochs == 0 ==> r == Ok([])
    ensures epochs > 0 ==> (r.Ok? <==> EpochRuns(l, postOp, head, schedulerMissing))
    ensures r.Ok? ==> |r.value| == epochs
    ensures r.Ok? && epochs > 0 ==> (EpochRuns(l, postOp, head, schedulerMissing) &&
      forall e :: 0 <= e < epochs ==> r.value[e] == EpochMean(l, postOp, head, schedulerMissing, loss, e))
    ensures epochs > 0 && ZipLength(l) == 0 ==> r == Err(NoSteps)
    ensures r.Err? && ZipLength(l) > 0 ==>
      exists k :: 0 <= k < ZipLength(l) && StepsOk(l, postOp, head, schedulerMissing, k)
                  && StepAt(l, postOp, head, schedulerMissing, k) == Err(r.error)
    ensures epochs > 0 && ZipLength(l) > 0 && ParsePostOp(postOp).None? ==> r == Err(InvalidPostOp)
    ensures epochs > 0 && ZipLength(l) > 0 && postOp == Some("predict") && head.None? ==> r == Err(MissingHead)
    ensures epochs > 0 && ZipLength(l) > 0 && schedulerMissing && StepAt(l, postOp, head, false, 0).Ok? ==>
      r == Err(NoScheduler)
  {
    var losses: seq<real> := [];
    for e := 0 to epochs
      invariant |losses| == e
      invariant e > 0 ==> EpochRuns(l, postOp, head, schedulerMissing)
      invariant forall k :: 0 <= k < e ==> losses[k] == EpochMean(l, postOp, head, schedulerMissing, loss, k)
    {
      var epoch := TripletEpoch(l, postOp, head, schedulerMissing, loss, e);
      if epoch.Err? {
        ghost var k :| 0 <= k < ZipLength(l) && StepsOk(l, postOp, head, schedulerMissing, k)
                      && StepAt(l, postOp, head, schedulerMissing, k) == Err(epoch.error);
        if k > 0 {
          assert StepAt(l, postOp, head, schedulerMissing, 0).Ok?;
        }
        return Err(epoch.error);
      }
      var (steps, total) := epoch.value;
      if steps == 0 {
        return Err(NoSteps);
      }
      losses := losses + [total / steps as real];
    }
    if epochs > 0 {
      assert StepAt(l, postOp, head, schedulerMissing, 0).Ok?;
    }
    r := Ok(losses);
  }

  /** The losses of one epoch of `supervised_train`, batch by batch. */
  function BatchLosses<B>(train: seq<B>, criterion: Loss, loss: (Loss, nat, B) -> real, e: nat): (r: seq<real>)
    ensures |r| == |train|
  {
    seq(|train|, j requires 0 <= j < |train| => loss(criterion, e, train[j]))
  }

  /** The `losses` list of `supervised_train` after `n` epochs. */
  function RunLosses<B>(train: seq<B>, criterion: Loss, loss: (Loss, nat, B) -> real, n: nat): (r: seq<real>)
    ensures |r| == n * |train|
  {
    if n == 0 then [] else RunLosses(train, criterion, loss, n - 1) + BatchLosses(train, criterion, loss, n - 1)
  }

  /** Every epoch's evaluation succeeds. */
  predicate MetricsOk(metrics: nat -> Result<(real, real), Error>, epochs: nat)
  {
    forall e :: 0 <= e < epochs ==> metrics(e).Ok?
  }

  function Accuracies(metrics: nat -> Result<(real, real), Error>, epochs: nat): (r: seq<real>)
    requires MetricsOk(metrics, epochs)
    ensures |r| == epochs
  {
    seq(epochs, e requires 0 <= e < epochs => metrics(e).value.0)
  }

  function MacroF1s(metrics: nat -> Result<(real, real), Error>, epochs: nat): (r: seq<real>)
    requires MetricsOk(metrics, epochs)
    ensures |r| == epochs
  {
    seq(epochs, e requires 0 <= e < epochs => metrics(e).value.1)
  }

  /** What `supervised_train` returns: the per-batch losses and the
      per-epoch accuracy and macro-F1. */
  datatype TrainReport = TrainReport(losses: seq<real>, accuracy: seq<real>, macroF1: seq<real>)

  /** The epoch loop of `supervised_train`: every batch's loss is appended;
      an epoch without batches fails at `tr_loss / tr_steps`; after each
      epoch `evaluate` runs, and `metrics(e)` is its outcome. */
  method SupervisedEpochs<B>(train: seq<B>, epochs: nat, criterion: Loss, loss: (Loss, nat, B) -> real,
                             metrics: nat -> Result<(real, real), Error>) returns (r: Result<TrainReport, Error>)
    ensures epochs > 0 && |train| == 0 ==> r == Err(NoSteps)
    ensures (epochs == 0 || |train| > 0) && MetricsOk(metrics, epochs) ==>
      r == Ok(TrainReport(RunLosses(train, criterion, loss, epochs), Accuracies(metrics, epochs), MacroF1s(metrics, epochs)))
    ensures r.Ok? ==> MetricsOk(metrics, epochs)
    ensures r.Err? && |train| > 0 ==> exists e :: 0 <= e < epochs && metrics(e) == Err(r.error)
  {
    var losses: seq<real> := [];
    var accuracy: seq<real> := [];
    var macroF1: seq<real> := [];
    for e := 0 to epochs
      invariant losses == RunLosses(train, criterion, loss, e)
      invariant e > 0 ==> |train| > 0
      invariant MetricsOk(metrics, e)
      invariant accuracy == Accuracies(metrics, e) && macroF1 == MacroF1s(metrics, e)
    {
      var trSteps := 0;
      for j := 0 to |train|
        invariant trSteps == j
        invariant losses == RunLosses(train, criterion, loss, e) + BatchLosses(train, criterion, loss, e)[..j]
      {
        losses := losses + [loss(criterion, e, train[j])];
        trSteps := trSteps + 1;
      }
      if trSteps == 0 {
        return Err(NoSteps);
      }
      assert BatchLosses(train, criterion, loss, e)[..|train|] == BatchLosses(train, criterion, loss, e);
      var m := metrics(e);
      if m.Err? {
        return Err(m.error);
      }
      accuracy := accuracy + [m.value.0];
      macroF1 := macroF1 + [m.value.1];
    }
    r := Ok(TrainReport(losses, accuracy, macroF1));
  }

  /** The AdamW optimizer `setup_optimizer` builds: its parameter groups and
      learning rate. */
  class Optimizer<P> {
    const groups: seq<ParamGroup<P>>
    const lr: real

    constructor (groups: seq<ParamGroup<P>>, lr: real)
      ensures this.groups == groups && this.lr == lr
    {
      this.groups := groups;
      this.lr := lr;
    }
  }

  /** The linear warmup schedule, bound to the optimizer it drives. */
  class Scheduler<P> {
    const optimizer: Optimizer<P>
    const warmupSteps: real
    const totalSteps: int

    constructor (optimizer: Optimizer<P>, warmupSteps: real, totalSteps: int)
      ensures this.optimizer == optimizer && this.warmupSteps == warmupSteps && this.totalSteps == totalSteps
    {
      this.optimizer := optimizer;
      this.warmupSteps := warmupSteps;
      this.totalSteps := totalSteps;
    }
  }

  /** The fraction of steps `setup_optimizer` spends warming up by default. */
  const WarmupPercent: real := 0.1

  /** A new `MyModel` after its first `fresh_load`: the maximal sequence length `preprocess`
      pads to, the width of the model's head, and the optimizer and scheduler
      of the last `setup_optimizer` call. */
  class Trainer<P> {
    const maxLen: nat
    const head: Option<nat>
    var optimizer: Optimizer?<P>
    var scheduler: Scheduler?<P>

    constructor (maxLen: nat, numClasses: Option<nat>)
      ensures this.maxLen == maxLen && head == HeadWidth(numClasses)
      ensures optimizer == null && scheduler == null
    {
      this.maxLen := maxLen;
      head := HeadWidth(numClasses);
      optimizer := null;
      scheduler := null;
    }

    /** `MyModel.preprocess` up to the DataLoader, with this model's
        `max_len` and head: `tokenized` holds the tokenizer's ids for each
        text. */
    method Preprocess(tokenized: seq<seq<int>>, y: Option<seq<int>>) returns (r: Result<Preprocessing.Dataset, Error>)
      ensures y.Some? && head.None? ==> r == Err(MissingHead)
      ensures y.Some? && head.Some? && |y.value| != |tokenized| ==> r == Err(SizeMismatch)
      ensures y.None? || (head.Some? && |y.value| == |tokenized|) ==> r.Ok?
      ensures r.Ok? ==> |r.value.ids| == |tokenized| && |r.value.masks| == |tokenized|
      ensures r.Ok? ==> forall i :: 0 <= i < |tokenized| ==>
        && r.value.ids[i] == Preprocessing.PadRow(tokenized[i], maxLen)
        && r.value.masks[i] == Preprocessing.RowMask(r.value.ids[i])
      ensures r.Ok? ==> Preprocessing.MakeLabels(y, head, |tokenized|) == Ok(r.value.labels)
    {
      r := Preprocessing.Preprocess(tokenized, y, head, maxLen);
    }

    /** `setup_optimizer`: always a fresh optimizer over the two parameter
        groups; with warmup, a fresh schedule over `batchCount * epochs`
        steps, which fails when either is missing after the optimizer has
        already been replaced. Without warmup the old scheduler stays. */
    method SetupOptimizer(named: seq<(string, P)>, warmup: bool, lr: real, epochs: Option<int>,
                          batchCount: Option<nat>, warmupPercent: real) returns (r: Result<(), Error>)
      modifies this
      ensures optimizer != null && fresh(optimizer)
      ensures optimizer.groups == GroupParameters(named) && optimizer.lr == lr
      ensures r.Err? <==> warmup && (epochs.None? || batchCount.None?)
      ensures r.Err? ==> r.error == MissingWarmupInfo
      ensures !(warmup && r.Ok?) ==> scheduler == old(scheduler)
      ensures warmup && r.Ok? ==>
        && scheduler != null && fresh(scheduler)
        && scheduler.optimizer == optimizer
        && scheduler.totalSteps == batchCount.value * epochs.value
        && scheduler.warmupSteps == (batchCount.value * epochs.value) as real * warmupPercent
    {
      optimizer := new Optimizer(GroupParameters(named), lr);
      if !warmup {
        return Ok(());
      }
      if epochs.None? || batchCount.None? {
        return Err(MissingWarmupInfo);
      }
      var total := batchCount.value * epochs.value;
      scheduler := new Scheduler(optimizer, total as real * warmupPercent, total);
      r := Ok(());
    }

    /** `triplet_train` as written. The optimizer is rebuilt without warmup,
        so the scheduler it steps when `warmup` is on is whatever an earlier
        call left behind, or none at all. The `losses` list it builds is
        never returned: a run that does not raise returns `None`, here
        `Ok(())`, and the per-epoch means exist only as what line 100 logs,
        here `logged`. */
    method TripletTrain(named: seq<(string, P)>, l: Loaders, epochs: nat, postOp: Option<string>,
                        lr: real, warmup: bool, loss: (nat, Output, Output, Output) -> real)
      returns (r: Result<(), Error>, logged: seq<real>)
      modifies this
      ensures optimizer != null && fresh(optimizer)
      ensures optimizer.groups == GroupParameters(named) && optimizer.lr == lr
      ensures scheduler == old(scheduler)
      ensures epochs == 0 ==> r.Ok? && logged == []
      ensures epochs > 0 ==> (r.Ok? <==> EpochRuns(l, postOp, head, warmup && old(scheduler) == null))
      ensures r.Err? ==> logged == []
      ensures r.Ok? ==> |logged| == epochs
      ensures r.Ok? && epochs > 0 ==> (EpochRuns(l, postOp, head, warmup && old(scheduler) == null) &&
        forall e :: 0 <= e < epochs ==> logged[e] == EpochMean(l, postOp, head, warmup && old(scheduler) == null, loss, e))
      ensures epochs > 0 && ZipLength(l) == 0 ==> r == Err(NoSteps)
      ensures epochs > 0 && ZipLength(l) > 0 && ParsePostOp(postOp).None? ==> r == Err(InvalidPostOp)
      ensures epochs > 0 && ZipLength(l) > 0 && postOp == Some("predict") && head.None? ==> r == Err(MissingHead)
      ensures epochs > 0 && ZipLength(l) > 0 && warmup && old(scheduler) == null && StepAt(l, postOp, head, false, 0).Ok? ==>
        r == Err(NoScheduler)
    {
      var setup := SetupOptimizer(named, false, lr, None, None, WarmupPercent);
      var losses := TripletEpochs(l, epochs, postOp, head, warmup && scheduler == null, loss);
      if losses.Err? {
        return Err(losses.error), [];
      }
      r, logged := Ok(()), losses.value;
    }

    /** `triplet_train` as evidently intended: warmup is passed on, so with
        warmup the scheduler stepped is a fresh one driving this run's
        optimizer over exactly the steps taken, and the `losses` list is
        returned. */
    method TripletTrainScheduled(named: seq<(string, P)>, l: Loaders, epochs: nat, postOp: Option<string>,
                                 lr: real, warmup: bool, loss: (nat, Output, Output, Output) -> real)
      returns (r: Result<seq<real>, Error>)
      modifies this
      ensures optimizer != null && fresh(optimizer)
      ensures optimizer.groups == GroupParameters(named) && optimizer.lr == lr
      ensures warmup ==>
        && scheduler != null && fresh(scheduler)
        && scheduler.optimizer == optimizer
        && scheduler.totalSteps == ZipLength(l) * epochs
      ensures !warmup ==> scheduler == old(scheduler)
      ensures epochs == 0 ==> r == Ok([])
      ensures epochs > 0 ==> (r.Ok? <==> EpochRuns(l, postOp, head, false))
      ensures r.Ok? ==> |r.value| == epochs
      ensures r.Ok? && epochs > 0 ==> (EpochRuns(l, postOp, head, false) &&
        forall e :: 0 <= e < epochs ==> r.value[e] == EpochMean(l, postOp, head, false, loss, e))
      ensures epochs > 0 && ZipLength(l) == 0 ==> r == Err(NoSteps)
      ensures epochs > 0 && ZipLength(l) > 0 && ParsePostOp(postOp).None? ==> r == Err(InvalidPostOp)
      ensures epochs > 0 && ZipLength(l) > 0 && postOp == Some("predict") && head.None? ==> r == Err(MissingHead)
    {
      var setup := SetupOptimizer(named, warmup, lr, Some(epochs), Some(ZipLength(l)), WarmupPercent);
      r := TripletEpochs(l, epochs, postOp, head, warmup && scheduler == null, loss);
    }

    /** `supervised_train` as written: accuracy and macro-F1 are computed
        every epoch but never appended, so both returned lists are empty. */
    method SupervisedTrain<B>(named: seq<(string, P)>, train: seq<B>, epochs: nat, lr: real, warmup: bool,
                              loss: (Loss, nat, B) -> real, metrics: nat -> Result<(real, real), Error>)
      returns (r: Result<TrainReport, Error>)
      modifies this
      ensures optimizer != null && fresh(optimizer)
      ensures optimizer.groups == GroupParameters(named) && optimizer.lr == lr
      ensures warmup ==>
        && scheduler != null && fresh(scheduler)
        && scheduler.optimizer == optimizer && scheduler.totalSteps == |train| * epochs
      ensures !warmup ==> scheduler == old(scheduler)
      ensures head.None? ==> r == Err(MissingHead)
      ensures head.Some? && epochs > 0 && |train| == 0 ==> r == Err(NoSteps)
      ensures head.Some? && (epochs == 0 || |train| > 0) && MetricsOk(metrics, epochs) ==>
        r == Ok(TrainReport(RunLosses(train, Criterion(head.value), loss, epochs), [], []))
      ensures r.Ok? ==> MetricsOk(metrics, epochs)
      ensures r.Err? && head.Some? && |train| > 0 ==> exists e :: 0 <= e < epochs && metrics(e) == Err(r.error)
    {
      var setup := SetupOptimizer(named, warmup, lr, Some(epochs), Some(|train|), WarmupPercent);
      if head.None? {
        return Err(MissingHead);
      }
      var run := SupervisedEpochs(train, epochs, Criterion(head.value), loss, metrics);
      if run.Err? {
        return Err(run.error);
      }
      r := Ok(TrainReport(run.value.losses, [], []));
    }

    /** `supervised_train` returning what it evidently intends to: one
        accuracy and one macro-F1 per epoch. */
    method SupervisedTrainReported<B>(named: seq<(string, P)>, train: seq<B>, epochs: nat, lr: real, warmup: bool,
                                      loss: (Loss, nat, B) -> real, metrics: nat -> Result<(real, real), Error>)
      returns (r: Result<TrainReport, Error>)
      modifies this
      ensures optimizer != null && fresh(optimizer)
      ensures optimizer.groups == GroupParameters(named) && optimizer.lr == lr
      ensures warmup ==>
        && scheduler != null && fresh(scheduler)
        && scheduler.optimizer == optimizer && scheduler.totalSteps == |train| * epochs
      ensures !warmup ==> scheduler == old(scheduler)
      ensures head.None? ==> r == Err(MissingHead)
      ensures head.Some? && epochs > 0 && |train| == 0 ==> r == Err(NoSteps)
      ensures head.Some? && (epochs == 0 || |train| > 0) && MetricsOk(metrics, epochs) ==>
        && r.Ok?
        && r.value.losses == RunLosses(train, Criterion(head.value), loss, epochs)
        && |r.value.accuracy| == epochs && |r.value.macroF1| == epochs
        && forall e :: 0 <= e < epochs ==> r.value.accuracy[e] == metrics(e).value.0 && r.value.macroF1[e] == metrics(e).value.1
      ensures r.Ok? ==> MetricsOk(metrics, epochs)
      ensures r.Err? && head.Some? && |train| > 0 ==> exists e :: 0 <= e < epochs && metrics(e) == Err(r.error)
    {
      var setup := SetupOptimizer(named, warmup, lr, Some(epochs), Some(|train|), WarmupPercent);
      if head.None? {
        return Err(MissingHead);
      }
      r := SupervisedEpochs(train, epochs, Criterion(head.value), loss, metrics);
    }
  }

  /** Three loaders of one batch with no examples each: enough to run the
      loops of the examples below. */
  function OneEmptyBatch(): Loaders
  {
    var b := Batch(Encoded([], []), [], []);
    Loaders([b], [b], [b])
  }

  /** A supervised run with warmup followed by a triplet run with warmup:
      the triplet run's fresh optimizer is not the one the scheduler it
      steps was built for. */
  method StaleSchedulerExample()
  {
    var t := new Trainer<int>(512, Some(2));
    var named := [("encoder.dense.weight", 0), ("encoder.dense.bias", 1)];
    var supervised := t.SupervisedTrain(named, [0, 1], 1, 0.00003, true,
      (l: Loss, e: nat, b: int) => 0.5, (e: nat) => Ok((1.0, 1.0)));
    var l := OneEmptyBatch();
    assert StepAt(l, Some("mean"), t.head, false, 0).Ok?;
    var triplet, logged := t.TripletTrain(named, l, 1, Some("mean"), 0.00003, true,
      (e: nat, a: Output, p: Output, n: Output) => 0.5);
    assert triplet.Ok?;
    assert t.scheduler != null && t.scheduler.optimizer != t.optimizer;
  }

  /** A triplet run with warmup on a new model fails at its first
      step, since no scheduler was ever built; the scheduled version builds
      one for its own optimizer. */
  method MissingSchedulerExample()
  {
    var t := new Trainer<int>(512, None);
    var named: seq<(string, int)> := [];
    var l := OneEmptyBatch();
    assert StepAt(l, Some("mean"), t.head, false, 0).Ok?;
    var triplet, logged := t.TripletTrain(named, l, 1, Some("mean"), 0.00003, true,
      (e: nat, a: Output, p: Output, n: Output) => 0.5);
    assert triplet == Err(NoScheduler);
    var scheduled := t.TripletTrainScheduled(named, l, 1, Some("mean"), 0.00003, true,
      (e: nat, a: Output, p: Output, n: Output) => 0.5);
    assert scheduled.Ok? && |scheduled.value| == 1;
    assert t.scheduler != null && t.scheduler.optimizer == t.optimizer;
  }

  /** A two-epoch triplet run that goes through returns nothing: its two
      mean losses are only logged. The corrected version returns them. */
  method DiscardedLossesExample()
  {
    var t := new Trainer<int>(512, None);
    var named: seq<(string, int)> := [];
    var l := OneEmptyBatch();
    var loss := (e: nat, a: Output, p: Output, n: Output) => 0.5;
    assert StepAt(l, Some("mean"), t.head, false, 0).Ok?;
    assert ZipLength(l) == 1 && EpochRuns(l, Some("mean"), t.head, false);
    var asWritten, logged := t.TripletTrain(named, l, 2, Some("mean"), 0.00003, false, loss);
    assert asWritten.Ok? && |logged| == 2;
    var returned := t.TripletTrainScheduled(named, l, 2, Some("mean"), 0.00003, false, loss);
    assert returned.Ok? && returned.value == logged;
  }

  /** Two epochs of supervised training report no accuracy at all; the
      reporting version reports one per epoch. */
  method UnreportedMetricsExample()
  {
    var t := new Trainer<int>(512, Some(2));
    var named: seq<(string, int)> := [];
    var metrics := (e: nat) => Ok((0.75, 0.5));
    assert MetricsOk(metrics, 2);
    var asWritten := t.SupervisedTrain(named, [0, 1], 2, 0.00003, false, (l: Loss, e: nat, b: int) => 0.5, metrics);
    assert asWritten.Ok? && asWritten.value.accuracy == [] && asWritten.value.macroF1 == [];
    var reported := t.SupervisedTrainReported(named, [0, 1], 2, 0.00003, false, (l: Loss, e: nat, b: int) => 0.5, metrics);
    assert reported.Ok? && reported.value.accuracy == [0.75, 0.75];
  }
}
