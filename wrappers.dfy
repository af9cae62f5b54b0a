/** Failure-carrying results shared by every module of the model. */
module Wrappers {

  datatype Option<+T> = None | Some(value: T)

  datatype Result<+T, +E> = Ok(value: T) | Err(error: E)
}

/** The ways an operation of the wrapper can fail, each named after what the
    Python runtime would raise at that point. */
module Errors {

  datatype Error =
    | MissingHead          // AttributeError: the model has no `cls` head
    | SizeMismatch         // TensorDataset: ids, masks and labels disagree in length
    | InvalidPostOp        // forward prints a message and returns None
    | EmptySequence        // `[:, 0, :]` on a sequence axis of length zero
    | EmptyLogits          // np.argmax of an empty row of logits
    | NothingToConcatenate // np.concatenate of an empty list of batches
    | MissingWarmupInfo    // len(None) or None * int while building the schedule
    | NoScheduler          // `self.scheduler` was never built
    | NoSteps              // `tr_loss / tr_steps` with no step taken
}
