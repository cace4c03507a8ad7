/** Saved task runs and the record of a pipeline run. */
module Runs {
  import opened Values
  import opened Pipelines

  /** A JSON column: the value, and whether there is one. */
  datatype Json = Json(val: Value, valid: bool)

  datatype TaskRun = TaskRun(
    dotID: string,
    index: int32,
    output: Json,
    error: Option<string>,
    finishedAt: Option<int>)

  /** `TaskRun.IsPending`. */
  predicate IsPending(tr: TaskRun) {
    tr.finishedAt.None? && !tr.output.valid && tr.error.None?
  }

  /** `Result.OutputDB`: nil and nil pointers are saved as no value. */
  function OutputDB(r: Result): Json {
    Json(r.value, r.value != NIL_VALUE && r.value != Scalar(NilPointer))
  }

  /** `Result.ErrorDB`: errors are saved by their message. */
  function ErrorDB(r: Result): Option<string> {
    match r.error
    case None => None
    case Some(e) => Some(Message(e))
  }

  /** The result that `reconstructResults` rebuilds from a saved task run. */
  function SavedResult(tr: TaskRun): Result {
    Result(
      if tr.output.valid then tr.output.val else NIL_VALUE,
      match tr.error case None => None case Some(text) => Some(Restored(text)))
  }

  /** The text of an error that a task, a panic, a cancellation or a saved run has left. */
  ghost predicate Says(e: GoError, text: string) {
    match e
    case TaskError(t) => text == t
    case Restored(t) => text == t
    case Cancelled => text == "task run cancelled (fail early)"
    case Panicked(detail) => text == "goroutine panicked when executing run: " + detail
    case _ => true
  }

  lemma MessageSays(e: GoError)
    ensures Says(e, Message(e))
  {
  }
}
