/** The result of a step that may hit one of the program's fatal checks, and a value
    that may be missing. */
module Outcome {

  datatype Option<+T> = None | Some(value: T)

  datatype File = SinprocC | PipeC | QueueC | ListC | FsmC | TimerC | SockC | CtxC

  /** `Abort` carries the file and line of the nn_assert, errnum_assert or
      nn_fsm_bad_* call that stops the process. */
  datatype Result<+T> = Ok(value: T) | Abort(file: File, line: nat) {

    predicate IsFailure() {
      Abort?
    }

    function PropagateFailure<U>(): Result<U>
      requires Abort?
    {
      Abort(file, line)
    }

    function Extract(): T
      requires Ok?
    {
      value
    }
  }
}
