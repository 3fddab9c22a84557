/** The result of one step of a component: a new state, or the fault that stops the program. */
module Outcomes {

  /** `Fault` stands for a failed assertion, a dangling pointer or a fatal log line;
      `line` is the source line at which it would happen. */
  datatype Outcome<+T> = Ok(value: T) | Fault(line: nat) {
    predicate IsFailure() { Fault? }

    function PropagateFailure<U>(): Outcome<U>
      requires Fault?
    {
      Fault(line)
    }

    function Extract(): T
      requires Ok?
    {
      value
    }
  }
}
