/** Option and Result, the two ways the emulator's operations report "no value" and "failure". */
module Wrappers {

  datatype Option<+T> = None | Some(value: T)

  /** Why an operation stops: the emulator throws for the first five; `UndefinedRead` stands for
      a JavaScript `undefined` read, which the model does not carry into later arithmetic, and
      `UnmodelledMapper` for a mapper the emulator has but this model does not. */
  datatype Fault =
    | InvalidMapper(id: int)
    | UnmodelledMapper(id: int)
    | InvalidInstruction(code: int)
    | InvalidMode(mode: int)
    | NoHandler(opCode: int)
    | UnknownPpuAddress(address: int)
    | UndefinedRead(address: int)

  datatype Result<+T> = Ok(value: T) | Err(fault: Fault) {
    predicate IsFailure() { Err? }
    function PropagateFailure<U>(): Result<U> requires Err? { Err(fault) }
    function Extract(): T requires Ok? { value }
  }

  /** A read that may be `undefined`, as seen by the CPU: undefined stops the step. */
  function Defined<T>(o: Option<T>, address: int): (r: Result<T>)
    ensures r.Ok? <==> o.Some?
    ensures o.Some? ==> r.value == o.value
  {
    match o
    case Some(v) => Ok(v)
    case None => Err(UndefinedRead(address))
  }
}
