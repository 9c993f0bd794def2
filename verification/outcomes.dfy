/** Failure-carrying values shared by every module of the model.

    The Python source signals faults by raising (KeyError, AttributeError,
    ZeroDivisionError, ...). Because its state lives in mutable dicts, a raise
    part-way through an operation leaves the mutations made so far in place.
    `Outcome` keeps that state next to the fault, so the model can say exactly
    what the venue-facing state looks like after the exception escaped. */
module Outcomes {

  datatype Option<+T> = None | Some(value: T)

  /** The Python exception classes the modelled code can raise. A KeyError
      is keyed by the missing text key, or, for an order-book side, by the
      missing float price. */
  datatype Fault =
    | KeyError(key: string)
    | PriceKeyError(price: real)
    | AttributeError(name: string)
    | ZeroDivisionError
    | ValueError(text: string)
    | IndexError
    | TypeError

  /** A computation that either yields a value or raises. */
  datatype Result<+T> = Ok(value: T) | Err(fault: Fault) {
    predicate IsFailure() { Err? }

    function PropagateFailure<U>(): Result<U>
      requires Err?
    {
      Err(fault)
    }

    function Extract(): T
      requires Ok?
    {
      value
    }
  }

  /** A state transition that either completes or raises; in both cases the
      state that the mutations up to that point produced. */
  datatype Outcome<+S> = Done(state: S) | Raised(state: S, fault: Fault)
}
