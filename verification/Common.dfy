/** Datatypes shared by every component of the model. */
module Common {

  datatype Option<+T> = None | Some(value: T) {
    predicate IsFailure() {
      None?
    }

    function PropagateFailure<U>(): Option<U>
      requires None?
    {
      None
    }

    function Extract(): T
      requires Some?
    {
      value
    }
  }

  /** How one command of a crash-prone program ends: it goes on, the process dies
      between two durable steps, or the program refuses and reports an error.
      Usable with `:-`, which stops the caller the way a crash or an exception does. */
  datatype Status = Ok | Crash | Raise {
    predicate IsFailure() {
      !Ok?
    }

    function PropagateFailure(): Status
      requires IsFailure()
    {
      this
    }
  }

  function Decimal(n: nat): string {
    var digit := [('0' as int + n % 10) as char];
    if n < 10 then digit else Decimal(n / 10) + digit
  }
}
